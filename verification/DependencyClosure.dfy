/** The worklist of shipping_rust_packages in scripts/generate-third-party-notices.py. */
module DependencyClosure {
  import opened Wrappers
  import opened Sequences

  datatype Kind = Normal | Build | Dev

  datatype Dependency = Dependency(package: string, kinds: seq<Kind>)

  /** A package of the workspace has no source. */
  datatype Package = Package(id: string, name: string, source: Option<string>)

  datatype Error = NotOneRoot(found: nat) | UnknownNode(id: string)

  /** The resolved graph: the dependencies of each package id. */
  type Nodes = map<string, seq<Dependency>>

  predicate Ships(dependency: Dependency) {
    exists i :: 0 <= i < |dependency.kinds| && dependency.kinds[i] != Dev
  }

  function Roots(packages: seq<Package>, name: string): seq<string> {
    if packages == [] then []
    else
      (if packages[0].name == name && packages[0].source.None? then [packages[0].id] else []) + Roots(packages[1..], name)
  }

  // ---- Reachability, by paths ----

  predicate Edge(nodes: Nodes, a: string, b: string) {
    a in nodes && exists i :: 0 <= i < |nodes[a]| && nodes[a][i].package == b && Ships(nodes[a][i])
  }

  predicate IsPath(nodes: Nodes, path: seq<string>) {
    path != [] && forall i :: 0 <= i < |path| - 1 ==> Edge(nodes, path[i], path[i + 1])
  }

  /** b can be reached from a along edges with at least one kind other than dev. */
  ghost predicate Reachable(nodes: Nodes, a: string, b: string) {
    exists path :: IsPath(nodes, path) && path[0] == a && path[|path| - 1] == b
  }

  lemma ReachesItself(nodes: Nodes, a: string)
    ensures Reachable(nodes, a, a)
  {
    assert IsPath(nodes, [a]);
  }

  lemma ReachesNext(nodes: Nodes, a: string, b: string, c: string)
    requires Reachable(nodes, a, b) && Edge(nodes, b, c)
    ensures Reachable(nodes, a, c)
  {
    var path :| IsPath(nodes, path) && path[0] == a && path[|path| - 1] == b;
    assert IsPath(nodes, path + [c]);
  }

  /** A set that holds the root and every successor of its members holds all that
      can be reached. */
  lemma {:induction false} ClosedHoldsPath(nodes: Nodes, closed: set<string>, path: seq<string>)
    requires IsPath(nodes, path) && path[0] in closed
    requires forall a, b :: a in closed && Edge(nodes, a, b) ==> b in closed
    ensures path[|path| - 1] in closed
    decreases |path|
  {
    if |path| > 1 {
      ClosedHoldsPath(nodes, closed, path[..|path| - 1]);
      assert Edge(nodes, path[|path| - 2], path[|path| - 1]);
    }
  }

  // ---- The worklist ----

  /** Every successor of a reached package is reached or pending. */
  ghost predicate Explored(nodes: Nodes, reachable: set<string>, pending: seq<string>) {
    forall a, b :: a in reachable && Edge(nodes, a, b) ==> b in reachable || b in pending
  }

  /** The shipping dependencies of one package, appended in order. */
  method AppendShipping(dependencies: seq<Dependency>, pending: seq<string>) returns (longer: seq<string>)
    ensures forall b :: b in longer <==>
      b in pending || exists i :: 0 <= i < |dependencies| && dependencies[i].package == b && Ships(dependencies[i])
  {
    longer := pending;
    for i := 0 to |dependencies|
      invariant forall b :: b in longer <==>
        b in pending || exists j :: 0 <= j < i && dependencies[j].package == b && Ships(dependencies[j])
    {
      if Ships(dependencies[i]) {
        longer := longer + [dependencies[i].package];
      }
    }
  }

  /** `pending` after the dependencies of id were appended to `rest`. */
  ghost predicate Appended(nodes: Nodes, id: string, rest: seq<string>, pending: seq<string>) {
    forall b :: b in pending <==> b in rest || Edge(nodes, id, b)
  }

  lemma VisitExplores(nodes: Nodes, reachable: set<string>, before: seq<string>, id: string, rest: seq<string>, pending: seq<string>)
    requires Explored(nodes, reachable, before) && before == rest + [id] && Appended(nodes, id, rest, pending)
    ensures Explored(nodes, reachable + {id}, pending)
  {
  }

  lemma VisitReaches(nodes: Nodes, root: string, id: string, rest: seq<string>, pending: seq<string>)
    requires Appended(nodes, id, rest, pending) && Reachable(nodes, root, id)
    requires forall b <- rest :: Reachable(nodes, root, b)
    ensures forall b <- pending :: Reachable(nodes, root, b)
  {
    forall b | b in pending ensures Reachable(nodes, root, b) {
      if b !in rest {
        ReachesNext(nodes, root, id, b);
      }
    }
  }

  lemma NothingPending(nodes: Nodes, reachable: set<string>, root: string)
    requires root in reachable && Explored(nodes, reachable, [])
    ensures forall b :: Reachable(nodes, root, b) ==> b in reachable
  {
    forall b | Reachable(nodes, root, b) ensures b in reachable {
      var path :| IsPath(nodes, path) && path[0] == root && path[|path| - 1] == b;
      ClosedHoldsPath(nodes, reachable, path);
    }
  }

  /** The packages that can be reached from the root, or one that is reached but has
      no node.  It ends on every graph, cyclic or not. */
  method Closure(nodes: Nodes, root: string) returns (result: Result<set<string>, Error>)
    ensures result.Ok? ==> forall b :: b in result.value <==> Reachable(nodes, root, b)
    ensures result.Ok? ==> result.value <= nodes.Keys
    ensures result.Err? ==>
      result.error.UnknownNode? && result.error.id !in nodes && Reachable(nodes, root, result.error.id)
  {
    ReachesItself(nodes, root);
    var reachable: set<string> := {};
    var pending := [root];
    while pending != []
      invariant root in reachable || root in pending
      invariant reachable <= nodes.Keys
      invariant forall b <- reachable :: Reachable(nodes, root, b)
      invariant forall b <- pending :: Reachable(nodes, root, b)
      invariant Explored(nodes, reachable, pending)
      decreases |nodes.Keys - reachable|, |pending|
    {
      ghost var before := pending;
      SplitLast(pending);
      var id := pending[|pending| - 1];
      pending := pending[..|pending| - 1];
      if id !in reachable {
        if id !in nodes {
          return Err(UnknownNode(id));
        }
        Shrinks(nodes.Keys, reachable, id);
        ghost var rest := pending;
        pending := AppendShipping(nodes[id], pending);
        VisitExplores(nodes, reachable, before, id, rest, pending);
        VisitReaches(nodes, root, id, rest, pending);
        reachable := reachable + {id};
      }
    }
    NothingPending(nodes, reachable, root);
    result := Ok(reachable);
  }

  /** The result is exactly the set of packages reachable from the only root along
      edges with a kind other than dev, and there is one exactly when all of them
      have a node. */
  method ShippingPackages(packages: seq<Package>, nodes: Nodes, rootName: string) returns (result: Result<set<string>, Error>)
    ensures var roots := Roots(packages, rootName);
      if |roots| != 1 then result == Err(NotOneRoot(|roots|))
      else if forall b :: Reachable(nodes, roots[0], b) ==> b in nodes then
        result.Ok? && forall b :: b in result.value <==> Reachable(nodes, roots[0], b)
      else
        result.Err? && result.error.UnknownNode? && result.error.id !in nodes && Reachable(nodes, roots[0], result.error.id)
  {
    var roots := Roots(packages, rootName);
    if |roots| != 1 {
      return Err(NotOneRoot(|roots|));
    }
    result := Closure(nodes, roots[0]);
  }

  lemma Shrinks(all: set<string>, some: set<string>, x: string)
    requires x in all && x !in some
    ensures |all - (some + {x})| < |all - some|
  {
    assert all - some == (all - (some + {x})) + {x};
  }
}
