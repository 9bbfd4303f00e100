/** A string as its basic code points plus a list of insertions, ordered by
    (code point, position).  The list is unique, and both the decoder and the
    section 6.3 encoder are compared with it. */
module PunycodeInsertions {
  import opened Arithmetic
  import opened Sequences
  import opened Punycode
  import opened PunycodeEncoder

  // ---- Insertions ----

  datatype Point = Point(codePoint: Scalar, position: nat)

  /** The (code point, position) order. */
  predicate Before(p: Point, q: Point) {
    p.codePoint < q.codePoint || (p.codePoint == q.codePoint && p.position < q.position)
  }

  /** Insertions that can follow one another, starting from basic code points:
      code points from 128 up, positions inside the string so far, in order. */
  ghost predicate Valid(basic: seq<Scalar>, ps: seq<Point>) {
    if ps == [] then AllBasic(basic)
    else
      var p := ps[|ps| - 1];
      && Valid(basic, ps[..|ps| - 1])
      && p.codePoint >= 128 && p.position < |basic| + |ps|
      && (|ps| > 1 ==> Before(ps[|ps| - 2], p))
  }

  lemma {:induction false} ValidSorted(basic: seq<Scalar>, ps: seq<Point>)
    requires Valid(basic, ps)
    ensures forall i, j :: 0 <= i < j < |ps| ==> Before(ps[i], ps[j])
  {
    if |ps| > 1 {
      var init := ps[..|ps| - 1];
      ValidSorted(basic, init);
      forall i, j | 0 <= i < j < |ps| ensures Before(ps[i], ps[j]) {
        if j == |ps| - 1 {
          assert i == |ps| - 2 || Before(init[i], init[|init| - 1]);
        } else {
          assert Before(init[i], init[j]);
        }
      }
    }
  }

  ghost predicate Follows(s: State, p: Point) {
    && s.insertion <= |s.output|
    && p.position <= |s.output|
    && (p.codePoint > s.codePoint || (p.codePoint == s.codePoint && p.position >= s.insertion))
  }

  /** How many (code point, position) pairs lie between s and p. */
  ghost function Delta(s: State, p: Point): (d: nat)
    requires Follows(s, p)
    ensures d + s.insertion == (p.codePoint - s.codePoint) * (|s.output| + 1) + p.position
  {
    if p.codePoint > s.codePoint then
      ProductMonotone(1, p.codePoint - s.codePoint, |s.output| + 1);
      (p.codePoint - s.codePoint) * (|s.output| + 1) + p.position - s.insertion
    else p.position - s.insertion
  }

  ghost function Insert(s: State, p: Point): State
    requires Follows(s, p)
  {
    State(p.codePoint, p.position + 1,
          Adapt(Delta(s, p), |s.output| + 1, s.insertion == 0),
          InsertAt(s.output, p.position, p.codePoint))
  }

  ghost function Run(basic: seq<Scalar>, ps: seq<Point>): (s: State)
    requires Valid(basic, ps)
    ensures |s.output| == |basic| + |ps| && s.insertion <= |s.output| && s.codePoint >= 128
    ensures ps == [] ==> s == Start(basic)
    ensures ps != [] ==> s.codePoint == ps[|ps| - 1].codePoint && s.insertion == ps[|ps| - 1].position + 1
    decreases |ps|
  {
    if ps == [] then Start(basic)
    else Insert(Run(basic, ps[..|ps| - 1]), ps[|ps| - 1])
  }

  /** Left of index i nothing exceeds c, from i on everything is below it. */
  ghost predicate Ordered(out: seq<Scalar>, i: int, c: int) {
    forall j :: 0 <= j < |out| ==> if j < i then out[j] <= c else out[j] < c
  }

  lemma InsertAtIndex(out: seq<Scalar>, i: nat, c: Scalar)
    requires i <= |out|
    ensures |InsertAt(out, i, c)| == |out| + 1
    ensures forall j {:trigger InsertAt(out, i, c)[j]} :: 0 <= j <= |out| ==>
              InsertAt(out, i, c)[j] == if j < i then out[j] else if j == i then c else out[j - 1]
  {
  }

  lemma InsertKeepsOrder(out: seq<Scalar>, i: nat, c: Scalar)
    requires i <= |out| && Ordered(out, i, c)
    ensures Ordered(InsertAt(out, i, c), i + 1, c)
  {
    InsertAtIndex(out, i, c);
  }

  lemma OrderedLater(s: State, p: Point)
    requires Follows(s, p) && Ordered(s.output, s.insertion, s.codePoint)
    ensures Ordered(s.output, p.position, p.codePoint)
  {
  }

  lemma {:induction false} RunOrdered(basic: seq<Scalar>, ps: seq<Point>)
    requires Valid(basic, ps)
    ensures var s := Run(basic, ps); Ordered(s.output, s.insertion, s.codePoint)
    decreases |ps|
  {
    if ps != [] {
      var init, p := ps[..|ps| - 1], ps[|ps| - 1];
      RunOrdered(basic, init);
      OrderedLater(Run(basic, init), p);
      InsertKeepsOrder(Run(basic, init).output, p.position, p.codePoint);
    }
  }

  ghost function RenderPoint(s: State, p: Point): seq<Scalar>
    requires Follows(s, p)
  {
    EncodeInteger(Delta(s, p), 36, s.bias)
  }

  /** The digits for a list of insertions. */
  ghost function Render(basic: seq<Scalar>, ps: seq<Point>): seq<Scalar>
    requires Valid(basic, ps)
    decreases |ps|
  {
    if ps == [] then []
    else Render(basic, ps[..|ps| - 1]) + RenderPoint(Run(basic, ps[..|ps| - 1]), ps[|ps| - 1])
  }

  lemma Snoc(basic: seq<Scalar>, ps: seq<Point>, p: Point)
    requires Valid(basic, ps) && Follows(Run(basic, ps), p) && p.codePoint >= 128
    ensures Valid(basic, ps + [p])
    ensures Run(basic, ps + [p]) == Insert(Run(basic, ps), p)
    ensures Render(basic, ps + [p]) == Render(basic, ps) + RenderPoint(Run(basic, ps), p)
  {
    assert (ps + [p])[..|ps|] == ps;
  }

  lemma UnSnoc(basic: seq<Scalar>, ps: seq<Point>) returns (init: seq<Point>, p: Point)
    requires Valid(basic, ps) && ps != []
    ensures init == ps[..|ps| - 1] && p == ps[|ps| - 1] && Valid(basic, init) && Follows(Run(basic, init), p)
    ensures Run(basic, ps) == Insert(Run(basic, init), p)
    ensures Render(basic, ps) == Render(basic, init) + RenderPoint(Run(basic, init), p)
  {
    init, p := ps[..|ps| - 1], ps[|ps| - 1];
  }

  // ---- The insertions of a string, and their uniqueness ----

  /** The last position of the largest code point. */
  ghost function LastMax(u: seq<Scalar>): (p: nat)
    requires u != []
    ensures p < |u|
    ensures forall i :: 0 <= i < |u| ==> u[i] <= u[p]
    ensures forall i :: p < i < |u| ==> u[i] < u[p]
  {
    if |u| == 1 then 0
    else
      var p := LastMax(u[..|u| - 1]);
      if u[|u| - 1] >= u[p] then |u| - 1 else p
  }

  ghost function RemoveAt(u: seq<Scalar>, p: nat): seq<Scalar>
    requires p < |u|
  {
    u[..p] + u[p + 1..]
  }

  /** The insertions that build u: the last one is its largest code point. */
  ghost function Insertions(u: seq<Scalar>): seq<Point>
    decreases |u|
  {
    if AllBasic(u) then []
    else
      var p := LastMax(u);
      Insertions(RemoveAt(u, p)) + [Point(u[p], p)]
  }

  lemma {:induction false} BelowConcat(a: seq<Scalar>, b: seq<Scalar>, n: nat)
    ensures Below(a + b, n) == Below(a, n) + Below(b, n)
    decreases |b|
  {
    if b == [] {
      assert a + b == a;
    } else {
      assert (a + b)[..|a + b| - 1] == a + b[..|b| - 1];
      BelowConcat(a, b[..|b| - 1], n);
    }
  }

  lemma {:induction false} BelowAll(u: seq<Scalar>, n: nat)
    requires forall i :: 0 <= i < |u| ==> u[i] < n
    ensures Below(u, n) == u
    decreases |u|
  {
    if u != [] {
      BelowAll(u[..|u| - 1], n);
    }
  }

  lemma {:induction false} BelowNone(u: seq<Scalar>, m: nat, n: nat)
    requires m <= n && forall i :: 0 <= i < |u| ==> !(m <= u[i] < n)
    ensures Below(u, n) == Below(u, m)
    decreases |u|
  {
    if u != [] {
      BelowNone(u[..|u| - 1], m, n);
    }
  }

  lemma BelowSnoc(a: seq<Scalar>, x: Scalar, n: nat)
    ensures Below(a + [x], n) == if x < n then Below(a, n) + [x] else Below(a, n)
  {
    DropLast(a, x);
  }

  lemma BelowMiddle(a: seq<Scalar>, x: Scalar, b: seq<Scalar>, n: nat)
    requires x >= n
    ensures Below((a + [x]) + b, n) == Below(a + b, n)
  {
    BelowSnoc(a, x, n);
    BelowConcat(a + [x], b, n);
    BelowConcat(a, b, n);
  }

  lemma BelowRemove(u: seq<Scalar>, p: nat)
    requires p < |u| && u[p] >= 128
    ensures Below(RemoveAt(u, p), 128) == Below(u, 128)
  {
    SplitAt(u, p);
    BelowMiddle(u[..p], u[p], u[p + 1..], 128);
  }

  /** Insertions put the last maximum last, so they come in order. */
  lemma {:induction false} InsertionsEnd(u: seq<Scalar>)
    ensures AllBasic(u) <==> Insertions(u) == []
    ensures !AllBasic(u) ==> var ps := Insertions(u); ps[|ps| - 1] == Point(u[LastMax(u)], LastMax(u))
  {
  }

  lemma LastMaxBefore(u: seq<Scalar>)
    requires !AllBasic(u) && !AllBasic(RemoveAt(u, LastMax(u)))
    ensures var p := LastMax(u);
            var rest := RemoveAt(u, p);
            var q := LastMax(rest);
            Before(Point(rest[q], q), Point(u[p], p))
  {
    var p := LastMax(u);
    var rest := RemoveAt(u, p);
    var q := LastMax(rest);
    assert rest[q] == if q < p then u[q] else u[q + 1];
  }

  lemma ReinsertRemoved(u: seq<Scalar>, p: nat)
    requires p < |u|
    ensures InsertAt(RemoveAt(u, p), p, u[p]) == u
  {
  }

  /** Replaying the insertions of u from its basic code points builds u. */
  lemma {:induction false} InsertionsBuild(u: seq<Scalar>)
    ensures Valid(Below(u, 128), Insertions(u))
    ensures Run(Below(u, 128), Insertions(u)).output == u
    decreases |u|
  {
    if AllBasic(u) {
      BelowAll(u, 128);
    } else {
      var p := LastMax(u);
      var rest, basic := RemoveAt(u, p), Below(u, 128);
      BelowRemove(u, p);
      InsertionsBuild(rest);
      InsertionsEnd(rest);
      if !AllBasic(rest) {
        LastMaxBefore(u);
      }
      Snoc(basic, Insertions(rest), Point(u[p], p));
      ReinsertRemoved(u, p);
    }
  }

  lemma {:induction false} LastMaxUnique(u: seq<Scalar>, p: nat)
    requires p < |u|
    requires forall i :: 0 <= i < |u| ==> u[i] <= u[p]
    requires forall i :: p < i < |u| ==> u[i] < u[p]
    ensures LastMax(u) == p
  {
  }

  /** Inserting a largest code point after its equals adds one last insertion. */
  lemma InsertionsOfInsert(out: seq<Scalar>, i: nat, c: Scalar)
    requires i <= |out| && c >= 128 && Ordered(out, i, c)
    ensures Insertions(InsertAt(out, i, c)) == Insertions(out) + [Point(c, i)]
    ensures Below(InsertAt(out, i, c), 128) == Below(out, 128)
  {
    var u := InsertAt(out, i, c);
    InsertAtIndex(out, i, c);
    LastMaxUnique(u, i);
    RemoveInserted(out, i, c);
    BelowRemove(u, i);
  }

  lemma RemoveInserted(out: seq<Scalar>, i: nat, c: Scalar)
    requires i <= |out|
    ensures RemoveAt(InsertAt(out, i, c), i) == out
  {
  }

  /** Different valid insertion lists build different strings. */
  lemma {:induction false} InsertionsUnique(basic: seq<Scalar>, ps: seq<Point>)
    requires Valid(basic, ps)
    ensures Insertions(Run(basic, ps).output) == ps
    ensures Below(Run(basic, ps).output, 128) == basic
    decreases |ps|
  {
    if ps == [] {
      BelowAll(basic, 128);
    } else {
      var init, p := ps[..|ps| - 1], ps[|ps| - 1];
      InsertionsUnique(basic, init);
      RunOrdered(basic, init);
      OrderedLater(Run(basic, init), p);
      InsertionsOfInsert(Run(basic, init).output, p.position, p.codePoint);
      SplitLast(ps);
    }
  }
}
