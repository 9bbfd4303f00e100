/** BrowserTabs.swift: at most eight tabs with distinct ids from a wrapping 64-bit
    allocator, first as functions on its value, then as the struct's methods. */
module BrowserTabs {
  import opened Wrappers
  import opened Sequences

  const MAXIMUM_COUNT: nat := 8
  const MAXIMUM_ADDRESS_BYTES: nat := 16 * 1024
  const MAX_ID: nat := 0xFFFF_FFFF_FFFF_FFFF
  const DEFAULT_HOMEPAGE: string := "https://shakescape.com/"

  datatype Tab = Tab(id: nat, address: string, title: Option<string>)

  datatype Tabs = Tabs(tabs: seq<Tab>, activeID: nat, nextID: nat)

  datatype CloseResult = Rejected | ClosedInactive | Selected(address: string)

  function Utf8Length(s: string): nat {
    if s == "" then 0
    else
      (if s[0] as int < 0x80 then 1 else if s[0] as int < 0x800 then 2 else if s[0] as int < 0x1_0000 then 3 else 4)
      + Utf8Length(s[1..])
  }

  predicate IsAllowedAddress(address: string) {
    address != "" && Utf8Length(address) <= MAXIMUM_ADDRESS_BYTES
  }

  function Admitted(homepage: string): string {
    if IsAllowedAddress(homepage) then homepage else DEFAULT_HOMEPAGE
  }

  // ---- Ids ----

  function Next(id: nat): nat {
    if id == MAX_ID then 1 else id + 1
  }

  function Ids(tabs: seq<Tab>): set<nat> {
    set tab <- tabs :: tab.id
  }

  /** The first id from `next` on, in the wrapping order, that is not taken, looking
      at `tries` of them. */
  function FirstFree(taken: set<nat>, next: nat, tries: nat): nat
    decreases tries, next
  {
    if tries == 0 || next !in taken then next else FirstFree(taken, Next(next), tries - 1)
  }

  /** How far id x lies ahead of n in the wrapping order. */
  function Ahead(x: nat, n: nat): int {
    if x >= n then x - n else x + MAX_ID - n
  }

  predicate IsId(id: nat) {
    1 <= id <= MAX_ID
  }

  lemma {:induction false} FirstFreeNear(taken: set<nat>, next: nat, tries: nat)
    requires IsId(next) && tries < MAX_ID
    ensures IsId(FirstFree(taken, next, tries)) && Ahead(FirstFree(taken, next, tries), next) <= tries
    decreases tries
  {
    if tries > 0 && next in taken {
      FirstFreeNear(taken, Next(next), tries - 1);
    }
  }

  /** An id that is not looked at does not matter. */
  lemma {:induction false} FirstFreeIgnores(taken: set<nat>, x: nat, next: nat, tries: nat)
    requires IsId(next) && IsId(x) && Ahead(x, next) > tries
    ensures FirstFree(taken, next, tries) == FirstFree(taken - {x}, next, tries)
    decreases tries
  {
    if tries > 0 && next in taken {
      FirstFreeIgnores(taken, x, Next(next), tries - 1);
    }
  }

  /** Pigeonhole: one of tries + 1 consecutive ids is free when at most `tries` are
      taken, also across the wrap. */
  lemma {:induction false} FirstFreeIsFree(taken: set<nat>, next: nat, tries: nat)
    requires IsId(next) && |taken| <= tries < MAX_ID - 1
    ensures FirstFree(taken, next, tries) !in taken
    decreases tries
  {
    if next in taken {
      assert |taken - {next}| == |taken| - 1;
      FirstFreeIsFree(taken - {next}, Next(next), tries - 1);
      FirstFreeIgnores(taken, next, Next(next), tries - 1);
      FirstFreeNear(taken, Next(next), tries - 1);
    }
  }

  // ---- Operations ----

  function Init(homepage: string): Tabs {
    Tabs([Tab(1, Admitted(homepage), None)], 1, 2)
  }

  function Allocated(t: Tabs): nat {
    FirstFree(Ids(t.tabs), t.nextID, MAXIMUM_COUNT)
  }

  function Open(t: Tabs, homepage: string): (Tabs, Option<Tab>) {
    if |t.tabs| >= MAXIMUM_COUNT then (t, None)
    else
      var tab := Tab(Allocated(t), Admitted(homepage), None);
      (Tabs(t.tabs + [tab], tab.id, Next(tab.id)), Some(tab))
  }

  /** The first position of id, or |tabs|. */
  function IndexOf(tabs: seq<Tab>, id: nat): (i: nat)
    ensures i <= |tabs| && (i < |tabs| ==> tabs[i].id == id)
    ensures forall j :: 0 <= j < i ==> tabs[j].id != id
  {
    if tabs == [] || tabs[0].id == id then 0
    else
      var i := IndexOf(tabs[1..], id);
      assert forall j :: 1 <= j < i + 1 ==> tabs[j] == tabs[1..][j - 1];
      i + 1
  }

  function Select(t: Tabs, id: nat): (Tabs, Option<Tab>) {
    var i := IndexOf(t.tabs, id);
    if i == |t.tabs| then (t, None) else (t.(activeID := id), Some(t.tabs[i]))
  }

  function Without(tabs: seq<Tab>, i: nat): seq<Tab>
    requires i < |tabs|
  {
    tabs[..i] + tabs[i + 1..]
  }

  function Min(a: nat, b: nat): nat {
    if a <= b then a else b
  }

  function Close(t: Tabs, id: nat): (Tabs, CloseResult) {
    var i := IndexOf(t.tabs, id);
    if |t.tabs| <= 1 || i == |t.tabs| then (t, Rejected)
    else
      var rest := Without(t.tabs, i);
      if id != t.activeID then (t.(tabs := rest), ClosedInactive)
      else
        var selected := rest[Min(i, |rest| - 1)];
        (t.(tabs := rest, activeID := selected.id), Selected(selected.address))
  }

  function WithAddress(tab: Tab, address: string): Tab {
    if IsAllowedAddress(address) && tab.address != address then tab.(address := address, title := None) else tab
  }

  function UpdateActiveAddress(t: Tabs, address: string): Tabs {
    var i := IndexOf(t.tabs, t.activeID);
    if i == |t.tabs| then t else t.(tabs := t.tabs[i := WithAddress(t.tabs[i], address)])
  }

  /** The title is the one left after trimming and cleaning. */
  function UpdateActiveTitle(t: Tabs, title: Option<string>): Tabs {
    var i := IndexOf(t.tabs, t.activeID);
    if i == |t.tabs| then t else t.(tabs := t.tabs[i := t.tabs[i].(title := title)])
  }

  datatype Operation =
    | OpenTab(homepage: string)
    | SelectTab(id: nat)
    | CloseTab(id: nat)
    | Navigate(address: string)
    | Retitle(title: Option<string>)

  function Apply(t: Tabs, operation: Operation): Tabs {
    match operation
    case OpenTab(homepage) => Open(t, homepage).0
    case SelectTab(id) => Select(t, id).0
    case CloseTab(id) => Close(t, id).0
    case Navigate(address) => UpdateActiveAddress(t, address)
    case Retitle(title) => UpdateActiveTitle(t, title)
  }

  function Run(homepage: string, operations: seq<Operation>): Tabs {
    if operations == [] then Init(homepage)
    else Apply(Run(homepage, operations[..|operations| - 1]), operations[|operations| - 1])
  }

  // ---- What every operation keeps ----

  ghost predicate DistinctIds(tabs: seq<Tab>) {
    forall i, j :: 0 <= i < j < |tabs| ==> tabs[i].id != tabs[j].id
  }

  ghost predicate Sound(t: Tabs) {
    && 1 <= |t.tabs| <= MAXIMUM_COUNT
    && DistinctIds(t.tabs)
    && (forall tab <- t.tabs :: IsId(tab.id))
    && t.activeID in Ids(t.tabs)
    && IsId(t.nextID)
  }

  lemma {:induction false} FewIds(tabs: seq<Tab>)
    ensures |Ids(tabs)| <= |tabs|
    decreases |tabs|
  {
    if tabs != [] {
      SplitLast(tabs);
      FewIds(tabs[..|tabs| - 1]);
      assert Ids(tabs) == Ids(tabs[..|tabs| - 1]) + {tabs[|tabs| - 1].id};
    }
  }

  /** The allocator returns an id that is not zero and not in use. */
  lemma AllocatedIsFresh(t: Tabs)
    requires Sound(t)
    ensures IsId(Allocated(t)) && Allocated(t) !in Ids(t.tabs)
  {
    FewIds(t.tabs);
    FirstFreeIsFree(Ids(t.tabs), t.nextID, MAXIMUM_COUNT);
    FirstFreeNear(Ids(t.tabs), t.nextID, MAXIMUM_COUNT);
  }

  lemma AppendSound(t: Tabs, tab: Tab)
    requires Sound(t) && |t.tabs| < MAXIMUM_COUNT
    requires IsId(tab.id) && tab.id !in Ids(t.tabs)
    ensures Sound(Tabs(t.tabs + [tab], tab.id, Next(tab.id)))
  {
    forall i | 0 <= i < |t.tabs| ensures t.tabs[i].id != tab.id {
      assert t.tabs[i].id in Ids(t.tabs);
    }
    assert (t.tabs + [tab])[|t.tabs|].id == tab.id;
  }

  lemma OpenSound(t: Tabs, homepage: string)
    requires Sound(t)
    ensures Sound(Open(t, homepage).0)
  {
    AllocatedIsFresh(t);
    if |t.tabs| < MAXIMUM_COUNT {
      AppendSound(t, Tab(Allocated(t), Admitted(homepage), None));
    }
  }

  lemma CloseSound(t: Tabs, id: nat)
    requires Sound(t)
    ensures Sound(Close(t, id).0)
  {
    var next, i := Close(t, id).0, IndexOf(t.tabs, id);
    if next != t {
      var active: Tab :| active in t.tabs && active.id == t.activeID;
      if id != t.activeID {
        assert active in next.tabs;
      }
    }
  }

  lemma StepSound(t: Tabs, operation: Operation)
    requires Sound(t)
    ensures Sound(Apply(t, operation))
  {
    match operation
    case OpenTab(homepage) => OpenSound(t, homepage);
    case CloseTab(id) => CloseSound(t, id);
    case SelectTab(id) =>
    case Navigate(address) =>
      var i := IndexOf(t.tabs, t.activeID);
      var next := Apply(t, operation);
      assert i < |t.tabs|;
      assert next.tabs[i].id == t.activeID;
    case Retitle(title) =>
      var i := IndexOf(t.tabs, t.activeID);
      assert i < |t.tabs|;
      assert Apply(t, operation).tabs[i].id == t.activeID;
  }

  // ---- Main results ----

  /** In every run there are one to eight tabs with distinct ids that are not zero,
      the active one among them. */
  lemma {:induction false} TabsAreSound(homepage: string, operations: seq<Operation>)
    ensures Sound(Run(homepage, operations))
    decreases |operations|
  {
    if operations == [] {
      assert Init(homepage).tabs[0].id == 1;
    } else {
      TabsAreSound(homepage, operations[..|operations| - 1]);
      StepSound(Run(homepage, operations[..|operations| - 1]), operations[|operations| - 1]);
    }
  }

  function IdsInOrder(tabs: seq<Tab>): seq<nat> {
    seq(|tabs|, i requires 0 <= i < |tabs| => tabs[i].id)
  }

  /** Nothing happens to the ids, or the tab that was closed is removed, or one with
      a new id is appended. */
  ghost predicate KeepsOrder(ids: seq<nat>, operation: Operation, ids': seq<nat>, added: nat) {
    || ids' == ids
    || (operation.OpenTab? && ids' == ids + [added] && added !in ids && added != 0)
    || (operation.CloseTab? && exists i :: 0 <= i < |ids| && ids[i] == operation.id && ids' == ids[..i] + ids[i + 1..])
  }

  lemma OpenKeepsOrder(t: Tabs, homepage: string)
    requires Sound(t)
    ensures KeepsOrder(IdsInOrder(t.tabs), OpenTab(homepage), IdsInOrder(Open(t, homepage).0.tabs), Allocated(t))
  {
    var ids, id := IdsInOrder(t.tabs), Allocated(t);
    AllocatedIsFresh(t);
    assert forall i :: 0 <= i < |ids| ==> ids[i] == t.tabs[i].id && ids[i] in Ids(t.tabs);
    assert IdsInOrder(t.tabs + [Tab(id, Admitted(homepage), None)]) == ids + [id];
  }

  lemma CloseKeepsOrder(t: Tabs, id: nat, added: nat)
    ensures KeepsOrder(IdsInOrder(t.tabs), CloseTab(id), IdsInOrder(Close(t, id).0.tabs), added)
  {
    var i := IndexOf(t.tabs, id);
    if i < |t.tabs| {
      var ids := IdsInOrder(t.tabs);
      assert ids[i] == id && IdsInOrder(Without(t.tabs, i)) == ids[..i] + ids[i + 1..];
    }
  }

  /** Every operation of every run keeps the order of the tabs that survive it. */
  lemma OrderIsKept(homepage: string, operations: seq<Operation>, operation: Operation)
    ensures var t := Run(homepage, operations);
            KeepsOrder(IdsInOrder(t.tabs), operation, IdsInOrder(Apply(t, operation).tabs), Allocated(t))
  {
    var t := Run(homepage, operations);
    TabsAreSound(homepage, operations);
    match operation
    case OpenTab(page) => OpenKeepsOrder(t, page);
    case CloseTab(id) => CloseKeepsOrder(t, id, Allocated(t));
    case SelectTab(id) =>
    case Navigate(address) => assert IdsInOrder(Apply(t, operation).tabs) == IdsInOrder(t.tabs);
    case Retitle(title) => assert IdsInOrder(Apply(t, operation).tabs) == IdsInOrder(t.tabs);
  }

  // ---- Ids are handed out in order ----

  /** Every id in use is below `high`. */
  ghost predicate AllBelow(tabs: seq<Tab>, high: nat) {
    forall tab <- tabs :: tab.id < high
  }

  /** Tabs opened so far, the first one included. */
  function Opened(homepage: string, operations: seq<Operation>): nat {
    if operations == [] then 1
    else
      var before := operations[..|operations| - 1];
      Opened(homepage, before)
      + if operations[|operations| - 1].OpenTab? && |Run(homepage, before).tabs| < MAXIMUM_COUNT then 1 else 0
  }

  /** Until 2^64 - 1 tabs have been opened the n-th gets id n, so no id comes back
      after its tab was closed. */
  lemma {:induction false} IdsAreNeverReused(homepage: string, operations: seq<Operation>)
    requires Opened(homepage, operations) < MAX_ID
    ensures var t := Run(homepage, operations);
            t.nextID == Opened(homepage, operations) + 1 && AllBelow(t.tabs, t.nextID) && Allocated(t) == t.nextID
    decreases |operations|
  {
    var t := Run(homepage, operations);
    if operations != [] {
      IdsAreNeverReused(homepage, operations[..|operations| - 1]);
    }
    assert t.nextID !in Ids(t.tabs);
  }
}

/** The struct's mutating methods. */
module BrowserTabsObject {
  import opened Wrappers
  import opened BrowserTabs

  class BrowserTabList {
    var tabs: seq<Tab>
    var activeID: nat
    var nextID: nat

    ghost function Value(): Tabs
      reads this
    {
      Tabs(tabs, activeID, nextID)
    }

    constructor (homepage: string)
      ensures Value() == Init(homepage)
    {
      tabs := [Tab(1, Admitted(homepage), None)];
      activeID := 1;
      nextID := 2;
    }

    method Open(homepage: string) returns (added: Option<Tab>)
      requires Sound(Value())
      modifies this
      ensures (Value(), added) == BrowserTabs.Open(old(Value()), homepage)
      ensures Sound(Value())
    {
      OpenSound(Value(), homepage);
      if |tabs| >= MAXIMUM_COUNT {
        return None;
      }
      var id := AllocateID();
      var tab := Tab(id, Admitted(homepage), None);
      tabs := tabs + [tab];
      activeID := tab.id;
      added := Some(tab);
    }

    /** The search ends before it has seen more than eight ids. */
    method AllocateID() returns (id: nat)
      requires Sound(Value())
      modifies this`nextID
      ensures id == Allocated(old(Value())) && nextID == Next(id)
      ensures id != 0 && forall tab <- tabs :: tab.id != id
    {
      ghost var left := MAXIMUM_COUNT;
      AllocatedIsFresh(Value());
      while exists i :: 0 <= i < |tabs| && tabs[i].id == nextID
        invariant FirstFree(Ids(tabs), nextID, left) == Allocated(old(Value()))
        decreases left
      {
        assert nextID in Ids(tabs);
        nextID := Next(nextID);
        left := left - 1;
      }
      assert nextID !in Ids(tabs);
      id := nextID;
      nextID := Next(nextID);
    }

    method Select(id: nat) returns (selected: Option<Tab>)
      modifies this
      ensures (Value(), selected) == BrowserTabs.Select(old(Value()), id)
    {
      var i := IndexOf(tabs, id);
      if i == |tabs| {
        return None;
      }
      activeID := id;
      selected := Some(tabs[i]);
    }

    method Close(id: nat) returns (result: CloseResult)
      modifies this
      ensures (Value(), result) == BrowserTabs.Close(old(Value()), id)
    {
      var i := IndexOf(tabs, id);
      if |tabs| <= 1 || i == |tabs| {
        return Rejected;
      }
      var wasActive := id == activeID;
      tabs := tabs[..i] + tabs[i + 1..];
      if !wasActive {
        return ClosedInactive;
      }
      var selectedIndex := Min(i, |tabs| - 1);
      activeID := tabs[selectedIndex].id;
      result := Selected(tabs[selectedIndex].address);
    }

    method UpdateActiveAddress(address: string)
      modifies this
      ensures Value() == BrowserTabs.UpdateActiveAddress(old(Value()), address)
    {
      var i := IndexOf(tabs, activeID);
      if i < |tabs| {
        tabs := tabs[i := WithAddress(tabs[i], address)];
      }
    }

    method UpdateActiveTitle(title: Option<string>)
      modifies this
      ensures Value() == BrowserTabs.UpdateActiveTitle(old(Value()), title)
    {
      var i := IndexOf(tabs, activeID);
      if i < |tabs| {
        tabs := tabs[i := tabs[i].(title := title)];
      }
    }
  }
}
