/** The tabs as a user sees them, a strip with one tab selected: the bounded tab set
    shows this strip in every run. */
module BrowserTabStrip {
  import opened Wrappers
  import opened BrowserTabs

  // ---- The strip ----

  /** The tabs to the left of the active one, it, and those to its right. */
  datatype Strip = Strip(left: seq<Tab>, active: Tab, right: seq<Tab>)

  function Whole(s: Strip): seq<Tab> {
    s.left + [s.active] + s.right
  }

  ghost predicate Shows(t: Tabs, s: Strip) {
    t.tabs == Whole(s) && t.activeID == s.active.id
  }

  /** The bytes of a string in UTF-8. */
  function Utf8(s: string): seq<int> {
    if s == "" then [] else Utf8Char(s[0] as int) + Utf8(s[1..])
  }

  function Utf8Char(c: int): seq<int> {
    if c < 0x80 then [c]
    else if c < 0x800 then [0xC0 + c / 0x40, 0x80 + c % 0x40]
    else if c < 0x1_0000 then [0xE0 + c / 0x1000, 0x80 + c / 0x40 % 0x40, 0x80 + c % 0x40]
    else [0xF0 + c / 0x4_0000, 0x80 + c / 0x1000 % 0x40, 0x80 + c / 0x40 % 0x40, 0x80 + c % 0x40]
  }

  predicate Fits(address: string) {
    1 <= |Utf8(address)| <= 16384
  }

  function Homepage(address: string): string {
    if Fits(address) then address else DEFAULT_HOMEPAGE
  }

  function Dropped(tabs: seq<Tab>, id: nat): seq<Tab> {
    if tabs == [] then [] else (if tabs[0].id == id then [] else [tabs[0]]) + Dropped(tabs[1..], id)
  }

  predicate Has(tabs: seq<Tab>, id: nat) {
    exists tab <- tabs :: tab.id == id
  }

  /** The tab at i becomes the active one. */
  function Focus(tabs: seq<Tab>, i: nat): Strip
    requires i < |tabs|
  {
    Strip(tabs[..i], tabs[i], tabs[i + 1..])
  }

  /** The right neighbour takes over, or the left one at the right end. */
  function CloseActive(s: Strip): Strip
    requires |Whole(s)| > 1
  {
    if s.right != [] then Strip(s.left, s.right[0], s.right[1..])
    else Strip(s.left[..|s.left| - 1], s.left[|s.left| - 1], [])
  }

  function CloseOn(s: Strip, id: nat): (Strip, CloseResult) {
    if |Whole(s)| == 1 || !Has(Whole(s), id) then (s, Rejected)
    else if id == s.active.id then (CloseActive(s), Selected(CloseActive(s).active.address))
    else (Strip(Dropped(s.left, id), s.active, Dropped(s.right, id)), ClosedInactive)
  }

  /** `newID` is the id of a tab that is opened. */
  function ApplyOn(s: Strip, operation: Operation, newID: nat): Strip {
    match operation
    case OpenTab(homepage) =>
      if |Whole(s)| == 8 then s else Strip(Whole(s), Tab(newID, Homepage(homepage), None), [])
    case SelectTab(id) => if Has(Whole(s), id) then Focus(Whole(s), IndexOf(Whole(s), id)) else s
    case CloseTab(id) => CloseOn(s, id).0
    case Navigate(address) =>
      if Fits(address) && address != s.active.address then s.(active := Tab(s.active.id, address, None)) else s
    case Retitle(title) => s.(active := Tab(s.active.id, s.active.address, title))
  }

  function StripAfter(homepage: string, operations: seq<Operation>): Strip {
    if operations == [] then Strip([], Tab(1, Homepage(homepage), None), [])
    else
      var before := operations[..|operations| - 1];
      ApplyOn(StripAfter(homepage, before), operations[|operations| - 1], Allocated(Run(homepage, before)))
  }

  // ---- Sequences of tabs ----

  lemma {:induction false} Utf8Counts(s: string)
    ensures |Utf8(s)| == Utf8Length(s)
    decreases |s|
  {
    if s != "" {
      Utf8Counts(s[1..]);
    }
  }

  lemma FitsIsAllowed(address: string)
    ensures Fits(address) <==> IsAllowedAddress(address)
  {
    Utf8Counts(address);
  }

  lemma ActiveIndex(t: Tabs, s: Strip)
    requires Sound(t) && Shows(t, s)
    ensures IndexOf(t.tabs, t.activeID) == |s.left|
  {
    assert t.tabs[|s.left|] == s.active;
  }

  lemma HasIndex(tabs: seq<Tab>, id: nat)
    ensures Has(tabs, id) <==> IndexOf(tabs, id) < |tabs|
  {
  }

  lemma {:induction false} DropsNothing(tabs: seq<Tab>, id: nat)
    requires !Has(tabs, id)
    ensures Dropped(tabs, id) == tabs
    decreases |tabs|
  {
    if tabs != [] {
      assert tabs[0] in tabs && forall tab <- tabs[1..] :: tab in tabs;
      DropsNothing(tabs[1..], id);
    }
  }

  lemma {:induction false} DropsOne(tabs: seq<Tab>, i: nat)
    requires DistinctIds(tabs) && i < |tabs|
    ensures Dropped(tabs, tabs[i].id) == Without(tabs, i)
    decreases |tabs|
  {
    var rest := tabs[1..];
    if i == 0 {
      assert forall tab <- rest :: tab.id != tabs[0].id;
      DropsNothing(rest, tabs[0].id);
    } else {
      assert DistinctIds(rest) && rest[i - 1] == tabs[i];
      DropsOne(rest, i - 1);
      assert [tabs[0]] + Without(rest, i - 1) == Without(tabs, i);
    }
  }

  // ---- Every operation ----

  lemma WholeAt(s: Strip, i: nat)
    requires i < |Whole(s)|
    ensures Whole(s)[i] == if i < |s.left| then s.left[i] else if i == |s.left| then s.active else s.right[i - |s.left| - 1]
  {
  }

  lemma LeftOrRight(s: Strip, i: nat)
    requires DistinctIds(Whole(s)) && i < |Whole(s)| && i != |s.left|
    ensures i < |s.left| ==> !Has(s.right, Whole(s)[i].id)
    ensures i > |s.left| ==> !Has(s.left, Whole(s)[i].id)
  {
    var tabs, n := Whole(s), |s.left|;
    forall k: nat | k < n ensures s.left[k] == tabs[k] {
      WholeAt(s, k);
    }
    forall k: nat | k < |s.right| ensures s.right[k] == tabs[n + 1 + k] {
      WholeAt(s, n + 1 + k);
    }
  }

  lemma PartsDistinct(s: Strip)
    requires DistinctIds(Whole(s))
    ensures DistinctIds(s.left) && DistinctIds(s.right)
  {
    forall i, j | 0 <= i < j < |s.left| ensures s.left[i].id != s.left[j].id {
      assert s.left[i] == Whole(s)[i] && s.left[j] == Whole(s)[j];
    }
    var n := |s.left| + 1;
    forall i, j | 0 <= i < j < |s.right| ensures s.right[i].id != s.right[j].id {
      assert s.right[i] == Whole(s)[n + i] && s.right[j] == Whole(s)[n + j];
    }
  }

  lemma WithoutLeft(a: seq<Tab>, b: seq<Tab>, i: nat)
    requires i < |a|
    ensures Without(a + b, i) == Without(a, i) + b
  {
  }

  lemma WithoutRight(a: seq<Tab>, b: seq<Tab>, i: nat)
    requires i < |b|
    ensures Without(a + b, |a| + i) == a + Without(b, i)
  {
  }

  lemma WithoutMiddle(a: seq<Tab>, x: Tab, b: seq<Tab>)
    ensures Without(a + [x] + b, |a|) == a + b
  {
  }

  lemma CloseActiveWhole(s: Strip)
    requires |Whole(s)| > 1
    ensures Whole(CloseActive(s)) == s.left + s.right
  {
  }

  lemma SuccessorIndex(s: Strip)
    requires |Whole(s)| > 1
    ensures var rest := s.left + s.right;
            rest[Min(|s.left|, |rest| - 1)] == CloseActive(s).active
  {
  }

  lemma CloseActiveShown(t: Tabs, s: Strip)
    requires Sound(t) && Shows(t, s) && |t.tabs| > 1
    ensures Shows(Close(t, t.activeID).0, CloseActive(s))
    ensures Close(t, t.activeID).1 == Selected(CloseActive(s).active.address)
  {
    ActiveIndex(t, s);
    WithoutMiddle(s.left, s.active, s.right);
    CloseActiveWhole(s);
    SuccessorIndex(s);
  }

  lemma DropInactive(s: Strip, i: nat)
    requires DistinctIds(Whole(s)) && i < |Whole(s)| && i != |s.left|
    ensures var id := Whole(s)[i].id;
            Without(Whole(s), i) == Whole(Strip(Dropped(s.left, id), s.active, Dropped(s.right, id)))
  {
    var n, id := |s.left|, Whole(s)[i].id;
    WholeAt(s, i);
    LeftOrRight(s, i);
    PartsDistinct(s);
    if i < n {
      DropsOne(s.left, i);
      DropsNothing(s.right, id);
      WithoutLeft(s.left + [s.active], s.right, i);
      WithoutLeft(s.left, [s.active], i);
    } else {
      DropsOne(s.right, i - n - 1);
      DropsNothing(s.left, id);
      WithoutRight(s.left + [s.active], s.right, i - n - 1);
    }
  }

  lemma CloseShown(t: Tabs, s: Strip, id: nat)
    requires Sound(t) && Shows(t, s)
    ensures Shows(Close(t, id).0, CloseOn(s, id).0) && Close(t, id).1 == CloseOn(s, id).1
  {
    var i := IndexOf(t.tabs, id);
    HasIndex(t.tabs, id);
    ActiveIndex(t, s);
    if |t.tabs| > 1 && i < |t.tabs| {
      if id == t.activeID {
        CloseActiveShown(t, s);
      } else {
        DropInactive(s, i);
      }
    }
  }

  lemma ActiveReplaced(s: Strip, tab: Tab)
    ensures Whole(s)[|s.left| := tab] == Whole(s.(active := tab))
  {
  }

  lemma FocusWhole(tabs: seq<Tab>, i: nat)
    requires i < |tabs|
    ensures Whole(Focus(tabs, i)) == tabs
  {
  }

  lemma NavigateShown(t: Tabs, s: Strip, address: string)
    requires Sound(t) && Shows(t, s)
    ensures Shows(UpdateActiveAddress(t, address), ApplyOn(s, Navigate(address), 0))
  {
    ActiveIndex(t, s);
    FitsIsAllowed(address);
    ActiveReplaced(s, WithAddress(s.active, address));
  }

  lemma RetitleShown(t: Tabs, s: Strip, title: Option<string>)
    requires Sound(t) && Shows(t, s)
    ensures Shows(UpdateActiveTitle(t, title), ApplyOn(s, Retitle(title), 0))
  {
    ActiveIndex(t, s);
    ActiveReplaced(s, s.active.(title := title));
  }

  lemma AppendedWhole(s: Strip, tab: Tab)
    ensures Whole(Strip(Whole(s), tab, [])) == Whole(s) + [tab]
  {
  }

  lemma StepShown(t: Tabs, s: Strip, operation: Operation)
    requires Sound(t) && Shows(t, s)
    ensures Shows(Apply(t, operation), ApplyOn(s, operation, Allocated(t)))
  {
    ActiveIndex(t, s);
    match operation
    case OpenTab(homepage) =>
      FitsIsAllowed(homepage);
      AppendedWhole(s, Tab(Allocated(t), Homepage(homepage), None));
    case SelectTab(id) =>
      HasIndex(t.tabs, id);
      if IndexOf(t.tabs, id) < |t.tabs| {
        FocusWhole(t.tabs, IndexOf(t.tabs, id));
      }
    case CloseTab(id) => CloseShown(t, s, id);
    case Navigate(address) => NavigateShown(t, s, address);
    case Retitle(title) => RetitleShown(t, s, title);
  }

  // ---- Main results ----

  /** Every run shows the strip its operations come to. */
  lemma {:induction false} RunShowsStrip(homepage: string, operations: seq<Operation>)
    ensures Shows(Run(homepage, operations), StripAfter(homepage, operations))
    decreases |operations|
  {
    if operations == [] {
      FitsIsAllowed(homepage);
    } else {
      var before := operations[..|operations| - 1];
      RunShowsStrip(homepage, before);
      TabsAreSound(homepage, before);
      StepShown(Run(homepage, before), StripAfter(homepage, before), operations[|operations| - 1]);
    }
  }

  /** And every operation of a run answers what happened on the strip: a tab opened
      is the active one at the right end, a tab selected is the active one, closing
      the active tab names its successor's address. */
  lemma AnswersFollowStrip(homepage: string, operations: seq<Operation>, page: string, id: nat)
    ensures var t, s := Run(homepage, operations), StripAfter(homepage, operations);
            && Open(t, page).1 == (if |Whole(s)| == 8 then None else Some(ApplyOn(s, OpenTab(page), Allocated(t)).active))
            && Select(t, id).1 == (if Has(Whole(s), id) then Some(ApplyOn(s, SelectTab(id), 0).active) else None)
            && Close(t, id).1 == CloseOn(s, id).1
  {
    var t, s := Run(homepage, operations), StripAfter(homepage, operations);
    RunShowsStrip(homepage, operations);
    TabsAreSound(homepage, operations);
    FitsIsAllowed(page);
    HasIndex(t.tabs, id);
    CloseShown(t, s, id);
  }

  ghost predicate AllFit(tabs: seq<Tab>) {
    forall tab <- tabs :: Fits(tab.address)
  }

  lemma {:induction false} DroppedFit(tabs: seq<Tab>, id: nat)
    requires AllFit(tabs)
    ensures AllFit(Dropped(tabs, id))
    decreases |tabs|
  {
    if tabs != [] {
      DroppedFit(tabs[1..], id);
    }
  }

  ghost predicate StripFits(s: Strip) {
    AllFit(s.left) && Fits(s.active.address) && AllFit(s.right)
  }

  lemma CloseFits(s: Strip, id: nat)
    requires StripFits(s)
    ensures StripFits(CloseOn(s, id).0)
  {
    DroppedFit(s.left, id);
    DroppedFit(s.right, id);
  }

  lemma {:induction false} Utf8Between(s: string)
    ensures |s| <= |Utf8(s)| <= 4 * |s|
    decreases |s|
  {
    if s != "" {
      Utf8Between(s[1..]);
    }
  }

  lemma HomepageFits(homepage: string)
    ensures Fits(Homepage(homepage))
  {
    Utf8Between(DEFAULT_HOMEPAGE);
  }

  lemma WholeFits(s: Strip)
    requires StripFits(s)
    ensures AllFit(Whole(s))
  {
  }

  lemma FocusFits(tabs: seq<Tab>, i: nat)
    requires AllFit(tabs) && i < |tabs|
    ensures StripFits(Focus(tabs, i))
  {
  }

  lemma ApplyFits(s: Strip, operation: Operation, newID: nat)
    requires StripFits(s)
    ensures StripFits(ApplyOn(s, operation, newID))
  {
    match operation
    case OpenTab(homepage) =>
      HomepageFits(homepage);
      WholeFits(s);
    case CloseTab(id) => CloseFits(s, id);
    case SelectTab(id) =>
      WholeFits(s);
      if Has(Whole(s), id) {
        HasIndex(Whole(s), id);
        FocusFits(Whole(s), IndexOf(Whole(s), id));
      }
    case Navigate(_) =>
    case Retitle(_) =>
  }

  /** In every run every tab has an address of 1 to 16384 bytes. */
  lemma {:induction false} AddressesFit(homepage: string, operations: seq<Operation>)
    ensures StripFits(StripAfter(homepage, operations)) && AllFit(Run(homepage, operations).tabs)
    decreases |operations|
  {
    if operations == [] {
      HomepageFits(homepage);
    } else {
      var before := operations[..|operations| - 1];
      AddressesFit(homepage, before);
      ApplyFits(StripAfter(homepage, before), operations[|operations| - 1], Allocated(Run(homepage, before)));
    }
    RunShowsStrip(homepage, operations);
    WholeFits(StripAfter(homepage, operations));
  }
}
