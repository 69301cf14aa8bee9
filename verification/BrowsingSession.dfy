/** Tabs with back and forward stacks. Page loads are an input: `None` is a load that failed. */
module BrowsingSession {
  import opened Common
  import opened Lists

  datatype Page = Page(url: string, html: string)

  datatype Bookmark = Bookmark(name: string, url: string)

  datatype Tab = Tab(history: seq<string>, forward: seq<string>, current: Option<string>, page: Option<Page>)

  const EMPTY_TAB := Tab([], [], None, None)

  datatype Session = Session(tabs: seq<Tab>, active: nat, bookmarks: seq<Bookmark>) {
    predicate Valid() {
      active < |tabs|
    }
  }

  datatype Snapshot = Snapshot(bookmarks: seq<Bookmark>, tabs: seq<(seq<string>, seq<string>, Option<string>)>,
                               active: nat)

  // ---- one tab ------------------------------------------------------------------------------

  function Loaded(t: Tab, load: Option<Page>): Tab {
    if load.Some? then t.(page := load) else t
  }

  function BackTab(t: Tab, load: Option<Page>): Tab {
    if t.history == [] then t else
    var n := |t.history| - 1;
    Loaded(t.(history := t.history[..n], current := Some(t.history[n]),
              forward := if t.current.Some? then t.forward + [t.current.value] else t.forward), load)
  }

  function ForwardTab(t: Tab, load: Option<Page>): Tab {
    if t.forward == [] then t else
    var n := |t.forward| - 1;
    Loaded(t.(forward := t.forward[..n], current := Some(t.forward[n]),
              history := if t.current.Some? then t.history + [t.current.value] else t.history), load)
  }

  /** `url` is already normalized; the visit is recorded unless the loaded page is where the tab already was. */
  function GoTab(t: Tab, url: string, load: Option<Page>): Tab {
    if url == "" || load.None? then t else
    t.(history := if t.current.Some? && t.current.value != load.value.url
                  then t.history + [t.current.value] else t.history,
       forward := [], current := Some(url), page := load)
  }

  function ReloadTab(t: Tab, load: Option<Page>): Tab {
    if t.current.None? then t else Loaded(t, load)
  }

  // ---- the session --------------------------------------------------------------------------

  datatype Command =
    | Go(url: string, load: Option<Page>)
    | Back(load: Option<Page>)
    | Forward(load: Option<Page>)
    | Reload(load: Option<Page>)
    | NewTab
    | CloseTab(index: nat)
    | SelectTab(index: nat)
    | Restore(from: Snapshot)

  function Project(tabs: seq<Tab>): (r: seq<(seq<string>, seq<string>, Option<string>)>)
    ensures |r| == |tabs|
    ensures forall k :: 0 <= k < |tabs| ==> r[k] == (tabs[k].history, tabs[k].forward, tabs[k].current)
  {
    seq(|tabs|, k requires 0 <= k < |tabs| => (tabs[k].history, tabs[k].forward, tabs[k].current))
  }

  function Revive(tabs: seq<(seq<string>, seq<string>, Option<string>)>): (r: seq<Tab>)
    ensures |r| == |tabs|
    ensures forall k :: 0 <= k < |tabs| ==> r[k] == Tab(tabs[k].0, tabs[k].1, tabs[k].2, None)
  {
    seq(|tabs|, k requires 0 <= k < |tabs| => Tab(tabs[k].0, tabs[k].1, tabs[k].2, None))
  }

  function TakeSnapshot(s: Session): Snapshot {
    Snapshot(s.bookmarks, Project(s.tabs), s.active)
  }

  function Restored(from: Snapshot): Session {
    if from.tabs == [] then Session([EMPTY_TAB], 0, from.bookmarks)
    else Session(Revive(from.tabs), if from.active < |from.tabs| then from.active else |from.tabs| - 1, from.bookmarks)
  }

  function Removed(tabs: seq<Tab>, index: nat): seq<Tab>
    requires index < |tabs|
  {
    tabs[..index] + tabs[index + 1..]
  }

  function Close(s: Session, index: nat): Session {
    if index >= |s.tabs| || |s.tabs| == 1 then s else
    var tabs := Removed(s.tabs, index);
    s.(tabs := tabs,
       active := if s.active >= |tabs| then |tabs| - 1 else if s.active > index then s.active - 1 else s.active)
  }

  function OnActive(s: Session, t: Tab): Session
    requires s.Valid()
  {
    s.(tabs := s.tabs[s.active := t])
  }

  function Step(s: Session, c: Command): (r: Session)
    requires s.Valid()
    ensures r.Valid()
  {
    match c
    case Go(url, load) => OnActive(s, GoTab(s.tabs[s.active], url, load))
    case Back(load) => OnActive(s, BackTab(s.tabs[s.active], load))
    case Forward(load) => OnActive(s, ForwardTab(s.tabs[s.active], load))
    case Reload(load) => OnActive(s, ReloadTab(s.tabs[s.active], load))
    case NewTab => s.(tabs := s.tabs + [EMPTY_TAB], active := |s.tabs|)
    case CloseTab(index) => Close(s, index)
    case SelectTab(index) => if index < |s.tabs| then s.(active := index) else s
    case Restore(from) => Restored(from)
  }

  function Run(s: Session, cs: seq<Command>): (r: Session)
    requires s.Valid()
    ensures r.Valid()
  {
    if cs == [] then s else Step(Run(s, cs[..|cs| - 1]), cs[|cs| - 1])
  }

  // ---- the timeline -------------------------------------------------------------------------

  function Present(t: Tab): seq<string> {
    if t.current.Some? then [t.current.value] else []
  }

  function Timeline(t: Tab): seq<string> {
    t.history + Present(t) + Reverse(t.forward)
  }

  lemma BackTimeline(t: Tab, load: Option<Page>)
    ensures Timeline(BackTab(t, load)) == Timeline(t)
  {
    hide Reverse;
    if t.history != [] {
      var n := |t.history| - 1;
      var front, after := t.history[..n], Reverse(t.forward);
      assert t.history == front + [t.history[n]];
      if t.current.Some? {
        ReversePush(t.forward, t.current.value);
        assert Timeline(BackTab(t, load)) == front + [t.history[n]] + ([t.current.value] + after);
      } else {
        assert Timeline(BackTab(t, load)) == front + [t.history[n]] + after;
      }
    }
  }

  lemma ForwardTimeline(t: Tab, load: Option<Page>)
    ensures Timeline(ForwardTab(t, load)) == Timeline(t)
  {
    if t.forward != [] {
      var n := |t.forward| - 1;
      assert t.forward == t.forward[..n] + [t.forward[n]];
      ReversePush(t.forward[..n], t.forward[n]);
    }
  }

  predicate Moves(c: Command) {
    c.Back? || c.Forward? || c.Reload? || c.SelectTab?
  }

  /** Moving about in any tabs, with loads that succeed or fail, changes no tab's timeline. */
  lemma {:induction false} TimelinesKept(s: Session, cs: seq<Command>)
    requires s.Valid() && forall i :: 0 <= i < |cs| ==> Moves(cs[i])
    ensures var r := Run(s, cs);
            |r.tabs| == |s.tabs| && forall k :: 0 <= k < |s.tabs| ==> Timeline(r.tabs[k]) == Timeline(s.tabs[k])
    decreases |cs|
  {
    hide Timeline, BackTab, ForwardTab;
    if cs != [] {
      TimelinesKept(s, cs[..|cs| - 1]);
      MoveKeeps(Run(s, cs[..|cs| - 1]), cs[|cs| - 1]);
    }
  }

  /** One move: the other tabs are as they were, the active one keeps its timeline. */
  lemma MoveKeeps(s: Session, c: Command)
    requires s.Valid() && Moves(c)
    ensures var r := Step(s, c);
            && |r.tabs| == |s.tabs| && Timeline(r.tabs[s.active]) == Timeline(s.tabs[s.active])
            && forall k :: 0 <= k < |s.tabs| && k != s.active ==> r.tabs[k] == s.tabs[k]
  {
    var t := s.tabs[s.active];
    match c {
      case Back(load) => BackTimeline(t, load);
      case Forward(load) => ForwardTimeline(t, load);
      case Reload(load) =>
      case SelectTab(index) =>
    }
  }

  // ---- a cursor on the timeline -------------------------------------------------------------

  /** The stacks are the two sides of position `at`. */
  predicate Shows(t: Tab, timeline: seq<string>, at: nat) {
    && at < |timeline| && t.history == timeline[..at] && t.current == Some(timeline[at])
    && t.forward == Reverse(timeline[at + 1..])
  }

  /** A tab that has been somewhere is a position on its own timeline. */
  lemma TabIsCursor(t: Tab)
    requires t.current.Some?
    ensures Shows(t, Timeline(t), |t.history|)
  {
    var tl := Timeline(t);
    assert tl[..|t.history|] == t.history;
    assert tl[|t.history| + 1..] == Reverse(t.forward);
    ReverseTwice(t.forward);
  }

  /** Where a move leads, never leaving the timeline. */
  function Moved(at: nat, length: nat, c: Command): nat {
    if c.Back? && at > 0 then at - 1 else if c.Forward? && at + 1 < length then at + 1 else at
  }

  function Walk(at: nat, length: nat, cs: seq<Command>): nat {
    if cs == [] then at else Moved(Walk(at, length, cs[..|cs| - 1]), length, cs[|cs| - 1])
  }

  lemma BackShows(t: Tab, timeline: seq<string>, at: nat, load: Option<Page>)
    requires Shows(t, timeline, at)
    ensures Shows(BackTab(t, load), timeline, if at > 0 then at - 1 else at)
  {
    if at > 0 {
      assert timeline[..at][..at - 1] == timeline[..at - 1];
      assert timeline[at..] == [timeline[at]] + timeline[at + 1..];
      ReverseUnshift(timeline[at], timeline[at + 1..]);
    }
  }

  lemma ForwardShows(t: Tab, timeline: seq<string>, at: nat, load: Option<Page>)
    requires Shows(t, timeline, at)
    ensures Shows(ForwardTab(t, load), timeline, if at + 1 < |timeline| then at + 1 else at)
  {
    if at + 1 < |timeline| {
      var after := timeline[at + 1..];
      assert after == [timeline[at + 1]] + timeline[at + 2..];
      ReverseUnshift(timeline[at + 1], timeline[at + 2..]);
      var r := Reverse(timeline[at + 2..]);
      assert (r + [timeline[at + 1]])[..|r|] == r;
      assert timeline[..at + 1] == timeline[..at] + [timeline[at]];
    } else {
      assert timeline[at + 1..] == [];
    }
  }

  /** Any run of back and forward is a walk on a fixed timeline: the two stacks refine one cursor. */
  lemma {:induction false} WalkShows(s: Session, cs: seq<Command>, timeline: seq<string>, at: nat)
    requires s.Valid() && Shows(s.tabs[s.active], timeline, at)
    requires forall i :: 0 <= i < |cs| ==> cs[i].Back? || cs[i].Forward? || cs[i].Reload?
    ensures var r := Run(s, cs);
            && r.active == s.active && |r.tabs| == |s.tabs|
            && Shows(r.tabs[s.active], timeline, Walk(at, |timeline|, cs))
            && forall k :: 0 <= k < |s.tabs| && k != s.active ==> r.tabs[k] == s.tabs[k]
    decreases |cs|
  {
    if cs != [] {
      var before, c := cs[..|cs| - 1], cs[|cs| - 1];
      WalkShows(s, before, timeline, at);
      var q, k := Run(s, before), Walk(at, |timeline|, before);
      hide BackTab, ForwardTab, Run;
      assert Run(s, cs) == Step(q, c) by { RunLast(s, cs); }
      if c.Back? {
        BackShows(q.tabs[s.active], timeline, k, c.load);
      } else if c.Forward? {
        ForwardShows(q.tabs[s.active], timeline, k, c.load);
      }
    }
  }

  lemma RunLast(s: Session, cs: seq<Command>)
    requires s.Valid() && cs != []
    ensures Run(s, cs) == Step(Run(s, cs[..|cs| - 1]), cs[|cs| - 1])
  {
  }

  /** Back and then forward gives the stacks back exactly when the tab has a current address. */
  lemma BackForwardIff(t: Tab, load: Option<Page>, load': Option<Page>)
    requires t.history != []
    ensures var r := ForwardTab(BackTab(t, load), load');
            (r.history == t.history && r.forward == t.forward && r.current == t.current) <==> t.current.Some?
  {
    var n := |t.history| - 1;
    assert t.history == t.history[..n] + [t.history[n]];
    if t.current.Some? {
      assert (t.forward + [t.current.value])[..|t.forward|] == t.forward;
    }
  }

  /** After a visit, back leads to where the tab was, unless the visit ended up right there. */
  lemma GoThenBack(t: Tab, url: string, page: Page, load: Option<Page>)
    requires url != "" && t.current.Some?
    ensures var r := BackTab(GoTab(t, url, Some(page)), load);
            r.history + Present(r) == t.history + Present(t)
            <==> page.url != t.current.value || (t.history == [] && url == t.current.value)
  {
    var g := GoTab(t, url, Some(page));
    if page.url != t.current.value {
      assert g.history[..|t.history|] == t.history;
    } else if t.history != [] {
      var n := |t.history| - 1;
      var r := BackTab(g, load);
      assert |r.history + Present(r)| == |t.history|;
      assert |t.history + Present(t)| == |t.history| + 1;
    } else {
      assert BackTab(g, load) == g && g.history + Present(g) == [url];
      assert t.history + Present(t) == [t.current.value];
      assert [url][0] == url && [t.current.value][0] == t.current.value;
    }
  }

  /** A visit to `b` that ends up at `a`, where the tab already is, leaves nothing to go back to. */
  lemma BounceExample()
    ensures var t := Tab([], [], Some("a"), None);
            BackTab(GoTab(t, "b", Some(Page("a", ""))), None).current == Some("b")
  {
  }

  // ---- tabs ---------------------------------------------------------------------------------

  /** Closing another tab keeps the same tab in front; closing the front tab moves to its right neighbour, or
      to its left one at the end. The other tabs keep their order. */
  lemma CloseKeepsActive(s: Session, index: nat)
    requires s.Valid() && index < |s.tabs| && |s.tabs| > 1
    ensures var r := Close(s, index);
            && r.Valid() && r.tabs == Removed(s.tabs, index)
            && r.tabs[r.active] == s.tabs[if index != s.active then s.active
                                          else if index + 1 < |s.tabs| then index + 1 else index - 1]
            && (forall k :: 0 <= k < |s.tabs| && k != index ==> r.tabs[if k < index then k else k - 1] == s.tabs[k])
  {
  }

  // ---- snapshots ----------------------------------------------------------------------------

  /** A restored snapshot has every stack, the bookmarks and the active tab; only pages are gone. */
  lemma RestoreSnapshot(s: Session)
    requires s.Valid()
    ensures var r := Restored(TakeSnapshot(s));
            && r.active == s.active && r.bookmarks == s.bookmarks && |r.tabs| == |s.tabs|
            && forall k :: 0 <= k < |s.tabs| ==> r.tabs[k] == s.tabs[k].(page := None)
  {
  }

  /** The other way round, exactly for the snapshots with an active tab. */
  lemma SnapshotRestore(from: Snapshot)
    ensures Restored(from).Valid()
    ensures TakeSnapshot(Restored(from)) == from <==> from.active < |from.tabs|
  {
    if from.tabs != [] { assert Project(Revive(from.tabs)) == from.tabs; }
  }

  // ---- the session object -------------------------------------------------------------------

  class BrowserSession {
    var tabs: seq<Tab>
    var active: nat
    var bookmarks: seq<Bookmark>

    ghost function Value(): Session
      reads this
    {
      Session(tabs, active, bookmarks)
    }

    constructor ()
      ensures Value() == Session([EMPTY_TAB], 0, [])
    {
      tabs, active, bookmarks := [EMPTY_TAB], 0, [];
    }

    method GoTo(url: string, load: Option<Page>) returns (ok: bool)
      requires Value().Valid()
      modifies this
      ensures Value() == Step(old(Value()), Go(url, load)) && ok == (url != "" && load.Some?)
    {
      if url == "" || load.None? {
        return false;
      }
      var tab := tabs[active];
      var previous := tab.current;
      tab := tab.(current := Some(url));
      if previous.Some? && previous.value != load.value.url {
        tab := tab.(history := tab.history + [previous.value]);
      }
      tabs := tabs[active := tab.(forward := [], page := load)];
      return true;
    }

    /** The target's load may fail: the stacks have moved by then. */
    method GoBack(load: Option<Page>) returns (target: Option<string>)
      requires Value().Valid()
      modifies this
      ensures Value() == Step(old(Value()), Back(load))
      ensures target.None? <==> old(tabs[active]).history == []
      ensures target.Some? ==> tabs[active].current == target
    {
      var tab := tabs[active];
      if tab.history == [] {
        return None;
      }
      target := Some(tab.history[|tab.history| - 1]);
      tab := tab.(history := tab.history[..|tab.history| - 1]);
      if tab.current.Some? {
        tab := tab.(forward := tab.forward + [tab.current.value]);
      }
      tabs := tabs[active := tab.(current := target)];
      if load.Some? {
        tabs := tabs[active := tabs[active].(page := load)];
      }
    }

    method GoForward(load: Option<Page>) returns (target: Option<string>)
      requires Value().Valid()
      modifies this
      ensures Value() == Step(old(Value()), Forward(load))
      ensures target.None? <==> old(tabs[active]).forward == []
      ensures target.Some? ==> tabs[active].current == target
    {
      var tab := tabs[active];
      if tab.forward == [] {
        return None;
      }
      target := Some(tab.forward[|tab.forward| - 1]);
      tab := tab.(forward := tab.forward[..|tab.forward| - 1]);
      if tab.current.Some? {
        tab := tab.(history := tab.history + [tab.current.value]);
      }
      tabs := tabs[active := tab.(current := target)];
      if load.Some? {
        tabs := tabs[active := tabs[active].(page := load)];
      }
    }

    method ReloadPage(load: Option<Page>) returns (ok: bool)
      requires Value().Valid()
      modifies this
      ensures Value() == Step(old(Value()), Reload(load)) && ok == (old(tabs[active]).current.Some? && load.Some?)
    {
      ok := tabs[active].current.Some? && load.Some?;
      if ok {
        tabs := tabs[active := tabs[active].(page := load)];
      }
    }

    method OpenTab() returns (index: nat)
      requires Value().Valid()
      modifies this
      ensures Value() == Step(old(Value()), NewTab) && index == active
    {
      tabs := tabs + [EMPTY_TAB];
      active := |tabs| - 1;
      index := active;
    }

    method DropTab(index: nat) returns (ok: bool)
      requires Value().Valid()
      modifies this
      ensures Value() == Step(old(Value()), CloseTab(index))
      ensures ok <==> index < |old(tabs)| && |old(tabs)| > 1
    {
      if index >= |tabs| || |tabs| == 1 {
        return false;
      }
      tabs := tabs[..index] + tabs[index + 1..];
      if active >= |tabs| {
        active := |tabs| - 1;
      } else if active > index {
        active := active - 1;
      }
      return true;
    }

    method ChooseTab(index: nat) returns (ok: bool)
      requires Value().Valid()
      modifies this
      ensures Value() == Step(old(Value()), SelectTab(index)) && ok == (index < |tabs|)
    {
      ok := index < |tabs|;
      if ok {
        active := index;
      }
    }

    method Load(from: Snapshot)
      modifies this
      ensures Value() == Restored(from) && Value().Valid()
    {
      bookmarks := from.bookmarks;
      if from.tabs == [] {
        tabs, active := [EMPTY_TAB], 0;
        return;
      }
      tabs := Revive(from.tabs);
      active := if from.active < |tabs| - 1 then from.active else |tabs| - 1;
    }
  }
}
