/** What each step does to the tabs and docks one by one, and what it leaves alone. */
module BrowserEffects {
  import opened Options
  import opened Text
  import opened BrowserPane
  import D = BrowserDocks
  import Json

  /** The step changes tabs and docks where they stand, and nothing else. */
  ghost predicate InPlace(s: State, t: State) {
    && |t.table| == |s.table| && |t.docks| == |s.docks|
    && t.gone == s.gone && t.seen == s.seen && t.live == s.live && t.counter == s.counter && t.next == s.next
  }

  ghost predicate OnlyTable(s: State, t: State) {
    t == s.(table := t.table) && |t.table| == |s.table|
  }

  lemma TheIndex(table: seq<Inst>, k: nat)
    requires D.UniqueIds(table) && k < |table|
    ensures Index(table, table[k].id) == k
  {
  }

  /**
   * Hiding an open tab takes it out of its window, and the first dock whose active tab it is shows none; all other
   * tabs and docks stay. Hiding a missing or closed tab changes nothing.
   */
  lemma HideMeans(s: State, id: string)
    requires D.UniqueIds(s.table)
    ensures var t := Apply(s, Hide(id));
      && InPlace(s, t)
      && (forall k :: 0 <= k < |s.table| ==>
            t.table[k] == if s.table[k].id == id && !s.table[k].dead then s.table[k].(host := None, visible := false) else s.table[k])
      && (forall d :: 0 <= d < |s.docks| ==>
            t.docks[d] ==
              if (exists k :: 0 <= k < |s.table| && s.table[k].id == id && !s.table[k].dead)
                 && s.docks[d].active == Some(id) && (forall e :: 0 <= e < d ==> s.docks[e].active != Some(id))
              then s.docks[d].(active := None) else s.docks[d])
      && ((forall k :: 0 <= k < |s.table| && s.table[k].id == id ==> s.table[k].dead) ==> t == s)
  {
    var k := Index(s.table, id);
    forall j | 0 <= j < |s.table| && s.table[j].id == id ensures j == k {
      TheIndex(s.table, j);
    }
  }

  /** Releasing a window's dock drops it and takes every tab out of that window; a window without a dock changes nothing. */
  lemma ReleaseMeans(s: State, window: nat)
    requires D.UniqueDocks(s.docks)
    ensures var t := Apply(s, Release(window));
      && t == s.(docks := t.docks, table := t.table)
      && (forall d :: d in t.docks <==> d in s.docks && d.window != window)
      && |t.table| == |s.table|
      && (forall k :: 0 <= k < |s.table| ==>
            t.table[k] ==
              if (exists d :: d in s.docks && d.window == window) && s.table[k].host == Some(window)
              then s.table[k].(host := None, visible := false) else s.table[k])
  {
    D.DropDockIs(s.docks, window);
    var k := DockIndex(s.docks, window);
    if k < |s.docks| {
      assert s.docks[k] in s.docks;
    }
    forall d | d in s.docks && d.window == window ensures k < |s.docks| {
      var i :| 0 <= i < |s.docks| && s.docks[i] == d;
    }
  }

  /** The table and the docks have no id and no window twice, in every reachable state. */
  lemma ReachableUnique(ops: seq<Op>)
    ensures D.UniqueIds(Run(INITIAL, ops).table) && D.UniqueDocks(Run(INITIAL, ops).docks)
  {
    hide Run;
    D.RunValid(ops);
  }

  /**
   * After a release in any run the window has no dock, and a tab is in it exactly when it was before, the window is
   * gone and had no dock to release; so no tab is left in a window that is still there.
   */
  lemma ReleaseEmpties(ops: seq<Op>, window: nat, k: nat)
    requires k < |Run(INITIAL, ops).table|
    ensures var s := Run(INITIAL, ops); var t := Apply(s, Release(window));
      && |t.table| == |s.table|
      && (forall d :: d in t.docks ==> d.window != window)
      && (t.table[k].host == Some(window) <==>
            s.table[k].host == Some(window) && window !in s.live && forall d :: d in s.docks ==> d.window != window)
  {
    hide Run, Apply;
    var s := Run(INITIAL, ops);
    ReachableUnique(ops);
    ReleaseMeans(s, window);
    D.TabsAreDocked(ops, s.table[k], s.table[k]);
    if s.table[k].host == Some(window) && window in s.live {
      assert s.docks[DockIndex(s.docks, window)] in s.docks;
    }
  }

  /**
   * A push to a live window makes the dock that window's, in the place of the one before if there was one. An open
   * tab moves into the window if it is the active one and the dock is visible, not suppressed and measured; any other
   * tab in the window leaves it. A push to a window that is gone only drops its dock.
   */
  lemma PushMeans(s: State, dock: Dock)
    requires D.UniqueDocks(s.docks)
    ensures var t := Apply(s, PushDock(dock));
      && t == s.(docks := t.docks, table := t.table) && |t.table| == |s.table|
      && (forall d :: d in t.docks <==> (d in s.docks && d.window != dock.window) || (d == dock && dock.window in s.live))
      && (forall k :: 0 <= k < |s.table| ==>
            var x := s.table[k];
            t.table[k] ==
              if dock.window !in s.live then x
              else if dock.visible && !dock.suppressed && dock.active == Some(x.id)
                      && dock.bounds.Some? && dock.bounds.value.width > 0 && dock.bounds.value.height > 0
              then (if x.dead then x else x.(host := Some(dock.window), visible := true))
              else if x.host == Some(dock.window) then x.(host := None, visible := false) else x)
  {
    D.DropDockIs(s.docks, dock.window);
    PutDockIs(s.docks, dock);
  }

  lemma PutDockIs(docks: seq<Dock>, dock: Dock)
    requires D.UniqueDocks(docks)
    ensures forall d :: d in PutDock(docks, dock) <==> (d in docks && d.window != dock.window) || d == dock
  {
    var k := DockIndex(docks, dock.window);
    var t := PutDock(docks, dock);
    if k < |docks| {
      assert t[k] == dock;
      forall d | d in docks && d.window != dock.window ensures d in t {
        var i :| 0 <= i < |docks| && docks[i] == d;
        assert t[i] == d;
      }
    }
  }

  /** The id a new tab gets: the one asked for, or the next generated one. */
  function IdGiven(s: State, id: string): string {
    if id == "" then "browser-" + Json.PrintNat(s.counter + 1) else id
  }

  /** Creating a tab under an id that is in use leaves the table; a generated id is used up all the same. */
  lemma CreateExisting(s: State, id: string, owner: Owner, ownerSession: Option<string>, workspace: Option<string>)
    requires exists x :: x in s.table && x.id == IdGiven(s, id)
    ensures Apply(s, Create(id, owner, ownerSession, workspace)) == if id == "" then s.(counter := s.counter + 1) else s
  {
    hide Index, Json.PrintNat;
    IndexFinds(s.table, IdGiven(s, id));
    assert s.(counter := s.counter) == s;
  }

  /** Under an id that is not in use, the last tab of the table is then an open tab in no window, owned as asked. */
  lemma CreateMeans(s: State, id: string, owner: Owner, ownerSession: Option<string>, workspace: Option<string>)
    requires forall x :: x in s.table ==> x.id != IdGiven(s, id)
    ensures var t := Apply(s, Create(id, owner, ownerSession, workspace));
      && t == s.(table := t.table, counter := if id == "" then s.counter + 1 else s.counter, next := s.next + 1)
      && |t.table| == |s.table| + 1 && t.table[..|s.table|] == s.table
      && var x := t.table[|s.table|];
         && x.serial == s.next && x.id == IdGiven(s, id) && x.host == None && !x.visible && !x.dead
         && x.owner == owner && x.ownerSession == (if owner == Session then ownerSession else None)
         && x.bound == x.ownerSession && x.workspace == workspace
  {
    hide Index, Json.PrintNat;
    IndexFinds(s.table, IdGiven(s, id));
  }

  lemma IndexFinds(table: seq<Inst>, id: string)
    ensures Index(table, id) < |table| <==> exists x :: x in table && x.id == id
  {
    if x :| x in table && x.id == id {
      var j :| 0 <= j < |table| && table[j] == x;
    }
  }

  /** A page that opens another one gives it its own tab's owner and workspace. */
  lemma OpenTabMeans(s: State, origin: Inst)
    requires origin in s.table || origin in s.gone
    requires forall x :: (x in s.table || x in s.gone) && x.serial == origin.serial ==> x == origin
    ensures Apply(s, OpenTab(origin.serial)) == Apply(s, Create("", origin.owner, origin.ownerSession, origin.workspace))
  {
    var k, g := SerialIndex(s.table, origin.serial), SerialIndex(s.gone, origin.serial);
    if origin in s.table {
      var j :| 0 <= j < |s.table| && s.table[j] == origin;
    } else {
      var j :| 0 <= j < |s.gone| && s.gone[j] == origin;
    }
    if k < |s.table| {
      assert s.table[k] in s.table;
    } else {
      assert s.gone[g] in s.gone;
    }
  }

  /** Destroying a tab takes it out of the table and of its window; the others keep their places. */
  lemma DestroyMeans(s: State, k: nat)
    requires D.UniqueIds(s.table) && k < |s.table|
    ensures Apply(s, Destroy(s.table[k].id)) ==
            s.(table := s.table[..k] + s.table[k + 1..], gone := s.gone + [s.table[k].(host := None, visible := false)])
    ensures forall id: string :: (forall x :: x in s.table ==> x.id != id) ==> Apply(s, Destroy(id)) == s
  {
    TheIndex(s.table, k);
    forall id: string | forall x :: x in s.table ==> x.id != id ensures Apply(s, Destroy(id)) == s {
      IndexFinds(s.table, id);
    }
  }

  lemma SerialOf(table: seq<Inst>, k: nat)
    requires k < |table| && forall j :: 0 <= j < |table| && j != k ==> table[j].serial != table[k].serial
    ensures SerialIndex(table, table[k].serial) == k
  {
  }

  /** A page that is lost, crashes, or reports its end: the tab is closed, leaves its window, or leaves the table. */
  lemma PageEventsMean(s: State, k: nat)
    requires k < |s.table| && forall j :: 0 <= j < |s.table| && j != k ==> s.table[j].serial != s.table[k].serial
    ensures var x := s.table[k];
      && Apply(s, PageLost(x.serial)) == s.(table := s.table[k := x.(dead := true)])
      && Apply(s, Crash(x.serial)) == s.(table := s.table[k := x.(host := None, visible := false)])
      && Apply(s, PageGone(x.serial)) ==
           s.(table := s.table[..k] + s.table[k + 1..], gone := s.gone + [x.(host := None, visible := false)])
  {
    SerialOf(s.table, k);
  }

  /**
   * The late event of a page whose tab has left the table takes whatever tab has its tab's id out of the table, and
   * leaves that one's place in its window; without such a tab it changes nothing.
   */
  lemma LatePageMeans(s: State, g: nat, k: nat)
    requires Late(s, g)
    ensures var x := s.gone[g];
      && (k < |s.table| && s.table[k].id == x.id ==>
            Apply(s, PageGone(x.serial)) ==
              s.(table := s.table[..k] + s.table[k + 1..], gone := s.gone[g := x.(host := None, visible := false)] + [s.table[k]]))
      && ((forall y :: y in s.table ==> y.id != x.id) ==> Apply(s, PageGone(x.serial)) == s)
      && Apply(s, PageLost(x.serial)) == s && Apply(s, Crash(x.serial)) == s.(gone := s.gone[g := x.(host := None, visible := false)])
  {
    hide D.UniqueIds, Index;
    var x := s.gone[g];
    NoSerial(s.table, x.serial);
    SerialOf(s.gone, g);
    IndexFinds(s.table, x.id);
    if k < |s.table| && s.table[k].id == x.id {
      TheIndex(s.table, k);
    }
  }

  /** The tab has left the table, and no other one has its serial number. */
  ghost predicate Late(s: State, g: nat) {
    && D.UniqueIds(s.table) && g < |s.gone|
    && (forall x :: x in s.table ==> x.serial != s.gone[g].serial)
    && (forall j :: 0 <= j < |s.gone| && j != g ==> s.gone[j].serial != s.gone[g].serial)
  }

  lemma NoSerial(table: seq<Inst>, serial: nat)
    requires forall x :: x in table ==> x.serial != serial
    ensures SerialIndex(table, serial) == |table|
  {
  }

  /** Binding makes the tab the session's, with the workspace if one is given; unbinding makes it manual and keeps its last owner. */
  lemma BindingMeans(s: State, k: nat, session: string, workspace: Given)
    requires D.UniqueIds(s.table) && k < |s.table|
    ensures var x := s.table[k];
      var w := if workspace.Given? then workspace.value else x.workspace;
      && Apply(s, Bind(x.id, session, workspace)) ==
           s.(table := s.table[k := x.(bound := Some(session), owner := Session, ownerSession := Some(session), workspace := w)])
      && Apply(s, Unbind(x.id)) == s.(table := s.table[k := x.(bound := None, owner := Manual)])
  {
    TheIndex(s.table, k);
  }

  /** Letting a session go makes its tabs manual; they remember the session unless they remember another. */
  lemma UnbindSessionMeans(s: State, session: string)
    ensures var t := Apply(s, UnbindSession(session));
      && OnlyTable(s, t)
      && forall k :: 0 <= k < |s.table| ==>
           var x := s.table[k];
           t.table[k] ==
             if x.bound != Some(session) then x
             else x.(bound := None, owner := Manual, ownerSession := if x.ownerSession == None then Some(session) else x.ownerSession)
  {
  }

  /** Exactly the tabs of `p` have left the table, and are remembered out of their windows. */
  ghost predicate Removed(s: State, t: State, p: Inst -> bool) {
    && t == s.(table := t.table, gone := t.gone) && s.gone <= t.gone
    && (forall x :: x in t.table <==> x in s.table && !p(x))
    && (forall x :: x in t.gone[|s.gone|..] <==> exists y :: y in s.table && p(y) && x == y.(host := None, visible := false))
  }

  lemma DroppedRemoves(s: State, p: Inst -> bool)
    ensures Removed(s, Dropped(s, p), p)
  {
    hide Select;
    SelectMembers(s.table, p, false);
    SelectMembers(s.table, p, true);
    DetachedMembers(Select(s.table, p, true));
    assert Dropped(s, p).gone[|s.gone|..] == DetachAll(Select(s.table, p, true));
  }

  /** Destroying a session's tabs takes exactly those bound to it out of the table, and listing exactly the closed ones. */
  lemma RemovalMeans(s: State, session: string)
    ensures Removed(s, Apply(s, DestroySession(session)), (x: Inst) => x.bound == Some(session))
    ensures Removed(s, Apply(s, List), (x: Inst) => x.dead)
  {
    hide Select, Removed, Dropped;
    DroppedRemoves(s, BoundBy(session));
    DroppedRemoves(s, Dead());
    SameRemoved(s, Apply(s, DestroySession(session)), BoundBy(session), (x: Inst) => x.bound == Some(session));
    SameRemoved(s, Apply(s, List), Dead(), (x: Inst) => x.dead);
  }

  lemma SameRemoved(s: State, t: State, p: Inst -> bool, q: Inst -> bool)
    requires Removed(s, t, p) && forall x :: p(x) == q(x)
    ensures Removed(s, t, q)
  {
  }

  lemma DetachedMembers(xs: seq<Inst>)
    ensures forall x :: x in DetachAll(xs) <==> exists y :: y in xs && x == y.(host := None, visible := false)
  {
    forall y | y in xs ensures y.(host := None, visible := false) in DetachAll(xs) {
      var i :| 0 <= i < |xs| && xs[i] == y;
      assert DetachAll(xs)[i] == y.(host := None, visible := false);
    }
  }

  /** Taking control fills in the workspace of the session's first tab if it has none. */
  lemma ControlMeans(s: State, session: string, workspace: Given, k: nat)
    requires k < |s.table| && s.table[k].bound == Some(session)
    requires forall j :: 0 <= j < k ==> s.table[j].bound != Some(session)
    ensures Apply(s, Control(session, workspace)) ==
            if workspace.Given? && s.table[k].workspace == None
            then s.(table := s.table[k := s.table[k].(workspace := workspace.value)]) else s
  {
  }

  // ---------------------------------------------------------------- which tab a session is given

  predicate OpenOwn(x: Inst, session: string) {
    x.owner == Session && x.ownerSession == Some(session) && !x.dead
  }

  /** Bound to nobody, and of the workspace or of none. */
  predicate Free(x: Inst, workspace: Option<string>) {
    x.bound == None && x.owner == Manual && (x.workspace == None || x.workspace == workspace)
  }

  /** The active tab of a dock that is visible, not suppressed and measured, in a live window. */
  predicate OnScreen(s: State, x: Inst) {
    && x.id != ""
    && exists d ::
      && 0 <= d < |s.docks|
      && s.docks[d].visible
      && !s.docks[d].suppressed
      && s.docks[d].window in s.live
      && s.docks[d].bounds.Some?
      && s.docks[d].bounds.value.width > 0
      && s.docks[d].bounds.value.height > 0
      && s.docks[d].active == Some(x.id)
  }

  lemma OnScreenIs(s: State, x: Inst)
    ensures OnScreen(s, x) <==> Watched(s.docks, s.live, x.id)
  {
    if OnScreen(s, x) {
      var d :| 0 <= d < |s.docks| && s.docks[d].visible && !s.docks[d].suppressed && s.docks[d].window in s.live
        && s.docks[d].bounds.Some? && s.docks[d].bounds.value.width > 0 && s.docks[d].bounds.value.height > 0
        && s.docks[d].active == Some(x.id);
      assert Paintable(s.docks[d], s.live);
    }
    if Watched(s.docks, s.live, x.id) {
      var d :| 0 <= d < |s.docks| && Paintable(s.docks[d], s.live) && s.docks[d].active == Some(x.id);
      assert s.docks[d].visible;
    }
  }

  /** The first open tab a session owns is the one it is given. */
  lemma OwnTabFirst(s: State, session: string, reuse: bool, workspace: Given, k: nat)
    requires k < |s.table| && OpenOwn(s.table[k], session) && s.table[k].id != ""
    requires forall j :: 0 <= j < k ==> !OpenOwn(s.table[j], session)
    ensures CreateForSession(s, session, reuse, workspace).1 == s.table[k].id
  {
    OwnedIs(s.table, session, k);
    hide Searched, CreateTab, BindTab, PickReusable;
  }

  lemma OwnedIs(table: seq<Inst>, session: string, k: nat)
    requires k < |table| && OpenOwn(table[k], session) && forall j :: 0 <= j < k ==> !OpenOwn(table[j], session)
    ensures OwnedIndex(table, session) == k
  {
  }

  lemma OwnedNone(table: seq<Inst>, session: string)
    requires forall j :: 0 <= j < |table| ==> !OpenOwn(table[j], session)
    ensures OwnedIndex(table, session) == |table|
  {
  }

  /** Without an open tab of its own, looking for one takes out the session's closed tabs. */
  lemma SearchedClean(s: State, session: string)
    requires forall j :: 0 <= j < |s.table| ==> !OpenOwn(s.table[j], session)
    ensures FoundId(s, session) == None
    ensures var t := Searched(s, session);
      Removed(s, t, (x: Inst) => x.owner == Session && x.ownerSession == Some(session))
  {
    OwnedNone(s.table, session);
    hide Select, Removed, Dropped;
    assert s.table[..|s.table|] == s.table && s.table[|s.table|..] == [];
    AllSearched(s, session);
    DroppedRemoves(s, Owned(session));
    SameRemoved(s, Searched(s, session), Owned(session), (x: Inst) => x.owner == Session && x.ownerSession == Some(session));
  }

  lemma AllSearched(s: State, session: string)
    requires OwnedIndex(s.table, session) == |s.table|
    ensures Searched(s, session) == Dropped(s, Owned(session))
  {
    assert s.table[..|s.table|] == s.table && s.table[|s.table|..] == [];
  }

  /** What a session without an open tab is given, once its closed tabs are out. */
  lemma TabForSession(s: State, session: string, reuse: bool, workspace: Given)
    requires forall j :: 0 <= j < |s.table| ==> !OpenOwn(s.table[j], session)
    ensures var s1 := Searched(s, session);
      var ws := if workspace.Given? then workspace.value else None;
      CreateForSession(s, session, reuse, workspace) ==
        if reuse && PickReusable(s1, ws) < |s1.table|
        then (BindTab(s1, s1.table[PickReusable(s1, ws)].id, session, Given(ws)), s1.table[PickReusable(s1, ws)].id)
        else CreateTab(s1, "", Session, Some(session), ws)
  {
    SearchedClean(s, session);
    hide FoundId, Searched, PickReusable, BindTab, CreateTab, OpenOwn;
  }

  ghost predicate AnyFree(s: State, ws: Option<string>) {
    exists x :: x in s.table && Free(x, ws)
  }

  /** The tab under this id was free, and on screen if any free one was. */
  ghost predicate WasFree(s: State, ws: Option<string>, id: string) {
    exists x :: x in s.table && x.id == id && Free(x, ws)
                && (OnScreen(s, x) || forall y :: y in s.table && Free(y, ws) ==> !OnScreen(s, y))
  }

  ghost predicate NowBound(t: State, ws: Option<string>, id: string, session: string) {
    exists y :: y in t.table && y.id == id && y.bound == Some(session) && y.owner == Session && y.workspace == ws
  }

  lemma SearchKeepsFree(s: State, session: string, ws: Option<string>)
    requires forall j :: 0 <= j < |s.table| ==> !OpenOwn(s.table[j], session)
    ensures var s1 := Searched(s, session);
      && s1.docks == s.docks && s1.live == s.live && s1.counter == s.counter
      && (forall x :: x in s1.table && Free(x, ws) <==> x in s.table && Free(x, ws))
      && (forall x :: OnScreen(s1, x) <==> OnScreen(s, x))
  {
    hide Searched, Watched;
    SearchedClean(s, session);
    forall x ensures OnScreen(Searched(s, session), x) <==> OnScreen(s, x) {
      OnScreenIs(s, x);
      OnScreenIs(Searched(s, session), x);
    }
  }

  lemma PickedWasFree(s: State, ws: Option<string>)
    requires AnyFree(s, ws)
    ensures PickReusable(s, ws) < |s.table| && WasFree(s, ws, s.table[PickReusable(s, ws)].id)
  {
    hide PickReusable, OnScreen, Watched;
    var free :| free in s.table && Free(free, ws);
    Picked(s, ws, free);
    var x := s.table[PickReusable(s, ws)];
    OnScreenIs(s, x);
    forall y | y in s.table && Free(y, ws) && OnScreen(s, y) ensures OnScreen(s, x) {
      OnScreenIs(s, y);
      PickedWatched(s, ws, y);
    }
  }

  lemma SameFree(s: State, s1: State, ws: Option<string>, id: string)
    requires forall x :: x in s1.table && Free(x, ws) <==> x in s.table && Free(x, ws)
    requires forall x :: OnScreen(s1, x) <==> OnScreen(s, x)
    ensures AnyFree(s1, ws) <==> AnyFree(s, ws)
    ensures WasFree(s1, ws, id) ==> WasFree(s, ws, id)
  {
    hide Free, OnScreen;
  }

  /**
   * A session without an open tab that may reuse one is given a free tab, one that is on screen if any is; it is bound
   * to the session then. If it may not, or none is free, it is given a new tab with a generated id.
   */
  lemma OtherwiseFreeOrNew(s: State, session: string, reuse: bool, workspace: Given)
    requires forall j :: 0 <= j < |s.table| ==> !OpenOwn(s.table[j], session)
    ensures var (t, id) := CreateForSession(s, session, reuse, workspace);
      var ws := if workspace.Given? then workspace.value else None;
      if reuse && AnyFree(s, ws) then WasFree(s, ws, id) && NowBound(t, ws, id, session)
      else id == "browser-" + Json.PrintNat(s.counter + 1)
           && t == Apply(Searched(s, session), Create("", Session, Some(session), ws))
  {
    hide FoundId, Searched, Watched, OnScreen, Json.PrintNat, Free, WasFree, NowBound, AnyFree, BindTab, PickReusable,
         CreateForSession, OpenOwn;
    var ws := if workspace.Given? then workspace.value else None;
    var s1 := Searched(s, session);
    TabForSession(s, session, reuse, workspace);
    SearchKeepsFree(s, session, ws);
    SameFree(s, s1, ws, CreateForSession(s, session, reuse, workspace).1);
    if reuse && AnyFree(s, ws) {
      PickedWasFree(s1, ws);
      BoundThen(s1, s1.table[PickReusable(s1, ws)].id, session, ws);
    } else {
      NonePicked(s1, ws, reuse);
    }
  }

  lemma Picked(s: State, ws: Option<string>, free: Inst)
    requires free in s.table && Free(free, ws)
    ensures PickReusable(s, ws) < |s.table| && Free(s.table[PickReusable(s, ws)], ws)
  {
    hide Watched;
    var j :| 0 <= j < |s.table| && s.table[j] == free;
    assert Reusable(free, ws);
  }

  lemma PickedWatched(s: State, ws: Option<string>, y: Inst)
    requires y in s.table && Free(y, ws) && Watched(s.docks, s.live, y.id)
    ensures PickReusable(s, ws) < |s.table| && Watched(s.docks, s.live, s.table[PickReusable(s, ws)].id)
  {
    hide Watched;
    var j :| 0 <= j < |s.table| && s.table[j] == y;
    assert Reusable(y, ws);
  }

  lemma NonePicked(s: State, ws: Option<string>, reuse: bool)
    requires !(reuse && AnyFree(s, ws))
    ensures !(reuse && PickReusable(s, ws) < |s.table|)
  {
    hide Watched;
    var k := PickReusable(s, ws);
    assert k < |s.table| ==> s.table[k] in s.table && Free(s.table[k], ws);
  }

  lemma BoundThen(s: State, id: string, session: string, ws: Option<string>)
    requires exists x :: x in s.table && x.id == id
    ensures NowBound(BindTab(s, id, session, Given(ws)), ws, id, session)
  {
    IndexFinds(s.table, id);
    var t := BindTab(s, id, session, Given(ws));
    assert t.table[Index(s.table, id)] in t.table;
  }
}
