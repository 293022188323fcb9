/** What holds of docks and of the tabs they show, over every run. */
module BrowserDocks {
  import opened Options
  import opened Text
  import opened BrowserPane

  /** The dock that a tab in a live window is shown by. */
  ghost predicate Seated(docks: seq<Dock>, live: set<nat>, x: Inst) {
    x.host.Some? && x.host.value in live ==>
      exists d :: 0 <= d < |docks| && docks[d].window == x.host.value
                  && docks[d].active == Some(x.id) && Paintable(docks[d], live)
  }

  ghost predicate AllSeated(s: State) {
    forall x :: x in s.table ==> Seated(s.docks, s.live, x)
  }

  predicate Consistent(x: Inst) {
    x.visible <==> x.host.Some?
  }

  ghost predicate AllConsistent(table: seq<Inst>) {
    forall x :: x in table ==> Consistent(x)
  }

  ghost predicate UniqueIds(table: seq<Inst>) {
    forall i, j :: 0 <= i < j < |table| ==> table[i].id != table[j].id
  }

  ghost predicate UniqueDocks(docks: seq<Dock>) {
    forall i, j :: 0 <= i < j < |docks| ==> docks[i].window != docks[j].window
  }

  /** Windows are live or have been; docks and tabs know only such windows. */
  ghost predicate Known(s: State) {
    && s.live <= s.seen
    && (forall d :: d in s.docks ==> d.window in s.seen)
    && (forall x :: x in s.table && x.host.Some? ==> x.host.value in s.seen)
  }

  ghost predicate Valid(s: State) {
    && AllSeated(s) && AllConsistent(s.table) && UniqueIds(s.table) && UniqueDocks(s.docks) && Known(s)
  }

  /** Every tab of the new table was there before with the same id and seat, or has no seat. */
  ghost predicate Kept(before: seq<Inst>, table: seq<Inst>) {
    forall y :: y in table ==>
      (y.host.None? && !y.visible) ||
      exists x :: x in before && x.id == y.id && x.host == y.host && x.visible == y.visible
  }

  lemma KeptSeats(s: State, t: State)
    requires AllSeated(s) && AllConsistent(s.table) && Known(s) && Kept(s.table, t.table)
    requires t.docks == s.docks && t.live == s.live && t.seen == s.seen
    ensures AllSeated(t) && AllConsistent(t.table) && Known(t)
  {
    forall y | y in t.table ensures Seated(t.docks, t.live, y) && Consistent(y) && (y.host.Some? ==> y.host.value in t.seen) {
      if y.host.Some? {
        var x :| x in s.table && x.id == y.id && x.host == y.host && x.visible == y.visible;
        assert Seated(s.docks, s.live, x) && Consistent(x);
      }
    }
  }

  lemma UpdateKeeps(table: seq<Inst>, k: nat, y: Inst)
    requires k < |table| && y.id == table[k].id
    requires (y.host == table[k].host && y.visible == table[k].visible) || (y.host.None? && !y.visible)
    ensures Kept(table, table[k := y])
    ensures UniqueIds(table) ==> UniqueIds(table[k := y])
  {
    assert table[k] in table;
    forall z | z in table[k := y] && !(z.host.None? && !z.visible)
      ensures exists x :: x in table && x.id == z.id && x.host == z.host && x.visible == z.visible
    {
      if z == y { assert table[k] in table; } else { assert z in table; }
    }
  }

  /** Part of the table, in the same order. */
  lemma WithoutKeeps(table: seq<Inst>, k: nat)
    requires k < |table|
    ensures Kept(table, Without(table, k))
    ensures UniqueIds(table) ==> UniqueIds(Without(table, k))
    ensures forall x :: x in Without(table, k) ==> x in table
  {
  }

  lemma {:induction false} SelectKeeps(table: seq<Inst>, p: Inst -> bool, want: bool)
    ensures Kept(table, Select(table, p, want))
    ensures UniqueIds(table) ==> UniqueIds(Select(table, p, want))
  {
    SelectMembers(table, p, want);
    if table != [] && UniqueIds(table) {
      SelectKeeps(Init(table), p, want);
      SelectMembers(Init(table), p, want);
      var before := Select(Init(table), p, want);
      forall i | 0 <= i < |before| ensures before[i].id != Last(table).id {
        assert before[i] in Init(table);
      }
    }
  }

  lemma PushKeeps(table: seq<Inst>, y: Inst)
    requires y.host.None? && !y.visible
    ensures Kept(table, table + [y])
    ensures UniqueIds(table) && Index(table, y.id) == |table| ==> UniqueIds(table + [y])
  {
  }

  // ---------------------------------------------------------------- pushing a dock

  lemma PutDockIs(docks: seq<Dock>, dock: Dock)
    requires UniqueDocks(docks)
    ensures UniqueDocks(PutDock(docks, dock))
    ensures exists d :: 0 <= d < |PutDock(docks, dock)| && PutDock(docks, dock)[d] == dock
    ensures forall d :: 0 <= d < |docks| && docks[d].window != dock.window ==> docks[d] in PutDock(docks, dock)
    ensures forall d :: d in PutDock(docks, dock) ==> d == dock || d in docks
  {
    var k := DockIndex(docks, dock.window);
    var t := PutDock(docks, dock);
    if k < |docks| {
      assert t[k] == dock;
      forall d | 0 <= d < |docks| && docks[d].window != dock.window ensures docks[d] in t {
        assert t[d] == docks[d];
      }
    } else {
      assert t[|docks|] == dock;
      forall d | 0 <= d < |docks| ensures docks[d] in t {
        assert t[d] == docks[d];
      }
    }
  }

  lemma DropDockIs(docks: seq<Dock>, window: nat)
    requires UniqueDocks(docks)
    ensures UniqueDocks(DropDock(docks, window))
    ensures forall d :: d in DropDock(docks, window) <==> d in docks && d.window != window
  {
    var k := DockIndex(docks, window);
    var t := DropDock(docks, window);
    if k < |docks| {
      forall d | d in docks && d.window != window ensures d in t {
        var i :| 0 <= i < |docks| && docks[i] == d;
        assert if i < k then t[i] == d else t[i - 1] == d;
      }
    }
  }

  /** A seat by membership. */
  lemma SeatedBy(docks: seq<Dock>, live: set<nat>, x: Inst, dock: Dock)
    requires dock in docks && x.host == Some(dock.window) && dock.active == Some(x.id) && Paintable(dock, live)
    ensures Seated(docks, live, x)
  {
    var d :| 0 <= d < |docks| && docks[d] == dock;
  }

  /** A tab that was seated in a window other than `window` keeps its seat in a list with the same other docks. */
  lemma SeatMoves(s: State, docks: seq<Dock>, x: Inst, window: nat)
    requires Seated(s.docks, s.live, x) && x.host != Some(window)
    requires forall d :: 0 <= d < |s.docks| && s.docks[d].window != window ==> s.docks[d] in docks
    ensures Seated(docks, s.live, x)
  {
    if x.host.Some? && x.host.value in s.live {
      var d :| 0 <= d < |s.docks| && s.docks[d].window == x.host.value
               && s.docks[d].active == Some(x.id) && Paintable(s.docks[d], s.live);
      SeatedBy(docks, s.live, x, s.docks[d]);
    }
  }

  lemma ReconciledSeat(s: State, dock: Dock, x: Inst)
    requires UniqueDocks(s.docks) && Seated(s.docks, s.live, x) && Consistent(x) && dock.window in s.live
    ensures var y := Reconciled(x, dock, s.live);
            && Seated(PutDock(s.docks, dock), s.live, y) && Consistent(y)
            && y.id == x.id && (y.host == x.host || y.host == Some(dock.window) || y.host.None?)
  {
    PutDockIs(s.docks, dock);
    var y := Reconciled(x, dock, s.live);
    if y.host == Some(dock.window) {
      SeatedBy(PutDock(s.docks, dock), s.live, y, dock);
    } else if y.host.Some? {
      SeatMoves(s, PutDock(s.docks, dock), x, dock.window);
    }
  }

  lemma SetDockValid(s: State, dock: Dock)
    requires Valid(s)
    ensures Valid(SetDockState(s, dock))
  {
    hide Seated, PutDock, DropDock, Reconciled;
    var t := SetDockState(s, dock);
    if dock.window !in s.live {
      DropDockIs(s.docks, dock.window);
      forall x | x in t.table ensures Seated(t.docks, t.live, x) {
        assert Seated(s.docks, s.live, x);
        if x.host == Some(dock.window) { NoSeatNeeded(t.docks, t.live, x); }
        else { SeatMoves(s, t.docks, x, dock.window); }
      }
    } else {
      PutDockIs(s.docks, dock);
      forall y | y in t.table
        ensures Seated(t.docks, t.live, y) && Consistent(y) && (y.host.Some? ==> y.host.value in t.seen)
      {
        var k :| 0 <= k < |t.table| && t.table[k] == y;
        assert s.table[k] in s.table && Seated(s.docks, s.live, s.table[k]);
        ReconciledSeat(s, dock, s.table[k]);
      }
      forall k | 0 <= k < |t.table| ensures t.table[k].id == s.table[k].id {
        assert s.table[k] in s.table && Seated(s.docks, s.live, s.table[k]);
        ReconciledSeat(s, dock, s.table[k]);
      }
    }
  }

  lemma NoSeatNeeded(docks: seq<Dock>, live: set<nat>, x: Inst)
    requires x.host.None? || x.host.value !in live
    ensures Seated(docks, live, x)
  {
  }

  lemma ReleaseValid(s: State, window: nat)
    requires Valid(s)
    ensures Valid(ReleaseDock(s, window))
  {
    hide Seated, DropDock;
    var t := ReleaseDock(s, window);
    if DockIndex(s.docks, window) < |s.docks| {
      DropDockIs(s.docks, window);
      forall y | y in t.table
        ensures Seated(t.docks, t.live, y) && Consistent(y) && (y.host.Some? ==> y.host.value in t.seen)
      {
        var k :| 0 <= k < |t.table| && t.table[k] == y;
        assert s.table[k] in s.table && Seated(s.docks, s.live, s.table[k]);
        if y.host.None? { NoSeatNeeded(t.docks, t.live, y); } else { SeatMoves(s, t.docks, y, window); }
      }
    }
  }

  lemma HideValid(s: State, id: string)
    requires Valid(s)
    ensures Valid(HideTab(s, id))
  {
    hide Paintable;
    var k, d := Index(s.table, id), ActiveDockIndex(s.docks, id);
    if k < |s.table| && !s.table[k].dead {
      var t := HideTab(s, id);
      UpdateKeeps(s.table, k, Detached(s.table[k]));
      KeptSeats(s, s.(table := t.table));
      forall y | y in t.table ensures Seated(t.docks, t.live, y) {
        var i :| 0 <= i < |t.table| && t.table[i] == y;
        assert Seated(s.docks, s.live, y);
        if i != k && y.host.Some? && y.host.value in s.live {
          assert y.id != id;
          HiddenSeat(s, d, y, id);
        }
      }
      forall x | x in t.docks ensures x.window in t.seen {
        var i :| 0 <= i < |t.docks| && t.docks[i] == x;
        assert s.docks[i] in s.docks;
      }
    }
  }

  lemma HiddenSeat(s: State, d: nat, y: Inst, id: string)
    requires Seated(s.docks, s.live, y) && y.id != id && y.host.Some? && y.host.value in s.live
    requires d <= |s.docks| && (d < |s.docks| ==> s.docks[d].active == Some(id))
    ensures Seated(if d < |s.docks| then s.docks[d := s.docks[d].(active := None)] else s.docks, s.live, y)
  {
    var e :| 0 <= e < |s.docks| && s.docks[e].window == y.host.value
             && s.docks[e].active == Some(y.id) && Paintable(s.docks[e], s.live);
    var docks := if d < |s.docks| then s.docks[d := s.docks[d].(active := None)] else s.docks;
    assert docks[e] == s.docks[e];
  }

  // ---------------------------------------------------------------- every other step

  lemma FramedValid(s: State, t: State)
    requires Valid(s)
    requires t.docks == s.docks && t.live == s.live && t.seen == s.seen
    requires Kept(s.table, t.table) && UniqueIds(t.table)
    ensures Valid(t)
  {
    hide Kept, UniqueIds;
    KeptSeats(s, t);
  }

  lemma WindowsValid(s: State, op: Op)
    requires Valid(s) && (op.OpenWindow? || op.LoseWindow?)
    ensures Valid(Apply(s, op))
  {
    var t := Apply(s, op);
    forall x | x in t.table ensures Seated(t.docks, t.live, x) {
      assert Seated(s.docks, s.live, x);
      if x.host.Some? && x.host.value in t.live {
        assert x.host.value in s.live;
        var d :| 0 <= d < |s.docks| && s.docks[d].window == x.host.value
                 && s.docks[d].active == Some(x.id) && Paintable(s.docks[d], s.live);
        assert Paintable(t.docks[d], t.live);
      }
    }
  }

  lemma CreateValid(s: State, id: string, owner: Owner, session: Option<string>, workspace: Option<string>)
    requires Valid(s)
    ensures Valid(CreateTab(s, id, owner, session, workspace).0)
  {
    hide Valid, Kept;
    var t := CreateTab(s, id, owner, session, workspace).0;
    SameKept(s.table);
    assert UniqueIds(s.table) by { ValidIds(s); }
    if |t.table| > |s.table| {
      PushKeeps(s.table, Last(t.table));
    }
    FramedValid(s, t);
  }

  lemma ValidIds(s: State)
    requires Valid(s)
    ensures UniqueIds(s.table)
  {
  }

  lemma SameKept(table: seq<Inst>)
    ensures Kept(table, table)
  {
  }

  lemma UpdateValid(s: State, k: nat, y: Inst)
    requires Valid(s) && k < |s.table| && y.id == s.table[k].id
    requires (y.host == s.table[k].host && y.visible == s.table[k].visible) || (y.host.None? && !y.visible)
    ensures Valid(s.(table := s.table[k := y]))
  {
    hide Valid, Kept;
    ValidIds(s);
    UpdateKeeps(s.table, k, y);
    FramedValid(s, s.(table := s.table[k := y]));
  }

  lemma WithoutValid(s: State, k: nat, gone: seq<Inst>)
    requires Valid(s) && k < |s.table|
    ensures Valid(s.(table := Without(s.table, k), gone := gone))
  {
    hide Valid, Kept, Without;
    ValidIds(s);
    WithoutKeeps(s.table, k);
    FramedValid(s, s.(table := Without(s.table, k), gone := gone));
  }

  lemma UnbindAllValid(s: State, session: string)
    requires Valid(s)
    ensures Valid(s.(table := UnbindAll(s.table, session)))
  {
    hide Valid;
    ValidIds(s);
    var t := UnbindAll(s.table, session);
    forall y | y in t ensures exists x :: x in s.table && x.id == y.id && x.host == y.host && x.visible == y.visible {
      var k :| 0 <= k < |t| && t[k] == y;
      assert s.table[k] in s.table;
    }
    FramedValid(s, s.(table := t));
  }

  lemma SearchedKeeps(table: seq<Inst>, k: nat, p: Inst -> bool)
    requires k <= |table|
    ensures Kept(table, Select(table[..k], p, false) + table[k..])
    ensures UniqueIds(table) ==> UniqueIds(Select(table[..k], p, false) + table[k..])
  {
    var front, rest := Select(table[..k], p, false), table[k..];
    SelectMembers(table[..k], p, false);
    assert table == table[..k] + rest;
    if UniqueIds(table) {
      SelectKeeps(table[..k], p, false);
      forall i, j | 0 <= i < |front| && 0 <= j < |rest| ensures front[i].id != rest[j].id {
        assert front[i] in table[..k];
        var m :| 0 <= m < k && table[..k][m] == front[i];
        assert table[m].id != table[k + j].id;
      }
    }
  }

  lemma SearchedValid(s: State, session: string)
    requires Valid(s)
    ensures Valid(Searched(s, session))
  {
    hide Valid, Kept, Select;
    ValidIds(s);
    SearchedKeeps(s.table, OwnedIndex(s.table, session), Owned(session));
    FramedValid(s, Searched(s, session));
  }

  lemma DroppedValid(s: State, p: Inst -> bool)
    requires Valid(s)
    ensures Valid(Dropped(s, p))
  {
    hide Valid, Kept, Select;
    ValidIds(s);
    SelectKeeps(s.table, p, false);
    FramedValid(s, Dropped(s, p));
  }

  lemma BindValid(s: State, id: string, session: string, workspace: Given)
    requires Valid(s)
    ensures Valid(BindTab(s, id, session, workspace))
  {
    hide Valid;
    var k := Index(s.table, id);
    if k < |s.table| {
      UpdateValid(s, k, BoundTo(s.table[k], session, workspace));
    }
  }

  lemma ObtainValid(s: State, session: string, reuse: bool, workspace: Given)
    requires Valid(s)
    ensures Valid(CreateForSession(s, session, reuse, workspace).0)
  {
    hide Valid, Searched, BindTab, CreateTab, FoundId, PickReusable;
    var ws := if workspace.Given? then workspace.value else None;
    var found, t := FoundId(s, session), Searched(s, session);
    SearchedValid(s, session);
    if found.Some? && found.value != "" {
      var k := Index(t.table, found.value);
      if workspace.Given? && k < |t.table| {
        UpdateValid(t, k, t.table[k].(workspace := workspace.value));
      }
    } else if reuse && PickReusable(t, ws) < |t.table| {
      BindValid(t, t.table[PickReusable(t, ws)].id, session, Given(ws));
    } else {
      CreateValid(t, "", Session, Some(session), ws);
    }
  }

  lemma PageGoneValid(s: State, serial: nat)
    requires Valid(s)
    ensures Valid(PageDestroyed(s, serial))
  {
    hide Valid, Without;
    var k, g := SerialIndex(s.table, serial), SerialIndex(s.gone, serial);
    if k < |s.table| {
      WithoutValid(s, k, s.gone + [Detached(s.table[k])]);
    } else if g < |s.gone| && Index(s.table, s.gone[g].id) < |s.table| {
      var j := Index(s.table, s.gone[g].id);
      WithoutValid(s, j, s.gone[g := Detached(s.gone[g])] + [s.table[j]]);
    }
  }

  lemma GoneIrrelevant(s: State, gone: seq<Inst>)
    requires Valid(s)
    ensures Valid(s.(gone := gone))
  {
    hide Seated, Consistent;
  }

  lemma CrashValid(s: State, serial: nat)
    requires Valid(s)
    ensures Valid(CrashPage(s, serial))
  {
    hide Valid;
    var k, g := SerialIndex(s.table, serial), SerialIndex(s.gone, serial);
    if k < |s.table| {
      UpdateValid(s, k, Detached(s.table[k]));
    } else if g < |s.gone| {
      GoneIrrelevant(s, s.gone[g := Detached(s.gone[g])]);
    }
  }

  lemma OneTabValid(s: State, op: Op)
    requires Valid(s)
    requires op.PageLost? || op.Unbind? || op.Control? || op.Destroy? || op.OpenTab?
    ensures Valid(Apply(s, op))
  {
    hide Valid, CreateTab, Without;
    match op
    case PageLost(serial) =>
      var k := SerialIndex(s.table, serial);
      if k < |s.table| { UpdateValid(s, k, s.table[k].(dead := true)); }
    case Unbind(id) =>
      var k := Index(s.table, id);
      if k < |s.table| { UpdateValid(s, k, s.table[k].(bound := None, owner := Manual)); }
    case Control(session, workspace) =>
      var k := BoundIndex(s.table, session);
      if k < |s.table| && workspace.Given? { UpdateValid(s, k, s.table[k].(workspace := workspace.value)); }
    case Destroy(id) =>
      var k := Index(s.table, id);
      if k < |s.table| { WithoutValid(s, k, s.gone + [Detached(s.table[k])]); }
    case OpenTab(serial) =>
      var origin := TabOf(s, serial);
      if origin.Some? { CreateValid(s, "", origin.value.owner, origin.value.ownerSession, origin.value.workspace); }
  }

  lemma ApplyValid(s: State, op: Op)
    requires Valid(s)
    ensures Valid(Apply(s, op))
  {
    hide Valid, CreateTab, CreateForSession, SetDockState, ReleaseDock, HideTab, PageDestroyed, CrashPage, BindTab, Dropped;
    match op
    case OpenWindow(_) => WindowsValid(s, op);
    case LoseWindow(_) => WindowsValid(s, op);
    case PushDock(dock) => SetDockValid(s, dock);
    case Release(w) => ReleaseValid(s, w);
    case Hide(id) => HideValid(s, id);
    case Create(id, owner, session, workspace) => CreateValid(s, id, owner, session, workspace);
    case PageGone(serial) => PageGoneValid(s, serial);
    case Crash(serial) => CrashValid(s, serial);
    case Bind(id, session, workspace) => BindValid(s, id, session, workspace);
    case UnbindSession(session) => UnbindAllValid(s, session);
    case Obtain(session, reuse, workspace) => ObtainValid(s, session, reuse, workspace);
    case DestroySession(session) => DroppedValid(s, BoundBy(session));
    case List => DroppedValid(s, Dead());
    case _ => OneTabValid(s, op);
  }

  lemma {:induction false} RunValid(ops: seq<Op>)
    ensures Valid(Run(INITIAL, ops))
  {
    hide Apply;
    if ops != [] {
      RunValid(Init(ops));
      ApplyValid(Run(INITIAL, Init(ops)), Last(ops));
    }
  }

  // ---------------------------------------------------------------- main results

  /**
   * Over every run: a tab in a live window is the active tab of that window's paintable dock, no other tab is in that
   * window, and a tab counts as visible exactly when it is in a window.
   */
  lemma TabsAreDocked(ops: seq<Op>, x: Inst, y: Inst)
    requires x in Run(INITIAL, ops).table && y in Run(INITIAL, ops).table
    ensures var s := Run(INITIAL, ops);
            && (x.visible <==> x.host.Some?)
            && (x.host.Some? && x.host.value in s.live ==>
                  && DockIndex(s.docks, x.host.value) < |s.docks|
                  && var dock := s.docks[DockIndex(s.docks, x.host.value)];
                  && dock.active == Some(x.id) && Paintable(dock, s.live)
                  && (y.host == x.host ==> y == x))
  {
    hide Run, Paintable;
    RunValid(ops);
    DockedOne(Run(INITIAL, ops), x);
    DockedOne(Run(INITIAL, ops), y);
    SameId(Run(INITIAL, ops).table, x, y);
  }

  lemma SameId(table: seq<Inst>, x: Inst, y: Inst)
    requires UniqueIds(table) && x in table && y in table
    ensures x.id == y.id ==> x == y
  {
  }

  lemma DockedOne(s: State, x: Inst)
    requires Valid(s) && x in s.table
    ensures x.visible <==> x.host.Some?
    ensures x.host.Some? && x.host.value in s.live ==>
              && DockIndex(s.docks, x.host.value) < |s.docks|
              && s.docks[DockIndex(s.docks, x.host.value)].active == Some(x.id)
              && Paintable(s.docks[DockIndex(s.docks, x.host.value)], s.live)
  {
    hide Paintable;
    assert Seated(s.docks, s.live, x) && Consistent(x);
    if x.host.Some? && x.host.value in s.live {
      var d :| 0 <= d < |s.docks| && s.docks[d].window == x.host.value
               && s.docks[d].active == Some(x.id) && Paintable(s.docks[d], s.live);
      var e := DockIndex(s.docks, x.host.value);
      assert d == e;
    }
  }

  /** Right after a push to a live window, the tab shown there is exactly the active one, if the dock is paintable and its page is alive. */
  lemma PushShowsActive(s: State, dock: Dock, k: nat)
    requires dock.window in s.live && k < |s.table| && !s.table[k].dead
    ensures var y := SetDockState(s, dock).table[k];
            y.host == Some(dock.window) <==> Paintable(dock, s.live) && dock.active == Some(s.table[k].id)
    ensures SetDockState(s, dock).table[k].visible || !(Paintable(dock, s.live) && dock.active == Some(s.table[k].id))
  {
  }

  /** Pushing the same dock twice is pushing it once. */
  lemma PushIsIdempotent(s: State, dock: Dock)
    requires UniqueDocks(s.docks)
    ensures SetDockState(SetDockState(s, dock), dock) == SetDockState(s, dock)
  {
    var t := SetDockState(s, dock);
    if dock.window !in s.live {
      DropDockIs(s.docks, dock.window);
      forall i | 0 <= i < |t.docks| ensures t.docks[i].window != dock.window {
        assert t.docks[i] in t.docks;
      }
    } else {
      PutTwice(s.docks, dock);
      assert ReconcileAll(t.table, dock, s.live) == t.table;
    }
  }

  lemma PutTwice(docks: seq<Dock>, dock: Dock)
    ensures PutDock(PutDock(docks, dock), dock) == PutDock(docks, dock)
  {
    var t := PutDock(docks, dock);
    var k, j := DockIndex(docks, dock.window), DockIndex(t, dock.window);
    assert t[k] == dock;
    assert forall i :: 0 <= i < k ==> t[i] == docks[i];
    assert j == k;
  }

  // ---------------------------------------------------------------- views left behind

  /** No tab outside the table is still attached to a window. */
  ghost predicate NoneLeftBehind(s: State) {
    forall x :: x in s.gone ==> x.host.None?
  }

  /** The event of an old page while a newer tab of the same id is attached. */
  predicate LateEvent(s: State, op: Op) {
    op.PageGone? &&
    var k, g := SerialIndex(s.table, op.serial), SerialIndex(s.gone, op.serial);
    k == |s.table| && g < |s.gone| &&
    var j := Index(s.table, s.gone[g].id);
    j < |s.table| && s.table[j].host.Some?
  }

  lemma DetachAllIs(xs: seq<Inst>)
    ensures forall x :: x in DetachAll(xs) ==> x.host.None?
  {
  }

  lemma ObtainLeaves(s: State, session: string, reuse: bool, workspace: Given)
    requires NoneLeftBehind(s)
    ensures NoneLeftBehind(CreateForSession(s, session, reuse, workspace).0)
  {
    hide Select, OwnedBy, PickReusable, BoundTo;
    var front := s.table[..OwnedIndex(s.table, session)];
    DetachAllIs(Select(front, Owned(session), true));
  }

  /** A step leaves a view attached that the manager has forgotten exactly when it is such a late event. */
  lemma LateEventsLeaveViews(s: State, op: Op)
    requires NoneLeftBehind(s)
    ensures NoneLeftBehind(Apply(s, op)) <==> !LateEvent(s, op)
  {
    hide Select, PutDock, DropDock, Searched, CreateForSession;
    match op
    case PageGone(serial) => LateEventLeaves(s, serial);
    case DestroySession(session) => DetachAllIs(Select(s.table, BoundBy(session), true));
    case List => DetachAllIs(Select(s.table, Dead(), true));
    case Obtain(session, reuse, workspace) => ObtainLeaves(s, session, reuse, workspace);
    case _ =>
  }

  lemma LateEventLeaves(s: State, serial: nat)
    requires NoneLeftBehind(s)
    ensures NoneLeftBehind(PageDestroyed(s, serial)) <==> !LateEvent(s, PageGone(serial))
  {
    var k, g := SerialIndex(s.table, serial), SerialIndex(s.gone, serial);
    var t := PageDestroyed(s, serial);
    if k == |s.table| && g < |s.gone| && Index(s.table, s.gone[g].id) < |s.table| {
      assert t.gone[|s.gone|] == s.table[Index(s.table, s.gone[g].id)];
      assert t.gone[|s.gone|] in t.gone;
    }
  }

  /**
   * Such events happen: a tab is destroyed, another of the same id is created and shown, and only then the first
   * one's page reports its end. The shown tab leaves the table while its view stays attached.
   */
  lemma ViewLeftBehind(id: string, dock: Dock)
    requires id != "" && dock.active == Some(id) && Paintable(dock, {dock.window})
    ensures var create := Create(id, Manual, None, None);
      var s := Run(INITIAL, [create, Destroy(id), create, OpenWindow(dock.window), PushDock(dock), PageGone(0)]);
      && s.table == [] && |s.gone| == 2
      && s.gone[1].id == id && s.gone[1].serial == 1 && s.gone[1].host == Some(dock.window)
  {
    hide Paintable;
    var create := Create(id, Manual, None, None);
    var ops := [create, Destroy(id), create, OpenWindow(dock.window), PushDock(dock), PageGone(0)];
    var shown := Twice(id, dock);
    var s5 := Run(INITIAL, ops[..5]);
    assert Init(ops) == ops[..5];
    assert ops[..5] == [create, Destroy(id), create, OpenWindow(dock.window), PushDock(dock)];
    assert s5.table == [shown] && |s5.gone| == 1 && s5.gone[0].id == id && s5.gone[0].serial == 0;
  }

  lemma Twice(id: string, dock: Dock) returns (shown: Inst)
    requires id != "" && dock.active == Some(id) && Paintable(dock, {dock.window})
    ensures var create := Create(id, Manual, None, None);
      var s := Run(INITIAL, [create, Destroy(id), create, OpenWindow(dock.window), PushDock(dock)]);
      && s.table == [shown] && |s.gone| == 1 && s.gone[0].id == id && s.gone[0].serial == 0
    ensures shown.id == id && shown.serial == 1 && shown.host == Some(dock.window)
  {
    hide Paintable;
    var create := Create(id, Manual, None, None);
    var ops := [create, Destroy(id), create, OpenWindow(dock.window), PushDock(dock)];
    var x, y := Inst(0, id, None, false, false, None, Manual, None, None), Inst(1, id, None, false, false, None, Manual, None, None);
    var s1 := State([x], [], [], {}, {}, 0, 1);
    var s2 := State([], [x], [], {}, {}, 0, 1);
    var s3 := State([y], [x], [], {}, {}, 0, 2);
    var s4 := State([y], [x], [], {dock.window}, {dock.window}, 0, 2);
    assert ops[..0] == [] && Init(ops[..1]) == ops[..0] && Init(ops[..2]) == ops[..1] && Init(ops[..3]) == ops[..2];
    assert Init(ops[..4]) == ops[..3] && Init(ops) == ops[..4];
    assert Run(INITIAL, ops[..1]) == s1;
    assert Run(INITIAL, ops[..2]) == s2;
    assert Run(INITIAL, ops[..3]) == s3;
    assert Run(INITIAL, ops[..4]) == s4;
    shown := Reconciled(y, dock, {dock.window});
    assert ReconcileAll([y], dock, {dock.window}) == [shown];
    ShownNow(y, dock);
  }

  lemma ShownNow(y: Inst, dock: Dock)
    requires dock.active == Some(y.id) && Paintable(dock, {dock.window}) && !y.dead
    ensures Reconciled(y, dock, {dock.window}) == y.(host := Some(dock.window), visible := true)
  {
  }

  ghost predicate NeverLate(ops: seq<Op>) {
    ops == [] || (NeverLate(Init(ops)) && !LateEvent(Run(INITIAL, Init(ops)), Last(ops)))
  }

  /** Over every run without such events, a view is attached only while its tab is in the table. */
  lemma {:induction false} NoViewIsForgotten(ops: seq<Op>)
    requires NeverLate(ops)
    ensures NoneLeftBehind(Run(INITIAL, ops))
  {
    hide Apply, LateEvent;
    if ops != [] {
      NoViewIsForgotten(Init(ops));
      LateEventsLeaveViews(Run(INITIAL, Init(ops)), Last(ops));
    }
  }
}
