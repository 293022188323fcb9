/** Which sessions own which tabs: coupling, reuse, repeated requests and what a remote session can touch. */
module BrowserOwnership {
  import opened Options
  import opened Text
  import opened BrowserPane
  import opened BrowserDocks
  import Json

  // ---------------------------------------------------------------- coupling

  /** A session's tab is bound to its owner; a manual tab is bound to nobody. */
  predicate Coupled(x: Inst) {
    if x.owner == Session then x.bound == x.ownerSession else x.bound.None?
  }

  /** The ownership of every tab is coupled, its id is not empty and its serial has been given out. */
  ghost predicate Settled(s: State) {
    && (forall x :: x in s.table ==> Coupled(x) && x.id != "" && x.serial < s.next)
    && UniqueIds(s.table)
  }

  /** Every tab of the new table has the ownership, id and serial of an old one, or is sound by itself. */
  ghost predicate Sound(s: State, t: State) {
    && s.next <= t.next && UniqueIds(t.table)
    && forall y :: y in t.table ==>
         (Coupled(y) && y.id != "" && y.serial < t.next) ||
         exists x :: x in s.table && x.id == y.id && x.serial == y.serial && Ownership(x) == Ownership(y)
  }

  /** The fields that say whose tab it is. */
  function Ownership(x: Inst): (Option<string>, Owner, Option<string>) {
    (x.bound, x.owner, x.ownerSession)
  }

  lemma SoundSettled(s: State, t: State)
    requires Settled(s) && Sound(s, t)
    ensures Settled(t)
  {
    forall y | y in t.table ensures Coupled(y) && y.id != "" && y.serial < t.next {
      if x :| x in s.table && x.id == y.id && x.serial == y.serial && Ownership(x) == Ownership(y) {
        assert Coupled(x);
      }
    }
  }

  lemma UpdateSound(s: State, k: nat, y: Inst, docks: seq<Dock>)
    requires Settled(s) && k < |s.table| && y.id == s.table[k].id && y.serial == s.table[k].serial
    requires Coupled(y) || Ownership(y) == Ownership(s.table[k])
    ensures Sound(s, s.(docks := docks, table := s.table[k := y]))
  {
    assert s.table[k] in s.table;
  }

  lemma SubsetSound(s: State, t: State)
    requires Settled(s) && s.next <= t.next && UniqueIds(t.table) && forall y :: y in t.table ==> y in s.table
    ensures Sound(s, t)
  {
  }

  lemma ReconciledKeeps(x: Inst, dock: Dock, live: set<nat>)
    ensures var y := Reconciled(x, dock, live);
            y.id == x.id && y.serial == x.serial && Ownership(y) == Ownership(x)
  {
  }

  lemma PushSound(s: State, dock: Dock)
    requires Settled(s)
    ensures Sound(s, SetDockState(s, dock))
  {
    hide PutDock, DropDock, Reconciled, Coupled, WasThere, Paintable;
    var t := SetDockState(s, dock);
    forall y | y in t.table ensures WasThere(s.table, y) {
      var k :| 0 <= k < |t.table| && t.table[k] == y;
      if dock.window in s.live {
        ReconciledKeeps(s.table[k], dock, s.live);
      }
      WasAt(s.table, k, y);
    }
    assert UniqueIds(t.table) by {
      if dock.window in s.live {
        ReconciledIds(s.table, dock, s.live);
      }
    }
    AllWereThere(s, t);
  }

  lemma ReconciledIds(table: seq<Inst>, dock: Dock, live: set<nat>)
    requires UniqueIds(table)
    ensures UniqueIds(ReconcileAll(table, dock, live))
  {
    hide Reconciled;
    forall k | 0 <= k < |table| ensures ReconcileAll(table, dock, live)[k].id == table[k].id {
      ReconciledKeeps(table[k], dock, live);
    }
  }

  /** A tab that was in the table under the same id and serial, and belonged to the same session. */
  ghost predicate WasThere(table: seq<Inst>, y: Inst) {
    exists x :: x in table && x.id == y.id && x.serial == y.serial && Ownership(x) == Ownership(y)
  }

  lemma ReleaseSound(s: State, window: nat)
    requires Settled(s)
    ensures Sound(s, ReleaseDock(s, window))
  {
    hide DropDock, Coupled, WasThere, DockIndex;
    var t := ReleaseDock(s, window);
    forall y | y in t.table ensures WasThere(s.table, y) {
      var k :| 0 <= k < |t.table| && t.table[k] == y;
      WasAt(s.table, k, y);
    }
    AllWereThere(s, t);
  }

  lemma WasAt(table: seq<Inst>, k: nat, y: Inst)
    requires k < |table| && table[k].id == y.id && table[k].serial == y.serial && Ownership(table[k]) == Ownership(y)
    ensures WasThere(table, y)
  {
    assert table[k] in table;
  }

  lemma AllWereThere(s: State, t: State)
    requires s.next <= t.next && UniqueIds(t.table) && forall y :: y in t.table ==> WasThere(s.table, y)
    ensures Sound(s, t)
  {
    hide Coupled, UniqueIds, Ownership;
  }

  lemma UnbindAllSound(s: State, session: string)
    requires Settled(s)
    ensures Sound(s, s.(table := UnbindAll(s.table, session)))
  {
    var t := UnbindAll(s.table, session);
    forall y | y in t ensures Coupled(y) && y.id != "" && y.serial < s.next {
      var k :| 0 <= k < |t| && t[k] == y;
      assert s.table[k] in s.table;
    }
  }

  lemma GeneratedNotEmpty(n: nat)
    ensures GeneratedId(n) != ""
  {
  }

  lemma CreateSound(s: State, id: string, owner: Owner, session: Option<string>, workspace: Option<string>)
    requires Settled(s)
    ensures Sound(s, CreateTab(s, id, owner, session, workspace).0)
  {
    hide GeneratedId;
    GeneratedNotEmpty(s.counter + 1);
    var t := CreateTab(s, id, owner, session, workspace).0;
    if |t.table| > |s.table| {
      PushKeeps(s.table, Last(t.table));
    }
  }

  lemma SearchedSubset(s: State, session: string)
    ensures forall y :: y in Searched(s, session).table ==> y in s.table
    ensures UniqueIds(s.table) ==> UniqueIds(Searched(s, session).table)
  {
    SearchedKeeps(s.table, OwnedIndex(s.table, session), Owned(session));
    SelectMembers(s.table[..OwnedIndex(s.table, session)], Owned(session), false);
  }

  lemma SearchedSettled(s: State, session: string)
    requires Settled(s)
    ensures Settled(Searched(s, session))
  {
    hide Searched, Coupled;
    SearchedSubset(s, session);
    SearchedNext(s, session);
  }

  lemma SearchedNext(s: State, session: string)
    ensures var t := Searched(s, session);
            t.next == s.next && t.counter == s.counter && t.docks == s.docks && t.live == s.live
  {
  }

  lemma BindSettled(s: State, id: string, session: string, workspace: Given)
    requires Settled(s)
    ensures Settled(BindTab(s, id, session, workspace))
  {
    hide Settled;
    var k := Index(s.table, id);
    if k < |s.table| {
      UpdateSound(s, k, BoundTo(s.table[k], session, workspace), s.docks);
      SoundSettled(s, BindTab(s, id, session, workspace));
    }
  }

  lemma ObtainSettled(s: State, session: string, reuse: bool, workspace: Given)
    requires Settled(s)
    ensures Settled(CreateForSession(s, session, reuse, workspace).0)
  {
    hide Settled, Sound, Searched, BindTab, CreateTab, FoundId, PickReusable;
    var ws := if workspace.Given? then workspace.value else None;
    var found, t := FoundId(s, session), Searched(s, session);
    SearchedSettled(s, session);
    if found.Some? && found.value != "" {
      var k := Index(t.table, found.value);
      if workspace.Given? && k < |t.table| {
        UpdateSound(t, k, t.table[k].(workspace := workspace.value), t.docks);
        SoundSettled(t, t.(table := t.table[k := t.table[k].(workspace := workspace.value)]));
      }
    } else if reuse && PickReusable(t, ws) < |t.table| {
      BindSettled(t, t.table[PickReusable(t, ws)].id, session, Given(ws));
    } else {
      CreateSound(t, "", Session, Some(session), ws);
      SoundSettled(t, CreateTab(t, "", Session, Some(session), ws).0);
    }
  }

  lemma WithoutSound(s: State, k: nat, gone: seq<Inst>)
    requires Settled(s) && k < |s.table|
    ensures Sound(s, s.(table := Without(s.table, k), gone := gone))
  {
    hide Without, Coupled;
    WithoutKeeps(s.table, k);
    SubsetSound(s, s.(table := Without(s.table, k), gone := gone));
  }

  lemma DroppedSound(s: State, drop: Inst -> bool)
    requires Settled(s)
    ensures Sound(s, Dropped(s, drop))
  {
    hide Coupled, DetachAll;
    SelectKeeps(s.table, drop, false);
    SelectMembers(s.table, drop, false);
    SubsetSound(s, Dropped(s, drop));
  }

  lemma SameSound(s: State)
    requires Settled(s)
    ensures Sound(s, s)
  {
    hide Coupled;
    SubsetSound(s, s);
  }

  lemma RemovalSound(s: State, op: Op)
    requires Settled(s) && (op.Destroy? || op.PageGone? || op.DestroySession? || op.List?)
    ensures Sound(s, Apply(s, op))
  {
    hide Settled, Sound, Without, Dropped;
    SameSound(s);
    match op
    case Destroy(id) =>
      var k := Index(s.table, id);
      if k < |s.table| { WithoutSound(s, k, s.gone + [Detached(s.table[k])]); }
    case PageGone(serial) =>
      var k, g := SerialIndex(s.table, serial), SerialIndex(s.gone, serial);
      if k < |s.table| { WithoutSound(s, k, s.gone + [Detached(s.table[k])]); }
      else if g < |s.gone| {
        var j := Index(s.table, s.gone[g].id);
        if j < |s.table| { WithoutSound(s, j, s.gone[g := Detached(s.gone[g])] + [s.table[j]]); }
      }
    case DestroySession(session) => DroppedSound(s, BoundBy(session));
    case List => DroppedSound(s, Dead());
  }

  /** Tab `k` may change anything but whose it is. */
  lemma TouchedSound(s: State, k: nat, y: Inst)
    requires Settled(s) && k < |s.table| && y.id == s.table[k].id && y.serial == s.table[k].serial
    requires Ownership(y) == Ownership(s.table[k])
    ensures Sound(s, s.(table := s.table[k := y]))
  {
    hide Settled, Sound;
    UpdateSound(s, k, y, s.docks);
  }

  lemma CrashSound(s: State, serial: nat)
    requires Settled(s)
    ensures Sound(s, CrashPage(s, serial))
  {
    hide Settled, Sound;
    var k, g := SerialIndex(s.table, serial), SerialIndex(s.gone, serial);
    if k < |s.table| {
      TouchedSound(s, k, Detached(s.table[k]));
    } else if g < |s.gone| {
      GoneSound(s, s.gone[g := Detached(s.gone[g])]);
    } else {
      SameSound(s);
    }
  }

  lemma GoneSound(s: State, gone: seq<Inst>)
    requires Settled(s)
    ensures Sound(s, s.(gone := gone))
  {
    hide Coupled;
    SubsetSound(s, s.(gone := gone));
  }

  lemma UnbindSound(s: State, k: nat)
    requires Settled(s) && k < |s.table|
    ensures Sound(s, s.(table := s.table[k := s.table[k].(bound := None, owner := Manual)]))
  {
    hide Settled, Sound;
    UpdateSound(s, k, s.table[k].(bound := None, owner := Manual), s.docks);
  }

  lemma OneTabSound(s: State, op: Op)
    requires Settled(s) && (op.Hide? || op.PageLost? || op.Crash? || op.Unbind? || op.Control?)
    ensures Sound(s, Apply(s, op))
  {
    hide ActiveDockIndex, Settled, Sound, CrashPage;
    SameSound(s);
    match op
    case Hide(id) =>
      var k := Index(s.table, id);
      if k < |s.table| { UpdateSound(s, k, Detached(s.table[k]), Apply(s, op).docks); }
    case PageLost(serial) =>
      var k := SerialIndex(s.table, serial);
      if k < |s.table| { TouchedSound(s, k, s.table[k].(dead := true)); }
    case Crash(serial) => CrashSound(s, serial);
    case Unbind(id) =>
      var k := Index(s.table, id);
      if k < |s.table| { UnbindSound(s, k); }
    case Control(session, workspace) =>
      var k := BoundIndex(s.table, session);
      if k < |s.table| && workspace.Given? { TouchedSound(s, k, s.table[k].(workspace := workspace.value)); }
  }

  lemma ApplySettled(s: State, op: Op)
    requires Settled(s)
    ensures Settled(Apply(s, op))
  {
    hide Settled, Sound, CreateTab, CreateForSession, SetDockState, ReleaseDock;
    match op
    case Bind(id, session, workspace) => BindSettled(s, id, session, workspace);
    case Obtain(session, reuse, workspace) => ObtainSettled(s, session, reuse, workspace);
    case PushDock(dock) => PushSound(s, dock); SoundSettled(s, Apply(s, op));
    case Release(w) => ReleaseSound(s, w); SoundSettled(s, Apply(s, op));
    case UnbindSession(session) => UnbindAllSound(s, session); SoundSettled(s, Apply(s, op));
    case Create(id, owner, session, workspace) =>
      CreateSound(s, id, owner, session, workspace);
      SoundSettled(s, Apply(s, op));
    case OpenTab(serial) =>
      var origin := TabOf(s, serial);
      if origin.Some? {
        CreateSound(s, "", origin.value.owner, origin.value.ownerSession, origin.value.workspace);
        SoundSettled(s, Apply(s, op));
      }
    case OpenWindow(_) => SameSettled(s, Apply(s, op));
    case LoseWindow(_) => SameSettled(s, Apply(s, op));
    case _ =>
      if op.Hide? || op.PageLost? || op.Crash? || op.Unbind? || op.Control? { OneTabSound(s, op); } else { RemovalSound(s, op); }
      SoundSettled(s, Apply(s, op));
  }

  lemma SameSettled(s: State, t: State)
    requires Settled(s) && t.table == s.table && t.next == s.next
    ensures Settled(t)
  {
  }

  lemma {:induction false} RunSettled(ops: seq<Op>)
    ensures Settled(Run(INITIAL, ops))
  {
    hide Apply;
    if ops != [] {
      RunSettled(Init(ops));
      ApplySettled(Run(INITIAL, Init(ops)), Last(ops));
    }
  }

  /** Over every run: a session-owned tab is bound to the session that owns it, a manual tab to none. */
  lemma OwnershipIsCoupled(ops: seq<Op>, x: Inst)
    requires x in Run(INITIAL, ops).table
    ensures x.owner == Session ==> x.bound == x.ownerSession
    ensures x.owner == Manual ==> x.bound.None?
  {
    hide Run, UniqueIds;
    RunSettled(ops);
    assert Coupled(x);
  }

  // ---------------------------------------------------------------- asking again

  /** Whether asking for a session's tab gives a tab that the session then has. */
  predicate GivesOwnTab(s: State, session: string, reuse: bool, workspace: Given) {
    var ws := if workspace.Given? then workspace.value else None;
    var t := Searched(s, session);
    if FoundId(s, session).Some? then true
    else if reuse && PickReusable(t, ws) < |t.table| then !t.table[PickReusable(t, ws)].dead
    else Index(t.table, GeneratedId(t.counter + 1)) == |t.table|
  }

  /** Only tab `k` belongs to the session, and its page is alive. */
  ghost predicate OnlyOwn(table: seq<Inst>, session: string, k: nat) {
    && k < |table| && OwnedBy(table[k], session) && !table[k].dead
    && forall j :: 0 <= j < k ==> !OwnedBy(table[j], session)
  }

  lemma FirstOwn(table: seq<Inst>, session: string, k: nat)
    requires OnlyOwn(table, session, k)
    ensures OwnedIndex(table, session) == k
  {
  }

  lemma {:induction false} SelectNone(table: seq<Inst>, p: Inst -> bool)
    requires forall k :: 0 <= k < |table| ==> !p(table[k])
    ensures Select(table, p, false) == table && Select(table, p, true) == []
  {
    if table != [] {
      SelectNone(Init(table), p);
      assert Init(table) + [Last(table)] == table;
    }
  }

  /** With nothing of the session's in front of its tab, the search takes nothing out. */
  lemma SearchIsIdle(s: State, session: string, k: nat)
    requires OnlyOwn(s.table, session, k)
    ensures Searched(s, session).table == s.table && FoundId(s, session) == Some(s.table[k].id)
  {
    hide OwnedIndex, Select;
    FirstOwn(s.table, session, k);
    assert forall j :: 0 <= j < k ==> s.table[..k][j] == s.table[j];
    SelectNone(s.table[..k], Owned(session));
    assert s.table[..k] + s.table[k..] == s.table;
  }

  /** A search that finds a tab leaves it first of the session's; one that finds none leaves no tab of the session. */
  lemma SearchLeaves(s: State, session: string)
    ensures var t := Searched(s, session);
            && (FoundId(s, session).None? ==> forall x :: x in t.table ==> !OwnedBy(x, session))
            && (FoundId(s, session).Some? ==>
                  exists k: nat :: OnlyOwn(t.table, session, k) && t.table[k].id == FoundId(s, session).value)
  {
    var k, t := OwnedIndex(s.table, session), Searched(s, session);
    var front := Select(s.table[..k], Owned(session), false);
    SelectMembers(s.table[..k], Owned(session), false);
    if k < |s.table| {
      var i := |front|;
      assert t.table[i] == s.table[k];
      forall j | 0 <= j < i ensures !OwnedBy(t.table[j], session) {
        assert t.table[j] == front[j] && front[j] in front;
      }
      assert OnlyOwn(t.table, session, i);
    } else {
      assert s.table[k..] == [];
    }
  }

  /** Asking again when the session has tab `k` gives that tab, and changes no other. */
  lemma AskAgain(s: State, session: string, reuse: bool, workspace: Given, k: nat)
    requires UniqueIds(s.table) && OnlyOwn(s.table, session, k) && s.table[k].id != ""
    ensures var (t, id) := CreateForSession(s, session, reuse, workspace);
            && id == s.table[k].id
            && t.table == s.table[k := s.table[k].(
                 workspace := if workspace.Given? then workspace.value else s.table[k].workspace)]
  {
    hide Searched, FoundId;
    SearchIsIdle(s, session, k);
    assert Index(s.table, s.table[k].id) == k;
  }

  lemma UniqueIndex(table: seq<Inst>, k: nat)
    requires UniqueIds(table) && k < |table|
    ensures Index(table, table[k].id) == k
  {
  }

  lemma UpdateOwn(table: seq<Inst>, session: string, k: nat, y: Inst)
    requires k < |table| && UniqueIds(table) && y.id == table[k].id
    requires OwnedBy(y, session) && !y.dead
    requires forall j :: 0 <= j < k ==> !OwnedBy(table[j], session)
    ensures OnlyOwn(table[k := y], session, k) && UniqueIds(table[k := y])
  {
  }

  /** A request that gives the session a tab of its own gives that same tab again, and then changes nothing. */
  lemma SecondRequestSame(s: State, session: string, reuse: bool, workspace: Given)
    requires Settled(s) && GivesOwnTab(s, session, reuse, workspace)
    ensures var (t, id) := CreateForSession(s, session, reuse, workspace);
            var (u, again) := CreateForSession(t, session, reuse, workspace);
            again == id && u.table == t.table && FoundId(t, session) == Some(id)
  {
    hide Settled, Searched, FoundId, PickReusable, CreateTab, BindTab, GeneratedId;
    var ws := if workspace.Given? then workspace.value else None;
    var s1 := Searched(s, session);
    SearchedSettled(s, session);
    SearchLeaves(s, session);
    SettledMeans(s1);
    var t := CreateForSession(s, session, reuse, workspace).0;
    if FoundId(s, session).Some? {
      var k: nat :| OnlyOwn(s1.table, session, k) && s1.table[k].id == FoundId(s, session).value;
      assert s1.table[k] in s1.table;
      UniqueIndex(s1.table, k);
      if workspace.Given? {
        UpdateOwn(s1.table, session, k, s1.table[k].(workspace := workspace.value));
      }
      SearchIsIdle(t, session, k);
      AskAgain(t, session, reuse, workspace, k);
    } else if reuse && PickReusable(s1, ws) < |s1.table| {
      var k := PickReusable(s1, ws);
      AdoptedIs(s1, k, session, ws);
      SearchIsIdle(t, session, k);
      AskAgain(t, session, reuse, workspace, k);
    } else {
      CreatedIs(s1, session, ws);
      SearchIsIdle(t, session, |s1.table|);
      AskAgain(t, session, reuse, workspace, |s1.table|);
    }
  }

  lemma SettledMeans(s: State)
    requires Settled(s)
    ensures UniqueIds(s.table) && forall x :: x in s.table ==> x.id != ""
  {
  }

  lemma AdoptedIs(s: State, k: nat, session: string, ws: Option<string>)
    requires UniqueIds(s.table) && k < |s.table| && !s.table[k].dead && s.table[k].id != ""
    requires forall x :: x in s.table ==> !OwnedBy(x, session)
    ensures var t := BindTab(s, s.table[k].id, session, Given(ws));
            && t.table == s.table[k := BoundTo(s.table[k], session, Given(ws))]
            && OnlyOwn(t.table, session, k) && UniqueIds(t.table)
            && t.table[k].id == s.table[k].id && t.table[k].workspace == ws
  {
    UniqueIndex(s.table, k);
    forall j | 0 <= j < k ensures !OwnedBy(s.table[j], session) {
      assert s.table[j] in s.table;
    }
  }

  lemma CreatedIs(s: State, session: string, ws: Option<string>)
    requires UniqueIds(s.table) && Index(s.table, GeneratedId(s.counter + 1)) == |s.table|
    requires forall x :: x in s.table ==> !OwnedBy(x, session)
    ensures var (t, id) := CreateTab(s, "", Session, Some(session), ws);
            && id == GeneratedId(s.counter + 1) && id != ""
            && |t.table| == |s.table| + 1 && t.table[..|s.table|] == s.table
            && t.table[|s.table|].id == id && t.table[|s.table|].workspace == ws
            && OnlyOwn(t.table, session, |s.table|) && UniqueIds(t.table)
  {
    hide GeneratedId;
    GeneratedNotEmpty(s.counter + 1);
    forall j | 0 <= j < |s.table| ensures !OwnedBy(s.table[j], session) {
      assert s.table[j] in s.table;
    }
  }

  /** Otherwise the session has no live tab after the request, so the tab it was given is not its own or is already closed. */
  lemma OtherwiseNotOwn(s: State, session: string, reuse: bool, workspace: Given)
    requires Settled(s) && !GivesOwnTab(s, session, reuse, workspace)
    ensures FoundId(CreateForSession(s, session, reuse, workspace).0, session).None?
  {
    hide Settled, Searched, PickReusable, GeneratedId;
    var ws := if workspace.Given? then workspace.value else None;
    var s1 := Searched(s, session);
    SearchedSettled(s, session);
    SearchLeaves(s, session);
    SettledMeans(s1);
    var t := CreateForSession(s, session, reuse, workspace).0;
    if reuse && PickReusable(s1, ws) < |s1.table| {
      UniqueIndex(s1.table, PickReusable(s1, ws));
    }
    forall j | 0 <= j < |t.table| ensures !OwnedBy(t.table[j], session) || t.table[j].dead {
      assert s1.table[j] in s1.table;
    }
  }

  /**
   * After a request the session owns the tab it was given, so that asking again gives the same one, exactly when it
   * already had one, or the tab it took over was still open, or the generated id was not in use.
   */
  lemma RequestsAreStable(s: State, session: string, reuse: bool, workspace: Given)
    requires Settled(s)
    ensures var (t, id) := CreateForSession(s, session, reuse, workspace);
            FoundId(t, session) == Some(id) <==> GivesOwnTab(s, session, reuse, workspace)
  {
    hide Settled, GivesOwnTab, FoundId;
    if GivesOwnTab(s, session, reuse, workspace) {
      SecondRequestSame(s, session, reuse, workspace);
    } else {
      OtherwiseNotOwn(s, session, reuse, workspace);
    }
  }

  /** One manual tab with this id and page, as the first tab of all. */
  function FirstTab(id: string, dead: bool): State {
    INITIAL.(table := [Inst(0, id, None, false, dead, None, Manual, None, None)], next := 1)
  }

  lemma SearchFindsNone(s: State, session: string)
    requires |s.table| == 1 && !OwnedBy(s.table[0], session)
    ensures Searched(s, session) == s && FoundId(s, session) == None
  {
    var table := s.table;
    assert table[1..] == [] && Init(table) == [] && table == [Last(table)] && table[..1] == table;
    assert Select(table, Owned(session), true) == [] && Select(table, Owned(session), false) == table;
    assert table + [] == table && s.gone + [] == s.gone;
  }

  /** A generated id may be in use: the session is then given a manual tab that is not its own, and asking again gives another. */
  lemma IdInUse(session: string)
    ensures var s := Run(INITIAL, [Create(GeneratedId(1), Manual, None, None)]);
      var (t, id) := CreateForSession(s, session, false, Omitted);
      id == GeneratedId(1) && t.table == s.table && FoundId(t, session) == None
      && CreateForSession(t, session, false, Omitted).1 == GeneratedId(2) && GeneratedId(2) != id
  {
    hide Searched, FoundId, GeneratedId;
    IdsDiffer();
    var ops := [Create(GeneratedId(1), Manual, None, None)];
    assert Init(ops) == [] && Run(INITIAL, []) == INITIAL;
    var s := FirstTab(GeneratedId(1), false);
    assert Run(INITIAL, ops) == s;
    SearchFindsNone(s, session);
    assert Index(s.table, GeneratedId(1)) == 0;
    SearchFindsNone(s.(counter := 1), session);
    assert s.table[1..] == [];
  }

  lemma IdsDiffer()
    ensures GeneratedId(1) != "" && GeneratedId(2) != "" && GeneratedId(1) != GeneratedId(2)
  {
    assert Json.PrintNat(1) == "1" && Json.PrintNat(2) == "2";
    assert GeneratedId(1)[8] == '1' && GeneratedId(2)[8] == '2';
  }

  /** A tab taken over may be closed already: the session has no open tab after the request, and asking again gives another. */
  lemma ClosedTakenOver(session: string, id: string)
    requires id != "" && id != GeneratedId(1)
    ensures var s := Run(INITIAL, [Create(id, Manual, None, None), PageLost(0)]);
      var (t, given) := CreateForSession(s, session, true, Omitted);
      given == id && t.table[0].dead && FoundId(t, session) == None
      && CreateForSession(t, session, true, Omitted).1 == GeneratedId(1) && GeneratedId(1) != given
  {
    hide GeneratedId, Searched, FoundId, PickReusable;
    var ops := [Create(id, Manual, None, None), PageLost(0)];
    var s := FirstTab(id, true);
    assert Init(ops) == [ops[0]] && Init([ops[0]]) == [] && Run(INITIAL, []) == INITIAL;
    assert Run(INITIAL, [ops[0]]) == FirstTab(id, false);
    assert Run(INITIAL, ops) == s;
    SearchFindsNone(s, session);
    OnlyTabPicked(s);
    var t := BindTab(s, id, session, Given(None));
    assert CreateForSession(s, session, true, Omitted) == (t, id);
    DeadTabDropped(t, session);
    NothingPicked(Searched(t, session));
  }

  lemma OnlyTabPicked(s: State)
    requires |s.table| == 1 && Reusable(s.table[0], None)
    ensures PickReusable(s, None) == 0
  {
    assert s.table[1..] == [];
  }

  lemma DeadTabDropped(s: State, session: string)
    requires |s.table| == 1 && OwnedBy(s.table[0], session) && s.table[0].dead
    ensures Searched(s, session).table == [] && FoundId(s, session) == None
    ensures Searched(s, session).counter == s.counter
  {
    var table := s.table;
    assert table[1..] == [] && Init(table) == [] && table == [Last(table)] && table[..1] == table;
    assert Select(table, Owned(session), false) == [];
  }

  lemma NothingPicked(s: State)
    requires s.table == []
    ensures PickReusable(s, None) == 0
  {
  }

  /** A request changes the binding of an existing tab only by taking over an unbound one of the same or of no workspace. */
  lemma AdoptionRespectsWorkspace(s: State, session: string, reuse: bool, workspace: Given, k: nat)
    requires UniqueIds(s.table) && k < |Searched(s, session).table|
    ensures var ws := if workspace.Given? then workspace.value else None;
            var before, t := Searched(s, session).table[k], CreateForSession(s, session, reuse, workspace).0;
            && k < |t.table| && t.table[k].serial == before.serial
            && (Ownership(t.table[k]) != Ownership(before) ==>
                  && reuse && before.bound.None? && before.owner == Manual
                  && (before.workspace.None? || before.workspace == ws)
                  && t.table[k].bound == Some(session) && t.table[k].workspace == ws)
  {
    hide Searched, FoundId;
    SearchedSubset(s, session);
    var s1 := Searched(s, session);
    var ws := if workspace.Given? then workspace.value else None;
    var p := PickReusable(s1, ws);
    if p < |s1.table| {
      UniqueIndex(s1.table, p);
    }
  }

  /** Once its tabs are unbound, or destroyed, a session has no tab; unbinding keeps every tab in the table. */
  lemma SessionLetsGo(s: State, session: string)
    requires Settled(s)
    ensures FoundId(Apply(s, UnbindSession(session)), session).None?
    ensures FoundId(Apply(s, DestroySession(session)), session).None?
    ensures |Apply(s, UnbindSession(session)).table| == |s.table|
  {
    hide Select, DetachAll;
    var unbound := UnbindAll(s.table, session);
    forall k | 0 <= k < |unbound| ensures !OwnedBy(unbound[k], session) {
      assert s.table[k] in s.table && Coupled(s.table[k]);
    }
    SelectMembers(s.table, BoundBy(session), false);
    var left := Select(s.table, BoundBy(session), false);
    forall k | 0 <= k < |left| ensures !OwnedBy(left[k], session) {
      assert left[k] in left && Coupled(left[k]);
    }
  }

  /** A live tab that is bound to a session is the session's from then on, unless an earlier one already is. */
  lemma BindingIsFound(s: State, k: nat, session: string, workspace: Given)
    requires UniqueIds(s.table) && k < |s.table| && !s.table[k].dead
    ensures var t := BindTab(s, s.table[k].id, session, workspace);
            && FoundId(t, session).Some?
            && (OwnedIndex(s.table, session) >= k ==> FoundId(t, session) == Some(s.table[k].id))
  {
    UniqueIndex(s.table, k);
    var t := BindTab(s, s.table[k].id, session, workspace);
    assert OwnedBy(t.table[k], session) && !t.table[k].dead;
    assert forall j :: 0 <= j < k ==> t.table[j] == s.table[j];
  }

  // ---------------------------------------------------------------- remote sessions

  function ToOwnerKey(workspaceId: string, sessionId: string): string {
    "remote:" + workspaceId + ":" + sessionId
  }

  function ColonIndex(s: string): (k: nat)
    ensures k <= |s| && (k < |s| ==> s[k] == ':') && forall j :: 0 <= j < k ==> s[j] != ':'
  {
    if s == "" || s[0] == ':' then 0 else 1 + ColonIndex(s[1..])
  }

  function ParseOwnerKey(value: string): Option<(string, string)> {
    if !StartsWith(value, "remote:") then None
    else
      var rest := value[7..];
      var colon := ColonIndex(rest);
      if colon == |rest| then None else Some((rest[..colon], rest[colon + 1..]))
  }

  lemma KeyParses(workspaceId: string, sessionId: string)
    ensures ParseOwnerKey(ToOwnerKey(workspaceId, sessionId)).Some?
    ensures ParseOwnerKey(ToOwnerKey(workspaceId, sessionId)) == Some((workspaceId, sessionId)) <==> ':' !in workspaceId
  {
    var key := ToOwnerKey(workspaceId, sessionId);
    var rest := workspaceId + ":" + sessionId;
    assert key == "remote:" + rest;
    assert key[7..] == rest && StartsWith(key, "remote:");
    assert rest[|workspaceId|] == ':';
    var colon := ColonIndex(rest);
    if colon == |workspaceId| {
      assert rest[..colon] == workspaceId && rest[colon + 1..] == sessionId;
      assert forall j :: 0 <= j < colon ==> workspaceId[j] == rest[j];
    } else {
      assert workspaceId[colon] == rest[colon] == ':';
      assert |rest[..colon]| < |workspaceId|;
    }
  }

  /** Owner keys of different sessions differ as long as workspace ids have no colon; with one, two sessions can share a key. */
  lemma KeysAreDistinct(w: string, i: string, v: string, j: string)
    ensures ':' !in w && ':' !in v ==> (ToOwnerKey(w, i) == ToOwnerKey(v, j) <==> w == v && i == j)
    ensures ToOwnerKey(w, v + ":" + i) == ToOwnerKey(w + ":" + v, i)
  {
    KeyParses(w, i);
    KeyParses(v, j);
    assert "remote:" + w + ":" + (v + ":" + i) == "remote:" + (w + ":" + v) + ":" + i;
  }

  /**
   * The remote methods. `ClearOverlays` stands for the two that clear a session's overlays, which are no part of this
   * state, and `Query` for those that name a tab and only look at it, drive its page or clear its overlay.
   */
  datatype Request =
    | CreateRemote
    | GetOrCreate
    | FocusBound
    | DestroyForSession
    | UnbindForSession
    | SetAgentControl
    | ListOwned
    | ClearOverlays
    | BindRemote(id: string)
    | HideRemote(id: string)
    | DestroyInstance(id: string)
    | Query(id: string)

  predicate Belongs(x: Inst, key: string) {
    x.bound == Some(key) || x.ownerSession == Some(key)
  }

  predicate RequiresOwned(s: State, id: string, key: string) {
    var k := Index(s.table, id);
    k < |s.table| && !s.table[k].dead && Belongs(s.table[k], key)
  }

  /** The state after a remote request, and whether it was refused. */
  function Dispatch(s: State, workspaceId: string, sessionId: string, req: Request): (State, bool) {
    var key, ws := ToOwnerKey(workspaceId, sessionId), Given(Some(workspaceId));
    match req
    case CreateRemote => (CreateForSession(s, key, false, ws).0, false)
    case GetOrCreate => (CreateForSession(s, key, false, ws).0, false)
    case FocusBound => (CreateForSession(s, key, false, ws).0, false)
    case DestroyForSession => (Apply(s, DestroySession(key)), false)
    case UnbindForSession => (Apply(s, UnbindSession(key)), false)
    case SetAgentControl => (Controlled(s, key, ws), false)
    case ListOwned => (Apply(s, List), false)
    case ClearOverlays => (s, false)
    case BindRemote(id) => if RequiresOwned(s, id, key) then (BindTab(s, id, key, ws), false) else (s, true)
    case HideRemote(id) => if RequiresOwned(s, id, key) then (HideTab(s, id), false) else (s, true)
    case DestroyInstance(id) => if RequiresOwned(s, id, key) then (DestroyTab(s, id), false) else (s, true)
    case Query(id) => (s, !RequiresOwned(s, id, key))
  }

  lemma UpdateFrame(table: seq<Inst>, k: nat, y: Inst, x: Inst)
    requires k < |table| && x in table && x != table[k]
    ensures x in table[k := y]
  {
    var i :| 0 <= i < |table| && table[i] == x;
    assert table[k := y][i] == x;
  }

  lemma SearchedFrame(s: State, session: string, x: Inst)
    requires x in s.table && !OwnedBy(x, session)
    ensures x in Searched(s, session).table
  {
    var k := OwnedIndex(s.table, session);
    SelectMembers(s.table[..k], Owned(session), false);
    assert s.table == s.table[..k] + s.table[k..];
  }

  lemma ObtainFrame(s: State, key: string, workspace: Given, x: Inst)
    requires UniqueIds(s.table) && x in s.table && !Belongs(x, key)
    ensures x in CreateForSession(s, key, false, workspace).0.table
  {
    hide Searched, FoundId, GeneratedId;
    SearchedFrame(s, key, x);
    SearchedSubset(s, key);
    SearchLeaves(s, key);
    var t := Searched(s, key);
    if FoundId(s, key).Some? {
      var k: nat :| OnlyOwn(t.table, key, k) && t.table[k].id == FoundId(s, key).value;
      UniqueIndex(t.table, k);
      if workspace.Given? {
        UpdateFrame(t.table, k, t.table[k].(workspace := workspace.value), x);
      }
    }
  }

  lemma UnbindFrame(table: seq<Inst>, session: string, x: Inst)
    requires x in table && x.bound != Some(session)
    ensures x in UnbindAll(table, session)
  {
    var i :| 0 <= i < |table| && table[i] == x;
    assert UnbindAll(table, session)[i] == x;
  }

  lemma DestroyFrame(table: seq<Inst>, k: nat, x: Inst)
    requires k < |table| && x in table && x != table[k]
    ensures x in Without(table, k)
  {
    var i :| 0 <= i < |table| && table[i] == x;
    assert if i < k then Without(table, k)[i] == x else Without(table, k)[i - 1] == x;
  }

  /** Only the named tab, which belongs to the session, is written or taken out. */
  lemma NamedFrame(s: State, key: string, id: string, x: Inst, y: Inst)
    requires x in s.table && !Belongs(x, key) && RequiresOwned(s, id, key)
    ensures x in s.table[Index(s.table, id) := y]
    ensures x in Without(s.table, Index(s.table, id))
  {
    hide Without, Index;
    UpdateFrame(s.table, Index(s.table, id), y, x);
    DestroyFrame(s.table, Index(s.table, id), x);
  }

  lemma NamedTouches(s: State, workspaceId: string, sessionId: string, req: Request, x: Inst)
    requires x in s.table && !Belongs(x, ToOwnerKey(workspaceId, sessionId))
    requires req.BindRemote? || req.HideRemote? || req.DestroyInstance? || req.Query?
    ensures x in Dispatch(s, workspaceId, sessionId, req).0.table
  {
    hide ToOwnerKey, ActiveDockIndex, Without, Index, BoundTo, Belongs;
    var key, k := ToOwnerKey(workspaceId, sessionId), Index(s.table, req.id);
    if RequiresOwned(s, req.id, key) {
      NamedFrame(s, key, req.id, x, BoundTo(s.table[k], key, Given(Some(workspaceId))));
      NamedFrame(s, key, req.id, x, Detached(s.table[k]));
    }
  }

  lemma ControlFrame(s: State, key: string, workspace: Given, x: Inst)
    requires x in s.table && x.bound != Some(key)
    ensures x in Controlled(s, key, workspace).table
  {
    hide BoundIndex;
    var k := BoundIndex(s.table, key);
    if k < |s.table| && workspace.Given? {
      UpdateFrame(s.table, k, s.table[k].(workspace := workspace.value), x);
    }
  }

  /** A remote request leaves every tab with a live page that does not belong to its session entirely unchanged. */
  lemma RemoteTouchesOnlyItsOwn(s: State, workspaceId: string, sessionId: string, req: Request, x: Inst)
    requires UniqueIds(s.table) && x in s.table && !x.dead
    requires !Belongs(x, ToOwnerKey(workspaceId, sessionId))
    ensures x in Dispatch(s, workspaceId, sessionId, req).0.table
  {
    hide CreateForSession, Select, ToOwnerKey, Controlled, BindTab, HideTab, DestroyTab, UnbindAll;
    var key, ws := ToOwnerKey(workspaceId, sessionId), Given(Some(workspaceId));
    match req
    case DestroyForSession => SelectMembers(s.table, BoundBy(key), false);
    case ListOwned => SelectMembers(s.table, Dead(), false);
    case UnbindForSession => UnbindFrame(s.table, key, x);
    case SetAgentControl => ControlFrame(s, key, ws, x);
    case CreateRemote => ObtainFrame(s, key, ws, x);
    case GetOrCreate => ObtainFrame(s, key, ws, x);
    case FocusBound => ObtainFrame(s, key, ws, x);
    case ClearOverlays =>
    case _ => NamedTouches(s, workspaceId, sessionId, req, x);
  }

  /** A request that names a tab is refused, and changes nothing, exactly when the tab is missing, closed or not the session's; else it is carried out. */
  lemma RefusalIsExact(s: State, workspaceId: string, sessionId: string, req: Request)
    requires UniqueIds(s.table)
    requires req.BindRemote? || req.HideRemote? || req.DestroyInstance? || req.Query?
    ensures var (t, refused) := Dispatch(s, workspaceId, sessionId, req);
            && (refused <==> forall x :: x in s.table && x.id == req.id ==> x.dead || !Belongs(x, ToOwnerKey(workspaceId, sessionId)))
            && (refused ==> t == s)
            && (!refused ==>
                  t == match req
                       case BindRemote(id) => Apply(s, Bind(id, ToOwnerKey(workspaceId, sessionId), Given(Some(workspaceId))))
                       case HideRemote(id) => Apply(s, Hide(id))
                       case DestroyInstance(id) => Apply(s, Destroy(id))
                       case _ => s)
  {
    hide ToOwnerKey, ActiveDockIndex, Without, Belongs;
    var k := Index(s.table, req.id);
    if k < |s.table| {
      assert s.table[k] in s.table;
    }
    forall x | x in s.table && x.id == req.id ensures k < |s.table| && x == s.table[k] {
      var j :| 0 <= j < |s.table| && s.table[j] == x;
      UniqueIndex(s.table, j);
    }
  }

  /** A request that names no tab is never refused; one that asks for a tab may not take over one that is nobody's. */
  lemma OthersAreServed(s: State, workspaceId: string, sessionId: string, req: Request)
    requires !(req.BindRemote? || req.HideRemote? || req.DestroyInstance? || req.Query?)
    ensures var (t, refused) := Dispatch(s, workspaceId, sessionId, req);
            var key, ws := ToOwnerKey(workspaceId, sessionId), Given(Some(workspaceId));
            && !refused
            && t == match req
                    case DestroyForSession => Apply(s, DestroySession(key))
                    case UnbindForSession => Apply(s, UnbindSession(key))
                    case SetAgentControl => Apply(s, Control(key, ws))
                    case ListOwned => Apply(s, List)
                    case ClearOverlays => s
                    case _ => Apply(s, Obtain(key, false, ws))
  {
    hide ToOwnerKey, CreateForSession, Controlled;
  }
}
