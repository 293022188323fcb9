/** Browser tabs, the docks of the windows that show them, and the sessions that own them. */
module BrowserPane {
  import opened Options
  import opened Text
  import Json

  datatype Bounds = Bounds(x: int, y: int, width: int, height: int)

  /** What the renderer of one window last pushed. Windows are named by their id. */
  datatype Dock = Dock(window: nat, bounds: Option<Bounds>, visible: bool, suppressed: bool, active: Option<string>)

  datatype Owner = Session | Manual

  /** One tab. `serial` stands for the identity of the object; `dead` says that its page has been destroyed. */
  datatype Inst = Inst(
    serial: nat, id: string, host: Option<nat>, visible: bool, dead: bool,
    bound: Option<string>, owner: Owner, ownerSession: Option<string>, workspace: Option<string>)

  /** An optional argument that may be left out altogether. */
  datatype Given = Omitted | Given(value: Option<string>)

  /**
   * `table` and `docks` are in order of insertion; `gone` are the tabs no longer in the table. `seen` are all windows
   * there ever were, `live` those not destroyed. `counter` numbers generated ids, `next` is the serial of the next tab.
   */
  datatype State = State(
    table: seq<Inst>, gone: seq<Inst>, docks: seq<Dock>, seen: set<nat>, live: set<nat>, counter: nat, next: nat)

  const INITIAL := State([], [], [], {}, {}, 0, 0)

  // ---------------------------------------------------------------- tables

  /** The position of the tab with this id, or the end of the table. */
  function Index(table: seq<Inst>, id: string): (k: nat)
    ensures k <= |table| && (k < |table| ==> table[k].id == id)
    ensures forall j :: 0 <= j < k ==> table[j].id != id
  {
    if table == [] || table[0].id == id then 0 else 1 + Index(table[1..], id)
  }

  function SerialIndex(table: seq<Inst>, serial: nat): (k: nat)
    ensures k <= |table| && (k < |table| ==> table[k].serial == serial)
    ensures forall j :: 0 <= j < k ==> table[j].serial != serial
  {
    if table == [] || table[0].serial == serial then 0 else 1 + SerialIndex(table[1..], serial)
  }

  function DockIndex(docks: seq<Dock>, window: nat): (k: nat)
    ensures k <= |docks| && (k < |docks| ==> docks[k].window == window)
    ensures forall j :: 0 <= j < k ==> docks[j].window != window
  {
    if docks == [] || docks[0].window == window then 0 else 1 + DockIndex(docks[1..], window)
  }

  /** The first dock whose active tab has this id. */
  function ActiveDockIndex(docks: seq<Dock>, id: string): (k: nat)
    ensures k <= |docks| && (k < |docks| ==> docks[k].active == Some(id))
    ensures forall j :: 0 <= j < k ==> docks[j].active != Some(id)
  {
    if docks == [] || docks[0].active == Some(id) then 0 else 1 + ActiveDockIndex(docks[1..], id)
  }

  function Without(table: seq<Inst>, k: nat): seq<Inst>
    requires k < |table|
  {
    table[..k] + table[k + 1..]
  }

  function PutDock(docks: seq<Dock>, dock: Dock): seq<Dock> {
    var k := DockIndex(docks, dock.window);
    if k < |docks| then docks[k := dock] else docks + [dock]
  }

  function DropDock(docks: seq<Dock>, window: nat): seq<Dock> {
    var k := DockIndex(docks, window);
    if k < |docks| then docks[..k] + docks[k + 1..] else docks
  }

  /** The tabs that satisfy, or do not satisfy, a condition, in order. */
  function Select(table: seq<Inst>, p: Inst -> bool, want: bool): seq<Inst> {
    if table == [] then []
    else Select(Init(table), p, want) + (if p(Last(table)) == want then [Last(table)] else [])
  }

  lemma {:induction false} SelectMembers(table: seq<Inst>, p: Inst -> bool, want: bool)
    ensures forall x :: x in Select(table, p, want) <==> x in table && p(x) == want
  {
    if table != [] {
      SelectMembers(Init(table), p, want);
      assert table == Init(table) + [Last(table)];
    }
  }

  // ---------------------------------------------------------------- docks

  /** A dock can show a tab only when it is mounted, unsuppressed and measured, in a window that exists. */
  predicate Paintable(dock: Dock, live: set<nat>) {
    && dock.visible && !dock.suppressed
    && dock.bounds.Some? && dock.bounds.value.width > 0 && dock.bounds.value.height > 0
    && dock.window in live
  }

  function Detached(x: Inst): Inst {
    x.(host := None, visible := false)
  }

  function Attached(x: Inst, dock: Dock, live: set<nat>): Inst {
    if x.dead || dock.window !in live || dock.bounds.None? then x
    else x.(host := Some(dock.window), visible := true)
  }

  function Reconciled(x: Inst, dock: Dock, live: set<nat>): Inst {
    if Paintable(dock, live) && dock.active == Some(x.id) then Attached(x, dock, live)
    else if x.host == Some(dock.window) then Detached(x)
    else x
  }

  function ReconcileAll(table: seq<Inst>, dock: Dock, live: set<nat>): (r: seq<Inst>)
    ensures |r| == |table| && forall k :: 0 <= k < |r| ==> r[k] == Reconciled(table[k], dock, live)
  {
    seq(|table|, k requires 0 <= k < |table| => Reconciled(table[k], dock, live))
  }

  function Released(x: Inst, window: nat): Inst {
    if x.host == Some(window) then Detached(x) else x
  }

  function ReleaseAll(table: seq<Inst>, window: nat): (r: seq<Inst>)
    ensures |r| == |table| && forall k :: 0 <= k < |r| ==> r[k] == Released(table[k], window)
  {
    seq(|table|, k requires 0 <= k < |table| => Released(table[k], window))
  }

  function SetDockState(s: State, dock: Dock): State {
    if dock.window !in s.live then s.(docks := DropDock(s.docks, dock.window))
    else s.(docks := PutDock(s.docks, dock), table := ReconcileAll(s.table, dock, s.live))
  }

  function ReleaseDock(s: State, window: nat): State {
    if DockIndex(s.docks, window) == |s.docks| then s
    else s.(docks := DropDock(s.docks, window), table := ReleaseAll(s.table, window))
  }

  function HideTab(s: State, id: string): State {
    var k := Index(s.table, id);
    if k == |s.table| || s.table[k].dead then s
    else
      var d := ActiveDockIndex(s.docks, id);
      s.(docks := if d < |s.docks| then s.docks[d := s.docks[d].(active := None)] else s.docks,
         table := s.table[k := Detached(s.table[k])])
  }

  // ---------------------------------------------------------------- creating and destroying

  function GeneratedId(n: nat): string {
    "browser-" + Json.PrintNat(n)
  }

  /** Create a tab, or take the existing one of that id; an empty id asks for a generated one. */
  function CreateTab(s: State, id: string, owner: Owner, ownerSession: Option<string>, workspace: Option<string>)
    : (r: (State, string))
  {
    var n := if id == "" then s.counter + 1 else s.counter;
    var newId := if id == "" then GeneratedId(n) else id;
    if Index(s.table, newId) < |s.table| then (s.(counter := n), newId)
    else
      var session := if owner == Session then ownerSession else None;
      var x := Inst(s.next, newId, None, false, false, session, owner, session, workspace);
      (s.(table := s.table + [x], counter := n, next := s.next + 1), newId)
  }

  /** Take tab `k` out of the table. */
  function Finalized(s: State, k: nat): State
    requires k < |s.table|
  {
    s.(table := Without(s.table, k), gone := s.gone + [Detached(s.table[k])])
  }

  function DestroyTab(s: State, id: string): State {
    var k := Index(s.table, id);
    if k == |s.table| then s else Finalized(s, k)
  }

  /** Take out every tab that satisfies `p`. */
  function Dropped(s: State, p: Inst -> bool): State {
    s.(table := Select(s.table, p, false), gone := s.gone + DetachAll(Select(s.table, p, true)))
  }

  function DetachAll(xs: seq<Inst>): (r: seq<Inst>)
    ensures |r| == |xs| && forall k :: 0 <= k < |r| ==> r[k] == Detached(xs[k])
  {
    seq(|xs|, k requires 0 <= k < |xs| => Detached(xs[k]))
  }

  /** The page of a tab is destroyed, though its event has not been handled yet. */
  function LosePage(s: State, serial: nat): State {
    var k := SerialIndex(s.table, serial);
    if k < |s.table| then s.(table := s.table[k := s.table[k].(dead := true)]) else s
  }

  /** The event that a page has been destroyed: the table loses whatever tab has the id of the page's tab. */
  function PageDestroyed(s: State, serial: nat): State {
    var k, g := SerialIndex(s.table, serial), SerialIndex(s.gone, serial);
    if k < |s.table| then Finalized(s, k)
    else if g < |s.gone| && Index(s.table, s.gone[g].id) < |s.table| then
      var j := Index(s.table, s.gone[g].id);
      s.(table := Without(s.table, j), gone := s.gone[g := Detached(s.gone[g])] + [s.table[j]])
    else s
  }

  function CrashPage(s: State, serial: nat): State {
    var k, g := SerialIndex(s.table, serial), SerialIndex(s.gone, serial);
    if k < |s.table| then s.(table := s.table[k := Detached(s.table[k])])
    else if g < |s.gone| then s.(gone := s.gone[g := Detached(s.gone[g])])
    else s
  }

  // ---------------------------------------------------------------- ownership

  function BoundTo(x: Inst, session: string, workspace: Given): Inst {
    x.(bound := Some(session), owner := Session, ownerSession := Some(session),
       workspace := if workspace.Given? then workspace.value else x.workspace)
  }

  function BindTab(s: State, id: string, session: string, workspace: Given): State {
    var k := Index(s.table, id);
    if k == |s.table| then s else s.(table := s.table[k := BoundTo(s.table[k], session, workspace)])
  }

  function UnbindTab(s: State, id: string): State {
    var k := Index(s.table, id);
    if k == |s.table| then s else s.(table := s.table[k := s.table[k].(bound := None, owner := Manual)])
  }

  function UnboundFrom(x: Inst, session: string): Inst {
    if x.bound != Some(session) then x
    else x.(bound := None, owner := Manual,
            ownerSession := if x.ownerSession.Some? then x.ownerSession else Some(session))
  }

  function UnbindAll(table: seq<Inst>, session: string): (r: seq<Inst>)
    ensures |r| == |table| && forall k :: 0 <= k < |r| ==> r[k] == UnboundFrom(table[k], session)
  {
    seq(|table|, k requires 0 <= k < |table| => UnboundFrom(table[k], session))
  }

  predicate OwnedBy(x: Inst, session: string) {
    x.owner == Session && x.ownerSession == Some(session)
  }

  function Owned(session: string): Inst -> bool {
    (x: Inst) => OwnedBy(x, session)
  }

  function BoundBy(session: string): Inst -> bool {
    (x: Inst) => x.bound == Some(session)
  }

  function Dead(): Inst -> bool {
    (x: Inst) => x.dead
  }

  /** The first tab with a live page that the session owns. */
  function OwnedIndex(table: seq<Inst>, session: string): (k: nat)
    ensures k <= |table| && (k < |table| ==> OwnedBy(table[k], session) && !table[k].dead)
    ensures forall j :: 0 <= j < k ==> !OwnedBy(table[j], session) || table[j].dead
  {
    if table == [] || (OwnedBy(table[0], session) && !table[0].dead) then 0 else 1 + OwnedIndex(table[1..], session)
  }

  /** Looking for a session's tab takes out its dead tabs on the way. */
  function Searched(s: State, session: string): State {
    var k := OwnedIndex(s.table, session);
    var front := s.table[..k];
    s.(table := Select(front, Owned(session), false) + s.table[k..],
       gone := s.gone + DetachAll(Select(front, Owned(session), true)))
  }

  function FoundId(s: State, session: string): Option<string> {
    var k := OwnedIndex(s.table, session);
    if k < |s.table| then Some(s.table[k].id) else None
  }

  /** An unbound tab that a session of this workspace may take over. */
  predicate Reusable(x: Inst, workspace: Option<string>) {
    x.bound.None? && x.owner == Manual && (x.workspace.None? || x.workspace == workspace)
  }

  predicate Watched(docks: seq<Dock>, live: set<nat>, id: string) {
    id != "" && exists d :: 0 <= d < |docks| && Paintable(docks[d], live) && docks[d].active == Some(id)
  }

  /** The first reusable tab, among those being watched if `watched` is set. */
  function ReusableIndex(s: State, table: seq<Inst>, workspace: Option<string>, watched: bool): (k: nat)
    ensures k <= |table|
    ensures k < |table| ==> Reusable(table[k], workspace) && (watched ==> Watched(s.docks, s.live, table[k].id))
    ensures forall j :: 0 <= j < k ==> !Reusable(table[j], workspace) || (watched && !Watched(s.docks, s.live, table[j].id))
  {
    if table == [] || (Reusable(table[0], workspace) && (watched ==> Watched(s.docks, s.live, table[0].id))) then 0
    else 1 + ReusableIndex(s, table[1..], workspace, watched)
  }

  /** The tab to reuse: one the user is watching if there is any, else the first. */
  function PickReusable(s: State, workspace: Option<string>): (k: nat)
    ensures k <= |s.table| && (k < |s.table| ==> Reusable(s.table[k], workspace))
  {
    var watched := ReusableIndex(s, s.table, workspace, true);
    if watched < |s.table| then watched else ReusableIndex(s, s.table, workspace, false)
  }

  function CreateForSession(s: State, session: string, reuse: bool, workspace: Given): (State, string) {
    var ws := if workspace.Given? then workspace.value else None;
    var found := FoundId(s, session);
    var t := Searched(s, session);
    if found.Some? && found.value != "" then
      var k := Index(t.table, found.value);
      if workspace.Given? && k < |t.table|
      then (t.(table := t.table[k := t.table[k].(workspace := workspace.value)]), found.value)
      else (t, found.value)
    else if reuse && PickReusable(t, ws) < |t.table| then
      var id := t.table[PickReusable(t, ws)].id;
      (BindTab(t, id, session, Given(ws)), id)
    else CreateTab(t, "", Session, Some(session), ws)
  }

  function BoundIndex(table: seq<Inst>, session: string): (k: nat)
    ensures k <= |table| && (k < |table| ==> table[k].bound == Some(session))
    ensures forall j :: 0 <= j < k ==> table[j].bound != Some(session)
  {
    if table == [] || table[0].bound == Some(session) then 0 else 1 + BoundIndex(table[1..], session)
  }

  /** Taking control of a session's tab fills in its workspace if it has none. */
  function Controlled(s: State, session: string, workspace: Given): State {
    var k := BoundIndex(s.table, session);
    if k < |s.table| && workspace.Given? && s.table[k].workspace.None?
    then s.(table := s.table[k := s.table[k].(workspace := workspace.value)])
    else s
  }

  // ---------------------------------------------------------------- steps

  datatype Op =
    | OpenWindow(window: nat)
    | LoseWindow(window: nat)
    | PushDock(dock: Dock)
    | Release(window: nat)
    | Hide(id: string)
    | Create(id: string, owner: Owner, ownerSession: Option<string>, workspace: Option<string>)
    | OpenTab(serial: nat)
    | Destroy(id: string)
    | PageLost(serial: nat)
    | PageGone(serial: nat)
    | Crash(serial: nat)
    | Bind(id: string, session: string, given: Given)
    | Unbind(id: string)
    | UnbindSession(session: string)
    | Obtain(session: string, reuse: bool, given: Given)
    | Control(session: string, given: Given)
    | DestroySession(session: string)
    | List

  /** The tab with this serial, in the table or taken out of it. */
  function TabOf(s: State, serial: nat): Option<Inst> {
    var k, g := SerialIndex(s.table, serial), SerialIndex(s.gone, serial);
    if k < |s.table| then Some(s.table[k])
    else if g < |s.gone| then Some(s.gone[g])
    else None
  }

  /** A page opens another one; the page may do so after its tab has left the table. */
  function OpenSibling(s: State, serial: nat): State {
    match TabOf(s, serial)
    case None => s
    case Some(origin) => CreateTab(s, "", origin.owner, origin.ownerSession, origin.workspace).0
  }

  function Apply(s: State, op: Op): State {
    match op
    case OpenWindow(w) => if w in s.seen then s else s.(seen := s.seen + {w}, live := s.live + {w})
    case LoseWindow(w) => s.(live := s.live - {w})
    case PushDock(dock) => SetDockState(s, dock)
    case Release(w) => ReleaseDock(s, w)
    case Hide(id) => HideTab(s, id)
    case Create(id, owner, session, workspace) => CreateTab(s, id, owner, session, workspace).0
    case OpenTab(serial) => OpenSibling(s, serial)
    case Destroy(id) => DestroyTab(s, id)
    case PageLost(serial) => LosePage(s, serial)
    case PageGone(serial) => PageDestroyed(s, serial)
    case Crash(serial) => CrashPage(s, serial)
    case Bind(id, session, workspace) => BindTab(s, id, session, workspace)
    case Unbind(id) => UnbindTab(s, id)
    case UnbindSession(session) => s.(table := UnbindAll(s.table, session))
    case Obtain(session, reuse, workspace) => CreateForSession(s, session, reuse, workspace).0
    case Control(session, workspace) => Controlled(s, session, workspace)
    case DestroySession(session) => Dropped(s, BoundBy(session))
    case List => Dropped(s, Dead())
  }

  function Run(s: State, ops: seq<Op>): State {
    if ops == [] then s else Apply(Run(s, Init(ops)), Last(ops))
  }
}
