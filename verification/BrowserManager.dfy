/** The manager itself: tabs are objects whose fields its methods update in place. */
module BrowserManager {
  import opened Options
  import opened Text
  import opened BrowserPane

  class Tab {
    const serial: nat
    const id: string
    var host: Option<nat>
    var isVisible: bool
    var destroyed: bool
    var boundSessionId: Option<string>
    var ownerType: Owner
    var ownerSessionId: Option<string>
    var workspaceId: Option<string>

    function Value(): Inst
      reads this
    {
      Inst(serial, id, host, isVisible, destroyed, boundSessionId, ownerType, ownerSessionId, workspaceId)
    }

    constructor (serial: nat, id: string, owner: Owner, session: Option<string>, workspace: Option<string>)
      ensures Value() == Inst(serial, id, None, false, false, session, owner, session, workspace)
    {
      this.serial, this.id := serial, id;
      host, isVisible, destroyed := None, false, false;
      boundSessionId, ownerType, ownerSessionId, workspaceId := session, owner, session, workspace;
    }

    method Detach()
      modifies this`host, this`isVisible
      ensures Value() == Detached(old(Value()))
    {
      host := None;
      if isVisible {
        isVisible := false;
      }
    }

    method Attach(dock: Dock, live: set<nat>)
      modifies this`host, this`isVisible
      ensures Value() == Attached(old(Value()), dock, live)
    {
      if destroyed || dock.window !in live || dock.bounds.None? {
        return;
      }
      if host != Some(dock.window) {
        Detach();
        host := Some(dock.window);
      }
      if !isVisible {
        isVisible := true;
      }
    }

    method Bind(session: string, workspace: Given)
      modifies this`boundSessionId, this`ownerType, this`ownerSessionId, this`workspaceId
      ensures Value() == BoundTo(old(Value()), session, workspace)
    {
      boundSessionId := Some(session);
      ownerType := Session;
      ownerSessionId := Some(session);
      if workspace.Given? {
        workspaceId := workspace.value;
      }
    }

    method UnbindFrom(session: string)
      modifies this`boundSessionId, this`ownerType, this`ownerSessionId
      ensures Value() == UnboundFrom(old(Value()), session)
    {
      if boundSessionId == Some(session) {
        boundSessionId := None;
        ownerType := Manual;
        ownerSessionId := if ownerSessionId.Some? then ownerSessionId else Some(session);
      }
    }
  }

  /** The values of some tabs. */
  ghost function Values(tabs: seq<Tab>): (r: seq<Inst>)
    reads tabs
    ensures |r| == |tabs| && forall i :: 0 <= i < |r| ==> r[i] == tabs[i].Value()
  {
    seq(|tabs|, i requires 0 <= i < |tabs| reads tabs => tabs[i].Value())
  }

  lemma ValueAt(tabs: seq<Tab>, k: nat)
    ensures |Values(tabs)| == |tabs| && (k < |tabs| ==> Values(tabs)[k] == tabs[k].Value())
  {
  }

  /** Different tabs, all numbered below `next`. */
  ghost predicate Numbered(tabs: seq<Tab>, next: nat) {
    && (forall i, j :: 0 <= i < j < |tabs| ==> tabs[i].serial != tabs[j].serial)
    && (forall t :: t in tabs ==> t.serial < next)
  }

  /** The table is keyed by id. */
  ghost predicate Keyed(tabs: seq<Tab>) {
    forall i, j :: 0 <= i < j < |tabs| ==> tabs[i].id != tabs[j].id
  }

  ghost predicate Apart(tabs: seq<Tab>, gone: seq<Tab>) {
    forall t, u :: t in tabs && u in gone ==> t.serial != u.serial
  }

  lemma TakenOut(tabs: seq<Tab>, gone: seq<Tab>, k: nat, next: nat)
    requires Numbered(tabs, next) && Numbered(gone, next) && Apart(tabs, gone) && k < |tabs|
    ensures var rest, more := tabs[..k] + tabs[k + 1..], gone + [tabs[k]];
            Numbered(rest, next) && Numbered(more, next) && Apart(rest, more) && (Keyed(tabs) ==> Keyed(rest))
  {
    var rest, more := tabs[..k] + tabs[k + 1..], gone + [tabs[k]];
    forall t, u | t in rest && u in more ensures t.serial != u.serial {
      var i :| 0 <= i < |rest| && rest[i] == t;
      var j := if i < k then i else i + 1;
      assert tabs[j] == t && tabs[j] in tabs;
    }
    forall t | t in rest ensures t in tabs {
      var i :| 0 <= i < |rest| && rest[i] == t;
      assert t == tabs[if i < k then i else i + 1];
    }
  }

  lemma NothingSelected(all: seq<Inst>, p: Inst -> bool)
    ensures Select(all[..0], p, false) == [] && Select(all[..0], p, true) == []
  {
  }

  lemma SelectNext(all: seq<Inst>, k: nat, p: Inst -> bool)
    requires k < |all|
    ensures Select(all[..k + 1], p, true) == Select(all[..k], p, true) + (if p(all[k]) then [all[k]] else [])
    ensures Select(all[..k + 1], p, false) == Select(all[..k], p, false) + (if p(all[k]) then [] else [all[k]])
    ensures !p(all[k]) ==> Select(all[..k], p, false) + all[k..] == Select(all[..k + 1], p, false) + all[k + 1..]
  {
    assert Init(all[..k + 1]) == all[..k];
    assert all[k..] == [all[k]] + all[k + 1..];
    assert Select(all[..k], p, false) + all[k..] == Select(all[..k], p, false) + [all[k]] + all[k + 1..];
  }

  lemma CutOut(front: seq<Inst>, all: seq<Inst>, k: nat)
    requires k < |all|
    ensures Without(front + all[k..], |front|) == front + all[k + 1..]
    ensures (front + all[k..])[|front|] == all[k]
  {
  }

  lemma DetachNext(lost: seq<Inst>, xs: seq<Inst>, x: Inst)
    ensures lost + DetachAll(xs) + [Detached(x)] == lost + DetachAll(xs + [x])
  {
    assert DetachAll(xs + [x]) == DetachAll(xs) + [Detached(x)];
  }

  /** None of the first `k` tabs is an open one of the session. */
  ghost predicate NoneLive(all: seq<Inst>, session: string, k: nat) {
    k <= |all| && forall j :: 0 <= j < k ==> !OwnedBy(all[j], session) || all[j].dead
  }

  lemma NoneLiveYet(all: seq<Inst>, session: string)
    ensures NoneLive(all, session, 0)
  {
  }

  lemma NoneLiveNext(all: seq<Inst>, session: string, k: nat)
    requires NoneLive(all, session, k) && k < |all| && (!OwnedBy(all[k], session) || all[k].dead)
    ensures NoneLive(all, session, k + 1)
  {
  }

  lemma OwnedIndexIs(all: seq<Inst>, session: string, k: nat)
    requires k <= |all| && (k < |all| ==> OwnedBy(all[k], session) && !all[k].dead)
    requires forall j :: 0 <= j < k ==> !OwnedBy(all[j], session) || all[j].dead
    ensures OwnedIndex(all, session) == k
  {
  }

  lemma CreateIs(s: State, id: string, owner: Owner, ownerSession: Option<string>, workspace: Option<string>)
    ensures var n := if id == "" then s.counter + 1 else s.counter;
            var newId := if id == "" then GeneratedId(n) else id;
            var session := if owner == Session then ownerSession else None;
            CreateTab(s, id, owner, ownerSession, workspace) ==
            if Index(s.table, newId) < |s.table| then (s.(counter := n), newId)
            else (s.(table := s.table + [Inst(s.next, newId, None, false, false, session, owner, session, workspace)],
                     counter := n, next := s.next + 1), newId)
  {
    hide Index, GeneratedId;
  }

  class Manager {
    var tabs: seq<Tab>
    ghost var gone: seq<Tab>
    /** Every tab there ever was. */
    ghost var repr: set<Tab>
    var docks: seq<Dock>
    ghost var seen: set<nat>
    var live: set<nat>
    var instanceCounter: nat
    var nextSerial: nat

    ghost predicate Valid()
      reads this
    {
      && Numbered(tabs, nextSerial) && Keyed(tabs) && Numbered(gone, nextSerial) && Apart(tabs, gone)
      && (forall t :: t in tabs ==> t in repr) && (forall t :: t in gone ==> t in repr)
    }

    ghost function Contents(): State
      reads this, tabs, gone
    {
      State(Values(tabs), Values(gone), docks, seen, live, instanceCounter, nextSerial)
    }

    constructor ()
      ensures Valid() && Contents() == INITIAL
    {
      tabs, gone, repr, docks, seen, live, instanceCounter, nextSerial := [], [], {}, [], {}, {}, 0, 0;
    }

    method FindTab(id: string) returns (k: nat)
      ensures k == Index(Values(tabs), id) && k <= |tabs|
      ensures k < |tabs| ==> tabs[k].id == id
      ensures k == |tabs| ==> forall t :: t in tabs ==> t.id != id
    {
      k := 0;
      ghost var all := Values(tabs);
      assert all[0..] == all;
      while k < |tabs| && tabs[k].id != id
        invariant k <= |tabs| && Index(all, id) == k + Index(all[k..], id)
      {
        assert all[k..][1..] == all[k + 1..];
        k := k + 1;
      }
      assert forall i :: 0 <= i < |tabs| ==> all[i].id == tabs[i].id;
    }

    method FindDock(window: nat) returns (k: nat)
      ensures k == DockIndex(docks, window)
    {
      k := 0;
      assert docks[0..] == docks;
      while k < |docks| && docks[k].window != window
        invariant k <= |docks| && DockIndex(docks, window) == k + DockIndex(docks[k..], window)
      {
        assert docks[k..][1..] == docks[k + 1..];
        k := k + 1;
      }
    }

    method FindActiveDock(id: string) returns (k: nat)
      ensures k == ActiveDockIndex(docks, id)
    {
      k := 0;
      assert docks[0..] == docks;
      while k < |docks| && docks[k].active != Some(id)
        invariant k <= |docks| && ActiveDockIndex(docks, id) == k + ActiveDockIndex(docks[k..], id)
      {
        assert docks[k..][1..] == docks[k + 1..];
        k := k + 1;
      }
    }

    /** Attach exactly the dock's active tab, detach every other tab of its window. */
    method ReconcileDock(dock: Dock)
      requires Valid()
      modifies repr
      ensures Values(tabs) == ReconcileAll(old(Values(tabs)), dock, live)
      ensures Values(gone) == old(Values(gone))
    {
      var shouldPaint := Paintable(dock, live);
      for k := 0 to |tabs|
        invariant forall i :: 0 <= i < k ==> tabs[i].Value() == Reconciled(old(tabs[i].Value()), dock, live)
        invariant forall i :: k <= i < |tabs| ==> tabs[i].Value() == old(tabs[i].Value())
        invariant forall i :: 0 <= i < |gone| ==> gone[i].Value() == old(gone[i].Value())
      {
        var tab := tabs[k];
        assert tab in tabs && tab !in gone;
        if shouldPaint && dock.active == Some(tab.id) {
          tab.Attach(dock, live);
        } else if tab.host == Some(dock.window) {
          tab.Detach();
        }
      }
    }

    method PushDockState(dock: Dock)
      requires Valid()
      modifies this`docks, repr
      ensures Valid() && Contents() == SetDockState(old(Contents()), dock)
    {
      hide Numbered, Apart, Keyed, Reconciled, DockIndex;
      var k := FindDock(dock.window);
      if dock.window !in live {
        if k < |docks| {
          docks := docks[..k] + docks[k + 1..];
        }
        return;
      }
      docks := if k < |docks| then docks[k := dock] else docks + [dock];
      ReconcileDock(dock);
    }

    /** Detach every tab of the window. */
    method DetachFrom(window: nat)
      requires Valid()
      modifies repr
      ensures Values(tabs) == ReleaseAll(old(Values(tabs)), window)
      ensures Values(gone) == old(Values(gone))
    {
      for k := 0 to |tabs|
        invariant forall i :: 0 <= i < k ==> tabs[i].Value() == Released(old(tabs[i].Value()), window)
        invariant forall i :: k <= i < |tabs| ==> tabs[i].Value() == old(tabs[i].Value())
        invariant forall i :: 0 <= i < |gone| ==> gone[i].Value() == old(gone[i].Value())
      {
        var tab := tabs[k];
        assert tab in tabs && tab !in gone;
        if tab.host == Some(window) {
          tab.Detach();
        }
      }
    }

    method ReleaseDockOf(window: nat)
      requires Valid()
      modifies this`docks, repr
      ensures Valid() && Contents() == ReleaseDock(old(Contents()), window)
    {
      hide Numbered, Apart, Keyed, Released, DockIndex, ReleaseAll;
      var d := FindDock(window);
      if d == |docks| {
        return;
      }
      docks := docks[..d] + docks[d + 1..];
      DetachFrom(window);
    }

    /** Only tab `k` may have changed, and only to `y`. */
    twostate predicate OnlyTab(k: nat, y: Inst)
      reads this, tabs, gone
    {
      && tabs == old(tabs) && gone == old(gone) && k < |tabs|
      && Values(tabs) == old(Values(tabs))[k := y]
      && Values(gone) == old(Values(gone))
    }

    /** Where only tab `k` has been written, only its value has changed. */
    twostate lemma OneTabChanged(k: nat)
      requires old(Valid()) && tabs == old(tabs) && gone == old(gone) && k < |tabs|
      requires forall t :: t in tabs + gone && t != tabs[k] ==> unchanged(t)
      ensures OnlyTab(k, tabs[k].Value())
    {
      forall i | 0 <= i < |tabs| && i != k ensures tabs[i].Value() == old(tabs[i].Value()) {
        assert tabs[i] in tabs + gone && tabs[i].serial != tabs[k].serial;
      }
      forall i | 0 <= i < |gone| ensures gone[i].Value() == old(gone[i].Value()) {
        assert gone[i] in tabs + gone && tabs[k] in tabs && gone[i] in gone && gone[i].serial != tabs[k].serial;
      }
    }

    method HideInstance(id: string)
      requires Valid()
      modifies this`docks, repr
      ensures Valid() && Contents() == HideTab(old(Contents()), id)
    {
      hide Numbered, Keyed, Apart, Index, ActiveDockIndex, Values;
      var k := FindTab(id);
      ContentsAre();
      ValueAt(tabs, k);
      if k == |tabs| || tabs[k].destroyed {
        return;
      }
      var d := FindActiveDock(id);
      if d < |docks| {
        docks := docks[d := docks[d].(active := None)];
      }
      assert tabs[k] in tabs;
      tabs[k].Detach();
      OneTabChanged(k);
    }

    method AddTab(newId: string, owner: Owner, session: Option<string>, workspace: Option<string>)
      requires Valid() && forall t :: t in tabs ==> t.id != newId
      modifies this`tabs, this`repr, this`nextSerial
      ensures Valid() && nextSerial == old(nextSerial) + 1
      ensures |tabs| == |old(tabs)| + 1 && tabs[..|old(tabs)|] == old(tabs) && fresh(Last(tabs))
      ensures Values(tabs) == old(Values(tabs))
                              + [Inst(old(nextSerial), newId, None, false, false, session, owner, session, workspace)]
    {
      var tab := new Tab(nextSerial, newId, owner, session, workspace);
      tabs := tabs + [tab];
      repr := repr + {tab};
      nextSerial := nextSerial + 1;
      assert Values(tabs) == old(Values(tabs)) + [tab.Value()];
    }

    method CreateInstance(id: string, owner: Owner, ownerSession: Option<string>, workspace: Option<string>)
      returns (newId: string)
      requires Valid()
      modifies this`tabs, this`repr, this`instanceCounter, this`nextSerial
      ensures Valid() && (Contents(), newId) == CreateTab(old(Contents()), id, owner, ownerSession, workspace)
    {
      hide Index, GeneratedId, CreateTab, Numbered, Apart, Keyed, Values;
      CreateIs(Contents(), id, owner, ownerSession, workspace);
      newId := id;
      if id == "" {
        instanceCounter := instanceCounter + 1;
        newId := GeneratedId(instanceCounter);
      }
      var k := FindTab(newId);
      if k < |tabs| {
        return;
      }
      var session := if owner == Session then ownerSession else None;
      AddTab(newId, owner, session, workspace);
      SameValues();
    }

    /** Tabs that have not been written have the values they had. */
    twostate lemma SameValues()
      requires gone == old(gone) && forall t :: t in gone ==> unchanged(t)
      ensures Values(gone) == old(Values(gone))
    {
      forall i | 0 <= i < |gone| ensures gone[i].Value() == old(gone[i].Value()) {
        assert gone[i] in gone;
      }
    }

    /** Move tab `k` out of the table, as it is. */
    method TakeOut(k: nat)
      requires Valid() && k < |tabs|
      modifies this`tabs, this`gone
      ensures Valid() && gone == old(gone) + [old(tabs)[k]]
      ensures tabs == old(tabs)[..k] + old(tabs)[k + 1..]
      ensures Values(tabs) == Without(old(Values(tabs)), k)
      ensures Values(gone) == old(Values(gone)) + [old(Values(tabs))[k]]
    {
      hide Numbered, Apart, Keyed;
      TakenOut(tabs, gone, k, nextSerial);
      var tab := tabs[k];
      gone := gone + [tab];
      tabs := tabs[..k] + tabs[k + 1..];
      assert Values(tabs) == Without(old(Values(tabs)), k);
      assert Values(gone) == old(Values(gone)) + [old(Values(tabs))[k]];
    }

    /** Detach tab `k` and take it out of the table. */
    method FinalizeDestroyed(k: nat)
      requires Valid() && k < |tabs|
      modifies this`tabs, this`gone, repr
      ensures Valid() && Contents() == Finalized(old(Contents()), k)
      ensures tabs == old(tabs)[..k] + old(tabs)[k + 1..]
    {
      var tab := tabs[k];
      assert tab in tabs && tab !in gone;
      tab.Detach();
      ghost var before := old(Values(tabs));
      assert OnlyTab(k, Detached(before[k]));
      assert Without(before[k := Detached(before[k])], k) == Without(before, k);
      TakeOut(k);
    }

    method DestroyInstance(id: string)
      requires Valid()
      modifies this`tabs, this`gone, repr
      ensures Valid() && Contents() == DestroyTab(old(Contents()), id)
    {
      var k := FindTab(id);
      if k < |tabs| {
        FinalizeDestroyed(k);
      }
    }

    /** Where a tab is. */
    lemma Position(tab: Tab)
      requires Valid() && (tab in tabs || tab in gone)
      ensures var s, g := SerialIndex(Values(tabs), tab.serial), SerialIndex(Values(gone), tab.serial);
              && (tab in tabs ==> s < |tabs| && tabs[s] == tab && tab !in gone
                                  && forall k :: 0 <= k < |tabs| && tabs[k].id == tab.id ==> k == s)
              && (tab !in tabs ==> s == |tabs| && g < |gone| && gone[g] == tab)
    {
      if tab in tabs {
        var i :| 0 <= i < |tabs| && tabs[i] == tab;
        assert Values(tabs)[i].serial == tab.serial;
      } else {
        var i :| 0 <= i < |gone| && gone[i] == tab;
        assert Values(gone)[i].serial == tab.serial;
      }
    }

    method OnForgottenPage(tab: Tab, k: nat)
      requires Valid() && tab !in tabs && tab in gone && k < |tabs|
      modifies this`tabs, this`gone, repr
      ensures Valid()
      ensures var g := SerialIndex(old(Values(gone)), tab.serial);
              && g < |old(Values(gone))|
              && Values(tabs) == Without(old(Values(tabs)), k)
              && Values(gone) == old(Values(gone))[g := Detached(old(Values(gone))[g])] + [old(Values(tabs))[k]]
    {
      hide Numbered, Apart, Keyed, Without;
      ghost var g := SerialIndex(Values(gone), tab.serial);
      Position(tab);
      ghost var before := Values(gone);
      DetachGone(tab, g);
      TakeOut(k);
    }

    method DetachGone(tab: Tab, ghost g: nat)
      requires Valid() && tab !in tabs && g < |gone| && gone[g] == tab
      modifies tab
      ensures Values(tabs) == old(Values(tabs))
      ensures Values(gone) == old(Values(gone))[g := Detached(old(Values(gone))[g])]
    {
      tab.Detach();
      assert forall i :: 0 <= i < |gone| && i != g ==> gone[i] != tab;
      assert Values(tabs) == old(Values(tabs));
      assert Values(gone) == old(Values(gone))[g := Detached(old(Values(gone))[g])];
    }

    /** The page of `tab` has been destroyed; the tab may have left the table long ago. */
    method OnPageDestroyed(tab: Tab)
      requires Valid() && (tab in tabs || tab in gone)
      modifies this`tabs, this`gone, repr
      ensures Valid() && Contents() == PageDestroyed(old(Contents()), tab.serial)
    {
      hide Without, Index, SerialIndex, Numbered, Apart, Keyed;
      Position(tab);
      var k := FindTab(tab.id);
      if k == |tabs| {
        return;
      }
      if tab in tabs {
        FinalizeDestroyed(k);
      } else {
        OnForgottenPage(tab, k);
      }
    }

    method OnRenderProcessGone(tab: Tab)
      requires Valid() && (tab in tabs || tab in gone)
      modifies tab
      ensures Valid() && Contents() == CrashPage(old(Contents()), tab.serial)
    {
      ghost var k, g := SerialIndex(Values(tabs), tab.serial), SerialIndex(Values(gone), tab.serial);
      tab.Detach();
      if tab in tabs {
        assert k < |tabs| && tabs[k] == tab && tab !in gone;
        assert Values(tabs) == old(Values(tabs))[k := Detached(old(Values(tabs))[k])];
        assert Values(gone) == old(Values(gone));
      } else {
        assert g < |gone| && gone[g] == tab && k == |tabs|;
        assert Values(tabs) == old(Values(tabs));
        assert Values(gone) == old(Values(gone))[g := Detached(old(Values(gone))[g])];
      }
    }

    method BindSession(id: string, session: string, workspace: Given)
      requires Valid()
      modifies repr
      ensures Valid() && Contents() == BindTab(old(Contents()), id, session, workspace)
    {
      hide Numbered, Keyed, Apart, Index, Values, BoundTo;
      var k := FindTab(id);
      ValueAt(tabs, k);
      if k < |tabs| {
        tabs[k].Bind(session, workspace);
        OneTabChanged(k);
      }
    }

    method UnbindSession(id: string)
      requires Valid()
      modifies repr
      ensures Valid() && Contents() == UnbindTab(old(Contents()), id)
    {
      hide Numbered, Keyed, Apart, Index, Values;
      var k := FindTab(id);
      ValueAt(tabs, k);
      if k < |tabs| {
        var tab := tabs[k];
        assert tab in tabs;
        tab.boundSessionId := None;
        tab.ownerType := Manual;
        OneTabChanged(k);
      }
    }

    method UnbindAllForSession(session: string)
      requires Valid()
      modifies repr
      ensures Valid() && Contents() == old(Contents()).(table := UnbindAll(old(Values(tabs)), session))
    {
      for k := 0 to |tabs|
        invariant forall i :: 0 <= i < k ==> tabs[i].Value() == UnboundFrom(old(tabs[i].Value()), session)
        invariant forall i :: k <= i < |tabs| ==> tabs[i].Value() == old(tabs[i].Value())
        invariant forall i :: 0 <= i < |gone| ==> gone[i].Value() == old(gone[i].Value())
      {
        var tab := tabs[k];
        assert tab in tabs && tab !in gone;
        tab.UnbindFrom(session);
      }
      assert Values(tabs) == UnbindAll(old(Values(tabs)), session);
      assert Values(gone) == old(Values(gone));
    }

    /** The first `p` of the tabs `all` have been looked at and those satisfying `drop` taken out; the next is tab `k`. */
    ghost predicate Sifted(all: seq<Inst>, lost: seq<Inst>, drop: Inst -> bool, p: nat, k: nat)
      reads this, tabs, gone
    {
      && p <= |all| && k == |Select(all[..p], drop, false)|
      && Values(tabs) == Select(all[..p], drop, false) + all[p..]
      && Values(gone) == lost + DetachAll(Select(all[..p], drop, true))
    }

    lemma SiftStart(drop: Inst -> bool)
      ensures Sifted(Values(tabs), Values(gone), drop, 0, 0)
    {
      NothingSelected(Values(tabs), drop);
      assert Values(gone) + DetachAll([]) == Values(gone);
    }

    lemma SiftNext(all: seq<Inst>, lost: seq<Inst>, drop: Inst -> bool, p: nat, k: nat)
      requires Sifted(all, lost, drop, p, k) && p < |all|
      ensures k < |tabs| && tabs[k].Value() == all[p] && |tabs| - k == |all| - p
      ensures !drop(all[p]) ==> Sifted(all, lost, drop, p + 1, k + 1)
    {
      hide Select;
      SelectNext(all, p, drop);
      assert Values(tabs)[k] == all[p];
    }

    /** Take out tab `k`, which satisfies `drop`. */
    method SiftOut(k: nat, ghost all: seq<Inst>, ghost lost: seq<Inst>, ghost drop: Inst -> bool, ghost p: nat)
      requires Valid() && Sifted(all, lost, drop, p, k) && p < |all| && k < |tabs| && drop(all[p])
      modifies this`tabs, this`gone, repr
      ensures Valid() && Sifted(all, lost, drop, p + 1, k)
      ensures tabs == old(tabs)[..k] + old(tabs)[k + 1..]
    {
      hide Select, Numbered, Apart, Keyed, Without, DetachAll;
      SelectNext(all, p, drop);
      CutOut(Select(all[..p], drop, false), all, p);
      DetachNext(lost, Select(all[..p], drop, true), all[p]);
      FinalizeDestroyed(k);
    }

    /** Look at tab `k`: it is the session's open tab, or a closed one to take out, or another one. */
    method SearchStep(k: nat, session: string, ghost all: seq<Inst>, ghost lost: seq<Inst>, ghost p: nat)
      returns (next: nat, found: bool)
      requires Valid() && Sifted(all, lost, Owned(session), p, k) && p < |all| && k < |tabs| && NoneLive(all, session, p)
      modifies this`tabs, this`gone, repr
      ensures Valid()
      ensures found ==> tabs == old(tabs) && Sifted(all, lost, Owned(session), p, k)
                        && OwnedBy(all[p], session) && !all[p].dead && all[p].id == tabs[k].id
      ensures !found ==> Sifted(all, lost, Owned(session), p + 1, next) && NoneLive(all, session, p + 1)
                         && |tabs| - next == |all| - (p + 1)
    {
      hide *;
      SiftNext(all, lost, Owned(session), p, k);
      var tab := tabs[k];
      OwnedMeans(tab, session);
      next := k;
      if tab.ownerType == Session && tab.ownerSessionId == Some(session) {
        if !tab.destroyed {
          return next, true;
        }
        SiftOut(k, all, lost, Owned(session), p);
      } else {
        next := k + 1;
      }
      found := false;
      NoneLiveNext(all, session, p);
      SiftLength(all, lost, Owned(session), p + 1, next);
    }

    /** The tab of a session, after taking out its closed tabs on the way to it. */
    method GetBoundForSession(session: string) returns (id: Option<string>)
      requires Valid()
      modifies this`tabs, this`gone, repr
      ensures Valid() && Contents() == Searched(old(Contents()), session)
      ensures id == FoundId(old(Contents()), session)
    {
      hide *;
      ghost var all, lost, p := Values(tabs), Values(gone), 0;
      ghost var start := State(all, lost, docks, seen, live, instanceCounter, nextSerial);
      ContentsAre();
      var k := 0;
      SiftStart(Owned(session));
      NoneLiveYet(all, session);
      while k < |tabs|
        invariant Valid() && 0 <= p <= |all| && 0 <= k && |tabs| - k == |all| - p
        invariant Sifted(all, lost, Owned(session), p, k) && NoneLive(all, session, p)
        decreases |tabs| - k
      {
        var next, found := SearchStep(k, session, all, lost, p);
        if found {
          SearchDone(start, all, lost, p, k, session);
          return Some(tabs[k].id);
        }
        k, p := next, p + 1;
      }
      SearchDone(start, all, lost, p, k, session);
      return None;
    }

    lemma ContentsAre()
      ensures Contents() == State(Values(tabs), Values(gone), docks, seen, live, instanceCounter, nextSerial)
    {
    }

    lemma OwnedMeans(tab: Tab, session: string)
      ensures Owned(session)(tab.Value()) == (tab.ownerType == Session && tab.ownerSessionId == Some(session))
      ensures OwnedBy(tab.Value(), session) == Owned(session)(tab.Value())
      ensures tab.Value().dead == tab.destroyed && tab.Value().id == tab.id
    {
    }

    lemma SearchDone(start: State, all: seq<Inst>, lost: seq<Inst>, p: nat, k: nat, session: string)
      requires start == State(all, lost, docks, seen, live, instanceCounter, nextSerial)
      requires Sifted(all, lost, Owned(session), p, k) && NoneLive(all, session, p)
      requires p < |all| ==> OwnedBy(all[p], session) && !all[p].dead
      ensures Contents() == Searched(start, session)
      ensures FoundId(start, session) == if p < |all| then Some(all[p].id) else None
    {
      hide OwnedIndex, Select, DetachAll;
      OwnedIndexIs(all, session, p);
    }

    lemma SiftLength(all: seq<Inst>, lost: seq<Inst>, drop: Inst -> bool, p: nat, k: nat)
      requires Sifted(all, lost, drop, p, k)
      ensures |tabs| - k == |all| - p
    {
    }

    lemma SiftDone(start: State, lost: seq<Inst>, drop: Inst -> bool, k: nat)
      requires start == State(start.table, lost, docks, seen, live, instanceCounter, nextSerial)
      requires Sifted(start.table, lost, drop, |start.table|, k)
      ensures Contents() == Dropped(start, drop)
    {
      hide Select, DetachAll;
      assert start.table[..|start.table|] == start.table && start.table[|start.table|..] == [];
    }

    lemma BoundMeans(tab: Tab, session: string)
      ensures BoundBy(session)(tab.Value()) == (tab.boundSessionId == Some(session))
      ensures Dead()(tab.Value()) == tab.destroyed
    {
    }

    /** Take out tab `k` or pass it by. */
    method SiftStep(k: nat, out: bool, ghost all: seq<Inst>, ghost lost: seq<Inst>, ghost drop: Inst -> bool, ghost p: nat)
      returns (next: nat)
      requires Valid() && Sifted(all, lost, drop, p, k) && p < |all| && k < |tabs|
      requires out == drop(tabs[k].Value())
      modifies this`tabs, this`gone, repr
      ensures Valid() && Sifted(all, lost, drop, p + 1, next) && |tabs| - next == |all| - (p + 1)
      ensures next <= |tabs| && tabs[..next] == old(tabs)[..k] + (if out then [] else [old(tabs)[k]])
    {
      hide *;
      ghost var before := tabs;
      SiftNext(all, lost, drop, p, k);
      if out {
        SiftOut(k, all, lost, drop, p);
        next := k;
      } else {
        next := k + 1;
      }
      SiftLength(all, lost, drop, p + 1, next);
      assert tabs[..next] == before[..k] + (if out then [] else [before[k]]);
    }

    /** Destroy every tab bound to the session. */
    method DestroyForSession(session: string)
      requires Valid()
      modifies this`tabs, this`gone, repr
      ensures Valid() && Contents() == Dropped(old(Contents()), BoundBy(session))
    {
      hide *;
      ghost var all, lost, p := Values(tabs), Values(gone), 0;
      ghost var start := State(all, lost, docks, seen, live, instanceCounter, nextSerial);
      ContentsAre();
      var k := 0;
      SiftStart(BoundBy(session));
      while k < |tabs|
        invariant Valid() && 0 <= p <= |all| && 0 <= k && |tabs| - k == |all| - p
        invariant Sifted(all, lost, BoundBy(session), p, k)
        decreases |tabs| - k
      {
        BoundMeans(tabs[k], session);
        k := SiftStep(k, tabs[k].boundSessionId == Some(session), all, lost, BoundBy(session), p);
        p := p + 1;
      }
      SiftDone(start, lost, BoundBy(session), k);
    }

    /** Listing the tabs takes out those whose page is gone. */
    method ListInstances() returns (listed: seq<Tab>)
      requires Valid()
      modifies this`tabs, this`gone, repr
      ensures Valid() && Contents() == Dropped(old(Contents()), Dead())
      ensures listed == tabs
    {
      hide *;
      ghost var all, lost, p := Values(tabs), Values(gone), 0;
      ghost var start := State(all, lost, docks, seen, live, instanceCounter, nextSerial);
      ContentsAre();
      var k := 0;
      SiftStart(Dead());
      listed := [];
      while k < |tabs|
        invariant Valid() && 0 <= p <= |all| && 0 <= k <= |tabs| && |tabs| - k == |all| - p
        invariant Sifted(all, lost, Dead(), p, k)
        invariant listed == tabs[..k]
        decreases |tabs| - k
      {
        var tab := tabs[k];
        assert tab in tabs;
        BoundMeans(tab, "");
        var closed := tab.destroyed;
        k := SiftStep(k, closed, all, lost, Dead(), p);
        listed := listed + (if closed then [] else [tab]);
        p := p + 1;
      }
      SiftDone(start, lost, Dead(), k);
      assert tabs[..k] == tabs;
    }

    /** The first reusable tab, among those with these ids if `watched` is set. */
    method FindReusable(workspace: Option<string>, watched: bool, activeIds: set<string>) returns (k: nat)
      requires Valid() && forall id :: Watched(docks, live, id) <==> id in activeIds
      ensures k == ReusableIndex(Contents(), Values(tabs), workspace, watched) && k <= |tabs|
    {
      hide *;
      ghost var s, all := Contents(), Values(tabs);
      ContentsAre();
      k := 0;
      assert all[0..] == all;
      while k < |tabs|
        invariant k <= |tabs| && ReusableIndex(s, all, workspace, watched) == k + ReusableIndex(s, all[k..], workspace, watched)
      {
        var tab := tabs[k];
        assert all[k] == tab.Value();
        ReusableMeans(tab, workspace);
        ReusableNext(s, all, k, workspace, watched);
        if && tab.boundSessionId.None? && tab.ownerType == Manual
           && (tab.workspaceId.None? || tab.workspaceId == workspace)
           && (watched ==> tab.id in activeIds) {
          return;
        }
        k := k + 1;
      }
      NoneReusable(s, workspace);
      assert all[k..] == [];
    }

    /** A tab that a session of this workspace may take over; the one the user is watching comes first. */
    method FindReusableUnboundInstance(workspace: Option<string>) returns (k: nat)
      requires Valid()
      ensures k == PickReusable(Contents(), workspace)
    {
      hide *;
      var activeIds := set d | d in docks && Paintable(d, live) && d.active.Some? && d.active.value != "" :: d.active.value;
      WatchedIs(docks, live, activeIds);
      ContentsAre();
      PickIs(Contents(), workspace);
      k := FindReusable(workspace, true, activeIds);
      if k == |tabs| {
        k := FindReusable(workspace, false, activeIds);
      }
    }

    /** Give tab `k` a workspace. */
    method SetWorkspace(k: nat, workspace: Option<string>)
      requires Valid() && k < |tabs|
      modifies repr
      ensures Values(tabs) == old(Values(tabs))[k := old(Values(tabs))[k].(workspace := workspace)]
      ensures Values(gone) == old(Values(gone))
    {
      var tab := tabs[k];
      assert tab in tabs && tab !in gone;
      tab.workspaceId := workspace;
      assert OnlyTab(k, old(Values(tabs))[k].(workspace := workspace));
    }

    /** The tab of a session: the one it has, or one it may take over, or a new one. */
    method ObtainForSession(session: string, reuse: bool, workspace: Given) returns (id: string)
      requires Valid()
      modifies this`tabs, this`gone, this`repr, this`instanceCounter, this`nextSerial, repr
      ensures Valid() && (Contents(), id) == CreateForSession(old(Contents()), session, reuse, workspace)
    {
      hide Searched, FoundId, PickReusable, CreateTab, BindTab, Index, Numbered, Apart, Keyed;
      var ws := if workspace.Given? then workspace.value else None;
      var existing := GetBoundForSession(session);
      if existing.Some? && existing.value != "" {
        id := existing.value;
        if workspace.Given? {
          var k := FindTab(id);
          if k < |tabs| {
            SetWorkspace(k, workspace.value);
          }
        }
        return;
      }
      if reuse {
        var k := FindReusableUnboundInstance(ws);
        if k < |tabs| {
          id := tabs[k].id;
          assert forall j :: 0 <= j < |tabs| ==> tabs[j] in tabs;
          BindSession(id, session, Given(ws));
          return;
        }
      }
      id := CreateInstance("", Session, Some(session), ws);
    }

    /** Agent control of a session's tab fills in a workspace it does not have. */
    method SetAgentControl(session: string, workspace: Given)
      requires Valid()
      modifies repr
      ensures Valid() && Contents() == Controlled(old(Contents()), session, workspace)
    {
      hide Numbered, Apart, Keyed;
      ghost var all := Values(tabs);
      var k := 0;
      while k < |tabs| && tabs[k].boundSessionId != Some(session)
        invariant k <= |tabs| && forall j :: 0 <= j < k ==> all[j].bound != Some(session)
      {
        k := k + 1;
      }
      BoundIndexIs(all, session, k);
      if k < |tabs| && workspace.Given? && tabs[k].workspaceId.None? {
        SetWorkspace(k, workspace.value);
      }
    }

    /** Open a sibling of a tab, which may have left the table. */
    method OpenInNewTab(origin: Tab) returns (id: string)
      requires Valid() && (origin in tabs || origin in gone)
      modifies this`tabs, this`repr, this`instanceCounter, this`nextSerial
      ensures Valid() && Contents() == OpenSibling(old(Contents()), origin.serial)
    {
      hide CreateTab, Numbered, Apart, Keyed, SerialIndex;
      Position(origin);
      id := CreateInstance("", origin.ownerType, origin.ownerSessionId, origin.workspaceId);
    }
  }

  lemma BoundIndexIs(all: seq<Inst>, session: string, k: nat)
    requires k <= |all| && (k < |all| ==> all[k].bound == Some(session))
    requires forall j :: 0 <= j < k ==> all[j].bound != Some(session)
    ensures BoundIndex(all, session) == k
  {
  }

  lemma ReusableMeans(tab: Tab, workspace: Option<string>)
    ensures Reusable(tab.Value(), workspace) ==
            (tab.boundSessionId.None? && tab.ownerType == Manual && (tab.workspaceId.None? || tab.workspaceId == workspace))
    ensures tab.Value().id == tab.id
  {
  }

  lemma PickIs(s: State, workspace: Option<string>)
    ensures var watched := ReusableIndex(s, s.table, workspace, true);
            PickReusable(s, workspace) ==
            if watched < |s.table| then watched else ReusableIndex(s, s.table, workspace, false)
  {
  }

  lemma ReusableNext(s: State, all: seq<Inst>, k: nat, workspace: Option<string>, watched: bool)
    requires k < |all|
    ensures ReusableIndex(s, all[k..], workspace, watched) ==
            if Reusable(all[k], workspace) && (watched ==> Watched(s.docks, s.live, all[k].id)) then 0
            else 1 + ReusableIndex(s, all[k + 1..], workspace, watched)
  {
    hide Watched, Reusable;
    assert all[k..][1..] == all[k + 1..] && all[k..][0] == all[k];
  }

  lemma NoneReusable(s: State, workspace: Option<string>)
    ensures ReusableIndex(s, [], workspace, true) == 0 && ReusableIndex(s, [], workspace, false) == 0
  {
  }

  lemma WatchedIs(docks: seq<Dock>, live: set<nat>, ids: set<string>)
    requires ids == set d | d in docks && Paintable(d, live) && d.active.Some? && d.active.value != "" :: d.active.value
    ensures forall id :: Watched(docks, live, id) <==> id in ids
  {
    hide Paintable;
    forall id | id in ids ensures Watched(docks, live, id) {
      var dock :| dock in docks && Paintable(dock, live) && dock.active == Some(id) && id != "";
      var d :| 0 <= d < |docks| && docks[d] == dock;
    }
  }
}
