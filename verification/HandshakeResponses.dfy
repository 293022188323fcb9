/** Which responses reach a waiter, over every run of the handshakes. */
module HandshakeResponses {
  import opened Options
  import opened Text
  import opened Handshakes

  predicate Bears(w: Waiter, kind: Kind, id: string) {
    w.kind == kind && w.requestId == id
  }

  /** Waiter `k` was asked for under this id, and none of its kind was after it. */
  ghost predicate LastAsked(waiters: seq<Waiter>, kind: Kind, id: string, k: nat) {
    k < |waiters| && Bears(waiters[k], kind, id) && forall j :: k < j < |waiters| ==> !Bears(waiters[j], kind, id)
  }

  /** A table leads to exactly the waiters asked for last that are not settled. */
  ghost predicate Tracks(pending: map<string, nat>, kind: Kind, waiters: seq<Waiter>) {
    && (forall id :: id in pending ==> LastAsked(waiters, kind, id, pending[id]))
    && (forall id, k: nat :: LastAsked(waiters, kind, id, k) && waiters[k].settled == [] ==> id in pending && pending[id] == k)
  }

  ghost predicate Tracked(s: State) {
    Tracks(s.approvals, Approval, s.waiters) && Tracks(s.executions, Execution, s.waiters)
  }

  lemma LastAskedOnce(waiters: seq<Waiter>, kind: Kind, id: string, j: nat, k: nat)
    requires LastAsked(waiters, kind, id, j) && LastAsked(waiters, kind, id, k)
    ensures j == k
  {
  }

  /** A waiter added, of this kind or of the other. */
  lemma TracksAdd(pending: map<string, nat>, kind: Kind, waiters: seq<Waiter>, w: Waiter)
    requires Tracks(pending, kind, waiters) && w.settled == []
    ensures var after := if w.kind == kind then pending[w.requestId := |waiters|] else pending;
      Tracks(after, kind, waiters + [w])
  {
    var after := if w.kind == kind then pending[w.requestId := |waiters|] else pending;
    var more := waiters + [w];
    forall id | id in after ensures LastAsked(more, kind, id, after[id]) {
      if after[id] < |waiters| {
        assert LastAsked(waiters, kind, id, pending[id]);
      }
    }
    forall id, k: nat | LastAsked(more, kind, id, k) && more[k].settled == [] ensures id in after && after[id] == k {
      if k < |waiters| {
        assert !Bears(more[|waiters|], kind, id);
        assert forall j :: k < j < |waiters| ==> more[j] == waiters[j];
        assert LastAsked(waiters, kind, id, k);
      }
    }
  }

  /** Waiters keep their kinds and ids while some are settled, and the table drops exactly those. */
  lemma TracksSettled(pending: map<string, nat>, after: map<string, nat>, kind: Kind, a: seq<Waiter>, b: seq<Waiter>)
    requires Tracks(pending, kind, a)
    requires |a| == |b| && forall k :: 0 <= k < |a| ==> b[k].kind == a[k].kind && b[k].requestId == a[k].requestId
    requires forall id :: id in after ==> id in pending && after[id] == pending[id]
    requires forall k :: 0 <= k < |b| && b[k].settled == [] ==> a[k].settled == []
    requires forall id :: id in pending && id !in after ==> pending[id] < |b| && b[pending[id]].settled != []
    ensures Tracks(after, kind, b)
  {
    forall id, k: nat ensures LastAsked(b, kind, id, k) <==> LastAsked(a, kind, id, k) {
      assert k < |a| ==> (Bears(b[k], kind, id) <==> Bears(a[k], kind, id));
      assert forall j :: k < j < |a| ==> (Bears(b[j], kind, id) <==> Bears(a[j], kind, id));
    }
  }

  lemma ResponseTracks(s: State, op: Op)
    requires Valid(s) && Tracked(s) && (op.ToolResponse? || op.ApprovalResponse?)
    ensures Tracked(Apply(s, op))
  {
    hide Tracks, CachePoints, CallsPoint, AllWellSettled, Settle;
    var t := Apply(s, op);
    if op.ToolResponse? && op.requestId in s.executions {
      SettleOne(s.waiters, s.executions[op.requestId], Result(op.content, op.isError));
      TracksSettled(s.approvals, t.approvals, Approval, s.waiters, t.waiters);
      TracksSettled(s.executions, t.executions, Execution, s.waiters, t.waiters);
    } else if op.ApprovalResponse? && op.requestId in s.approvals {
      SettleOne(s.waiters, s.approvals[op.requestId], Answer(op.action, op.input, op.reason));
      TracksSettled(s.approvals, t.approvals, Approval, s.waiters, t.waiters);
      TracksSettled(s.executions, t.executions, Execution, s.waiters, t.waiters);
    }
  }

  lemma SettleOne(waiters: seq<Waiter>, k: nat, x: Settlement)
    requires k < |waiters|
    ensures var w := Settle(waiters, k, x);
      && |w| == |waiters| && w[k].settled != []
      && (forall j :: 0 <= j < |w| ==> w[j].kind == waiters[j].kind && w[j].requestId == waiters[j].requestId)
      && (forall j :: 0 <= j < |w| && j != k ==> w[j] == waiters[j])
  {
  }

  lemma EndTracks(s: State, op: Op)
    requires Valid(s) && Tracked(s) && (op.Abort? || op.Shutdown?)
    ensures Tracked(Apply(s, op))
  {
    hide Tracks, CachePoints, CallsPoint, AllWellSettled;
    var t := Apply(s, op);
    TracksSettled(s.approvals, t.approvals, Approval, s.waiters, t.waiters);
    TracksSettled(s.executions, t.executions, Execution, s.waiters, t.waiters);
  }

  lemma AddTracks(s: State, t: State, w: Waiter)
    requires Tracked(s) && w.settled == [] && t.waiters == s.waiters + [w]
    requires t.approvals == if w.kind == Approval then s.approvals[w.requestId := |s.waiters|] else s.approvals
    requires t.executions == if w.kind == Execution then s.executions[w.requestId := |s.waiters|] else s.executions
    ensures Tracked(t)
  {
    hide Tracks;
    TracksAdd(s.approvals, Approval, s.waiters, w);
    TracksAdd(s.executions, Execution, s.waiters, w);
  }

  lemma {:induction false} PrefetchTracks(s: State, items: seq<Item>)
    requires Tracked(s) && forall item :: item in items ==> item.name.Some?
    ensures Tracked(PrefetchAll(s, items))
  {
    hide Tracked;
    if items != [] {
      var u, item := PrefetchAll(s, Init(items)), Last(items);
      PrefetchTracks(s, Init(items));
      AddTracks(u, Prefetch(u, item), Waiter(Execution, PrefetchId(item), []));
    }
  }

  lemma ContinueTracks(s: State, c: nat, requestId: string)
    requires Tracked(s)
    ensures Tracked(Continue(s, c, requestId))
  {
    hide Tracks, Blocks, Approved, BlockReason, Outcome;
    var t := Continue(s, c, requestId);
    if t.waiters != s.waiters || t.executions != s.executions {
      AddTracks(s, t, Waiter(Execution, requestId, []));
    }
  }

  lemma ApplyTracks(s: State, op: Op)
    requires Valid(s) && Tracked(s)
    ensures Tracked(Apply(s, op))
  {
    hide Valid, Tracks, Continue, PrefetchAll, Settle, SettleAll;
    match op
    case Execute(proxy, toolCallId, _, _, id) =>
      if !proxy || toolCallId !in s.cache { AddTracks(s, Apply(s, op), Waiter(Approval, id, [])); }
    case Resume(c, requestId) => ContinueTracks(s, c, requestId);
    case MessageEnd(items) => PrefetchTracks(s, Prefetchables(items));
    case Abort => EndTracks(s, op);
    case Shutdown => EndTracks(s, op);
    case _ => ResponseTracks(s, op);
  }

  lemma {:induction false} RunTracks(ops: seq<Op>)
    ensures Tracked(Run(INITIAL, ops)) && Valid(Run(INITIAL, ops))
  {
    NothingTracked();
    hide Tracked, Valid, Apply;
    if ops != [] {
      RunTracks(Init(ops));
      ApplyTracks(Run(INITIAL, Init(ops)), Last(ops));
      ApplyValid(Run(INITIAL, Init(ops)), Last(ops));
    }
  }

  lemma NothingTracked()
    ensures Tracked(INITIAL) && Valid(INITIAL)
  {
  }

  predicate IsResponse(op: Op) {
    op.ToolResponse? || op.ApprovalResponse?
  }

  function KindOf(op: Op): Kind
    requires IsResponse(op)
  {
    if op.ToolResponse? then Execution else Approval
  }

  /** Whatever happened: a response changes nothing exactly when the waiter asked for last under its id is settled. */
  lemma ResponseCounts(ops: seq<Op>, response: Op, k: nat)
    requires IsResponse(response)
    requires LastAsked(Run(INITIAL, ops).waiters, KindOf(response), response.requestId, k)
    ensures var s := Run(INITIAL, ops); Apply(s, response) == s <==> s.waiters[k].settled != []
  {
    hide Settle, CachePoints, CallsPoint, AllWellSettled, LastAsked, Run;
    RunTracks(ops);
    var s := Run(INITIAL, ops);
    var pending := if response.ToolResponse? then s.executions else s.approvals;
    if response.requestId in pending {
      LastAskedOnce(s.waiters, KindOf(response), response.requestId, k, pending[response.requestId]);
      assert response.requestId !in pending - {response.requestId};
    }
  }

  /** A response under an id that was never asked for changes nothing. */
  lemma StrangeResponsesChangeNothing(ops: seq<Op>, response: Op)
    requires IsResponse(response)
    requires forall k :: 0 <= k < |Run(INITIAL, ops).waiters| ==> !Bears(Run(INITIAL, ops).waiters[k], KindOf(response), response.requestId)
    ensures Apply(Run(INITIAL, ops), response) == Run(INITIAL, ops)
  {
    hide Settle, CachePoints, CallsPoint, AllWellSettled, Run;
    RunTracks(ops);
  }

  /**
   * Once a waiter is settled, be it by a response, an abort or a shutdown, every later response under its id changes
   * nothing, whatever happens in between, for as long as no new waiter of its kind is asked for under that id.
   */
  lemma LateResponsesChangeNothing(ops: seq<Op>, more: seq<Op>, k: nat, response: Op)
    requires IsResponse(response)
    requires k < |Run(INITIAL, ops).waiters| && Run(INITIAL, ops).waiters[k].settled != []
    requires LastAsked(Run(INITIAL, ops + more).waiters, KindOf(response), response.requestId, k)
    ensures Apply(Run(INITIAL, ops + more), response) == Run(INITIAL, ops + more)
  {
    hide LastAsked, Apply, Valid;
    RunTracks(ops);
    RunLater(Run(INITIAL, ops), more);
    RunAppend(INITIAL, ops, more);
    assert SameWaiter(Run(INITIAL, ops).waiters[k], Run(INITIAL, ops + more).waiters[k]);
    ResponseCounts(ops + more, response, k);
  }
}
