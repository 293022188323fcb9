/** The approval and execution handshakes between the agent server and the main process, and the prefetch cache. */
module Handshakes {
  import opened Options
  import opened Text
  import opened Json
  import ToolMetadata

  /** What settles a waiter. */
  datatype Settlement =
    | Answer(action: string, input: Option<Fields>, reason: Option<string>)
    | Result(content: string, isError: bool)

  datatype Kind = Approval | Execution

  /** A promise handed out under a request id, with every value it has been settled with. */
  datatype Waiter = Waiter(kind: Kind, requestId: string, settled: seq<Settlement>)

  /** How far a tool call has come. */
  datatype Phase =
    | Asking
    | Executing(waiter: nat)
    | Running(input: Fields)
    | Returned(waiter: nat, result: Settlement)
    | Thrown(reason: string)

  /** A call of a tool: a proxy runs in the main process, any other tool here. `approval` is the waiter of its approval, if it asked. */
  datatype Call = Call(
    proxy: bool, toolCallId: string, toolName: string, input: Fields, approval: Option<nat>, phase: Phase)

  /** `caller` is the call that sent an execute request; a prefetch has none. */
  datatype Message =
    | PreToolUse(requestId: string, toolName: string, toolCallId: Option<string>, input: Fields)
    | ToolExecute(requestId: string, toolName: string, args: Fields, caller: Option<nat>)

  datatype State = State(
    approvals: map<string, nat>, executions: map<string, nat>, cache: map<string, nat>,
    waiters: seq<Waiter>, calls: seq<Call>, sent: seq<Message>)

  const INITIAL := State(map[], map[], map[], [], [], [])

  /** One item of an assistant message. */
  datatype Item = Item(kind: string, id: string, name: Option<string>, args: Option<Fields>)

  datatype Op =
    | Execute(proxy: bool, toolCallId: string, toolName: string, params: Fields, requestId: string)
    | Resume(call: nat, requestId: string)
    | MessageEnd(items: seq<Item>)
    | ToolResponse(requestId: string, content: string, isError: bool)
    | ApprovalResponse(requestId: string, action: string, input: Option<Fields>, reason: Option<string>)
    | Abort
    | Shutdown

  // ---------------------------------------------------------------- the steps

  function Settle(waiters: seq<Waiter>, k: nat, x: Settlement): seq<Waiter>
  {
    if k < |waiters| then waiters[k := waiters[k].(settled := waiters[k].settled + [x])] else waiters
  }

  function SettleAll(waiters: seq<Waiter>, pending: map<string, nat>, x: Settlement): (r: seq<Waiter>)
    ensures |r| == |waiters|
  {
    seq(|waiters|, k requires 0 <= k < |waiters| =>
      if k in pending.Values then waiters[k].(settled := waiters[k].settled + [x]) else waiters[k])
  }

  function StripPrefix(name: string): string {
    if StartsWith(name, "mcp__session__") then name[|"mcp__session__"|..]
    else if StartsWith(name, "session__") then name[|"session__"|..]
    else name
  }

  predicate Prefetchable(item: Item) {
    item.kind == "toolCall" && item.name.Some? && item.name.value != "" && StripPrefix(item.name.value) == "call_llm"
  }

  function Prefetchables(items: seq<Item>): (r: seq<Item>)
    ensures forall item :: item in r ==> item in items && Prefetchable(item)
  {
    if items == [] then []
    else if Prefetchable(Last(items)) then Prefetchables(Init(items)) + [Last(items)]
    else Prefetchables(Init(items))
  }

  function PrefetchId(item: Item): string {
    "prefetch-" + item.id
  }

  function Prefetch(s: State, item: Item): State
    requires item.name.Some?
  {
    var k := |s.waiters|;
    s.(waiters := s.waiters + [Waiter(Execution, PrefetchId(item), [])],
       executions := s.executions[PrefetchId(item) := k],
       cache := s.cache[item.id := k],
       sent := s.sent + [ToolExecute(PrefetchId(item), item.name.value, item.args.GetOr([]), None)])
  }

  function PrefetchAll(s: State, items: seq<Item>): State
    requires forall item :: item in items ==> item.name.Some?
  {
    if items == [] then s else Prefetch(PrefetchAll(s, Init(items)), Last(items))
  }

  function NonEmpty(s: string): Option<string> {
    if s == "" then None else Some(s)
  }

  /** Ask the main process whether a tool may run. */
  function Ask(s: State, op: Op): State
    requires op.Execute?
  {
    var k := |s.waiters|;
    s.(waiters := s.waiters + [Waiter(Approval, op.requestId, [])],
       approvals := s.approvals[op.requestId := k],
       calls := s.calls + [Call(op.proxy, op.toolCallId, op.toolName, op.params, Some(k), Asking)],
       sent := s.sent + [PreToolUse(op.requestId, op.toolName, NonEmpty(op.toolCallId), op.params)])
  }

  /** Take the result of a prefetch instead of asking. */
  function Hit(s: State, op: Op): State
    requires op.Execute? && op.toolCallId in s.cache
  {
    s.(cache := s.cache - {op.toolCallId},
       calls := s.calls + [Call(op.proxy, op.toolCallId, op.toolName, op.params, None, Executing(s.cache[op.toolCallId]))])
  }

  predicate Blocks(a: Settlement) {
    a.Answer? && a.action == "block"
  }

  /** The input the tool runs with. */
  function Approved(a: Settlement, input: Fields): Fields {
    if a.Answer? && a.action == "modify" && a.input.Some? then a.input.value else input
  }

  function BlockReason(a: Settlement, toolName: string): string {
    if a.Answer? && a.reason.Some? && a.reason.value != "" then a.reason.value
    else "Tool \"" + toolName + "\" is not allowed"
  }

  function SendExecute(s: State, c: nat, args: Fields, requestId: string): State
    requires c < |s.calls|
  {
    var k := |s.waiters|;
    s.(waiters := s.waiters + [Waiter(Execution, requestId, [])],
       executions := s.executions[requestId := k],
       calls := s.calls[c := s.calls[c].(phase := Executing(k))],
       sent := s.sent + [ToolExecute(requestId, s.calls[c].toolName, args, Some(c))])
  }

  function Answered(s: State, c: nat, a: Settlement, requestId: string): State
    requires c < |s.calls|
  {
    var call := s.calls[c];
    if Blocks(a) then s.(calls := s.calls[c := call.(phase := Thrown(BlockReason(a, call.toolName)))])
    else if call.proxy then SendExecute(s, c, Approved(a, call.input), requestId)
    else s.(calls := s.calls[c := call.(phase := Running(ToolMetadata.Clean(Approved(a, call.input))))])
  }

  /** The value a waiter has been settled with first. */
  function Outcome(s: State, k: nat): Option<Settlement> {
    if k < |s.waiters| && s.waiters[k].settled != [] then Some(s.waiters[k].settled[0]) else None
  }

  /** Let a call go on if what it waits for has been settled. */
  function Continue(s: State, c: nat, requestId: string): State {
    if c >= |s.calls| then s
    else
      var call := s.calls[c];
      match call.phase
      case Asking =>
        var a := Outcome(s, call.approval.GetOr(|s.waiters|));
        if a.Some? then Answered(s, c, a.value, requestId) else s
      case Executing(k) =>
        var r := Outcome(s, k);
        if r.Some? then s.(calls := s.calls[c := call.(phase := Returned(k, r.value))]) else s
      case _ => s
  }

  const ABORTED := Answer("block", None, Some("Aborted"))
  const SHUTTING_DOWN := Answer("block", None, Some("Server shutting down"))
  const SHUT_RESULT := Result("Server shutting down", true)

  function Apply(s: State, op: Op): State {
    match op
    case Execute(proxy, toolCallId, _, _, _) => if proxy && toolCallId in s.cache then Hit(s, op) else Ask(s, op)
    case Resume(c, requestId) => Continue(s, c, requestId)
    case MessageEnd(items) =>
      var calls := Prefetchables(items);
      if |calls| >= 2 then PrefetchAll(s, calls) else s
    case ToolResponse(id, content, isError) =>
      if id in s.executions
      then s.(executions := s.executions - {id},
              waiters := Settle(s.waiters, s.executions[id], Result(content, isError)))
      else s
    case ApprovalResponse(id, action, input, reason) =>
      if id in s.approvals
      then s.(approvals := s.approvals - {id},
              waiters := Settle(s.waiters, s.approvals[id], Answer(action, input, reason)))
      else s
    case Abort =>
      s.(waiters := SettleAll(s.waiters, s.approvals, ABORTED), approvals := map[], cache := map[])
    case Shutdown =>
      var w := SettleAll(s.waiters, s.approvals, SHUTTING_DOWN);
      s.(waiters := SettleAll(w, s.executions, SHUT_RESULT), approvals := map[], executions := map[])
  }

  // ---------------------------------------------------------------- every waiter is settled at most once

  /** Every pending id leads to an unsettled waiter of its own. */
  ghost predicate Pending(pending: map<string, nat>, kind: Kind, waiters: seq<Waiter>) {
    forall id :: id in pending ==> pending[id] < |waiters| && waiters[pending[id]] == Waiter(kind, id, [])
  }

  predicate WellSettled(w: Waiter) {
    w.settled == [] || (|w.settled| == 1 && (if w.kind == Approval then w.settled[0].Answer? else w.settled[0].Result?))
  }

  predicate Points(waiters: seq<Waiter>, k: nat, kind: Kind) {
    k < |waiters| && waiters[k].kind == kind
  }

  predicate CallPoints(waiters: seq<Waiter>, call: Call) {
    && (call.approval.Some? ==> Points(waiters, call.approval.value, Approval))
    && (call.phase.Asking? ==> call.approval.Some?)
    && (call.phase.Executing? ==> Points(waiters, call.phase.waiter, Execution))
  }

  ghost predicate Valid(s: State) {
    && Pending(s.approvals, Approval, s.waiters)
    && Pending(s.executions, Execution, s.waiters)
    && AllWellSettled(s.waiters)
    && CachePoints(s.cache, s.waiters)
    && CallsPoint(s.calls, s.waiters)
  }

  lemma PendingSettle(pending: map<string, nat>, kind: Kind, waiters: seq<Waiter>, id: string, x: Settlement)
    requires Pending(pending, kind, waiters) && id in pending
    requires if kind == Approval then x.Answer? else x.Result?
    ensures Pending(pending - {id}, kind, Settle(waiters, pending[id], x))
    ensures WellSettled(Settle(waiters, pending[id], x)[pending[id]])
  {
  }

  lemma SettleElse(pending: map<string, nat>, kind: Kind, waiters: seq<Waiter>, k: nat, x: Settlement)
    requires Pending(pending, kind, waiters) && k < |waiters| && waiters[k].kind != kind
    ensures Pending(pending, kind, Settle(waiters, k, x))
  {
  }

  /** Settling waiters, or adding new ones, leaves every pointer good. */
  ghost predicate Grows(a: seq<Waiter>, b: seq<Waiter>) {
    |a| <= |b| && forall k :: 0 <= k < |a| ==> b[k].kind == a[k].kind && b[k].requestId == a[k].requestId
  }

  ghost predicate AllWellSettled(waiters: seq<Waiter>) {
    forall k :: 0 <= k < |waiters| ==> WellSettled(waiters[k])
  }

  ghost predicate CachePoints(cache: map<string, nat>, waiters: seq<Waiter>) {
    forall id :: id in cache ==>
      Points(waiters, cache[id], Execution) && waiters[cache[id]].requestId == "prefetch-" + id
  }

  ghost predicate CallsPoint(calls: seq<Call>, waiters: seq<Waiter>) {
    forall c :: 0 <= c < |calls| ==> CallPoints(waiters, calls[c])
  }

  lemma PointersGrow(s: State, waiters: seq<Waiter>)
    requires Grows(s.waiters, waiters) && CachePoints(s.cache, s.waiters) && CallsPoint(s.calls, s.waiters)
    ensures CachePoints(s.cache, waiters) && CallsPoint(s.calls, waiters)
  {
    forall c | 0 <= c < |s.calls| ensures CallPoints(waiters, s.calls[c]) {
      assert CallPoints(s.waiters, s.calls[c]);
    }
  }

  lemma PendingAdd(pending: map<string, nat>, kind: Kind, waiters: seq<Waiter>, id: string)
    requires Pending(pending, kind, waiters)
    ensures Pending(pending[id := |waiters|], kind, waiters + [Waiter(kind, id, [])])
  {
  }

  lemma PendingKeep(pending: map<string, nat>, kind: Kind, waiters: seq<Waiter>, w: Waiter)
    requires Pending(pending, kind, waiters)
    ensures Pending(pending, kind, waiters + [w])
  {
  }

  lemma AllPending(pending: map<string, nat>, kind: Kind, waiters: seq<Waiter>, x: Settlement)
    requires Pending(pending, kind, waiters) && AllWellSettled(waiters)
    requires if kind == Approval then x.Answer? else x.Result?
    ensures var w := SettleAll(waiters, pending, x);
            && AllWellSettled(w) && Grows(waiters, w)
            && (forall k :: 0 <= k < |w| && (waiters[k].kind != kind || waiters[k].settled != []) ==> w[k] == waiters[k])
  {
  }

  lemma PendingOther(pending: map<string, nat>, kind: Kind, waiters: seq<Waiter>, w: seq<Waiter>)
    requires Pending(pending, kind, waiters)
    requires |w| == |waiters| && forall k :: 0 <= k < |w| && waiters[k].kind == kind ==> w[k] == waiters[k]
    ensures Pending(pending, kind, w)
  {
  }

  lemma PrefetchValid(s: State, item: Item)
    requires Valid(s) && item.name.Some?
    ensures Valid(Prefetch(s, item))
  {
    hide Pending, CachePoints, CallsPoint;
    var w := s.waiters + [Waiter(Execution, PrefetchId(item), [])];
    PendingAdd(s.executions, Execution, s.waiters, PrefetchId(item));
    PendingKeep(s.approvals, Approval, s.waiters, Waiter(Execution, PrefetchId(item), []));
    PointersGrow(s, w);
    CacheAdd(s.cache, w, item.id, |s.waiters|);
  }

  lemma CacheAdd(cache: map<string, nat>, waiters: seq<Waiter>, id: string, k: nat)
    requires CachePoints(cache, waiters)
    requires Points(waiters, k, Execution) && waiters[k].requestId == "prefetch-" + id
    ensures CachePoints(cache[id := k], waiters)
  {
  }

  lemma {:induction false} PrefetchAllValid(s: State, items: seq<Item>)
    requires Valid(s) && forall item :: item in items ==> item.name.Some?
    ensures Valid(PrefetchAll(s, items))
  {
    hide Valid, Prefetch;
    if items != [] {
      PrefetchAllValid(s, Init(items));
      PrefetchValid(PrefetchAll(s, Init(items)), Last(items));
    }
  }

  lemma AskValid(s: State, op: Op)
    requires Valid(s) && op.Execute?
    ensures Valid(Ask(s, op))
  {
    hide Pending, CachePoints;
    var w := s.waiters + [Waiter(Approval, op.requestId, [])];
    PendingAdd(s.approvals, Approval, s.waiters, op.requestId);
    PendingKeep(s.executions, Execution, s.waiters, Waiter(Approval, op.requestId, []));
    PointersGrow(s, w);
  }

  lemma HitValid(s: State, op: Op)
    requires Valid(s) && op.Execute? && op.toolCallId in s.cache
    ensures Valid(Hit(s, op))
  {
  }

  lemma AnsweredValid(s: State, c: nat, a: Settlement, requestId: string)
    requires Valid(s) && c < |s.calls|
    ensures Valid(Answered(s, c, a, requestId))
  {
    hide Pending, CachePoints, AllWellSettled;
    assert CallPoints(s.waiters, s.calls[c]);
    if !Blocks(a) && s.calls[c].proxy {
      var w := s.waiters + [Waiter(Execution, requestId, [])];
      PendingAdd(s.executions, Execution, s.waiters, requestId);
      PendingKeep(s.approvals, Approval, s.waiters, Waiter(Execution, requestId, []));
      PointersGrow(s, w);
      AddedWell(s.waiters, Waiter(Execution, requestId, []));
    }
  }

  lemma AddedWell(waiters: seq<Waiter>, w: Waiter)
    requires AllWellSettled(waiters) && w.settled == []
    ensures AllWellSettled(waiters + [w])
  {
  }

  lemma ContinueValid(s: State, c: nat, requestId: string)
    requires Valid(s)
    ensures Valid(Continue(s, c, requestId))
  {
    hide Pending, CachePoints, AllWellSettled, Answered;
    if c < |s.calls| && s.calls[c].phase.Asking? {
      var a := Outcome(s, s.calls[c].approval.GetOr(|s.waiters|));
      if a.Some? {
        AnsweredValid(s, c, a.value, requestId);
      }
    }
  }

  lemma ToolResponseValid(s: State, id: string, x: Settlement)
    requires Valid(s) && id in s.executions && x.Result?
    ensures Valid(s.(executions := s.executions - {id}, waiters := Settle(s.waiters, s.executions[id], x)))
  {
    hide CachePoints, CallsPoint;
    PendingSettle(s.executions, Execution, s.waiters, id, x);
    SettleElse(s.approvals, Approval, s.waiters, s.executions[id], x);
    PointersGrow(s, Settle(s.waiters, s.executions[id], x));
  }

  lemma ApprovalResponseValid(s: State, id: string, x: Settlement)
    requires Valid(s) && id in s.approvals && x.Answer?
    ensures Valid(s.(approvals := s.approvals - {id}, waiters := Settle(s.waiters, s.approvals[id], x)))
  {
    hide CachePoints, CallsPoint;
    PendingSettle(s.approvals, Approval, s.waiters, id, x);
    SettleElse(s.executions, Execution, s.waiters, s.approvals[id], x);
    PointersGrow(s, Settle(s.waiters, s.approvals[id], x));
  }

  lemma AbortValid(s: State)
    requires Valid(s)
    ensures Valid(Apply(s, Abort))
  {
    hide CachePoints, CallsPoint, AllWellSettled, SettleAll;
    AllPending(s.approvals, Approval, s.waiters, ABORTED);
    var w := SettleAll(s.waiters, s.approvals, ABORTED);
    PendingOther(s.executions, Execution, s.waiters, w);
    PointersGrow(s, w);
    NothingCached(w);
  }

  lemma NothingCached(waiters: seq<Waiter>)
    ensures CachePoints(map[], waiters)
  {
  }

  lemma ShutdownValid(s: State)
    requires Valid(s)
    ensures Valid(Apply(s, Shutdown))
  {
    hide CachePoints, CallsPoint, AllWellSettled, SettleAll;
    AllPending(s.approvals, Approval, s.waiters, SHUTTING_DOWN);
    var w := SettleAll(s.waiters, s.approvals, SHUTTING_DOWN);
    PendingOther(s.executions, Execution, s.waiters, w);
    PointersGrow(s, w);
    AllPending(s.executions, Execution, w, SHUT_RESULT);
    PointersGrow(s.(waiters := w), SettleAll(w, s.executions, SHUT_RESULT));
  }

  lemma ApplyValid(s: State, op: Op)
    requires Valid(s)
    ensures Valid(Apply(s, op))
  {
    hide Valid, Ask, Hit, Continue, PrefetchAll, Settle, SettleAll, Prefetchables;
    match op
    case Execute(proxy, toolCallId, _, _, _) =>
      if proxy && toolCallId in s.cache { HitValid(s, op); } else { AskValid(s, op); }
    case Resume(c, requestId) => ContinueValid(s, c, requestId);
    case MessageEnd(items) => PrefetchAllValid(s, Prefetchables(items));
    case ToolResponse(id, content, isError) =>
      if id in s.executions { ToolResponseValid(s, id, Result(content, isError)); }
    case ApprovalResponse(id, action, input, reason) =>
      if id in s.approvals { ApprovalResponseValid(s, id, Answer(action, input, reason)); }
    case Abort => AbortValid(s);
    case Shutdown => ShutdownValid(s);
  }

  function Run(s: State, ops: seq<Op>): State {
    if ops == [] then s else Apply(Run(s, Init(ops)), Last(ops))
  }

  lemma {:induction false} RunValid(s: State, ops: seq<Op>)
    requires Valid(s)
    ensures Valid(Run(s, ops))
  {
    hide Valid, Apply;
    if ops != [] {
      RunValid(s, Init(ops));
      ApplyValid(Run(s, Init(ops)), Last(ops));
    }
  }

  /** Over every run, whatever the request ids: no waiter is settled twice, and the pending ones are unsettled. */
  lemma SettledAtMostOnce(ops: seq<Op>, k: nat)
    requires k < |Run(INITIAL, ops).waiters|
    ensures var s := Run(INITIAL, ops);
            && |s.waiters[k].settled| <= 1
            && (forall id :: id in s.approvals && s.approvals[id] == k ==> s.waiters[k].settled == [])
            && (forall id :: id in s.executions && s.executions[id] == k ==> s.waiters[k].settled == [])
  {
    RunValid(INITIAL, ops);
  }

  // ---------------------------------------------------------------- late responses, aborts and shutdowns

  /** Of two responses to one request only the first counts. */
  lemma DuplicatesChangeNothing(s: State, first: Op, second: Op)
    requires (first.ToolResponse? && second.ToolResponse?) || (first.ApprovalResponse? && second.ApprovalResponse?)
    requires first.requestId == second.requestId
    ensures Apply(Apply(s, first), second) == Apply(s, first)
  {
    hide Settle;
  }

  /** After an abort no approval is pending and nothing is prefetched: the pending ones were refused, everything else is as it was. */
  lemma AbortRefusesAll(s: State, k: nat)
    requires Valid(s) && k < |s.waiters|
    ensures var t := Apply(s, Abort);
            && t.approvals == map[] && t.cache == map[] && t.executions == s.executions
            && t.calls == s.calls && t.sent == s.sent && |t.waiters| == |s.waiters|
            && t.waiters[k].settled ==
               (if k in s.approvals.Values then [Answer("block", None, Some("Aborted"))] else s.waiters[k].settled)
  {
    hide CachePoints, CallsPoint, AllWellSettled;
  }

  /** After a shutdown nothing is pending: approvals were refused, executions ended in an error. */
  lemma ShutdownSettlesAll(s: State, k: nat)
    requires Valid(s) && k < |s.waiters|
    ensures var t := Apply(s, Shutdown);
            && t.approvals == map[] && t.executions == map[]
            && t.calls == s.calls && t.sent == s.sent && |t.waiters| == |s.waiters|
            && t.waiters[k].settled ==
               (if k in s.approvals.Values then [Answer("block", None, Some("Server shutting down"))]
                else if k in s.executions.Values then [Result("Server shutting down", true)]
                else s.waiters[k].settled)
  {
    hide CachePoints, CallsPoint, AllWellSettled;
    var w := SettleAll(s.waiters, s.approvals, SHUTTING_DOWN);
    if k in s.executions.Values && k in s.approvals.Values {
      assert false;
    }
  }

  // ---------------------------------------------------------------- no waiter is lost while request ids are fresh

  predicate Waits(s: State, k: nat)
    requires k < |s.waiters|
  {
    var pending := if s.waiters[k].kind == Approval then s.approvals else s.executions;
    s.waiters[k].requestId in pending && pending[s.waiters[k].requestId] == k
  }

  ghost predicate NoneLost(s: State) {
    forall k :: 0 <= k < |s.waiters| ==> s.waiters[k].settled != [] || Waits(s, k)
  }

  /** A new request does not reuse the id of a pending one. */
  predicate FreshItems(s: State, items: seq<Item>)
    requires forall item :: item in items ==> item.name.Some?
  {
    items == [] ||
    (FreshItems(s, Init(items)) && PrefetchId(Last(items)) !in PrefetchAll(s, Init(items)).executions)
  }

  predicate Fresh(s: State, op: Op) {
    match op
    case Execute(_, _, _, _, id) => id !in s.approvals
    case Resume(_, id) => id !in s.executions
    case MessageEnd(items) => FreshItems(s, Prefetchables(items))
    case _ => true
  }

  lemma PrefetchLoses(s: State, item: Item)
    requires NoneLost(s) && item.name.Some? && PrefetchId(item) !in s.executions
    ensures NoneLost(Prefetch(s, item))
  {
    var t := Prefetch(s, item);
    forall k | 0 <= k < |t.waiters| ensures t.waiters[k].settled != [] || Waits(t, k) {
      if k < |s.waiters| && s.waiters[k].settled == [] {
        assert Waits(s, k);
      }
    }
  }

  lemma {:induction false} PrefetchAllLoses(s: State, items: seq<Item>)
    requires NoneLost(s) && (forall item :: item in items ==> item.name.Some?) && FreshItems(s, items)
    ensures NoneLost(PrefetchAll(s, items))
  {
    hide NoneLost, Prefetch, PrefetchId;
    if items != [] {
      PrefetchAllLoses(s, Init(items));
      PrefetchLoses(PrefetchAll(s, Init(items)), Last(items));
    }
  }

  lemma AskLoses(s: State, op: Op)
    requires NoneLost(s) && op.Execute? && op.requestId !in s.approvals
    ensures NoneLost(Ask(s, op))
  {
    var t := Ask(s, op);
    forall k | 0 <= k < |t.waiters| ensures t.waiters[k].settled != [] || Waits(t, k) {
      if k < |s.waiters| && s.waiters[k].settled == [] {
        assert Waits(s, k);
      }
    }
  }

  lemma SameWaiting(s: State, t: State)
    requires NoneLost(s)
    requires t.waiters == s.waiters && t.approvals == s.approvals && t.executions == s.executions
    ensures NoneLost(t)
  {
    forall k | 0 <= k < |t.waiters| && t.waiters[k].settled == [] ensures Waits(t, k) {
      assert Waits(s, k);
    }
  }

  lemma ContinueLoses(s: State, c: nat, requestId: string)
    requires NoneLost(s) && requestId !in s.executions
    ensures NoneLost(Continue(s, c, requestId))
  {
    hide NoneLost, Blocks, Approved;
    var t := Continue(s, c, requestId);
    if t.waiters == s.waiters && t.approvals == s.approvals && t.executions == s.executions {
      SameWaiting(s, t);
    } else {
      AddedExecution(s, t, requestId);
    }
  }

  lemma AddedExecution(s: State, t: State, requestId: string)
    requires NoneLost(s) && requestId !in s.executions
    requires t.waiters == s.waiters + [Waiter(Execution, requestId, [])]
    requires t.approvals == s.approvals && t.executions == s.executions[requestId := |s.waiters|]
    ensures NoneLost(t)
  {
    forall k | 0 <= k < |t.waiters| ensures t.waiters[k].settled != [] || Waits(t, k) {
      if k < |s.waiters| && s.waiters[k].settled == [] {
        assert Waits(s, k);
      }
    }
  }

  lemma ResponseLoses(s: State, op: Op)
    requires Valid(s) && NoneLost(s) && (op.ToolResponse? || op.ApprovalResponse?)
    ensures NoneLost(Apply(s, op))
  {
    hide CachePoints, CallsPoint, AllWellSettled;
    var t := Apply(s, op);
    forall k | 0 <= k < |t.waiters| ensures t.waiters[k].settled != [] || Waits(t, k) {
      if s.waiters[k].settled == [] {
        assert Waits(s, k);
      }
    }
  }

  lemma EndLoses(s: State, op: Op)
    requires Valid(s) && NoneLost(s) && (op.Abort? || op.Shutdown?)
    ensures NoneLost(Apply(s, op))
  {
    hide CachePoints, CallsPoint, AllWellSettled;
    var t := Apply(s, op);
    forall k | 0 <= k < |t.waiters| ensures t.waiters[k].settled != [] || Waits(t, k) {
      if s.waiters[k].settled == [] {
        assert Waits(s, k);
        if op.Abort? { AbortRefusesAll(s, k); } else { ShutdownSettlesAll(s, k); }
        if s.waiters[k].kind == Approval {
          assert s.approvals[s.waiters[k].requestId] == k;
        } else {
          assert s.executions[s.waiters[k].requestId] == k;
        }
      }
    }
  }

  lemma ApplyLoses(s: State, op: Op)
    requires Valid(s) && NoneLost(s) && Fresh(s, op)
    ensures NoneLost(Apply(s, op))
  {
    hide Valid, NoneLost, Ask, Continue, PrefetchAll, FreshItems, Settle, SettleAll;
    match op
    case Execute(proxy, toolCallId, _, _, _) =>
      if proxy && toolCallId in s.cache { SameWaiting(s, Hit(s, op)); } else { AskLoses(s, op); }
    case Resume(c, requestId) => ContinueLoses(s, c, requestId);
    case MessageEnd(items) => PrefetchAllLoses(s, Prefetchables(items));
    case Abort => EndLoses(s, op);
    case Shutdown => EndLoses(s, op);
    case _ => ResponseLoses(s, op);
  }

  ghost predicate AllFresh(s: State, ops: seq<Op>) {
    ops == [] || (AllFresh(s, Init(ops)) && Fresh(Run(s, Init(ops)), Last(ops)))
  }

  /** With fresh request ids every waiter is settled or still waiting under its own id, over every run. */
  lemma {:induction false} NoWaiterIsLost(ops: seq<Op>)
    requires AllFresh(INITIAL, ops)
    ensures NoneLost(Run(INITIAL, ops))
  {
    hide NoneLost, Valid, Apply, Fresh;
    NothingLost();
    if ops != [] {
      NoWaiterIsLost(Init(ops));
      RunValid(INITIAL, Init(ops));
      ApplyLoses(Run(INITIAL, Init(ops)), Last(ops));
    }
  }

  lemma NothingLost()
    ensures NoneLost(INITIAL) && Valid(INITIAL)
  {
  }

  predicate Orphan(s: State, k: nat) {
    k < |s.waiters| && s.waiters[k].settled == [] && !Waits(s, k)
  }

  /** Pending tables lead elsewhere. */
  lemma OrphanIsUnreachable(s: State, k: nat)
    requires Valid(s) && Orphan(s, k)
    ensures k !in s.approvals.Values && k !in s.executions.Values
  {
    hide CachePoints, CallsPoint, AllWellSettled;
  }

  lemma OrphanContinue(s: State, c: nat, requestId: string, k: nat)
    requires Orphan(s, k)
    ensures Orphan(Continue(s, c, requestId), k)
  {
    hide Blocks, Approved, BlockReason, Outcome;
  }

  lemma OrphanSettle(s: State, op: Op, k: nat)
    requires Orphan(s, k) && k !in s.approvals.Values && k !in s.executions.Values
    requires !op.MessageEnd? && !op.Resume?
    ensures Orphan(Apply(s, op), k)
  {
  }

  lemma OrphanStep(s: State, op: Op, k: nat)
    requires Valid(s) && Orphan(s, k)
    ensures Orphan(Apply(s, op), k)
  {
    hide Valid, Orphan, PrefetchAll, Continue, Ask, Hit, Settle, SettleAll;
    OrphanIsUnreachable(s, k);
    match op
    case Resume(c, requestId) => OrphanContinue(s, c, requestId, k);
    case MessageEnd(items) => OrphanPrefetch(s, Prefetchables(items), k);
    case _ => OrphanSettle(s, op, k);
  }

  lemma {:induction false} OrphanPrefetch(s: State, items: seq<Item>, k: nat)
    requires Orphan(s, k) && forall item :: item in items ==> item.name.Some?
    ensures Orphan(PrefetchAll(s, items), k)
  {
    if items != [] {
      OrphanPrefetch(s, Init(items), k);
    }
  }

  /** A waiter whose id was reused before its response came is never settled, whatever happens later. */
  lemma {:induction false} OrphansWaitForever(s: State, ops: seq<Op>, k: nat)
    requires Valid(s) && Orphan(s, k)
    ensures Orphan(Run(s, ops), k)
  {
    hide Valid, Apply, Orphan;
    if ops != [] {
      OrphansWaitForever(s, Init(ops), k);
      RunValid(s, Init(ops));
      OrphanStep(Run(s, Init(ops)), Last(ops), k);
    }
  }

  /** Fresh ids are needed: asking again under a pending id orphans the earlier waiter. */
  lemma ReuseOrphans(s: State, op: Op)
    requires Valid(s) && op.Execute? && !op.proxy && op.requestId in s.approvals
    ensures Orphan(Apply(s, op), s.approvals[op.requestId])
  {
    hide CachePoints, CallsPoint, AllWellSettled;
  }

  // ---------------------------------------------------------------- nothing runs without an answer that allows it

  /** A call goes on from asking to executing or running, and from executing to its result; then it stays. */
  predicate Progress(a: Call, b: Call) {
    && a.(phase := b.phase) == b
    && match a.phase
       case Asking => true
       case Executing(k) => b.phase == a.phase || (b.phase.Returned? && b.phase.waiter == k)
       case _ => b.phase == a.phase
  }

  predicate SameWaiter(a: Waiter, b: Waiter) {
    a.kind == b.kind && a.requestId == b.requestId && (a.settled != [] ==> b.settled == a.settled)
  }

  /** What never changes: messages sent, settled waiters, the data of calls and finished calls. */
  ghost predicate Later(s: State, t: State) {
    && s.sent <= t.sent
    && |s.waiters| <= |t.waiters| && (forall k :: 0 <= k < |s.waiters| ==> SameWaiter(s.waiters[k], t.waiters[k]))
    && |s.calls| <= |t.calls| && (forall c :: 0 <= c < |s.calls| ==> Progress(s.calls[c], t.calls[c]))
  }

  lemma LaterTrans(a: State, b: State, c: State)
    requires Later(a, b) && Later(b, c)
    ensures Later(a, c)
  {
    forall k | 0 <= k < |a.waiters| ensures SameWaiter(a.waiters[k], c.waiters[k]) {
      assert SameWaiter(a.waiters[k], b.waiters[k]) && SameWaiter(b.waiters[k], c.waiters[k]);
    }
    forall k | 0 <= k < |a.calls| ensures Progress(a.calls[k], c.calls[k]) {
      assert Progress(a.calls[k], b.calls[k]) && Progress(b.calls[k], c.calls[k]);
    }
  }

  lemma {:induction false} PrefetchAllLater(s: State, items: seq<Item>)
    requires forall item :: item in items ==> item.name.Some?
    ensures Later(s, PrefetchAll(s, items)) && PrefetchAll(s, items).calls == s.calls
  {
    if items != [] {
      PrefetchAllLater(s, Init(items));
    }
  }

  lemma ContinueLater(s: State, c: nat, requestId: string)
    ensures Later(s, Continue(s, c, requestId))
  {
    hide Blocks, Approved, BlockReason, Outcome;
  }

  lemma ResponseLater(s: State, op: Op)
    requires Valid(s) && (op.ToolResponse? || op.ApprovalResponse?)
    ensures Later(s, Apply(s, op))
  {
    hide CachePoints, CallsPoint, AllWellSettled;
  }

  lemma EndLater(s: State, op: Op)
    requires Valid(s) && (op.Abort? || op.Shutdown?)
    ensures Later(s, Apply(s, op))
  {
    hide CachePoints, CallsPoint, AllWellSettled;
  }

  lemma ExecuteLater(s: State, op: Op)
    requires op.Execute?
    ensures Later(s, Apply(s, op))
  {
  }

  lemma ApplyLater(s: State, op: Op)
    requires Valid(s)
    ensures Later(s, Apply(s, op))
  {
    hide Valid, Later, PrefetchAll, Continue, Ask, Hit, Settle, SettleAll;
    match op
    case Execute(_, _, _, _, _) => ExecuteLater(s, op);
    case Resume(c, requestId) => ContinueLater(s, c, requestId);
    case MessageEnd(items) =>
      PrefetchAllLater(s, Prefetchables(items));
      LaterSelf(s);
    case Abort => EndLater(s, op);
    case Shutdown => EndLater(s, op);
    case _ => ResponseLater(s, op);
  }

  predicate SentFor(m: Message, c: nat) {
    m.ToolExecute? && m.caller == Some(c)
  }

  /** The question a call has asked. */
  function Question(s: State, call: Call): Message
    requires call.approval.Some? && call.approval.value < |s.waiters|
  {
    PreToolUse(s.waiters[call.approval.value].requestId, call.toolName, NonEmpty(call.toolCallId), call.input)
  }

  ghost predicate Asked(s: State, call: Call, before: nat)
    requires call.approval.Some? && call.approval.value < |s.waiters| && before <= |s.sent|
  {
    exists i :: 0 <= i < before && s.sent[i] == Question(s, call)
  }

  /** The call has a non-blocking answer, and `input` is what it approves. */
  predicate Allowed(s: State, call: Call, input: Fields) {
    && call.approval.Some?
    && var a := Outcome(s, call.approval.value);
    a.Some? && !Blocks(a.value) && input == Approved(a.value, call.input)
  }

  /** Message `j`, if it executes a tool for a call, came after the question, with the approved input, and is the first for that call. */
  ghost predicate MessageSound(s: State, j: nat)
    requires j < |s.sent|
  {
    s.sent[j].ToolExecute? && s.sent[j].caller.Some? ==>
      && s.sent[j].caller.value < |s.calls|
      && var call := s.calls[s.sent[j].caller.value];
      && !call.phase.Asking?
      && Allowed(s, call, s.sent[j].args)
      && s.sent[j].toolName == call.toolName
      && call.approval.value < |s.waiters|
      && Asked(s, call, j)
      && (forall i :: 0 <= i < j ==> !SentFor(s.sent[i], s.sent[j].caller.value))
  }

  /** Where the result of a call comes from: the request it sent itself, or the prefetch for its id. */
  ghost predicate Origin(s: State, c: nat, k: nat)
    requires c < |s.calls|
  {
    && k < |s.waiters| && s.waiters[k].kind == Execution
    && if s.calls[c].approval.Some?
       then exists j :: 0 <= j < |s.sent| && SentFor(s.sent[j], c) && s.sent[j].requestId == s.waiters[k].requestId
       else s.waiters[k].requestId == "prefetch-" + s.calls[c].toolCallId
  }

  ghost predicate CallSound(s: State, c: nat)
    requires c < |s.calls|
  {
    var call := s.calls[c];
    && (call.approval.Some? ==> call.approval.value < |s.waiters| && Asked(s, call, |s.sent|))
    && match call.phase
       case Asking => call.approval.Some?
       case Executing(k) => Origin(s, c, k)
       case Returned(k, r) => Origin(s, c, k) && Outcome(s, k) == Some(r)
       case Running(input) =>
         exists approved: Fields :: input == ToolMetadata.Clean(approved) && Allowed(s, call, approved)
       case Thrown(reason) =>
         call.approval.Some? && Outcome(s, call.approval.value).Some?
         && Blocks(Outcome(s, call.approval.value).value)
  }

  ghost predicate Sound(s: State) {
    && (forall j :: 0 <= j < |s.sent| ==> MessageSound(s, j))
    && (forall c :: 0 <= c < |s.calls| ==> CallSound(s, c))
  }

  lemma OutcomeLater(s: State, t: State, k: nat)
    requires Later(s, t) && Outcome(s, k).Some?
    ensures Outcome(t, k) == Outcome(s, k)
  {
    assert SameWaiter(s.waiters[k], t.waiters[k]);
  }

  lemma AskedLater(s: State, t: State, a: Call, b: Call, before: nat)
    requires Later(s, t) && Progress(a, b)
    requires a.approval.Some? && a.approval.value < |s.waiters| && before <= |s.sent| && Asked(s, a, before)
    ensures Asked(t, b, before)
  {
    assert SameWaiter(s.waiters[a.approval.value], t.waiters[a.approval.value]);
    var i :| 0 <= i < before && s.sent[i] == Question(s, a);
    assert t.sent[i] == Question(t, b);
  }

  lemma MessageLater(s: State, t: State, j: nat)
    requires Later(s, t) && j < |s.sent| && MessageSound(s, j)
    ensures MessageSound(t, j)
  {
    hide Asked, Blocks, Approved, Outcome;
    assert t.sent[j] == s.sent[j];
    if s.sent[j].ToolExecute? && s.sent[j].caller.Some? {
      var c := s.sent[j].caller.value;
      assert Progress(s.calls[c], t.calls[c]);
      OutcomeLater(s, t, s.calls[c].approval.value);
      AskedLater(s, t, s.calls[c], t.calls[c], j);
      forall i | 0 <= i < j ensures !SentFor(t.sent[i], c) {
        assert t.sent[i] == s.sent[i];
      }
    }
  }

  lemma OriginLater(s: State, t: State, c: nat, k: nat)
    requires Later(s, t) && c < |s.calls| && Origin(s, c, k)
    ensures Origin(t, c, k)
  {
    assert SameWaiter(s.waiters[k], t.waiters[k]);
    assert Progress(s.calls[c], t.calls[c]);
    if s.calls[c].approval.Some? {
      var j :| 0 <= j < |s.sent| && SentFor(s.sent[j], c) && s.sent[j].requestId == s.waiters[k].requestId;
      assert t.sent[j] == s.sent[j];
    }
  }

  /** A call that has not moved stays sound. */
  lemma CallLater(s: State, t: State, c: nat)
    requires Later(s, t) && c < |s.calls| && CallSound(s, c) && t.calls[c] == s.calls[c]
    ensures CallSound(t, c)
  {
    hide Asked, Origin, Blocks, Approved, Outcome;
    var call := s.calls[c];
    if call.approval.Some? {
      AskedLater(s, t, call, call, |s.sent|);
      AskedMore(t, call, |s.sent|);
    }
    match call.phase
    case Executing(k) => OriginLater(s, t, c, k);
    case Returned(k, r) =>
      OriginLater(s, t, c, k);
      OutcomeLater(s, t, k);
    case Running(input) =>
      var approved: Fields :| input == ToolMetadata.Clean(approved) && Allowed(s, call, approved);
      OutcomeLater(s, t, call.approval.value);
      assert Allowed(t, call, approved);
    case Thrown(_) => OutcomeLater(s, t, call.approval.value);
    case Asking =>
  }

  lemma AskedMore(s: State, call: Call, before: nat)
    requires call.approval.Some? && call.approval.value < |s.waiters| && before <= |s.sent| && Asked(s, call, before)
    ensures Asked(s, call, |s.sent|)
  {
  }

  /** Steps that send nothing for a call and move no call keep everything sound. */
  lemma QuietSound(s: State, t: State)
    requires Sound(s) && Later(s, t)
    requires |t.calls| == |s.calls| && t.calls == s.calls
    requires forall j :: |s.sent| <= j < |t.sent| && t.sent[j].ToolExecute? ==> t.sent[j].caller.None?
    ensures Sound(t)
  {
    hide MessageSound, CallSound, Later;
    forall j | 0 <= j < |t.sent| ensures MessageSound(t, j) {
      if j < |s.sent| { MessageLater(s, t, j); } else { SilentMessage(t, j); }
    }
    forall c | 0 <= c < |t.calls| ensures CallSound(t, c) {
      CallLater(s, t, c);
    }
  }

  lemma SilentMessage(t: State, j: nat)
    requires j < |t.sent| && (t.sent[j].ToolExecute? ==> t.sent[j].caller.None?)
    ensures MessageSound(t, j)
  {
  }

  lemma {:induction false} PrefetchesAreSilent(s: State, items: seq<Item>)
    requires forall item :: item in items ==> item.name.Some?
    ensures var t := PrefetchAll(s, items);
            && |s.sent| <= |t.sent|
            && forall j :: |s.sent| <= j < |t.sent| && t.sent[j].ToolExecute? ==> t.sent[j].caller.None?
  {
    if items != [] {
      PrefetchesAreSilent(s, Init(items));
    }
  }

  /** A step that moves or adds one call. */
  lemma MovedSound(s: State, t: State, c: nat)
    requires Sound(s) && Later(s, t)
    requires |s.calls| <= |t.calls| <= |s.calls| + 1 && c < |t.calls| && (|t.calls| > |s.calls| ==> c == |s.calls|)
    requires forall k :: 0 <= k < |s.calls| && k != c ==> t.calls[k] == s.calls[k]
    requires |t.sent| <= |s.sent| + 1
    requires |t.sent| > |s.sent| ==> MessageSound(t, |s.sent|)
    requires CallSound(t, c)
    ensures Sound(t)
  {
    hide MessageSound, CallSound, Later;
    forall j | 0 <= j < |t.sent| ensures MessageSound(t, j) {
      if j < |s.sent| { MessageLater(s, t, j); }
    }
    forall k | 0 <= k < |t.calls| ensures CallSound(t, k) {
      if k != c { CallLater(s, t, k); }
    }
  }

  lemma AskSound(s: State, op: Op)
    requires Sound(s) && op.Execute? && Later(s, Ask(s, op))
    ensures Sound(Ask(s, op))
  {
    hide Sound, Later;
    var t, c := Ask(s, op), |s.calls|;
    assert t.sent[|s.sent|] == Question(t, t.calls[c]);
    SilentMessage(t, |s.sent|);
    MovedSound(s, t, c);
  }

  lemma HitSound(s: State, op: Op)
    requires Valid(s) && Sound(s) && op.Execute? && op.toolCallId in s.cache && Later(s, Hit(s, op))
    ensures Sound(Hit(s, op))
  {
    hide Sound, Later;
    MovedSound(s, Hit(s, op), |s.calls|);
  }

  /** Nothing has been sent yet for a call that is still asking. */
  lemma AskingIsSilent(s: State, c: nat, j: nat)
    requires Sound(s) && c < |s.calls| && s.calls[c].phase.Asking? && j < |s.sent|
    ensures !SentFor(s.sent[j], c)
  {
    hide CallSound;
    assert MessageSound(s, j);
  }

  lemma SendSound(s: State, c: nat, a: Settlement, requestId: string)
    requires Valid(s) && Sound(s) && c < |s.calls| && s.calls[c].phase.Asking? && s.calls[c].approval.Some?
    requires Outcome(s, s.calls[c].approval.value) == Some(a) && !Blocks(a)
    requires Later(s, SendExecute(s, c, Approved(a, s.calls[c].input), requestId))
    ensures Sound(SendExecute(s, c, Approved(a, s.calls[c].input), requestId))
  {
    hide Valid, Blocks, Approved, Outcome;
    var t, j := SendExecute(s, c, Approved(a, s.calls[c].input), requestId), |s.sent|;
    var call := t.calls[c];
    assert CallSound(s, c);
    AskedLater(s, t, s.calls[c], call, j);
    AskedMore(t, call, j);
    OutcomeLater(s, t, call.approval.value);
    assert SentFor(t.sent[j], c);
    assert Origin(t, c, |s.waiters|);
    forall i | 0 <= i < j ensures !SentFor(t.sent[i], c) {
      AskingIsSilent(s, c, i);
    }
    assert MessageSound(t, j);
    MovedSound(s, t, c);
  }

  lemma AnsweredSound(s: State, c: nat, a: Settlement, requestId: string)
    requires Valid(s) && Sound(s) && c < |s.calls| && s.calls[c].phase.Asking? && s.calls[c].approval.Some?
    requires Outcome(s, s.calls[c].approval.value) == Some(a)
    requires Later(s, Answered(s, c, a, requestId))
    ensures Sound(Answered(s, c, a, requestId))
  {
    hide Valid, Later, SendExecute, Approved;
    if !Blocks(a) && s.calls[c].proxy {
      SendSound(s, c, a, requestId);
    } else {
      var t := Answered(s, c, a, requestId);
      assert CallSound(s, c);
      assert Asked(t, t.calls[c], |t.sent|) by {
        AskedLater(s, t, s.calls[c], t.calls[c], |s.sent|);
      }
      OutcomeLater(s, t, s.calls[c].approval.value);
      if !Blocks(a) {
        assert Allowed(t, t.calls[c], Approved(a, s.calls[c].input));
      }
      assert CallSound(t, c);
      MovedSound(s, t, c);
    }
  }

  lemma ContinueSound(s: State, c: nat, requestId: string)
    requires Valid(s) && Sound(s)
    ensures Sound(Continue(s, c, requestId))
  {
    hide Valid, Later, Answered;
    ContinueLater(s, c, requestId);
    var t := Continue(s, c, requestId);
    if c < |s.calls| {
      assert CallSound(s, c);
      match s.calls[c].phase
      case Asking =>
        var a := Outcome(s, s.calls[c].approval.value);
        if a.Some? { AnsweredSound(s, c, a.value, requestId); }
      case Executing(k) =>
        if Outcome(s, k).Some? {
          ReturnedSound(s, t, c, k);
        }
      case _ =>
    }
  }

  lemma ReturnedSound(s: State, t: State, c: nat, k: nat)
    requires Sound(s) && Later(s, t) && c < |s.calls|
    requires s.calls[c].phase == Executing(k) && Outcome(s, k).Some?
    requires t == s.(calls := s.calls[c := s.calls[c].(phase := Returned(k, Outcome(s, k).value))])
    ensures Sound(t)
  {
    hide Later, Outcome, Asked;
    assert CallSound(s, c);
    OriginLater(s, t, c, k);
    OutcomeLater(s, t, k);
    if s.calls[c].approval.Some? {
      assert Progress(s.calls[c], t.calls[c]);
      AskedLater(s, t, s.calls[c], t.calls[c], |s.sent|);
    }
    assert CallSound(t, c);
    MovedSound(s, t, c);
  }

  lemma ApplySound(s: State, op: Op)
    requires Valid(s) && Sound(s)
    ensures Sound(Apply(s, op))
  {
    hide Valid, Sound, Later, Ask, Hit, Continue, PrefetchAll, Settle, SettleAll;
    ApplyLater(s, op);
    match op
    case Execute(proxy, toolCallId, _, _, _) =>
      if proxy && toolCallId in s.cache { HitSound(s, op); } else { AskSound(s, op); }
    case Resume(c, requestId) => ContinueSound(s, c, requestId);
    case MessageEnd(items) =>
      PrefetchAllLater(s, Prefetchables(items));
      PrefetchesAreSilent(s, Prefetchables(items));
      QuietSound(s, Apply(s, op));
    case _ => QuietSound(s, Apply(s, op));
  }

  lemma {:induction false} RunSound(ops: seq<Op>)
    ensures Valid(Run(INITIAL, ops)) && Sound(Run(INITIAL, ops))
  {
    hide Valid, Sound, Apply;
    if ops == [] {
      NothingUnsound();
    } else {
      RunSound(Init(ops));
      ApplyValid(Run(INITIAL, Init(ops)), Last(ops));
      ApplySound(Run(INITIAL, Init(ops)), Last(ops));
    }
  }

  lemma NothingUnsound()
    ensures Valid(INITIAL) && Sound(INITIAL)
  {
  }

  lemma OnlyApproved(s: State, j: nat)
    requires Sound(s) && j < |s.sent| && s.sent[j].ToolExecute? && s.sent[j].caller.Some?
    ensures var c := s.sent[j].caller.value;
            && c < |s.calls| && s.calls[c].approval.Some? && s.calls[c].approval.value < |s.waiters|
            && Allowed(s, s.calls[c], s.sent[j].args)
            && Asked(s, s.calls[c], j)
            && (forall i :: 0 <= i < |s.sent| && SentFor(s.sent[i], c) ==> i == j)
  {
    hide Asked, CallSound, Outcome, Blocks, Approved;
    assert MessageSound(s, j);
    var c := s.sent[j].caller.value;
    forall i | 0 <= i < |s.sent| && SentFor(s.sent[i], c) ensures i == j {
      assert MessageSound(s, i);
    }
  }

  /**
   * Over every run, an execute request sent for a call follows that call's question and a non-blocking answer to it,
   * carries the approved input, and is the only one for the call.
   */
  lemma ExecutesOnlyWhatWasApproved(ops: seq<Op>, j: nat)
    requires j < |Run(INITIAL, ops).sent|
    requires Run(INITIAL, ops).sent[j].ToolExecute? && Run(INITIAL, ops).sent[j].caller.Some?
    ensures var s := Run(INITIAL, ops); var c := s.sent[j].caller.value;
            && c < |s.calls| && s.calls[c].approval.Some? && s.calls[c].approval.value < |s.waiters|
            && Allowed(s, s.calls[c], s.sent[j].args)
            && Asked(s, s.calls[c], j)
            && (forall i :: 0 <= i < |s.sent| && SentFor(s.sent[i], c) ==> i == j)
  {
    hide Run, Valid, Sound, Allowed, Asked;
    RunSound(ops);
    OnlyApproved(Run(INITIAL, ops), j);
  }

  /** Over every run, a finished call has the result its own request, or the prefetch for its id, was answered with. */
  lemma ResultsAreNotMixedUp(ops: seq<Op>, c: nat)
    requires c < |Run(INITIAL, ops).calls|
    ensures var s := Run(INITIAL, ops);
            match s.calls[c].phase
            case Returned(k, r) => Origin(s, c, k) && Outcome(s, k) == Some(r)
            case Running(input) =>
              exists approved: Fields :: input == ToolMetadata.Clean(approved) && Allowed(s, s.calls[c], approved)
            case Thrown(_) =>
              s.calls[c].approval.Some? && Outcome(s, s.calls[c].approval.value).Some?
              && Blocks(Outcome(s, s.calls[c].approval.value).value)
            case _ => true
  {
    hide Valid, MessageSound, Allowed, Asked, Origin;
    RunSound(ops);
    assert CallSound(Run(INITIAL, ops), c);
  }

  // ---------------------------------------------------------------- prefetching

  /** A message with at least two prefetchable calls sends one request for each, in order, and remembers all of them. */
  lemma {:induction false} PrefetchSendsAll(s: State, items: seq<Item>)
    requires forall item :: item in items ==> item.name.Some?
    ensures var t := PrefetchAll(s, items);
            && |t.sent| == |s.sent| + |items| && s.sent <= t.sent
            && (forall i :: 0 <= i < |items| ==>
                  t.sent[|s.sent| + i] ==
                  ToolExecute(PrefetchId(items[i]), items[i].name.value, items[i].args.GetOr([]), None))
            && (forall item :: item in items ==> item.id in t.cache)
            && (forall id :: id in s.cache ==> id in t.cache)
  {
    if items != [] {
      PrefetchSendsAll(s, Init(items));
      assert items == Init(items) + [Last(items)];
    }
  }

  predicate Takes(op: Op, id: string) {
    op.Execute? && op.proxy && op.toolCallId == id
  }

  lemma ContinueKeepsCache(s: State, c: nat, requestId: string)
    ensures Continue(s, c, requestId).cache == s.cache
  {
    hide Blocks, Approved, BlockReason, Outcome;
  }

  lemma CacheStep(s: State, op: Op, id: string)
    ensures !Takes(op, id) && op != Abort && id in s.cache ==> id in Apply(s, op).cache
    ensures op == Abort ==> id !in Apply(s, op).cache
    ensures !op.MessageEnd? && id !in s.cache ==> id !in Apply(s, op).cache
  {
    hide Settle, SettleAll, PrefetchAll, Continue;
    match op
    case Resume(c, requestId) => ContinueKeepsCache(s, c, requestId);
    case MessageEnd(items) => PrefetchSendsAll(s, Prefetchables(items));
    case _ =>
  }

  /** A prefetched result stays available until its call takes it or an abort drops it. */
  lemma {:induction false} PrefetchedUntil(s: State, ops: seq<Op>, id: string)
    requires forall op :: op in ops ==> !Takes(op, id)
    ensures id in s.cache && Abort !in ops ==> id in Run(s, ops).cache
    ensures (forall op :: op in ops ==> !op.MessageEnd?) && (id !in s.cache || Abort in ops) ==> id !in Run(s, ops).cache
  {
    hide Apply, Takes;
    if ops != [] {
      assert ops == Init(ops) + [Last(ops)];
      PrefetchedUntil(s, Init(ops), id);
      CacheStep(Run(s, Init(ops)), Last(ops), id);
    }
  }

  lemma TakingSendsNothing(s: State, op: Op)
    requires op.Execute? && op.proxy && op.toolCallId in s.cache
    ensures var t := Apply(s, op);
            && t.sent == s.sent && t.waiters == s.waiters && op.toolCallId !in t.cache
            && t.calls == s.calls + [Call(true, op.toolCallId, op.toolName, op.params, None,
                                          Executing(s.cache[op.toolCallId]))]
  {
  }

  lemma {:induction false} RunLater(s: State, ops: seq<Op>)
    requires Valid(s)
    ensures Later(s, Run(s, ops))
  {
    hide Valid, Later, Apply;
    if ops == [] {
      LaterSelf(s);
    } else {
      RunLater(s, Init(ops));
      RunValid(s, Init(ops));
      ApplyLater(Run(s, Init(ops)), Last(ops));
      LaterTrans(s, Run(s, Init(ops)), Run(s, ops));
    }
  }

  lemma LaterSelf(s: State)
    ensures Later(s, s)
  {
  }

  lemma UnaskedIsSilent(s: State, c: nat, j: nat)
    requires Sound(s) && c < |s.calls| && s.calls[c].approval.None? && j < |s.sent|
    ensures !SentFor(s.sent[j], c)
  {
    hide CallSound, Asked, Outcome;
    assert MessageSound(s, j);
  }

  lemma {:induction false} RunAppend(s: State, a: seq<Op>, b: seq<Op>)
    ensures Run(s, a + b) == Run(Run(s, a), b)
  {
    hide Apply;
    if b == [] {
      assert a + b == a;
    } else {
      assert Init(a + b) == a + Init(b);
      RunAppend(s, a, Init(b));
    }
  }

  /**
   * A call whose result was prefetched never sends a second request, in any later run, unless an abort came between:
   * it takes the prefetched waiter and is answered by it.
   */
  lemma PrefetchedCallsSendNothing(before: seq<Op>, between: seq<Op>, take: Op, after: seq<Op>, j: nat)
    requires take.Execute? && take.proxy && take.toolCallId in Run(INITIAL, before).cache
    requires Abort !in between && forall op :: op in between ==> !Takes(op, take.toolCallId)
    requires j < |Run(INITIAL, before + between + [take] + after).sent|
    ensures var c := |Run(INITIAL, before + between).calls|;
            var t := Run(INITIAL, before + between + [take] + after);
            && !SentFor(t.sent[j], c)
            && Run(INITIAL, before + between + [take]).sent == Run(INITIAL, before + between).sent
            && c < |t.calls| && t.calls[c].toolCallId == take.toolCallId && t.calls[c].approval.None?
  {
    hide Apply, Valid, Sound, Later;
    var s := Run(INITIAL, before + between);
    var u := Apply(s, take);
    RunAppend(INITIAL, before, between);
    PrefetchedUntil(Run(INITIAL, before), between, take.toolCallId);
    TakingSendsNothing(s, take);
    assert Init(before + between + [take]) == before + between;
    RunAppend(INITIAL, before + between + [take], after);
    RunSound(before + between + [take]);
    RunLater(u, after);
    var t := Run(INITIAL, before + between + [take] + after);
    LaterCall(u, t, |s.calls|);
    RunSound(before + between + [take] + after);
    UnaskedIsSilent(t, |s.calls|, j);
  }

  lemma LaterCall(s: State, t: State, c: nat)
    requires Later(s, t) && c < |s.calls|
    ensures c < |t.calls| && t.calls[c].toolCallId == s.calls[c].toolCallId && t.calls[c].approval == s.calls[c].approval
  {
    assert Progress(s.calls[c], t.calls[c]);
  }

  // ---------------------------------------------------------------- the server

  lemma SettleAllStep(waiters: seq<Waiter>, pending: map<string, nat>, left: set<string>, id: string, x: Settlement)
    requires left <= pending.Keys && id in left
    requires forall i, j :: i in pending && j in pending && pending[i] == pending[j] ==> i == j
    requires forall i :: i in pending ==> pending[i] < |waiters|
    ensures Settle(SettleAll(waiters, pending - left, x), pending[id], x) == SettleAll(waiters, pending - (left - {id}), x)
  {
    var a, b := pending - left, pending - (left - {id});
    assert b.Values == a.Values + {pending[id]} by {
      assert forall i :: i in b <==> i in a || i == id;
      assert b[id] == pending[id];
      assert forall i :: i in a ==> b[i] == a[i];
    }
    assert pending[id] !in a.Values;
  }

  /** The module-level state of the server process. */
  class Server {
    var pendingPreToolUse: map<string, nat>
    var pendingToolExecutions: map<string, nat>
    var prefetchCache: map<string, nat>
    var waiters: seq<Waiter>
    var calls: seq<Call>
    var sent: seq<Message>

    function Contents(): State
      reads this
    {
      State(pendingPreToolUse, pendingToolExecutions, prefetchCache, waiters, calls, sent)
    }

    constructor ()
      ensures Contents() == INITIAL
    {
      pendingPreToolUse, pendingToolExecutions, prefetchCache := map[], map[], map[];
      waiters, calls, sent := [], [], [];
    }

    /** The body of a tool up to the point where it first waits. */
    method ExecuteTool(proxy: bool, toolCallId: string, toolName: string, params: Fields, requestId: string)
      modifies this
      ensures Contents() == Apply(old(Contents()), Execute(proxy, toolCallId, toolName, params, requestId))
    {
      if proxy && toolCallId in prefetchCache {
        var prefetched := prefetchCache[toolCallId];
        prefetchCache := prefetchCache - {toolCallId};
        calls := calls + [Call(proxy, toolCallId, toolName, params, None, Executing(prefetched))];
      } else {
        sent := sent + [PreToolUse(requestId, toolName, if toolCallId == "" then None else Some(toolCallId), params)];
        pendingPreToolUse := pendingPreToolUse[requestId := |waiters|];
        calls := calls + [Call(proxy, toolCallId, toolName, params, Some(|waiters|), Asking)];
        waiters := waiters + [Waiter(Approval, requestId, [])];
      }
    }

    /** The rest of the body of call `c`, once what it waits for is settled. */
    method ResumeTool(c: nat, requestId: string)
      modifies this
      ensures Contents() == Apply(old(Contents()), Resume(c, requestId))
    {
      if c >= |calls| {
        return;
      }
      var call := calls[c];
      match call.phase {
        case Asking =>
          var outcome := Outcome(Contents(), call.approval.GetOr(|waiters|));
          if outcome.None? {
            return;
          }
          var answer := outcome.value;
          if Blocks(answer) {
            calls := calls[c := call.(phase := Thrown(BlockReason(answer, call.toolName)))];
            return;
          }
          var args := Approved(answer, call.input);
          if call.proxy {
            sent := sent + [ToolExecute(requestId, call.toolName, args, Some(c))];
            pendingToolExecutions := pendingToolExecutions[requestId := |waiters|];
            calls := calls[c := call.(phase := Executing(|waiters|))];
            waiters := waiters + [Waiter(Execution, requestId, [])];
          } else {
            calls := calls[c := call.(phase := Running(ToolMetadata.Clean(args)))];
          }
        case Executing(k) =>
          var outcome := Outcome(Contents(), k);
          if outcome.Some? {
            calls := calls[c := call.(phase := Returned(k, outcome.value))];
          }
        case _ =>
      }
    }

    /** Prefetch when an assistant message holds two or more prefetchable tool calls. */
    method HandleMessageEnd(items: seq<Item>)
      modifies this
      ensures Contents() == Apply(old(Contents()), MessageEnd(items))
    {
      var toolCalls := Prefetchables(items);
      if |toolCalls| < 2 {
        return;
      }
      ghost var before := Contents();
      assert forall i :: 0 <= i < |toolCalls| ==> toolCalls[i] in toolCalls;
      for i := 0 to |toolCalls|
        invariant forall item :: item in toolCalls[..i] ==> item.name.Some?
        invariant Contents() == PrefetchAll(before, toolCalls[..i])
      {
        assert Init(toolCalls[..i + 1]) == toolCalls[..i];
        var tc := toolCalls[i];
        var requestId := "prefetch-" + tc.id;
        pendingToolExecutions := pendingToolExecutions[requestId := |waiters|];
        sent := sent + [ToolExecute(requestId, tc.name.value, tc.args.GetOr([]), None)];
        prefetchCache := prefetchCache[tc.id := |waiters|];
        waiters := waiters + [Waiter(Execution, requestId, [])];
      }
      assert toolCalls[..|toolCalls|] == toolCalls;
    }

    method HandleToolExecuteResponse(requestId: string, content: string, isError: bool)
      modifies this
      ensures Contents() == Apply(old(Contents()), ToolResponse(requestId, content, isError))
    {
      if requestId in pendingToolExecutions {
        var pending := pendingToolExecutions[requestId];
        pendingToolExecutions := pendingToolExecutions - {requestId};
        waiters := Settle(waiters, pending, Result(content, isError));
      }
    }

    method HandlePreToolUseResponse(requestId: string, action: string, input: Option<Fields>, reason: Option<string>)
      modifies this
      ensures Contents() == Apply(old(Contents()), ApprovalResponse(requestId, action, input, reason))
    {
      if requestId in pendingPreToolUse {
        var pending := pendingPreToolUse[requestId];
        pendingPreToolUse := pendingPreToolUse - {requestId};
        waiters := Settle(waiters, pending, Answer(action, input, reason));
      }
    }

    /** Settle every waiter of a pending table, in any order. */
    method ResolveAll(pending: map<string, nat>, x: Settlement)
      requires forall i, j :: i in pending && j in pending && pending[i] == pending[j] ==> i == j
      requires forall i :: i in pending ==> pending[i] < |waiters|
      modifies this`waiters
      ensures waiters == SettleAll(old(waiters), pending, x)
    {
      hide Settle, SettleAll;
      var left := pending.Keys;
      NothingSettled(waiters, pending, x);
      while left != {}
        invariant left <= pending.Keys
        invariant waiters == SettleAll(old(waiters), pending - left, x)
      {
        var id :| id in left;
        SettleAllStep(old(waiters), pending, left, id, x);
        waiters := Settle(waiters, pending[id], x);
        left := left - {id};
      }
      assert pending - {} == pending;
    }

    method HandleAbort()
      requires Valid(Contents())
      modifies this
      ensures Contents() == Apply(old(Contents()), Abort)
    {
      hide SettleAll;
      ResolveAll(pendingPreToolUse, Answer("block", None, Some("Aborted")));
      pendingPreToolUse := map[];
      prefetchCache := map[];
    }

    method HandleShutdown()
      requires Valid(Contents())
      modifies this
      ensures Contents() == Apply(old(Contents()), Shutdown)
    {
      hide SettleAll, CachePoints, CallsPoint, AllWellSettled;
      ResolveAll(pendingPreToolUse, Answer("block", None, Some("Server shutting down")));
      pendingPreToolUse := map[];
      ResolveAll(pendingToolExecutions, Result("Server shutting down", true));
      pendingToolExecutions := map[];
    }
  }

  lemma NothingSettled(waiters: seq<Waiter>, pending: map<string, nat>, x: Settlement)
    ensures SettleAll(waiters, pending - pending.Keys, x) == waiters
  {
    assert (pending - pending.Keys).Values == {};
  }
}
