/** One model call at a time: opening, timing and closing it, and the reports sent about it. */
module RequestTracker {
  import opened Options
  import opened Text

  datatype Status = Running | Completed | Error | Aborted | Interrupted

  /** One item of a partial message. */
  datatype Part = Part(kind: string, name: Option<string>)

  datatype Event = Event(kind: string, delta: Option<string>, content: Option<seq<Part>>)

  datatype Details = Details(
    input: Option<int>, output: Option<int>, finishReason: Option<string>, toolUseIds: seq<string>)

  const NO_DETAILS := Details(None, None, None, [])

  /** Both clocks at one moment; the monotonic one in milliseconds. */
  datatype Tick = Tick(mono: real, now: int)

  datatype Active = Active(
    requestId: string, sequence: nat, provider: Option<string>, model: Option<string>,
    startedAt: int, startedMono: real, firstOutput: Option<real>)

  datatype Timing = Timing(endedAt: int, duration: real, ttft: Option<real>, decode: Option<real>)

  datatype Request = Request(
    requestId: string, sequence: nat, provider: Option<string>, model: Option<string>, startedAt: int,
    status: Status, timing: Option<Timing>,
    input: Option<nat>, output: Option<nat>, finishReason: Option<string>, toolUseIds: seq<string>)

  datatype Report = Opened(request: Request) | Closed(request: Request)

  datatype State = State(active: Option<Active>, sequence: nat, abortRequested: bool, log: seq<Report>)

  const INITIAL := State(None, 0, false, [])

  function NonEmpty(s: Option<string>): Option<string> {
    if s.Some? && s.value != "" then s else None
  }

  function NonNegative(n: Option<int>): (r: Option<nat>) {
    if n.Some? && n.value >= 0 then Some(n.value) else None
  }

  function Clamp(x: real): real {
    if x < 0.0 then 0.0 else x
  }

  /** Does the event carry real model output? */
  predicate Effective(event: Option<Event>) {
    event.Some? &&
    var e := event.value;
    if e.kind in ["text_delta", "thinking_delta", "toolcall_delta"] then
      e.delta.Some? && e.delta.value != ""
    else
      && e.kind == "toolcall_start"
      && e.content.Some? && e.content.value != []
      && Last(e.content.value).kind == "toolCall"
      && NonEmpty(Last(e.content.value).name).Some?
  }

  function Snapshot(a: Active, status: Status): Request {
    Request(a.requestId, a.sequence, NonEmpty(a.provider), NonEmpty(a.model), a.startedAt,
            status, None, None, None, None, [])
  }

  function TimingOf(a: Active, t: Tick): Timing {
    Timing(t.now, Clamp(t.mono - a.startedMono),
           if a.firstOutput.Some? then Some(Clamp(a.firstOutput.value - a.startedMono)) else None,
           if a.firstOutput.Some? then Some(Clamp(t.mono - a.firstOutput.value)) else None)
  }

  function Effectively(abortRequested: bool, status: Status): Status {
    if abortRequested && status == Error then Aborted else status
  }

  function Settled(a: Active, status: Status, d: Details, t: Tick): Request {
    Snapshot(a, status).(
      timing := Some(TimingOf(a, t)),
      input := NonNegative(d.input),
      output := NonNegative(d.output),
      finishReason := NonEmpty(d.finishReason),
      toolUseIds := d.toolUseIds)
  }

  function Settle(s: State, status: Status, d: Details, t: Tick): State {
    if s.active.None? then s
    else
      var effective := Effectively(s.abortRequested, status);
      State(None, s.sequence, s.abortRequested && effective != Aborted,
            s.log + [Closed(Settled(s.active.value, effective, d, t))])
  }

  /** The calls of the tracker, with the clock readings and ids each of them takes. */
  datatype Op =
    | StartRun
    | MarkAborted
    | Begin(provider: Option<string>, model: Option<string>, id: string, closing: Tick, opening: Tick)
    | Observe(event: Option<Event>, mono: real)
    | Complete(status: Status, details: Details, at: Tick)
    | Interrupt(at: Tick)

  function Open(s: State, op: Op): State
    requires op.Begin?
  {
    var n := s.sequence + 1;
    var a := Active(op.id, n, op.provider, op.model, op.opening.now, op.opening.mono, None);
    State(Some(a), n, s.abortRequested, s.log + [Opened(Snapshot(a, Running))])
  }

  function Apply(s: State, op: Op): State {
    match op
    case StartRun => s.(sequence := 0, abortRequested := false)
    case MarkAborted => s.(abortRequested := true)
    case Begin(_, _, _, closing, _) => Open(Settle(s, Interrupted, NO_DETAILS, closing), op)
    case Observe(event, mono) =>
      if s.active.Some? && s.active.value.firstOutput.None? && Effective(event)
      then s.(active := Some(s.active.value.(firstOutput := Some(mono))))
      else s
    case Complete(status, details, at) => Settle(s, status, details, at)
    case Interrupt(at) => Settle(s, Interrupted, NO_DETAILS, at)
  }

  function Run(s: State, ops: seq<Op>): State {
    if ops == [] then s else Apply(Run(s, Init(ops)), Last(ops))
  }

  // ---------------------------------------------------------------- every call opens once and closes at most once

  /** The two reports are about the same call. */
  predicate SameCall(a: Request, b: Request) {
    a.requestId == b.requestId && a.sequence == b.sequence && a.startedAt == b.startedAt
    && a.provider == b.provider && a.model == b.model
  }

  /** Reports alternate, and each closing report is about the call opened just before it. */
  ghost predicate Alternating(log: seq<Report>) {
    && (forall i :: 0 <= i < |log| ==> (log[i].Opened? <==> i % 2 == 0))
    && (forall i :: 0 <= i < |log| && log[i].Closed? ==> i > 0 && SameCall(log[i - 1].request, log[i].request))
  }

  /** The active call is the one opened last, and it is open exactly while its closing report is missing. */
  ghost predicate InStep(s: State) {
    && Alternating(s.log)
    && (s.active.Some? <==> |s.log| % 2 == 1)
    && (s.active.Some? ==> SameCall(Last(s.log).request, Snapshot(s.active.value, Running)))
  }

  lemma SettleInStep(s: State, status: Status, d: Details, t: Tick)
    requires InStep(s)
    ensures InStep(Settle(s, status, d, t))
  {
  }

  lemma OpenInStep(s: State, op: Op)
    requires InStep(s) && s.active.None? && op.Begin?
    ensures InStep(Open(s, op))
  {
  }

  lemma ApplyInStep(s: State, op: Op)
    requires InStep(s)
    ensures InStep(Apply(s, op))
  {
    match op
    case Begin(_, _, _, closing, _) =>
      SettleInStep(s, Interrupted, NO_DETAILS, closing);
      OpenInStep(Settle(s, Interrupted, NO_DETAILS, closing), op);
    case Complete(status, details, at) => SettleInStep(s, status, details, at);
    case Interrupt(at) => SettleInStep(s, Interrupted, NO_DETAILS, at);
    case _ =>
  }

  /** Over every run: opening and closing reports alternate, at most one call is open, and each closes before the next opens. */
  lemma {:induction false} ReportsAlternate(ops: seq<Op>)
    ensures InStep(Run(INITIAL, ops))
  {
    if ops != [] {
      ReportsAlternate(Init(ops));
      ApplyInStep(Run(INITIAL, Init(ops)), Last(ops));
    }
  }

  // ---------------------------------------------------------------- numbering

  /** The numbers of the calls opened, in order. */
  function Numbers(log: seq<Report>): (ns: seq<nat>) {
    if log == [] then []
    else if Last(log).Opened? then Numbers(Init(log)) + [Last(log).request.sequence]
    else Numbers(Init(log))
  }

  function UpTo(n: nat): (ns: seq<nat>)
    ensures |ns| == n && forall i :: 0 <= i < n ==> ns[i] == i + 1
  {
    if n == 0 then [] else UpTo(n - 1) + [n]
  }

  lemma NumbersSnoc(log: seq<Report>, r: Report)
    ensures Numbers(log + [r]) == if r.Opened? then Numbers(log) + [r.request.sequence] else Numbers(log)
  {
    assert Init(log + [r]) == log;
  }

  lemma SettleNumbers(s: State, status: Status, d: Details, t: Tick)
    ensures Numbers(Settle(s, status, d, t).log) == Numbers(s.log)
    ensures Settle(s, status, d, t).sequence == s.sequence
  {
    if s.active.Some? {
      NumbersSnoc(s.log, Last(Settle(s, status, d, t).log));
    }
  }

  lemma ApplyNumbers(s: State, op: Op)
    requires !op.StartRun?
    ensures Numbers(Apply(s, op).log) == if op.Begin? then Numbers(s.log) + [s.sequence + 1] else Numbers(s.log)
    ensures Apply(s, op).sequence == if op.Begin? then s.sequence + 1 else s.sequence
  {
    match op
    case Begin(_, _, _, closing, _) =>
      SettleNumbers(s, Interrupted, NO_DETAILS, closing);
      var t := Settle(s, Interrupted, NO_DETAILS, closing);
      NumbersSnoc(t.log, Last(Open(t, op).log));
    case Complete(status, details, at) => SettleNumbers(s, status, details, at);
    case Interrupt(at) => SettleNumbers(s, Interrupted, NO_DETAILS, at);
    case _ =>
  }

  /** From one `startRun` to the next, the calls opened are numbered 1, 2, 3 and so on, whatever happens to them. */
  lemma {:induction false} NumberedInOrder(s: State, ops: seq<Op>)
    requires StartRun !in ops
    ensures var t := Run(Apply(s, StartRun), ops);
            Numbers(t.log) == Numbers(s.log) + UpTo(t.sequence)
  {
    if ops == [] {
      assert Run(Apply(s, StartRun), ops) == Apply(s, StartRun);
    } else {
      assert Last(ops) in ops && forall op :: op in Init(ops) ==> op in ops;
      NumberedInOrder(s, Init(ops));
      ApplyNumbers(Run(Apply(s, StartRun), Init(ops)), Last(ops));
    }
  }

  // ---------------------------------------------------------------- stopping

  predicate IsClosed(r: Report, status: Status) {
    r.Closed? && r.request.status == status
  }

  /** Every `error` closing in the list comes after an `aborted` one. */
  ghost predicate StopFirst(log: seq<Report>) {
    forall i :: 0 <= i < |log| && IsClosed(log[i], Error) ==> exists j :: 0 <= j < i && IsClosed(log[j], Aborted)
  }

  ghost predicate Stopped(log: seq<Report>) {
    exists j :: 0 <= j < |log| && IsClosed(log[j], Aborted)
  }

  /** What a step adds to the log, and what it does to an outstanding stop. */
  lemma StopStep(s: State, op: Op)
    requires !op.StartRun?
    ensures |s.log| <= |Apply(s, op).log| <= |s.log| + 2 && Apply(s, op).log[..|s.log|] == s.log
    ensures s.abortRequested ==>
              forall i :: |s.log| <= i < |Apply(s, op).log| ==> !IsClosed(Apply(s, op).log[i], Error)
    ensures s.abortRequested && !Apply(s, op).abortRequested ==>
              |s.log| < |Apply(s, op).log| && IsClosed(Apply(s, op).log[|s.log|], Aborted)
  {
  }

  /** Once the user asks to stop, no call of the run is reported as an error before one is reported as aborted. */
  lemma {:induction false} StopComesFirst(s: State, ops: seq<Op>)
    requires StartRun !in ops
    ensures var t := Run(Apply(s, MarkAborted), ops);
            && |s.log| <= |t.log| && t.log[..|s.log|] == s.log
            && StopFirst(t.log[|s.log|..])
            && (t.abortRequested || Stopped(t.log[|s.log|..]))
  {
    if ops == [] {
      assert Run(Apply(s, MarkAborted), ops).log == s.log;
    } else {
      assert Last(ops) in ops && forall op :: op in Init(ops) ==> op in ops;
      StopComesFirst(s, Init(ops));
      StopStep(Run(Apply(s, MarkAborted), Init(ops)), Last(ops));
      StopExtends(s, Run(Apply(s, MarkAborted), Init(ops)), Last(ops));
    }
  }

  lemma StopExtends(s: State, u: State, op: Op)
    requires |s.log| <= |u.log| && u.log[..|s.log|] == s.log
    requires StopFirst(u.log[|s.log|..])
    requires u.abortRequested || Stopped(u.log[|s.log|..])
    requires !op.StartRun?
    ensures var t := Apply(u, op);
            && |s.log| <= |t.log| && t.log[..|s.log|] == s.log
            && StopFirst(t.log[|s.log|..])
            && (t.abortRequested || Stopped(t.log[|s.log|..]))
  {
    hide Apply;
    var t, n := Apply(u, op), |s.log|;
    StopStep(u, op);
    var before, after := u.log[n..], t.log[n..];
    assert t.log[..n] == t.log[..|u.log|][..n];
    assert before == after[..|before|];
    if Stopped(before) {
      var j :| 0 <= j < |before| && IsClosed(before[j], Aborted);
      assert IsClosed(after[j], Aborted);
      forall i | 0 <= i < |after| && IsClosed(after[i], Error)
        ensures exists k :: 0 <= k < i && IsClosed(after[k], Aborted)
      {
        if i < |before| {
          assert before[i] == after[i];
          var k :| 0 <= k < i && IsClosed(before[k], Aborted);
          assert IsClosed(after[k], Aborted);
        }
      }
    } else {
      forall i | 0 <= i < |after| ensures !IsClosed(after[i], Error) {
        if i < |before| {
          assert before[i] == after[i];
        } else {
          assert after[i] == t.log[n + i];
        }
      }
      if !t.abortRequested {
        assert after[|before|] == t.log[|u.log|];
      }
    }
  }

  /** The statuses of the closing reports, in order. */
  function Closings(log: seq<Report>): seq<Status> {
    if log == [] then []
    else Closings(Init(log)) + if Last(log).Closed? then [Last(log).request.status] else []
  }

  /** The status a step asks the open call to be closed with, if it closes one. */
  function Asks(s: State, op: Op): (r: seq<Status>)
    ensures |r| <= 1
  {
    if s.active.None? then []
    else
      match op
      case Begin(_, _, _, _, _) => [Interrupted]
      case Complete(status, _, _) => [status]
      case Interrupt(_) => [Interrupted]
      case _ => []
  }

  function Asked(s: State, ops: seq<Op>): seq<Status> {
    if ops == [] then [] else Asked(s, Init(ops)) + Asks(Run(s, Init(ops)), Last(ops))
  }

  /** Some call was closed as failed or as aborted. */
  predicate Unwound(asked: seq<Status>) {
    Error in asked || Aborted in asked
  }

  /** An outstanding stop turns an error into an abort, unless a call failed or was aborted before. */
  function Marked(asked: seq<Status>): (r: seq<Status>)
    ensures |r| == |asked|
  {
    seq(|asked|, i requires 0 <= i < |asked| =>
      if asked[i] == Error && !Unwound(asked[..i]) then Aborted else asked[i])
  }

  lemma ClosingsSnoc(log: seq<Report>, r: Report)
    ensures Closings(log + [r]) == Closings(log) + if r.Closed? then [r.request.status] else []
  {
    assert Init(log + [r]) == log;
  }

  lemma SettleClosings(s: State, status: Status, d: Details, t: Tick)
    ensures var after := Settle(s, status, d, t);
      var effective := Effectively(s.abortRequested, status);
      && Closings(after.log) == Closings(s.log) + (if s.active.None? then [] else [effective])
      && (after.abortRequested <==> s.abortRequested && (s.active.None? || effective != Aborted))
  {
    hide Closings;
    if s.active.Some? {
      ClosingsSnoc(s.log, Last(Settle(s, status, d, t).log));
    }
  }

  lemma StepClosings(s: State, op: Op)
    requires !op.StartRun? && !op.MarkAborted?
    ensures var after, asks := Apply(s, op), Asks(s, op);
      && Closings(after.log) == Closings(s.log) + (if s.abortRequested then Marked(asks) else asks)
      && (after.abortRequested <==> s.abortRequested && !Unwound(asks))
  {
    hide Closings;
    match op
    case Begin(_, _, _, closing, _) =>
      SettleClosings(s, Interrupted, NO_DETAILS, closing);
      var t := Settle(s, Interrupted, NO_DETAILS, closing);
      ClosingsSnoc(t.log, Last(Open(t, op).log));
    case Complete(status, details, at) => SettleClosings(s, status, details, at);
    case Interrupt(at) => SettleClosings(s, Interrupted, NO_DETAILS, at);
    case _ =>
  }

  lemma MarkedAppend(asked: seq<Status>, more: seq<Status>)
    requires |more| <= 1
    ensures Marked(asked + more) == Marked(asked) + if Unwound(asked) then more else Marked(more)
    ensures Unwound(asked + more) <==> Unwound(asked) || Unwound(more)
  {
    forall i | 0 <= i < |asked| ensures (asked + more)[..i] == asked[..i] {
    }
    assert (asked + more)[..|asked|] == asked;
    assert more != [] ==> more[..0] == [];
  }

  /**
   * From any state, over any run in which no stop is asked for and no new run starts: without an outstanding stop
   * every call is reported with the status it is closed with; an outstanding stop turns into an abort the first
   * call closed as failed, and is outstanding until a call is closed as failed or aborted.
   */
  lemma {:induction false} StopMarksNextFailure(s: State, ops: seq<Op>)
    requires StartRun !in ops && MarkAborted !in ops
    ensures var t, asked := Run(s, ops), Asked(s, ops);
      && Closings(t.log) == Closings(s.log) + (if s.abortRequested then Marked(asked) else asked)
      && (t.abortRequested <==> s.abortRequested && !Unwound(asked))
  {
    hide Closings, Asks, Apply, Marked, Unwound;
    if ops == [] {
      NothingMarked();
    } else {
      assert Last(ops) in ops && forall op :: op in Init(ops) ==> op in ops;
      StopMarksNextFailure(s, Init(ops));
      MarkStep(Run(s, Init(ops)), Closings(s.log), s.abortRequested, Asked(s, Init(ops)), Last(ops));
    }
  }

  lemma MarkStep(u: State, before: seq<Status>, stop: bool, asked: seq<Status>, op: Op)
    requires !op.StartRun? && !op.MarkAborted?
    requires Closings(u.log) == before + (if stop then Marked(asked) else asked)
    requires u.abortRequested <==> stop && !Unwound(asked)
    ensures var after, more := Apply(u, op), asked + Asks(u, op);
      && Closings(after.log) == before + (if stop then Marked(more) else more)
      && (after.abortRequested <==> stop && !Unwound(more))
  {
    hide *;
    StepClosings(u, op);
    MarkedAppend(asked, Asks(u, op));
  }

  lemma NothingMarked()
    ensures Marked([]) == [] && !Unwound([])
  {
  }

  /**
   * After a stop the next call closed is reported as aborted exactly when it is closed as failed or aborted, and the
   * stop is outstanding exactly until the first call reported as aborted.
   */
  lemma NextClosingAborted(s: State, ops: seq<Op>)
    requires StartRun !in ops && MarkAborted !in ops
    ensures var stopped := Apply(s, MarkAborted);
      var t, asked, before := Run(stopped, ops), Asked(stopped, ops), Closings(s.log);
      && before <= Closings(t.log) && |Closings(t.log)| == |before| + |asked|
      && (asked != [] ==> (Closings(t.log)[|before|] == Aborted <==> asked[0] == Error || asked[0] == Aborted))
      && (t.abortRequested <==> Aborted !in Closings(t.log)[|before|..])
  {
    var stopped := Apply(s, MarkAborted);
    var asked := Asked(stopped, ops);
    StopMarksNextFailure(stopped, ops);
    FirstUnwound(asked);
    assert Closings(Run(stopped, ops).log)[|Closings(s.log)|..] == Marked(asked);
  }

  lemma MarkedOne(status: Status)
    ensures Marked([status]) == [if status == Error then Aborted else status]
    ensures Unwound([status]) <==> status == Error || status == Aborted
  {
    assert [status][..0] == [];
  }

  lemma {:induction false} FirstUnwound(asked: seq<Status>)
    ensures Aborted in Marked(asked) <==> Unwound(asked)
    ensures asked != [] ==> (Marked(asked)[0] == Aborted <==> asked[0] == Error || asked[0] == Aborted)
  {
    hide Marked, Unwound;
    if asked == [] {
      NothingMarked();
    } else {
      MarkedOne(Last(asked));
      if |asked| == 1 {
        assert asked == [Last(asked)];
      } else {
        FirstUnwound(Init(asked));
        assert asked == Init(asked) + [Last(asked)];
        MarkedAppend(Init(asked), [Last(asked)]);
      }
    }
  }

  /** A stop that arrives too late is kept: a call that completes does not use it up, and the next failure of the run is called aborted. */
  lemma StopOutlivesSuccess(s: State, a: Op, d: Details, t: Tick, b: Op, e: Details, u: Tick)
    requires a.Begin? && b.Begin?
    ensures var running := Apply(s, a);
      var log := Run(Apply(running, MarkAborted), [Complete(Completed, d, t), b, Complete(Error, e, u)]).log;
      Closings(log) == Closings(running.log) + [Completed, Aborted] && Last(log).request.requestId == b.id
  {
    hide Closings, Marked, Unwound;
    var ops := [Complete(Completed, d, t), b, Complete(Error, e, u)];
    assert ops[..0] == [] && Init(ops) == ops[..2] && Init(ops[..2]) == ops[..1] && Init(ops[..1]) == [];
    var s1 := Apply(Apply(s, a), MarkAborted);
    var s2 := Apply(s1, ops[0]);
    var s3 := Apply(s2, ops[1]);
    assert Run(s1, []) == s1 && Run(s1, ops[..1]) == s2 && Run(s1, ops[..2]) == s3;
    MarkedOne(Completed);
    MarkedOne(Error);
    NothingMarked();
    StepClosings(s1, ops[0]);
    StepClosings(s2, ops[1]);
    StepClosings(s3, ops[2]);
  }

  // ---------------------------------------------------------------- timing

  /** Time to first output and decoding time add up exactly when the first output lies between start and end, either way round. */
  lemma TimesAddUp(a: Active, t: Tick)
    requires a.firstOutput.Some?
    ensures var timing, first := TimingOf(a, t), a.firstOutput.value;
            timing.ttft.value + timing.decode.value == timing.duration
            <==> a.startedMono <= first <= t.mono || t.mono <= first <= a.startedMono
  {
  }

  /** The monotonic readings of a call, in the order they are taken. */
  function Readings(op: Op): seq<real> {
    match op
    case Begin(_, _, _, closing, opening) => [closing.mono, opening.mono]
    case Observe(_, mono) => [mono]
    case Complete(_, _, at) => [at.mono]
    case Interrupt(at) => [at.mono]
    case _ => []
  }

  function AllReadings(ops: seq<Op>): seq<real> {
    if ops == [] then [] else AllReadings(Init(ops)) + Readings(Last(ops))
  }

  ghost predicate Monotone(xs: seq<real>) {
    forall i, j :: 0 <= i < j < |xs| ==> xs[i] <= xs[j]
  }

  /** Every reading of the list is at least `x`. */
  ghost predicate NotBefore(x: real, xs: seq<real>) {
    forall i :: 0 <= i < |xs| ==> x <= xs[i]
  }

  predicate TimedWell(r: Report) {
    r.Closed? ==>
      && r.request.timing.Some?
      && var timing := r.request.timing.value;
      && timing.duration >= 0.0
      && (timing.ttft.Some? <==> timing.decode.Some?)
      && (timing.ttft.Some? ==>
            && timing.ttft.value >= 0.0 && timing.decode.value >= 0.0
            && timing.ttft.value + timing.decode.value == timing.duration)
  }

  ghost predicate AllTimedWell(log: seq<Report>) {
    forall i :: 0 <= i < |log| ==> TimedWell(log[i])
  }

  /** The clock of the active call has not passed `latest`. */
  predicate Before(s: State, latest: real) {
    s.active.Some? ==>
      && s.active.value.startedMono <= latest
      && (s.active.value.firstOutput.Some? ==>
            s.active.value.startedMono <= s.active.value.firstOutput.value <= latest)
  }

  lemma SettleTimed(s: State, status: Status, d: Details, t: Tick)
    requires AllTimedWell(s.log) && Before(s, t.mono)
    ensures AllTimedWell(Settle(s, status, d, t).log)
  {
  }

  lemma ApplyTimed(s: State, op: Op, latest: real)
    requires AllTimedWell(s.log) && Before(s, latest)
    requires NotBefore(latest, Readings(op)) && Monotone(Readings(op))
    ensures AllTimedWell(Apply(s, op).log)
    ensures Before(Apply(s, op), if Readings(op) == [] then latest else Last(Readings(op)))
  {
    match op
    case Begin(_, _, _, closing, opening) =>
      assert Readings(op)[0] == closing.mono && Readings(op)[1] == opening.mono;
      SettleTimed(s, Interrupted, NO_DETAILS, closing);
    case Observe(_, mono) => assert Readings(op)[0] == mono;
    case Complete(status, details, at) =>
      assert Readings(op)[0] == at.mono;
      SettleTimed(s, status, details, at);
    case Interrupt(at) =>
      assert Readings(op)[0] == at.mono;
      SettleTimed(s, Interrupted, NO_DETAILS, at);
    case _ =>
  }

  lemma MonotoneParts(xs: seq<real>, ys: seq<real>)
    requires Monotone(xs + ys)
    ensures Monotone(xs) && Monotone(ys)
    ensures xs != [] ==> NotBefore(Last(xs), ys)
  {
    forall i, j | 0 <= i < j < |xs| ensures xs[i] <= xs[j] {
      assert (xs + ys)[i] <= (xs + ys)[j];
    }
    forall i, j | 0 <= i < j < |ys| ensures ys[i] <= ys[j] {
      assert (xs + ys)[|xs| + i] <= (xs + ys)[|xs| + j];
    }
    if xs != [] {
      forall i | 0 <= i < |ys| ensures Last(xs) <= ys[i] {
        assert (xs + ys)[|xs| - 1] <= (xs + ys)[|xs| + i];
      }
    }
  }

  /** The readings so far bound the clock of the active call. */
  ghost predicate Within(s: State, xs: seq<real>) {
    if xs == [] then s.active.None? else Before(s, Last(xs))
  }

  lemma TimedStep(s: State, op: Op, xs: seq<real>)
    requires AllTimedWell(s.log) && Within(s, xs)
    requires Monotone(xs + Readings(op))
    ensures AllTimedWell(Apply(s, op).log) && Within(Apply(s, op), xs + Readings(op))
  {
    hide TimedWell;
    var ys := Readings(op);
    MonotoneParts(xs, ys);
    if xs != [] {
      ApplyTimed(s, op, Last(xs));
      assert ys == [] ==> xs + ys == xs;
    } else if ys != [] {
      ApplyTimed(s, op, ys[0]);
      assert xs + ys == ys;
    }
  }

  lemma NothingTimed()
    ensures AllTimedWell(INITIAL.log) && Within(INITIAL, [])
  {
  }

  lemma {:induction false} RunTimed(ops: seq<Op>)
    requires Monotone(AllReadings(ops))
    ensures AllTimedWell(Run(INITIAL, ops).log) && Within(Run(INITIAL, ops), AllReadings(ops))
  {
    hide AllTimedWell, Within, Apply, Readings, Monotone;
    if ops == [] {
      NothingTimed();
    } else {
      MonotoneParts(AllReadings(Init(ops)), Readings(Last(ops)));
      RunTimed(Init(ops));
      TimedStep(Run(INITIAL, Init(ops)), Last(ops), AllReadings(Init(ops)));
    }
  }

  /** With a monotone clock, every closed call that produced output has `ttft + decode == duration`, and no time is negative. */
  lemma TimesOfEveryCall(ops: seq<Op>)
    requires Monotone(AllReadings(ops))
    ensures AllTimedWell(Run(INITIAL, ops).log)
  {
    RunTimed(ops);
  }

  /** The reading taken at the first event with real output. */
  function FirstReading(events: seq<(Option<Event>, real)>): Option<real> {
    if events == [] then None
    else if FirstReading(Init(events)).Some? then FirstReading(Init(events))
    else if Effective(Last(events).0) then Some(Last(events).1)
    else None
  }

  function Observations(events: seq<(Option<Event>, real)>): (ops: seq<Op>)
    ensures |ops| == |events|
    ensures forall i :: 0 <= i < |ops| ==> ops[i] == Observe(events[i].0, events[i].1)
  {
    if events == [] then [] else Observations(Init(events)) + [Observe(Last(events).0, Last(events).1)]
  }

  lemma BegunIsOpen(s: State, begin: Op)
    requires begin.Begin?
    ensures var begun := Apply(s, begin);
            begun.active.Some? && begun == begun.(active := Some(begun.active.value.(firstOutput := None)))
  {
  }

  lemma ObserveOne(s: State, event: Option<Event>, mono: real)
    requires s.active.Some?
    ensures Apply(s, Observe(event, mono)) ==
            if s.active.value.firstOutput.None? && Effective(event)
            then s.(active := Some(s.active.value.(firstOutput := Some(mono)))) else s
  {
  }

  /** The first output of a call is its first effective event; later ones and empty ones do not move it. */
  lemma {:induction false} FirstOutputWins(s: State, begin: Op, events: seq<(Option<Event>, real)>)
    requires begin.Begin?
    ensures var begun := Apply(s, begin);
            Run(begun, Observations(events)) ==
            begun.(active := Some(begun.active.value.(firstOutput := FirstReading(events))))
  {
    hide Apply, Effective;
    BegunIsOpen(s, begin);
    if events != [] {
      assert Init(Observations(events)) == Observations(Init(events));
      FirstOutputWins(s, begin, Init(events));
      ObserveOne(Run(Apply(s, begin), Observations(Init(events))), Last(events).0, Last(events).1);
    }
  }

  // ---------------------------------------------------------------- bracketing

  ghost predicate NoBegin(ops: seq<Op>) {
    forall op :: op in ops ==> !op.Begin?
  }

  lemma {:induction false} ClosesOnce(s: State, ops: seq<Op>)
    requires NoBegin(ops)
    requires s.active.Some?
    ensures var t := Run(s, ops);
            if t.active.Some? then
              t.log == s.log && t.active.value.requestId == s.active.value.requestId
            else
              && |t.log| == |s.log| + 1 && t.log[..|s.log|] == s.log
              && Last(t.log).Closed? && Last(t.log).request.requestId == s.active.value.requestId
  {
    if ops != [] {
      assert Last(ops) in ops && forall op :: op in Init(ops) ==> op in ops;
      ClosesOnce(s, Init(ops));
    }
  }

  /** A bracketed call that fails is opened and closed exactly once, whatever was reported about it meanwhile. */
  lemma FailureClosesOnce(s: State, begin: Op, meanwhile: seq<Op>, at: Tick)
    requires begin.Begin? && NoBegin(meanwhile)
    ensures var begun := Apply(s, begin);
            var t := Apply(Run(begun, meanwhile), Complete(Error, NO_DETAILS, at));
            && t.active.None?
            && |t.log| == |begun.log| + 1 && t.log[..|begun.log|] == begun.log
            && Last(begun.log).Opened? && Last(begun.log).request.requestId == begin.id
            && Last(t.log).Closed? && Last(t.log).request.requestId == begin.id
  {
    ClosesOnce(Apply(s, begin), meanwhile);
  }

  // ---------------------------------------------------------------- what the two reports of a call say

  /** A text, thinking or argument delta that is not empty, or a tool call whose name has come. */
  predicate CarriesOutput(e: Event) {
    || ((e.kind == "text_delta" || e.kind == "thinking_delta" || e.kind == "toolcall_delta")
        && e.delta.Some? && |e.delta.value| > 0)
    || (e.kind == "toolcall_start" && e.content.Some? && |e.content.value| > 0 &&
        var part := e.content.value[|e.content.value| - 1];
        part.kind == "toolCall" && part.name.Some? && |part.name.value| > 0)
  }

  /** The reading at the first event that carries output. */
  function FirstOutput(ops: seq<Op>): Option<real> {
    if ops == [] then None
    else if FirstOutput(Init(ops)).Some? then FirstOutput(Init(ops))
    else
      match Last(ops)
      case Observe(Some(event), mono) => if CarriesOutput(event) then Some(mono) else None
      case _ => None
  }

  /** The time between two readings, none if the clock went back. */
  function Elapsed(from: real, to: real): real {
    if to < from then 0.0 else to - from
  }

  predicate Closes(op: Op) {
    op.Complete? || op.Interrupt? || op.Begin?
  }

  function ClosedAt(op: Op): Tick
    requires Closes(op)
  {
    match op
    case Complete(_, _, at) => at
    case Interrupt(at) => at
    case Begin(_, _, _, closing, _) => closing
  }

  ghost predicate NoneCloses(ops: seq<Op>) {
    forall op :: op in ops ==> !Closes(op)
  }

  lemma {:induction false} StaysOpen(s: State, begin: Op, ops: seq<Op>)
    requires begin.Begin? && NoneCloses(ops)
    ensures var u := Run(Apply(s, begin), ops);
            && u.log == Apply(s, begin).log
            && u.active == Some(Active(begin.id, s.sequence + 1, begin.provider, begin.model,
                                       begin.opening.now, begin.opening.mono, FirstOutput(ops)))
  {
    if ops != [] {
      assert Last(ops) in ops && forall op :: op in Init(ops) ==> op in ops;
      StaysOpen(s, begin, Init(ops));
    }
  }

  /**
   * The opening report says who is called and when. The closing report says so again, with the time to the first
   * output, the time from there and the time of all, none of the first two without output; with what the provider
   * reported, unless it is negative or empty.
   */
  lemma ReportsOfCall(s: State, begin: Op, ops: seq<Op>, closing: Op)
    requires begin.Begin? && NoneCloses(ops) && Closes(closing)
    ensures var before := Apply(s, begin).log;
            var log := Apply(Run(Apply(s, begin), ops), closing).log;
            && before != [] && Last(before).Opened?
            && |log| > |before| && log[..|before|] == before && log[|before|].Closed?
            && var first, r := Last(before).request, log[|before|].request;
            var b, f, c := begin.opening.mono, FirstOutput(ops), ClosedAt(closing).mono;
            && first.status == Running && first.timing == None && first.requestId == begin.id
            && first.sequence == s.sequence + 1 && first.startedAt == begin.opening.now
            && (first.provider == if begin.provider == Some("") then None else begin.provider)
            && (first.model == if begin.model == Some("") then None else begin.model)
            && SameCall(first, r) && r.timing.Some?
            && r.timing.value.endedAt == ClosedAt(closing).now
            && r.timing.value.duration == Elapsed(b, c)
            && (r.timing.value.ttft == if f == None then None else Some(Elapsed(b, f.value)))
            && (r.timing.value.decode == if f == None then None else Some(Elapsed(f.value, c)))
    ensures var r := Apply(Run(Apply(s, begin), ops), closing).log[|Apply(s, begin).log|].request;
            if closing.Complete? then
              var d := closing.details;
              && (r.input.Some? <==> d.input.Some? && d.input.value >= 0) && (r.input.Some? ==> r.input.value == d.input.value)
              && (r.output.Some? <==> d.output.Some? && d.output.value >= 0) && (r.output.Some? ==> r.output.value == d.output.value)
              && (r.finishReason == if d.finishReason == Some("") then None else d.finishReason)
              && r.toolUseIds == d.toolUseIds
            else r.status == Interrupted && r.input == None && r.output == None && r.finishReason == None && r.toolUseIds == []
  {
    hide Run;
    StaysOpen(s, begin, ops);
  }

  /** The tracker of one session; `log` holds the reports it has sent. */
  class Tracker {
    var active: Option<Active>
    var sequence: nat
    var abortRequested: bool
    var log: seq<Report>

    function Contents(): State
      reads this
    {
      State(active, sequence, abortRequested, log)
    }

    constructor ()
      ensures Contents() == INITIAL
    {
      active, sequence, abortRequested, log := None, 0, false, [];
    }

    method Restart()
      modifies this`sequence, this`abortRequested
      ensures Contents() == Apply(old(Contents()), StartRun)
    {
      sequence := 0;
      abortRequested := false;
    }

    method Stop()
      modifies this`abortRequested
      ensures Contents() == Apply(old(Contents()), MarkAborted)
    {
      abortRequested := true;
    }

    method SettleActive(status: Status, details: Details, at: Tick)
      modifies this`active, this`abortRequested, this`log
      ensures Contents() == Settle(old(Contents()), status, details, at)
    {
      if active.None? {
        return;
      }
      var a := active.value;
      active := None;
      var effective := if abortRequested && status == Error then Aborted else status;
      if effective == Aborted {
        abortRequested := false;
      }
      var timing := Timing(at.now, Clamp(at.mono - a.startedMono), None, None);
      if a.firstOutput.Some? {
        timing := timing.(
          ttft := Some(Clamp(a.firstOutput.value - a.startedMono)),
          decode := Some(Clamp(at.mono - a.firstOutput.value)));
      }
      assert timing == TimingOf(a, at);
      var request := Snapshot(a, effective).(
        timing := Some(timing),
        input := NonNegative(details.input),
        output := NonNegative(details.output),
        finishReason := NonEmpty(details.finishReason),
        toolUseIds := details.toolUseIds);
      log := log + [Closed(request)];
    }

    method BeginRequest(provider: Option<string>, model: Option<string>, newId: string, closing: Tick, opening: Tick)
      returns (id: string)
      modifies this
      ensures id == newId
      ensures Contents() == Apply(old(Contents()), Begin(provider, model, newId, closing, opening))
    {
      if active.Some? {
        SettleActive(Interrupted, NO_DETAILS, closing);
      }
      sequence := sequence + 1;
      active := Some(Active(newId, sequence, provider, model, opening.now, opening.mono, None));
      log := log + [Opened(Snapshot(active.value, Running))];
      return active.value.requestId;
    }

    method ObserveStreamEvent(event: Option<Event>, mono: real)
      modifies this`active
      ensures Contents() == Apply(old(Contents()), Observe(event, mono))
    {
      if active.None? || active.value.firstOutput.Some? {
        return;
      }
      if !Effective(event) {
        return;
      }
      active := Some(active.value.(firstOutput := Some(mono)));
    }

    method CompleteRequest(status: Status, details: Details, at: Tick)
      modifies this`active, this`abortRequested, this`log
      ensures Contents() == Apply(old(Contents()), Complete(status, details, at))
    {
      if active.None? {
        return;
      }
      SettleActive(status, details, at);
    }

    method InterruptActive(at: Tick)
      modifies this`active, this`abortRequested, this`log
      ensures Contents() == Apply(old(Contents()), Interrupt(at))
    {
      if active.Some? {
        SettleActive(Interrupted, NO_DETAILS, at);
      }
    }
  }
}
