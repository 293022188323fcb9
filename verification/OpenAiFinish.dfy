/** When the events that end an answer go out, and which calls are sent before them. */
module OpenAiFinish {
  import opened Options
  import opened Text
  import opened Json
  import opened ToolMetadata
  import opened DataEvents
  import opened OpenAiStream
  import opened OpenAiConservation
  import opened OpenAiText
  import S = SseEvents
  import LineFeed

  /** Some choice gives a reason for finishing, whatever the reason. */
  predicate Finishes(choices: seq<Choice>) {
    exists i :: 0 <= i < |choices| && choices[i].finish != ""
  }

  /** `[DONE]`, or an event in which a choice finishes. */
  predicate Ends(data: string) {
    var payload := PayloadOf(data);
    payload.Done? || (payload.Choices? && Finishes(payload.choices))
  }

  /** `[DONE]`, or an event without tool calls in which some choice finishes for `tool_calls` or for `stop`. */
  predicate Flushes(data: string) {
    var payload := PayloadOf(data);
    data == "[DONE]"
    || (payload.Choices?
        && (forall i :: 0 <= i < |payload.choices| ==> payload.choices[i].toolCalls == None)
        && (exists i :: 0 <= i < |payload.choices| && payload.choices[i].finish in ["tool_calls", "stop"]))
  }

  /** These are the events on which the stream flushes. */
  lemma FlushesMeans(data: string)
    ensures var payload := PayloadOf(data);
      Flushes(data) <==> payload.Done? || (payload.Choices? && !CarriesTools(payload.choices) && HasFinish(payload.choices))
  {
    DoneIsDone(data);
    hide PayloadOf;
  }

  lemma DoneIsDone(data: string)
    ensures PayloadOf(data).Done? <==> data == "[DONE]"
  {
    hide Parse, ChoicesOf;
  }

  lemma NothingToFlush(c: Core)
    requires c.calls == []
    ensures Flush(c).emitted == c.emitted && Flush(c).calls == []
  {
  }

  /** An event that ends an answer is suppressed, or sent behind the tracked calls, or sent ahead of them. */
  lemma EndStep(c: Core, data: string)
    requires Invariant(c) && Ends(data)
    ensures var c' := Process(c, data);
      && (ToolLine(DataLine(data)) ==> c'.emitted == c.emitted)
      && (Flushes(data) ==> !ToolLine(DataLine(data)) && c'.calls == [] && c'.emitted == Flush(c).emitted + [DataLine(data)])
      && (!ToolLine(DataLine(data)) && !Flushes(data) ==> c'.calls == c.calls && c'.emitted == c.emitted + [DataLine(data)])
  {
    hide Finishes, HasFinish, CarriesTools, Deltas, Flush, Flushes;
    FlushesMeans(data);
    FlushSends(c);
    var payload := PayloadOf(data);
    if payload.Choices? {
      ApplyAllEmits(c, Deltas(payload.choices));
    }
    if c.calls == [] {
      NothingToFlush(c);
    }
  }

  /** Of these lines every call opened is found in the output, unless another id replaced it. */
  ghost predicate AllSent(store: Store, lines: seq<string>, outs: seq<Out>) {
    forall k: Key :: Sent(k, Found(outs)) + ReplacedBy(k, Start(store), lines) == OpenedBy(k, Start(store), lines)
  }

  lemma NothingCounted()
    ensures forall k: Key :: Count(k, []) == 0
  {
  }

  /** With calls still tracked not all are sent; with none all are. */
  lemma SentUnlessTracked(store: Store, lines: seq<string>, c: Core)
    requires Sound(c)
    requires forall k: Key :: Account(k, c) + ReplacedBy(k, Start(store), lines) == OpenedBy(k, Start(store), lines)
    ensures AllSent(store, lines, c.emitted) <==> c.calls == []
  {
    hide ReplacedBy, OpenedBy, Found, Sent, Sound;
    if c.calls == [] {
      NothingCounted();
      forall k: Key ensures Sent(k, Found(c.emitted)) + ReplacedBy(k, Start(store), lines) == OpenedBy(k, Start(store), lines) {
        assert Account(k, c) == Sent(k, Found(c.emitted));
      }
    } else {
      var k := KeyOf(c.calls[0]);
      assert Count(k, c.calls) > 0;
      assert Account(k, c) > Sent(k, Found(c.emitted));
    }
  }

  lemma FlushedAccount(store: Store, lines: seq<string>, c: Core)
    requires Sound(c)
    requires forall k: Key :: Account(k, c) + ReplacedBy(k, Start(store), lines) == OpenedBy(k, Start(store), lines)
    ensures AllSent(store, lines, Flush(c).emitted)
  {
    hide ReplacedBy, OpenedBy, Account, Sound, AllSent, Flush;
    forall k: Key ensures Account(k, Flush(c)) == Account(k, c) && Sound(Flush(c)) && Flush(c).calls == [] {
      FlushBalances(k, c);
    }
    FlushBalances(Key(0, 0, ""), c);
    SentUnlessTracked(store, lines, Flush(c));
  }

  /** After these lines the event is sent, and every call opened before it is found in front of it. */
  ghost predicate FollowsCalls(store: Store, lines: seq<string>, data: string) {
    var c := LineFeed.Lines(Step, Start(store), lines);
    var outs := Process(c, data).emitted;
    |outs| > |c.emitted| && Last(outs) == DataLine(data) && AllSent(store, lines, Init(outs))
  }

  /**
   * An event that ends an answer follows all calls brought before it exactly when no choice of it carries tool calls
   * and either it is `[DONE]`, or some choice finishes for `tool_calls` or `stop`, or no call is tracked. For any
   * other reason, such as `length`, it goes out ahead of the tracked calls; with tool calls in it it does not go out.
   */
  lemma CallsPrecedeEnd(store: Store, lines: seq<string>, data: string)
    requires Ends(data)
    ensures var c := LineFeed.Lines(Step, Start(store), lines);
      var c' := Process(c, data);
      && (FollowsCalls(store, lines, data) <==> !ToolLine(DataLine(data)) && (Flushes(data) || c.calls == []))
      && (ToolLine(DataLine(data)) ==> c'.emitted == c.emitted)
      && (!ToolLine(DataLine(data)) && !Flushes(data) ==> c'.emitted == c.emitted + [DataLine(data)] && c'.calls == c.calls)
  {
    hide Process, Flush, AllSent, Account, ReplacedBy, OpenedBy, Sound, Ends, Flushes, ToolLine, LineFeed.Lines, Step;
    var c := LineFeed.Lines(Step, Start(store), lines);
    Accounts(store, lines);
    SoundMeans(c);
    EndStep(c, data);
    SentUnlessTracked(store, lines, c);
    FlushedAccount(store, lines, c);
    FlushGrows(c);
    assert Init(c.emitted + [DataLine(data)]) == c.emitted;
    assert Init(Flush(c).emitted + [DataLine(data)]) == Flush(c).emitted;
  }

  lemma OneAccount(store: Store, lines: seq<string>, k: Key)
    ensures var c := LineFeed.Lines(Step, Start(store), lines);
      Sound(c) && Account(k, c) + ReplacedBy(k, Start(store), lines) == OpenedBy(k, Start(store), lines)
  {
    hide LineFeed.Lines, Step, ReplacedBy, OpenedBy;
    LinesBalance(k, Start(store), lines);
  }

  lemma Accounts(store: Store, lines: seq<string>)
    ensures var c := LineFeed.Lines(Step, Start(store), lines);
      Sound(c) && forall k: Key :: Account(k, c) + ReplacedBy(k, Start(store), lines) == OpenedBy(k, Start(store), lines)
  {
    hide *;
    var c := LineFeed.Lines(Step, Start(store), lines);
    OneAccount(store, lines, Key(0, 0, ""));
    forall k: Key ensures Account(k, c) + ReplacedBy(k, Start(store), lines) == OpenedBy(k, Start(store), lines) {
      OneAccount(store, lines, k);
    }
  }

  lemma SoundMeans(c: Core)
    requires Sound(c)
    ensures Invariant(c)
  {
  }

  lemma {:induction false} FlushCallsGrows(c: Core, calls: seq<Call>)
    ensures |FlushCalls(c, calls).emitted| >= |c.emitted|
    decreases |calls|
  {
    if calls != [] {
      FlushCallsGrows(FlushCall(c, calls[0]), calls[1..]);
    }
  }

  lemma FlushGrows(c: Core)
    ensures |Flush(c).emitted| >= |c.emitted|
  {
    FlushCallsGrows(c, SortCalls(c.calls));
  }

  // ----- which endings a consumer sees -----

  predicate EndLine(out: Out) {
    out.DataLine? && Ends(out.data)
  }

  /** The events that end an answer, in order. */
  function Endings(outs: seq<Out>): seq<Out> {
    if outs == [] then [] else Endings(Init(outs)) + if EndLine(Last(outs)) then [Last(outs)] else []
  }

  /** No event with tool calls in it ends an answer. */
  ghost predicate ToolsDoNotEnd(outs: seq<Out>) {
    forall i :: 0 <= i < |outs| ==> !(ToolLine(outs[i]) && EndLine(outs[i]))
  }

  lemma {:induction false} EndingsUntouched(outs: seq<Out>)
    requires ToolsDoNotEnd(outs)
    ensures Endings(outs) == Endings(Untouched(outs))
  {
    hide ToolLine, EndLine;
    if outs != [] {
      var before, out := Untouched(Init(outs)), Last(outs);
      EndingsUntouched(Init(outs));
      assert Init(before + [out]) == before;
      assert Untouched(outs) == if ToolLine(out) then before else before + [out];
    }
  }

  lemma ConsolidatedDoesNotEnd(call: Call)
    ensures !EndLine(DataLine(Print(Consolidated(call))))
  {
    hide Consolidated, Print, PayloadOf;
    ConsolidatedReads(call);
  }

  lemma {:induction false} FlushCallsEnd(c: Core, calls: seq<Call>)
    requires ToolsDoNotEnd(c.emitted)
    ensures ToolsDoNotEnd(FlushCalls(c, calls).emitted)
    decreases |calls|
  {
    hide ToolLine, EndLine, Consolidated, Print;
    if calls != [] {
      ConsolidatedDoesNotEnd(calls[0]);
      FlushCallsEnd(FlushCall(c, calls[0]), calls[1..]);
    }
  }

  lemma ProcessEnds(c: Core, data: string)
    requires ToolsDoNotEnd(c.emitted)
    ensures ToolsDoNotEnd(Process(c, data).emitted)
  {
    hide EndLine, FlushCalls, CarriesTools, HasFinish, Deltas, PayloadOf, ApplyAll;
    FlushCallsEnd(c, SortCalls(c.calls));
    var payload := PayloadOf(data);
    if payload.Choices? {
      ApplyAllEmits(c, Deltas(payload.choices));
    }
  }

  lemma {:induction false} LinesEnd(c: Core, lines: seq<string>)
    requires ToolsDoNotEnd(c.emitted)
    ensures ToolsDoNotEnd(LineFeed.Lines(Step, c, lines).emitted)
    decreases |lines|
  {
    if lines != [] {
      StepEnds(c, lines[0]);
      LinesEnd(Step(c, lines[0]), lines[1..]);
    }
  }

  lemma StepEnds(c: Core, line: string)
    requires ToolsDoNotEnd(c.emitted)
    ensures ToolsDoNotEnd(Step(c, line).emitted)
  {
    hide Process, EndLine;
    var trimmed := Trim(line);
    if StartsWith(trimmed, "data: ") {
      ProcessEnds(c, trimmed[6..]);
    }
  }

  lemma FinishEnds(c: Core, line: string)
    requires ToolsDoNotEnd(c.emitted)
    ensures ToolsDoNotEnd(Finish(LineFeed.Feed(c, line)).emitted)
  {
    hide Process, ToolsDoNotEnd, FlushCalls;
    var trimmed := Trim(line);
    var c1 := if StartsWith(trimmed, "data: ") then Process(c, trimmed[6..]) else c;
    if StartsWith(trimmed, "data: ") {
      ProcessEnds(c, trimmed[6..]);
    }
    FlushCallsEnd(c1, SortCalls(c1.calls));
  }

  /**
   * Over a whole stream, cut anywhere: the events that end an answer come out unchanged and in order, except that
   * those which carry tool calls in any choice, be it an empty list, do not come out.
   */
  lemma EndingsPass(store: Store, chunks: seq<string>)
    ensures var lines := Split(Flatten(chunks));
      Endings(Run(store, chunks).emitted) == Endings(Untouched(LineOuts(Init(lines)) + LastOut(Last(lines))))
  {
    hide Endings, Untouched, LineOuts, LastOut, Step, Finish, ToolsDoNotEnd;
    var lines := Split(Flatten(chunks));
    LineFeed.CuttingIsIrrelevant(Step, LineFeed.Feed(Start(store), ""), chunks);
    assert "" + Flatten(chunks) == Flatten(chunks);
    NothingEnds(store);
    LinesEnd(Start(store), Init(lines));
    FinishEnds(LineFeed.Lines(Step, Start(store), Init(lines)), Last(lines));
    EndingsUntouched(Run(store, chunks).emitted);
    OthersPassInOrder(store, chunks);
  }

  lemma NothingEnds(store: Store)
    ensures ToolsDoNotEnd(Start(store).emitted)
  {
  }

  // ----- runs in which an ending comes too early, or not at all -----

  /** An event with one choice, which finishes for this reason. */
  function FinishBody(choice: int, reason: string): Json {
    Obj([Field("choices", Arr([Obj([Field("index", Num(choice)), Field("finish_reason", Str(reason))])]))])
  }

  /** The same with an empty list of tool calls. */
  function ToolFinishBody(reason: string): Json {
    var delta := Obj([Field("tool_calls", Arr([]))]);
    Obj([Field("choices", Arr([Obj([Field("delta", delta), Field("finish_reason", Str(reason))])]))])
  }

  lemma FinishReads(choice: int, reason: string)
    ensures PayloadOf(Print(FinishBody(choice, reason))) == Choices([Choice(Some(choice), None, reason)])
  {
    var a, b := Field("index", Num(choice)), Field("finish_reason", Str(reason));
    GetTwo(a, b, "index");
    GetTwo(a, b, "delta");
    GetTwo(a, b, "finish_reason");
    TwoWellFormed(a, b);
    BodyReads(Obj([a, b]));
    PayloadReads(FinishBody(choice, reason), Obj([a, b]));
  }

  lemma FinishIsEnding(choice: int, reason: string)
    requires reason != ""
    ensures EndLine(DataLine(Print(FinishBody(choice, reason))))
  {
    hide FinishBody, PayloadOf;
    FinishReads(choice, reason);
    assert [Choice(Some(choice), None, reason)][0].finish != "";
  }

  lemma NoToolsRead()
    ensures var delta := Obj([Field("tool_calls", Arr([]))]);
      WellFormed(delta) && FieldOf(delta, "tool_calls") == Some(Arr([])) && ToolDeltasOf([]) == []
  {
    var tools := Field("tool_calls", Arr([]));
    assert [tools] + [] == [tools];
    GetCons(tools, [], "tool_calls");
    assert WellFormed(Arr([]));
  }

  lemma ToolFinishReads(reason: string)
    ensures PayloadOf(Print(ToolFinishBody(reason))) == Choices([Choice(None, Some([]), reason)])
  {
    hide PayloadOf, Print, Get, WellFormed;
    var delta := Obj([Field("tool_calls", Arr([]))]);
    var a, b := Field("delta", delta), Field("finish_reason", Str(reason));
    NoToolsRead();
    ReasonWellFormed(reason);
    GetTwo(a, b, "index");
    GetTwo(a, b, "delta");
    GetTwo(a, b, "finish_reason");
    TwoWellFormed(a, b);
    BodyReads(Obj([a, b]));
    PayloadReads(ToolFinishBody(reason), Obj([a, b]));
  }

  lemma ReasonWellFormed(reason: string)
    ensures WellFormed(Str(reason))
  {
  }

  lemma PrintedIsPlain(fields: Fields)
    ensures Plain(Print(Obj(fields)))
  {
    hide Print;
    PrintedBraces(fields);
    PrintNoControl(Obj(fields));
  }

  /** The events of one stream: a call is opened, then an answer finishes. */
  function Early(call: Call, reason: string): seq<DataText> {
    [DataText(Print(Consolidated(call)), true), DataText(Print(FinishBody(call.choice, reason)), true)]
  }

  /** The call as the stream tracks it. */
  function Tracked(call: Call): Call {
    Open(call.choice, call.tool, Report(call).1)
  }

  lemma OpensCall(store: Store, choice: int, tool: int, d: ToolDelta, data: string)
    requires d.id != "" && PayloadOf(data) == Choices([Choice(Some(choice), Some([d]), "")]) && d.index == Some(tool)
    ensures Process(Start(store), data) == Start(store).(
      calls := [Open(choice, tool, d)], lastOpened := map[choice := tool], buffering := true)
  {
    hide PayloadOf;
    var choices := [Choice(Some(choice), Some([d]), "")];
    assert choices[0].toolCalls.Some? && choices[1..] == [];
    assert Deltas(choices) == At(choice, [d]) + Deltas([]);
    assert Deltas(choices) == [(choice, d)] && [(choice, d)][1..] == [];
    assert ApplyAll(Start(store), [(choice, d)]) == Apply(Start(store), choice, d);
  }

  /**
   * Any call followed by a finish for another reason than `tool_calls` or `stop`: however the text is cut, the finish
   * comes out first and the call after it.
   */
  lemma OtherReasonsComeFirst(store: Store, call: Call, reason: string, chunks: seq<string>)
    requires call.id != "" && reason !in ["", "tool_calls", "stop"]
    requires Flatten(chunks) == Written(Early(call, reason))
    ensures var outs := Run(store, chunks).emitted;
      |outs| == 2 && outs[0] == DataLine(Print(FinishBody(call.choice, reason)))
      && EndLine(outs[0]) && FoundIn(outs[1]) == [Report(Tracked(call))]
  {
    hide Consolidated, FinishBody, FoundIn, EndLine, OutArgs, StepEach, Flush, Tracked, Early, Run, Written;
    EarlyIsPlain(call, reason);
    RunOnWritten(store, Early(call, reason), chunks);
    EarlySteps(store, call, reason);
    FinishIsEnding(call.choice, reason);
    ReportFound(Tracked(call));
    FlushOne(StepEach(Start(store), Early(call, reason)), Tracked(call));
  }

  lemma EarlyIsPlain(call: Call, reason: string)
    ensures AllPlain(Early(call, reason))
  {
    hide Plain;
    PrintedIsPlain(Consolidated(call).fields);
    PrintedIsPlain(FinishBody(call.choice, reason).fields);
  }

  lemma EarlySteps(store: Store, call: Call, reason: string)
    requires call.id != "" && reason !in ["", "tool_calls", "stop"]
    ensures var c := StepEach(Start(store), Early(call, reason));
      c.calls == [Tracked(call)] && c.emitted == [DataLine(Print(FinishBody(call.choice, reason)))]
  {
    hide Consolidated, FinishBody, PayloadOf, OutArgs, Print, Process, ToolEvent;
    var lines := Early(call, reason);
    assert Init(lines) == [lines[0]] && Init([lines[0]]) == [];
    assert StepEach(Start(store), []) == Start(store);
    ConsolidatedReads(call);
    OpensCall(store, call.choice, call.tool, Report(call).1, lines[0].data);
    FinishReads(call.choice, reason);
    PassedOn(StepEach(Start(store), [lines[0]]), call.choice, reason, lines[1].data);
  }

  lemma PassedOn(c: Core, choice: int, reason: string, data: string)
    requires reason !in ["", "tool_calls", "stop"] && PayloadOf(data) == Choices([Choice(Some(choice), None, reason)])
    ensures Process(c, data) == Emit(c, DataLine(data))
  {
    hide PayloadOf;
  }

  lemma FlushOne(c: Core, call: Call)
    requires c.calls == [call]
    ensures Flush(c).emitted == c.emitted + [DataLine(Print(Consolidated(call)))]
  {
    hide Consolidated;
    assert Init([call]) == [] && SortCalls([]) == [] && SortCalls([call]) == [call] && [call][1..] == [];
    var sent := FlushCall(c, call);
    assert FlushCalls(sent, []) == sent && FlushCalls(c, [call]) == FlushCalls(sent, []);
  }

  /** A finish in an event that has a list of tool calls, be it empty: for any reason, nothing comes out. */
  lemma FinishSuppressed(store: Store, reason: string, chunks: seq<string>)
    requires Flatten(chunks) == Written([DataText(Print(ToolFinishBody(reason)), true)])
    ensures reason != "" ==> Ends(Print(ToolFinishBody(reason)))
    ensures Run(store, chunks).emitted == []
  {
    hide ToolFinishBody, PayloadOf, Run, Written, Plain, Print;
    var lines := [DataText(Print(ToolFinishBody(reason)), true)];
    PrintedIsPlain(ToolFinishFields(reason));
    ToolFinishReads(reason);
    RunOnWritten(store, lines, chunks);
    assert Init(lines) == [] && StepEach(Start(store), []) == Start(store);
    var choices := [Choice(None, Some([]), reason)];
    assert choices[0].toolCalls.Some? && choices[1..] == [];
    assert Deltas(choices) == At(0, []) + Deltas([]);
  }

  function ToolFinishFields(reason: string): (r: Fields)
    ensures r != [] && ToolFinishBody(reason) == Obj(r)
  {
    ToolFinishBody(reason).fields
  }
}
