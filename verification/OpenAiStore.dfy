/** What the OpenAI stream remembers of the calls it sends, and that replaying them restores their metadata. */
module OpenAiStore {
  import opened Options
  import opened Text
  import opened Json
  import opened ToolMetadata
  import opened DataEvents
  import opened OpenAiStream
  import opened OpenAiConservation
  import opened OpenAiText
  import opened OpenAiRelays
  import F = OpenAiFinish
  import T = OpenAiRelayText
  import LineFeed

  /** A call's arguments as the model meant them: its own text's map, overridden by every object shifted onto it. */
  function ArgumentsOf(call: Call): map<string, Json> {
    Overridden(AsMap(FieldsIn(call.args)), call.shifted)
  }

  /** The metadata of the last of these calls under an id that has any, or else what was stored before. */
  function Remembered(store: Store, calls: seq<Call>, id: string): Option<Meta> {
    if calls == [] then MetaAt(store, id)
    else
      var call, meta := Last(calls), MetaIn(ArgumentsOf(Last(calls)));
      if call.id == id && WorthKeeping(meta) then Some(meta) else Remembered(store, Init(calls), id)
  }

  ghost predicate Remembers(c: Core, store: Store, calls: seq<Call>) {
    forall id: string :: MetaAt(c.store, id) == Remembered(store, calls, id)
  }

  lemma StoreAfterMeans(store: Store, call: Call)
    ensures var meta := MetaIn(ArgumentsOf(call));
            StoreAfter(store, call) == if WorthKeeping(meta) then store[call.id := meta] else store
  {
    hide MergeAll, Overridden, AsMap, Capture, MetaIn;
    MergeAllMap(FieldsIn(call.args), call.shifted);
    CaptureMeaning(store, call.id, Merged(call));
    if PassedRaw(call) {
      NothingMeant(call);
    }
  }

  lemma NothingMeant(call: Call)
    requires PassedRaw(call)
    ensures !WorthKeeping(MetaIn(ArgumentsOf(call)))
  {
    assert FieldsIn(call.args) == [] && AsMap([]) == map[];
  }

  lemma FlushCallRemembers(c: Core, store: Store, calls: seq<Call>, call: Call)
    requires Remembers(c, store, calls)
    ensures Remembers(FlushCall(c, call), store, calls + [call])
  {
    hide ArgumentsOf, MetaIn, WorthKeeping, StoreAfter;
    StoreAfterMeans(c.store, call);
    assert Init(calls + [call]) == calls && Last(calls + [call]) == call;
    forall id: string ensures MetaAt(FlushCall(c, call).store, id) == Remembered(store, calls + [call], id) {
      assert MetaAt(c.store, id) == Remembered(store, calls, id);
    }
  }

  lemma {:induction false} FlushCallsRemember(c: Core, store: Store, calls: seq<Call>, more: seq<Call>)
    requires Remembers(c, store, calls)
    ensures Remembers(FlushCalls(c, more), store, calls + more)
    decreases |more|
  {
    hide Remembers, FlushCall;
    if more == [] {
      assert calls + more == calls;
    } else {
      FlushCallRemembers(c, store, calls, more[0]);
      FlushCallsRemember(FlushCall(c, more[0]), store, calls + [more[0]], more[1..]);
      assert calls + [more[0]] + more[1..] == calls + more;
    }
  }

  // ----- over a whole stream -----

  /** The calls a line makes the stream send. */
  function SentBy(c: Core, line: string): seq<Call> {
    var trimmed := Trim(line);
    if StartsWith(trimmed, "data: ") && F.Flushes(trimmed[6..]) then SortCalls(c.calls) else []
  }

  function SentByAll(c: Core, lines: seq<string>): seq<Call>
    decreases |lines|
  {
    if lines == [] then [] else SentBy(c, lines[0]) + SentByAll(Step(c, lines[0]), lines[1..])
  }

  /** All calls a stream sends, those at its end included. */
  function AllSent(store: Store, lines: seq<string>): seq<Call>
    requires lines != []
  {
    var c := LineFeed.Lines(Step, Start(store), Init(lines));
    var last := Trim(Last(lines));
    SentByAll(Start(store), lines)
    + SortCalls(if StartsWith(last, "data: ") then Process(c, last[6..]).calls else c.calls)
  }

  /** What has been sent are these calls, and their metadata is remembered. */
  ghost predicate Ledger(c: Core, store: Store, calls: seq<Call>) {
    Invariant(c) && Found(c.emitted) == Reports(calls) && Remembers(c, store, calls)
  }

  lemma {:induction false} ReportsAppend(a: seq<Call>, b: seq<Call>)
    ensures Reports(a + b) == Reports(a) + Reports(b)
    decreases |a|
  {
    hide Report;
    if a == [] {
      assert a + b == b;
    } else {
      ReportsAppend(a[1..], b);
      assert (a + b)[1..] == a[1..] + b;
    }
  }

  lemma FlushLedger(c: Core, store: Store, calls: seq<Call>)
    requires Ledger(c, store, calls)
    ensures Ledger(Flush(c), store, calls + SortCalls(c.calls)) && Flush(c).calls == []
  {
    hide Invariant, Found, Reports, SortCalls, FlushCalls, Remembered;
    FlushSends(c);
    ReportsAppend(calls, SortCalls(c.calls));
    FlushCallsRemember(c, store, calls, SortCalls(c.calls));
  }

  lemma EmitLedger(c: Core, store: Store, calls: seq<Call>, out: Out)
    requires Ledger(c, store, calls) && FoundIn(out) == []
    ensures Ledger(Emit(c, out), store, calls)
  {
    hide Found, Reports, FoundIn, OnePerKey, AllComplete, Remembered;
    FoundSnoc(c.emitted, out);
    assert Found(c.emitted) + [] == Found(c.emitted);
  }

  lemma {:induction false} DeltasKeepStore(c: Core, deltas: seq<(int, ToolDelta)>)
    ensures ApplyAll(c, deltas).store == c.store
    decreases |deltas|
  {
    if deltas != [] {
      DeltasKeepStore(Apply(c, deltas[0].0, deltas[0].1), deltas[1..]);
    }
  }

  lemma DeltasLedger(c: Core, store: Store, calls: seq<Call>, deltas: seq<(int, ToolDelta)>)
    requires Ledger(c, store, calls)
    ensures Ledger(ApplyAll(c, deltas), store, calls)
  {
    hide Found, Reports, ApplyAll, Remembered, Invariant;
    ApplyAllBalances(Key(0, 0, ""), c, deltas);
    DeltasKeepStore(c, deltas);
  }

  lemma ProcessLedger(c: Core, store: Store, calls: seq<Call>, data: string)
    requires Ledger(c, store, calls)
    ensures Ledger(Process(c, data), store, calls + if F.Flushes(data) then SortCalls(c.calls) else [])
  {
    hide Ledger, PayloadOf, Flush, ApplyAll, Deltas, SortCalls, FoundIn, HasFinish, CarriesTools, F.Flushes;
    F.FlushesMeans(data);
    FlushLedger(c, store, calls);
    assert calls + [] == calls;
    if ToolLine(DataLine(data)) {
      DeltasLedger(c, store, calls, Deltas(PayloadOf(data).choices));
    } else {
      T.NothingFound(data);
      EmitLedger(c, store, calls, DataLine(data));
      EmitLedger(Flush(c), store, calls + SortCalls(c.calls), DataLine(data));
      LedgerBuffers(c, store, calls);
    }
  }

  /** Without buffering a flush has nothing to do. */
  lemma LedgerBuffers(c: Core, store: Store, calls: seq<Call>)
    requires Ledger(c, store, calls)
    ensures !c.buffering ==> SortCalls(c.calls) == []
  {
  }

  lemma StepLedger(c: Core, store: Store, calls: seq<Call>, line: string)
    requires Ledger(c, store, calls)
    ensures Ledger(Step(c, line), store, calls + SentBy(c, line))
  {
    hide Ledger, Process, F.Flushes, SortCalls;
    var trimmed := Trim(line);
    assert calls + [] == calls;
    if StartsWith(trimmed, "data: ") {
      ProcessLedger(c, store, calls, trimmed[6..]);
    } else if trimmed != "" {
      EmitLedger(c, store, calls, RawLine(trimmed));
    }
  }

  lemma {:induction false} LinesLedger(c: Core, store: Store, calls: seq<Call>, lines: seq<string>)
    requires Ledger(c, store, calls)
    ensures Ledger(LineFeed.Lines(Step, c, lines), store, calls + SentByAll(c, lines))
    decreases |lines|
  {
    hide Ledger, Step, SentBy;
    if lines == [] {
      assert calls + [] == calls;
    } else {
      StepLedger(c, store, calls, lines[0]);
      LinesLedger(Step(c, lines[0]), store, calls + SentBy(c, lines[0]), lines[1..]);
      assert calls + SentBy(c, lines[0]) + SentByAll(Step(c, lines[0]), lines[1..]) == calls + SentByAll(c, lines);
    }
  }

  lemma {:induction false} SentSnoc(c: Core, lines: seq<string>)
    requires lines != []
    ensures SentByAll(c, lines) == SentByAll(c, Init(lines)) + SentBy(LineFeed.Lines(Step, c, Init(lines)), Last(lines))
    decreases |lines|
  {
    hide Step, SentBy;
    if |lines| == 1 {
      assert Init(lines) == [] && lines[1..] == [];
      assert SentByAll(Step(c, lines[0]), []) == [] && SentByAll(c, []) == [];
    } else {
      assert Init(lines)[1..] == Init(lines[1..]);
      SentSnoc(Step(c, lines[0]), lines[1..]);
    }
  }

  lemma NothingSent(store: Store)
    ensures Ledger(Start(store), store, [])
  {
  }

  lemma FinishLedger(c: Core, store: Store, calls: seq<Call>, line: string)
    requires Ledger(c, store, calls)
    ensures var last := Trim(line);
            Ledger(Finish(LineFeed.Feed(c, line)), store,
                   calls + SentBy(c, line) + SortCalls(if StartsWith(last, "data: ") then Process(c, last[6..]).calls else c.calls))
  {
    hide Ledger, Process, F.Flushes, SortCalls, Flush;
    var last := Trim(line);
    assert calls + [] == calls;
    var c1 := c;
    if StartsWith(last, "data: ") {
      ProcessLedger(c, store, calls, last[6..]);
      c1 := Process(c, last[6..]);
    }
    FlushLedger(c1, store, calls + SentBy(c, line));
    NoneSorted();
    assert calls + SentBy(c, line) + [] == calls + SentBy(c, line);
  }

  lemma NoneSorted()
    ensures SortCalls([]) == []
  {
  }

  /**
   * Over a whole stream, cut anywhere: what a reader finds are the calls sent, and the store holds, under every id, the
   * metadata of the last of them with that id that has any, and nothing else new.
   */
  lemma StreamStore(store: Store, chunks: seq<string>)
    ensures var calls, c := AllSent(store, Split(Flatten(chunks))), Run(store, chunks);
      && Found(c.emitted) == Reports(calls)
      && forall id: string :: MetaAt(c.store, id) == Remembered(store, calls, id)
  {
    LineFeed.CuttingIsIrrelevant(Step, LineFeed.Feed(Start(store), ""), chunks);
    hide SentBy, SentByAll, Step, Finish, Process, SortCalls, Found, Reports, Remembered, Split, Flatten;
    var lines := Split(Flatten(chunks));
    var c := LineFeed.Lines(Step, Start(store), Init(lines));
    assert "" + Flatten(chunks) == Flatten(chunks);
    NothingSent(store);
    LinesLedger(Start(store), store, [], Init(lines));
    assert [] + SentByAll(Start(store), Init(lines)) == SentByAll(Start(store), Init(lines));
    FinishLedger(c, store, SentByAll(Start(store), Init(lines)), Last(lines));
    SentSnoc(Start(store), lines);
  }

  // ----- replaying a call -----

  lemma {:induction false} OnlyOne(store: Store, calls: seq<Call>, k: nat)
    requires k < |calls| && calls[k].id !in store
    requires forall j :: 0 <= j < |calls| && j != k ==> calls[j].id != calls[k].id
    ensures var meta := MetaIn(ArgumentsOf(calls[k]));
            Remembered(store, calls, calls[k].id) == if WorthKeeping(meta) then Some(meta) else None
  {
    hide ArgumentsOf, MetaIn, WorthKeeping;
    if k < |calls| - 1 {
      OnlyOne(store, Init(calls), k);
    } else {
      Unheard(store, Init(calls), calls[k].id);
    }
  }

  lemma {:induction false} Unheard(store: Store, calls: seq<Call>, id: string)
    requires forall j :: 0 <= j < |calls| ==> calls[j].id != id
    ensures Remembered(store, calls, id) == MetaAt(store, id)
  {
    hide ArgumentsOf, MetaIn, WorthKeeping;
    if calls != [] {
      Unheard(store, Init(calls), id);
    }
  }

  /**
   * A call sent under an id of its own reaches the consumer with its arguments less their metadata, and re-injecting
   * what the stream stored gives the arguments back as the model meant them exactly when their metadata is restorable.
   */
  lemma ReplayRestores(store: Store, chunks: seq<string>, k: nat)
    requires var calls := AllSent(store, Split(Flatten(chunks)));
      && k < |calls| && calls[k].id !in store && !PassedRaw(calls[k])
      && forall j :: 0 <= j < |calls| && j != k ==> calls[j].id != calls[k].id
    ensures var c, call := Run(store, chunks), AllSent(store, Split(Flatten(chunks)))[k];
      && k < |Found(c.emitted)| && Found(c.emitted)[k].1.id == call.id
      && var sent := ObjectIn(Found(c.emitted)[k].1.args);
      && sent.Some? && AsMap(sent.value) == Bare(ArgumentsOf(call))
      && (AsMap(Reinject(c.store, call.id, sent.value)) == ArgumentsOf(call) <==> RestorableMap(ArgumentsOf(call)))
  {
    hide AllSent, Run, Found, Reports, OutArgs, Remembered, ArgumentsOf, AsMap, Overridden, Bare, Stored, MetaIn, WorthKeeping;
    var calls, c := AllSent(store, Split(Flatten(chunks))), Run(store, chunks);
    var call := calls[k];
    StreamStore(store, chunks);
    ReportsAt(calls);
    OnlyOne(store, calls, k);
    var sent := SentArguments(call);
    ReinjectMeaning(c.store, call.id, sent);
    TakenApart(ArgumentsOf(call));
  }

  lemma SentArguments(call: Call) returns (sent: Fields)
    requires !PassedRaw(call)
    ensures ObjectIn(Report(call).1.args) == Some(sent) && Distinct(sent) && AsMap(sent) == Bare(ArgumentsOf(call))
  {
    hide Print, Parse, Merged, AsMap, Overridden;
    OutArgsMap(call);
    sent := ObjectIn(Report(call).1.args).value;
    assert WellFormed(Obj(sent));
  }

  // ----- one call from two deltas -----

  /**
   * A call opened by one delta, be it in the place of another, and gone on with by one at its index or without any: it
   * has its own id, its kind or `function`, the arguments of both, and the name it was opened with unless that is
   * missing or `unknown` and the other delta, under the same id, has one.
   */
  lemma TwoDeltas(c: Core, choice: int, tool: int, d: ToolDelta, e: ToolDelta)
    requires d.id != "" && (e.id == "" || e.id == d.id) && d.index == Some(tool) && e.index in [None, Some(tool)]
    requires forall i :: 0 <= i < |c.calls| && c.calls[i].choice == choice && c.calls[i].tool == tool ==> c.calls[i].id != d.id
    ensures Find(Apply(Apply(c, choice, d), choice, e).calls, choice, tool) ==
      Some(Call(d.id,
                if d.name !in ["", "unknown"] then d.name else if e.id == d.id && e.name != "" then e.name else "unknown",
                if d.kind == "" then "function" else d.kind, choice, tool, d.args + e.args, []))
  {
    var call := Open(choice, tool, d);
    SetThenFind(c.calls, call);
    var t := Apply(c, choice, d);
    assert Find(t.calls, choice, tool) == Some(call);
    var named := call.(args := d.args + e.args, name := if e.id == d.id && e.name != "" && call.name == "unknown" then e.name else call.name);
    SetThenFind(t.calls, named);
  }

  lemma {:induction false} SetThenFind(calls: seq<Call>, call: Call)
    ensures Find(Set(calls, call), call.choice, call.tool) == Some(call)
  {
    if calls != [] && !(calls[0].choice == call.choice && calls[0].tool == call.tool) {
      SetThenFind(calls[1..], call);
      assert Set(calls, call)[1..] == Set(calls[1..], call);
    }
  }

  // ----- one call, from the text that comes in to the text that goes out -----

  /** The text of one data event. */
  function EventText(body: Json): string {
    "data: " + Print(body) + "\n\n"
  }

  /** An event with one choice, which finishes for a call. */
  const FINISH := Obj([Field("choices", Arr([Obj([Field("index", Num(0)), Field("finish_reason", Str("tool_calls"))])]))])

  lemma WholeCall(store: Store, call: Call, fields: Fields)
    requires call.args == Print(Obj(fields)) && call.shifted == [] && WellFormed(Obj(fields))
    ensures OutArgs(call) == Print(Obj(Clean(fields))) && StoreAfter(store, call) == Capture(store, call.id, fields)
  {
    hide Print, Parse, Clean, Capture, WellFormed;
    RoundTrip(Obj(fields));
    assert Merged(call) == fields;
  }

  lemma FlushOne(c: Core, call: Call)
    requires c.calls == [call]
    ensures Flush(c) == FlushCall(c, call).(calls := [], buffering := false)
  {
    hide Consolidated, StoreAfter;
    assert Init([call]) == [] && SortCalls([]) == [] && SortCalls([call]) == [call] && [call][1..] == [];
    var sent := FlushCall(c, call);
    assert FlushCalls(sent, []) == sent && FlushCalls(c, [call]) == FlushCalls(sent, []);
  }

  /** The two events of the stream. */
  function OneCall(choice: int, tool: int, d: ToolDelta): seq<DataText> {
    [DataText(Print(ToolEvent(choice, tool, d.id, d.kind, d.name, d.args)), true), DataText(Print(FINISH), true)]
  }

  lemma OneCallSteps(store: Store, choice: int, tool: int, d: ToolDelta)
    requires d.id != "" && d.index == Some(tool)
    ensures var c := Start(store).(calls := [Open(choice, tool, d)], lastOpened := map[choice := tool], buffering := true);
      Output(store, OneCall(choice, tool, d)) == Emit(Flush(c), DataLine(Print(FINISH)))
  {
    hide Print, PayloadOf, ToolEvent, FlushCalls, Apply;
    var lines := OneCall(choice, tool, d);
    assert Init(lines) == [lines[0]] && Init([lines[0]]) == [];
    assert StepEach(Start(store), []) == Start(store);
    ToolEventReads(choice, tool, d.id, d.kind, d.name, d.args);
    F.OpensCall(store, choice, tool, d, lines[0].data);
    F.FinishReads(0, "tool_calls");
    assert FINISH == F.FinishBody(0, "tool_calls");
    var finish := [Choice(Some(0), None, "tool_calls")];
    assert finish[0].finish == "tool_calls" && !CarriesTools(finish) && HasFinish(finish);
    var c := Start(store).(calls := [Open(choice, tool, d)], lastOpened := map[choice := tool], buffering := true);
    assert StepEach(Start(store), [lines[0]]) == c;
    assert PayloadOf(Print(FINISH)) == Choices(finish);
    assert Process(c, Print(FINISH)) == Emit(Flush(c), DataLine(Print(FINISH)));
  }

  lemma OneCallWritten(choice: int, tool: int, d: ToolDelta)
    ensures AllPlain(OneCall(choice, tool, d))
    ensures Written(OneCall(choice, tool, d))
         == EventText(ToolEvent(choice, tool, d.id, d.kind, d.name, d.args)) + EventText(FINISH)
  {
    hide Print, Plain;
    var event := ToolEvent(choice, tool, d.id, d.kind, d.name, d.args);
    var lines := OneCall(choice, tool, d);
    F.PrintedIsPlain(event.fields);
    F.PrintedIsPlain(FINISH.fields);
    assert Init(lines) == [lines[0]] && Init([lines[0]]) == [];
    assert Written([]) == "" && Written([lines[0]]) == "" + (LineOf(lines[0]) + "\n" + "\n");
    assert LineOf(lines[0]) + "\n" + "\n" == EventText(event) && LineOf(lines[1]) + "\n" + "\n" == EventText(FINISH);
  }

  lemma WiredEvent(body: Json)
    ensures Wire(DataLine(Print(body))) == EventText(body)
  {
    hide Print;
    var text := Print(body);
    assert "data: " + text + "\n" + "\n" == "data: " + text + "\n\n";
  }

  lemma TwoWired(first: Json, second: Json)
    ensures WireAll([DataLine(Print(first)), DataLine(Print(second))]) == EventText(first) + EventText(second)
  {
    hide Print, Wire, EventText;
    var outs := [DataLine(Print(first)), DataLine(Print(second))];
    WiredEvent(first);
    WiredEvent(second);
    assert Init(outs) == [outs[0]] && Init([outs[0]]) == [];
    assert WireAll([]) == "" && WireAll([outs[0]]) == "" + Wire(outs[0]);
    assert "" + EventText(first) == EventText(first);
  }

  lemma OneCallRun(store: Store, choice: int, tool: int, d: ToolDelta, fields: Fields, chunks: seq<string>)
    requires d.id != "" && d.index == Some(tool) && WellFormed(Obj(fields)) && d.args == Print(Obj(fields))
    requires Flatten(chunks) == EventText(ToolEvent(choice, tool, d.id, d.kind, d.name, d.args)) + EventText(FINISH)
    ensures var call := Open(choice, tool, d); var c := Run(store, chunks);
      && WireAll(c.emitted)
         == EventText(ToolEvent(choice, tool, call.id, call.kind, call.name, Print(Obj(Clean(fields))))) + EventText(FINISH)
      && c.store == Capture(store, d.id, fields)
  {
    hide Run, Print, ToolEvent, EventText, WireAll, Capture, Clean, OutArgs, StoreAfter, Flush, Output, Consolidated, OneCall;
    var call := Open(choice, tool, d);
    var c := Start(store).(calls := [call], lastOpened := map[choice := tool], buffering := true);
    OneCallWritten(choice, tool, d);
    RunOnWritten(store, OneCall(choice, tool, d), chunks);
    OneCallSteps(store, choice, tool, d);
    FlushOne(c, call);
    WholeCall(store, call, fields);
    ConsolidatedReads(call);
    TwoWired(Consolidated(call), FINISH);
    assert Run(store, chunks).emitted == [DataLine(Print(Consolidated(call))), DataLine(Print(FINISH))];
  }

  /**
   * A stream of text with one call and its finish, cut anywhere: one event with the call goes out before the finish,
   * its arguments less `_intent` and `_displayName`, and these two are in the store under the call's id, unless
   * neither is a string that is not empty. A call without a name is called `unknown`, one without a type `function`.
   */
  lemma OneCallThrough(store: Store, choice: int, tool: int, id: string, kind: string, name: string, fields: Fields,
                       chunks: seq<string>) returns (sent: Fields)
    requires id != "" && WellFormed(Obj(fields))
    requires Flatten(chunks) == EventText(ToolEvent(choice, tool, id, kind, name, Print(Obj(fields)))) + EventText(FINISH)
    ensures AsMap(sent) == map key | key in AsMap(fields) && key != "_intent" && key != "_displayName" :: AsMap(fields)[key]
    ensures var c := Run(store, chunks);
      WireAll(c.emitted)
      == EventText(ToolEvent(choice, tool, id, if kind == "" then "function" else kind, if name == "" then "unknown" else name,
                             Print(Obj(sent)))) + EventText(FINISH)
    ensures var m := AsMap(fields);
      var intent := if "_intent" in m && m["_intent"].Str? then Some(m["_intent"].s) else None;
      var displayName := if "_displayName" in m && m["_displayName"].Str? then Some(m["_displayName"].s) else None;
      Run(store, chunks).store ==
        if intent in [None, Some("")] && displayName in [None, Some("")] then store else store[id := Meta(intent, displayName)]
  {
    hide Run, Print, AsMap, Capture, MetaIn, WorthKeeping, ToolEvent, EventText, WireAll;
    sent := Clean(fields);
    DistinctFields(fields);
    CleanMeaning(fields);
    CaptureMeaning(store, id, fields);
    WorthKeepingMeans(AsMap(fields));
    OneCallRun(store, choice, tool, ToolDelta(Some(tool), id, kind, name, Print(Obj(fields))), fields, chunks);
  }

  lemma DistinctFields(fields: Fields)
    requires WellFormed(Obj(fields))
    ensures Distinct(fields)
  {
  }
}
