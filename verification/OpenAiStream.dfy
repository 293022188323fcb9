/** The OpenAI chat stream: collect every tool call's argument deltas, emit one consolidated event per call. */
module OpenAiStream {
  import opened Options
  import opened Text
  import opened Json
  import opened ToolMetadata
  import opened DataEvents
  import LineFeed

  /** A call being collected: `args` are same-index pieces, each of `shifted` is a complete JSON object. */
  datatype Call = Call(id: string, name: string, kind: string, choice: int, tool: int, args: string, shifted: seq<string>)

  datatype Core = Core(calls: seq<Call>, lastOpened: map<int, int>, buffering: bool, store: Store, emitted: seq<Out>)

  /** One element of `delta.tool_calls`; an absent text counts as the empty one. */
  datatype ToolDelta = ToolDelta(index: Option<int>, id: string, kind: string, name: string, args: string)

  datatype Choice = Choice(index: Option<int>, toolCalls: Option<seq<ToolDelta>>, finish: string)

  datatype Payload = Done | Opaque | Choices(choices: seq<Choice>)

  // ----- reading a data line -----

  function ToolDeltaOf(j: Json): ToolDelta {
    var f := FieldOf(j, "function").GetOr(Null);
    ToolDelta(IntOf(j, "index"), TextOf(j, "id"), TextOf(j, "type"), TextOf(f, "name"), TextOf(f, "arguments"))
  }

  function ToolDeltasOf(items: seq<Json>): (r: seq<ToolDelta>)
    ensures |r| == |items| && forall i :: 0 <= i < |items| ==> r[i] == ToolDeltaOf(items[i])
  {
    seq(|items|, i requires 0 <= i < |items| => ToolDeltaOf(items[i]))
  }

  function ChoiceOf(j: Json): Choice {
    var delta := FieldOf(j, "delta").GetOr(Null);
    Choice(IntOf(j, "index"),
           match FieldOf(delta, "tool_calls") { case Some(Arr(items)) => Some(ToolDeltasOf(items)) case _ => None },
           TextOf(j, "finish_reason"))
  }

  function ChoicesOf(items: seq<Json>): (r: seq<Choice>)
    ensures |r| == |items| && forall i :: 0 <= i < |items| ==> r[i] == ChoiceOf(items[i])
  {
    seq(|items|, i requires 0 <= i < |items| => ChoiceOf(items[i]))
  }

  function PayloadOf(data: string): Payload {
    if data == "[DONE]" then Done
    else
      match Parse(data)
      case None => Opaque
      case Some(j) =>
        match FieldOf(j, "choices")
        case Some(Arr(items)) => if items == [] then Opaque else Choices(ChoicesOf(items))
        case _ => Opaque
  }

  /** Some choice carries `delta.tool_calls`, be it empty. */
  predicate CarriesTools(choices: seq<Choice>) {
    exists i :: 0 <= i < |choices| && choices[i].toolCalls.Some?
  }

  /** Some choice finishes for one of the two reasons that make the stream flush; there are others, such as `length`. */
  predicate HasFinish(choices: seq<Choice>) {
    exists i :: 0 <= i < |choices| && (choices[i].finish == "tool_calls" || choices[i].finish == "stop")
  }

  /** The tool deltas of a chunk in order, each with the index of its choice. */
  function Deltas(choices: seq<Choice>): seq<(int, ToolDelta)> {
    if choices == [] then []
    else At(choices[0].index.GetOr(0), choices[0].toolCalls.GetOr([])) + Deltas(choices[1..])
  }

  function At(choice: int, deltas: seq<ToolDelta>): (r: seq<(int, ToolDelta)>)
    ensures |r| == |deltas| && forall i :: 0 <= i < |deltas| ==> r[i] == (choice, deltas[i])
  {
    seq(|deltas|, i requires 0 <= i < |deltas| => (choice, deltas[i]))
  }

  // ----- the tracked calls, in insertion order -----

  function Find(calls: seq<Call>, choice: int, tool: int): (r: Option<Call>)
    ensures r.Some? ==> r.value in calls && r.value.choice == choice && r.value.tool == tool
  {
    if calls == [] then None
    else if calls[0].choice == choice && calls[0].tool == tool then Some(calls[0])
    else Find(calls[1..], choice, tool)
  }

  /** Replace the call with the same key where it stands, or append. */
  function Set(calls: seq<Call>, call: Call): seq<Call> {
    if calls == [] then [call]
    else if calls[0].choice == call.choice && calls[0].tool == call.tool then [call] + calls[1..]
    else [calls[0]] + Set(calls[1..], call)
  }

  predicate Before(a: Call, b: Call) {
    a.choice < b.choice || (a.choice == b.choice && a.tool < b.tool)
  }

  function InsertCall(call: Call, sorted: seq<Call>): seq<Call> {
    if sorted == [] || Before(call, sorted[0]) then [call] + sorted
    else [sorted[0]] + InsertCall(call, sorted[1..])
  }

  /** Sorted by choice, then by tool index; calls with equal keys keep their order. */
  function SortCalls(calls: seq<Call>): seq<Call> {
    if calls == [] then [] else InsertCall(Last(calls), SortCalls(Init(calls)))
  }

  function InChoice(calls: seq<Call>, choice: int): seq<Call> {
    if calls == [] then []
    else (if calls[0].choice == choice then [calls[0]] else []) + InChoice(calls[1..], choice)
  }

  // ----- one tool delta -----

  /** Resolve an absent index to the call opened last in this choice. */
  function ToolIndex(c: Core, choice: int, d: ToolDelta): int {
    d.index.GetOr(if choice in c.lastOpened then c.lastOpened[choice] else 0)
  }

  /** The call a delta without an id at a new, higher index belongs to, by position. */
  function ShiftTarget(c: Core, choice: int, d: ToolDelta): Option<Call> {
    var phase1 := SortCalls(InChoice(c.calls, choice));
    if choice in c.lastOpened && d.index.Some? && d.index.value > c.lastOpened[choice] && d.args != "" then
      var ord := d.index.value - (c.lastOpened[choice] + 1);
      if ord < |phase1| then Some(phase1[ord]) else None
    else None
  }

  function Open(choice: int, tool: int, d: ToolDelta): Call {
    Call(d.id, if d.name != "" then d.name else "unknown", if d.kind != "" then d.kind else "function",
         choice, tool, d.args, [])
  }

  function Apply(c: Core, choice: int, d: ToolDelta): Core {
    var tool := ToolIndex(c, choice, d);
    match Find(c.calls, choice, tool)
    case Some(call) =>
      if d.id == "" then
        c.(calls := Set(c.calls, call.(args := call.args + d.args)))
      else if d.id == call.id then
        var name := if d.name != "" && call.name == "unknown" then d.name else call.name;
        c.(calls := Set(c.calls, call.(args := call.args + d.args, name := name)))
      else
        c.(calls := Set(c.calls, Open(choice, tool, d)), lastOpened := c.lastOpened[choice := tool], buffering := true)
    case None =>
      if d.id != "" then
        c.(calls := Set(c.calls, Open(choice, tool, d)), lastOpened := c.lastOpened[choice := tool], buffering := true)
      else
        match ShiftTarget(c, choice, d)
        case Some(call) => c.(calls := Set(c.calls, call.(shifted := call.shifted + [d.args])))
        case None => c
  }

  function ApplyAll(c: Core, deltas: seq<(int, ToolDelta)>): Core
    decreases |deltas|
  {
    if deltas == [] then c else ApplyAll(Apply(c, deltas[0].0, deltas[0].1), deltas[1..])
  }

  // ----- flushing -----

  function Emit(c: Core, out: Out): Core {
    c.(emitted := c.emitted + [out])
  }

  /** The object a text stands for, if it stands for one. */
  function ObjectIn(text: string): Option<Fields> {
    match Parse(text)
    case Some(Obj(fields)) => Some(fields)
    case _ => None
  }

  function MergeAll(merged: Fields, pieces: seq<string>): Fields
    decreases |pieces|
  {
    if pieces == [] then merged else MergeAll(Merge(merged, ObjectIn(pieces[0]).GetOr([])), pieces[1..])
  }

  /** Same-index arguments first, then the shifted objects on top of them. */
  function Merged(call: Call): Fields {
    MergeAll(ObjectIn(call.args).GetOr([]), call.shifted)
  }

  /** The arguments do not parse and there is nothing to recover them from. */
  predicate PassedRaw(call: Call) {
    call.args != "" && Parse(call.args) == None && call.shifted == []
  }

  /** Spreading the first piece over the empty object gives the piece. */
  lemma FirstPiece(call: Call)
    ensures Merge([], ObjectIn(call.args).GetOr([])) == ObjectIn(call.args).GetOr([])
    ensures call.args == "" ==> ObjectIn(call.args) == None
  {
    NothingParses();
    hide Parse, Merge;
    var fields := ObjectIn(call.args).GetOr([]);
    assert WellFormed(Obj(fields));
    assert [] + fields == fields;
    MergeAppend([], fields);
  }

  lemma NothingParses()
    ensures Parse("") == None
  {
  }

  function OutArgs(call: Call): string {
    if PassedRaw(call) then call.args else Print(Obj(Clean(Merged(call))))
  }

  function StoreAfter(store: Store, call: Call): Store {
    if PassedRaw(call) then store else Capture(store, call.id, Merged(call))
  }

  /** The one event that carries a whole call with these arguments. */
  function CallEvent(call: Call, arguments: string): Json {
    var f := Obj([Field("name", Str(call.name)), Field("arguments", Str(arguments))]);
    var tc := Obj([Field("index", Num(call.tool)), Field("id", Str(call.id)), Field("type", Str(call.kind)), Field("function", f)]);
    var choice := Obj([Field("index", Num(call.choice)), Field("delta", Obj([Field("tool_calls", Arr([tc]))]))]);
    Obj([Field("choices", Arr([choice]))])
  }

  function Consolidated(call: Call): Json {
    CallEvent(call, OutArgs(call))
  }

  function FlushCall(c: Core, call: Call): Core {
    Emit(c.(store := StoreAfter(c.store, call)), DataLine(Print(Consolidated(call))))
  }

  function FlushCalls(c: Core, calls: seq<Call>): Core
    decreases |calls|
  {
    if calls == [] then c else FlushCalls(FlushCall(c, calls[0]), calls[1..])
  }

  /** `flushTrackedCalls` */
  function Flush(c: Core): Core {
    FlushCalls(c, SortCalls(c.calls)).(calls := [], buffering := false)
  }

  // ----- one line -----

  /** `processDataLine` */
  function Process(c: Core, data: string): Core {
    match PayloadOf(data)
    case Done => Emit(Flush(c), DataLine(data))
    case Opaque => Emit(c, DataLine(data))
    case Choices(choices) =>
      if CarriesTools(choices) then ApplyAll(c, Deltas(choices))
      else Emit(if HasFinish(choices) && c.buffering then Flush(c) else c, DataLine(data))
  }

  function Step(c: Core, line: string): Core {
    var trimmed := Trim(line);
    if trimmed == "" then c
    else if StartsWith(trimmed, "data: ") then Process(c, trimmed[6..])
    else Emit(c, RawLine(trimmed))
  }

  /** `flush` */
  function Finish(feed: LineFeed.Feed<Core>): Core {
    var trimmed := Trim(feed.lineBuffer);
    var c := if StartsWith(trimmed, "data: ") then Process(feed.core, trimmed[6..]) else feed.core;
    if c.calls != [] then Flush(c) else c
  }

  function Start(store: Store): Core {
    Core([], map[], false, store, [])
  }

  function Run(store: Store, chunks: seq<string>): Core {
    Finish(LineFeed.Chunks(Step, LineFeed.Feed(Start(store), ""), chunks))
  }

  // ----- the transformer itself -----

  class Stream {
    var trackedCalls: seq<Call>
    var lastOpenedToolIndexByChoice: map<int, int>
    var lineBuffer: string
    var bufferingToolCalls: bool
    var store: Store
    /** Everything enqueued on the controller. */
    var output: string
    ghost var emitted: seq<Out>

    constructor (store: Store)
      ensures Valid() && Abstract() == LineFeed.Feed(Start(store), "")
    {
      trackedCalls, lastOpenedToolIndexByChoice, lineBuffer, bufferingToolCalls, output := [], map[], "", false, "";
      this.store := store;
      emitted := [];
    }

    ghost predicate Valid()
      reads this
    {
      output == WireAll(emitted)
    }

    ghost function State(): Core
      reads this
    {
      Core(trackedCalls, lastOpenedToolIndexByChoice, bufferingToolCalls, store, emitted)
    }

    ghost function Abstract(): LineFeed.Feed<Core>
      reads this
    {
      LineFeed.Feed(State(), lineBuffer)
    }

    method Enqueue(out: Out)
      requires Valid()
      modifies this`output, this`emitted
      ensures Valid() && State() == Emit(old(State()), out)
    {
      output := output + Wire(out);
      emitted := emitted + [out];
      assert Init(emitted) == old(emitted);
    }

    method FlushTrackedCalls()
      requires Valid()
      modifies this`trackedCalls, this`bufferingToolCalls, this`store, this`output, this`emitted
      ensures Valid() && State() == Flush(old(State()))
    {
      var sorted := SortCalls(trackedCalls);
      var i := 0;
      while i < |sorted|
        invariant 0 <= i <= |sorted| && Valid()
        invariant trackedCalls == old(trackedCalls)
        invariant FlushCalls(State(), sorted[i..]) == FlushCalls(old(State()), sorted)
      {
        FlushOne(sorted[i]);
        assert sorted[i..][1..] == sorted[i + 1..];
        i := i + 1;
      }
      trackedCalls := [];
      bufferingToolCalls := false;
    }

    /** The body of the flush loop: merge, capture, clean, and send the consolidated event. */
    method FlushOne(tc: Call)
      requires Valid()
      modifies this`store, this`output, this`emitted
      ensures Valid() && State() == FlushCall(old(State()), tc)
    {
      var merged, parseFailed := MergeArguments(tc);
      var outArgs := tc.args;
      if !(parseFailed && tc.shifted == []) {
        store := Capture(store, tc.id, merged);
        outArgs := Print(Obj(Clean(merged)));
      }
      Enqueue(DataLine(Print(CallEvent(tc, outArgs))));
    }

    /** The object-level merge of a call's arguments, and whether some piece of them failed to parse. */
    method MergeArguments(tc: Call) returns (merged: Fields, parseFailed: bool)
      ensures merged == Merged(tc)
      ensures tc.shifted == [] ==> (parseFailed <==> PassedRaw(tc))
    {
      merged, parseFailed := [], false;
      if tc.args != "" {
        merged, parseFailed := MergePiece([], tc.args);
      }
      FirstPiece(tc);
      var i := 0;
      while i < |tc.shifted|
        invariant 0 <= i <= |tc.shifted|
        invariant MergeAll(merged, tc.shifted[i..]) == Merged(tc)
        invariant tc.shifted == [] ==> (parseFailed <==> PassedRaw(tc))
      {
        var failed;
        merged, failed := MergePiece(merged, tc.shifted[i]);
        parseFailed := parseFailed || failed;
        assert tc.shifted[i..][1..] == tc.shifted[i + 1..];
        i := i + 1;
      }
    }

    /** Parse one piece and spread it over what is merged so far, if it is an object. */
    method MergePiece(before: Fields, piece: string) returns (merged: Fields, failed: bool)
      ensures merged == Merge(before, ObjectIn(piece).GetOr([]))
      ensures failed <==> Parse(piece) == None
    {
      merged, failed := before, false;
      match Parse(piece) {
        case None => failed := true;
        case Some(Obj(fields)) => merged := Merge(before, fields);
        case Some(_) =>
      }
    }

    method TrackDelta(choiceIndex: int, tc: ToolDelta)
      modifies this`trackedCalls, this`lastOpenedToolIndexByChoice, this`bufferingToolCalls
      ensures State() == Apply(old(State()), choiceIndex, tc)
    {
      var fallback := if choiceIndex in lastOpenedToolIndexByChoice then lastOpenedToolIndexByChoice[choiceIndex] else 0;
      var toolIndex := if tc.index.Some? then tc.index.value else fallback;
      var existing := Find(trackedCalls, choiceIndex, toolIndex);
      if tc.id != "" {
        if existing.Some? && existing.value.id == tc.id {
          var call := existing.value.(args := existing.value.args + tc.args);
          if tc.name != "" && call.name == "unknown" {
            call := call.(name := tc.name);
          }
          trackedCalls := Set(trackedCalls, call);
          return;
        }
        trackedCalls := Set(trackedCalls, Open(choiceIndex, toolIndex, tc));
        lastOpenedToolIndexByChoice := lastOpenedToolIndexByChoice[choiceIndex := toolIndex];
        bufferingToolCalls := true;
      } else if existing.Some? {
        trackedCalls := Set(trackedCalls, existing.value.(args := existing.value.args + tc.args));
      } else {
        var phase1 := SortCalls(InChoice(trackedCalls, choiceIndex));
        if choiceIndex in lastOpenedToolIndexByChoice && tc.index.Some? && tc.args != "" {
          var lastOpened := lastOpenedToolIndexByChoice[choiceIndex];
          if tc.index.value > lastOpened && phase1 != [] {
            var ord := tc.index.value - (lastOpened + 1);
            if 0 <= ord < |phase1| {
              trackedCalls := Set(trackedCalls, phase1[ord].(shifted := phase1[ord].shifted + [tc.args]));
            }
          }
        }
      }
    }

    method TrackAll(deltas: seq<(int, ToolDelta)>)
      modifies this`trackedCalls, this`lastOpenedToolIndexByChoice, this`bufferingToolCalls
      ensures State() == ApplyAll(old(State()), deltas)
    {
      var i := 0;
      while i < |deltas|
        invariant 0 <= i <= |deltas|
        invariant ApplyAll(State(), deltas[i..]) == ApplyAll(old(State()), deltas)
      {
        TrackDelta(deltas[i].0, deltas[i].1);
        assert deltas[i..][1..] == deltas[i + 1..];
        i := i + 1;
      }
    }

    method ProcessDataLine(dataStr: string)
      requires Valid()
      modifies this`trackedCalls, this`lastOpenedToolIndexByChoice, this`bufferingToolCalls
      modifies this`store, this`output, this`emitted
      ensures Valid() && State() == Process(old(State()), dataStr)
    {
      match PayloadOf(dataStr) {
        case Done =>
          FlushTrackedCalls();
          Enqueue(DataLine(dataStr));
        case Opaque =>
          Enqueue(DataLine(dataStr));
        case Choices(choices) =>
          if CarriesTools(choices) {
            TrackAll(Deltas(choices));
            return;
          }
          if HasFinish(choices) && bufferingToolCalls {
            FlushTrackedCalls();
          }
          Enqueue(DataLine(dataStr));
      }
    }

    method HandleLine(line: string)
      requires Valid()
      modifies this`trackedCalls, this`lastOpenedToolIndexByChoice, this`bufferingToolCalls
      modifies this`store, this`output, this`emitted
      ensures Valid() && State() == Step(old(State()), line)
    {
      var trimmed := Trim(line);
      if trimmed == "" {
        return;
      }
      if StartsWith(trimmed, "data: ") {
        ProcessDataLine(trimmed[6..]);
      } else {
        Enqueue(RawLine(trimmed));
      }
    }

    method Transform(chunk: string)
      requires Valid()
      modifies this
      ensures Valid() && Abstract() == LineFeed.Chunk(Step, old(Abstract()), chunk)
    {
      var lines := Split(lineBuffer + chunk);
      lineBuffer := Last(lines);
      lines := Init(lines);
      var i := 0;
      while i < |lines|
        invariant 0 <= i <= |lines| && Valid() && lineBuffer == Last(Split(old(lineBuffer) + chunk))
        invariant LineFeed.Lines(Step, State(), lines[i..]) == LineFeed.Lines(Step, old(State()), lines)
      {
        HandleLine(lines[i]);
        assert lines[i..][1..] == lines[i + 1..];
        i := i + 1;
      }
    }

    method FlushStream()
      requires Valid()
      modifies this
      ensures Valid() && State() == Finish(old(Abstract())) && lineBuffer == ""
    {
      var trimmed := Trim(lineBuffer);
      if trimmed != "" {
        if StartsWith(trimmed, "data: ") {
          ProcessDataLine(trimmed[6..]);
        }
      }
      if trackedCalls != [] {
        FlushTrackedCalls();
      }
      lineBuffer := "";
    }
  }
}
