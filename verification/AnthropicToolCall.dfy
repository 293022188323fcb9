/** One tool call through the Anthropic stream, from the events the API writes to the events and the store that result. */
module AnthropicToolCall {
  import opened Options
  import opened Text
  import opened Json
  import opened ToolMetadata
  import opened SseEvents
  import opened AnthropicStream
  import opened AnthropicMeaning
  import opened AnthropicText
  import LineFeed

  // ----- the events of a tool call -----

  function ToolContent(id: string, name: string): Json {
    Obj([Field("type", Str("tool_use")), Field("id", Str(id)), Field("name", Str(name)), Field("input", Obj([]))])
  }

  function StartBody(index: int, id: string, name: string): Json {
    Obj([Field("type", Str("content_block_start")), Field("index", Num(index)), Field("content_block", ToolContent(id, name))])
  }

  function PieceBody(index: int, piece: string): Json {
    var delta := Obj([Field("type", Str("input_json_delta")), Field("partial_json", Str(piece))]);
    Obj([Field("type", Str("content_block_delta")), Field("index", Num(index)), Field("delta", delta)])
  }

  function StopBody(index: int): Json {
    Obj([Field("type", Str("content_block_stop")), Field("index", Num(index))])
  }

  function StartEvent(index: int, id: string, name: string): SseEvent {
    SseEvent("content_block_start", Print(StartBody(index, id, name)))
  }

  function PieceEvent(index: int, piece: string): SseEvent {
    SseEvent("content_block_delta", Print(PieceBody(index, piece)))
  }

  function StopEvent(index: int): SseEvent {
    SseEvent("content_block_stop", Print(StopBody(index)))
  }

  function Pieces(index: int, pieces: seq<string>): seq<SseEvent> {
    if pieces == [] then [] else Pieces(index, Init(pieces)) + [PieceEvent(index, Last(pieces))]
  }

  function ToolEvents(index: int, id: string, name: string, pieces: seq<string>): seq<SseEvent> {
    [StartEvent(index, id, name)] + Pieces(index, pieces) + [StopEvent(index)]
  }

  // ----- reading them -----

  lemma StartReads(index: int, id: string, name: string)
    requires id != ""
    ensures SignalOf(StartEvent(index, id, name)) == BlockStart(Some(index), ToolContent(id, name))
    ensures ToolIdOf(ToolContent(id, name)) == Some(id)
  {
    hide Get, ToolContent;
    var block := Field("content_block", ToolContent(id, name));
    var a, b := Field("type", Str("content_block_start")), Field("index", Num(index));
    ContentReads(id, name);
    GetThree(a, b, block, "index");
    GetThree(a, b, block, "content_block");
    assert WellFormed(StartBody(index, id, name));
    RoundTrip(StartBody(index, id, name));
    ReadsAlike(StartEvent(index, id, name));
  }

  lemma ContentReads(id: string, name: string)
    requires id != ""
    ensures WellFormed(ToolContent(id, name)) && ToolIdOf(ToolContent(id, name)) == Some(id)
  {
    hide Get;
    var a, b := Field("type", Str("tool_use")), Field("id", Str(id));
    var c, d := Field("name", Str(name)), Field("input", Obj([]));
    GetFour(a, b, c, d, "type");
    GetFour(a, b, c, d, "id");
    GetFour(a, b, c, d, "name");
    assert WellFormed(Obj([]));
  }

  lemma PieceReads(index: int, piece: string)
    ensures SignalOf(PieceEvent(index, piece)) == JsonDelta(Some(index), piece)
    ensures DeltaEvent(Some(index), piece) == PieceEvent(index, piece)
  {
    hide Print, SignalOf;
    DeltaReadsBack(Some(index), piece);
    assert DeltaJson(Some(index), piece) == PieceBody(index, piece);
  }

  lemma StopReads(index: int)
    ensures SignalOf(StopEvent(index)) == BlockStop(Some(index))
  {
    hide Get;
    var a, b := Field("type", Str("content_block_stop")), Field("index", Num(index));
    GetTwo(a, b, "index");
    assert WellFormed(StopBody(index));
    RoundTrip(StopBody(index));
    ReadsAlike(StopEvent(index));
  }

  // ----- the stream on them -----

  lemma {:induction false} ProcessAllAppend(c: Core, a: seq<SseEvent>, b: seq<SseEvent>)
    ensures ProcessAll(c, a + b) == ProcessAll(ProcessAll(c, a), b)
  {
    hide Process;
    if b == [] {
      assert a + b == a;
    } else {
      assert Init(a + b) == a + Init(b);
      ProcessAllAppend(c, a, Init(b));
    }
  }

  lemma StartStep(store: Store, index: int, id: string, name: string)
    requires id != ""
    ensures Process(Start(store), StartEvent(index, id, name))
         == Core([Block(id, name, Some(index), "")], "", "", store, [StartEvent(index, id, name)])
  {
    hide StartEvent, SignalOf;
    StartReads(index, id, name);
    TracksTools(ToolContent(id, name), Some(index));
    NamedAs(id, name, Some(index));
    assert SetBlock([], Block(id, name, Some(index), "")) == [Block(id, name, Some(index), "")];
  }

  lemma NamedAs(id: string, name: string, index: Option<int>)
    requires id != ""
    ensures ToolBlock(ToolContent(id, name), index) == Some(Block(id, name, index, ""))
  {
    hide Get;
    var a, b := Field("type", Str("tool_use")), Field("id", Str(id));
    var c, d := Field("name", Str(name)), Field("input", Obj([]));
    GetFour(a, b, c, d, "type");
    GetFour(a, b, c, d, "id");
    GetFour(a, b, c, d, "name");
  }

  lemma PieceStep(c: Core, block: Block, index: int, piece: string)
    requires c.blocks == [block] && block.index == Some(index)
    ensures Process(c, PieceEvent(index, piece)) == c.(blocks := [block.(bufferedJson := block.bufferedJson + piece)])
  {
    hide PieceEvent, SignalOf;
    PieceReads(index, piece);
  }

  lemma {:induction false} PieceSteps(c: Core, block: Block, index: int, pieces: seq<string>)
    requires c.blocks == [block] && block.index == Some(index)
    ensures ProcessAll(c, Pieces(index, pieces))
         == c.(blocks := [block.(bufferedJson := block.bufferedJson + Flatten(pieces))])
  {
    hide PieceEvent, Process;
    if pieces == [] {
      assert block.bufferedJson + "" == block.bufferedJson;
    } else {
      var before, last := Init(pieces), Last(pieces);
      PieceSteps(c, block, index, before);
      var block' := block.(bufferedJson := block.bufferedJson + Flatten(before));
      PieceStep(c.(blocks := [block']), block', index, last);
      assert Init(Pieces(index, pieces)) == Pieces(index, before);
      FlattenLast(pieces);
      assert block.bufferedJson + Flatten(before) + last == block.bufferedJson + Flatten(pieces);
    }
  }

  lemma FlattenLast(pieces: seq<string>)
    requires pieces != []
    ensures Flatten(pieces) == Flatten(Init(pieces)) + Last(pieces)
  {
    var last := Last(pieces);
    assert pieces == Init(pieces) + [last];
    FlattenAppend(Init(pieces), [last]);
    assert Flatten([last]) == last + Flatten([]) && last + "" == last;
  }

  lemma StopStep(c: Core, block: Block, index: int)
    requires c.blocks == [block] && block.index == Some(index)
    ensures Process(c, StopEvent(index)) == Emit(EmitBlock(c.(blocks := []), block), StopEvent(index))
  {
    hide StopEvent, SignalOf;
    StopReads(index);
    assert [block][1..] == [];
  }

  lemma StreamedTool(store: Store, index: int, id: string, name: string, pieces: seq<string>, fields: Fields)
    requires id != "" && Parse(Flatten(pieces)) == Some(Obj(fields))
    ensures Output(store, ToolEvents(index, id, name, pieces)).emitted
         == [StartEvent(index, id, name), PieceEvent(index, Print(Obj(Clean(fields)))), StopEvent(index)]
    ensures Output(store, ToolEvents(index, id, name, pieces)).store == Capture(store, id, fields)
  {
    hide Parse, Print, StartEvent, PieceEvent, StopEvent, Process, EmitBlock;
    var start, stop := StartEvent(index, id, name), StopEvent(index);
    var c1 := Core([Block(id, name, Some(index), "")], "", "", store, [start]);
    var block := Block(id, name, Some(index), Flatten(pieces));
    StartStep(store, index, id, name);
    assert Init([start]) == [] && ProcessAll(Start(store), []) == Start(store);
    assert ProcessAll(Start(store), [start]) == c1;
    PieceSteps(c1, Block(id, name, Some(index), ""), index, pieces);
    assert "" + Flatten(pieces) == Flatten(pieces);
    ProcessAllAppend(Start(store), [start], Pieces(index, pieces));
    var c2 := c1.(blocks := [block]);
    StopStep(c2, block, index);
    var events := ToolEvents(index, id, name, pieces);
    assert Init(events) == [start] + Pieces(index, pieces) && Last(events) == stop;
    EmittedTool(c2.(blocks := []), block, index, fields);
  }

  lemma EmittedTool(c: Core, block: Block, index: int, fields: Fields)
    requires block.index == Some(index) && Parse(block.bufferedJson) == Some(Obj(fields))
    ensures EmitBlock(c, block) ==
      c.(store := Capture(c.store, block.id, fields), emitted := c.emitted + [PieceEvent(index, Print(Obj(Clean(fields))))])
  {
    NothingParses();
    hide Parse, Print, DeltaEvent, PieceEvent, Capture, Clean;
    PieceReads(index, Print(Obj(Clean(fields))));
  }

  lemma NothingParses()
    ensures Parse("") == None
  {
  }

  /**
   * A tool call with any id, name and index, its arguments in any pieces: the stream sends its start, one delta with
   * the arguments less `_intent` and `_displayName`, and its stop; these two are in the store under the call's id,
   * unless neither is a string that is not empty.
   */
  lemma OneToolThrough(store: Store, index: int, id: string, name: string, pieces: seq<string>, fields: Fields) returns (sent: Fields)
    requires id != "" && Parse(Flatten(pieces)) == Some(Obj(fields))
    ensures AsMap(sent) == map key | key in AsMap(fields) && key != "_intent" && key != "_displayName" :: AsMap(fields)[key]
    ensures Output(store, ToolEvents(index, id, name, pieces)).emitted
         == [StartEvent(index, id, name), PieceEvent(index, Print(Obj(sent))), StopEvent(index)]
    ensures var m := AsMap(fields);
      var intent := if "_intent" in m && m["_intent"].Str? then Some(m["_intent"].s) else None;
      var displayName := if "_displayName" in m && m["_displayName"].Str? then Some(m["_displayName"].s) else None;
      Output(store, ToolEvents(index, id, name, pieces)).store ==
        if intent in [None, Some("")] && displayName in [None, Some("")] then store else store[id := Meta(intent, displayName)]
  {
    hide Parse, Print, StartEvent, PieceEvent, StopEvent, Output, ToolEvents, AsMap, Capture, MetaIn, WorthKeeping;
    sent := Clean(fields);
    assert WellFormed(Obj(fields));
    CleanMeaning(fields);
    CaptureMeaning(store, id, fields);
    WorthKeepingMeans(AsMap(fields));
    StreamedTool(store, index, id, name, pieces, fields);
  }

  /** The same on text, cut anywhere, as long as no line separator is in the id, the name or the arguments. */
  lemma OneToolThroughText(store: Store, index: int, id: string, name: string, pieces: seq<string>, chunks: seq<string>)
    requires AllCanonical(ToolEvents(index, id, name, pieces)) && Flatten(chunks) == WireAll(ToolEvents(index, id, name, pieces))
    ensures Run(store, chunks) == Output(store, ToolEvents(index, id, name, pieces))
  {
    hide Run, Output, ToolEvents, AllCanonical;
    RunOnWritten(store, ToolEvents(index, id, name, pieces), chunks);
  }
}
