/** The Anthropic stream: buffer each tool block's JSON, emit it once without its metadata. */
module AnthropicStream {
  import opened Options
  import opened Text
  import opened Json
  import opened ToolMetadata
  import opened SseEvents
  import LineFeed

  /** A tool block whose arguments are being collected; `index` is `None` where the event carries none. */
  datatype Block = Block(id: string, name: string, index: Option<int>, bufferedJson: string)

  /** The transformer's variables beside its line buffer, and what it has emitted so far. */
  datatype Core = Core(blocks: seq<Block>, eventType: string, data: string, store: Store, emitted: seq<SseEvent>)

  // ----- the tracked blocks, in insertion order -----

  function FindBlock(blocks: seq<Block>, index: Option<int>): (r: Option<Block>)
    ensures r.Some? ==> r.value.index == index
  {
    if blocks == [] then None
    else if blocks[0].index == index then Some(blocks[0])
    else FindBlock(blocks[1..], index)
  }

  function SetBlock(blocks: seq<Block>, block: Block): seq<Block> {
    if blocks == [] then [block]
    else if blocks[0].index == block.index then [block] + blocks[1..]
    else [blocks[0]] + SetBlock(blocks[1..], block)
  }

  function DeleteBlock(blocks: seq<Block>, index: Option<int>): seq<Block> {
    if blocks == [] then []
    else if blocks[0].index == index then blocks[1..]
    else [blocks[0]] + DeleteBlock(blocks[1..], index)
  }

  predicate OnePerIndex(blocks: seq<Block>) {
    forall i, j :: 0 <= i < j < |blocks| ==> blocks[i].index != blocks[j].index
  }

  // ----- one event -----

  /** The block a `content_block_start` opens, if it is a tool block with an id and a name. */
  function ToolBlock(contentBlock: Json, index: Option<int>): Option<Block> {
    if && TextOf(contentBlock, "type") == "tool_use"
       && TextOf(contentBlock, "id") != ""
       && FieldOf(contentBlock, "name").Some? && FieldOf(contentBlock, "name").value.Str?
    then Some(Block(TextOf(contentBlock, "id"), TextOf(contentBlock, "name"), index, ""))
    else None
  }

  function ObjectOf(data: Json, key: string): Json {
    FieldOf(data, key).GetOr(Null)
  }

  function Emit(c: Core, e: SseEvent): Core {
    c.(emitted := c.emitted + [e])
  }

  function InnerDelta(partialJson: string): Json {
    Obj([Field("type", Str("input_json_delta")), Field("partial_json", Str(partialJson))])
  }

  /** The one delta that carries a block's cleaned arguments. */
  function DeltaJson(index: Option<int>, partialJson: string): Json {
    Obj([Field("type", Str("content_block_delta"))]
        + (if index.Some? then [Field("index", Num(index.value))] else [])
        + [Field("delta", InnerDelta(partialJson))])
  }

  function DeltaEvent(index: Option<int>, partialJson: string): SseEvent {
    SseEvent("content_block_delta", Print(DeltaJson(index, partialJson)))
  }

  /** `emitBufferedBlock` */
  function EmitBlock(c: Core, block: Block): Core {
    if block.bufferedJson == "" then c
    else
      Emit(c.(store := CaptureText(c.store, block.id, block.bufferedJson)),
           DeltaEvent(block.index, CleanText(block.bufferedJson)))
  }

  /** What an event says about the content blocks. */
  datatype Signal =
    | BlockStart(index: Option<int>, contentBlock: Json)
    | JsonDelta(index: Option<int>, partialJson: string)
    | OtherDelta(index: Option<int>, delta: Json)
    | BlockStop(index: Option<int>)
    | Unrelated

  function SignalOf(e: SseEvent): Signal {
    match Parse(e.data)
    case None => Unrelated
    case Some(data) =>
      var index := IntOf(data, "index");
      if e.eventType == "content_block_start" then BlockStart(index, ObjectOf(data, "content_block"))
      else if e.eventType == "content_block_delta" then
        var delta := ObjectOf(data, "delta");
        if TextOf(delta, "type") == "input_json_delta" then JsonDelta(index, TextOf(delta, "partial_json"))
        else OtherDelta(index, delta)
      else if e.eventType == "content_block_stop" then BlockStop(index)
      else Unrelated
  }

  /** `processEvent` once the event is parsed */
  function Handle(c: Core, e: SseEvent, signal: Signal): Core {
    match signal
    case BlockStart(index, contentBlock) =>
      (match ToolBlock(contentBlock, index)
       case Some(block) => Emit(c.(blocks := SetBlock(c.blocks, block)), e)
       case None => Emit(c, e))
    case JsonDelta(index, more) =>
      (match FindBlock(c.blocks, index)
       case Some(block) => c.(blocks := SetBlock(c.blocks, block.(bufferedJson := block.bufferedJson + more)))
       case None => Emit(c, e))
    case BlockStop(index) =>
      (match FindBlock(c.blocks, index)
       case Some(block) => Emit(EmitBlock(c.(blocks := DeleteBlock(c.blocks, index)), block), e)
       case None => Emit(c, e))
    case _ => Emit(c, e)
  }

  /** `processEvent` */
  function Process(c: Core, e: SseEvent): Core {
    Handle(c, e, SignalOf(e))
  }

  function ProcessAll(c: Core, events: seq<SseEvent>): Core {
    if events == [] then c else Process(ProcessAll(c, Init(events)), Last(events))
  }

  /** Emit whatever is still buffered when the stream ends, and forget it. */
  function EmitBlocks(c: Core, blocks: seq<Block>): Core
    decreases |blocks|
  {
    if blocks == [] then c.(blocks := []) else EmitBlocks(EmitBlock(c, blocks[0]), blocks[1..])
  }

  // ----- one line -----

  datatype SseLine = Blank | EventName(name: string) | DataText(text: string) | Other

  /** `^prefix\s*(.+)$` on a trimmed line. */
  function MatchField(trimmed: string, prefix: string): Option<string> {
    if StartsWith(trimmed, prefix) then
      var value := TrimStart(trimmed[|prefix|..]);
      if value != "" && OneLine(value) then Some(value) else None
    else None
  }

  function Classify(line: string): SseLine {
    var trimmed := Trim(line);
    if trimmed == "" then Blank
    else
      match MatchField(trimmed, "event:")
      case Some(name) => EventName(Trim(name))
      case None =>
        match MatchField(trimmed, "data:")
        case Some(text) => DataText(text)
        case None => Other
  }

  /** Hand a complete event over. */
  function Dispatch(c: Core): Core {
    if c.eventType != "" && c.data != "" then Process(c, SseEvent(c.eventType, c.data)) else c
  }

  function Step(c: Core, line: string): Core {
    match Classify(line)
    case Blank => Dispatch(c).(eventType := "", data := "")
    case EventName(name) => c.(eventType := name)
    case DataText(text) => c.(data := if c.data != "" then c.data + "\n" + text else text)
    case Other => c
  }

  /** `flush` */
  function Finish(feed: LineFeed.Feed<Core>): Core {
    var c :=
      if Trim(feed.lineBuffer) != ""
      then Dispatch(LineFeed.Lines(Step, feed.core, Split(feed.lineBuffer)))
      else feed.core;
    EmitBlocks(c, c.blocks)
  }

  function Start(store: Store): Core {
    Core([], "", "", store, [])
  }

  /** A whole stream, chunk by chunk. */
  function Run(store: Store, chunks: seq<string>): Core {
    Finish(LineFeed.Chunks(Step, LineFeed.Feed(Start(store), ""), chunks))
  }

  // ----- the transformer itself -----

  class Stream {
    var trackedBlocks: seq<Block>
    var lineBuffer: string
    var currentEventType: string
    var currentData: string
    /** The tool metadata store the stream writes to. */
    var store: Store
    /** Everything enqueued on the controller. */
    var output: string
    ghost var emitted: seq<SseEvent>

    constructor (store: Store)
      ensures Valid() && Abstract() == LineFeed.Feed(Start(store), "")
    {
      trackedBlocks, lineBuffer, currentEventType, currentData, output := [], "", "", "", "";
      this.store := store;
      emitted := [];
    }

    ghost predicate Valid()
      reads this
    {
      output == WireAll(emitted)
    }

    ghost function State(): Core
      reads this
    {
      Core(trackedBlocks, currentEventType, currentData, store, emitted)
    }

    ghost function Abstract(): LineFeed.Feed<Core>
      reads this
    {
      LineFeed.Feed(State(), lineBuffer)
    }

    method EmitSseEvent(eventType: string, data: string)
      requires Valid()
      modifies this`output, this`emitted
      ensures Valid() && State() == Emit(old(State()), SseEvent(eventType, data))
    {
      output := output + ("event: " + eventType + "\n" + "data: " + data + "\n" + "\n");
      emitted := emitted + [SseEvent(eventType, data)];
      assert Init(emitted) == old(emitted);
    }

    method EmitBufferedBlock(block: Block)
      requires Valid()
      modifies this`output, this`emitted, this`store
      ensures Valid() && State() == EmitBlock(old(State()), block)
    {
      if block.bufferedJson == "" {
        return;
      }
      var partialJson;
      match Parse(block.bufferedJson) {
        case Some(Obj(fields)) =>
          store := Capture(store, block.id, fields);
          partialJson := Print(Obj(Clean(fields)));
        case Some(Null) =>
          partialJson := StripRaw(block.bufferedJson);
        case Some(other) =>
          partialJson := Print(other);
        case None =>
          partialJson := StripRaw(block.bufferedJson);
      }
      EmitSseEvent("content_block_delta", Print(DeltaJson(block.index, partialJson)));
    }

    method ProcessEvent(eventType: string, dataStr: string)
      requires Valid()
      modifies this`trackedBlocks, this`store, this`output, this`emitted
      ensures Valid() && State() == Process(old(State()), SseEvent(eventType, dataStr))
    {
      HandleEvent(SseEvent(eventType, dataStr), SignalOf(SseEvent(eventType, dataStr)));
    }

    /** The branches of `processEvent`. */
    method HandleEvent(e: SseEvent, signal: Signal)
      requires Valid()
      modifies this`trackedBlocks, this`store, this`output, this`emitted
      ensures Valid() && State() == Handle(old(State()), e, signal)
    {
      match signal {
        case BlockStart(index, contentBlock) => HandleStart(e, index, contentBlock);
        case JsonDelta(index, more) => HandleJsonDelta(e, index, more);
        case BlockStop(index) => HandleStop(e, index);
        case _ => EmitSseEvent(e.eventType, e.data);
      }
    }

    method HandleStart(e: SseEvent, index: Option<int>, contentBlock: Json)
      requires Valid()
      modifies this`trackedBlocks, this`output, this`emitted
      ensures Valid() && State() == Handle(old(State()), e, BlockStart(index, contentBlock))
    {
      var block := ToolBlock(contentBlock, index);
      if block.Some? {
        trackedBlocks := SetBlock(trackedBlocks, block.value);
      }
      EmitSseEvent(e.eventType, e.data);
    }

    method HandleJsonDelta(e: SseEvent, index: Option<int>, more: string)
      requires Valid()
      modifies this`trackedBlocks, this`output, this`emitted
      ensures Valid() && State() == Handle(old(State()), e, JsonDelta(index, more))
    {
      hide EmitBlock, ToolBlock;
      var block := FindBlock(trackedBlocks, index);
      if block.Some? {
        trackedBlocks := SetBlock(trackedBlocks, block.value.(bufferedJson := block.value.bufferedJson + more));
      } else {
        EmitSseEvent(e.eventType, e.data);
      }
    }

    method HandleStop(e: SseEvent, index: Option<int>)
      requires Valid()
      modifies this`trackedBlocks, this`store, this`output, this`emitted
      ensures Valid() && State() == Handle(old(State()), e, BlockStop(index))
    {
      var block := FindBlock(trackedBlocks, index);
      if block.Some? {
        trackedBlocks := DeleteBlock(trackedBlocks, index);
        EmitBufferedBlock(block.value);
      }
      EmitSseEvent(e.eventType, e.data);
    }

    /** Hand over the pending event, if it has both a name and data. */
    method DispatchPending()
      requires Valid()
      modifies this`trackedBlocks, this`store, this`output, this`emitted
      ensures Valid() && State() == Dispatch(old(State()))
    {
      if currentEventType != "" && currentData != "" {
        ProcessEvent(currentEventType, currentData);
      }
    }

    /** The body of the line loops of `transform` and `flush`. */
    method HandleLine(line: string)
      requires Valid()
      modifies this`trackedBlocks, this`currentEventType, this`currentData, this`store, this`output, this`emitted
      ensures Valid() && State() == Step(old(State()), line)
    {
      match Classify(line) {
        case Blank =>
          DispatchPending();
          currentEventType, currentData := "", "";
        case EventName(name) =>
          currentEventType := name;
        case DataText(text) =>
          currentData := if currentData != "" then currentData + "\n" + text else text;
        case Other =>
      }
    }

    method HandleLines(lines: seq<string>)
      requires Valid()
      modifies this`trackedBlocks, this`currentEventType, this`currentData, this`store, this`output, this`emitted
      ensures Valid() && State() == LineFeed.Lines(Step, old(State()), lines)
    {
      var i := 0;
      while i < |lines|
        invariant 0 <= i <= |lines| && Valid()
        invariant LineFeed.Lines(Step, State(), lines[i..]) == LineFeed.Lines(Step, old(State()), lines)
      {
        HandleLine(lines[i]);
        assert lines[i..][1..] == lines[i + 1..];
        i := i + 1;
      }
      assert lines[i..] == [];
    }

    method Transform(chunk: string)
      requires Valid()
      modifies this
      ensures Valid() && Abstract() == LineFeed.Chunk(Step, old(Abstract()), chunk)
    {
      var lines := Split(lineBuffer + chunk);
      lineBuffer := Last(lines);
      HandleLines(Init(lines));
    }

    method Flush()
      requires Valid()
      modifies this
      ensures Valid() && State() == Finish(old(Abstract())) && lineBuffer == ""
    {
      if Trim(lineBuffer) != "" {
        HandleLines(Split(lineBuffer));
        DispatchPending();
      }
      ghost var c := State();
      var i := 0;
      while i < |trackedBlocks|
        invariant 0 <= i <= |trackedBlocks| && Valid()
        invariant trackedBlocks == c.blocks
        invariant EmitBlocks(State(), c.blocks[i..]) == EmitBlocks(c, c.blocks)
      {
        EmitBufferedBlock(trackedBlocks[i]);
        assert c.blocks[i..][1..] == c.blocks[i + 1..];
        i := i + 1;
      }
      trackedBlocks := [];
      lineBuffer := "";
    }
  }
}
