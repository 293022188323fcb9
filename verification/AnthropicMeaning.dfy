/** What the Anthropic stream keeps: the message a consumer builds, less the tool metadata. */
module AnthropicMeaning {
  import opened Options
  import opened Text
  import opened Json
  import opened ToolMetadata
  import opened SseEvents
  import opened AnthropicStream
  import LineFeed

  // ----- a consumer -----

  /** A content block as a consumer accumulates it; `toolId` is the id of a tool call's block. */
  datatype Item = Item(start: Json, toolId: Option<string>, deltas: seq<Json>, inputJson: string, stopped: bool)

  /** Blocks by index, and every event that is not about a known block. */
  datatype Message = Message(items: map<Option<int>, Item>, others: seq<SseEvent>)

  const EMPTY := Message(map[], [])

  /** The id of a block of type `tool_use`, which has an id and a name. */
  function ToolIdOf(contentBlock: Json): Option<string> {
    var kind, id, name := FieldOf(contentBlock, "type"), FieldOf(contentBlock, "id"), FieldOf(contentBlock, "name");
    if kind == Some(Str("tool_use")) && id.Some? && id.value.Str? && id.value.s != "" && name.Some? && name.value.Str?
    then Some(id.value.s)
    else None
  }

  /** How a consumer reads an event: by its name and the fields the protocol gives it, whatever the stream makes of it. */
  function ReadEvent(e: SseEvent): Signal {
    var parsed := Parse(e.data);
    if parsed.None? then Unrelated
    else
      var data := parsed.value;
      var i := match FieldOf(data, "index") case Some(Num(n)) => Some(n) case _ => None;
      match e.eventType {
        case "content_block_start" => BlockStart(i, FieldOf(data, "content_block").GetOr(Null))
        case "content_block_delta" =>
          var delta := FieldOf(data, "delta").GetOr(Null);
          if FieldOf(delta, "type") != Some(Str("input_json_delta")) then OtherDelta(i, delta)
          else JsonDelta(i, match FieldOf(delta, "partial_json") case Some(Str(text)) => text case _ => "")
        case "content_block_stop" => BlockStop(i)
        case _ => Unrelated
      }
  }

  /** The stream reads events as the consumer does. */
  lemma ReadsAlike(e: SseEvent)
    ensures ReadEvent(e) == SignalOf(e)
  {
    hide Parse;
  }

  lemma TracksTools(contentBlock: Json, index: Option<int>)
    ensures ToolBlock(contentBlock, index).Some? <==> ToolIdOf(contentBlock).Some?
    ensures ToolBlock(contentBlock, index).Some? ==>
              var block := ToolBlock(contentBlock, index).value;
              block.id == ToolIdOf(contentBlock).value && block.index == index && block.bufferedJson == ""
  {
  }

  function Receive(m: Message, e: SseEvent, signal: Signal): Message {
    match signal
    case BlockStart(i, contentBlock) => m.(items := m.items[i := Item(contentBlock, ToolIdOf(contentBlock), [], "", false)])
    case JsonDelta(i, more) =>
      if i in m.items then m.(items := m.items[i := m.items[i].(inputJson := m.items[i].inputJson + more)])
      else m.(others := m.others + [e])
    case OtherDelta(i, delta) =>
      if i in m.items then m.(items := m.items[i := m.items[i].(deltas := m.items[i].deltas + [delta])])
      else m.(others := m.others + [e])
    case BlockStop(i) =>
      if i in m.items then m.(items := m.items[i := m.items[i].(stopped := true)])
      else m.(others := m.others + [e])
    case Unrelated => m.(others := m.others + [e])
  }

  function Deliver(m: Message, e: SseEvent): Message {
    Receive(m, e, ReadEvent(e))
  }

  /** The message a sequence of events builds. */
  function Assemble(events: seq<SseEvent>): Message {
    if events == [] then EMPTY else Deliver(Assemble(Init(events)), Last(events))
  }

  predicate IsTool(item: Item) {
    item.toolId.Some?
  }

  /** The same block with the metadata gone from its collected arguments. */
  function CleanItem(item: Item): Item {
    if IsTool(item) && item.inputJson != "" then item.(inputJson := CleanText(item.inputJson)) else item
  }

  function CleanMessage(m: Message): Message {
    Message(map i | i in m.items :: CleanItem(m.items[i]), m.others)
  }

  // ----- which streams -----

  predicate OpenTool(m: Message, index: Option<int>) {
    index in m.items && IsTool(m.items[index]) && !m.items[index].stopped
  }

  /** No block other than a tool reopens an open tool's index, and a stopped tool gets no more arguments. */
  predicate Sound(m: Message, signal: Signal) {
    match signal
    case BlockStart(i, contentBlock) => OpenTool(m, i) ==> ToolIdOf(contentBlock).Some?
    case JsonDelta(i, _) => i in m.items && IsTool(m.items[i]) ==> !m.items[i].stopped
    case _ => true
  }

  predicate SoundStream(events: seq<SseEvent>) {
    events != [] ==> SoundStream(Init(events)) && Sound(Assemble(Init(events)), ReadEvent(Last(events)))
  }

  // ----- the simulation -----

  function Delivered(blocks: seq<Block>, index: Option<int>, item: Item): Item {
    if FindBlock(blocks, index).Some? then item.(inputJson := "") else CleanItem(item)
  }

  /** `b` is `a` with the arguments of every tracked block still missing and of every other tool block cleaned. */
  ghost predicate Agree(blocks: seq<Block>, a: Message, b: Message) {
    && OnePerIndex(blocks)
    && a.items.Keys == b.items.Keys
    && a.others == b.others
    && (forall i :: FindBlock(blocks, i).Some? ==>
          i in a.items && FindBlock(blocks, i).value.bufferedJson == a.items[i].inputJson)
    && (forall i | i in a.items :: b.items[i] == Delivered(blocks, i, a.items[i]))
  }

  /** The tracked blocks are the open tools. */
  ghost predicate TracksOpenTools(blocks: seq<Block>, a: Message) {
    forall i :: OpenTool(a, i) <==> FindBlock(blocks, i).Some?
  }

  ghost predicate Simulates(blocks: seq<Block>, a: Message, b: Message) {
    Agree(blocks, a, b) && TracksOpenTools(blocks, a)
  }

  lemma AssembleSnoc(events: seq<SseEvent>, e: SseEvent)
    ensures Assemble(events + [e]) == Deliver(Assemble(events), e)
  {
    assert Init(events + [e]) == events;
  }

  lemma {:induction false} SetThenFind(blocks: seq<Block>, block: Block)
    requires OnePerIndex(blocks)
    ensures OnePerIndex(SetBlock(blocks, block))
    ensures forall i :: FindBlock(SetBlock(blocks, block), i) == if i == block.index then Some(block) else FindBlock(blocks, i)
    ensures forall k :: 0 <= k < |SetBlock(blocks, block)| ==>
      SetBlock(blocks, block)[k].index == block.index || SetBlock(blocks, block)[k] in blocks
  {
    if blocks != [] && blocks[0].index != block.index {
      SetThenFind(blocks[1..], block);
    } else if blocks != [] {
      var r := SetBlock(blocks, block);
      assert r[1..] == blocks[1..];
      FindNone(blocks[1..], block.index);
    }
  }

  lemma {:induction false} FindNone(blocks: seq<Block>, index: Option<int>)
    requires forall k :: 0 <= k < |blocks| ==> blocks[k].index != index
    ensures FindBlock(blocks, index) == None
  {
    if blocks != [] {
      FindNone(blocks[1..], index);
    }
  }

  lemma {:induction false} DeleteThenFind(blocks: seq<Block>, index: Option<int>)
    requires OnePerIndex(blocks)
    ensures OnePerIndex(DeleteBlock(blocks, index))
    ensures forall i :: FindBlock(DeleteBlock(blocks, index), i) == if i == index then None else FindBlock(blocks, i)
    ensures forall k :: 0 <= k < |DeleteBlock(blocks, index)| ==> DeleteBlock(blocks, index)[k] in blocks
  {
    if blocks != [] && blocks[0].index == index {
      FindNone(blocks[1..], index);
    } else if blocks != [] {
      DeleteThenFind(blocks[1..], index);
    }
  }

  /** The synthesized delta reads back as the delta it was printed from. */
  lemma DeltaReadsBack(index: Option<int>, partialJson: string)
    ensures SignalOf(DeltaEvent(index, partialJson)) == ReadEvent(DeltaEvent(index, partialJson)) == JsonDelta(index, partialJson)
  {
    ReadsAlike(DeltaEvent(index, partialJson));
    var j := DeltaJson(index, partialJson);
    DeltaFields(index, partialJson);
    InnerDeltaFields(partialJson);
    DeltaWellFormed(index, partialJson);
    RoundTrip(j);
  }

  lemma GetNothing(key: string)
    ensures Get([], key) == None
  {
  }

  /** The fields of the synthesized delta, looked up one by one. */
  lemma DeltaFields(index: Option<int>, partialJson: string)
    ensures IntOf(DeltaJson(index, partialJson), "index") == index
    ensures ObjectOf(DeltaJson(index, partialJson), "delta") == InnerDelta(partialJson)
  {
    hide InnerDelta, Get;
    GetNothing("index");
    GetNothing("delta");
    var delta := Field("delta", InnerDelta(partialJson));
    var tail := (if index.Some? then [Field("index", Num(index.value))] else []) + [delta];
    var head := Field("type", Str("content_block_delta"));
    assert DeltaJson(index, partialJson).fields == [head] + tail;
    GetCons(head, tail, "index");
    GetCons(head, tail, "delta");
    GetCons(delta, [], "delta");
    GetCons(delta, [], "index");
    assert [delta] + [] == [delta];
    if index.Some? {
      GetCons(Field("index", Num(index.value)), [delta], "index");
      GetCons(Field("index", Num(index.value)), [delta], "delta");
    } else {
      assert tail == [delta];
    }
  }

  lemma InnerDeltaFields(partialJson: string)
    ensures TextOf(InnerDelta(partialJson), "type") == "input_json_delta"
    ensures TextOf(InnerDelta(partialJson), "partial_json") == partialJson
  {
    var head, part := Field("type", Str("input_json_delta")), Field("partial_json", Str(partialJson));
    GetCons(head, [part], "partial_json");
    GetCons(head, [part], "type");
    GetCons(part, [], "partial_json");
    assert [head] + [part] == [head, part] && [part] + [] == [part];
  }

  lemma DeltaWellFormed(index: Option<int>, partialJson: string)
    ensures WellFormed(DeltaJson(index, partialJson))
  {
    assert WellFormed(InnerDelta(partialJson));
  }

  /** What a consumer has once a block that is no longer tracked has been emitted. */
  function Arrived(block: Block, b: Message): Message {
    if block.bufferedJson == "" then b
    else Receive(b, DeltaEvent(block.index, CleanText(block.bufferedJson)),
                 JsonDelta(block.index, CleanText(block.bufferedJson)))
  }

  lemma EmitBlockArrives(c: Core, block: Block)
    ensures Assemble(EmitBlock(c, block).emitted) == Arrived(block, Assemble(c.emitted))
  {
    if block.bufferedJson != "" {
      AssembleSnoc(c.emitted, DeltaEvent(block.index, CleanText(block.bufferedJson)));
      DeltaReadsBack(block.index, CleanText(block.bufferedJson));
    }
  }

  /** Emitting a block that is no longer tracked hands its cleaned arguments to the consumer. */
  lemma ArrivedAgrees(block: Block, a: Message, b: Message, blocks: seq<Block>)
    requires Agree(blocks, a, b)
    requires FindBlock(blocks, block.index) == Some(block) && IsTool(a.items[block.index])
    ensures Agree(DeleteBlock(blocks, block.index), a, Arrived(block, b))
  {
    hide CleanText, DeleteBlock, FindBlock;
    DeleteThenFind(blocks, block.index);
    assert "" + CleanText(block.bufferedJson) == CleanText(block.bufferedJson);
  }

  lemma StartSimulates(blocks: seq<Block>, a: Message, b: Message, e: SseEvent, i: Option<int>, contentBlock: Json)
    requires Simulates(blocks, a, b) && Sound(a, BlockStart(i, contentBlock))
    ensures var blocks' := if ToolBlock(contentBlock, i).Some? then SetBlock(blocks, ToolBlock(contentBlock, i).value) else blocks;
      Simulates(blocks', Receive(a, e, BlockStart(i, contentBlock)), Receive(b, e, BlockStart(i, contentBlock)))
  {
    var item := Item(contentBlock, ToolIdOf(contentBlock), [], "", false);
    if ToolBlock(contentBlock, i).Some? {
      StartTool(blocks, a, b, ToolBlock(contentBlock, i).value, item);
    } else {
      assert !OpenTool(a, i);
      StartOther(blocks, a, b, i, item);
    }
  }

  lemma StartTool(blocks: seq<Block>, a: Message, b: Message, block: Block, item: Item)
    requires Simulates(blocks, a, b) && block.bufferedJson == ""
    requires item.toolId.Some? && item.inputJson == "" && !item.stopped
    ensures Simulates(SetBlock(blocks, block), a.(items := a.items[block.index := item]), b.(items := b.items[block.index := item]))
  {
    hide SetBlock, FindBlock, CleanText;
    SetThenFind(blocks, block);
  }

  lemma StartOther(blocks: seq<Block>, a: Message, b: Message, i: Option<int>, item: Item)
    requires Simulates(blocks, a, b) && !OpenTool(a, i) && item.toolId == None
    ensures Simulates(blocks, a.(items := a.items[i := item]), b.(items := b.items[i := item]))
  {
  }

  lemma JsonDeltaBuffered(blocks: seq<Block>, a: Message, b: Message, e: SseEvent, block: Block, more: string)
    requires Simulates(blocks, a, b) && FindBlock(blocks, block.index) == Some(block)
    ensures Simulates(SetBlock(blocks, block.(bufferedJson := block.bufferedJson + more)),
                      Receive(a, e, JsonDelta(block.index, more)), b)
  {
    hide SetBlock, FindBlock, CleanItem;
    SetThenFind(blocks, block.(bufferedJson := block.bufferedJson + more));
  }

  lemma JsonDeltaPassed(blocks: seq<Block>, a: Message, b: Message, e: SseEvent, i: Option<int>, more: string)
    requires Simulates(blocks, a, b) && Sound(a, JsonDelta(i, more)) && FindBlock(blocks, i) == None
    ensures Simulates(blocks, Receive(a, e, JsonDelta(i, more)), Receive(b, e, JsonDelta(i, more)))
  {
    NotATool(blocks, a, b, i, more);
    if i in a.items {
      var item := a.items[i].(inputJson := a.items[i].inputJson + more);
      assert !IsTool(item);
      UpdateBoth(blocks, a, b, i, item);
    }
  }

  lemma NotATool(blocks: seq<Block>, a: Message, b: Message, i: Option<int>, more: string)
    requires Simulates(blocks, a, b) && Sound(a, JsonDelta(i, more)) && FindBlock(blocks, i) == None
    ensures i in a.items ==> !IsTool(a.items[i]) && b.items[i] == a.items[i]
  {
    assert !OpenTool(a, i);
  }

  /** Changing an untracked block on both sides, cleaned on the consumer's. */
  lemma UpdateAgrees(blocks: seq<Block>, a: Message, b: Message, i: Option<int>, item: Item)
    requires Agree(blocks, a, b) && FindBlock(blocks, i) == None && i in a.items
    ensures Agree(blocks, a.(items := a.items[i := item]), b.(items := b.items[i := CleanItem(item)]))
  {
    hide FindBlock, CleanItem, OnePerIndex;
  }

  lemma UpdateTracks(blocks: seq<Block>, a: Message, i: Option<int>, item: Item)
    requires TracksOpenTools(blocks, a) && i in a.items && !IsTool(a.items[i]) && !IsTool(item)
    ensures TracksOpenTools(blocks, a.(items := a.items[i := item]))
  {
    hide FindBlock;
    var a' := a.(items := a.items[i := item]);
    forall j ensures OpenTool(a', j) <==> OpenTool(a, j) {
    }
  }

  /** Changing an untracked block that is no tool, alike on both sides. */
  lemma UpdateBoth(blocks: seq<Block>, a: Message, b: Message, i: Option<int>, item: Item)
    requires Simulates(blocks, a, b) && FindBlock(blocks, i) == None && i in a.items
    requires !IsTool(a.items[i]) && !IsTool(item)
    ensures Simulates(blocks, a.(items := a.items[i := item]), b.(items := b.items[i := item]))
  {
    hide FindBlock, Agree, TracksOpenTools, CleanText;
    UpdateAgrees(blocks, a, b, i, item);
    UpdateTracks(blocks, a, i, item);
    assert CleanItem(item) == item;
  }

  lemma StopAgrees(blocks: seq<Block>, a: Message, b: Message, e: SseEvent, i: Option<int>)
    requires Agree(blocks, a, b) && FindBlock(blocks, i) == None
    ensures Agree(blocks, Receive(a, e, BlockStop(i)), Receive(b, e, BlockStop(i)))
  {
    hide FindBlock, CleanText, OnePerIndex;
    if i in a.items {
      UpdateAgrees(blocks, a, b, i, a.items[i].(stopped := true));
      assert b.items[i] == CleanItem(a.items[i]);
      assert CleanItem(a.items[i].(stopped := true)) == CleanItem(a.items[i]).(stopped := true);
    }
  }

  lemma StopTracks(blocks: seq<Block>, a: Message, e: SseEvent, i: Option<int>)
    requires OnePerIndex(blocks) && TracksOpenTools(blocks, a)
    ensures TracksOpenTools(DeleteBlock(blocks, i), Receive(a, e, BlockStop(i)))
  {
    DeleteThenFind(blocks, i);
  }

  lemma StepSimulates(c: Core, e: SseEvent, a: Message, signal: Signal)
    requires Simulates(c.blocks, a, Assemble(c.emitted)) && Sound(a, signal) && signal == ReadEvent(e)
    ensures Simulates(Handle(c, e, signal).blocks, Receive(a, e, signal), Assemble(Handle(c, e, signal).emitted))
  {
    hide Simulates, Sound, Receive, Assemble, ToolBlock, FindBlock, SetBlock, EmitBlock, ReadEvent;
    var b := Assemble(c.emitted);
    AssembleSnoc(c.emitted, e);
    match signal
    case BlockStart(i, contentBlock) => StartSimulates(c.blocks, a, b, e, i, contentBlock);
    case JsonDelta(i, more) =>
      if FindBlock(c.blocks, i).Some? {
        JsonDeltaBuffered(c.blocks, a, b, e, FindBlock(c.blocks, i).value, more);
      } else {
        JsonDeltaPassed(c.blocks, a, b, e, i, more);
      }
    case OtherDelta(i, delta) => OthersSimulate(c.blocks, a, b, e, signal);
    case BlockStop(i) => StopSimulates(c, e, a, i);
    case Unrelated => OthersSimulate(c.blocks, a, b, e, signal);
  }

  lemma OthersSimulate(blocks: seq<Block>, a: Message, b: Message, e: SseEvent, signal: Signal)
    requires Simulates(blocks, a, b) && (signal.OtherDelta? || signal.Unrelated?)
    ensures Simulates(blocks, Receive(a, e, signal), Receive(b, e, signal))
  {
    hide CleanText;
  }

  lemma StopSimulates(c: Core, e: SseEvent, a: Message, i: Option<int>)
    requires Simulates(c.blocks, a, Assemble(c.emitted)) && ReadEvent(e) == BlockStop(i)
    ensures var c' := Handle(c, e, BlockStop(i));
      Simulates(c'.blocks, Receive(a, e, BlockStop(i)), Assemble(c'.emitted))
  {
    hide ReadEvent, CleanText, CaptureText;
    var b := Assemble(c.emitted);
    var left := DeleteBlock(c.blocks, i);
    DeleteThenFind(c.blocks, i);
    StopTracks(c.blocks, a, e, i);
    if FindBlock(c.blocks, i).Some? {
      var block := FindBlock(c.blocks, i).value;
      var c1 := EmitBlock(c.(blocks := left), block);
      assert OpenTool(a, i);
      ArrivedAgrees(block, a, b, c.blocks);
      EmitBlockArrives(c.(blocks := left), block);
      AssembleSnoc(c1.emitted, e);
      StopAgrees(left, a, Arrived(block, b), e, i);
    } else {
      DeleteNone(c.blocks, i);
      AssembleSnoc(c.emitted, e);
      StopAgrees(c.blocks, a, b, e, i);
    }
  }

  lemma {:induction false} DeleteNone(blocks: seq<Block>, index: Option<int>)
    requires FindBlock(blocks, index) == None
    ensures DeleteBlock(blocks, index) == blocks
  {
    if blocks != [] {
      DeleteNone(blocks[1..], index);
    }
  }

  lemma {:induction false} StreamSimulates(store: Store, events: seq<SseEvent>)
    requires SoundStream(events)
    ensures var c := ProcessAll(Start(store), events);
      Simulates(c.blocks, Assemble(events), Assemble(c.emitted))
  {
    hide ReadEvent, SignalOf, Sound, Handle, Receive;
    if events != [] {
      StreamSimulates(store, Init(events));
      var e := Last(events);
      ReadsAlike(e);
      StepSimulates(ProcessAll(Start(store), Init(events)), e, Assemble(Init(events)), ReadEvent(e));
    }
  }

  /** Flushing closes the gap: no block is tracked any more. */
  lemma {:induction false} EmitBlocksAgrees(c: Core, blocks: seq<Block>, a: Message)
    requires Agree(blocks, a, Assemble(c.emitted))
    requires forall i :: FindBlock(blocks, i).Some? ==> IsTool(a.items[i])
    ensures Assemble(EmitBlocks(c, blocks).emitted) == CleanMessage(a)
    decreases |blocks|
  {
    if blocks != [] {
      assert FindBlock(blocks, blocks[0].index) == Some(blocks[0]);
      EmitBlockArrives(c, blocks[0]);
      ArrivedAgrees(blocks[0], a, Assemble(c.emitted), blocks);
      DeleteThenFind(blocks, blocks[0].index);
      assert DeleteBlock(blocks, blocks[0].index) == blocks[1..];
      EmitBlocksAgrees(EmitBlock(c, blocks[0]), blocks[1..], a);
    }
  }

  /** Everything a stream of these events emits, flush included. */
  function Output(store: Store, events: seq<SseEvent>): Core {
    var c := ProcessAll(Start(store), events);
    EmitBlocks(c, c.blocks)
  }

  /**
   * The consumer of the output builds the message of the input with the metadata gone from every tool block's
   * arguments, wherever the stream is cut off and however its blocks interleave.
   */
  lemma MeaningPreserved(store: Store, events: seq<SseEvent>)
    requires SoundStream(events)
    ensures Assemble(Output(store, events).emitted) == CleanMessage(Assemble(events))
  {
    var c := ProcessAll(Start(store), events);
    StreamSimulates(store, events);
    EmitBlocksAgrees(c, c.blocks, Assemble(events));
  }

  // ----- the metadata store, and replaying the message -----

  predicate UsedId(m: Message, id: string) {
    exists j :: j in m.items && m.items[j].toolId == Some(id)
  }

  /** Blocks open at unused indices, and tools under unused ids. */
  predicate Fresh(m: Message, signal: Signal) {
    match signal
    case BlockStart(i, contentBlock) =>
      i !in m.items && (ToolIdOf(contentBlock).Some? ==> !UsedId(m, ToolIdOf(contentBlock).value))
    case _ => true
  }

  predicate FreshStream(events: seq<SseEvent>) {
    events != [] ==> FreshStream(Init(events)) && Fresh(Assemble(Init(events)), ReadEvent(Last(events)))
  }

  /** What the store holds about one tool: nothing new while its arguments are still being collected. */
  function Expected(store0: Store, tracked: bool, toolId: string, inputJson: string): Option<Meta> {
    MetaAt(if tracked then store0 else CaptureText(store0, toolId, inputJson), toolId)
  }

  ghost predicate DistinctIds(a: Message) {
    forall i, j | i in a.items && j in a.items && i != j && IsTool(a.items[i]) :: a.items[i].toolId != a.items[j].toolId
  }

  ghost predicate TracksIds(blocks: seq<Block>, a: Message) {
    forall i | FindBlock(blocks, i).Some? :: i in a.items && a.items[i].toolId == Some(FindBlock(blocks, i).value.id)
  }

  ghost predicate EntriesAgree(blocks: seq<Block>, a: Message, store0: Store, store: Store) {
    && (forall i | i in a.items && IsTool(a.items[i]) ::
          MetaAt(store, a.items[i].toolId.value)
          == Expected(store0, FindBlock(blocks, i).Some?, a.items[i].toolId.value, a.items[i].inputJson))
    && (forall id: string | !UsedId(a, id) :: MetaAt(store, id) == MetaAt(store0, id))
  }

  ghost predicate StoreAgrees(c: Core, a: Message, store0: Store) {
    DistinctIds(a) && TracksIds(c.blocks, a) && EntriesAgree(c.blocks, a, store0, c.store)
  }

  lemma CaptureTextAt(store: Store, store0: Store, id: string, other: string, json: string)
    ensures other != id ==> MetaAt(CaptureText(store, id, json), other) == MetaAt(store, other)
    ensures MetaAt(store, id) == MetaAt(store0, id) ==> MetaAt(CaptureText(store, id, json), id) == MetaAt(CaptureText(store0, id, json), id)
  {
  }

  lemma EmitEntries(blocks: seq<Block>, left: seq<Block>, a: Message, block: Block, store0: Store, store: Store, store': Store)
    requires DistinctIds(a) && EntriesAgree(blocks, a, store0, store)
    requires block.index in a.items && a.items[block.index].toolId == Some(block.id)
    requires FindBlock(left, block.index) == None
    requires forall i :: i != block.index ==> FindBlock(left, i) == FindBlock(blocks, i)
    requires forall id: string :: id != block.id ==> MetaAt(store', id) == MetaAt(store, id)
    requires MetaAt(store', block.id) == Expected(store0, false, block.id, a.items[block.index].inputJson)
    ensures EntriesAgree(left, a, store0, store')
  {
    hide FindBlock, Expected, MetaAt;
    assert UsedId(a, block.id);
  }

  /** Emitting a block records its tool's metadata and nothing else. */
  lemma EmitBlockStore(c: Core, block: Block, a: Message, store0: Store, c': Core)
    requires StoreAgrees(c, a, store0) && Agree(c.blocks, a, Assemble(c.emitted))
    requires FindBlock(c.blocks, block.index) == Some(block)
    requires c'.blocks == DeleteBlock(c.blocks, block.index) && c'.store == EmitBlock(c, block).store
    ensures StoreAgrees(c', a, store0)
  {
    hide CaptureText, DeleteBlock, Delivered, DistinctIds, FindBlock;
    DeleteThenFind(c.blocks, block.index);
    EmittedAt(c, block, a, store0);
    forall id: string | id != block.id ensures MetaAt(c'.store, id) == MetaAt(c.store, id) {
      CaptureTextAt(c.store, store0, block.id, id, block.bufferedJson);
    }
    EmitEntries(c.blocks, c'.blocks, a, block, store0, c.store, c'.store);
  }

  lemma EmittedAt(c: Core, block: Block, a: Message, store0: Store)
    requires EntriesAgree(c.blocks, a, store0, c.store)
    requires FindBlock(c.blocks, block.index) == Some(block)
    requires block.index in a.items && a.items[block.index].toolId == Some(block.id)
    ensures MetaAt(EmitBlock(c, block).store, block.id) == Expected(store0, false, block.id, block.bufferedJson)
  {
    hide CaptureText, FindBlock;
    assert IsTool(a.items[block.index]);
    CaptureTextAt(c.store, store0, block.id, block.id, block.bufferedJson);
    CaptureNothing(store0, block.id);
  }

  lemma CaptureNothing(store: Store, id: string)
    ensures CaptureText(store, id, "") == store
  {
  }

  lemma StartIds(blocks: seq<Block>, blocks': seq<Block>, a: Message, i: Option<int>, item: Item)
    requires DistinctIds(a) && TracksIds(blocks, a)
    requires i !in a.items && (item.toolId.Some? ==> !UsedId(a, item.toolId.value))
    requires forall j :: j != i ==> FindBlock(blocks', j) == FindBlock(blocks, j)
    requires FindBlock(blocks', i).Some? ==> item.toolId == Some(FindBlock(blocks', i).value.id)
    ensures var a' := a.(items := a.items[i := item]); DistinctIds(a') && TracksIds(blocks', a')
  {
    hide FindBlock;
  }

  lemma StartEntries(blocks: seq<Block>, blocks': seq<Block>, a: Message, i: Option<int>, item: Item, store0: Store, store: Store)
    requires EntriesAgree(blocks, a, store0, store)
    requires i !in a.items && (item.toolId.Some? ==> !UsedId(a, item.toolId.value))
    requires forall j :: j != i ==> FindBlock(blocks', j) == FindBlock(blocks, j)
    requires item.toolId.Some? ==> FindBlock(blocks', i).Some?
    ensures EntriesAgree(blocks', a.(items := a.items[i := item]), store0, store)
  {
    hide FindBlock, CaptureText, MetaAt;
    var a' := a.(items := a.items[i := item]);
    forall id: string | UsedId(a, id)
      ensures UsedId(a', id)
    {
      var j :| j in a.items && a.items[j].toolId == Some(id);
      assert a'.items[j] == a.items[j];
    }
  }

  lemma StartStore(c: Core, a: Message, e: SseEvent, store0: Store, i: Option<int>, contentBlock: Json)
    requires StoreAgrees(c, a, store0) && Agree(c.blocks, a, Assemble(c.emitted))
    requires Fresh(a, BlockStart(i, contentBlock))
    ensures StoreAgrees(Handle(c, e, BlockStart(i, contentBlock)), Receive(a, e, BlockStart(i, contentBlock)), store0)
  {
    hide SetBlock, FindBlock, DistinctIds, TracksIds, EntriesAgree, UsedId;
    var item := Item(contentBlock, ToolIdOf(contentBlock), [], "", false);
    var block := ToolBlock(contentBlock, i);
    var blocks' := if block.Some? then SetBlock(c.blocks, block.value) else c.blocks;
    if block.Some? {
      SetThenFind(c.blocks, block.value);
    } else {
      NotTracked(c.blocks, a, i);
    }
    StartIds(c.blocks, blocks', a, i, item);
    StartEntries(c.blocks, blocks', a, i, item, store0, c.store);
  }

  lemma NotTracked(blocks: seq<Block>, a: Message, i: Option<int>)
    requires TracksIds(blocks, a) && i !in a.items
    ensures FindBlock(blocks, i) == None
  {
  }

  lemma UsedIdsStay(a: Message, a': Message, id: string)
    requires a'.items.Keys == a.items.Keys && forall j | j in a.items :: a'.items[j].toolId == a.items[j].toolId
    ensures UsedId(a', id) <==> UsedId(a, id)
  {
    if j :| j in a.items && a.items[j].toolId == Some(id) {
      assert a'.items[j].toolId == Some(id);
    }
    if j :| j in a'.items && a'.items[j].toolId == Some(id) {
      assert a.items[j].toolId == Some(id);
    }
  }

  lemma UpdateEntries(blocks: seq<Block>, blocks': seq<Block>, a: Message, a': Message, store0: Store, store: Store, i: Option<int>)
    requires EntriesAgree(blocks, a, store0, store)
    requires a'.items.Keys == a.items.Keys && forall j | j in a.items :: a'.items[j].toolId == a.items[j].toolId
    requires forall j | j in a.items && j != i :: a'.items[j] == a.items[j]
    requires forall j :: FindBlock(blocks', j).Some? == FindBlock(blocks, j).Some?
    requires FindBlock(blocks, i).Some? || (i in a.items && (!IsTool(a.items[i]) || a'.items[i].inputJson == a.items[i].inputJson))
    ensures EntriesAgree(blocks', a', store0, store)
  {
    hide CaptureText, MetaAt, FindBlock, UsedId;
    forall id: string ensures UsedId(a', id) <==> UsedId(a, id) {
      UsedIdsStay(a, a', id);
    }
  }

  /** An event that only changes one known block, and neither its start nor the arguments of a closed tool. */
  lemma UpdateStore(c: Core, c': Core, a: Message, a': Message, store0: Store, i: Option<int>)
    requires StoreAgrees(c, a, store0) && c'.store == c.store
    requires a'.items.Keys == a.items.Keys && i in a.items && a'.items[i].toolId == a.items[i].toolId
    requires forall j | j in a.items && j != i :: a'.items[j] == a.items[j]
    requires forall j :: FindBlock(c'.blocks, j).Some? == FindBlock(c.blocks, j).Some?
    requires forall j :: FindBlock(c.blocks, j).Some? ==> FindBlock(c'.blocks, j).value.id == FindBlock(c.blocks, j).value.id
    requires FindBlock(c.blocks, i).Some? || !IsTool(a.items[i]) || a'.items[i].inputJson == a.items[i].inputJson
    ensures StoreAgrees(c', a', store0)
  {
    hide FindBlock, EntriesAgree;
    UpdateEntries(c.blocks, c'.blocks, a, a', store0, c.store, i);
  }

  lemma StopStore(c: Core, a: Message, e: SseEvent, store0: Store, i: Option<int>)
    requires StoreAgrees(c, a, store0) && Agree(c.blocks, a, Assemble(c.emitted))
    ensures StoreAgrees(Handle(c, e, BlockStop(i)), Receive(a, e, BlockStop(i)), store0)
  {
    hide StoreAgrees, Agree, CaptureText;
    var a' := Receive(a, e, BlockStop(i));
    var c1 := c;
    if FindBlock(c.blocks, i).Some? {
      var block := FindBlock(c.blocks, i).value;
      c1 := EmitBlock(c.(blocks := DeleteBlock(c.blocks, i)), block);
      EmitBlockStore(c, block, a, store0, c1);
    }
    if i in a.items {
      UpdateStore(c1, Handle(c, e, BlockStop(i)), a, a', store0, i);
    } else {
      assert a'.items == a.items;
      SameItems(c1, Handle(c, e, BlockStop(i)), a, a', store0);
    }
  }

  lemma SameItems(c: Core, c': Core, a: Message, a': Message, store0: Store)
    requires StoreAgrees(c, a, store0) && c'.store == c.store && c'.blocks == c.blocks && a'.items == a.items
    ensures StoreAgrees(c', a', store0)
  {
    forall id: string | !UsedId(a', id)
      ensures !UsedId(a, id)
    {
    }
  }

  lemma JsonDeltaStore(c: Core, e: SseEvent, a: Message, i: Option<int>, more: string, store0: Store)
    requires StoreAgrees(c, a, store0) && Simulates(c.blocks, a, Assemble(c.emitted))
    requires Sound(a, JsonDelta(i, more))
    ensures StoreAgrees(Handle(c, e, JsonDelta(i, more)), Receive(a, e, JsonDelta(i, more)), store0)
  {
    hide StoreAgrees, Assemble, SetBlock, CleanText, Delivered;
    var c', a' := Handle(c, e, JsonDelta(i, more)), Receive(a, e, JsonDelta(i, more));
    if FindBlock(c.blocks, i).Some? {
      var block := FindBlock(c.blocks, i).value;
      SetThenFind(c.blocks, block.(bufferedJson := block.bufferedJson + more));
      UpdateStore(c, c', a, a', store0, i);
    } else if i in a.items {
      NotATool(c.blocks, a, Assemble(c.emitted), i, more);
      UpdateStore(c, c', a, a', store0, i);
    } else {
      SameItems(c, c', a, a', store0);
    }
  }

  lemma OthersStore(c: Core, e: SseEvent, a: Message, signal: Signal, store0: Store)
    requires StoreAgrees(c, a, store0) && (signal.OtherDelta? || signal.Unrelated?)
    ensures StoreAgrees(Handle(c, e, signal), Receive(a, e, signal), store0)
  {
    hide StoreAgrees;
    var c', a' := Handle(c, e, signal), Receive(a, e, signal);
    if signal.OtherDelta? && signal.index in a.items {
      UpdateStore(c, c', a, a', store0, signal.index);
    } else {
      SameItems(c, c', a, a', store0);
    }
  }

  lemma StepStore(c: Core, e: SseEvent, a: Message, signal: Signal, store0: Store)
    requires StoreAgrees(c, a, store0) && Simulates(c.blocks, a, Assemble(c.emitted))
    requires Sound(a, signal) && Fresh(a, signal)
    ensures StoreAgrees(Handle(c, e, signal), Receive(a, e, signal), store0)
  {
    hide StoreAgrees, Handle, Receive, Sound, Fresh, Assemble, Agree;
    match signal
    case BlockStart(i, contentBlock) => StartStore(c, a, e, store0, i, contentBlock);
    case JsonDelta(i, more) => JsonDeltaStore(c, e, a, i, more, store0);
    case BlockStop(i) => StopStore(c, a, e, store0, i);
    case _ => OthersStore(c, e, a, signal, store0);
  }

  lemma {:induction false} StreamStore(store0: Store, events: seq<SseEvent>)
    requires SoundStream(events) && FreshStream(events)
    ensures StoreAgrees(ProcessAll(Start(store0), events), Assemble(events), store0)
  {
    hide ReadEvent, SignalOf, Sound, Fresh, Handle, Receive;
    if events != [] {
      StreamStore(store0, Init(events));
      StreamSimulates(store0, Init(events));
      var e := Last(events);
      ReadsAlike(e);
      StepStore(ProcessAll(Start(store0), Init(events)), e, Assemble(Init(events)), ReadEvent(e), store0);
    }
  }

  lemma {:induction false} EmitBlocksStore(c: Core, a: Message, store0: Store)
    requires StoreAgrees(c, a, store0) && Agree(c.blocks, a, Assemble(c.emitted))
    ensures StoreAgrees(EmitBlocks(c, c.blocks), a, store0)
    decreases |c.blocks|
  {
    if c.blocks != [] {
      var block := c.blocks[0];
      assert FindBlock(c.blocks, block.index) == Some(block);
      assert DeleteBlock(c.blocks, block.index) == c.blocks[1..];
      var c' := EmitBlock(c, block).(blocks := c.blocks[1..]);
      EmitBlockStore(c, block, a, store0, c');
      EmitBlockArrives(c, block);
      ArrivedAgrees(block, a, Assemble(c.emitted), c.blocks);
      EmitBlocksStore(c', a, store0);
      EmitBlocksIgnores(EmitBlock(c, block), c.blocks[1..], c'.blocks);
    } else {
      assert EmitBlocks(c, c.blocks) == c;
    }
  }

  /** What is emitted does not depend on the tracked blocks left in the state. */
  lemma {:induction false} EmitBlocksIgnores(c: Core, blocks: seq<Block>, other: seq<Block>)
    ensures EmitBlocks(c, blocks) == EmitBlocks(c.(blocks := other), blocks)
    decreases |blocks|
  {
    if blocks != [] {
      EmitBlocksIgnores(EmitBlock(c, blocks[0]), blocks[1..], other);
      assert EmitBlock(c.(blocks := other), blocks[0]) == EmitBlock(c, blocks[0]).(blocks := other);
    }
  }

  lemma {:induction false} EmitBlocksForgets(c: Core, blocks: seq<Block>)
    ensures EmitBlocks(c, blocks).blocks == []
    decreases |blocks|
  {
    if blocks != [] {
      EmitBlocksForgets(EmitBlock(c, blocks[0]), blocks[1..]);
    }
  }

  /** At the end of the stream every tool's metadata is in the store. */
  lemma OutputStore(store0: Store, events: seq<SseEvent>, i: Option<int>)
    requires SoundStream(events) && FreshStream(events)
    requires i in Assemble(events).items && IsTool(Assemble(events).items[i])
    ensures var item := Assemble(events).items[i];
      MetaAt(Output(store0, events).store, item.toolId.value)
      == MetaAt(CaptureText(store0, item.toolId.value, item.inputJson), item.toolId.value)
  {
    var c := ProcessAll(Start(store0), events);
    StreamStore(store0, events);
    StreamSimulates(store0, events);
    EmitBlocksStore(c, Assemble(events), store0);
    EmitBlocksForgets(c, c.blocks);
  }

  lemma ReinjectAt(store: Store, other: Store, toolId: string, fields: Fields)
    requires MetaAt(store, toolId) == MetaAt(other, toolId)
    ensures Reinject(store, toolId, fields) == Reinject(other, toolId, fields)
  {
  }

  /**
   * A tool's arguments reach the consumer without their metadata, and re-injecting what the stream stored gives
   * the model's own arguments back exactly when their metadata is restorable.
   */
  lemma ReplayRestores(store0: Store, events: seq<SseEvent>, i: Option<int>, fields: Fields)
    requires SoundStream(events) && FreshStream(events)
    requires i in Assemble(events).items && IsTool(Assemble(events).items[i])
    requires Parse(Assemble(events).items[i].inputJson) == Some(Obj(fields))
    requires Assemble(events).items[i].toolId.value !in store0
    ensures var out, id := Output(store0, events), Assemble(events).items[i].toolId.value;
      && i in Assemble(out.emitted).items
      && Parse(Assemble(out.emitted).items[i].inputJson) == Some(Obj(Clean(fields)))
      && AsMap(Clean(fields)) == AsMap(fields) - {INTENT, DISPLAY_NAME}
      && (AsMap(Reinject(out.store, id, Clean(fields))) == AsMap(fields) <==> Restorable(fields))
  {
    var item := Assemble(events).items[i];
    var id := item.toolId.value;
    MeaningPreserved(store0, events);
    CleanTextMeaning(item.inputJson, fields);
    CleanOfText(item, fields);
    OutputStore(store0, events, i);
    StripThenReinject(store0, id, fields);
    ReinjectAt(Output(store0, events).store, Capture(store0, id, fields), id, Clean(fields));
  }

  lemma CleanOfText(item: Item, fields: Fields)
    requires IsTool(item) && Parse(item.inputJson) == Some(Obj(fields))
    ensures CleanItem(item).inputJson == CleanText(item.inputJson)
  {
    assert Parse("").None?;
  }
}
