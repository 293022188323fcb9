/** The Anthropic stream on text: chunks in, text out, and what its framing loses. */
module AnthropicText {
  import opened Options
  import opened Text
  import opened Json
  import opened ToolMetadata
  import opened SseEvents
  import opened AnthropicStream
  import opened AnthropicMeaning
  import LineFeed

  /** Any two ways of cutting the same text give the same output and the same stored metadata. */
  lemma CuttingIsIrrelevant(store: Store, chunks: seq<string>, others: seq<string>)
    requires Flatten(chunks) == Flatten(others)
    ensures Run(store, chunks) == Run(store, others)
  {
    var feed := LineFeed.Feed(Start(store), "");
    LineFeed.CuttingIsIrrelevant(Step, feed, chunks);
    LineFeed.CuttingIsIrrelevant(Step, feed, others);
  }

  /** An event with its name and data already trimmed. */
  predicate Plain(e: SseEvent) {
    && Trimmed(e.eventType) && OneLine(e.eventType)
    && Trimmed(e.data) && NoBreak(e.data)
  }

  /** Plain, and no line separator of any kind in the data. */
  predicate Canonical(e: SseEvent) {
    Plain(e) && OneLine(e.data)
  }

  predicate AllCanonical(events: seq<SseEvent>) {
    forall i :: 0 <= i < |events| ==> Canonical(events[i])
  }

  // ----- one written event, line by line -----

  lemma MatchOwnField(prefix: string, value: string)
    requires prefix == "event:" || prefix == "data:"
    requires Trimmed(value)
    ensures Trim(prefix + " " + value) == prefix + " " + value
    ensures MatchField(prefix + " " + value, prefix) == if OneLine(value) then Some(value) else None
  {
    var line := prefix + " " + value;
    assert line[0] == prefix[0] && line[|line| - 1] == value[|value| - 1];
    TrimTrimmed(line);
    assert line[|prefix|..] == " " + value;
    assert (" " + value)[1..] == value;
    assert TrimStart(" " + value) == TrimStart(value) == value;
  }

  lemma ClassifyEvent(name: string)
    requires Trimmed(name) && OneLine(name)
    ensures Classify("event: " + name) == EventName(name)
  {
    MatchOwnField("event:", name);
    assert "event:" + " " + name == "event: " + name;
    TrimTrimmed(name);
  }

  lemma ClassifyData(text: string)
    requires Trimmed(text)
    ensures Classify("data: " + text) == if OneLine(text) then DataText(text) else Other
  {
    MatchOwnField("data:", text);
    var line := "data: " + text;
    assert "data:" + " " + text == line;
    assert line[0] == 'd';
    assert MatchField(line, "event:") == None;
  }

  lemma StepEvent(c: Core, name: string)
    requires Trimmed(name) && OneLine(name)
    ensures Step(c, "event: " + name) == c.(eventType := name)
  {
    ClassifyEvent(name);
  }

  lemma StepData(c: Core, text: string)
    requires Trimmed(text) && c.data == ""
    ensures Step(c, "data: " + text) == if OneLine(text) then c.(data := text) else c
  {
    ClassifyData(text);
  }

  /** The blank line after a complete event, and after an event whose data line was not recognised. */
  lemma StepBlank(c: Core, e: SseEvent)
    requires c.eventType == "" && c.data == "" && e.eventType != "" && e.data != ""
    ensures Step(c.(eventType := e.eventType, data := e.data), "") == Process(c, e)
    ensures Step(c.(eventType := e.eventType), "") == c
  {
    assert Classify("") == Blank;
    ProcessIgnores(c, e, e.eventType, e.data);
    ProcessIgnores(c, e, "", "");
  }

  /** Going through a complete event's three lines. */
  lemma StepThrough(c: Core, e: SseEvent)
    requires c.eventType == "" && c.data == "" && Plain(e)
    ensures LineFeed.Lines(Step, c, WireLinesOf(e)) == if OneLine(e.data) then Process(c, e) else c
  {
    StepEvent(c, e.eventType);
    StepData(c.(eventType := e.eventType), e.data);
    StepBlank(c, e);
    LineFeed.LinesThree(Step, c, "event: " + e.eventType, "data: " + e.data, "");
  }

  /** Handling an event neither looks at nor changes the pending name and data. */
  lemma ProcessIgnores(c: Core, e: SseEvent, eventType: string, data: string)
    ensures Process(c.(eventType := eventType, data := data), e) == Process(c, e).(eventType := eventType, data := data)
  {
    var signal := SignalOf(e);
    HandleIgnores(c, e, signal, eventType, data);
  }

  lemma HandleIgnores(c: Core, e: SseEvent, signal: Signal, eventType: string, data: string)
    ensures Handle(c.(eventType := eventType, data := data), e, signal)
         == Handle(c, e, signal).(eventType := eventType, data := data)
  {
  }

  lemma {:induction false} ProcessAllKeepsNothingPending(store: Store, events: seq<SseEvent>)
    ensures var c := ProcessAll(Start(store), events); c.eventType == "" && c.data == ""
  {
    if events != [] {
      var c := ProcessAll(Start(store), Init(events));
      ProcessAllKeepsNothingPending(store, Init(events));
      ProcessIgnores(c, Last(events), "", "");
    }
  }

  /**
   * One written event in one chunk. The event is handed over exactly when no line separator of any kind is in its
   * data; one that holds U+2028 or U+2029, which JSON allows unescaped, is dropped without a trace.
   */
  lemma WrittenEvent(c: Core, e: SseEvent)
    requires c.eventType == "" && c.data == "" && Plain(e)
    ensures LineFeed.Chunk(Step, LineFeed.Feed(c, ""), Wire(e))
         == LineFeed.Feed(if OneLine(e.data) then Process(c, e) else c, "")
  {
    WireAllLines("", e);
    assert "" + Wire(e) == Wire(e);
    assert Init(Split("")) + WireLinesOf(e) == WireLinesOf(e);
    StepThrough(c, e);
  }

  lemma {:induction false} WrittenEvents(store: Store, events: seq<SseEvent>)
    requires AllCanonical(events)
    ensures LineFeed.Chunk(Step, LineFeed.Feed(Start(store), ""), WireAll(events))
         == LineFeed.Feed(ProcessAll(Start(store), events), "")
  {
    if events != [] {
      WrittenEvents(store, Init(events));
      ProcessAllKeepsNothingPending(store, Init(events));
      LineFeed.ChunkAppend(Step, LineFeed.Feed(Start(store), ""), WireAll(Init(events)), Wire(Last(events)));
      WrittenEvent(ProcessAll(Start(store), Init(events)), Last(events));
    }
  }

  /** On written events, cut anywhere, the stream does what it does on the events. */
  lemma RunOnWritten(store: Store, events: seq<SseEvent>, chunks: seq<string>)
    requires AllCanonical(events) && Flatten(chunks) == WireAll(events)
    ensures Run(store, chunks) == Output(store, events)
  {
    LineFeed.CuttingIsIrrelevant(Step, LineFeed.Feed(Start(store), ""), chunks);
    WrittenEvents(store, events);
  }

  // ----- the output is readable -----

  lemma DeltaFramed(index: Option<int>, partialJson: string)
    ensures Framed(DeltaEvent(index, partialJson))
  {
    PrintNoControl(DeltaJson(index, partialJson));
  }

  lemma EmitFramed(c: Core, e: SseEvent)
    requires AllFramed(c.emitted) && Framed(e)
    ensures AllFramed(Emit(c, e).emitted)
  {
  }

  lemma EmitBlockFramed(c: Core, block: Block)
    requires AllFramed(c.emitted)
    ensures AllFramed(EmitBlock(c, block).emitted)
  {
    if block.bufferedJson != "" {
      DeltaFramed(block.index, CleanText(block.bufferedJson));
      EmitFramed(c.(store := CaptureText(c.store, block.id, block.bufferedJson)),
                 DeltaEvent(block.index, CleanText(block.bufferedJson)));
    }
  }

  lemma HandleFramed(c: Core, e: SseEvent, signal: Signal)
    requires AllFramed(c.emitted) && Framed(e)
    ensures AllFramed(Handle(c, e, signal).emitted)
  {
    EmitFramed(c, e);
    if signal.BlockStop? && FindBlock(c.blocks, signal.index).Some? {
      var c1 := c.(blocks := DeleteBlock(c.blocks, signal.index));
      EmitBlockFramed(c1, FindBlock(c.blocks, signal.index).value);
      EmitFramed(EmitBlock(c1, FindBlock(c.blocks, signal.index).value), e);
    }
  }

  lemma {:induction false} ProcessAllFramed(store: Store, events: seq<SseEvent>)
    requires AllFramed(events)
    ensures AllFramed(ProcessAll(Start(store), events).emitted)
  {
    if events != [] {
      ProcessAllFramed(store, Init(events));
      HandleFramed(ProcessAll(Start(store), Init(events)), Last(events), SignalOf(Last(events)));
    }
  }

  lemma {:induction false} EmitBlocksFramed(c: Core, blocks: seq<Block>)
    requires AllFramed(c.emitted)
    ensures AllFramed(EmitBlocks(c, blocks).emitted)
    decreases |blocks|
  {
    if blocks != [] {
      EmitBlockFramed(c, blocks[0]);
      EmitBlocksFramed(EmitBlock(c, blocks[0]), blocks[1..]);
    }
  }

  /**
   * Text to text: however the written events are cut into chunks, a standard reader of the output builds the
   * message a standard reader of the input builds, with the metadata gone from every tool's arguments.
   */
  lemma TextMeaningPreserved(store: Store, events: seq<SseEvent>, chunks: seq<string>)
    requires AllCanonical(events) && SoundStream(events) && Flatten(chunks) == WireAll(events)
    ensures Assemble(Read(WireAll(Run(store, chunks).emitted))) == CleanMessage(Assemble(Read(Flatten(chunks))))
  {
    var c := ProcessAll(Start(store), events);
    RunOnWritten(store, events, chunks);
    ReadBack(events);
    ProcessAllFramed(store, events);
    EmitBlocksFramed(c, c.blocks);
    ReadBack(Output(store, events).emitted);
    MeaningPreserved(store, events);
  }

  // ----- an event with two data lines -----

  /**
   * An event with two data lines that is about no content block is handed over with both lines as its data, but
   * written as one data field whose second line has lost its name: the reader of the output does not get it.
   */
  lemma TwoDataLinesBreak(store: Store, name: string, first: string, second: string)
    requires Trimmed(name) && OneLine(name) && Trimmed(first) && OneLine(first) && Trimmed(second) && OneLine(second)
    requires SignalOf(SseEvent(name, first + "\n" + second)) == Unrelated
    ensures var e := SseEvent(name, first + "\n" + second);
      && LineFeed.Lines(Step, Start(store), ["event: " + name, "data: " + first, "data: " + second, ""]).emitted == [e]
      && Read(Wire(e)) != [e]
  {
    hide Process, Handle, SignalOf, Read, Wire, Trim, Parse;
    assert first != "" && name != "";
    var e, c := SseEvent(name, first + "\n" + second), Start(store);
    var lines := ["event: " + name, "data: " + first, "data: " + second, ""];
    StepEvent(c, name);
    StepData(c.(eventType := name), first);
    SecondData(c.(eventType := name, data := first), second);
    StepBlank(c, e);
    assert lines[1..] == ["data: " + first, "data: " + second, ""];
    LineFeed.LinesThree(Step, c.(eventType := name), "data: " + first, "data: " + second, "");
    UnrelatedPasses(c, e);
    TwoLines(e, |first|);
    FrameSurvives(e);
  }

  lemma SecondData(c: Core, text: string)
    requires Trimmed(text) && OneLine(text) && c.data != ""
    ensures Step(c, "data: " + text) == c.(data := c.data + "\n" + text)
  {
    ClassifyData(text);
  }

  lemma UnrelatedPasses(c: Core, e: SseEvent)
    requires SignalOf(e) == Unrelated
    ensures Process(c, e).emitted == c.emitted + [e]
  {
  }

  lemma TwoLines(e: SseEvent, k: nat)
    requires Trimmed(e.eventType) && OneLine(e.eventType)
    requires k < |e.data| && e.data[k] == '\n' && OneLine(e.data[..k]) && OneLine(e.data[k + 1..])
    ensures e.eventType != "" && NoBreak(e.eventType) && NoReturn(e.data) && !NoNewline(e.data)
  {
    assert forall i :: 0 <= i < k ==> e.data[i] == e.data[..k][i];
    assert forall i :: k < i < |e.data| ==> e.data[i] == e.data[k + 1..][i - k - 1];
  }

  // ----- a stream cut inside its last event -----

  /** The last event is handed over when its data line is unterminated, and lost when only the blank line is missing. */
  lemma CutInLastEvent(store: Store, events: seq<SseEvent>, e: SseEvent)
    requires AllCanonical(events) && Canonical(e)
    ensures var cut := WireAll(events) + CutWire(e);
      && Run(store, [cut]) == Output(store, events + [e]).(eventType := e.eventType, data := e.data)
      && Run(store, [cut, "\n"]) == Output(store, events).(eventType := e.eventType, data := e.data)
  {
    var head := WireAll(events);
    var feed := LineFeed.Feed(Start(store), "");
    var c := ProcessAll(Start(store), events);
    WrittenEvents(store, events);
    ProcessAllKeepsNothingPending(store, events);
    LineFeed.ChunkAppend(Step, feed, head, CutWire(e));
    CutLines(c, e);
    CutRuns(store, head + CutWire(e));
    assert Init(events + [e]) == events;
    EmitBlocksPending(Process(c, e), Process(c, e).blocks, e.eventType, e.data);
    EmitBlocksPending(c, c.blocks, e.eventType, e.data);
  }

  function CutWire(e: SseEvent): string {
    "event: " + e.eventType + "\n" + ("data: " + e.data)
  }

  lemma CutRuns(store: Store, cut: string)
    ensures var feed := LineFeed.Chunk(Step, LineFeed.Feed(Start(store), ""), cut);
      Run(store, [cut]) == Finish(feed) && Run(store, [cut, "\n"]) == Finish(LineFeed.Chunk(Step, feed, "\n"))
  {
    var feed := LineFeed.Feed(Start(store), "");
    var f1 := LineFeed.Chunk(Step, feed, cut);
    var f2 := LineFeed.Chunk(Step, f1, "\n");
    assert [cut][1..] == [] && [cut, "\n"][1..] == ["\n"] && ["\n"][1..] == [];
    assert LineFeed.Chunks(Step, f1, []) == f1 && LineFeed.Chunks(Step, f2, []) == f2;
    assert LineFeed.Chunks(Step, f1, ["\n"]) == f2;
  }

  lemma CutLines(c: Core, e: SseEvent)
    requires c.eventType == "" && c.data == "" && Canonical(e)
    ensures var pending := c.(eventType := e.eventType, data := e.data);
      var feed := LineFeed.Chunk(Step, LineFeed.Feed(c, ""), CutWire(e));
      && Finish(feed) == EmitBlocks(Process(c, e), Process(c, e).blocks).(eventType := e.eventType, data := e.data)
      && Finish(LineFeed.Chunk(Step, feed, "\n")) == EmitBlocks(pending, pending.blocks)
  {
    var feed := LineFeed.Feed(c.(eventType := e.eventType), "data: " + e.data);
    CutFeed(c, e);
    DataNotBlank(e.data);
    FinishPending(c, e, feed);
  }

  lemma CutFeed(c: Core, e: SseEvent)
    requires c.eventType == "" && c.data == "" && Canonical(e)
    ensures var feed := LineFeed.Feed(c.(eventType := e.eventType), "data: " + e.data);
      && LineFeed.Chunk(Step, LineFeed.Feed(c, ""), CutWire(e)) == feed
      && LineFeed.Chunk(Step, feed, "\n") == LineFeed.Feed(c.(eventType := e.eventType, data := e.data), "")
  {
    CutFirst(c, e);
    CutSecond(c.(eventType := e.eventType), e.data);
  }

  lemma CutFirst(c: Core, e: SseEvent)
    requires Canonical(e)
    ensures LineFeed.Chunk(Step, LineFeed.Feed(c, ""), CutWire(e))
         == LineFeed.Feed(c.(eventType := e.eventType), "data: " + e.data)
  {
    LineFeed.OneLineAndMore(Step, c, "event: " + e.eventType, "data: " + e.data);
    StepEvent(c, e.eventType);
  }

  lemma CutSecond(c: Core, data: string)
    requires c.data == "" && Trimmed(data) && OneLine(data)
    ensures LineFeed.Chunk(Step, LineFeed.Feed(c, "data: " + data), "\n") == LineFeed.Feed(c.(data := data), "")
  {
    hide Step;
    LineFeed.EndOfLine(Step, c, "data: " + data);
    StepData(c, data);
  }

  lemma FinishPending(c: Core, e: SseEvent, feed: LineFeed.Feed<Core>)
    requires c.eventType == "" && c.data == "" && Canonical(e)
    requires feed == LineFeed.Feed(c.(eventType := e.eventType), "data: " + e.data) && Trim(feed.lineBuffer) != ""
    ensures Finish(feed) == EmitBlocks(Process(c, e), Process(c, e).blocks).(eventType := e.eventType, data := e.data)
  {
    var pending := c.(eventType := e.eventType, data := e.data);
    StepData(feed.core, e.data);
    SplitOneLine(feed.lineBuffer);
    LineFeed.LinesOne(Step, feed.core, feed.lineBuffer);
    ProcessIgnores(c, e, e.eventType, e.data);
    assert Dispatch(pending) == Process(pending, e);
    EmitBlocksPending(Process(c, e), Process(c, e).blocks, e.eventType, e.data);
  }

  lemma DataNotBlank(text: string)
    requires Trimmed(text)
    ensures Trim("data: " + text) != "" && Trim("") == ""
  {
    MatchOwnField("data:", text);
    assert "data:" + " " + text == "data: " + text;
  }

  lemma {:induction false} EmitBlocksPending(c: Core, blocks: seq<Block>, eventType: string, data: string)
    ensures EmitBlocks(c.(eventType := eventType, data := data), blocks)
         == EmitBlocks(c, blocks).(eventType := eventType, data := data)
    decreases |blocks|
  {
    if blocks != [] {
      EmitBlocksPending(EmitBlock(c, blocks[0]), blocks[1..], eventType, data);
      assert EmitBlock(c.(eventType := eventType, data := data), blocks[0])
          == EmitBlock(c, blocks[0]).(eventType := eventType, data := data);
    }
  }
}
