/** The Responses stream over whole streams and on text. */
module ResponsesText {
  import opened Options
  import opened Text
  import opened Json
  import opened ToolMetadata
  import opened DataEvents
  import opened ResponsesStream
  import S = SseEvents
  import LineFeed

  /** The event is one of the two that bring a call's complete arguments. */
  predicate Announces(data: string) {
    && data != "[DONE]" && Parse(data).Some?
    && TextOf(Parse(data).value, "type") in ["response.function_call_arguments.done", "response.output_item.done"]
  }

  /** The call the event brings, and the event with another call in its place. */
  function CallOf(data: Json): (r: Option<Json>)
    ensures r.Some? ==> data.Obj? && CarriesCall(r.value)
  {
    if TextOf(data, "type") == "response.output_item.done" then ItemOf(data)
    else if CarriesCall(data) then Some(data)
    else None
  }

  function WithCall(data: Json, call: Json): Json
    requires data.Obj?
  {
    if TextOf(data, "type") == "response.output_item.done" then Obj(Put(data.fields, "item", call)) else call
  }

  function Rewritten(data: Json): Json {
    match CallOf(data)
    case Some(call) => WithCall(data, CleanCall(call))
    case None => data
  }

  /** What goes out for a data event. */
  function SentFor(data: string): string {
    if Announces(data) then Print(Rewritten(Parse(data).value)) else data
  }

  function Rewrite(item: Out): Out {
    match item
    case DataLine(data) => DataLine(SentFor(data))
    case RawLine(_) => item
  }

  function RewriteAll(items: seq<Out>): (outs: seq<Out>)
    ensures |outs| == |items| && forall i :: 0 <= i < |outs| ==> outs[i] == Rewrite(items[i])
  {
    seq(|items|, i requires 0 <= i < |items| => Rewrite(items[i]))
  }

  lemma ProcessSends(c: Core, data: string)
    ensures Process(c, data).emitted == c.emitted + [DataLine(SentFor(data))]
  {
    hide ProcessParsed, Rewritten, Parse, TextOf, Print;
    if data != "[DONE]" && Parse(data).Some? {
      ParsedSends(c, data, Parse(data).value);
    }
  }

  lemma ParsedSends(c: Core, dataStr: string, data: Json)
    requires dataStr != "[DONE]" && Parse(dataStr) == Some(data)
    ensures ProcessParsed(c, dataStr, data).emitted == c.emitted + [DataLine(SentFor(dataStr))]
  {
    hide CarriesCall, CleanCall, StoreCall, Put, Print, Parse, TextOf, ItemOf;
    ItemCarries(data);
  }

  lemma ItemCarries(data: Json)
    ensures ItemOf(data).Some? ==> CarriesCall(ItemOf(data).value) && data.Obj?
  {
  }

  lemma StepSends(c: Core, line: string)
    ensures Step(c, line).emitted == c.emitted + RewriteAll(LineOut(line))
  {
    hide Process, SentFor;
    var trimmed := Trim(line);
    if StartsWith(trimmed, "data: ") {
      ProcessSends(c, trimmed[6..]);
    }
  }

  lemma {:induction false} LinesSend(c: Core, lines: seq<string>)
    ensures LineFeed.Lines(Step, c, lines).emitted == c.emitted + RewriteAll(LineOuts(lines))
    decreases |lines|
  {
    hide Step, LineOut, Rewrite;
    if lines != [] {
      StepSends(c, lines[0]);
      LinesSend(Step(c, lines[0]), lines[1..]);
      RewriteAppend(LineOut(lines[0]), LineOuts(lines[1..]));
    }
  }

  lemma RewriteAppend(a: seq<Out>, b: seq<Out>)
    ensures RewriteAll(a + b) == RewriteAll(a) + RewriteAll(b)
  {
  }

  /**
   * Over a whole stream, cut anywhere: what goes out are the lines that came in, one for one and in order, each as it
   * came but for the data of the events that announce a call.
   */
  lemma EventsPassInOrder(store: Store, chunks: seq<string>)
    ensures var lines := Split(Flatten(chunks));
      Run(store, chunks).emitted == RewriteAll(LineOuts(Init(lines)) + LastOut(Last(lines)))
  {
    hide Step, Finish, LineFeed.Lines, Run, RewriteAll, LineOuts, LastOut, Split, Flatten, Init;
    var lines := Split(Flatten(chunks));
    var before := LineFeed.Lines(Step, Core(store, []), Init(lines));
    RunIsLines(store, chunks);
    LinesSend(Core(store, []), Init(lines));
    LastSends(before, Last(lines));
    RewriteAppend(LineOuts(Init(lines)), LastOut(Last(lines)));
  }

  lemma RunIsLines(store: Store, chunks: seq<string>)
    ensures var lines := Split(Flatten(chunks));
      Run(store, chunks) == Finish(LineFeed.Feed(LineFeed.Lines(Step, Core(store, []), Init(lines)), Last(lines)))
  {
    hide Step, Finish;
    LineFeed.CuttingIsIrrelevant(Step, LineFeed.Feed(Core(store, []), ""), chunks);
    assert "" + Flatten(chunks) == Flatten(chunks);
  }

  lemma LastSends(c: Core, line: string)
    ensures Finish(LineFeed.Feed(c, line)).emitted == c.emitted + RewriteAll(LastOut(line))
  {
    hide Process, SentFor;
    if StartsWith(Trim(line), "data: ") {
      ProcessSends(c, Trim(line)[6..]);
    }
  }

  /** The data that goes out stands for what came in, but for the arguments of the call it announces. */
  lemma SentMeans(data: string)
    ensures !Announces(data) ==> SentFor(data) == data
    ensures Announces(data) ==> Parse(SentFor(data)) == Some(Rewritten(Parse(data).value))
    ensures Announces(data) && CallOf(Parse(data).value).None? ==> Parse(SentFor(data)) == Parse(data)
  {
    hide Parse, Print, WellFormed;
    if Announces(data) {
      RewrittenWellFormed(Parse(data).value);
      RoundTrip(Rewritten(Parse(data).value));
    }
  }

  lemma RewrittenWellFormed(data: Json)
    requires WellFormed(data)
    ensures WellFormed(Rewritten(data))
  {
    hide CarriesCall, CleanCall;
    ItemCarries(data);
    if CallOf(data).Some? {
      var call := CallOf(data).value;
      if TextOf(data, "type") == "response.output_item.done" {
        ItemWellFormed(data, call);
        CleanedWellFormed(call);
        PutWellFormed(data.fields, "item", CleanCall(call));
      } else {
        CleanedWellFormed(call);
      }
    }
  }

  lemma CleanedWellFormed(call: Json)
    requires CarriesCall(call) && WellFormed(call)
    ensures WellFormed(CleanCall(call))
  {
    hide CleanParsed;
    if CleanParsed(TextOf(call, "arguments")).Some? {
      PutWellFormed(call.fields, "arguments", Str(CleanParsed(TextOf(call, "arguments")).value));
    }
  }

  // ----- text to text -----

  /** An event whose name and data fit on one line each and are left alone by trimming. */
  predicate Neat(e: S.SseEvent) {
    Trimmed(e.eventType) && Trimmed(e.data) && S.Framed(e)
  }

  predicate AllNeat(events: seq<S.SseEvent>) {
    forall i :: 0 <= i < |events| ==> Neat(events[i])
  }

  function Cleaned(events: seq<S.SseEvent>): (r: seq<S.SseEvent>)
    ensures |r| == |events|
    ensures forall i :: 0 <= i < |r| ==> r[i] == S.SseEvent(events[i].eventType, SentFor(events[i].data))
  {
    seq(|events|, i requires 0 <= i < |events| => S.SseEvent(events[i].eventType, SentFor(events[i].data)))
  }

  function ItemsOf(e: S.SseEvent): seq<Out> {
    [RawLine("event: " + e.eventType), DataLine(e.data)]
  }

  lemma EventLines(e: S.SseEvent)
    requires Neat(e)
    ensures LineOuts(S.WireLinesOf(e)) == ItemsOf(e)
  {
    EventLine(e);
    hide LineOut, Neat;
    var l1, l2 := "event: " + e.eventType, "data: " + e.data;
    var lines := S.WireLinesOf(e);
    assert lines[1..] == [l2, ""] && [l2, ""][1..] == [""] && [""][1..] == [];
    assert LineOuts([""]) == LineOut("") + LineOuts([]);
    assert LineOuts([l2, ""]) == LineOut(l2) + LineOuts([""]);
  }

  lemma EventLine(e: S.SseEvent)
    requires Neat(e)
    ensures LineOut("event: " + e.eventType) == [RawLine("event: " + e.eventType)]
    ensures LineOut("data: " + e.data) == [DataLine(e.data)] && LineOut("") == []
  {
    hide S.Framed;
    var l1, l2 := "event: " + e.eventType, "data: " + e.data;
    assert l1[|l1| - 1] == e.eventType[|e.eventType| - 1] && l2[|l2| - 1] == e.data[|e.data| - 1];
    TrimTrimmed(l1);
    TrimTrimmed(l2);
    assert l1[0] == 'e' && l2[6..] == e.data;
  }

  lemma {:induction false} LineOutsAppend(a: seq<string>, b: seq<string>)
    ensures LineOuts(a + b) == LineOuts(a) + LineOuts(b)
    decreases |a|
  {
    hide LineOut;
    if a == [] {
      assert a + b == b;
    } else {
      LineOutsAppend(a[1..], b);
      assert (a + b)[1..] == a[1..] + b;
    }
  }

  /** The written events as items, and what a reader makes of their rewritten form. */
  lemma {:induction false} WrittenItems(events: seq<S.SseEvent>)
    requires AllNeat(events)
    ensures var items := LineOuts(Init(Split(S.WireAll(events))));
      AllUnbroken(RewriteAll(items)) && ReadOuts(RewriteAll(items)) == S.Reader("", "", Cleaned(events))
    ensures Last(Split(S.WireAll(events))) == ""
  {
    NoItems(events);
    hide LineOuts, RewriteAll, ReadOuts, AllUnbroken, SentFor, Neat;
    if events != [] {
      WrittenItems(Init(events));
      WrittenItem(S.WireAll(Init(events)), Last(events), Cleaned(Init(events)));
      assert Cleaned(events) == Cleaned(Init(events)) + [S.SseEvent(Last(events).eventType, SentFor(Last(events).data))];
    }
  }

  lemma NoItems(events: seq<S.SseEvent>)
    ensures Split("") == [""] && RewriteAll(LineOuts([])) == [] && AllUnbroken([])
    ensures events == [] ==> Cleaned(events) == [] && ReadOuts([]) == S.Reader("", "", Cleaned(events))
  {
  }

  lemma WrittenItem(before: string, e: S.SseEvent, events: seq<S.SseEvent>)
    requires Neat(e) && Last(Split(before)) == ""
    requires var outs := RewriteAll(LineOuts(Init(Split(before))));
      AllUnbroken(outs) && ReadOuts(outs) == S.Reader("", "", events)
    ensures var text := before + S.Wire(e);
      var outs := RewriteAll(LineOuts(Init(Split(text))));
      && AllUnbroken(outs) && ReadOuts(outs) == S.Reader("", "", events + [S.SseEvent(e.eventType, SentFor(e.data))])
      && Last(Split(text)) == ""
  {
    hide *;
    NeatIsFramed(e);
    S.WireAllLines(before, e);
    var items := LineOuts(Init(Split(before)));
    LineOutsAppend(Init(Split(before)), S.WireLinesOf(e));
    EventLines(e);
    RewriteAppend(items, ItemsOf(e));
    EventRead(RewriteAll(items), e, events);
  }

  lemma NeatIsFramed(e: S.SseEvent)
    requires Neat(e)
    ensures S.NoBreak(e.eventType) && S.NoBreak(e.data)
  {
  }

  lemma SentNoBreak(data: string)
    requires S.NoBreak(data)
    ensures S.NoBreak(SentFor(data))
  {
    if Announces(data) {
      PrintNoControl(Rewritten(Parse(data).value));
    }
  }

  lemma EventRead(outs: seq<Out>, e: S.SseEvent, events: seq<S.SseEvent>)
    requires Neat(e) && AllUnbroken(outs) && ReadOuts(outs) == S.Reader("", "", events)
    ensures var after := outs + RewriteAll(ItemsOf(e));
      AllUnbroken(after) && ReadOuts(after) == S.Reader("", "", events + [S.SseEvent(e.eventType, SentFor(e.data))])
  {
    hide SentFor;
    var raw, data := RawLine("event: " + e.eventType), DataLine(SentFor(e.data));
    SentNoBreak(e.data);
    S.FieldLines(e.eventType);
    var after := outs + RewriteAll(ItemsOf(e));
    assert after == outs + [raw] + [data];
    assert Init(after) == outs + [raw] && Init(outs + [raw]) == outs;
    assert ReadOuts(outs + [raw]) == S.Reader(e.eventType, "", events);
    assert "" + SentFor(e.data) == SentFor(e.data);
  }

  /** However written events are cut into chunks, a standard reader of the output reads the same events, cleaned. */
  lemma TextReadsBack(store: Store, events: seq<S.SseEvent>, chunks: seq<string>)
    requires AllNeat(events) && Flatten(chunks) == S.WireAll(events)
    ensures S.Read(S.WireAll(events)) == events
    ensures S.Read(WireAll(Run(store, chunks).emitted)) == Cleaned(events)
  {
    hide Run, LineOuts, RewriteAll, S.Read, WireAll, S.WireAll;
    S.ReadBack(events);
    EventsPassInOrder(store, chunks);
    WrittenItems(events);
    var items := LineOuts(Init(Split(S.WireAll(events))));
    assert LastOut("") == [] && items + [] == items;
    OutputReads(RewriteAll(items));
  }
}
