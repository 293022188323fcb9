/** What the Responses stream remembers of the calls it sees, and one call through it from text to text. */
module ResponsesStore {
  import opened Options
  import opened Text
  import opened Json
  import opened ToolMetadata
  import opened DataEvents
  import opened ResponsesStream
  import opened ResponsesText
  import S = SseEvents
  import LineFeed

  // ----- the calls a stream announces -----

  /** A call's id and arguments, where an object carries both as strings that are not empty. */
  function CallIn(j: Json): Option<(string, string)> {
    match (FieldOf(j, "call_id"), FieldOf(j, "arguments"))
    case (Some(Str(id)), Some(Str(arguments))) => if id == "" || arguments == "" then None else Some((id, arguments))
    case _ => None
  }

  /** The call an event announces: in the event itself, or in its item if that is a function call. */
  function CallAnnounced(data: string): Option<(string, string)> {
    match Parse(data)
    case None => None
    case Some(j) =>
      match FieldOf(j, "type")
      case Some(Str("response.function_call_arguments.done")) => CallIn(j)
      case Some(Str("response.output_item.done")) =>
        (match FieldOf(j, "item")
         case Some(item) => if FieldOf(item, "type") == Some(Str("function_call")) then CallIn(item) else None
         case None => None)
      case _ => None
  }

  function AnnouncedBy(items: seq<Out>): seq<(string, string)> {
    if items == [] then [] else AnnouncedBy(Init(items)) + AnnouncedOne(Last(items))
  }

  /** The metadata in an arguments text that stands for an object. */
  function MetaOfText(arguments: string): Meta {
    match Parse(arguments)
    case Some(Obj(fields)) => MetaIn(AsMap(fields))
    case _ => Meta(None, None)
  }

  /** The metadata of the last of these calls under an id that has any, or else what was stored before. */
  function Remembered(store: Store, calls: seq<(string, string)>, id: string): Option<Meta> {
    if calls == [] then MetaAt(store, id)
    else
      var (callId, arguments) := Last(calls);
      if callId == id && WorthKeeping(MetaOfText(arguments)) then Some(MetaOfText(arguments))
      else Remembered(store, Init(calls), id)
  }

  ghost predicate Remembers(c: Core, store: Store, calls: seq<(string, string)>) {
    forall id: string :: MetaAt(c.store, id) == Remembered(store, calls, id)
  }

  lemma CaptureTextMeans(store: Store, callId: string, arguments: string)
    ensures CaptureText(store, callId, arguments) ==
      if WorthKeeping(MetaOfText(arguments)) then store[callId := MetaOfText(arguments)] else store
  {
    hide Parse, Capture, AsMap, MetaIn;
    var parsed := Parse(arguments);
    if parsed.Some? && parsed.value.Obj? {
      assert WellFormed(Obj(parsed.value.fields));
      CaptureMeaning(store, callId, parsed.value.fields);
    }
  }

  lemma NothingInEmptyText()
    ensures Parse("") == None
  {
  }

  /** What a data event does to the store. */
  lemma ProcessStores(c: Core, data: string)
    ensures Process(c, data).store ==
      match CallAnnounced(data)
      case Some((callId, arguments)) => CaptureText(c.store, callId, arguments)
      case None => c.store
  {
    DoneIsNoJson();
    NothingInEmptyText();
    hide Parse, CaptureText, Print, Put, CleanCall;
    if Parse(data).Some? {
      ParsedStores(c, data, Parse(data).value);
    }
  }

  lemma DoneIsNoJson()
    ensures Parse("[DONE]") == None
  {
    assert "[DONE]"[0] == '[' && "[DONE]"[1] == 'D';
  }

  lemma CallInMeans(j: Json)
    ensures CallIn(j) == if CarriesCall(j) && TextOf(j, "arguments") != ""
                         then Some((TextOf(j, "call_id"), TextOf(j, "arguments"))) else None
  {
    hide Get;
  }

  lemma TypeIs(j: Json, kind: string)
    requires kind != ""
    ensures TextOf(j, "type") == kind <==> FieldOf(j, "type") == Some(Str(kind))
  {
    hide Get;
  }

  lemma StoreCallMeans(store: Store, j: Json)
    requires CarriesCall(j)
    ensures StoreCall(store, j) == if CallIn(j).Some? then CaptureText(store, CallIn(j).value.0, CallIn(j).value.1) else store
  {
    NothingInEmptyText();
    CallInMeans(j);
    hide Parse, Capture, CarriesCall, CallIn;
  }

  lemma ParsedStores(c: Core, data: string, j: Json)
    requires Parse(data) == Some(j)
    ensures ProcessParsed(c, data, j).store ==
      match CallAnnounced(data)
      case Some((callId, arguments)) => CaptureText(c.store, callId, arguments)
      case None => c.store
  {
    hide Parse, Print, Put, CleanCall, CaptureText, StoreCall, CarriesCall, CallIn, TextOf, Get;
    TypeIs(j, "response.function_call_arguments.done");
    TypeIs(j, "response.output_item.done");
    CallInMeans(j);
    if CarriesCall(j) {
      StoreCallMeans(c.store, j);
    }
    if FieldOf(j, "item").Some? {
      var item := FieldOf(j, "item").value;
      TypeIs(item, "function_call");
      CallInMeans(item);
      if CarriesCall(item) {
        StoreCallMeans(c.store, item);
      }
    }
  }

  lemma StepRemembers(c: Core, store: Store, calls: seq<(string, string)>, line: string)
    requires Remembers(c, store, calls)
    ensures Remembers(Step(c, line), store, calls + AnnouncedBy(LineOut(line)))
  {
    hide Process, CallAnnounced, MetaOfText, WorthKeeping, CaptureText;
    var trimmed := Trim(line);
    assert calls + [] == calls;
    if StartsWith(trimmed, "data: ") {
      var data := trimmed[6..];
      ProcessStores(c, data);
      assert Init([DataLine(data)]) == [] && AnnouncedBy([]) == [];
      if CallAnnounced(data).Some? {
        var call := CallAnnounced(data).value;
        CaptureTextMeans(c.store, call.0, call.1);
        assert AnnouncedBy([DataLine(data)]) == [] + [call];
        assert Init(calls + [call]) == calls && Last(calls + [call]) == call;
        forall id: string ensures MetaAt(Process(c, data).store, id) == Remembered(store, calls + [call], id) {
          assert MetaAt(c.store, id) == Remembered(store, calls, id);
        }
      }
    } else if trimmed != "" {
      assert Init([RawLine(trimmed)]) == [] && AnnouncedBy([]) == [];
    }
  }

  /** The calls one item announces. */
  function AnnouncedOne(item: Out): seq<(string, string)> {
    match item
    case RawLine(_) => []
    case DataLine(data) => if CallAnnounced(data).Some? then [CallAnnounced(data).value] else []
  }

  lemma {:induction false} AnnouncedAppend(a: seq<Out>, b: seq<Out>)
    ensures AnnouncedBy(a + b) == AnnouncedBy(a) + AnnouncedBy(b)
  {
    hide AnnouncedOne;
    if b == [] {
      assert a + b == a;
    } else {
      assert Init(a + b) == a + Init(b) && Last(a + b) == Last(b);
      AnnouncedAppend(a, Init(b));
      var last := AnnouncedOne(Last(b));
      assert AnnouncedBy(a) + AnnouncedBy(Init(b)) + last == AnnouncedBy(a) + (AnnouncedBy(Init(b)) + last);
    }
  }

  lemma {:induction false} LinesRemember(c: Core, store: Store, calls: seq<(string, string)>, lines: seq<string>)
    requires Remembers(c, store, calls)
    ensures Remembers(LineFeed.Lines(Step, c, lines), store, calls + AnnouncedBy(LineOuts(lines)))
    decreases |lines|
  {
    hide Remembers, Step, LineOut, CallAnnounced;
    if lines == [] {
      assert calls + [] == calls;
    } else {
      StepRemembers(c, store, calls, lines[0]);
      LinesRemember(Step(c, lines[0]), store, calls + AnnouncedBy(LineOut(lines[0])), lines[1..]);
      AnnouncedAppend(LineOut(lines[0]), LineOuts(lines[1..]));
      assert calls + AnnouncedBy(LineOut(lines[0])) + AnnouncedBy(LineOuts(lines[1..])) == calls + AnnouncedBy(LineOuts(lines));
    }
  }

  /** All lines of a text, the last one only if it is a data line. */
  function Incoming(text: string): seq<Out> {
    LineOuts(Init(Split(text))) + LastOut(Last(Split(text)))
  }

  /**
   * Over a whole stream, cut anywhere: the store holds, under every id, the metadata of the last call announced under
   * it that has any, and nothing else new.
   */
  lemma StreamStore(store: Store, chunks: seq<string>, id: string)
    ensures MetaAt(Run(store, chunks).store, id) == Remembered(store, AnnouncedBy(Incoming(Flatten(chunks))), id)
  {
    hide Step, LineOuts, LastOut, Split, Flatten, Process, AnnouncedBy, Remembered, Finish;
    var lines := Split(Flatten(chunks));
    var c := LineFeed.Lines(Step, Core(store, []), Init(lines));
    RunIsLines(store, chunks);
    NothingRemembered(store);
    LinesRemember(Core(store, []), store, [], Init(lines));
    var calls := AnnouncedBy(LineOuts(Init(lines)));
    assert [] + calls == calls;
    LastRemembers(c, store, calls, Last(lines));
    AnnouncedAppend(LineOuts(Init(lines)), LastOut(Last(lines)));
  }

  lemma NothingRemembered(store: Store)
    ensures Remembers(Core(store, []), store, [])
  {
  }

  lemma LastRemembers(c: Core, store: Store, calls: seq<(string, string)>, line: string)
    requires Remembers(c, store, calls)
    ensures Remembers(Finish(LineFeed.Feed(c, line)), store, calls + AnnouncedBy(LastOut(line)))
  {
    hide Remembers, Process, CallAnnounced;
    assert calls + [] == calls;
    if StartsWith(Trim(line), "data: ") {
      StepRemembers(c, store, calls, line);
    }
  }

  // ----- one call, announced twice -----

  function ArgumentsDone(callId: string, arguments: string): Json {
    Obj([Field("type", Str("response.function_call_arguments.done")), Field("call_id", Str(callId)),
         Field("arguments", Str(arguments))])
  }

  function CallItem(callId: string, name: string, arguments: string): Json {
    Obj([Field("type", Str("function_call")), Field("call_id", Str(callId)), Field("name", Str(name)),
         Field("arguments", Str(arguments))])
  }

  function ItemDone(callId: string, name: string, arguments: string): Json {
    Obj([Field("type", Str("response.output_item.done")), Field("item", CallItem(callId, name, arguments))])
  }

  /** The two events that announce a call; their own names play no part in it. */
  function Announcements(a: string, b: string, callId: string, name: string, arguments: string): seq<S.SseEvent> {
    [S.SseEvent(a, Print(ArgumentsDone(callId, arguments))), S.SseEvent(b, Print(ItemDone(callId, name, arguments)))]
  }

  predicate NeatName(name: string) {
    Trimmed(name) && S.NoBreak(name)
  }

  lemma ArgumentsDoneReads(callId: string, arguments: string)
    ensures var j := ArgumentsDone(callId, arguments);
      && WellFormed(j) && FieldOf(j, "type") == Some(Str("response.function_call_arguments.done"))
      && FieldOf(j, "call_id") == Some(Str(callId)) && FieldOf(j, "arguments") == Some(Str(arguments))
  {
    hide Get;
    var a, b := Field("type", Str("response.function_call_arguments.done")), Field("call_id", Str(callId));
    var c := Field("arguments", Str(arguments));
    GetThree(a, b, c, "type");
    GetThree(a, b, c, "call_id");
    GetThree(a, b, c, "arguments");
  }

  lemma CallItemReads(callId: string, name: string, arguments: string)
    ensures var j := CallItem(callId, name, arguments);
      && WellFormed(j) && FieldOf(j, "type") == Some(Str("function_call"))
      && FieldOf(j, "call_id") == Some(Str(callId)) && FieldOf(j, "arguments") == Some(Str(arguments))
  {
    hide Get;
    var a, b := Field("type", Str("function_call")), Field("call_id", Str(callId));
    var c, d := Field("name", Str(name)), Field("arguments", Str(arguments));
    GetFour(a, b, c, d, "type");
    GetFour(a, b, c, d, "call_id");
    GetFour(a, b, c, d, "arguments");
  }

  lemma ItemDoneReads(callId: string, name: string, arguments: string)
    ensures var j := ItemDone(callId, name, arguments);
      && WellFormed(j) && FieldOf(j, "type") == Some(Str("response.output_item.done"))
      && FieldOf(j, "item") == Some(CallItem(callId, name, arguments))
  {
    CallItemReads(callId, name, arguments);
    hide Get, CallItem;
    var a, b := Field("type", Str("response.output_item.done")), Field("item", CallItem(callId, name, arguments));
    GetTwo(a, b, "type");
    GetTwo(a, b, "item");
  }

  lemma CleanCallIs(j: Json, callId: string, fields: Fields)
    requires j.Obj? && callId != "" && WellFormed(Obj(fields))
    requires FieldOf(j, "call_id") == Some(Str(callId)) && FieldOf(j, "arguments") == Some(Str(Print(Obj(fields))))
    ensures CarriesCall(j) && CleanCall(j) == Obj(Put(j.fields, "arguments", Str(Print(Obj(Clean(fields))))))
  {
    hide Print, Parse, Get, WellFormed, Clean, Put;
    RoundTrip(Obj(fields));
  }

  /** Cleaning the call of either event changes its arguments where they stand. */
  lemma CleansEvent(callId: string, fields: Fields)
    requires callId != "" && WellFormed(Obj(fields))
    ensures var j := ArgumentsDone(callId, Print(Obj(fields)));
      CarriesCall(j) && CleanCall(j) == ArgumentsDone(callId, Print(Obj(Clean(fields))))
  {
    hide Print, Parse, Get, WellFormed, Clean, CleanCall, CarriesCall, Put;
    var text, clean := Print(Obj(fields)), Print(Obj(Clean(fields)));
    ArgumentsDoneReads(callId, text);
    CleanCallIs(ArgumentsDone(callId, text), callId, fields);
    PutsThird(Field("type", Str("response.function_call_arguments.done")), Field("call_id", Str(callId)), text, clean);
  }

  lemma CleansItem(callId: string, name: string, fields: Fields)
    requires callId != "" && WellFormed(Obj(fields))
    ensures var j := CallItem(callId, name, Print(Obj(fields)));
      CarriesCall(j) && CleanCall(j) == CallItem(callId, name, Print(Obj(Clean(fields))))
  {
    hide Print, Parse, Get, WellFormed, Clean, CleanCall, CarriesCall, Put;
    var text, clean := Print(Obj(fields)), Print(Obj(Clean(fields)));
    CallItemReads(callId, name, text);
    CleanCallIs(CallItem(callId, name, text), callId, fields);
    PutsFourth(Field("type", Str("function_call")), Field("call_id", Str(callId)), Field("name", Str(name)), text, clean);
  }

  lemma PutsSecond(b: Field, text: string, clean: string)
    requires b.key != "arguments"
    ensures Put([b, Field("arguments", Str(text))], "arguments", Str(clean)) == [b, Field("arguments", Str(clean))]
  {
    var last := [Field("arguments", Str(text))];
    assert [b, Field("arguments", Str(text))][1..] == last && last[1..] == [];
    assert Put(last, "arguments", Str(clean)) == [Field("arguments", Str(clean))];
  }

  lemma PutsThird(a: Field, b: Field, text: string, clean: string)
    requires a.key != "arguments" && b.key != "arguments"
    ensures Put([a, b, Field("arguments", Str(text))], "arguments", Str(clean)) == [a, b, Field("arguments", Str(clean))]
  {
    PutsSecond(b, text, clean);
    assert [a, b, Field("arguments", Str(text))][1..] == [b, Field("arguments", Str(text))];
  }

  lemma PutsFourth(a: Field, b: Field, c: Field, text: string, clean: string)
    requires a.key != "arguments" && b.key != "arguments" && c.key != "arguments"
    ensures Put([a, b, c, Field("arguments", Str(text))], "arguments", Str(clean)) == [a, b, c, Field("arguments", Str(clean))]
  {
    PutsThird(b, c, text, clean);
    assert [a, b, c, Field("arguments", Str(text))][1..] == [b, c, Field("arguments", Str(text))];
  }

  lemma PrintedIsNotDone(j: Json)
    requires j.Obj? && WellFormed(j)
    ensures Print(j) != "[DONE]" && Parse(Print(j)) == Some(j)
  {
    RoundTrip(j);
    assert Print(j)[0] == '{';
  }

  lemma SentArgumentsDone(callId: string, fields: Fields)
    requires callId != "" && WellFormed(Obj(fields))
    ensures var text := Print(Obj(fields));
      SentFor(Print(ArgumentsDone(callId, text))) == Print(ArgumentsDone(callId, Print(Obj(Clean(fields)))))
  {
    ItsAnObject(callId, Print(Obj(fields)));
    hide Print, Parse, Get, WellFormed, Clean, CleanCall, CarriesCall, ArgumentsDone;
    var text := Print(Obj(fields));
    ArgumentsDoneReads(callId, text);
    CleansEvent(callId, fields);
    PrintedIsNotDone(ArgumentsDone(callId, text));
  }

  lemma ItsAnObject(callId: string, text: string)
    ensures ArgumentsDone(callId, text).Obj?
  {
  }

  lemma SentForItem(j: Json, item: Json)
    requires j.Obj? && WellFormed(j) && FieldOf(j, "type") == Some(Str("response.output_item.done"))
    requires FieldOf(j, "item") == Some(item) && FieldOf(item, "type") == Some(Str("function_call")) && CarriesCall(item)
    ensures SentFor(Print(j)) == Print(Obj(Put(j.fields, "item", CleanCall(item))))
  {
    hide Print, Parse, Get, WellFormed, CleanCall, CarriesCall, Put;
    PrintedIsNotDone(j);
  }

  lemma SentItemDone(callId: string, name: string, fields: Fields)
    requires callId != "" && WellFormed(Obj(fields))
    ensures var text := Print(Obj(fields));
      SentFor(Print(ItemDone(callId, name, text))) == Print(ItemDone(callId, name, Print(Obj(Clean(fields)))))
  {
    hide Print, Parse, Get, WellFormed, Clean, CleanCall, CarriesCall, CallItem, Put, SentFor;
    var text, clean := Print(Obj(fields)), Print(Obj(Clean(fields)));
    ItemDoneReads(callId, name, text);
    CallItemReads(callId, name, text);
    CleansItem(callId, name, fields);
    SentForItem(ItemDone(callId, name, text), CallItem(callId, name, text));
    PutsItem(CallItem(callId, name, text), CallItem(callId, name, clean));
  }

  lemma PutsItem(item: Json, clean: Json)
    ensures Put([Field("type", Str("response.output_item.done")), Field("item", item)], "item", clean)
         == [Field("type", Str("response.output_item.done")), Field("item", clean)]
  {
    var last := [Field("item", item)];
    assert [Field("type", Str("response.output_item.done")), Field("item", item)][1..] == last && last[1..] == [];
    assert Put(last, "item", clean) == [Field("item", clean)];
  }

  // ----- the same on text -----

  function AllItems(events: seq<S.SseEvent>): seq<Out> {
    if events == [] then [] else AllItems(Init(events)) + ItemsOf(Last(events))
  }

  lemma {:induction false} ItemsWritten(events: seq<S.SseEvent>)
    requires AllNeat(events)
    ensures LineOuts(Init(Split(S.WireAll(events)))) == AllItems(events) && Last(Split(S.WireAll(events))) == ""
  {
    if events == [] {
      assert Split("") == [""] && LineOuts([]) == [];
    } else {
      var before, e := S.WireAll(Init(events)), Last(events);
      ItemsWritten(Init(events));
      NeatIsFramed(e);
      S.WireAllLines(before, e);
      LineOutsAppend(Init(Split(before)), S.WireLinesOf(e));
      EventLines(e);
    }
  }

  lemma PrintedIsTrimmed(fields: Fields)
    ensures Trimmed(Print(Obj(fields))) && S.NoBreak(Print(Obj(fields)))
  {
    hide Print;
    PrintedBraces(fields);
    PrintNoControl(Obj(fields));
  }

  lemma AnnouncementsNeat(a: string, b: string, callId: string, name: string, arguments: string)
    requires NeatName(a) && NeatName(b)
    ensures AllNeat(Announcements(a, b, callId, name, arguments))
  {
    hide Print, CallItem;
    PrintedIsTrimmed(ArgumentsDone(callId, arguments).fields);
    PrintedIsTrimmed(ItemDone(callId, name, arguments).fields);
  }

  lemma AnnouncedDirectly(callId: string, arguments: string)
    requires callId != "" && arguments != ""
    ensures CallAnnounced(Print(ArgumentsDone(callId, arguments))) == Some((callId, arguments))
  {
    hide Print, Parse, Get, WellFormed, ArgumentsDone;
    ArgumentsDoneReads(callId, arguments);
    RoundTrip(ArgumentsDone(callId, arguments));
  }

  lemma AnnouncedInItem(callId: string, name: string, arguments: string)
    requires callId != "" && arguments != ""
    ensures CallAnnounced(Print(ItemDone(callId, name, arguments))) == Some((callId, arguments))
  {
    hide Print, Parse, Get, WellFormed, ItemDone, CallItem;
    ItemDoneReads(callId, name, arguments);
    CallItemReads(callId, name, arguments);
    RoundTrip(ItemDone(callId, name, arguments));
  }

  lemma AnnouncesTwice(a: string, b: string, callId: string, name: string, arguments: string)
    requires callId != "" && arguments != ""
    ensures AnnouncedBy(AllItems(Announcements(a, b, callId, name, arguments))) == [(callId, arguments), (callId, arguments)]
  {
    hide Print, ArgumentsDone, ItemDone, CallAnnounced, ItemsOf, AnnouncedBy;
    var events := Announcements(a, b, callId, name, arguments);
    AnnouncedDirectly(callId, arguments);
    AnnouncedInItem(callId, name, arguments);
    assert Init(events) == [events[0]] && Init([events[0]]) == [];
    assert AllItems([events[0]]) == [] + ItemsOf(events[0]);
    AnnouncedAppend(AllItems([events[0]]), ItemsOf(events[1]));
    AnnouncedItems(events[0]);
    AnnouncedItems(events[1]);
    assert [] + ItemsOf(events[0]) == ItemsOf(events[0]);
  }

  lemma AnnouncedItems(e: S.SseEvent)
    ensures AnnouncedBy(ItemsOf(e)) == if CallAnnounced(e.data).Some? then [CallAnnounced(e.data).value] else []
  {
    hide CallAnnounced;
    var items := ItemsOf(e);
    assert Init(items) == [items[0]] && Init([items[0]]) == [];
    assert AnnouncedBy([]) == [] && AnnouncedBy([items[0]]) == [];
  }

  lemma RememberedTwice(store: Store, callId: string, arguments: string, id: string)
    ensures Remembered(store, [(callId, arguments), (callId, arguments)], id) ==
      if callId == id && WorthKeeping(MetaOfText(arguments)) then Some(MetaOfText(arguments)) else MetaAt(store, id)
  {
    hide MetaOfText, WorthKeeping;
    var once, calls := [(callId, arguments)], [(callId, arguments), (callId, arguments)];
    assert Init(calls) == once && Init(once) == [] && Last(calls) == Last(once) == (callId, arguments);
    assert Remembered(store, [], id) == MetaAt(store, id);
    assert Remembered(store, once, id) ==
      if callId == id && WorthKeeping(MetaOfText(arguments)) then Some(MetaOfText(arguments)) else MetaAt(store, id);
  }

  /**
   * A stream of text that announces one call twice, cut anywhere: a standard reader of the output reads both events
   * with the arguments less `_intent` and `_displayName`, and these two are in the store under the call's id, unless
   * neither is a string that is not empty.
   */
  lemma OneCallThrough(store: Store, a: string, b: string, callId: string, name: string, fields: Fields, chunks: seq<string>)
    returns (sent: Fields)
    requires NeatName(a) && NeatName(b) && callId != "" && WellFormed(Obj(fields))
    requires Flatten(chunks) == S.WireAll(Announcements(a, b, callId, name, Print(Obj(fields))))
    ensures AsMap(sent) == map key | key in AsMap(fields) && key != "_intent" && key != "_displayName" :: AsMap(fields)[key]
    ensures S.Read(WireAll(Run(store, chunks).emitted)) == Announcements(a, b, callId, name, Print(Obj(sent)))
    ensures var m := AsMap(fields);
      var intent := if "_intent" in m && m["_intent"].Str? then Some(m["_intent"].s) else None;
      var displayName := if "_displayName" in m && m["_displayName"].Str? then Some(m["_displayName"].s) else None;
      Run(store, chunks).store ==
        if intent in [None, Some("")] && displayName in [None, Some("")] then store else store[callId := Meta(intent, displayName)]
  {
    hide Print, Parse, AsMap, Clean, WellFormed, MetaIn, WorthKeeping, Run, S.Read, WireAll, S.WireAll, SentFor;
    hide ArgumentsDone, ItemDone;
    sent := Clean(fields);
    var text := Print(Obj(fields));
    PrintFirst(Obj(fields));
    CleanMeaningOf(fields);
    WorthKeepingMeans(AsMap(fields));
    AnnouncementsNeat(a, b, callId, name, text);
    TextReadsBack(store, Announcements(a, b, callId, name, text), chunks);
    SentArgumentsDone(callId, fields);
    SentItemDone(callId, name, fields);
    assert Cleaned(Announcements(a, b, callId, name, text)) == Announcements(a, b, callId, name, Print(Obj(sent)));
    MetaOfPrinted(fields);
    forall id: string
      ensures MetaAt(Run(store, chunks).store, id) ==
        if callId == id && WorthKeeping(MetaIn(AsMap(fields))) then Some(MetaIn(AsMap(fields))) else MetaAt(store, id)
    {
      StoreOf(store, a, b, callId, name, text, chunks, id);
    }
    SameStore(Run(store, chunks).store, store, callId, MetaIn(AsMap(fields)));
  }

  lemma MetaOfPrinted(fields: Fields)
    requires WellFormed(Obj(fields))
    ensures MetaOfText(Print(Obj(fields))) == MetaIn(AsMap(fields))
  {
    hide Print, Parse, AsMap, MetaIn, WellFormed;
    RoundTrip(Obj(fields));
  }

  lemma CleanMeaningOf(fields: Fields)
    requires WellFormed(Obj(fields))
    ensures AsMap(Clean(fields)) == Bare(AsMap(fields))
  {
    CleanMeaning(fields);
  }

  lemma StoreOf(store: Store, a: string, b: string, callId: string, name: string, text: string, chunks: seq<string>, id: string)
    requires NeatName(a) && NeatName(b) && callId != "" && text != "" && Flatten(chunks) == S.WireAll(Announcements(a, b, callId, name, text))
    ensures MetaAt(Run(store, chunks).store, id) ==
      if callId == id && WorthKeeping(MetaOfText(text)) then Some(MetaOfText(text)) else MetaAt(store, id)
  {
    hide MetaOfText, WorthKeeping, Run, Announcements, LineOuts, Split, S.WireAll, AllItems, AnnouncedBy, Remembered;
    AnnouncementsNeat(a, b, callId, name, text);
    ItemsWritten(Announcements(a, b, callId, name, text));
    assert LastOut("") == [] && AllItems(Announcements(a, b, callId, name, text)) + [] == AllItems(Announcements(a, b, callId, name, text));
    AnnouncesTwice(a, b, callId, name, text);
    StreamStore(store, chunks, id);
    RememberedTwice(store, callId, text, id);
  }

  lemma SameStore(after: Store, store: Store, callId: string, meta: Meta)
    requires forall id: string :: MetaAt(after, id) == if callId == id && WorthKeeping(meta) then Some(meta) else MetaAt(store, id)
    ensures after == if WorthKeeping(meta) then store[callId := meta] else store
  {
    hide WorthKeeping;
    var expected := if WorthKeeping(meta) then store[callId := meta] else store;
    forall id: string ensures (id in after <==> id in expected) && (id in after ==> after[id] == expected[id]) {
      assert MetaAt(after, id) == MetaAt(expected, id);
    }
  }
}
