/** The OpenAI Responses stream: clean the arguments where they arrive complete, pass everything else on. */
module ResponsesStream {
  import opened Options
  import opened Text
  import opened Json
  import opened ToolMetadata
  import opened DataEvents
  import LineFeed

  datatype Core = Core(store: Store, emitted: seq<Out>)

  predicate IsText(j: Json, key: string) {
    FieldOf(j, key).Some? && FieldOf(j, key).value.Str?
  }

  /** An object that carries a call's complete arguments and the id they are filed under. */
  predicate CarriesCall(j: Json) {
    j.Obj? && TextOf(j, "call_id") != "" && IsText(j, "arguments")
  }

  /** The same object with the metadata gone from its arguments. */
  function CleanCall(j: Json): Json
    requires CarriesCall(j)
  {
    match CleanParsed(TextOf(j, "arguments"))
    case Some(text) => Obj(Put(j.fields, "arguments", Str(text)))
    case None => j
  }

  function StoreCall(store: Store, j: Json): Store
    requires CarriesCall(j)
  {
    CaptureText(store, TextOf(j, "call_id"), TextOf(j, "arguments"))
  }

  /** The finished item of an event, if it is a function call with arguments. */
  function ItemOf(data: Json): Option<Json> {
    match FieldOf(data, "item")
    case Some(item) => if TextOf(item, "type") == "function_call" && CarriesCall(item) then Some(item) else None
    case None => None
  }

  function Emit(c: Core, out: Out): Core {
    c.(emitted := c.emitted + [out])
  }

  /** `processDataLine` */
  function Process(c: Core, dataStr: string): Core {
    if dataStr == "[DONE]" then Emit(c, DataLine(dataStr))
    else
      match Parse(dataStr)
      case None => Emit(c, DataLine(dataStr))
      case Some(data) => ProcessParsed(c, dataStr, data)
  }

  function ProcessParsed(c: Core, dataStr: string, data: Json): Core {
    if TextOf(data, "type") == "response.function_call_arguments.done" then
      if CarriesCall(data) then Emit(c.(store := StoreCall(c.store, data)), DataLine(Print(CleanCall(data))))
      else Emit(c, DataLine(Print(data)))
    else if TextOf(data, "type") == "response.output_item.done" then
      match ItemOf(data)
      case Some(item) =>
        Emit(c.(store := StoreCall(c.store, item)), DataLine(Print(Obj(Put(data.fields, "item", CleanCall(item))))))
      case None => Emit(c, DataLine(Print(data)))
    else Emit(c, DataLine(dataStr))
  }

  function Step(c: Core, line: string): Core {
    var trimmed := Trim(line);
    if trimmed == "" then c
    else if StartsWith(trimmed, "data: ") then Process(c, trimmed[6..])
    else Emit(c, RawLine(trimmed))
  }

  function Finish(feed: LineFeed.Feed<Core>): Core {
    var trimmed := Trim(feed.lineBuffer);
    if StartsWith(trimmed, "data: ") then Process(feed.core, trimmed[6..]) else feed.core
  }

  function Run(store: Store, chunks: seq<string>): Core {
    Finish(LineFeed.Chunks(Step, LineFeed.Feed(Core(store, []), ""), chunks))
  }

  class Stream {
    var lineBuffer: string
    var store: Store
    var output: string
    ghost var emitted: seq<Out>

    constructor (store: Store)
      ensures Valid() && Abstract() == LineFeed.Feed(Core(store, []), "")
    {
      lineBuffer, output := "", "";
      this.store := store;
      emitted := [];
    }

    ghost predicate Valid()
      reads this
    {
      output == WireAll(emitted)
    }

    ghost function State(): Core
      reads this
    {
      Core(store, emitted)
    }

    ghost function Abstract(): LineFeed.Feed<Core>
      reads this
    {
      LineFeed.Feed(State(), lineBuffer)
    }

    method Enqueue(out: Out)
      requires Valid()
      modifies this`output, this`emitted
      ensures Valid() && State() == Emit(old(State()), out)
    {
      output := output + Wire(out);
      emitted := emitted + [out];
      assert Init(emitted) == old(emitted);
    }

    /** Clean one object's arguments; a failure to parse them leaves it as it is. */
    method StripCall(j: Json) returns (cleaned: Json)
      requires CarriesCall(j)
      modifies this`store
      ensures cleaned == CleanCall(j) && store == StoreCall(old(store), j)
    {
      cleaned := j;
      match Parse(TextOf(j, "arguments")) {
        case None =>
        case Some(Null) =>
        case Some(Obj(fields)) =>
          store := Capture(store, TextOf(j, "call_id"), fields);
          cleaned := Obj(Put(j.fields, "arguments", Str(Print(Obj(Clean(fields))))));
        case Some(other) =>
          cleaned := Obj(Put(j.fields, "arguments", Str(Print(other))));
      }
    }

    method ProcessDataLine(dataStr: string)
      requires Valid()
      modifies this`store, this`output, this`emitted
      ensures Valid() && State() == Process(old(State()), dataStr)
    {
      if dataStr == "[DONE]" {
        Enqueue(DataLine(dataStr));
        return;
      }
      var parsed := Parse(dataStr);
      if parsed == None {
        Enqueue(DataLine(dataStr));
        return;
      }
      var data := parsed.value;
      if TextOf(data, "type") == "response.function_call_arguments.done" {
        if CarriesCall(data) {
          data := StripCall(data);
        }
        Enqueue(DataLine(Print(data)));
        return;
      }
      if TextOf(data, "type") == "response.output_item.done" {
        var item := ItemOf(data);
        if item.Some? {
          var cleaned := StripCall(item.value);
          data := Obj(Put(data.fields, "item", cleaned));
        }
        Enqueue(DataLine(Print(data)));
        return;
      }
      Enqueue(DataLine(dataStr));
    }

    method HandleLine(line: string)
      requires Valid()
      modifies this`store, this`output, this`emitted
      ensures Valid() && State() == Step(old(State()), line)
    {
      var trimmed := Trim(line);
      if trimmed == "" {
        return;
      }
      if StartsWith(trimmed, "data: ") {
        ProcessDataLine(trimmed[6..]);
      } else {
        Enqueue(RawLine(trimmed));
      }
    }

    method Transform(chunk: string)
      requires Valid()
      modifies this
      ensures Valid() && Abstract() == LineFeed.Chunk(Step, old(Abstract()), chunk)
    {
      var lines := Split(lineBuffer + chunk);
      lineBuffer := Last(lines);
      lines := Init(lines);
      var i := 0;
      while i < |lines|
        invariant 0 <= i <= |lines| && Valid() && lineBuffer == Last(Split(old(lineBuffer) + chunk))
        invariant LineFeed.Lines(Step, State(), lines[i..]) == LineFeed.Lines(Step, old(State()), lines)
      {
        HandleLine(lines[i]);
        assert lines[i..][1..] == lines[i + 1..];
        i := i + 1;
      }
    }

    method Flush()
      requires Valid()
      modifies this
      ensures Valid() && State() == Finish(old(Abstract())) && lineBuffer == ""
    {
      var trimmed := Trim(lineBuffer);
      if trimmed != "" {
        if StartsWith(trimmed, "data: ") {
          ProcessDataLine(trimmed[6..]);
        }
      }
      lineBuffer := "";
    }
  }

  // ----- what the stream keeps -----

  /** Any two ways of cutting the same text give the same output and the same stored metadata. */
  lemma CuttingIsIrrelevant(store: Store, chunks: seq<string>, others: seq<string>)
    requires Flatten(chunks) == Flatten(others)
    ensures Run(store, chunks) == Run(store, others)
  {
    var feed := LineFeed.Feed(Core(store, []), "");
    LineFeed.CuttingIsIrrelevant(Step, feed, chunks);
    LineFeed.CuttingIsIrrelevant(Step, feed, others);
  }

  /** Cleaning a call changes its arguments and nothing else. */
  lemma CleanCallMap(j: Json, fields: Fields)
    requires CarriesCall(j) && WellFormed(j) && Parse(TextOf(j, "arguments")) == Some(Obj(fields))
    ensures WellFormed(CleanCall(j)) && CleanCall(j).Obj?
    ensures AsMap(CleanCall(j).fields) == AsMap(j.fields)["arguments" := Str(Print(Obj(Clean(fields))))]
    ensures Parse(Print(Obj(Clean(fields)))) == Some(Obj(Clean(fields)))
    ensures AsMap(Clean(fields)) == AsMap(fields) - {INTENT, DISPLAY_NAME}
  {
    CleanTextMeaning(TextOf(j, "arguments"), fields);
    PutMap(j.fields, "arguments", Str(Print(Obj(Clean(fields)))));
    PutWellFormed(j.fields, "arguments", Str(Print(Obj(Clean(fields)))));
  }

  /** An arguments event is sent on as itself, less the metadata in its arguments. */
  lemma ArgumentsDoneKept(c: Core, dataStr: string, data: Json, fields: Fields)
    requires dataStr != "[DONE]" && Parse(dataStr) == Some(data) && CarriesCall(data)
    requires TextOf(data, "type") == "response.function_call_arguments.done"
    requires Parse(TextOf(data, "arguments")) == Some(Obj(fields))
    ensures var c' := Process(c, dataStr);
      && |c'.emitted| == |c.emitted| + 1 && Init(c'.emitted) == c.emitted && Last(c'.emitted).DataLine?
      && Parse(Last(c'.emitted).data) == Some(CleanCall(data))
      && AsMap(CleanCall(data).fields) == AsMap(data.fields)["arguments" := Str(Print(Obj(Clean(fields))))]
  {
    CleanCallMap(data, fields);
    RoundTrip(CleanCall(data));
  }

  /** A finished function call is sent on as itself, less the metadata in its item's arguments. */
  lemma ItemDoneKept(c: Core, dataStr: string, data: Json, item: Json, fields: Fields)
    requires dataStr != "[DONE]" && Parse(dataStr) == Some(data) && data.Obj? && ItemOf(data) == Some(item)
    requires TextOf(data, "type") == "response.output_item.done"
    requires Parse(TextOf(item, "arguments")) == Some(Obj(fields))
    ensures var c' := Process(c, dataStr); var out := Obj(Put(data.fields, "item", CleanCall(item)));
      && |c'.emitted| == |c.emitted| + 1 && Init(c'.emitted) == c.emitted && Last(c'.emitted).DataLine?
      && Parse(Last(c'.emitted).data) == Some(out)
      && AsMap(out.fields) == AsMap(data.fields)["item" := CleanCall(item)]
      && AsMap(CleanCall(item).fields) == AsMap(item.fields)["arguments" := Str(Print(Obj(Clean(fields))))]
  {
    ItemWellFormed(data, item);
    CleanCallMap(item, fields);
    ItemReplaced(data, CleanCall(item));
    assert Process(c, dataStr) == ProcessParsed(c, dataStr, data);
  }

  lemma ItemReplaced(data: Json, item: Json)
    requires data.Obj? && WellFormed(data) && WellFormed(item)
    ensures var out := Obj(Put(data.fields, "item", item));
      Parse(Print(out)) == Some(out) && AsMap(out.fields) == AsMap(data.fields)["item" := item]
  {
    PutMap(data.fields, "item", item);
    PutWellFormed(data.fields, "item", item);
    RoundTrip(Obj(Put(data.fields, "item", item)));
  }

  lemma ItemWellFormed(data: Json, item: Json)
    requires WellFormed(data) && data.Obj? && ItemOf(data) == Some(item)
    ensures WellFormed(item)
  {
    var i :| 0 <= i < |data.fields| && data.fields[i] == Field("item", item);
    assert WellFormed(data.fields[i].value);
  }

  lemma ArgumentsDistinct(fields: Fields, text: string)
    requires Parse(text) == Some(Obj(fields))
    ensures Distinct(fields)
  {
    assert WellFormed(Obj(fields));
  }

  lemma SecondCapture(store: Store, toolId: string, fields: Fields)
    ensures Capture(Capture(store, toolId, fields), toolId, fields) == Capture(store, toolId, fields)
  {
  }

  /**
   * The API announces a call's arguments twice, once on their own and once with the finished item. The second
   * announcement leaves the store as the first did, and re-injection gives the arguments back exactly when their
   * metadata is restorable.
   */
  lemma AnnouncedTwice(store: Store, first: Json, second: Json, fields: Fields)
    requires CarriesCall(first) && CarriesCall(second)
    requires TextOf(first, "call_id") == TextOf(second, "call_id") && TextOf(first, "arguments") == TextOf(second, "arguments")
    requires Parse(TextOf(first, "arguments")) == Some(Obj(fields)) && TextOf(first, "call_id") !in store
    ensures StoreCall(StoreCall(store, first), second) == StoreCall(store, first)
    ensures AsMap(Reinject(StoreCall(store, first), TextOf(first, "call_id"), Clean(fields))) == AsMap(fields) <==> Restorable(fields)
  {
    hide TextOf, CarriesCall, Reinject, Restorable, WellFormed, Distinct;
    ArgumentsDistinct(fields, TextOf(first, "arguments"));
    SecondCapture(store, TextOf(first, "call_id"), fields);
    StripThenReinject(store, TextOf(first, "call_id"), fields);
  }
}
