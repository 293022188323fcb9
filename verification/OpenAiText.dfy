/** The OpenAI stream on text: written data events in, readable data events out. */
module OpenAiText {
  import opened Options
  import opened Text
  import opened Json
  import opened ToolMetadata
  import opened DataEvents
  import opened OpenAiStream
  import opened OpenAiConservation
  import S = SseEvents
  import LineFeed

  /** Any two ways of cutting the same text give the same output and the same stored metadata. */
  lemma CuttingIsIrrelevant(store: Store, chunks: seq<string>, others: seq<string>)
    requires Flatten(chunks) == Flatten(others)
    ensures Run(store, chunks) == Run(store, others)
  {
    var feed := LineFeed.Feed(Start(store), "");
    LineFeed.CuttingIsIrrelevant(Step, feed, chunks);
    LineFeed.CuttingIsIrrelevant(Step, feed, others);
  }

  /** Data that fits on one line and that trimming leaves alone. */
  predicate Plain(data: string) {
    Trimmed(data) && S.NoBreak(data)
  }

  /** A data event of the incoming text, with or without the optional space after its colon. */
  datatype DataText = DataText(data: string, spaced: bool)

  predicate AllPlain(lines: seq<DataText>) {
    forall i :: 0 <= i < |lines| ==> Plain(lines[i].data)
  }

  function LineOf(d: DataText): string {
    (if d.spaced then "data: " else "data:") + d.data
  }

  /** A stream of data events as text. */
  function Written(lines: seq<DataText>): string {
    if lines == [] then "" else Written(Init(lines)) + (LineOf(Last(lines)) + "\n" + "\n")
  }

  function StepData(c: Core, d: DataText): Core {
    if d.spaced then Process(c, d.data) else Emit(c, RawLine(LineOf(d)))
  }

  function StepEach(c: Core, lines: seq<DataText>): Core {
    if lines == [] then c else StepData(StepEach(c, Init(lines)), Last(lines))
  }

  function Output(store: Store, lines: seq<DataText>): Core {
    var c := StepEach(Start(store), lines);
    if c.calls != [] then Flush(c) else c
  }

  lemma PlainLine(d: DataText)
    requires Plain(d.data)
    ensures LineOf(d) != "" && S.NoBreak(LineOf(d)) && Trim(LineOf(d)) == LineOf(d)
    ensures StartsWith(LineOf(d), "data: ") <==> d.spaced
    ensures S.SplitField(LineOf(d)) == ("data", d.data)
  {
    var line := LineOf(d);
    assert line[0] == 'd' && line[|line| - 1] == d.data[|d.data| - 1];
    TrimTrimmed(line);
    if d.spaced {
      S.FieldLines(d.data);
    } else {
      assert line[5] == d.data[0];
      assert (":" + d.data)[1..] == d.data;
      S.Letters("data", ":" + d.data, d.data);
      assert "data" + (":" + d.data) == line;
    }
  }

  lemma StepLine(c: Core, d: DataText)
    requires Plain(d.data)
    ensures Step(c, LineOf(d)) == StepData(c, d)
    ensures Step(c, "") == c
  {
    PlainLine(d);
    assert d.spaced ==> LineOf(d)[6..] == d.data;
  }

  lemma WrittenOne(c: Core, d: DataText)
    requires Plain(d.data)
    ensures LineFeed.Chunk(Step, LineFeed.Feed(c, ""), LineOf(d) + "\n" + "\n") == LineFeed.Feed(StepData(c, d), "")
  {
    var line := LineOf(d);
    PlainLine(d);
    StepLine(c, d);
    StepLine(StepData(c, d), d);
    LineFeed.OneLineAndMore(Step, c, line, "");
    LineFeed.OneLineAndMore(Step, StepData(c, d), "", "");
    assert line + "\n" + "" == line + "\n" && "" + "\n" + "" == "\n";
    LineFeed.ChunkAppend(Step, LineFeed.Feed(c, ""), line + "\n", "\n");
  }

  lemma {:induction false} WrittenAll(store: Store, lines: seq<DataText>)
    requires AllPlain(lines)
    ensures LineFeed.Chunk(Step, LineFeed.Feed(Start(store), ""), Written(lines))
         == LineFeed.Feed(StepEach(Start(store), lines), "")
  {
    if lines != [] {
      var more := LineOf(Last(lines)) + "\n" + "\n";
      WrittenAll(store, Init(lines));
      LineFeed.ChunkAppend(Step, LineFeed.Feed(Start(store), ""), Written(Init(lines)), more);
      WrittenOne(StepEach(Start(store), Init(lines)), Last(lines));
    }
  }

  lemma RunOnWritten(store: Store, lines: seq<DataText>, chunks: seq<string>)
    requires AllPlain(lines) && Flatten(chunks) == Written(lines)
    ensures Run(store, chunks) == Output(store, lines)
  {
    LineFeed.CuttingIsIrrelevant(Step, LineFeed.Feed(Start(store), ""), chunks);
    WrittenAll(store, lines);
    assert Trim("") == "";
  }

  // ----- what the input means to a standard reader -----

  function Messages(lines: seq<DataText>): (events: seq<S.SseEvent>)
    ensures |events| == |lines| && forall i :: 0 <= i < |events| ==> events[i] == S.SseEvent("message", lines[i].data)
  {
    seq(|lines|, i requires 0 <= i < |lines| => S.SseEvent("message", lines[i].data))
  }

  lemma ReadOne(r: S.Reader, d: DataText)
    requires Plain(d.data) && r.eventType == "" && r.data == ""
    ensures S.ReadLines(r, [LineOf(d), ""]) == S.Reader("", "", r.events + [S.SseEvent("message", d.data)])
  {
    hide S.SplitField, LineOf, Plain, Trim;
    PlainLine(d);
    var r1 := S.ReadLine(r, LineOf(d));
    assert LineOf(d)[0] != ':' by {
      FirstLetter(d);
    }
    assert "" + d.data + "\n" == d.data + "\n";
    assert r1 == S.Reader("", d.data + "\n", r.events);
    assert Init(d.data + "\n") == d.data;
    assert [LineOf(d), ""][1..] == [""] && [""][1..] == [];
    assert S.ReadLines(S.ReadLine(r1, ""), []) == S.ReadLine(r1, "");
    assert S.ReadLines(r1, [""]) == S.ReadLine(r1, "");
  }

  lemma FirstLetter(d: DataText)
    ensures LineOf(d)[0] == 'd'
  {
  }

  lemma WrittenAppends(before: string, d: DataText)
    requires Plain(d.data) && Last(Split(before)) == ""
    ensures var text := before + (LineOf(d) + "\n" + "\n");
      Init(Split(text)) == Init(Split(before)) + [LineOf(d), ""] && Last(Split(text)) == ""
  {
    var text := LineOf(d) + "\n" + "\n";
    PlainLine(d);
    SplitAppend(before, text);
    assert "" + text == text;
    SplitLine("", "");
    assert "" + "\n" + "" == "\n";
    SplitLine(LineOf(d), "\n");
    assert Split(text) == [LineOf(d), ""] + [""];
    InitAppend(Init(Split(before)), [LineOf(d), ""], "");
  }

  lemma {:induction false} WrittenLines(lines: seq<DataText>)
    requires AllPlain(lines)
    ensures S.ReadLines(S.Reader("", "", []), Init(Split(Written(lines)))) == S.Reader("", "", Messages(lines))
    ensures Last(Split(Written(lines))) == "" && S.NoReturn(Written(lines))
  {
    if lines != [] {
      WrittenLines(Init(lines));
      WrittenStep(Written(Init(lines)), Last(lines), Messages(Init(lines)));
      assert Messages(lines) == Messages(Init(lines)) + [S.SseEvent("message", Last(lines).data)];
    }
  }

  lemma WrittenStep(before: string, d: DataText, events: seq<S.SseEvent>)
    requires S.ReadLines(S.Reader("", "", []), Init(Split(before))) == S.Reader("", "", events)
    requires Plain(d.data) && Last(Split(before)) == "" && S.NoReturn(before)
    ensures var text := before + (LineOf(d) + "\n" + "\n");
      && S.ReadLines(S.Reader("", "", []), Init(Split(text))) == S.Reader("", "", events + [S.SseEvent("message", d.data)])
      && Last(Split(text)) == "" && S.NoReturn(text)
  {
    hide *;
    WrittenAppends(before, d);
    NoReturnLine(d);
    S.NoReturnAppend(before, LineOf(d) + "\n" + "\n");
    S.ReadLinesAppend(S.Reader("", "", []), Init(Split(before)), [LineOf(d), ""]);
    ReadOne(S.Reader("", "", events), d);
  }

  lemma NoReturnLine(d: DataText)
    requires Plain(d.data)
    ensures S.NoReturn(LineOf(d) + "\n" + "\n")
  {
  }

  // ----- what the output means to a standard reader -----

  /** The lines passed on as they are. */
  function RawLines(outs: seq<Out>): seq<string> {
    if outs == [] then [] else RawLines(Init(outs)) + if Last(outs).RawLine? then [Last(outs).text] else []
  }

  lemma RawSnoc(outs: seq<Out>, out: Out)
    ensures RawLines(outs + [out]) == RawLines(outs) + if out.RawLine? then [out.text] else []
  {
    assert Init(outs + [out]) == outs;
  }

  lemma EmitOneLine(c: Core, data: string)
    requires AllUnbroken(c.emitted) && S.NoBreak(data)
    ensures var outs := Emit(c, DataLine(data)).emitted; AllUnbroken(outs) && RawLines(outs) == RawLines(c.emitted)
  {
    RawSnoc(c.emitted, DataLine(data));
  }

  lemma {:induction false} FlushOneLine(c: Core, calls: seq<Call>)
    requires AllUnbroken(c.emitted)
    ensures var outs := FlushCalls(c, calls).emitted; AllUnbroken(outs) && RawLines(outs) == RawLines(c.emitted)
    decreases |calls|
  {
    if calls != [] {
      PrintNoControl(Consolidated(calls[0]));
      EmitOneLine(c, Print(Consolidated(calls[0])));
      FlushOneLine(FlushCall(c, calls[0]), calls[1..]);
    }
  }

  lemma ProcessOneLine(c: Core, data: string, payload: Payload)
    requires AllUnbroken(c.emitted) && S.NoBreak(data) && payload == PayloadOf(data)
    ensures var outs := Process(c, data).emitted; AllUnbroken(outs) && RawLines(outs) == RawLines(c.emitted)
  {
    hide PayloadOf, AllUnbroken, RawLines, FlushCalls, CarriesTools, Deltas;
    FlushOneLine(c, SortCalls(c.calls));
    EmitOneLine(c, data);
    EmitOneLine(Flush(c), data);
    if payload.Choices? {
      ApplyAllEmits(c, Deltas(payload.choices));
    }
  }

  /** The lines without the space, in order. */
  function Unspaced(lines: seq<DataText>): seq<string> {
    if lines == [] then [] else Unspaced(Init(lines)) + if Last(lines).spaced then [] else [LineOf(Last(lines))]
  }

  lemma {:induction false} UnspacedNone(lines: seq<DataText>)
    ensures Unspaced(lines) == [] <==> forall i :: 0 <= i < |lines| ==> lines[i].spaced
  {
    if lines != [] {
      UnspacedNone(Init(lines));
      assert forall i :: 0 <= i < |lines| - 1 ==> lines[i] == Init(lines)[i];
    }
  }

  lemma {:induction false} OutputOneLine(store: Store, lines: seq<DataText>)
    requires AllPlain(lines)
    ensures var outs := StepEach(Start(store), lines).emitted; AllUnbroken(outs) && RawLines(outs) == Unspaced(lines)
  {
    if lines != [] {
      OutputOneLine(store, Init(lines));
      StepOneLine(StepEach(Start(store), Init(lines)), Last(lines));
    }
  }

  lemma StepOneLine(c: Core, d: DataText)
    requires AllUnbroken(c.emitted) && Plain(d.data)
    ensures var outs := StepData(c, d).emitted;
      AllUnbroken(outs) && RawLines(outs) == RawLines(c.emitted) + if d.spaced then [] else [LineOf(d)]
  {
    hide RawLines, Process, PayloadOf, Trim, LineOf, S.SplitField;
    PlainLine(d);
    if d.spaced {
      ProcessOneLine(c, d.data, PayloadOf(d.data));
    } else {
      RawSnoc(c.emitted, RawLine(LineOf(d)));
    }
  }

  /** What an item stands for: one event with its data. */
  function EventOf(out: Out): S.SseEvent {
    S.SseEvent("message", match out case DataLine(data) => data case RawLine(text) => S.SplitField(text).1)
  }

  function EventsOf(outs: seq<Out>): (events: seq<S.SseEvent>)
    ensures |events| == |outs| && forall i :: 0 <= i < |events| ==> events[i] == EventOf(outs[i])
  {
    seq(|outs|, i requires 0 <= i < |outs| => EventOf(outs[i]))
  }

  /** A line passed on never makes an event of its own. */
  lemma {:induction false} EventsRead(outs: seq<Out>)
    requires AllUnbroken(outs)
    ensures |ReadOuts(outs).events| == |outs| - |RawLines(outs)|
    ensures RawLines(outs) == [] ==> ReadOuts(outs) == S.Reader("", "", EventsOf(outs))
  {
    hide ReadOut, EventOf, Unbroken;
    if outs != [] {
      EventsRead(Init(outs));
      ReadOneEvent(ReadOuts(Init(outs)), Last(outs));
      assert EventsOf(outs) == EventsOf(Init(outs)) + [EventOf(Last(outs))];
    }
  }

  lemma ReadOneEvent(r: S.Reader, out: Out)
    requires Unbroken(out)
    ensures |ReadOut(r, out).events| == |r.events| + if out.RawLine? then 0 else 1
    ensures out.DataLine? && r.eventType == "" && r.data == "" ==> ReadOut(r, out) == S.Reader("", "", r.events + [EventOf(out)])
  {
    hide S.SplitField;
    assert out.DataLine? ==> "" + out.data == out.data;
  }

  /**
   * A standard reader does not need the space after `data:`, the stream does. However written data events are cut
   * into chunks, a standard reader of the output reads the items sent one by one, each as an event of its own,
   * exactly when every data line has the space.
   */
  lemma TextReadsBack(store: Store, lines: seq<DataText>, chunks: seq<string>)
    requires AllPlain(lines) && Flatten(chunks) == Written(lines)
    ensures S.Read(Written(lines)) == Messages(lines)
    ensures var outs := Run(store, chunks).emitted;
      && S.Read(WireAll(outs)) == ReadOuts(outs).events && RawLines(outs) == Unspaced(lines)
      && (S.Read(WireAll(outs)) == EventsOf(outs) <==> forall i :: 0 <= i < |lines| ==> lines[i].spaced)
  {
    hide *;
    InputReads(lines);
    RunOnWritten(store, lines, chunks);
    OutputSound(store, lines);
    var outs := Output(store, lines).emitted;
    OutputReads(outs);
    EventsRead(outs);
    UnspacedNone(lines);
  }

  lemma InputReads(lines: seq<DataText>)
    requires AllPlain(lines)
    ensures S.Read(Written(lines)) == Messages(lines)
  {
    WrittenLines(lines);
    S.ReadNoReturn(Written(lines));
  }

  lemma OutputSound(store: Store, lines: seq<DataText>)
    requires AllPlain(lines)
    ensures var outs := Output(store, lines).emitted; AllUnbroken(outs) && RawLines(outs) == Unspaced(lines)
  {
    hide AllUnbroken, RawLines, Unspaced, AllPlain;
    var c := StepEach(Start(store), lines);
    OutputOneLine(store, lines);
    FlushOneLine(c, SortCalls(c.calls));
  }

  lemma PassedOne(r: S.Reader, d: DataText)
    requires Plain(d.data) && !d.spaced
    ensures ReadOut(r, RawLine(LineOf(d))) == S.Reader(r.eventType, r.data + d.data + "\n", r.events)
  {
    PlainLine(d);
  }

  lemma ReadOutsAppend(outs: seq<Out>, lost: seq<DataText>)
    requires lost != []
    ensures ReadOuts(outs + Passed(lost)) == ReadOut(ReadOuts(outs + Passed(Init(lost))), RawLine(LineOf(Last(lost))))
  {
    hide ReadOut;
    assert Init(outs + Passed(lost)) == outs + Passed(Init(lost));
  }

  /**
   * What becomes of lines without the space: their data runs into the data of the next event sent, line by line, and
   * is lost where none follows.
   */
  lemma {:induction false} UnspacedDataMerges(outs: seq<Out>, lost: seq<DataText>)
    requires forall i :: 0 <= i < |lost| ==> Plain(lost[i].data) && !lost[i].spaced
    ensures var r := ReadOuts(outs);
      ReadOuts(outs + Passed(lost)) == S.Reader(r.eventType, r.data + Joined(lost), r.events)
  {
    hide Plain, ReadOuts, ReadOut, LineOf;
    var r := ReadOuts(outs);
    if lost == [] {
      assert outs + Passed(lost) == outs && r.data + Joined(lost) == r.data;
    } else {
      var before, d := Init(lost), Last(lost);
      UnspacedDataMerges(outs, before);
      ReadOutsAppend(outs, lost);
      PassedOne(S.Reader(r.eventType, r.data + Joined(before), r.events), d);
      assert (r.data + Joined(before)) + d.data + "\n" == r.data + (Joined(before) + d.data + "\n");
    }
  }

  function Passed(lost: seq<DataText>): (outs: seq<Out>)
    ensures |outs| == |lost| && forall i :: 0 <= i < |outs| ==> outs[i] == RawLine(LineOf(lost[i]))
  {
    seq(|lost|, i requires 0 <= i < |lost| => RawLine(LineOf(lost[i])))
  }

  function Joined(lost: seq<DataText>): string {
    if lost == [] then "" else Joined(Init(lost)) + Last(lost).data + "\n"
  }

  lemma TwoSent(store: Store, x: string, y: string)
    requires PayloadOf(y).Opaque?
    ensures Output(store, [DataText(x, false), DataText(y, true)]).emitted
         == Passed([DataText(x, false)]) + [DataLine(y)]
  {
    hide PayloadOf;
    var lines := [DataText(x, false), DataText(y, true)];
    assert Init(lines) == lines[..1] && Init(lines[..1]) == [];
    assert StepEach(Start(store), []) == Start(store);
    assert StepEach(Start(store), lines[..1]) == Emit(Start(store), RawLine(LineOf(lines[0])));
  }

  /** Two events of which only the second has the space, and is passed on, come out as one with the data of both. */
  lemma TwoEventsMerge(store: Store, x: string, y: string, chunks: seq<string>)
    requires Plain(x) && Plain(y) && PayloadOf(y).Opaque?
    requires Flatten(chunks) == Written([DataText(x, false), DataText(y, true)])
    ensures S.Read(Flatten(chunks)) == [S.SseEvent("message", x), S.SseEvent("message", y)]
    ensures S.Read(WireAll(Run(store, chunks).emitted)) == [S.SseEvent("message", x + "\n" + y)]
  {
    hide PayloadOf, WireAll, S.Read, Written, Plain, Run, Output, ReadOuts, ReadOut;
    var lines := [DataText(x, false), DataText(y, true)];
    TextReadsBack(store, lines, chunks);
    RunOnWritten(store, lines, chunks);
    TwoSent(store, x, y);
    TwoRead(x, y);
  }

  lemma TwoRead(x: string, y: string)
    requires Plain(x)
    ensures ReadOuts(Passed([DataText(x, false)]) + [DataLine(y)]).events == [S.SseEvent("message", x + "\n" + y)]
  {
    hide Plain;
    var lost := [DataText(x, false)];
    UnspacedDataMerges([], lost);
    assert Init(lost) == [] && Init(Passed(lost) + [DataLine(y)]) == [] + Passed(lost);
    assert Joined(lost) == "" + x + "\n" && "" + ("" + x + "\n") + y == x + "\n" + y;
  }
}
