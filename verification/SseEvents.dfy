/** Server-sent events as text, and the reference reader of sections 9.2.5 and 9.2.6 of the HTML Living Standard. */
module SseEvents {
  import opened Options
  import opened Text

  datatype SseEvent = SseEvent(eventType: string, data: string)

  /** One event as the interceptor writes it. */
  function Wire(e: SseEvent): string {
    "event: " + e.eventType + "\n" + "data: " + e.data + "\n" + "\n"
  }

  function WireAll(events: seq<SseEvent>): string {
    if events == [] then "" else WireAll(Init(events)) + Wire(Last(events))
  }

  // ----- the reference reader -----

  /** The reader's buffers and the events dispatched so far. */
  datatype Reader = Reader(eventType: string, data: string, events: seq<SseEvent>)

  /** The name and value of one line: the text around its first colon, less one space after it. */
  function SplitField(line: string): (string, string) {
    if line == "" then ("", "")
    else if line[0] == ':' then ("", if StartsWith(line[1..], " ") then line[2..] else line[1..])
    else
      var (name, value) := SplitField(line[1..]);
      ([line[0]] + name, value)
  }

  function ReadLine(r: Reader, line: string): Reader {
    if line == "" then
      if r.data == "" then r.(eventType := "")
      else
        var name := if r.eventType == "" then "message" else r.eventType;
        Reader("", "", r.events + [SseEvent(name, Init(r.data))])
    else if line[0] == ':' then r
    else
      var (name, value) := SplitField(line);
      if name == "event" then r.(eventType := value)
      else if name == "data" then r.(data := r.data + value + "\n")
      else r
  }

  function ReadLines(r: Reader, lines: seq<string>): Reader
    decreases |lines|
  {
    if lines == [] then r else ReadLines(ReadLine(r, lines[0]), lines[1..])
  }

  /** Carriage returns end lines too. */
  function Newlines(text: string): string {
    if text == "" then ""
    else if text[0] != '\r' then [text[0]] + Newlines(text[1..])
    else if |text| > 1 && text[1] == '\n' then Newlines(text[1..])
    else "\n" + Newlines(text[1..])
  }

  /** The events a text carries; what follows the last line end is not a line. */
  function Read(text: string): seq<SseEvent> {
    ReadLines(Reader("", "", []), Init(Split(Newlines(text)))).events
  }

  lemma ReadNoReturn(text: string)
    requires NoReturn(text)
    ensures Read(text) == ReadLines(Reader("", "", []), Init(Split(text))).events
  {
    NewlinesNone(text);
  }

  // ----- what survives a trip through the wire format -----

  predicate NoBreak(s: string) {
    forall i :: 0 <= i < |s| ==> s[i] != '\n' && s[i] != '\r'
  }

  /** The event's name and data fit on one line each. */
  predicate Framed(e: SseEvent) {
    e.eventType != "" && NoBreak(e.eventType) && NoBreak(e.data)
  }

  predicate AllFramed(events: seq<SseEvent>) {
    forall i :: 0 <= i < |events| ==> Framed(events[i])
  }

  lemma {:induction false} NewlinesNone(text: string)
    requires forall i :: 0 <= i < |text| ==> text[i] != '\r'
    ensures Newlines(text) == text
  {
    if text != "" {
      NewlinesNone(text[1..]);
      assert [text[0]] + text[1..] == text;
    }
  }

  lemma {:induction false} ReadLinesAppend(r: Reader, a: seq<string>, b: seq<string>)
    ensures ReadLines(r, a + b) == ReadLines(ReadLines(r, a), b)
    decreases |a|
  {
    if a == [] {
      assert a + b == b;
    } else {
      assert (a + b)[1..] == a[1..] + b;
      ReadLinesAppend(ReadLine(r, a[0]), a[1..], b);
    }
  }

  lemma FieldLines(value: string)
    ensures SplitField("event: " + value) == ("event", value)
    ensures SplitField("data: " + value) == ("data", value)
  {
    Colon(": " + value, value);
    Letters("event", ": " + value, value);
    Letters("data", ": " + value, value);
    assert "event" + (": " + value) == "event: " + value;
    assert "data" + (": " + value) == "data: " + value;
  }

  lemma Colon(line: string, value: string)
    requires line == ": " + value
    ensures SplitField(line) == ("", value)
  {
    assert line[1..] == " " + value;
    assert line[2..] == value;
  }

  lemma {:induction false} Letters(name: string, tail: string, value: string)
    requires forall i :: 0 <= i < |name| ==> name[i] != ':'
    requires SplitField(tail) == ("", value)
    ensures SplitField(name + tail) == (name, value)
  {
    if name == "" {
      assert name + tail == tail;
    } else {
      assert (name + tail)[1..] == name[1..] + tail;
      Letters(name[1..], tail, value);
      assert [name[0]] + name[1..] == name;
    }
  }

  /** The lines of one written event whose data may itself hold newlines. */
  lemma WireLines(e: SseEvent, rest: string)
    requires NoBreak(e.eventType) && NoBreak(e.data)
    ensures Split(Wire(e) + rest) == ["event: " + e.eventType, "data: " + e.data, ""] + Split(rest)
  {
    var l1, l2 := "event: " + e.eventType, "data: " + e.data;
    SplitLine("", rest);
    SplitTwoLines(l1, l2, "" + "\n" + rest);
    WireShape(e, rest);
    assert [l1, l2] + ([""] + Split(rest)) == [l1, l2, ""] + Split(rest);
  }

  lemma WireShape(e: SseEvent, rest: string)
    ensures Wire(e) + rest == ("event: " + e.eventType) + "\n" + (("data: " + e.data) + "\n" + ("" + "\n" + rest))
  {
  }

  lemma ReadOne(r: Reader, e: SseEvent)
    requires Framed(e) && r.eventType == "" && r.data == ""
    ensures ReadLines(r, ["event: " + e.eventType, "data: " + e.data, ""]) == Reader("", "", r.events + [e])
  {
    var l1, l2 := "event: " + e.eventType, "data: " + e.data;
    FieldLines(e.eventType);
    FieldLines(e.data);
    var r1 := ReadLine(r, l1);
    var r2 := ReadLine(r1, l2);
    assert r1 == Reader(e.eventType, "", r.events);
    assert r2 == Reader(e.eventType, e.data + "\n", r.events) by {
      assert "" + e.data + "\n" == e.data + "\n";
    }
    assert Init(e.data + "\n") == e.data;
    var r3 := ReadLine(r2, "");
    var lines := [l1, l2, ""];
    assert lines[1..] == [l2, ""] && lines[1..][1..] == [""] && [""][1..] == [];
    assert ReadLines(r3, []) == r3;
    assert ReadLines(r2, [""]) == r3;
    assert ReadLines(r1, [l2, ""]) == r3;
  }

  predicate NoReturn(s: string) {
    forall i :: 0 <= i < |s| ==> s[i] != '\r'
  }

  lemma {:induction false} WireAllNoReturn(events: seq<SseEvent>)
    requires AllFramed(events)
    ensures NoReturn(WireAll(events))
  {
    if events != [] {
      WireAllNoReturn(Init(events));
      WireNoReturn(Last(events));
      NoReturnAppend(WireAll(Init(events)), Wire(Last(events)));
    }
  }

  function WireLinesOf(e: SseEvent): seq<string> {
    ["event: " + e.eventType, "data: " + e.data, ""]
  }

  lemma {:induction false} ReadWireAll(events: seq<SseEvent>)
    requires AllFramed(events)
    ensures ReadLines(Reader("", "", []), Init(Split(WireAll(events)))) == Reader("", "", events)
    ensures Last(Split(WireAll(events))) == ""
  {
    if events != [] {
      var before, e := WireAll(Init(events)), Last(events);
      ReadWireAll(Init(events));
      WireAllLines(before, e);
      ReadLinesAppend(Reader("", "", []), Init(Split(before)), WireLinesOf(e));
      ReadOne(Reader("", "", Init(events)), e);
      assert Init(events) + [e] == events;
    }
  }

  /** Appending a framed event appends its three lines. */
  lemma WireAllLines(before: string, e: SseEvent)
    requires NoBreak(e.eventType) && NoBreak(e.data) && Last(Split(before)) == ""
    ensures Init(Split(before + Wire(e))) == Init(Split(before)) + WireLinesOf(e)
    ensures Last(Split(before + Wire(e))) == ""
  {
    SplitAppend(before, Wire(e));
    assert "" + Wire(e) == Wire(e) && Wire(e) + "" == Wire(e);
    WireLines(e, "");
    assert Split("") == [""];
  }

  /** Framed events read back as themselves. */
  lemma ReadBack(events: seq<SseEvent>)
    requires AllFramed(events)
    ensures Read(WireAll(events)) == events
  {
    ReadWireAll(events);
    WireAllNoReturn(events);
    NewlinesNone(WireAll(events));
  }

  // ----- data with a newline in it does not survive -----

  function TotalLength(lines: seq<string>): nat {
    if lines == [] then 0 else |lines[0]| + TotalLength(lines[1..])
  }

  lemma {:induction false} FieldShort(line: string)
    ensures |SplitField(line).0| + |SplitField(line).1| <= |line|
  {
    if line != "" && line[0] != ':' {
      FieldShort(line[1..]);
    }
  }

  /** No event dispatched from the lines has data of `bound` characters or more. */
  lemma {:induction false} ReadLinesShort(r: Reader, lines: seq<string>, bound: nat)
    requires |r.data| + TotalLength(lines) <= bound
    requires forall e :: e in r.events ==> |e.data| < bound
    ensures forall e :: e in ReadLines(r, lines).events ==> |e.data| < bound
    decreases |lines|
  {
    if lines != [] {
      FieldShort(lines[0]);
      ReadLinesShort(ReadLine(r, lines[0]), lines[1..], bound);
    }
  }

  lemma {:induction false} SplitLength(s: string)
    ensures TotalLength(Split(s)) <= |s|
  {
    if s != "" {
      SplitLength(s[1..]);
      var rest := Split(s[1..]);
      assert Split(s)[1..] == if s[0] == '\n' then rest else rest[1..];
    }
  }

  lemma {:induction false} TotalLengthInit(lines: seq<string>)
    requires lines != []
    ensures TotalLength(Init(lines)) <= TotalLength(lines)
  {
    if |lines| > 1 {
      TotalLengthInit(lines[1..]);
      assert Init(lines)[1..] == Init(lines[1..]);
    }
  }

  lemma {:induction false} FirstNewline(s: string) returns (a: string, b: string)
    requires '\n' in s
    ensures s == a + "\n" + b && NoNewline(a)
  {
    if s[0] == '\n' {
      a, b := "", s[1..];
    } else {
      assert s == [s[0]] + s[1..];
      a, b := FirstNewline(s[1..]);
      a := [s[0]] + a;
    }
  }

  lemma BrokenFrame(e: SseEvent)
    requires e.eventType != "" && NoBreak(e.eventType) && '\n' in e.data
    ensures e !in ReadLines(Reader("", "", []), Init(Split(Wire(e)))).events
  {
    var a, b := FirstNewline(e.data);
    var l1, l2 := "event: " + e.eventType, "data: " + a;
    var lines := Init(Split(b + "\n" + "\n"));
    BrokenLines(e, a, b);
    ReadLinesAppend(Reader("", "", []), [l1, l2], lines);
    var r := ReadTwo(e.eventType, a);
    TailLength(b);
    assert |e.data| == |a| + 1 + |b|;
    ReadLinesShort(r, lines, |e.data|);
  }

  lemma BrokenLines(e: SseEvent, a: string, b: string)
    requires NoBreak(e.eventType) && NoNewline(a) && e.data == a + "\n" + b
    ensures Init(Split(Wire(e))) == ["event: " + e.eventType, "data: " + a] + Init(Split(b + "\n" + "\n"))
  {
    var l1, l2 := "event: " + e.eventType, "data: " + a;
    var tail := b + "\n" + "\n";
    BrokenShape(e, a, b);
    SplitTwoLines(l1, l2, tail);
  }

  lemma BrokenShape(e: SseEvent, a: string, b: string)
    requires e.data == a + "\n" + b
    ensures Wire(e) == ("event: " + e.eventType) + "\n" + (("data: " + a) + "\n" + (b + "\n" + "\n"))
  {
  }

  lemma {:induction false} TailLength(b: string)
    ensures |Split(b + "\n" + "\n")| >= 2
    ensures TotalLength(Init(Split(b + "\n" + "\n"))) <= |b|
  {
    var tail := b + "\n" + "\n";
    if b == "" {
      SplitLine("", "\n");
      SplitLine("", "");
      assert tail == "" + "\n" + "\n" && "" + "\n" + "" == "\n";
      assert Init(Split(tail)) == ["", ""];
    } else {
      var tail' := b[1..] + "\n" + "\n";
      var rest := Split(tail');
      TailLength(b[1..]);
      assert tail == [b[0]] + tail';
      SplitCons(b[0], tail');
      var head := if b[0] == '\n' then "" else [b[0]] + rest[0];
      var more := if b[0] == '\n' then rest else rest[1..];
      assert Split(tail) == [head] + more;
      TotalLengthCons(head, Init(more));
      assert Init([head] + more) == [head] + Init(more);
      if b[0] != '\n' {
        TotalLengthCons(rest[0], Init(more));
        assert Init(rest) == [rest[0]] + Init(more);
      }
    }
  }

  lemma TotalLengthCons(head: string, more: seq<string>)
    ensures TotalLength([head] + more) == |head| + TotalLength(more)
  {
    assert ([head] + more)[1..] == more;
  }

  lemma ReadTwo(eventType: string, data: string) returns (r: Reader)
    requires eventType != ""
    ensures r == ReadLines(Reader("", "", []), ["event: " + eventType, "data: " + data])
    ensures r == Reader(eventType, data + "\n", [])
  {
    var start := Reader("", "", []);
    var l1, l2 := "event: " + eventType, "data: " + data;
    FieldLines(eventType);
    FieldLines(data);
    var r1 := ReadLine(start, l1);
    assert r1 == Reader(eventType, "", []);
    r := ReadLine(r1, l2);
    assert "" + data + "\n" == data + "\n";
    assert [l1, l2][1..] == [l2] && [l2][1..] == [];
    assert ReadLines(r, []) == r;
    assert ReadLines(r1, [l2]) == r;
  }

  lemma NoReturnAppend(a: string, b: string)
    requires NoReturn(a) && NoReturn(b)
    ensures NoReturn(a + b)
  {
  }

  lemma WireNoReturn(e: SseEvent)
    requires NoReturn(e.eventType) && NoReturn(e.data)
    ensures NoReturn(Wire(e))
  {
    NoReturnAppend("event: ", e.eventType);
    NoReturnAppend("event: " + e.eventType + "\n" + "data: ", e.data);
    NoReturnAppend("event: " + e.eventType + "\n" + "data: " + e.data, "\n" + "\n");
    assert Wire(e) == "event: " + e.eventType + "\n" + "data: " + e.data + ("\n" + "\n");
  }

  /** A written event reads back as itself exactly when its data holds no newline. */
  lemma FrameSurvives(e: SseEvent)
    requires e.eventType != "" && NoBreak(e.eventType) && NoReturn(e.data)
    ensures Read(Wire(e)) == [e] <==> NoNewline(e.data)
  {
    WireNoReturn(e);
    NewlinesNone(Wire(e));
    if NoNewline(e.data) {
      assert WireAll([e]) == Wire(e) by {
        assert Init([e]) == [];
      }
      ReadBack([e]);
    } else {
      BrokenFrame(e);
      assert e in [e];
    }
  }
}
