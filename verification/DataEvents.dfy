/** What the two OpenAI streams enqueue, and what a standard reader makes of it. */
module DataEvents {
  import opened Text
  import S = SseEvents

  /** A data event, or a line passed on as it is. */
  datatype Out = DataLine(data: string) | RawLine(text: string)

  function Wire(out: Out): string {
    match out
    case DataLine(data) => "data: " + data + "\n" + "\n"
    case RawLine(text) => text + "\n"
  }

  function WireAll(outs: seq<Out>): string {
    if outs == [] then "" else WireAll(Init(outs)) + Wire(Last(outs))
  }

  /** A line as it would be enqueued if nothing were done to it. */
  function LineOut(line: string): seq<Out> {
    var trimmed := Trim(line);
    if StartsWith(trimmed, "data: ") then [DataLine(trimmed[6..])]
    else if trimmed == "" then []
    else [RawLine(trimmed)]
  }

  function LineOuts(lines: seq<string>): seq<Out> {
    if lines == [] then [] else LineOut(lines[0]) + LineOuts(lines[1..])
  }

  /** What the unterminated last line adds: it is dropped unless it is a data line. */
  function LastOut(line: string): seq<Out> {
    if StartsWith(Trim(line), "data: ") then LineOut(line) else []
  }

  predicate Unbroken(out: Out) {
    match out
    case DataLine(data) => S.NoBreak(data)
    case RawLine(text) => text != "" && S.NoBreak(text)
  }

  predicate AllUnbroken(outs: seq<Out>) {
    forall i :: 0 <= i < |outs| ==> Unbroken(outs[i])
  }

  /**
   * What one item does to a reader. A data event takes the name and the data of the lines passed on before it, which
   * have no blank line of their own.
   */
  function ReadOut(r: S.Reader, out: Out): S.Reader {
    match out
    case DataLine(data) =>
      S.Reader("", "", r.events + [S.SseEvent(if r.eventType == "" then "message" else r.eventType, r.data + data)])
    case RawLine(text) => S.ReadLine(r, text)
  }

  function ReadOuts(outs: seq<Out>): S.Reader {
    if outs == [] then S.Reader("", "", []) else ReadOut(ReadOuts(Init(outs)), Last(outs))
  }

  function LinesOf(out: Out): seq<string> {
    match out
    case DataLine(data) => ["data: " + data, ""]
    case RawLine(text) => [text]
  }

  lemma ReadOneOut(r: S.Reader, out: Out)
    ensures S.ReadLines(r, LinesOf(out)) == ReadOut(r, out)
  {
    match out
    case DataLine(data) =>
      S.FieldLines(data);
      var r1 := S.ReadLine(r, "data: " + data);
      assert r1 == S.Reader(r.eventType, r.data + data + "\n", r.events);
      assert Init(r.data + data + "\n") == r.data + data;
      assert ["data: " + data, ""][1..] == [""] && [""][1..] == [];
      assert S.ReadLines(S.ReadLine(r1, ""), []) == S.ReadLine(r1, "");
      assert S.ReadLines(r1, [""]) == S.ReadLine(r1, "");
    case RawLine(text) =>
      assert [text][1..] == [];
      assert S.ReadLines(S.ReadLine(r, text), []) == S.ReadLine(r, text);
  }

  lemma WireSplit(out: Out)
    requires Unbroken(out)
    ensures Split(Wire(out)) == LinesOf(out) + [""]
  {
    var line := LinesOf(out)[0];
    SplitLine("", "");
    assert "" + "\n" + "" == "\n";
    SplitLine(line, if out.DataLine? then "\n" else "");
    assert Wire(out) == line + "\n" + (if out.DataLine? then "\n" else "");
  }

  lemma WireAppends(before: string, out: Out)
    requires Unbroken(out) && Last(Split(before)) == ""
    ensures Init(Split(before + Wire(out))) == Init(Split(before)) + LinesOf(out)
    ensures Last(Split(before + Wire(out))) == ""
  {
    SplitAppend(before, Wire(out));
    assert "" + Wire(out) == Wire(out);
    WireSplit(out);
    InitAppend(Init(Split(before)), LinesOf(out), "");
  }

  lemma InitAppend(a: seq<string>, b: seq<string>, last: string)
    ensures Init(a + (b + [last])) == a + b && Last(a + (b + [last])) == last
  {
  }

  lemma {:induction false} WireAllReads(outs: seq<Out>)
    requires AllUnbroken(outs)
    ensures S.ReadLines(S.Reader("", "", []), Init(Split(WireAll(outs)))) == ReadOuts(outs)
    ensures Last(Split(WireAll(outs))) == ""
  {
    if outs != [] {
      var before, out := WireAll(Init(outs)), Last(outs);
      WireAllReads(Init(outs));
      WireAppends(before, out);
      assert WireAll(outs) == before + Wire(out);
      S.ReadLinesAppend(S.Reader("", "", []), Init(Split(before)), LinesOf(out));
      ReadOneOut(ReadOuts(Init(outs)), out);
    }
  }

  lemma {:induction false} WireAllNoReturn(outs: seq<Out>)
    requires AllUnbroken(outs)
    ensures S.NoReturn(WireAll(outs))
  {
    if outs != [] {
      WireAllNoReturn(Init(outs));
      S.NoReturnAppend(WireAll(Init(outs)), Wire(Last(outs)));
    }
  }

  /** A standard reader of the output, item by item. */
  lemma OutputReads(outs: seq<Out>)
    requires AllUnbroken(outs)
    ensures S.Read(WireAll(outs)) == ReadOuts(outs).events
  {
    WireAllReads(outs);
    WireAllNoReturn(outs);
    S.ReadNoReturn(WireAll(outs));
  }
}
