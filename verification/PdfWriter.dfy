/** The hand-written PDF files: objects, the cross-reference table that points at them, and a reader that follows it. */
module PdfWriter {
  import opened Options
  import opened Text
  import opened Json
  import opened PdfLiteral

  const HEADER := "%PDF-1.4\n"
  const TEN_TO_10 := 10_000_000_000

  /** Text that encodes to one byte a character. */
  predicate Latin1(s: string) {
    forall i :: 0 <= i < |s| ==> s[i] as int < 256
  }

  // ---------------------------------------------------------------- the file

  function Pad(digits: string, width: nat): (r: string)
    ensures |r| == if |digits| >= width then |digits| else width
    ensures |digits| >= width ==> r == digits
    decreases width - |digits|
  {
    if |digits| >= width then digits else Pad("0" + digits, width)
  }

  function Body(objects: seq<string>): string {
    HEADER + Flatten(objects)
  }

  /** Where object `i` begins, counting objects from 0. */
  function Offset(objects: seq<string>, i: nat): nat
    requires i <= |objects|
  {
    |Body(objects[..i])|
  }

  function Entry(offset: nat): string {
    Pad(PrintNat(offset), 10) + " 00000 n \n"
  }

  function Entries(offsets: seq<nat>): string {
    if offsets == [] then "" else Entries(Init(offsets)) + Entry(Last(offsets))
  }

  function Offsets(objects: seq<string>): (r: seq<nat>)
    ensures |r| == |objects| && forall i :: 0 <= i < |r| ==> r[i] == Offset(objects, i)
  {
    seq(|objects|, i requires 0 <= i < |objects| => Offset(objects, i))
  }

  function TableHead(n: nat): string {
    "xref\n" + "0 " + PrintNat(n + 1) + "\n"
  }

  const FREE_ENTRY := "0000000000 65535 f \n"

  function Trailer(n: nat, xref: nat): string {
    "trailer\n<< /Size " + PrintNat(n + 1) + " /Root 1 0 R >>\n" + "startxref\n" + PrintNat(xref) + "\n%%EOF\n"
  }

  function Document(objects: seq<string>): string {
    Body(objects) + (TableHead(|objects|) + FREE_ENTRY + Entries(Offsets(objects)))
    + Trailer(|objects|, |Body(objects)|)
  }

  // ---------------------------------------------------------------- a reader

  /** `text` stands at position `p`. */
  predicate At(doc: string, p: nat, text: string) {
    p + |text| <= |doc| && doc[p..p + |text|] == text
  }

  function Number(doc: string, p: nat): (r: Option<(nat, nat)>)
    ensures r.Some? ==> p < r.value.1 <= |doc|
  {
    if p > |doc| || DigitRun(doc[p..]) == 0 then None
    else
      var d := DigitRun(doc[p..]);
      Some((DecimalValue(doc[p..p + d]), p + d))
  }

  /** How many digits end just before `end`. */
  function DigitsBefore(doc: string, end: nat): (n: nat)
    requires end <= |doc|
    ensures n <= end && forall i :: end - n <= i < end ==> IsDigit(doc[i])
  {
    if end > 0 && IsDigit(doc[end - 1]) then 1 + DigitsBefore(doc, end - 1) else 0
  }

  /** The number between `startxref` and the end-of-file mark. */
  function StartXref(doc: string): Option<nat> {
    if |doc| < 7 || !At(doc, |doc| - 7, "\n%%EOF\n") then None
    else
      var end := |doc| - 7;
      var d := DigitsBefore(doc, end);
      if d == 0 || end - d < 10 || !At(doc, end - d - 10, "startxref\n") then None
      else Some(DecimalValue(doc[end - d..end]))
  }

  /** Where the entries of the cross-reference table begin. */
  function TableStart(doc: string): Option<nat> {
    var xref := StartXref(doc);
    if xref.None? || !At(doc, xref.value, "xref\n0 ") then None
    else
      var count := Number(doc, xref.value + 7);
      if count.None? || !At(doc, count.value.1, "\n") then None else Some(count.value.1 + 1)
  }

  /** The offset in the 20 bytes of entry `i`. */
  function ReadEntry(doc: string, i: nat): Option<nat> {
    var table := TableStart(doc);
    if table.None? then None
    else
      var p := table.value + 20 * i;
      if !At(doc, p + 10, " 00000 n \n") || !(forall k :: p <= k < p + 10 ==> IsDigit(doc[k])) then None
      else Some(DecimalValue(doc[p..p + 10]))
  }

  /** The text object `i` begins with, found through the table. */
  predicate ObjectBegins(doc: string, i: nat, text: string) {
    var offset := ReadEntry(doc, i);
    offset.Some? && At(doc, offset.value, PrintNat(i) + " 0 obj\n" + text)
  }

  /** The data of stream object `i`, whose dictionary begins with `head` and ends with its length. */
  function ReadStream(doc: string, i: nat, head: string): Option<string> {
    if !ObjectBegins(doc, i, head) then None
    else
      var length := Number(doc, ReadEntry(doc, i).value + |PrintNat(i) + " 0 obj\n" + head|);
      if length.None? || !At(doc, length.value.1, " >>\nstream\n") then None
      else
        var start := length.value.1 + 11;
        if !At(doc, start + length.value.0, "\nendstream\nendobj\n") then None
        else Some(doc[start..start + length.value.0])
  }

  // ---------------------------------------------------------------- finding text in a concatenation

  lemma AtMiddle(a: string, b: string, c: string)
    ensures At(a + b + c, |a|, b)
  {
  }

  lemma AtParts(doc: string, p: nat, a: string, b: string)
    ensures At(doc, p, a + b) <==> At(doc, p, a) && At(doc, p + |a|, b)
  {
    if At(doc, p, a + b) {
      assert doc[p..p + |a|] == (a + b)[..|a|] == a;
      assert doc[p + |a|..p + |a| + |b|] == (a + b)[|a|..] == b;
    }
    if At(doc, p, a) && At(doc, p + |a|, b) {
      assert doc[p..p + |a + b|] == doc[p..p + |a|] + doc[p + |a|..p + |a| + |b|];
    }
  }

  lemma NumberAt(doc: string, p: nat, n: nat, after: string)
    requires At(doc, p, PrintNat(n) + after)
    requires after != "" && !IsDigit(after[0])
    ensures Number(doc, p) == Some((n, p + |PrintNat(n)|))
  {
    var digits := PrintNat(n);
    AtParts(doc, p, digits, after);
    var rest := doc[p + |digits|..];
    assert rest[0] == doc[p + |digits|..p + |digits| + |after|][0];
    assert doc[p..] == digits + rest;
    DigitRunOf(digits, rest);
    DecimalOfPrint(n);
  }

  lemma {:induction false} DigitsBeforeIs(doc: string, end: nat, d: nat)
    requires d < end <= |doc| && !IsDigit(doc[end - d - 1])
    requires forall i :: end - d <= i < end ==> IsDigit(doc[i])
    ensures DigitsBefore(doc, end) == d
  {
    if d > 0 {
      DigitsBeforeIs(doc, end - 1, d - 1);
    }
  }

  // ---------------------------------------------------------------- padding and widths

  lemma {:induction false} LeadingZero(digits: string)
    requires forall i :: 0 <= i < |digits| ==> IsDigit(digits[i])
    ensures DecimalValue("0" + digits) == DecimalValue(digits)
  {
    if digits == "" {
      assert Init("0") == "" && DecimalValue("") == 0;
    } else {
      assert Init("0" + digits) == "0" + Init(digits);
      assert Last("0" + digits) == Last(digits);
      LeadingZero(Init(digits));
    }
  }

  lemma {:induction false} PadValue(digits: string, width: nat)
    requires forall i :: 0 <= i < |digits| ==> IsDigit(digits[i])
    ensures forall i :: 0 <= i < |Pad(digits, width)| ==> IsDigit(Pad(digits, width)[i])
    ensures DecimalValue(Pad(digits, width)) == DecimalValue(digits)
    decreases width - |digits|
  {
    if |digits| < width {
      LeadingZero(digits);
      PadValue("0" + digits, width);
    }
  }

  function Power10(k: nat): nat {
    if k == 0 then 1 else 10 * Power10(k - 1)
  }

  lemma {:induction false} DigitCount(n: nat, k: nat)
    requires k > 0
    ensures |PrintNat(n)| <= k <==> n < Power10(k)
  {
    if k == 1 {
      assert Power10(0) == 1;
    } else if n >= 10 {
      DigitCount(n / 10, k - 1);
    } else {
      PowerGrows(k);
    }
  }

  lemma {:induction false} PowerGrows(k: nat)
    requires k > 0
    ensures Power10(k) >= 10
  {
    if k == 1 {
      assert Power10(0) == 1;
    } else {
      PowerGrows(k - 1);
    }
  }

  lemma PowerIs()
    ensures Power10(10) == TEN_TO_10
  {
    assert Power10(2) == 100 && Power10(4) == 10000 && Power10(6) == 1000000 && Power10(8) == 100000000;
  }

  /** A cross-reference entry is 20 bytes wide, as the format demands, exactly for offsets below ten to the tenth. */
  lemma EntryWidth(offset: nat)
    ensures |Entry(offset)| == 20 <==> offset < TEN_TO_10
  {
    DigitCount(offset, 10);
    PowerIs();
  }

  // ---------------------------------------------------------------- the table points at the objects

  lemma {:induction false} FlattenSplits(objects: seq<string>, i: nat)
    requires i < |objects|
    ensures Flatten(objects) == Flatten(objects[..i]) + objects[i] + Flatten(objects[i + 1..])
  {
    FlattenAppend(objects[..i], objects[i..]);
    assert objects == objects[..i] + objects[i..];
    assert objects[i..] == [objects[i]] + objects[i + 1..];
  }

  lemma ObjectAt(objects: seq<string>, i: nat)
    requires i < |objects|
    ensures At(Document(objects), Offset(objects, i), objects[i])
  {
    hide Flatten, TableHead, Entries, Trailer;
    FlattenSplits(objects, i);
    var before, item, after := Body(objects[..i]), objects[i], Flatten(objects[i + 1..]);
    var table := TableHead(|objects|) + FREE_ENTRY + Entries(Offsets(objects));
    var trailer := Trailer(|objects|, |Body(objects)|);
    assert Body(objects) == before + item + after;
    assert Document(objects) == before + item + (after + table + trailer);
    AtMiddle(before, item, after + table + trailer);
  }

  lemma {:induction false} EntryAt(offsets: seq<nat>, i: nat)
    requires i < |offsets| && forall k :: 0 <= k < |offsets| ==> offsets[k] < TEN_TO_10
    ensures |Entries(offsets)| == 20 * |offsets| && At(Entries(offsets), 20 * i, Entry(offsets[i]))
  {
    hide Entry;
    var before := Init(offsets);
    EntryWidth(Last(offsets));
    if before == [] {
      assert Entries(before) == "";
      assert Entries(offsets) == Entry(Last(offsets));
    } else if i < |before| {
      EntryAt(before, i);
      assert Entries(offsets)[20 * i..20 * i + 20] == Entries(before)[20 * i..20 * i + 20] by {
        EntryWidth(before[i]);
      }
      EntryWidth(before[i]);
    } else {
      EntryAt(before, 0);
      AtMiddle(Entries(before), Entry(Last(offsets)), "");
      assert Entries(before) + Entry(Last(offsets)) + "" == Entries(offsets);
    }
  }

  lemma RegroupRight(a: string, b: string, c: string, d: string)
    ensures a + b + (c + d) == (a + b + c) + d
  {
  }

  lemma RegroupTable(body: string, head: string, free: string, entries: string, trailer: string)
    ensures body + (head + free + entries) + trailer == body + head + (free + entries + trailer)
    ensures body + (head + free + entries) + trailer == (body + head + free) + entries + trailer
  {
  }

  lemma TrailerParts(n: nat, xref: nat)
    ensures Trailer(n, xref) ==
            ("trailer\n<< /Size " + PrintNat(n + 1) + " /Root 1 0 R >>\n")
            + ("startxref\n" + PrintNat(xref) + "\n%%EOF\n")
  {
    hide PrintNat;
  }

  lemma TableHeadParts(n: nat)
    ensures TableHead(n) == "xref\n0 " + (PrintNat(n + 1) + "\n")
    ensures TableHead(n) == "xref\n" + ("0 " + PrintNat(n + 1) + "\n")
  {
    hide PrintNat;
    assert "xref\n" + "0 " == "xref\n0 ";
  }

  lemma XrefFound(objects: seq<string>)
    ensures StartXref(Document(objects)) == Some(|Body(objects)|)
  {
    hide Body, TableHead, Entries, Trailer, StartXref, Offsets, PrintNat;
    var n, x := |objects|, |Body(objects)|;
    var table := TableHead(n) + FREE_ENTRY + Entries(Offsets(objects));
    var front := "trailer\n<< /Size " + PrintNat(n + 1) + " /Root 1 0 R >>\n";
    TrailerParts(n, x);
    RegroupRight(Body(objects), table, front, "startxref\n" + PrintNat(x) + "\n%%EOF\n");
    StartXrefOf(Body(objects) + table + front, x);
  }

  lemma RegroupTail(front: string, word: string, digits: string, mark: string)
    ensures front + (word + digits + mark) == front + word + (digits + mark)
    ensures front + (word + digits + mark) == (front + word) + digits + mark
    ensures front + (word + digits + mark) == (front + word + digits) + mark + ""
  {
  }

  lemma TailFound(front: string, word: string, digits: string, mark: string)
    ensures var doc := front + (word + digits + mark);
            && At(doc, |front|, word) && At(doc, |front| + |word|, digits)
            && At(doc, |front| + |word| + |digits|, mark)
            && |doc| == |front| + |word| + |digits| + |mark|
  {
    hide At;
    RegroupTail(front, word, digits, mark);
    AtMiddle(front, word, digits + mark);
    AtMiddle(front + word, digits, mark);
    AtMiddle(front + word + digits, mark, "");
  }

  lemma DigitsEnd(doc: string, p: nat, x: nat)
    requires At(doc, p, "startxref\n") && At(doc, p + 10, PrintNat(x))
    ensures DigitsBefore(doc, p + 10 + |PrintNat(x)|) == |PrintNat(x)|
  {
    var d := PrintNat(x);
    assert doc[p + 9] == doc[p..p + 10][9];
    assert forall i :: p + 10 <= i < p + 10 + |d| ==> doc[i] == doc[p + 10..p + 10 + |d|][i - p - 10];
    DigitsBeforeIs(doc, p + 10 + |d|, |d|);
  }

  lemma StartXrefOf(front: string, x: nat)
    ensures StartXref(front + ("startxref\n" + PrintNat(x) + "\n%%EOF\n")) == Some(x)
  {
    hide PrintNat, DecimalValue, DigitsBefore, At;
    var doc := front + ("startxref\n" + PrintNat(x) + "\n%%EOF\n");
    TailFound(front, "startxref\n", PrintNat(x), "\n%%EOF\n");
    DigitsEnd(doc, |front|, x);
    DecimalOfPrint(x);
    AtSlice(doc, |front| + 10, PrintNat(x));
  }

  lemma HeadFound(objects: seq<string>)
    ensures At(Document(objects), |Body(objects)|, TableHead(|objects|))
  {
    hide Body, Entries, Trailer, TableHead, Offsets;
    var n, x := |objects|, |Body(objects)|;
    var entries, trailer := Entries(Offsets(objects)), Trailer(n, x);
    RegroupTable(Body(objects), TableHead(n), FREE_ENTRY, entries, trailer);
    AtMiddle(Body(objects), TableHead(n), FREE_ENTRY + entries + trailer);
  }

  lemma TableStartOf(doc: string, x: nat, n: nat)
    requires StartXref(doc) == Some(x) && At(doc, x, TableHead(n))
    ensures TableStart(doc) == Some(x + |TableHead(n)|)
  {
    hide StartXref, At, Number, PrintNat, TableHead;
    TableHeadParts(n);
    AtParts(doc, x, "xref\n0 ", PrintNat(n + 1) + "\n");
    NumberAt(doc, x + 7, n + 1, "\n");
    AtParts(doc, x + 7, PrintNat(n + 1), "\n");
  }

  lemma TableFound(objects: seq<string>)
    ensures TableStart(Document(objects)) == Some(|Body(objects) + TableHead(|objects|)|)
  {
    hide Body, Document, TableHead, TableStart, StartXref, At;
    XrefFound(objects);
    HeadFound(objects);
    TableStartOf(Document(objects), |Body(objects)|, |objects|);
  }

  lemma EntryFound(objects: seq<string>, i: nat)
    requires i < |objects| && |Body(objects)| < TEN_TO_10
    ensures At(Document(objects), |Body(objects) + TableHead(|objects|)| + 20 * (i + 1), Entry(Offset(objects, i)))
  {
    hide TableHead, Trailer, Flatten, Entry, Entries;
    var n := |objects|;
    var front := Body(objects) + TableHead(n) + FREE_ENTRY;
    var entries, back := Entries(Offsets(objects)), Trailer(n, |Body(objects)|);
    forall k | 0 <= k < n ensures Offsets(objects)[k] < TEN_TO_10 {
      OffsetInBody(objects, k);
    }
    EntryAt(Offsets(objects), i);
    RegroupTable(Body(objects), TableHead(n), FREE_ENTRY, entries, back);
    AtInside(front, entries, back, 20 * i, Entry(Offset(objects, i)));
    assert |FREE_ENTRY| == 20;
  }

  lemma AtInside(front: string, middle: string, back: string, p: nat, text: string)
    requires At(middle, p, text)
    ensures At(front + middle + back, |front| + p, text)
  {
  }

  lemma OffsetInBody(objects: seq<string>, i: nat)
    requires i < |objects|
    ensures Offset(objects, i) <= |Body(objects)|
  {
    FlattenSplits(objects, i);
  }

  lemma ReadEntryOf(doc: string, table: nat, i: nat, offset: nat)
    requires TableStart(doc) == Some(table) && offset < TEN_TO_10
    requires At(doc, table + 20 * i, Entry(offset))
    ensures ReadEntry(doc, i) == Some(offset)
  {
    hide TableStart;
    var p, digits := table + 20 * i, Pad(PrintNat(offset), 10);
    EntryWidth(offset);
    PadValue(PrintNat(offset), 10);
    DecimalOfPrint(offset);
    AtParts(doc, p, digits, " 00000 n \n");
    assert forall k :: p <= k < p + 10 ==> doc[k] == doc[p..p + 10][k - p];
  }

  /** In every document below ten to the tenth bytes, `startxref` leads to the table and entry `i + 1` holds the offset where object `i` is. */
  lemma TablePointsAtObjects(objects: seq<string>, i: nat)
    requires i < |objects| && |Body(objects)| < TEN_TO_10
    ensures var doc := Document(objects);
            && StartXref(doc) == Some(|Body(objects)|) && At(doc, |Body(objects)|, "xref\n")
            && ReadEntry(doc, i + 1) == Some(Offset(objects, i))
            && At(doc, Offset(objects, i), objects[i])
  {
    hide Document, Body, ReadEntry, StartXref, Offset, TableStart, Entry;
    XrefFound(objects);
    TableFound(objects);
    XrefWordFound(objects);
    EntryFound(objects, i);
    OffsetInBody(objects, i);
    ReadEntryOf(Document(objects), |Body(objects) + TableHead(|objects|)|, i + 1, Offset(objects, i));
    ObjectAt(objects, i);
  }

  lemma XrefWordFound(objects: seq<string>)
    ensures At(Document(objects), |Body(objects)|, "xref\n")
  {
    hide Body, Document, TableHead, At;
    HeadFound(objects);
    TableHeadParts(|objects|);
    AtParts(Document(objects), |Body(objects)|, "xref\n", "0 " + PrintNat(|objects| + 1) + "\n");
  }

  function StreamObject(i: nat, head: string, data: string): string {
    PrintNat(i) + " 0 obj\n" + head + PrintNat(|data|) + " >>\nstream\n" + data + "\nendstream\nendobj\n"
  }

  lemma ReadStreamOf(doc: string, i: nat, head: string, data: string, offset: nat)
    requires ReadEntry(doc, i) == Some(offset) && At(doc, offset, StreamObject(i, head, data))
    ensures ReadStream(doc, i, head) == Some(data)
  {
    hide ReadEntry, At, Number, PrintNat, StreamObject;
    var a, n, mid, tail := PrintNat(i) + " 0 obj\n" + head, PrintNat(|data|), " >>\nstream\n", "\nendstream\nendobj\n";
    StreamParts(i, head, data);
    AtParts(doc, offset, a, n + (mid + (data + tail)));
    var p := offset + |a|;
    NumberAt(doc, p, |data|, mid + (data + tail));
    AtParts(doc, p, n, mid + (data + tail));
    AtParts(doc, p + |n|, mid, data + tail);
    AtParts(doc, p + |n| + 11, data, tail);
    AtSlice(doc, p + |n| + 11, data);
  }

  lemma AtSlice(doc: string, p: nat, text: string)
    requires At(doc, p, text)
    ensures p + |text| <= |doc| && doc[p..p + |text|] == text
  {
  }

  lemma StreamParts(i: nat, head: string, data: string)
    ensures StreamObject(i, head, data) ==
            (PrintNat(i) + " 0 obj\n" + head)
            + (PrintNat(|data|) + (" >>\nstream\n" + (data + "\nendstream\nendobj\n")))
  {
    hide PrintNat;
  }

  /** A reader that follows the table finds the data of every stream, as many bytes as its `/Length` says. */
  lemma StreamsReadBack(objects: seq<string>, i: nat, head: string, data: string)
    requires i < |objects| && |Body(objects)| < TEN_TO_10
    requires objects[i] == StreamObject(i + 1, head, data)
    ensures ReadStream(Document(objects), i + 1, head) == Some(data)
  {
    hide ReadEntry, StartXref, Document, Body, Offset, ReadStream, StreamObject;
    TablePointsAtObjects(objects, i);
    ReadStreamOf(Document(objects), i + 1, head, data, Offset(objects, i));
  }
}
