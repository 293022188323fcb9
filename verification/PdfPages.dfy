/** The three single-page files: a watermark, a text overlay and an image, and what a reader finds in them. */
module PdfPages {
  import opened Options
  import opened Text
  import opened Json
  import opened PdfLiteral
  import opened PdfWriter

  /** One text of an overlay; every number is given as the program prints it. */
  datatype Item = Item(
    r: string, g: string, b: string, size: string, x: string, y: string, minusX: string, minusY: string, text: string)

  /** The placement of a watermark, as printed. */
  datatype Mark = Mark(
    r: string, g: string, b: string, size: string, cos: string, sin: string, minusSin: string, tx: string, ty: string,
    text: string)

  const CATALOG := "1 0 obj\n" + "<< /Type /Catalog /Pages 2 0 R >>\nendobj\n"
  const PAGES := "2 0 obj\n" + "<< /Type /Pages /Kids [3 0 R] /Count 1 >>\nendobj\n"
  const FONT := "5 0 obj\n" + "<< /Type /Font /Subtype /Type1 /BaseFont /Helvetica >>\nendobj\n"

  function Before(t: Item): string {
    t.r + " " + t.g + " " + t.b + " rg\n" + "/F1 " + t.size + " Tf\n" + t.x + " " + t.y + " Td\n"
  }

  function After(t: Item): string {
    " Tj\n" + t.minusX + " " + t.minusY + " Td\n"
  }

  function ItemText(t: Item): string {
    Before(t) + "(" + PdfEscape(t.text) + ")" + After(t)
  }

  function ItemTexts(items: seq<Item>): string {
    if items == [] then "" else ItemText(items[0]) + ItemTexts(items[1..])
  }

  function OverlayStream(items: seq<Item>): string {
    "BT\n" + ItemTexts(items) + "ET\n"
  }

  function MarkBefore(m: Mark): string {
    "q\n/GS1 gs\nBT\n" + m.r + " " + m.g + " " + m.b + " rg\n" + "/F1 " + m.size + " Tf\n"
    + m.cos + " " + m.sin + " " + m.minusSin + " " + m.cos + " " + m.tx + " " + m.ty + " Tm\n"
  }

  function MarkStream(m: Mark): string {
    MarkBefore(m) + "(" + PdfEscape(m.text) + ")" + " Tj\nET\nQ\n"
  }

  function Page(width: string, height: string, resources: string): string {
    "3 0 obj\n" + "<< /Type /Page /Parent 2 0 R /MediaBox [0 0 " + width + " " + height
    + "] /Contents 4 0 R /Resources << " + resources + " >> >>\nendobj\n"
  }

  function Contents(data: string): string {
    "4 0 obj\n<< /Length " + PrintNat(|data|) + " >>\nstream\n" + data + "\nendstream\nendobj\n"
  }

  function OverlayObjects(width: string, height: string, data: string): seq<string> {
    [CATALOG, PAGES, Page(width, height, "/Font << /F1 5 0 R >>"), Contents(data), FONT]
  }

  function MarkObjects(width: string, height: string, opacity: string, data: string): seq<string> {
    [CATALOG, PAGES, Page(width, height, "/Font << /F1 5 0 R >> /ExtGState << /GS1 6 0 R >>"), Contents(data), FONT,
     "6 0 obj\n" + "<< /Type /ExtGState /ca " + opacity + " /CA " + opacity + " >>\nendobj\n"]
  }

  function Draw(width: nat, height: nat): string {
    "q\n" + PrintNat(width) + " 0 0 " + PrintNat(height) + " 0 0 cm\n/Im1 Do\nQ\n"
  }

  const IMAGE_FORMAT := "/ColorSpace /DeviceRGB /BitsPerComponent 8 " + "/Filter /FlateDecode /Length "

  /** The image dictionary up to its length. */
  function ImageHead(width: nat, height: nat): string {
    "<< /Type /XObject /Subtype /Image /Width " + PrintNat(width) + " /Height " + PrintNat(height)
    + " " + IMAGE_FORMAT
  }

  function Image(width: nat, height: nat, data: string): string {
    "5 0 obj\n" + ImageHead(width, height) + PrintNat(|data|) + " >>\nstream\n" + data + "\nendstream\nendobj\n"
  }

  function ImageObjects(width: nat, height: nat, data: string): seq<string> {
    [CATALOG, PAGES, Page(PrintNat(width), PrintNat(height), "/XObject << /Im1 5 0 R >>"),
     Contents(Draw(width, height)), Image(width, height, data)]
  }

  // ---------------------------------------------------------------- reading the shown texts back

  /** The literal strings of a content stream, in order. */
  function ReadTexts(s: string): seq<string>
    decreases |s|
  {
    if s == "" then []
    else if s[0] != '(' then ReadTexts(s[1..])
    else
      match ReadLiteral(s[1..], 0)
      case Fail => []
      case Got(v, rest) => [v] + ReadTexts(rest)
  }

  predicate Plain(s: string) {
    '(' !in s
  }

  lemma {:induction false} SkipPlain(a: string, more: string)
    requires Plain(a)
    ensures ReadTexts(a + more) == ReadTexts(more)
  {
    if a == "" {
      assert a + more == more;
    } else {
      assert (a + more)[0] == a[0] && (a + more)[1..] == a[1..] + more;
      SkipPlain(a[1..], more);
    }
  }

  lemma ReadShown(before: string, text: string, more: string)
    requires Plain(before)
    ensures ReadTexts(before + "(" + PdfEscape(text) + ")" + more) == [Normalized(text)] + ReadTexts(more)
  {
    hide ReadLiteral;
    var shown := PdfEscape(text) + (")" + more);
    assert before + "(" + PdfEscape(text) + ")" + more == before + ("(" + shown);
    SkipPlain(before, "(" + shown);
    EscapesInOnePass(text);
    LiteralReadsBack(text, more);
    assert ("(" + shown)[1..] == shown;
  }

  predicate PlainItem(t: Item) {
    Plain(Before(t)) && Plain(After(t))
  }

  /** The texts of the items with their line ends normalised. */
  function Shown(items: seq<Item>): (r: seq<string>)
    ensures |r| == |items|
  {
    if items == [] then [] else [Normalized(items[0].text)] + Shown(items[1..])
  }

  lemma {:induction false} ReadItems(items: seq<Item>, more: string)
    requires forall t :: t in items ==> PlainItem(t)
    ensures ReadTexts(ItemTexts(items) + more) == Shown(items) + ReadTexts(more)
  {
    hide Before, After, PdfEscape, Normalized;
    if items == [] {
      assert ItemTexts(items) + more == more;
    } else {
      var t, rest := items[0], ItemTexts(items[1..]) + more;
      ReadItems(items[1..], more);
      assert PlainItem(t);
      RegroupItem(Before(t) + "(" + PdfEscape(t.text) + ")", After(t), ItemTexts(items[1..]), more);
      ReadShown(Before(t), t.text, After(t) + rest);
      SkipPlain(After(t), rest);
    }
  }

  lemma RegroupItem(a: string, b: string, c: string, d: string)
    ensures a + b + c + d == a + (b + (c + d))
  {
  }

  lemma {:induction false} ShownAre(items: seq<Item>)
    ensures (forall i :: 0 <= i < |items| ==> Shown(items)[i] == items[i].text)
            <==> (forall t :: t in items ==> '\r' !in t.text)
  {
    hide Normalized;
    if items != [] {
      ShownAre(items[1..]);
      NormalizedShorter(items[0].text);
      assert items == [items[0]] + items[1..];
      assert forall i :: 0 < i < |items| ==> Shown(items)[i] == Shown(items[1..])[i - 1] && items[i] == items[1..][i - 1];
      assert forall i :: 0 <= i < |items[1..]| ==> Shown(items)[i + 1] == Shown(items[1..])[i];
    }
  }

  lemma ContentsIsStream(data: string)
    ensures Contents(data) == StreamObject(4, "<< /Length ", data)
  {
    assert PrintNat(4) == "4";
    assert "4" + " 0 obj\n" + "<< /Length " == "4 0 obj\n<< /Length ";
  }

  lemma ImageIsStream(width: nat, height: nat, data: string)
    ensures Image(width, height, data) == StreamObject(5, ImageHead(width, height), data)
  {
    hide ImageHead;
    assert PrintNat(5) == "5";
    assert "5" + " 0 obj\n" == "5 0 obj\n";
  }

  /**
   * A reader that starts from `startxref` finds in every overlay below ten to the tenth bytes exactly the texts that
   * were put in, in order, and finds them unchanged exactly when none has a carriage return.
   */
  lemma OverlayReadsBack(width: string, height: string, items: seq<Item>)
    requires forall t :: t in items ==> PlainItem(t)
    requires |Body(OverlayObjects(width, height, OverlayStream(items)))| < TEN_TO_10
    ensures var doc := Document(OverlayObjects(width, height, OverlayStream(items)));
            var data := ReadStream(doc, 4, "<< /Length ");
            && data.Some?
            && |ReadTexts(data.value)| == |items|
            && ((forall i :: 0 <= i < |items| ==> ReadTexts(data.value)[i] == items[i].text)
                <==> (forall t :: t in items ==> '\r' !in t.text))
  {
    hide Document, Body, ReadStream, ItemTexts, PlainItem, Shown, Page, Contents;
    var data := OverlayStream(items);
    ContentsIsStream(data);
    StreamsReadBack(OverlayObjects(width, height, data), 3, "<< /Length ", data);
    ReadOverlay(items);
    ShownAre(items);
  }

  lemma ReadOverlay(items: seq<Item>)
    requires forall t :: t in items ==> PlainItem(t)
    ensures ReadTexts(OverlayStream(items)) == Shown(items)
  {
    hide ItemTexts, PlainItem;
    assert OverlayStream(items) == "BT\n" + (ItemTexts(items) + "ET\n");
    SkipPlain("BT\n", ItemTexts(items) + "ET\n");
    ReadItems(items, "ET\n");
    assert "ET\n" + "" == "ET\n";
    SkipPlain("ET\n", "");
  }

  /** The same for a watermark and its one text. */
  lemma WatermarkReadsBack(width: string, height: string, opacity: string, m: Mark)
    requires Plain(MarkBefore(m))
    requires |Body(MarkObjects(width, height, opacity, MarkStream(m)))| < TEN_TO_10
    ensures var doc := Document(MarkObjects(width, height, opacity, MarkStream(m)));
            var data := ReadStream(doc, 4, "<< /Length ");
            data.Some? && (ReadTexts(data.value) == [m.text] <==> '\r' !in m.text)
  {
    hide Document, Body, ReadStream, Page, Contents, MarkBefore, PdfEscape;
    var data := MarkStream(m);
    ContentsIsStream(data);
    StreamsReadBack(MarkObjects(width, height, opacity, data), 3, "<< /Length ", data);
    ReadMark(m);
    NormalizedShorter(m.text);
  }

  lemma ReadMark(m: Mark)
    requires Plain(MarkBefore(m))
    ensures ReadTexts(MarkStream(m)) == [Normalized(m.text)]
  {
    hide MarkBefore, PdfEscape, Normalized;
    var end := " Tj\nET\nQ\n";
    ReadShown(MarkBefore(m), m.text, end);
    assert end + "" == end;
    SkipPlain(end, "");
  }

  /** A reader finds the drawing commands and the compressed image, byte for byte. */
  lemma ImageReadsBack(width: nat, height: nat, data: string)
    requires |Body(ImageObjects(width, height, data))| < TEN_TO_10
    ensures var doc := Document(ImageObjects(width, height, data));
            && ReadStream(doc, 4, "<< /Length ") == Some(Draw(width, height))
            && ReadStream(doc, 5, ImageHead(width, height)) == Some(data)
  {
    hide Document, Body, ReadStream, Page, Contents, Image, ImageHead, Draw;
    ContentsIsStream(Draw(width, height));
    ImageIsStream(width, height, data);
    StreamsReadBack(ImageObjects(width, height, data), 3, "<< /Length ", Draw(width, height));
    StreamsReadBack(ImageObjects(width, height, data), 4, ImageHead(width, height), data);
  }

  /** The item is the object numbered `i`. */
  predicate HeadedBy(item: string, i: nat) {
    StartsWith(item, PrintNat(i) + " 0 obj\n")
  }

  ghost predicate Headed(objects: seq<string>) {
    forall i :: 0 <= i < |objects| ==> HeadedBy(objects[i], i + 1)
  }

  lemma HeadIs(i: nat, head: string, rest: string)
    requires head == PrintNat(i) + " 0 obj\n"
    ensures HeadedBy(head + rest, i)
  {
    assert (head + rest)[..|head|] == head;
  }

  lemma Heads()
    ensures PrintNat(1) + " 0 obj\n" == "1 0 obj\n" && PrintNat(2) + " 0 obj\n" == "2 0 obj\n"
    ensures PrintNat(3) + " 0 obj\n" == "3 0 obj\n" && PrintNat(5) + " 0 obj\n" == "5 0 obj\n"
    ensures PrintNat(6) + " 0 obj\n" == "6 0 obj\n"
  {
    assert PrintNat(1) == "1" && PrintNat(2) == "2" && PrintNat(3) == "3" && PrintNat(5) == "5" && PrintNat(6) == "6";
  }

  lemma PageHeaded(width: string, height: string, resources: string)
    ensures HeadedBy(Page(width, height, resources), 3)
  {
    hide HeadedBy;
    Heads();
    var rest := "<< /Type /Page /Parent 2 0 R /MediaBox [0 0 " + width + " " + height
      + "] /Contents 4 0 R /Resources << " + resources + " >> >>\nendobj\n";
    assert Page(width, height, resources) == "3 0 obj\n" + rest;
    HeadIs(3, "3 0 obj\n", rest);
  }

  lemma FixedHeaded()
    ensures HeadedBy(CATALOG, 1) && HeadedBy(PAGES, 2) && HeadedBy(FONT, 5)
  {
    hide HeadedBy;
    Heads();
    HeadIs(1, "1 0 obj\n", "<< /Type /Catalog /Pages 2 0 R >>\nendobj\n");
    HeadIs(2, "2 0 obj\n", "<< /Type /Pages /Kids [3 0 R] /Count 1 >>\nendobj\n");
    HeadIs(5, "5 0 obj\n", "<< /Type /Font /Subtype /Type1 /BaseFont /Helvetica >>\nendobj\n");
  }

  lemma StateHeaded(opacity: string)
    ensures HeadedBy("6 0 obj\n" + "<< /Type /ExtGState /ca " + opacity + " /CA " + opacity + " >>\nendobj\n", 6)
  {
    hide HeadedBy;
    Heads();
    var rest := "<< /Type /ExtGState /ca " + opacity + " /CA " + opacity + " >>\nendobj\n";
    assert "6 0 obj\n" + "<< /Type /ExtGState /ca " + opacity + " /CA " + opacity + " >>\nendobj\n" == "6 0 obj\n" + rest;
    HeadIs(6, "6 0 obj\n", rest);
  }

  lemma StreamHeaded(i: nat, head: string, data: string)
    ensures HeadedBy(StreamObject(i, head, data), i)
  {
    hide HeadedBy, PrintNat;
    var rest := head + PrintNat(|data|) + " >>\nstream\n" + data + "\nendstream\nendobj\n";
    assert StreamObject(i, head, data) == (PrintNat(i) + " 0 obj\n") + rest;
    HeadIs(i, PrintNat(i) + " 0 obj\n", rest);
  }

  /** In the files of all three kinds every object stands under its own number. */
  lemma FilesAreHeaded(width: string, height: string, opacity: string, data: string, w: nat, h: nat)
    ensures Headed(OverlayObjects(width, height, data))
    ensures Headed(MarkObjects(width, height, opacity, data))
    ensures Headed(ImageObjects(w, h, data))
  {
    hide HeadedBy, PrintNat, ImageHead, Draw, Page, Contents, Image, StreamObject;
    FixedHeaded();
    StateHeaded(opacity);
    PageHeaded(width, height, "/Font << /F1 5 0 R >>");
    PageHeaded(width, height, "/Font << /F1 5 0 R >> /ExtGState << /GS1 6 0 R >>");
    PageHeaded(PrintNat(w), PrintNat(h), "/XObject << /Im1 5 0 R >>");
    ContentsIsStream(data);
    ContentsIsStream(Draw(w, h));
    ImageIsStream(w, h, data);
    StreamHeaded(4, "<< /Length ", data);
    StreamHeaded(4, "<< /Length ", Draw(w, h));
    StreamHeaded(5, ImageHead(w, h), data);
  }

  /** In every such file below ten to the tenth bytes, the table leads from the number of each object to that object. */
  lemma EveryObjectFound(objects: seq<string>, i: nat)
    requires Headed(objects) && |Body(objects)| < TEN_TO_10 && 1 <= i <= |objects|
    ensures ObjectBegins(Document(objects), i, "")
  {
    hide Document, Body, ReadEntry, StartXref, Offset, PrintNat;
    var item, head := objects[i - 1], PrintNat(i) + " 0 obj\n";
    TablePointsAtObjects(objects, i - 1);
    assert HeadedBy(item, i);
    assert item == head + item[|head|..] && head + "" == head;
    AtParts(Document(objects), Offset(objects, i - 1), head, item[|head|..]);
  }

  // ---------------------------------------------------------------- the builders

  lemma OffsetsSnoc(objects: seq<string>, item: string)
    ensures Offsets(objects + [item]) == Offsets(objects) + [|Body(objects)|]
    ensures Body(objects + [item]) == Body(objects) + item
  {
    var more := objects + [item];
    assert forall i :: 0 <= i <= |objects| ==> more[..i] == objects[..i];
    assert more[..|objects|] == objects;
    FlattenAppend(objects, [item]);
    assert Flatten([item]) == item;
  }

  /** The bytes written so far and where each object began. */
  class Output {
    var written: string
    var objOffsets: seq<nat>

    /** Exactly these objects have been written. */
    ghost predicate Holds(objects: seq<string>)
      reads this
    {
      written == Body(objects) && objOffsets == Offsets(objects)
    }

    constructor ()
      ensures Holds([])
    {
      written := "%PDF-1.4\n";
      objOffsets := [];
      new;
      assert Body([]) == HEADER + "";
    }

    method Write(s: string)
      modifies this`written
      ensures written == old(written) + s
    {
      written := written + s;
    }

    /** Note where the object begins, then write its pieces. */
    method AddObject(pieces: seq<string>, ghost objects: seq<string>)
      requires Holds(objects)
      modifies this
      ensures Holds(objects + [Flatten(pieces)])
    {
      hide Body, Offsets, Flatten;
      objOffsets := objOffsets + [|written|];
      NoPieces(written);
      for i := 0 to |pieces|
        invariant written == Body(objects) + Flatten(pieces[..i])
        invariant objOffsets == Offsets(objects) + [|Body(objects)|]
      {
        Write(pieces[i]);
        PieceNext(pieces, i);
        assert Body(objects) + Flatten(pieces[..i]) + pieces[i] == Body(objects) + (Flatten(pieces[..i]) + pieces[i]);
      }
      assert pieces[..|pieces|] == pieces;
      OffsetsSnoc(objects, Flatten(pieces));
    }

    /** Write the cross-reference table and the trailer. */
    method Finish(ghost objects: seq<string>) returns (bytes: string)
      requires Holds(objects)
      modifies this`written
      ensures bytes == Document(objects)
    {
      hide Body, Offsets, Flatten, Entry, PrintNat;
      ghost var body := written;
      var xrefOffset := |written|;
      var n := |objOffsets|;
      Write("xref\n");
      Write("0 " + PrintNat(n + 1) + "\n");
      Write("0000000000 65535 f \n");
      TableHeadParts(n);
      ghost var front := body + (TableHead(n) + FREE_ENTRY);
      assert written == front + "";
      for i := 0 to n
        invariant written == front + Entries(objOffsets[..i])
      {
        assert Init(objOffsets[..i + 1]) == objOffsets[..i];
        Write(Pad(PrintNat(objOffsets[i]), 10) + " 00000 n \n");
        EntryIs(objOffsets[i]);
        assert front + Entries(objOffsets[..i]) + Entry(objOffsets[i]) == front + (Entries(objOffsets[..i]) + Entry(objOffsets[i]));
      }
      assert objOffsets[..n] == objOffsets;
      Write("trailer\n<< /Size " + PrintNat(n + 1) + " /Root 1 0 R >>\n");
      Write("startxref\n");
      Write(PrintNat(xrefOffset) + "\n");
      Write("%%EOF\n");
      bytes := written;
      TrailerEnds(n, xrefOffset);
      RegroupEnd(body, TableHead(n) + FREE_ENTRY, Entries(objOffsets),
                 "trailer\n<< /Size " + PrintNat(n + 1) + " /Root 1 0 R >>\n", PrintNat(xrefOffset));
    }
  }

  lemma NoPieces(s: string)
    ensures s == s + Flatten([])
  {
  }

  lemma EntryIs(offset: nat)
    ensures Entry(offset) == Pad(PrintNat(offset), 10) + " 00000 n \n"
  {
  }

  lemma PieceNext(pieces: seq<string>, i: nat)
    requires i < |pieces|
    ensures Flatten(pieces[..i + 1]) == Flatten(pieces[..i]) + pieces[i]
  {
    assert pieces[..i + 1] == pieces[..i] + [pieces[i]];
    FlattenAppend(pieces[..i], [pieces[i]]);
    assert Flatten([pieces[i]]) == pieces[i];
  }

  lemma TrailerEnds(n: nat, xref: nat)
    ensures Trailer(n, xref) ==
            "trailer\n<< /Size " + PrintNat(n + 1) + " /Root 1 0 R >>\n" + "startxref\n" + (PrintNat(xref) + "\n") + "%%EOF\n"
  {
    hide PrintNat;
  }

  lemma RegroupEnd(body: string, head: string, entries: string, trailer: string, digits: string)
    ensures body + head + entries + trailer + "startxref\n" + (digits + "\n") + "%%EOF\n" ==
            body + (head + entries) + (trailer + "startxref\n" + (digits + "\n") + "%%EOF\n")
  {
  }

  /** Encode a content stream; a character outside Latin-1 is an error. */
  function Encode(s: string): Option<string> {
    if Latin1(s) then Some(s) else None
  }

  lemma FlattenOne(a: string)
    ensures Flatten([a]) == a
  {
  }

  lemma FlattenThree(a: string, b: string, c: string)
    ensures Flatten([a, b, c]) == a + b + c
  {
    assert [a, b, c][1..] == [b, c] && [b, c][1..] == [c];
    FlattenOne(c);
  }

  lemma FlattenFive(a: string, b: string, c: string, d: string, e: string)
    ensures Flatten([a, b, c, d, e]) == a + b + (c + d + e)
  {
    assert [a, b, c, d, e][1..] == [b, c, d, e] && [b, c, d, e][1..] == [c, d, e];
    FlattenThree(c, d, e);
  }

  lemma ItemLines(t: Item)
    ensures ItemText(t) ==
            (t.r + " " + t.g + " " + t.b + " rg\n") + ("/F1 " + t.size + " Tf\n")
            + ((t.x + " " + t.y + " Td\n") + ("(" + PdfEscape(t.text) + ") Tj\n") + (t.minusX + " " + t.minusY + " Td\n"))
  {
    hide PdfEscape;
    RegroupLine(PdfEscape(t.text), t.minusX + " " + t.minusY + " Td\n");
    assert After(t) == " Tj\n" + (t.minusX + " " + t.minusY + " Td\n");
    assert Before(t) == (t.r + " " + t.g + " " + t.b + " rg\n") + ("/F1 " + t.size + " Tf\n") + (t.x + " " + t.y + " Td\n");
    RegroupLines(t.r + " " + t.g + " " + t.b + " rg\n", "/F1 " + t.size + " Tf\n", t.x + " " + t.y + " Td\n",
                 PdfEscape(t.text), t.minusX + " " + t.minusY + " Td\n");
  }

  lemma RegroupLine(escaped: string, reset: string)
    ensures "(" + escaped + ") Tj\n" + reset == "(" + escaped + ")" + (" Tj\n" + reset)
  {
    assert ") Tj\n" == ")" + " Tj\n";
  }

  lemma RegroupLines(a: string, b: string, c: string, escaped: string, reset: string)
    ensures a + b + c + "(" + escaped + ")" + (" Tj\n" + reset) == a + b + (c + ("(" + escaped + ") Tj\n") + reset)
  {
    RegroupLine(escaped, reset);
    assert a + b + c + "(" + escaped + ")" + (" Tj\n" + reset) == a + b + c + ("(" + escaped + ")" + (" Tj\n" + reset));
    assert a + b + (c + ("(" + escaped + ") Tj\n") + reset) == a + b + c + ("(" + escaped + ") Tj\n" + reset);
  }

  /** The lines of one overlay text. */
  method ItemPieces(t: Item) returns (pieces: seq<string>)
    ensures Flatten(pieces) == ItemText(t)
  {
    hide PdfEscape, Flatten;
    ItemLines(t);
    var color, font, move := t.r + " " + t.g + " " + t.b + " rg\n", "/F1 " + t.size + " Tf\n", t.x + " " + t.y + " Td\n";
    var show, reset := "(" + PdfEscape(t.text) + ") Tj\n", t.minusX + " " + t.minusY + " Td\n";
    FlattenFive(color, font, move, show, reset);
    pieces := [color, font, move, show, reset];
  }

  /** The content stream of an overlay, or an error if it cannot be encoded. */
  method OverlayData(texts: seq<Item>) returns (r: Option<string>)
    ensures r == Encode(OverlayStream(texts))
  {
    hide ItemText, Encode;
    var parts := ["BT\n"];
    for i := 0 to |texts|
      invariant Flatten(parts) + ItemTexts(texts[i..]) == "BT\n" + ItemTexts(texts)
    {
      ghost var before := parts;
      var pieces := ItemPieces(texts[i]);
      parts := parts + pieces;
      FlattenAppend(before, pieces);
      assert texts[i..][1..] == texts[i + 1..];
      assert Flatten(before) + (ItemText(texts[i]) + ItemTexts(texts[i + 1..]))
          == Flatten(before) + ItemText(texts[i]) + ItemTexts(texts[i + 1..]);
    }
    assert Flatten(parts) == "BT\n" + ItemTexts(texts);
    FlattenAppend(parts, ["ET\n"]);
    FlattenOne("ET\n");
    parts := parts + ["ET\n"];
    r := Encode(Flatten(parts));
  }

  method AddContents(out: Output, data: string, ghost objects: seq<string>)
    requires out.Holds(objects)
    modifies out
    ensures out.Holds(objects + [Contents(data)])
  {
    var begin, end := "4 0 obj\n<< /Length " + PrintNat(|data|) + " >>\nstream\n", "\nendstream\nendobj\n";
    FlattenThree(begin, data, end);
    out.AddObject([begin, data, end], objects);
  }

  method AddWhole(out: Output, item: string, ghost objects: seq<string>)
    requires out.Holds(objects)
    modifies out
    ensures out.Holds(objects + [item])
  {
    FlattenOne(item);
    out.AddObject([item], objects);
  }

  /** The objects every file begins with. */
  method Begin(width: string, height: string, resources: string, data: string) returns (out: Output)
    ensures fresh(out) && out.Holds([CATALOG, PAGES, Page(width, height, resources), Contents(data)])
  {
    hide Page, Contents;
    out := new Output();
    AddWhole(out, CATALOG, []);
    assert [] + [CATALOG] == [CATALOG];
    AddWhole(out, PAGES, [CATALOG]);
    assert [CATALOG] + [PAGES] == [CATALOG, PAGES];
    var page := Page(width, height, resources);
    AddWhole(out, page, [CATALOG, PAGES]);
    assert [CATALOG, PAGES] + [page] == [CATALOG, PAGES, page];
    AddContents(out, data, [CATALOG, PAGES, page]);
    assert [CATALOG, PAGES, page] + [Contents(data)] == [CATALOG, PAGES, page, Contents(data)];
  }

  method MakeTextOverlayPdf(width: string, height: string, texts: seq<Item>) returns (r: Option<string>)
    ensures r == if Latin1(OverlayStream(texts))
                 then Some(Document(OverlayObjects(width, height, OverlayStream(texts)))) else None
  {
    hide Document, OverlayStream, Latin1, Contents, Page;
    var stream := OverlayData(texts);
    if stream.None? {
      return None;
    }
    var fonts := "/Font << /F1 5 0 R >>";
    var out := Begin(width, height, fonts, stream.value);
    ghost var first := [CATALOG, PAGES, Page(width, height, fonts), Contents(stream.value)];
    AddWhole(out, FONT, first);
    assert first + [FONT] == OverlayObjects(width, height, stream.value);
    var bytes := out.Finish(first + [FONT]);
    return Some(bytes);
  }

  method MakeWatermarkPdf(width: string, height: string, opacity: string, m: Mark) returns (r: Option<string>)
    ensures r == if Latin1(MarkStream(m))
                 then Some(Document(MarkObjects(width, height, opacity, MarkStream(m)))) else None
  {
    hide Document, MarkStream, Latin1, Contents, Page;
    var stream := Encode(MarkStream(m));
    if stream.None? {
      return None;
    }
    var resources := "/Font << /F1 5 0 R >> /ExtGState << /GS1 6 0 R >>";
    var out := Begin(width, height, resources, stream.value);
    ghost var first := [CATALOG, PAGES, Page(width, height, resources), Contents(stream.value)];
    AddWhole(out, FONT, first);
    var state := "6 0 obj\n" + "<< /Type /ExtGState /ca " + opacity + " /CA " + opacity + " >>\nendobj\n";
    AddWhole(out, state, first + [FONT]);
    assert first + [FONT] + [state] == MarkObjects(width, height, opacity, stream.value);
    var bytes := out.Finish(first + [FONT] + [state]);
    return Some(bytes);
  }

  /** A page showing an image whose compressed bytes are `data`. */
  method PilToImagePdfPage(width: nat, height: nat, data: string) returns (bytes: string)
    ensures bytes == Document(ImageObjects(width, height, data))
  {
    hide Document, Contents, Page, Draw, ImageHead;
    var resources := "/XObject << /Im1 5 0 R >>";
    var out := Begin(PrintNat(width), PrintNat(height), resources, Draw(width, height));
    ghost var first := [CATALOG, PAGES, Page(PrintNat(width), PrintNat(height), resources), Contents(Draw(width, height))];
    var begin := "5 0 obj\n" + ImageHead(width, height) + PrintNat(|data|) + " >>\nstream\n";
    var end := "\nendstream\nendobj\n";
    FlattenThree(begin, data, end);
    out.AddObject([begin, data, end], first);
    assert first + [Image(width, height, data)] == ImageObjects(width, height, data);
    bytes := out.Finish(first + [Image(width, height, data)]);
  }
}
