/** A reader that splits PDF text into tokens and follows references, and what it finds in the three kinds of files. */
module PdfReader {
  import opened Options
  import opened Text
  import opened Json
  import opened PdfLiteral
  import opened PdfWriter
  import opened PdfPages

  // ---------------------------------------------------------------- tokens

  datatype Token = Word(word: string) | Open | Close | Shown(text: string)

  /** White space of section 7.2.2 of ISO 32000-1. */
  predicate IsBlank(c: char) {
    c == ' ' || c == '\n' || c == '\r' || c == '\t' || c == 12 as char || c == 0 as char
  }

  predicate Ordinary(c: char) {
    !IsBlank(c) && c != '(' && c != '[' && c != ']'
  }

  function WordLength(s: string): (n: nat)
    ensures n <= |s| && (s != "" && Ordinary(s[0]) ==> n > 0)
  {
    if s != "" && Ordinary(s[0]) then 1 + WordLength(s[1..]) else 0
  }

  function Tokens(s: string): seq<Token>
    decreases |s|
  {
    if s == "" then []
    else if IsBlank(s[0]) then Tokens(s[1..])
    else if s[0] == '[' then [Open] + Tokens(s[1..])
    else if s[0] == ']' then [Close] + Tokens(s[1..])
    else if s[0] == '(' then
      match ReadLiteral(s[1..], 0)
      case Fail => []
      case Got(text, rest) => [Shown(text)] + Tokens(rest)
    else [Word(s[..WordLength(s)])] + Tokens(s[WordLength(s)..])
  }

  predicate IsWord(w: string) {
    w != "" && forall i :: 0 <= i < |w| ==> Ordinary(w[i])
  }

  lemma {:induction false} WordLengthOf(w: string, rest: string)
    requires forall i :: 0 <= i < |w| ==> Ordinary(w[i])
    requires rest == "" || !Ordinary(rest[0])
    ensures WordLength(w + rest) == |w|
  {
    if w == "" {
      assert w + rest == rest;
    } else {
      assert (w + rest)[1..] == w[1..] + rest;
      WordLengthOf(w[1..], rest);
    }
  }

  lemma OneWord(w: string, rest: string)
    requires IsWord(w) && (rest == "" || !Ordinary(rest[0]))
    ensures Tokens(w + rest) == [Word(w)] + Tokens(rest)
  {
    WordLengthOf(w, rest);
    assert (w + rest)[0] == w[0] && Ordinary(w[0]);
    assert (w + rest)[..|w|] == w && (w + rest)[|w|..] == rest;
  }

  lemma Blank(c: char, rest: string)
    requires IsBlank(c)
    ensures Tokens([c] + rest) == Tokens(rest)
  {
    assert ([c] + rest)[1..] == rest;
  }

  lemma Bracket(rest: string)
    ensures Tokens(['['] + rest) == [Open] + Tokens(rest)
    ensures Tokens([']'] + rest) == [Close] + Tokens(rest)
  {
    assert (['['] + rest)[1..] == rest;
    assert ([']'] + rest)[1..] == rest;
  }

  lemma Literal(text: string, rest: string)
    ensures Tokens("(" + PdfEscape(text) + ")" + rest) == [Shown(Normalized(text))] + Tokens(rest)
  {
    hide ReadLiteral, PdfEscape, Normalized, OnePass;
    var inner := PdfEscape(text) + (")" + rest);
    assert "(" + PdfEscape(text) + ")" + rest == "(" + inner;
    EscapesInOnePass(text);
    LiteralReadsBack(text, rest);
    assert ("(" + inner)[1..] == inner;
  }

  // Words, each followed by one blank.

  lemma Words1(a: string, x: char, rest: string)
    requires IsWord(a) && IsBlank(x)
    ensures Tokens(a + [x] + rest) == [Word(a)] + Tokens(rest)
  {
    hide Tokens, IsWord;
    OneWord(a, [x] + rest);
    Blank(x, rest);
    assert a + [x] + rest == a + ([x] + rest);
  }

  lemma Words2(a: string, x: char, b: string, y: char, rest: string)
    requires IsWord(a) && IsWord(b) && IsBlank(x) && IsBlank(y)
    ensures Tokens(a + [x] + b + [y] + rest) == [Word(a), Word(b)] + Tokens(rest)
  {
    hide Tokens, IsWord;
    assert a + [x] + b + [y] + rest == a + [x] + (b + [y] + rest);
    Words1(a, x, b + [y] + rest);
    Words1(b, y, rest);
  }

  lemma Words3(a: string, x: char, b: string, y: char, c: string, z: char, rest: string)
    requires IsWord(a) && IsWord(b) && IsWord(c) && IsBlank(x) && IsBlank(y) && IsBlank(z)
    ensures Tokens(a + [x] + b + [y] + c + [z] + rest) == [Word(a), Word(b), Word(c)] + Tokens(rest)
  {
    hide Tokens, IsWord;
    assert a + [x] + b + [y] + c + [z] + rest == a + [x] + b + [y] + (c + [z] + rest);
    Words2(a, x, b, y, c + [z] + rest);
    Words1(c, z, rest);
  }

  lemma Words4(a: string, w: char, b: string, x: char, c: string, y: char, d: string, z: char, rest: string)
    requires IsWord(a) && IsWord(b) && IsWord(c) && IsWord(d) && IsBlank(w) && IsBlank(x) && IsBlank(y) && IsBlank(z)
    ensures Tokens(a + [w] + b + [x] + c + [y] + d + [z] + rest) == [Word(a), Word(b), Word(c), Word(d)] + Tokens(rest)
  {
    hide Tokens, IsWord;
    assert a + [w] + b + [x] + c + [y] + d + [z] + rest == a + [w] + b + [x] + (c + [y] + d + [z] + rest);
    Words2(a, w, b, x, c + [y] + d + [z] + rest);
    Words2(c, y, d, z, rest);
  }

  /** The words that stand in every file. */
  lemma Keywords()
    ensures IsWord("/CA") && IsWord("/Catalog") && IsWord("/Contents") && IsWord("/ExtGState") && IsWord("/F1") && IsWord("/Font")
    ensures IsWord("/GS1") && IsWord("/Height") && IsWord("/Im1") && IsWord("/Image") && IsWord("/Kids") && IsWord("/MediaBox")
    ensures IsWord("/Page") && IsWord("/Pages") && IsWord("/Parent") && IsWord("/Resources") && IsWord("/Root") && IsWord("/Size")
    ensures IsWord("/Subtype") && IsWord("/Type") && IsWord("/Width") && IsWord("/XObject") && IsWord("/ca") && IsWord("0")
    ensures IsWord("1") && IsWord("2") && IsWord("3") && IsWord("4") && IsWord("5") && IsWord("6")
    ensures IsWord("<<") && IsWord(">>") && IsWord("BT") && IsWord("Do") && IsWord("ET") && IsWord("Q")
    ensures IsWord("R") && IsWord("Td") && IsWord("Tf") && IsWord("Tj") && IsWord("Tm") && IsWord("cm")
    ensures IsWord("gs") && IsWord("q") && IsWord("rg") && IsWord("trailer")
  {
    hide IsWord;
    Keywords1();
    Keywords2();
    Keywords3();
    Keywords4();
  }

  lemma Keywords1()
    ensures IsWord("/CA") && IsWord("/Catalog") && IsWord("/Contents") && IsWord("/ExtGState") && IsWord("/F1") && IsWord("/Font")
    ensures IsWord("/GS1") && IsWord("/Height") && IsWord("/Im1") && IsWord("/Image") && IsWord("/Kids") && IsWord("/MediaBox")
  {
  }

  lemma Keywords2()
    ensures IsWord("/Page") && IsWord("/Pages") && IsWord("/Parent") && IsWord("/Resources") && IsWord("/Root") && IsWord("/Size")
    ensures IsWord("/Subtype") && IsWord("/Type") && IsWord("/Width") && IsWord("/XObject") && IsWord("/ca") && IsWord("0")
  {
  }

  lemma Keywords3()
    ensures IsWord("1") && IsWord("2") && IsWord("3") && IsWord("4") && IsWord("5") && IsWord("6")
    ensures IsWord("<<") && IsWord(">>") && IsWord("BT") && IsWord("Do") && IsWord("ET") && IsWord("Q")
  {
  }

  lemma Keywords4()
    ensures IsWord("R") && IsWord("Td") && IsWord("Tf") && IsWord("Tj") && IsWord("Tm") && IsWord("cm")
    ensures IsWord("gs") && IsWord("q") && IsWord("rg") && IsWord("trailer")
  {
  }

  lemma Three(a: string, b: string, c: string, rest: string)
    ensures a + b + c + rest == a + (b + (c + rest))
  {
  }

  // ---------------------------------------------------------------- content streams

  /** The numbers of an overlay text are printed without blanks. */
  predicate ItemWords(t: Item) {
    && IsWord(t.r) && IsWord(t.g) && IsWord(t.b) && IsWord(t.size)
    && IsWord(t.x) && IsWord(t.y) && IsWord(t.minusX) && IsWord(t.minusY)
  }

  /** What shows one text: its colour, its font and size, the move to its place, the text, and the move back. */
  function ItemTokens(t: Item): seq<Token> {
    [Word(t.r), Word(t.g), Word(t.b), Word("rg")] + [Word("/F1"), Word(t.size), Word("Tf")]
    + [Word(t.x), Word(t.y), Word("Td")] + [Shown(Normalized(t.text)), Word("Tj")]
    + [Word(t.minusX), Word(t.minusY), Word("Td")]
  }

  function AllItemTokens(items: seq<Item>): seq<Token> {
    if items == [] then [] else ItemTokens(items[0]) + AllItemTokens(items[1..])
  }

  lemma BeforeTokens(t: Item, rest: string)
    requires ItemWords(t)
    ensures Tokens(Before(t) + rest) ==
            [Word(t.r), Word(t.g), Word(t.b), Word("rg")] + [Word("/F1"), Word(t.size), Word("Tf")]
            + [Word(t.x), Word(t.y), Word("Td")] + Tokens(rest)
  {
    hide Tokens, IsWord;
    Keywords();
    var color, font, move := t.r + " " + t.g + " " + t.b + " rg\n", "/F1 " + t.size + " Tf\n", t.x + " " + t.y + " Td\n";
    assert color == t.r + [' '] + t.g + [' '] + t.b + [' '] + "rg" + ['\n'];
    assert font == "/F1" + [' '] + t.size + [' '] + "Tf" + ['\n'];
    assert move == t.x + [' '] + t.y + [' '] + "Td" + ['\n'];
    assert Before(t) == color + font + move;
    Three(color, font, move, rest);
    Words4(t.r, ' ', t.g, ' ', t.b, ' ', "rg", '\n', font + (move + rest));
    Words3("/F1", ' ', t.size, ' ', "Tf", '\n', move + rest);
    Words3(t.x, ' ', t.y, ' ', "Td", '\n', rest);
  }

  lemma AfterTokens(t: Item, rest: string)
    requires ItemWords(t)
    ensures Tokens(After(t) + rest) == [Word("Tj")] + [Word(t.minusX), Word(t.minusY), Word("Td")] + Tokens(rest)
  {
    hide Tokens, IsWord;
    Keywords();
    var reset := t.minusX + [' '] + t.minusY + [' '] + "Td" + ['\n'];
    assert After(t) == [' '] + ("Tj" + ['\n']) + reset;
    Three([' '], "Tj" + ['\n'], reset, rest);
    Blank(' ', "Tj" + ['\n'] + (reset + rest));
    Words1("Tj", '\n', reset + rest);
    Words3(t.minusX, ' ', t.minusY, ' ', "Td", '\n', rest);
  }

  lemma ItemRead(t: Item, rest: string)
    requires ItemWords(t)
    ensures Tokens(ItemText(t) + rest) == ItemTokens(t) + Tokens(rest)
  {
    hide Tokens, Before, After, PdfEscape, ItemWords, Normalized;
    var shown := "(" + PdfEscape(t.text) + ")";
    assert ItemText(t) == Before(t) + shown + After(t);
    Three(Before(t), shown, After(t), rest);
    BeforeTokens(t, shown + (After(t) + rest));
    Literal(t.text, After(t) + rest);
    AfterTokens(t, rest);
  }

  lemma {:induction false} ItemsRead(items: seq<Item>, rest: string)
    requires forall t :: t in items ==> ItemWords(t)
    ensures Tokens(ItemTexts(items) + rest) == AllItemTokens(items) + Tokens(rest)
  {
    hide Tokens, ItemText, ItemTokens, ItemWords;
    if items == [] {
      assert ItemTexts(items) + rest == rest;
    } else {
      Regroup(ItemText(items[0]), ItemTexts(items[1..]), rest);
      ItemRead(items[0], ItemTexts(items[1..]) + rest);
      ItemsRead(items[1..], rest);
    }
  }

  /**
   * A reader of an overlay's content finds the texts in order, each set in its own colour and size, moved to its own
   * place and back again.
   */
  lemma OverlayContent(items: seq<Item>)
    requires forall t :: t in items ==> ItemWords(t)
    ensures Tokens(OverlayStream(items)) == [Word("BT")] + AllItemTokens(items) + [Word("ET")]
  {
    hide Tokens, ItemTexts, ItemWords, IsWord;
    Keywords();
    Words1("BT", '\n', ItemTexts(items) + "ET\n");
    ItemsRead(items, "ET\n");
    Words1("ET", '\n', "");
    NoTokens();
    assert OverlayStream(items) == "BT" + ['\n'] + (ItemTexts(items) + "ET\n");
    assert "ET" + ['\n'] + "" == "ET\n";
  }

  lemma NoTokens()
    ensures Tokens("") == []
  {
  }

  predicate MarkWords(m: Mark) {
    && IsWord(m.r) && IsWord(m.g) && IsWord(m.b) && IsWord(m.size) && IsWord(m.cos) && IsWord(m.sin)
    && IsWord(m.minusSin) && IsWord(m.tx) && IsWord(m.ty)
  }

  function MarkTokens(m: Mark): seq<Token> {
    [Word("q"), Word("/GS1"), Word("gs"), Word("BT")] + [Word(m.r), Word(m.g), Word(m.b), Word("rg")]
    + [Word("/F1"), Word(m.size), Word("Tf")] + [Word(m.cos), Word(m.sin), Word(m.minusSin), Word(m.cos)]
    + [Word(m.tx), Word(m.ty), Word("Tm")] + [Shown(Normalized(m.text)), Word("Tj"), Word("ET"), Word("Q")]
  }

  lemma MarkBeforeTokens(m: Mark, rest: string)
    requires MarkWords(m)
    ensures Tokens(MarkBefore(m) + rest) ==
            [Word("q"), Word("/GS1"), Word("gs"), Word("BT")] + [Word(m.r), Word(m.g), Word(m.b), Word("rg")]
            + [Word("/F1"), Word(m.size), Word("Tf")] + [Word(m.cos), Word(m.sin), Word(m.minusSin), Word(m.cos)]
            + [Word(m.tx), Word(m.ty), Word("Tm")] + Tokens(rest)
  {
    hide Tokens, MarkBefore, MarkWords;
    var start, color, font := "q\n/GS1 gs\nBT\n", m.r + " " + m.g + " " + m.b + " rg\n", "/F1 " + m.size + " Tf\n";
    var turn, move := m.cos + " " + m.sin + " " + m.minusSin + " " + m.cos + " ", m.tx + " " + m.ty + " Tm\n";
    MarkLines(m);
    Three(start + color + font, turn, move, rest);
    Three(start, color, font, turn + (move + rest));
    MarkFirst(m, turn + (move + rest));
    MarkSecond(m, rest);
  }

  lemma MarkFirst(m: Mark, rest: string)
    requires MarkWords(m)
    ensures Tokens("q\n/GS1 gs\nBT\n" + ((m.r + " " + m.g + " " + m.b + " rg\n") + (("/F1 " + m.size + " Tf\n") + rest))) ==
            [Word("q"), Word("/GS1"), Word("gs"), Word("BT")] + [Word(m.r), Word(m.g), Word(m.b), Word("rg")]
            + [Word("/F1"), Word(m.size), Word("Tf")] + Tokens(rest)
  {
    hide Tokens, IsWord;
    Keywords();
    var color, font := m.r + " " + m.g + " " + m.b + " rg\n", "/F1 " + m.size + " Tf\n";
    assert "q\n/GS1 gs\nBT\n" == "q" + ['\n'] + "/GS1" + [' '] + "gs" + ['\n'] + "BT" + ['\n'];
    assert color == m.r + [' '] + m.g + [' '] + m.b + [' '] + "rg" + ['\n'];
    assert font == "/F1" + [' '] + m.size + [' '] + "Tf" + ['\n'];
    Words4("q", '\n', "/GS1", ' ', "gs", '\n', "BT", '\n', color + (font + rest));
    Words4(m.r, ' ', m.g, ' ', m.b, ' ', "rg", '\n', font + rest);
    Words3("/F1", ' ', m.size, ' ', "Tf", '\n', rest);
  }

  lemma MarkSecond(m: Mark, rest: string)
    requires MarkWords(m)
    ensures Tokens((m.cos + " " + m.sin + " " + m.minusSin + " " + m.cos + " ") + ((m.tx + " " + m.ty + " Tm\n") + rest)) ==
            [Word(m.cos), Word(m.sin), Word(m.minusSin), Word(m.cos)] + [Word(m.tx), Word(m.ty), Word("Tm")] + Tokens(rest)
  {
    hide Tokens, IsWord;
    Keywords();
    var turn, move := m.cos + " " + m.sin + " " + m.minusSin + " " + m.cos + " ", m.tx + " " + m.ty + " Tm\n";
    assert turn == m.cos + [' '] + m.sin + [' '] + m.minusSin + [' '] + m.cos + [' '];
    assert move == m.tx + [' '] + m.ty + [' '] + "Tm" + ['\n'];
    Words4(m.cos, ' ', m.sin, ' ', m.minusSin, ' ', m.cos, ' ', move + rest);
    Words3(m.tx, ' ', m.ty, ' ', "Tm", '\n', rest);
  }

  lemma MarkLines(m: Mark)
    ensures MarkBefore(m) ==
            "q\n/GS1 gs\nBT\n" + (m.r + " " + m.g + " " + m.b + " rg\n") + ("/F1 " + m.size + " Tf\n")
            + (m.cos + " " + m.sin + " " + m.minusSin + " " + m.cos + " ") + (m.tx + " " + m.ty + " Tm\n")
  {
    var color, font := m.r + " " + m.g + " " + m.b + " rg\n", "/F1 " + m.size + " Tf\n";
    var turn, move := m.cos + " " + m.sin + " " + m.minusSin + " " + m.cos + " ", m.tx + " " + m.ty + " Tm\n";
    assert "q\n/GS1 gs\nBT\n" + m.r + " " + m.g + " " + m.b + " rg\n" == "q\n/GS1 gs\nBT\n" + color;
    assert "q\n/GS1 gs\nBT\n" + color + "/F1 " + m.size + " Tf\n" == "q\n/GS1 gs\nBT\n" + color + font;
    assert turn + m.tx + " " + m.ty + " Tm\n" == turn + move;
  }

  /** A reader of a watermark's content finds its text, turned by the matrix and moved to its place. */
  lemma WatermarkContent(m: Mark)
    requires MarkWords(m)
    ensures Tokens(MarkStream(m)) == MarkTokens(m)
  {
    hide Tokens, MarkBefore, PdfEscape, Normalized, MarkWords, IsWord;
    Keywords();
    var shown, end := "(" + PdfEscape(m.text) + ")", " Tj\nET\nQ\n";
    assert MarkStream(m) == MarkBefore(m) + (shown + end);
    MarkBeforeTokens(m, shown + end);
    Literal(m.text, end);
    Blank(' ', "Tj\nET\nQ\n");
    Words3("Tj", '\n', "ET", '\n', "Q", '\n', "");
    NoTokens();
    assert end == [' '] + "Tj\nET\nQ\n";
    assert "Tj" + ['\n'] + "ET" + ['\n'] + "Q" + ['\n'] + "" == "Tj\nET\nQ\n";
  }

  lemma NumberIsWord(n: nat)
    ensures IsWord(PrintNat(n)) && PrintNat(n)[0] != '/'
  {
    assert forall i :: 0 <= i < |PrintNat(n)| ==> IsDigit(PrintNat(n)[i]);
  }

  /** A reader of an image page's content finds the image scaled to its own width and height. */
  lemma ImageContent(width: nat, height: nat)
    ensures Tokens(Draw(width, height)) ==
            [Word("q"), Word(PrintNat(width)), Word("0"), Word("0")] + [Word(PrintNat(height)), Word("0"), Word("0"), Word("cm")]
            + [Word("/Im1"), Word("Do"), Word("Q")]
  {
    hide Tokens, PrintNat, IsWord;
    Keywords();
    NumberIsWord(width);
    NumberIsWord(height);
    var w, h := PrintNat(width), PrintNat(height);
    var scale, move, draw := "q\n" + w + " 0 0 ", h + " 0 0 cm\n", "/Im1 Do\nQ\n";
    assert scale == "q" + ['\n'] + w + [' '] + "0" + [' '] + "0" + [' '];
    assert move == h + [' '] + "0" + [' '] + "0" + [' '] + "cm" + ['\n'];
    assert draw == "/Im1" + [' '] + "Do" + ['\n'] + "Q" + ['\n'] + "";
    assert Draw(width, height) == scale + (move + draw);
    Words4("q", '\n', w, ' ', "0", ' ', "0", ' ', move + draw);
    Words4(h, ' ', "0", ' ', "0", ' ', "cm", '\n', draw);
    Words3("/Im1", ' ', "Do", '\n', "Q", '\n', "");
    NoTokens();
  }

  /** A content stream is refused exactly for a character beyond the 256 of Latin-1. */
  lemma RefusedExactly(s: string)
    ensures Encode(s) == None <==> exists i :: 0 <= i < |s| && s[i] > '\U{FF}'
    ensures Encode(s) != None ==> Encode(s) == Some(s)
  {
  }

  // ---------------------------------------------------------------- following references

  /** The tokens of object `i`, found through the table, and whatever follows it. */
  function ObjectTokens(doc: string, i: nat): seq<Token> {
    if !ObjectBegins(doc, i, "") then []
    else
      var p := ReadEntry(doc, i).value + |PrintNat(i) + " 0 obj\n"|;
      if p > |doc| then [] else Tokens(doc[p..])
  }

  /** The tokens behind the table, whose first line says how many entries it has. */
  function TrailerTokens(doc: string): seq<Token> {
    if TableStart(doc).None? then []
    else
      var count := Number(doc, StartXref(doc).value + 7).value.0;
      var p := TableStart(doc).value + 20 * count;
      if p > |doc| then [] else Tokens(doc[p..])
  }

  /** What stands after the first occurrence of a key. */
  function AfterKey(tokens: seq<Token>, key: string): seq<Token> {
    if tokens == [] then [] else if tokens[0] == Word(key) then tokens[1..] else AfterKey(tokens[1..], key)
  }

  predicate AllDigits(s: string) {
    forall i :: 0 <= i < |s| ==> IsDigit(s[i])
  }

  /** A reference to an object, as in `3 0 R`. */
  function Reference(tokens: seq<Token>): Option<nat> {
    if |tokens| >= 3 && tokens[0].Word? && AllDigits(tokens[0].word) && tokens[1] == Word("0") && tokens[2] == Word("R")
    then Some(DecimalValue(tokens[0].word))
    else None
  }

  function ReferenceAt(tokens: seq<Token>, key: string): Option<nat> {
    Reference(AfterKey(tokens, key))
  }

  /** The first page: from the trailer to the root, to the page tree, to its first kid. */
  function FirstPage(doc: string): Option<nat> {
    match ReferenceAt(TrailerTokens(doc), "/Root")
    case None => None
    case Some(root) =>
      match ReferenceAt(ObjectTokens(doc, root), "/Pages")
      case None => None
      case Some(pages) =>
        var kids := AfterKey(ObjectTokens(doc, pages), "/Kids");
        if kids != [] && kids[0] == Open then Reference(kids[1..]) else None
  }

  /** Width and height of a page whose media box begins at the origin. */
  function MediaBox(doc: string, page: nat): Option<(string, string)> {
    var box := AfterKey(ObjectTokens(doc, page), "/MediaBox");
    if |box| >= 6 && box[0] == Open && box[1] == box[2] == Word("0") && box[3].Word? && box[4].Word? && box[5] == Close
    then Some((box[3].word, box[4].word))
    else None
  }

  lemma {:induction false} AfterSkips(front: seq<Token>, tokens: seq<Token>, key: string)
    requires Word(key) !in front
    ensures AfterKey(front + tokens, key) == AfterKey(tokens, key)
  {
    if front == [] {
      assert front + tokens == tokens;
    } else {
      assert (front + tokens)[1..] == front[1..] + tokens;
      assert front[0] in front;
      AfterSkips(front[1..], tokens, key);
    }
  }

  lemma AfterFound(tokens: seq<Token>, key: string)
    ensures AfterKey([Word(key)] + tokens, key) == tokens
  {
  }

  lemma ReferenceIs(n: nat, tokens: seq<Token>)
    ensures Reference([Word(PrintNat(n)), Word("0"), Word("R")] + tokens) == Some(n)
  {
    DecimalOfPrint(n);
  }

  lemma DocumentFrom(doc: string, p: nat, text: string)
    requires At(doc, p, text)
    ensures doc[p..] == text + doc[p + |text|..]
  {
    assert doc[p..] == doc[p..p + |text|] + doc[p + |text|..];
  }

  lemma ObjectRead(objects: seq<string>, i: nat, body: string) returns (rest: string)
    requires i < |objects| && |Body(objects)| < TEN_TO_10
    requires objects[i] == PrintNat(i + 1) + " 0 obj\n" + body
    ensures ObjectTokens(Document(objects), i + 1) == Tokens(body + rest)
  {
    hide Document, Body, Offset, ReadEntry, Tokens, PrintNat, StartXref;
    var doc, head := Document(objects), PrintNat(i + 1) + " 0 obj\n";
    TablePointsAtObjects(objects, i);
    var p := Offset(objects, i);
    AtParts(doc, p, head, body);
    assert head + "" == head;
    DocumentFrom(doc, p + |head|, body);
    rest := doc[p + |head| + |body|..];
  }

  lemma TrailerAt(objects: seq<string>)
    requires objects != [] && |Body(objects)| < TEN_TO_10
    ensures var front := |Body(objects) + TableHead(|objects|)| + 20 * (|objects| + 1);
            front <= |Document(objects)| && Document(objects)[front..] == Trailer(|objects|, |Body(objects)|)
  {
    hide TableHead, Trailer, Flatten, Entry, Entries;
    var n := |objects|;
    forall k | 0 <= k < n ensures Offsets(objects)[k] < TEN_TO_10 {
      OffsetInBody(objects, k);
    }
    EntryAt(Offsets(objects), 0);
    var front := Body(objects) + (TableHead(n) + FREE_ENTRY + Entries(Offsets(objects)));
    assert |FREE_ENTRY| == 20;
    assert Document(objects) == front + Trailer(n, |Body(objects)|);
  }

  lemma TableCount(objects: seq<string>)
    ensures var doc := Document(objects);
            StartXref(doc) == Some(|Body(objects)|) && Number(doc, |Body(objects)| + 7).Some?
            && Number(doc, |Body(objects)| + 7).value.0 == |objects| + 1
  {
    hide Document, Body, TableHead, StartXref, At, Number, PrintNat;
    var doc, x, n := Document(objects), |Body(objects)|, |objects|;
    XrefFound(objects);
    HeadFound(objects);
    TableHeadParts(n);
    AtParts(doc, x, "xref\n0 ", PrintNat(n + 1) + "\n");
    NumberAt(doc, x + 7, n + 1, "\n");
  }

  lemma TrailerRead(objects: seq<string>)
    requires objects != [] && |Body(objects)| < TEN_TO_10
    ensures ReferenceAt(TrailerTokens(Document(objects)), "/Root") == Some(1)
  {
    hide Document, Body, TableHead, StartXref, Number, Tokens, PrintNat, Trailer, Reference, TableStart;
    TableFound(objects);
    TableCount(objects);
    TrailerAt(objects);
    RootRead(|objects|, |Body(objects)|);
  }

  lemma RootRead(n: nat, xref: nat)
    ensures ReferenceAt(Tokens(Trailer(n, xref)), "/Root") == Some(1)
  {
    hide Tokens, PrintNat, Reference, IsWord;
    Keywords();
    var size, root, rest := "trailer\n<< /Size " + PrintNat(n + 1) + " ", "/Root 1 0 R ", ">>\nstartxref\n" + PrintNat(xref) + "\n%%EOF\n";
    NumberIsWord(n + 1);
    RegroupTrailer(PrintNat(n + 1), PrintNat(xref));
    assert size == "trailer" + ['\n'] + "<<" + [' '] + "/Size" + [' '] + PrintNat(n + 1) + [' '];
    assert root == "/Root" + [' '] + "1" + [' '] + "0" + [' '] + "R" + [' '];
    Words4("trailer", '\n', "<<", ' ', "/Size", ' ', PrintNat(n + 1), ' ', root + rest);
    Words4("/Root", ' ', "1", ' ', "0", ' ', "R", ' ', rest);
    KeyFound([Word("trailer"), Word("<<"), Word("/Size"), Word(PrintNat(n + 1))], "/Root", 1, Tokens(rest));
    Digits();
    assert Tokens(Trailer(n, xref)) == [Word("trailer"), Word("<<"), Word("/Size"), Word(PrintNat(n + 1))]
      + ([Word("/Root"), Word("1"), Word("0"), Word("R")] + Tokens(rest));
  }

  lemma RegroupTrailer(size: string, xref: string)
    ensures "trailer\n<< /Size " + size + " /Root 1 0 R >>\n" + "startxref\n" + xref + "\n%%EOF\n" ==
            ("trailer\n<< /Size " + size + " ") + ("/Root 1 0 R " + (">>\nstartxref\n" + xref + "\n%%EOF\n"))
  {
    assert " /Root 1 0 R >>\n" + "startxref\n" == " " + "/Root 1 0 R " + ">>\nstartxref\n";
  }

  lemma Digits()
    ensures PrintNat(1) == "1" && PrintNat(2) == "2" && PrintNat(3) == "3" && PrintNat(4) == "4"
    ensures PrintNat(5) == "5" && PrintNat(6) == "6"
  {
  }

  /** A reference behind its key. */
  lemma KeyFound(front: seq<Token>, key: string, n: nat, rest: seq<Token>)
    requires Word(key) !in front
    ensures ReferenceAt(front + ([Word(key), Word(PrintNat(n)), Word("0"), Word("R")] + rest), key) == Some(n)
  {
    hide Reference, PrintNat, AfterKey;
    var found := [Word(PrintNat(n)), Word("0"), Word("R")] + rest;
    assert [Word(key), Word(PrintNat(n)), Word("0"), Word("R")] + rest == [Word(key)] + found;
    AfterSkips(front, [Word(key)] + found, key);
    AfterFound(found, key);
    ReferenceIs(n, rest);
  }

  // ---------------------------------------------------------------- the fixed objects

  lemma CatalogParts()
    ensures "<< /Type /Catalog /Pages 2 0 R >>\nendobj\n" == "<< /Type /Catalog " + "/Pages 2 0 R " + ">>\nendobj\n"
  {
  }

  lemma CatalogRead(rest: string)
    ensures ReferenceAt(Tokens("<< /Type /Catalog /Pages 2 0 R >>\nendobj\n" + rest), "/Pages") == Some(2)
  {
    hide Tokens, Reference, PrintNat, IsWord;
    Keywords();
    var a, b, c := "<< /Type /Catalog ", "/Pages 2 0 R ", ">>\nendobj\n" + rest;
    CatalogParts();
    Three(a, b, ">>\nendobj\n", rest);
    assert a == "<<" + [' '] + "/Type" + [' '] + "/Catalog" + [' '];
    assert b == "/Pages" + [' '] + "2" + [' '] + "0" + [' '] + "R" + [' '];
    Words3("<<", ' ', "/Type", ' ', "/Catalog", ' ', b + c);
    Words4("/Pages", ' ', "2", ' ', "0", ' ', "R", ' ', c);
    Digits();
    KeyFound([Word("<<"), Word("/Type"), Word("/Catalog")], "/Pages", 2, Tokens(c));
    assert Tokens(a + (b + c)) == [Word("<<"), Word("/Type"), Word("/Catalog")]
      + ([Word("/Pages"), Word("2"), Word("0"), Word("R")] + Tokens(c));
  }

  lemma KidsTokens(rest: string)
    ensures Tokens("<< /Type /Pages /Kids [3 0 " + ("R" + ("] /Count 1 >>\nendobj\n" + rest))) ==
            [Word("<<"), Word("/Type"), Word("/Pages"), Word("/Kids")] + [Open, Word("3"), Word("0"), Word("R")]
            + Tokens("] /Count 1 >>\nendobj\n" + rest)
  {
    hide Tokens, IsWord;
    Keywords();
    var c := "] /Count 1 >>\nendobj\n" + rest;
    assert "<< /Type /Pages /Kids [3 0 " + ("R" + c) == "<< /Type /Pages /Kids " + (['['] + ("3 0 " + ("R" + c)));
    assert "<< /Type /Pages /Kids " == "<<" + [' '] + "/Type" + [' '] + "/Pages" + [' '] + "/Kids" + [' '];
    assert "3 0 " == "3" + [' '] + "0" + [' '];
    Words4("<<", ' ', "/Type", ' ', "/Pages", ' ', "/Kids", ' ', ['['] + ("3 0 " + ("R" + c)));
    Bracket("3 0 " + ("R" + c));
    Words2("3", ' ', "0", ' ', "R" + c);
    OneWord("R", c);
  }

  lemma KidsParts()
    ensures "<< /Type /Pages /Kids [3 0 R] /Count 1 >>\nendobj\n" == "<< /Type /Pages /Kids [3 0 " + "R" + "] /Count 1 >>\nendobj\n"
  {
  }

  lemma PagesRead(rest: string)
    ensures var kids := AfterKey(Tokens("<< /Type /Pages /Kids [3 0 R] /Count 1 >>\nendobj\n" + rest), "/Kids");
            kids != [] && kids[0] == Open && Reference(kids[1..]) == Some(3)
  {
    hide Tokens, Reference, PrintNat, AfterKey;
    var c := "] /Count 1 >>\nendobj\n" + rest;
    KidsParts();
    Three("<< /Type /Pages /Kids [3 0 ", "R", "] /Count 1 >>\nendobj\n", rest);
    KidsTokens(rest);
    Digits();
    ReferenceIs(3, Tokens(c));
    var found := [Open, Word("3"), Word("0"), Word("R")] + Tokens(c);
    KidsFound(found);
    assert [Word("<<"), Word("/Type"), Word("/Pages"), Word("/Kids")] + [Open, Word("3"), Word("0"), Word("R")] + Tokens(c)
        == [Word("<<"), Word("/Type"), Word("/Pages"), Word("/Kids")] + found;
    assert found[1..] == [Word("3"), Word("0"), Word("R")] + Tokens(c);
  }

  lemma KidsFound(found: seq<Token>)
    ensures AfterKey([Word("<<"), Word("/Type"), Word("/Pages"), Word("/Kids")] + found, "/Kids") == found
  {
    hide AfterKey;
    var front := [Word("<<"), Word("/Type"), Word("/Pages")];
    AfterSkips(front, [Word("/Kids")] + found, "/Kids");
    AfterFound(found, "/Kids");
    assert [Word("<<"), Word("/Type"), Word("/Pages"), Word("/Kids")] + found == front + ([Word("/Kids")] + found);
  }

  // ---------------------------------------------------------------- the page

  /** A printed size, which is no name. */
  predicate SizeWord(w: string) {
    IsWord(w) && w[0] != '/'
  }

  /** What stands in the page's dictionary before its resources. */
  function PageFront(width: string, height: string): seq<Token> {
    [Word("<<"), Word("/Type"), Word("/Page"), Word("/Parent")] + [Word("2"), Word("0"), Word("R"), Word("/MediaBox")]
    + [Open, Word("0"), Word("0"), Word(width), Word(height), Close]
    + [Word("/Contents"), Word("4"), Word("0"), Word("R")] + [Word("/Resources"), Word("<<")]
  }

  lemma PageParts(width: string, height: string, resources: string)
    ensures Page(width, height, resources) ==
            "3 0 obj\n" + ("<< /Type /Page /Parent 2 0 R /MediaBox [0 0 " + (width + (" " + (height
            + ("] /Contents 4 0 R /Resources << " + (resources + " >> >>\nendobj\n"))))))
  {
    var head, box := "3 0 obj\n", "<< /Type /Page /Parent 2 0 R /MediaBox [0 0 ";
    Nested(head, box, width, " ", height, "] /Contents 4 0 R /Resources << ", resources, " >> >>\nendobj\n");
  }

  lemma Nested(a: string, b: string, c: string, d: string, e: string, f: string, g: string, h: string)
    ensures a + b + c + d + e + f + g + h == a + (b + (c + (d + (e + (f + (g + h))))))
  {
    Regroup(a + b + c + d + e + f, g, h);
    Regroup(a + b + c + d + e, f, g + h);
    Regroup(a + b + c + d, e, f + (g + h));
    Regroup(a + b + c, d, e + (f + (g + h)));
    Regroup(a + b, c, d + (e + (f + (g + h))));
    Regroup(a, b, c + (d + (e + (f + (g + h)))));
  }

  lemma BoxParts()
    ensures "<< /Type /Page /Parent 2 0 R /MediaBox [0 0 " == "<< /Type /Page /Parent " + "2 0 R /MediaBox " + ['['] + "0 0 "
  {
  }

  lemma Four(a: string, b: string, c: string, d: string, rest: string)
    ensures a + b + c + d + rest == a + (b + (c + (d + rest)))
  {
  }

  lemma BoxTokens(rest: string)
    ensures Tokens("<< /Type /Page /Parent 2 0 R /MediaBox [0 0 " + rest) ==
            [Word("<<"), Word("/Type"), Word("/Page"), Word("/Parent")] + [Word("2"), Word("0"), Word("R"), Word("/MediaBox")]
            + [Open, Word("0"), Word("0")] + Tokens(rest)
  {
    hide Tokens, IsWord;
    Keywords();
    var b := ['['] + ("0 0 " + rest);
    var a := "2 0 R /MediaBox " + b;
    BoxParts();
    Four("<< /Type /Page /Parent ", "2 0 R /MediaBox ", ['['], "0 0 ", rest);
    assert "<< /Type /Page /Parent " == "<<" + [' '] + "/Type" + [' '] + "/Page" + [' '] + "/Parent" + [' '];
    assert "2 0 R /MediaBox " == "2" + [' '] + "0" + [' '] + "R" + [' '] + "/MediaBox" + [' '];
    assert "0 0 " == "0" + [' '] + "0" + [' '];
    Words4("<<", ' ', "/Type", ' ', "/Page", ' ', "/Parent", ' ', a);
    Words4("2", ' ', "0", ' ', "R", ' ', "/MediaBox", ' ', b);
    Bracket("0 0 " + rest);
    Words2("0", ' ', "0", ' ', rest);
  }

  lemma MoreParts()
    ensures "] /Contents 4 0 R /Resources << " == [']'] + [' '] + "/Contents 4 0 R " + "/Resources << "
  {
  }

  lemma ContentsTokens(rest: string)
    ensures Tokens("] /Contents 4 0 R /Resources << " + rest) ==
            [Close] + [Word("/Contents"), Word("4"), Word("0"), Word("R")] + [Word("/Resources"), Word("<<")] + Tokens(rest)
  {
    hide Tokens, IsWord;
    Keywords();
    var b := "/Resources << " + rest;
    var a := "/Contents 4 0 R " + b;
    MoreParts();
    Four([']'], [' '], "/Contents 4 0 R ", "/Resources << ", rest);
    assert "/Contents 4 0 R " == "/Contents" + [' '] + "4" + [' '] + "0" + [' '] + "R" + [' '];
    assert "/Resources << " == "/Resources" + [' '] + "<<" + [' '];
    Bracket([' '] + a);
    Blank(' ', a);
    Words4("/Contents", ' ', "4", ' ', "0", ' ', "R", ' ', b);
    Words2("/Resources", ' ', "<<", ' ', rest);
  }

  lemma PageTokens(width: string, height: string, inner: string)
    requires SizeWord(width) && SizeWord(height)
    ensures Tokens("<< /Type /Page /Parent 2 0 R /MediaBox [0 0 " + (width + (" " + (height + ("] /Contents 4 0 R /Resources << " + inner)))))
         == PageFront(width, height) + Tokens(inner)
  {
    hide Tokens, IsWord;
    Keywords();
    var c := "] /Contents 4 0 R /Resources << " + inner;
    BoxTokens(width + (" " + (height + c)));
    OneWord(width, " " + (height + c));
    Blank(' ', height + c);
    OneWord(height, c);
    ContentsTokens(inner);
  }

  lemma PageRead(width: string, height: string, tokens: seq<Token>)
    requires SizeWord(width) && SizeWord(height)
    ensures ReferenceAt(PageFront(width, height) + tokens, "/Contents") == Some(4)
    ensures AfterKey(PageFront(width, height) + tokens, "/Resources") == [Word("<<")] + tokens
  {
    hide Reference, PrintNat, AfterKey;
    var front := [Word("<<"), Word("/Type"), Word("/Page"), Word("/Parent")] + [Word("2"), Word("0"), Word("R"), Word("/MediaBox")]
      + [Open, Word("0"), Word("0"), Word(width), Word(height), Close];
    var contents := [Word("/Contents"), Word("4"), Word("0"), Word("R")];
    Digits();
    KeyFound(front, "/Contents", 4, [Word("/Resources"), Word("<<")] + tokens);
    assert PageFront(width, height) + tokens == front + (contents + ([Word("/Resources"), Word("<<")] + tokens));
    AfterSkips(front + contents, [Word("/Resources")] + ([Word("<<")] + tokens), "/Resources");
    AfterFound([Word("<<")] + tokens, "/Resources");
    assert PageFront(width, height) + tokens == (front + contents) + ([Word("/Resources")] + ([Word("<<")] + tokens));
  }

  lemma BoxRead(width: string, height: string, tokens: seq<Token>)
    ensures var box := AfterKey(PageFront(width, height) + tokens, "/MediaBox");
            |box| >= 6 && box[..6] == [Open, Word("0"), Word("0"), Word(width), Word(height), Close]
  {
    hide AfterKey;
    var front := [Word("<<"), Word("/Type"), Word("/Page"), Word("/Parent")] + [Word("2"), Word("0"), Word("R")];
    var box := [Open, Word("0"), Word("0"), Word(width), Word(height), Close]
      + ([Word("/Contents"), Word("4"), Word("0"), Word("R")] + [Word("/Resources"), Word("<<")] + tokens);
    AfterSkips(front, [Word("/MediaBox")] + box, "/MediaBox");
    AfterFound(box, "/MediaBox");
    assert PageFront(width, height) + tokens == front + ([Word("/MediaBox")] + box);
  }

  // ---------------------------------------------------------------- main results

  /** The page has its size and its content, and is the first that a reader reaches from the trailer. */
  ghost predicate Opens(doc: string, width: string, height: string) {
    && FirstPage(doc) == Some(3)
    && MediaBox(doc, 3) == Some((width, height))
    && ReferenceAt(ObjectTokens(doc, 3), "/Contents") == Some(4)
  }

  lemma PageObject(objects: seq<string>, width: string, height: string, resources: string) returns (rest: string)
    requires |objects| >= 3 && objects[2] == Page(width, height, resources) && |Body(objects)| < TEN_TO_10
    requires SizeWord(width) && SizeWord(height)
    ensures ObjectTokens(Document(objects), 3) == PageFront(width, height) + Tokens(resources + (" >> >>\nendobj\n" + rest))
  {
    hide Tokens, Document, Body, Page, PrintNat, ObjectTokens, PageFront;
    var inner := resources + " >> >>\nendobj\n";
    var body := "<< /Type /Page /Parent 2 0 R /MediaBox [0 0 " + (width + (" " + (height + ("] /Contents 4 0 R /Resources << " + inner))));
    PageParts(width, height, resources);
    Digits();
    assert PrintNat(3) + " 0 obj\n" == "3 0 obj\n";
    rest := ObjectRead(objects, 2, body);
    PageTokens(width, height, inner + rest);
    BodyRest(width, height, inner, rest);
    Regroup(resources, " >> >>\nendobj\n", rest);
  }

  lemma BodyRest(width: string, height: string, inner: string, rest: string)
    ensures "<< /Type /Page /Parent 2 0 R /MediaBox [0 0 " + (width + (" " + (height + ("] /Contents 4 0 R /Resources << " + inner)))) + rest
         == "<< /Type /Page /Parent 2 0 R /MediaBox [0 0 " + (width + (" " + (height + ("] /Contents 4 0 R /Resources << " + (inner + rest)))))
  {
    var a, e := "<< /Type /Page /Parent 2 0 R /MediaBox [0 0 ", "] /Contents 4 0 R /Resources << ";
    Regroup(a, width + (" " + (height + (e + inner))), rest);
    Regroup(width, " " + (height + (e + inner)), rest);
    Regroup(" ", height + (e + inner), rest);
    Regroup(height, e + inner, rest);
    Regroup(e, inner, rest);
  }

  lemma DocumentOpens(objects: seq<string>, width: string, height: string, resources: string) returns (rest: string)
    requires |objects| >= 3 && objects[0] == CATALOG && objects[1] == PAGES && objects[2] == Page(width, height, resources)
    requires |Body(objects)| < TEN_TO_10 && SizeWord(width) && SizeWord(height)
    ensures Opens(Document(objects), width, height)
    ensures AfterKey(ObjectTokens(Document(objects), 3), "/Resources") == [Word("<<")] + Tokens(resources + (" >> >>\nendobj\n" + rest))
  {
    hide Tokens, Document, Body, Page, PrintNat, ObjectTokens, PageFront, Reference, AfterKey, TrailerTokens;
    Digits();
    TrailerRead(objects);
    var rest1 := ObjectRead(objects, 0, "<< /Type /Catalog /Pages 2 0 R >>\nendobj\n");
    CatalogRead(rest1);
    var rest2 := ObjectRead(objects, 1, "<< /Type /Pages /Kids [3 0 R] /Count 1 >>\nendobj\n");
    PagesRead(rest2);
    rest := PageObject(objects, width, height, resources);
    var inner := Tokens(resources + (" >> >>\nendobj\n" + rest));
    PageRead(width, height, inner);
    BoxRead(width, height, inner);
  }

  /** From the trailer of an overlay a reader reaches a page of the size asked for, its content, and its font. */
  lemma OverlayOpens(width: string, height: string, data: string)
    requires SizeWord(width) && SizeWord(height) && |Body(OverlayObjects(width, height, data))| < TEN_TO_10
    ensures var doc := Document(OverlayObjects(width, height, data));
      && Opens(doc, width, height)
      && ReferenceAt(AfterKey(ObjectTokens(doc, 3), "/Resources"), "/F1") == Some(5)
  {
    hide Tokens, Document, Body, Page, PrintNat, ObjectTokens, Reference, AfterKey, Opens, Contents;
    var resources := "/Font << /F1 5 0 R >>";
    var rest := DocumentOpens(OverlayObjects(width, height, data), width, height, resources);
    FontRead(">>" + (" >> >>\nendobj\n" + rest));
    assert resources == "/Font << /F1 5 0 R " + ">>";
    Regroup("/Font << /F1 5 0 R ", ">>", " >> >>\nendobj\n" + rest);
  }

  lemma FontRead(rest: string)
    ensures Tokens("/Font << /F1 5 0 R " + rest) == [Word("/Font"), Word("<<"), Word("/F1"), Word("5")] + [Word("0"), Word("R")] + Tokens(rest)
    ensures ReferenceAt([Word("<<")] + Tokens("/Font << /F1 5 0 R " + rest), "/F1") == Some(5)
  {
    hide Tokens, Reference, PrintNat, AfterKey, IsWord;
    Keywords();
    var b := "0 R " + rest;
    assert "/Font << /F1 5 0 R " == "/Font << /F1 5 " + "0 R ";
    Regroup("/Font << /F1 5 ", "0 R ", rest);
    assert "/Font << /F1 5 " == "/Font" + [' '] + "<<" + [' '] + "/F1" + [' '] + "5" + [' '];
    assert "0 R " == "0" + [' '] + "R" + [' '];
    Words4("/Font", ' ', "<<", ' ', "/F1", ' ', "5", ' ', b);
    Words2("0", ' ', "R", ' ', rest);
    Digits();
    KeyFound([Word("<<"), Word("/Font"), Word("<<")], "/F1", 5, Tokens(rest));
    assert [Word("<<")] + Tokens("/Font << /F1 5 0 R " + rest) ==
           [Word("<<"), Word("/Font"), Word("<<")] + ([Word("/F1"), Word("5"), Word("0"), Word("R")] + Tokens(rest));
  }

  lemma StateFound(rest: string)
    ensures ReferenceAt([Word("<<")] + Tokens("/Font << /F1 5 0 R " + (">> /ExtGState << " + ("/GS1 6 0 R " + rest))), "/GS1") == Some(6)
    ensures ReferenceAt([Word("<<")] + Tokens("/Font << /F1 5 0 R " + (">> /ExtGState << " + ("/GS1 6 0 R " + rest))), "/F1") == Some(5)
  {
    hide Tokens, Reference, PrintNat, AfterKey, IsWord;
    Keywords();
    var b := "/GS1 6 0 R " + rest;
    FontRead(">> /ExtGState << " + b);
    assert ">> /ExtGState << " == ">>" + [' '] + "/ExtGState" + [' '] + "<<" + [' '];
    assert "/GS1 6 0 R " == "/GS1" + [' '] + "6" + [' '] + "0" + [' '] + "R" + [' '];
    Words3(">>", ' ', "/ExtGState", ' ', "<<", ' ', b);
    Words4("/GS1", ' ', "6", ' ', "0", ' ', "R", ' ', rest);
    Digits();
    var front := [Word("<<")] + ([Word("/Font"), Word("<<"), Word("/F1"), Word("5")] + [Word("0"), Word("R")]
      + [Word(">>"), Word("/ExtGState"), Word("<<")]);
    KeyFound(front, "/GS1", 6, Tokens(rest));
    assert [Word("<<")] + Tokens("/Font << /F1 5 0 R " + (">> /ExtGState << " + b)) ==
           front + ([Word("/GS1"), Word("6"), Word("0"), Word("R")] + Tokens(rest));
  }

  /** The value behind a key that is one word. */
  function WordAt(tokens: seq<Token>, key: string): Option<string> {
    var found := AfterKey(tokens, key);
    if found != [] && found[0].Word? then Some(found[0].word) else None
  }

  lemma WordFound(front: seq<Token>, key: string, value: string, rest: seq<Token>)
    requires Word(key) !in front
    ensures WordAt(front + ([Word(key), Word(value)] + rest), key) == Some(value)
  {
    hide AfterKey;
    var found := [Word(value)] + rest;
    assert [Word(key), Word(value)] + rest == [Word(key)] + found;
    AfterSkips(front, [Word(key)] + found, key);
    AfterFound(found, key);
  }

  lemma OpacityRead(opacity: string, rest: string)
    requires SizeWord(opacity)
    ensures var tokens := Tokens("<< /Type /ExtGState " + ("/ca " + (opacity + (" " + ("/CA " + (opacity + (" " + rest)))))));
            WordAt(tokens, "/ca") == Some(opacity) && WordAt(tokens, "/CA") == Some(opacity)
  {
    hide Tokens, AfterKey, IsWord;
    Keywords();
    var b := "/CA " + (opacity + (" " + rest));
    var a := "/ca " + (opacity + (" " + b));
    assert "<< /Type /ExtGState " == "<<" + [' '] + "/Type" + [' '] + "/ExtGState" + [' '];
    Words3("<<", ' ', "/Type", ' ', "/ExtGState", ' ', a);
    assert a == "/ca" + [' '] + opacity + [' '] + b;
    Words2("/ca", ' ', opacity, ' ', b);
    assert b == "/CA" + [' '] + opacity + [' '] + rest;
    Words2("/CA", ' ', opacity, ' ', rest);
    var front := [Word("<<"), Word("/Type"), Word("/ExtGState")];
    WordFound(front, "/ca", opacity, [Word("/CA"), Word(opacity)] + Tokens(rest));
    WordFound(front + [Word("/ca"), Word(opacity)], "/CA", opacity, Tokens(rest));
    assert front + ([Word("/ca"), Word(opacity)] + ([Word("/CA"), Word(opacity)] + Tokens(rest)))
        == (front + [Word("/ca"), Word(opacity)]) + ([Word("/CA"), Word(opacity)] + Tokens(rest));
  }

  /** The same for a watermark, whose graphics state has the opacity asked for, for strokes and for fills. */
  lemma WatermarkOpens(width: string, height: string, opacity: string, data: string)
    requires SizeWord(width) && SizeWord(height) && SizeWord(opacity)
    requires |Body(MarkObjects(width, height, opacity, data))| < TEN_TO_10
    ensures var doc := Document(MarkObjects(width, height, opacity, data));
      && Opens(doc, width, height)
      && ReferenceAt(AfterKey(ObjectTokens(doc, 3), "/Resources"), "/F1") == Some(5)
      && ReferenceAt(AfterKey(ObjectTokens(doc, 3), "/Resources"), "/GS1") == Some(6)
      && WordAt(ObjectTokens(doc, 6), "/ca") == Some(opacity) && WordAt(ObjectTokens(doc, 6), "/CA") == Some(opacity)
  {
    hide Tokens, Document, Body, Page, PrintNat, ObjectTokens, Reference, AfterKey, Opens, Contents, WordAt;
    var objects := MarkObjects(width, height, opacity, data);
    var resources := "/Font << /F1 5 0 R >> /ExtGState << /GS1 6 0 R >>";
    var rest := DocumentOpens(objects, width, height, resources);
    ResourcesRead(" >> >>\nendobj\n" + rest);
    OpacityObject(objects, opacity);
  }

  lemma ResourcesRead(rest: string)
    ensures var tokens := [Word("<<")] + Tokens("/Font << /F1 5 0 R >> /ExtGState << /GS1 6 0 R >>" + rest);
      ReferenceAt(tokens, "/F1") == Some(5) && ReferenceAt(tokens, "/GS1") == Some(6)
  {
    hide Tokens, Reference, AfterKey;
    StateFound(">>" + rest);
    ResourceParts();
    Four("/Font << /F1 5 0 R ", ">> /ExtGState << ", "/GS1 6 0 R ", ">>", rest);
  }

  lemma ResourceParts()
    ensures "/Font << /F1 5 0 R >> /ExtGState << /GS1 6 0 R >>" == "/Font << /F1 5 0 R " + ">> /ExtGState << " + "/GS1 6 0 R " + ">>"
  {
  }

  lemma OpacityObject(objects: seq<string>, opacity: string)
    requires |objects| == 6 && |Body(objects)| < TEN_TO_10 && SizeWord(opacity)
    requires objects[5] == "6 0 obj\n" + "<< /Type /ExtGState /ca " + opacity + " /CA " + opacity + " >>\nendobj\n"
    ensures var doc := Document(objects);
      WordAt(ObjectTokens(doc, 6), "/ca") == Some(opacity) && WordAt(ObjectTokens(doc, 6), "/CA") == Some(opacity)
  {
    hide Tokens, Document, Body, PrintNat, ObjectTokens, AfterKey, WordAt;
    Digits();
    assert PrintNat(6) + " 0 obj\n" == "6 0 obj\n";
    var end := ">>\nendobj\n";
    OpacityParts(opacity, end);
    var body := "<< /Type /ExtGState " + ("/ca " + (opacity + (" " + ("/CA " + (opacity + (" " + end))))));
    var rest := ObjectRead(objects, 5, body);
    OpacityRead(opacity, end + rest);
    OpacityRest(opacity, end, rest);
  }

  lemma OpacityParts(opacity: string, end: string)
    requires end == ">>\nendobj\n"
    ensures "6 0 obj\n" + "<< /Type /ExtGState /ca " + opacity + " /CA " + opacity + " >>\nendobj\n" ==
            "6 0 obj\n" + ("<< /Type /ExtGState " + ("/ca " + (opacity + (" " + ("/CA " + (opacity + (" " + end)))))))
  {
    var a, head := "6 0 obj\n", "<< /Type /ExtGState /ca ";
    assert head == "<< /Type /ExtGState " + "/ca ";
    assert " /CA " == " " + "/CA " && " >>\nendobj\n" == " " + end;
    Regroup(a + head + opacity + " /CA ", opacity, " " + end);
    Regroup(a + head + opacity, " /CA ", opacity + (" " + end));
    Regroup(" ", "/CA ", opacity + (" " + end));
    Regroup(a + head, opacity, " /CA " + (opacity + (" " + end)));
    Regroup(a, head, opacity + (" /CA " + (opacity + (" " + end))));
    Regroup("<< /Type /ExtGState ", "/ca ", opacity + (" /CA " + (opacity + (" " + end))));
  }

  lemma OpacityRest(opacity: string, end: string, rest: string)
    ensures "<< /Type /ExtGState " + ("/ca " + (opacity + (" " + ("/CA " + (opacity + (" " + end)))))) + rest
         == "<< /Type /ExtGState " + ("/ca " + (opacity + (" " + ("/CA " + (opacity + (" " + (end + rest)))))))
  {
    Regroup(" ", end, rest);
    Regroup(opacity, " " + end, rest);
    Regroup("/CA ", opacity + (" " + end), rest);
    Regroup(" ", "/CA " + (opacity + (" " + end)), rest);
    Regroup(opacity, " " + ("/CA " + (opacity + (" " + end))), rest);
    Regroup("/ca ", opacity + (" " + ("/CA " + (opacity + (" " + end)))), rest);
    Regroup("<< /Type /ExtGState ", "/ca " + (opacity + (" " + ("/CA " + (opacity + (" " + end))))), rest);
  }

  // ---------------------------------------------------------------- the image

  lemma ImageResource(rest: string)
    ensures ReferenceAt([Word("<<")] + Tokens("/XObject << " + ("/Im1 5 0 R " + rest)), "/Im1") == Some(5)
  {
    hide Tokens, Reference, PrintNat, AfterKey, IsWord;
    Keywords();
    var b := "/Im1 5 0 R " + rest;
    assert "/XObject << " == "/XObject" + [' '] + "<<" + [' '];
    assert "/Im1 5 0 R " == "/Im1" + [' '] + "5" + [' '] + "0" + [' '] + "R" + [' '];
    Words2("/XObject", ' ', "<<", ' ', b);
    Words4("/Im1", ' ', "5", ' ', "0", ' ', "R", ' ', rest);
    Digits();
    KeyFound([Word("<<"), Word("/XObject"), Word("<<")], "/Im1", 5, Tokens(rest));
    assert [Word("<<")] + Tokens("/XObject << " + b) ==
           [Word("<<"), Word("/XObject"), Word("<<")] + ([Word("/Im1"), Word("5"), Word("0"), Word("R")] + Tokens(rest));
  }

  function SizeTokens(width: string, height: string): seq<Token> {
    [Word("<<"), Word("/Type"), Word("/XObject")] + [Word("/Subtype"), Word("/Image")]
    + ([Word("/Width"), Word(width)] + [Word("/Height"), Word(height)])
  }

  lemma SizesRead(width: string, height: string, rest: string)
    requires SizeWord(width) && SizeWord(height)
    ensures var tokens := Tokens("<< /Type /XObject " + ("/Subtype /Image " + ("/Width " + (width + (" " + ("/Height " + (height + (" " + rest))))))));
            && WordAt(tokens, "/Width") == Some(width) && WordAt(tokens, "/Height") == Some(height)
            && tokens == SizeTokens(width, height) + Tokens(rest)
  {
    hide Tokens, AfterKey, IsWord;
    Keywords();
    var c := "/Height " + (height + (" " + rest));
    var b := "/Width " + (width + (" " + c));
    var a := "/Subtype /Image " + b;
    assert "<< /Type /XObject " == "<<" + [' '] + "/Type" + [' '] + "/XObject" + [' '];
    assert "/Subtype /Image " == "/Subtype" + [' '] + "/Image" + [' '];
    assert b == "/Width" + [' '] + width + [' '] + c;
    assert c == "/Height" + [' '] + height + [' '] + rest;
    Words3("<<", ' ', "/Type", ' ', "/XObject", ' ', a);
    Words2("/Subtype", ' ', "/Image", ' ', b);
    Words2("/Width", ' ', width, ' ', c);
    Words2("/Height", ' ', height, ' ', rest);
    SizesFound([Word("<<"), Word("/Type"), Word("/XObject")] + [Word("/Subtype"), Word("/Image")], width, height, Tokens(rest));
    assert Tokens("<< /Type /XObject " + a) == [Word("<<"), Word("/Type"), Word("/XObject")] + [Word("/Subtype"), Word("/Image")]
      + ([Word("/Width"), Word(width)] + ([Word("/Height"), Word(height)] + Tokens(rest)));
  }

  lemma FormatWords()
    ensures IsWord("/ColorSpace") && IsWord("/DeviceRGB") && IsWord("/BitsPerComponent") && IsWord("8")
    ensures IsWord("/Filter") && IsWord("/FlateDecode") && IsWord("/Length")
  {
  }

  lemma ColorParts()
    ensures "/ColorSpace /DeviceRGB /BitsPerComponent 8 " == "/ColorSpace" + [' '] + "/DeviceRGB" + [' '] + "/BitsPerComponent" + [' '] + "8" + [' ']
  {
  }

  lemma FilterParts()
    ensures "/Filter /FlateDecode /Length " == "/Filter" + [' '] + "/FlateDecode" + [' '] + "/Length" + [' ']
  {
  }

  lemma FormatTokens(rest: string)
    ensures Tokens(IMAGE_FORMAT + rest) ==
            [Word("/ColorSpace"), Word("/DeviceRGB"), Word("/BitsPerComponent"), Word("8")]
            + [Word("/Filter"), Word("/FlateDecode"), Word("/Length")] + Tokens(rest)
  {
    hide Tokens, IsWord;
    var a, b := "/ColorSpace /DeviceRGB /BitsPerComponent 8 ", "/Filter /FlateDecode /Length ";
    FormatWords();
    ColorParts();
    FilterParts();
    Regroup(a, b, rest);
    Words4("/ColorSpace", ' ', "/DeviceRGB", ' ', "/BitsPerComponent", ' ', "8", ' ', b + rest);
    Words3("/Filter", ' ', "/FlateDecode", ' ', "/Length", ' ', rest);
  }

  lemma FormatFound(front: seq<Token>, tokens: seq<Token>, rest: seq<Token>)
    requires tokens == front + ([Word("/ColorSpace"), Word("/DeviceRGB"), Word("/BitsPerComponent"), Word("8")]
                                + [Word("/Filter"), Word("/FlateDecode"), Word("/Length")] + rest)
    requires Word("/ColorSpace") !in front && Word("/BitsPerComponent") !in front && Word("/Filter") !in front
    ensures WordAt(tokens, "/ColorSpace") == Some("/DeviceRGB") && WordAt(tokens, "/BitsPerComponent") == Some("8")
    ensures WordAt(tokens, "/Filter") == Some("/FlateDecode")
  {
    hide AfterKey, WordAt;
    var color, bits, filter := [Word("/ColorSpace"), Word("/DeviceRGB")], [Word("/BitsPerComponent"), Word("8")], [Word("/Filter"), Word("/FlateDecode")];
    var end := [Word("/Length")] + rest;
    WordFound(front, "/ColorSpace", "/DeviceRGB", bits + (filter + end));
    WordFound(front + color, "/BitsPerComponent", "8", filter + end);
    WordFound(front + color + bits, "/Filter", "/FlateDecode", end);
    assert tokens == front + (color + (bits + (filter + end)));
    assert tokens == (front + color) + (bits + (filter + end));
    assert tokens == (front + color + bits) + (filter + end);
  }

  lemma SizesFound(front: seq<Token>, width: string, height: string, rest: seq<Token>)
    requires Word("/Width") !in front && Word("/Height") !in front && SizeWord(width)
    ensures var tokens := front + ([Word("/Width"), Word(width)] + ([Word("/Height"), Word(height)] + rest));
            WordAt(tokens, "/Width") == Some(width) && WordAt(tokens, "/Height") == Some(height)
  {
    hide AfterKey, WordAt;
    WordFound(front, "/Width", width, [Word("/Height"), Word(height)] + rest);
    WordFound(front + [Word("/Width"), Word(width)], "/Height", height, rest);
    assert front + ([Word("/Width"), Word(width)] + ([Word("/Height"), Word(height)] + rest))
        == (front + [Word("/Width"), Word(width)]) + ([Word("/Height"), Word(height)] + rest);
  }

  lemma ImageParts(width: nat, height: nat)
    ensures ImageHead(width, height) ==
            "<< /Type /XObject " + ("/Subtype /Image " + ("/Width " + (PrintNat(width) + (" " + ("/Height " + (PrintNat(height) + (" " + IMAGE_FORMAT)))))))
  {
    hide PrintNat;
    var w, h := PrintNat(width), PrintNat(height);
    var head := "<< /Type /XObject /Subtype /Image /Width ";
    ImageLiterals();
    Regroup(head + w + " /Height " + h, " ", IMAGE_FORMAT);
    Regroup(head + w + " /Height ", h, " " + IMAGE_FORMAT);
    Regroup(head + w, " /Height ", h + (" " + IMAGE_FORMAT));
    Regroup(" ", "/Height ", h + (" " + IMAGE_FORMAT));
    Regroup(head, w, " /Height " + (h + (" " + IMAGE_FORMAT)));
    var more := w + (" " + ("/Height " + (h + (" " + IMAGE_FORMAT))));
    Regroup("<< /Type /XObject " + "/Subtype /Image ", "/Width ", more);
    Regroup("<< /Type /XObject ", "/Subtype /Image ", "/Width " + more);
  }

  lemma ImageLiterals()
    ensures "<< /Type /XObject /Subtype /Image /Width " == "<< /Type /XObject " + "/Subtype /Image " + "/Width "
    ensures " /Height " == " " + "/Height "
  {
  }

  /** The image is one of 8-bit colours, deflated. */
  predicate IsColorImage(tokens: seq<Token>) {
    && WordAt(tokens, "/ColorSpace") == Some("/DeviceRGB") && WordAt(tokens, "/BitsPerComponent") == Some("8")
    && WordAt(tokens, "/Filter") == Some("/FlateDecode")
  }

  /** The same for an image, whose page has its size, and whose dictionary says its width, its height and its format. */
  lemma ImageOpens(width: nat, height: nat, data: string)
    requires |Body(ImageObjects(width, height, data))| < TEN_TO_10
    ensures var doc := Document(ImageObjects(width, height, data));
      && Opens(doc, PrintNat(width), PrintNat(height))
      && ReferenceAt(AfterKey(ObjectTokens(doc, 3), "/Resources"), "/Im1") == Some(5)
      && WordAt(ObjectTokens(doc, 5), "/Width") == Some(PrintNat(width))
      && WordAt(ObjectTokens(doc, 5), "/Height") == Some(PrintNat(height))
      && IsColorImage(ObjectTokens(doc, 5))
  {
    hide Tokens, Document, Body, Page, PrintNat, ObjectTokens, Reference, AfterKey, Opens, Contents, WordAt, Image, Draw;
    var objects := ImageObjects(width, height, data);
    var resources := "/XObject << /Im1 5 0 R >>";
    NumberIsWord(width);
    NumberIsWord(height);
    var rest := DocumentOpens(objects, PrintNat(width), PrintNat(height), resources);
    ImageResource(">>" + (" >> >>\nendobj\n" + rest));
    assert resources == "/XObject << " + "/Im1 5 0 R " + ">>";
    Three("/XObject << ", "/Im1 5 0 R ", ">>", " >> >>\nendobj\n" + rest);
    ImageObject(objects, width, height, data);
  }

  lemma ImageObject(objects: seq<string>, width: nat, height: nat, data: string)
    requires |objects| == 5 && |Body(objects)| < TEN_TO_10 && objects[4] == Image(width, height, data)
    ensures var doc := Document(objects);
      && WordAt(ObjectTokens(doc, 5), "/Width") == Some(PrintNat(width))
      && WordAt(ObjectTokens(doc, 5), "/Height") == Some(PrintNat(height))
      && IsColorImage(ObjectTokens(doc, 5))
  {
    hide Tokens, Document, Body, PrintNat, ObjectTokens, AfterKey, WordAt, Image, ImageHead, IMAGE_FORMAT;
    NumberIsWord(width);
    NumberIsWord(height);
    Digits();
    var head := "5 0 obj\n";
    assert PrintNat(5) + " 0 obj\n" == head;
    var end := PrintNat(|data|) + " >>\nstream\n" + data + "\nendstream\nendobj\n";
    ImageEnd(width, height, data, end);
    var rest := ObjectRead(objects, 4, ImageHead(width, height) + end);
    ImageParts(width, height);
    Regroup(ImageHead(width, height), end, rest);
    SizesRead(PrintNat(width), PrintNat(height), IMAGE_FORMAT + (end + rest));
    HeadRest(PrintNat(width), PrintNat(height), end + rest);
    FormatTokens(end + rest);
    FormatFound(SizeTokens(PrintNat(width), PrintNat(height)), ObjectTokens(Document(objects), 5), Tokens(end + rest));
  }

  lemma ImageEnd(width: nat, height: nat, data: string, end: string)
    requires end == PrintNat(|data|) + " >>\nstream\n" + data + "\nendstream\nendobj\n"
    ensures Image(width, height, data) == "5 0 obj\n" + (ImageHead(width, height) + end)
  {
    hide ImageHead, PrintNat;
    Six("5 0 obj\n", ImageHead(width, height), PrintNat(|data|), " >>\nstream\n", data, "\nendstream\nendobj\n");
  }

  lemma Six(a: string, b: string, c: string, d: string, e: string, f: string)
    ensures a + b + c + d + e + f == a + (b + (c + d + e + f))
  {
    Regroup(a, b, c);
    Regroup(a, b + c, d);
    Regroup(b, c, d);
    Regroup(a, b + (c + d), e);
    Regroup(b, c + d, e);
    Regroup(a, b + (c + d + e), f);
    Regroup(b, c + d + e, f);
  }

  lemma HeadRest(w: string, h: string, rest: string)
    ensures "<< /Type /XObject " + ("/Subtype /Image " + ("/Width " + (w + (" " + ("/Height " + (h + (" " + IMAGE_FORMAT))))))) + rest
         == "<< /Type /XObject " + ("/Subtype /Image " + ("/Width " + (w + (" " + ("/Height " + (h + (" " + (IMAGE_FORMAT + rest))))))))
  {
    var b := "/Height " + (h + (" " + IMAGE_FORMAT));
    var a := "/Width " + (w + (" " + b));
    Regroup(" ", IMAGE_FORMAT, rest);
    Regroup(h, " " + IMAGE_FORMAT, rest);
    Regroup("/Height ", h + (" " + IMAGE_FORMAT), rest);
    Regroup(" ", b, rest);
    Regroup(w, " " + b, rest);
    Regroup("/Width ", w + (" " + b), rest);
    Regroup("/Subtype /Image ", a, rest);
    Regroup("<< /Type /XObject ", "/Subtype /Image " + a, rest);
  }
}
