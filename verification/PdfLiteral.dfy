/** PDF literal strings: escaping text, and reading it back as section 7.3.4.2 of ISO 32000-1 prescribes. */
module PdfLiteral {
  import opened Options
  import opened Text
  import opened Json

  function Replace(s: string, c: char, with: string): string {
    if s == "" then "" else (if s[0] == c then with else [s[0]]) + Replace(s[1..], c, with)
  }

  /** The three replacements, one after the other. */
  function PdfEscape(text: string): string {
    Replace(Replace(Replace(text, '\\', "\\\\"), '(', "\\("), ')', "\\)")
  }

  predicate Special(c: char) {
    c == '\\' || c == '(' || c == ')'
  }

  function EscapeOne(c: char): string {
    if Special(c) then ['\\', c] else [c]
  }

  function OnePass(text: string): string {
    if text == "" then "" else EscapeOne(text[0]) + OnePass(text[1..])
  }

  lemma {:induction false} ReplaceAppend(a: string, b: string, c: char, with: string)
    ensures Replace(a + b, c, with) == Replace(a, c, with) + Replace(b, c, with)
  {
    if a == "" {
      assert a + b == b;
    } else {
      assert (a + b)[1..] == a[1..] + b;
      ReplaceAppend(a[1..], b, c, with);
    }
  }

  lemma ReplaceOne(c: char)
    ensures Replace(Replace(Replace([c], '\\', "\\\\"), '(', "\\("), ')', "\\)") == EscapeOne(c)
  {
    assert Replace("", '\\', "\\\\") == "";
    var one := Replace([c], '\\', "\\\\");
    assert [c][1..] == "" && Replace("", '(', "\\(") == "" && Replace("", ')', "\\)") == "";
    assert one == if c == '\\' then "\\\\" else [c];
    if c == '\\' {
      assert one[1..] == "\\";
      assert Replace("\\", '(', "\\(") == "\\" && Replace("\\", ')', "\\)") == "\\";
    } else if c == '(' {
      assert Replace(one, '(', "\\(") == "\\(";
      assert "\\("[1..] == "(" && Replace("(", ')', "\\)") == "(";
    } else {
      assert Replace(one, '(', "\\(") == one;
    }
  }

  /** Replacing backslashes first makes the three passes one: no character is escaped twice. */
  lemma {:induction false} EscapesInOnePass(text: string)
    ensures PdfEscape(text) == OnePass(text)
  {
    if text != "" {
      var a, b := [text[0]], text[1..];
      assert text == a + b;
      EscapesInOnePass(b);
      ReplaceOne(text[0]);
      ReplaceAppend(a, b, '\\', "\\\\");
      ReplaceAppend(Replace(a, '\\', "\\\\"), Replace(b, '\\', "\\\\"), '(', "\\(");
      ReplaceAppend(Replace(Replace(a, '\\', "\\\\"), '(', "\\("), Replace(Replace(b, '\\', "\\\\"), '(', "\\("), ')', "\\)");
    }
  }

  // ---------------------------------------------------------------- the reader

  predicate IsOctal(c: char) {
    '0' <= c <= '7'
  }

  /** How many octal digits, three at most, stand at the front. */
  function OctalRun(s: string): (n: nat)
    ensures n <= 3 && n <= |s| && forall i :: 0 <= i < n ==> IsOctal(s[i])
  {
    if s == "" || !IsOctal(s[0]) then 0
    else if |s| == 1 || !IsOctal(s[1]) then 1
    else if |s| == 2 || !IsOctal(s[2]) then 2
    else 3
  }

  function OctalDigit(c: char): nat
    requires IsOctal(c)
  {
    c as int - '0' as int
  }

  function OctalValue(s: string): nat
    requires forall i :: 0 <= i < |s| ==> IsOctal(s[i])
  {
    if s == "" then 0 else 8 * OctalValue(Init(s)) + OctalDigit(Last(s))
  }

  /** The end of line at the front, which counts as one line feed. */
  function LineEnd(s: string): (n: nat)
    ensures n <= |s|
  {
    if StartsWith(s, "\r\n") then 2
    else if s != "" && (s[0] == '\r' || s[0] == '\n') then 1
    else 0
  }

  function Prepend(c: char, p: Parsed<string>): Parsed<string> {
    match p
    case Fail => Fail
    case Got(v, rest) => Got([c] + v, rest)
  }

  /** Read a literal string whose opening parenthesis has been consumed, `depth` unescaped parentheses deep. */
  function ReadLiteral(s: string, depth: nat): (r: Parsed<string>)
    ensures r.Got? ==> |r.rest| < |s|
    decreases |s|
  {
    if s == "" then Fail
    else if s[0] == ')' then if depth == 0 then Got("", s[1..]) else Prepend(')', ReadLiteral(s[1..], depth - 1))
    else if s[0] == '(' then Prepend('(', ReadLiteral(s[1..], depth + 1))
    else if s[0] == '\\' then
      if |s| == 1 then Fail
      else if OctalRun(s[1..]) > 0 then
        var n := OctalRun(s[1..]);
        Prepend((OctalValue(s[1..1 + n]) % 256) as char, ReadLiteral(s[1 + n..], depth))
      else if LineEnd(s[1..]) > 0 then ReadLiteral(s[1 + LineEnd(s[1..])..], depth)
      else Prepend(Unescaped(s[1]), ReadLiteral(s[2..], depth))
    else if LineEnd(s) > 0 then Prepend('\n', ReadLiteral(s[LineEnd(s)..], depth))
    else Prepend(s[0], ReadLiteral(s[1..], depth))
  }

  function Unescaped(c: char): char {
    match c
    case 'n' => '\n'
    case 'r' => '\r'
    case 't' => '\t'
    case 'b' => 8 as char
    case 'f' => 12 as char
    case _ => c
  }

  /** The text with every end of line turned into a line feed. */
  function Normalized(text: string): string {
    if text == "" then ""
    else if LineEnd(text) > 0 then "\n" + Normalized(text[LineEnd(text)..])
    else [text[0]] + Normalized(text[1..])
  }

  lemma OnePassTail(text: string, rest: string)
    requires text != ""
    ensures OnePass(text) + rest == EscapeOne(text[0]) + (OnePass(text[1..]) + rest)
  {
  }

  lemma ReadSpecial(c: char, more: string)
    requires Special(c)
    ensures ReadLiteral(EscapeOne(c) + more, 0) == Prepend(c, ReadLiteral(more, 0))
  {
    var s := EscapeOne(c) + more;
    assert s[0] == '\\' && s[1] == c && s[2..] == more;
    assert s[1..][0] == c;
  }

  lemma ReadPlain(c: char, more: string)
    requires !Special(c) && c != '\r' && c != '\n'
    ensures ReadLiteral(EscapeOne(c) + more, 0) == Prepend(c, ReadLiteral(more, 0))
  {
    var s := EscapeOne(c) + more;
    assert s[0] == c && s[1..] == more;
  }

  lemma ReadEnd(text: string, more: string)
    requires LineEnd(text) > 0
    requires LineEnd(OnePass(text) + more) == LineEnd(text)
    requires (OnePass(text) + more)[LineEnd(text)..] == OnePass(text[LineEnd(text)..]) + more
    ensures ReadLiteral(OnePass(text) + more, 0) ==
            Prepend('\n', ReadLiteral(OnePass(text[LineEnd(text)..]) + more, 0))
  {
    var s := OnePass(text) + more;
    assert s[0] == '\r' || s[0] == '\n';
  }

  lemma EndOfEscaped(text: string, more: string)
    requires LineEnd(text) > 0 && (more == "" || more[0] == ')')
    ensures LineEnd(OnePass(text) + more) == LineEnd(text)
    ensures (OnePass(text) + more)[LineEnd(text)..] == OnePass(text[LineEnd(text)..]) + more
  {
    var s := OnePass(text) + more;
    OnePassTail(text, more);
    assert s[1..] == OnePass(text[1..]) + more;
    if |text| > 1 {
      OnePassTail(text[1..], more);
      assert s[1] == EscapeOne(text[1])[0];
      if LineEnd(text) == 2 {
        assert s[2..] == s[1..][1..] == OnePass(text[1..][1..]) + more;
        assert text[1..][1..] == text[2..];
        assert s[..2] == "\r\n";
      }
    } else {
      assert OnePass(text[1..]) == "";
      assert s[1..] == more;
    }
  }

  /** An escaped text between parentheses reads back as the text with its line ends normalised. */
  lemma {:induction false} LiteralReadsBack(text: string, rest: string)
    ensures ReadLiteral(OnePass(text) + (")" + rest), 0) == Got(Normalized(text), rest)
    decreases |text|
  {
    var more := ")" + rest;
    if text == "" {
      assert OnePass(text) + more == more && more[1..] == rest;
    } else if LineEnd(text) > 0 {
      EndOfEscaped(text, more);
      ReadEnd(text, more);
      LiteralReadsBack(text[LineEnd(text)..], rest);
    } else {
      OnePassTail(text, more);
      LiteralReadsBack(text[1..], rest);
      if Special(text[0]) {
        ReadSpecial(text[0], OnePass(text[1..]) + more);
      } else {
        ReadPlain(text[0], OnePass(text[1..]) + more);
      }
    }
  }

  lemma {:induction false} NormalizedShorter(text: string)
    ensures |Normalized(text)| <= |text|
    ensures Normalized(text) == text <==> '\r' !in text
    decreases |text|
  {
    if text != "" {
      var n := LineEnd(text);
      if n == 2 {
        NormalizedShorter(text[2..]);
        assert text[0] == '\r';
      } else {
        NormalizedShorter(text[1..]);
        assert text == [text[0]] + text[1..];
        if n == 1 && text[0] == '\r' {
          assert Normalized(text)[0] == '\n';
        } else {
          assert Normalized(text) == [text[0]] + Normalized(text[1..]);
          assert Normalized(text)[1..] == Normalized(text[1..]);
        }
      }
    }
  }

  /** Escaped text reads back exactly when it has no carriage return. */
  lemma TextSurvives(text: string, rest: string)
    ensures ReadLiteral(PdfEscape(text) + (")" + rest), 0) == Got(text, rest) <==> '\r' !in text
  {
    EscapesInOnePass(text);
    LiteralReadsBack(text, rest);
    NormalizedShorter(text);
  }
}
