/** Characters and lines as the interceptor's JavaScript string methods see them. */
module Text {

  /** White space for `String.prototype.trim` and for `\s` in a regular expression. */
  predicate IsSpace(c: char) {
    || '\t' <= c <= '\r'
    || c == ' ' || c == '\U{A0}' || c == '\U{1680}'
    || '\U{2000}' <= c <= '\U{200A}'
    || c == '\U{2028}' || c == '\U{2029}' || c == '\U{202F}' || c == '\U{205F}' || c == '\U{3000}' || c == '\U{FEFF}'
  }

  /** The characters a `.` in a regular expression does not match. */
  predicate IsLineEnd(c: char) {
    c == '\n' || c == '\r' || c == '\U{2028}' || c == '\U{2029}'
  }

  /** No character of `s` ends a line. */
  predicate OneLine(s: string) {
    forall i :: 0 <= i < |s| ==> !IsLineEnd(s[i])
  }

  predicate NoNewline(s: string) {
    forall i :: 0 <= i < |s| ==> s[i] != '\n'
  }

  /** `s` is not empty and trimming would leave it alone. */
  predicate Trimmed(s: string) {
    s != "" && !IsSpace(s[0]) && !IsSpace(s[|s| - 1])
  }

  function TrimStart(s: string): (r: string)
    ensures |r| <= |s|
    ensures r != "" ==> !IsSpace(r[0])
  {
    if s != "" && IsSpace(s[0]) then TrimStart(s[1..]) else s
  }

  function TrimEnd(s: string): (r: string)
    ensures r <= s
    ensures r != "" ==> !IsSpace(r[|r| - 1])
  {
    if s != "" && IsSpace(s[|s| - 1]) then TrimEnd(s[..|s| - 1]) else s
  }

  function Trim(s: string): (r: string)
    ensures r == "" || Trimmed(r)
  {
    TrimEnd(TrimStart(s))
  }

  predicate StartsWith(s: string, prefix: string) {
    prefix <= s
  }

  function Last<T>(s: seq<T>): T
    requires s != []
  {
    s[|s| - 1]
  }

  function Init<T>(s: seq<T>): seq<T>
    requires s != []
  {
    s[..|s| - 1]
  }

  /** The lines of a text whose tail has the lines `rest`, with the character `c` in front. */
  function PutInFront(c: char, rest: seq<string>): (lines: seq<string>)
    requires rest != []
    ensures lines != []
  {
    if c == '\n' then [""] + rest else [[c] + rest[0]] + rest[1..]
  }

  /** `s.split('\n')`: the pieces between the newlines; there is always at least one. */
  function Split(s: string): (lines: seq<string>)
    ensures lines != []
  {
    if s == "" then [""]
    else PutInFront(s[0], Split(s[1..]))
  }

  function Flatten(pieces: seq<string>): string {
    if pieces == [] then "" else pieces[0] + Flatten(pieces[1..])
  }

  lemma {:induction false} FlattenAppend(a: seq<string>, b: seq<string>)
    ensures Flatten(a + b) == Flatten(a) + Flatten(b)
  {
    if a == [] {
      assert a + b == b;
    } else {
      assert (a + b)[1..] == a[1..] + b;
      FlattenAppend(a[1..], b);
    }
  }

  lemma SplitCons(c: char, s: string)
    ensures Split([c] + s) == PutInFront(c, Split(s))
  {
    assert ([c] + s)[1..] == s;
  }

  /** Splitting `a + b` is splitting `a`, then going on from its unfinished last line. */
  lemma {:induction false} SplitAppend(a: string, b: string)
    ensures Split(a + b) == Init(Split(a)) + Split(Last(Split(a)) + b)
  {
    if a == "" {
      assert a + b == b;
      assert Split(a) == [""] && "" + b == b;
    } else {
      var c, tail := a[0], a[1..];
      assert a == [c] + tail && a + b == [c] + (tail + b);
      SplitAppend(tail, b);
      SplitCons(c, tail);
      SplitCons(c, tail + b);
      SplitAppendCons(c, Split(tail), b);
    }
  }

  /** The step of `SplitAppend`: a character in front of a text already split into `rest`. */
  lemma SplitAppendCons(c: char, rest: seq<string>, b: string)
    requires rest != []
    ensures var lines := PutInFront(c, rest);
      Init(lines) + Split(Last(lines) + b) == PutInFront(c, Init(rest) + Split(Last(rest) + b))
  {
    hide Split;
    if c == '\n' {
      PutNewline(rest, Split(Last(rest) + b));
    } else if |rest| == 1 {
      PutInOnlyLine(c, rest[0], b);
      assert rest == [rest[0]];
    } else {
      PutInFirstLine(c, rest, Split(Last(rest) + b));
    }
  }

  lemma PutNewline(rest: seq<string>, end: seq<string>)
    requires rest != [] && end != []
    ensures Last(PutInFront('\n', rest)) == Last(rest)
    ensures Init(PutInFront('\n', rest)) + end == PutInFront('\n', Init(rest) + end)
  {
    assert Init([""] + rest) == [""] + Init(rest);
  }

  lemma PutInOnlyLine(c: char, line: string, b: string)
    requires c != '\n'
    ensures Init(PutInFront(c, [line])) + Split(Last(PutInFront(c, [line])) + b) == PutInFront(c, Init([line]) + Split(line + b))
  {
    SplitCons(c, line + b);
    assert ([c] + line) + b == [c] + (line + b);
    assert Init([line]) + Split(line + b) == Split(line + b);
    assert PutInFront(c, [line]) == [[c] + line];
    assert Init([[c] + line]) + Split([c] + (line + b)) == Split([c] + (line + b));
  }

  lemma PutInFirstLine(c: char, rest: seq<string>, end: seq<string>)
    requires c != '\n' && |rest| > 1 && end != []
    ensures Last(PutInFront(c, rest)) == Last(rest)
    ensures Init(PutInFront(c, rest)) + end == PutInFront(c, Init(rest) + end)
  {
    assert Init([[c] + rest[0]] + rest[1..]) == [[c] + rest[0]] + Init(rest)[1..];
  }

  lemma {:induction false} SplitOneLine(s: string)
    requires NoNewline(s)
    ensures Split(s) == [s]
  {
    if s != "" {
      SplitOneLine(s[1..]);
      assert [s[0]] + s[1..] == s;
    }
  }

  /** The unfinished last line holds no newline. */
  lemma {:induction false} SplitLastOneLine(s: string)
    ensures Split(Last(Split(s))) == [Last(Split(s))]
  {
    SplitHasNoNewline(s);
    SplitOneLine(Last(Split(s)));
  }

  lemma {:induction false} SplitHasNoNewline(s: string)
    ensures forall k :: 0 <= k < |Split(s)| ==> NoNewline(Split(s)[k])
  {
    if s != "" {
      SplitHasNoNewline(s[1..]);
    }
  }

  /** One finished line in front of a text is the first piece of its split. */
  lemma {:induction false} SplitLine(line: string, rest: string)
    requires NoNewline(line)
    ensures Split(line + "\n" + rest) == [line] + Split(rest)
  {
    if line == "" {
      assert ("" + "\n" + rest)[1..] == rest;
    } else {
      assert (line + "\n" + rest)[1..] == line[1..] + "\n" + rest;
      SplitLine(line[1..], rest);
      assert [line[0]] + line[1..] == line;
    }
  }

  lemma SplitTwoLines(a: string, b: string, rest: string)
    requires NoNewline(a) && NoNewline(b)
    ensures Split(a + "\n" + (b + "\n" + rest)) == [a, b] + Split(rest)
    ensures Init(Split(a + "\n" + (b + "\n" + rest))) == [a, b] + Init(Split(rest))
  {
    SplitLine(a, b + "\n" + rest);
    SplitLine(b, rest);
    assert [a] + ([b] + Split(rest)) == [a, b] + Split(rest);
  }

  lemma TrimTrimmed(s: string)
    requires Trimmed(s)
    ensures Trim(s) == s
  {
  }

  lemma {:induction false} StartLacksNothing(s: string)
    ensures TrimStart(s) != "" <==> exists i :: 0 <= i < |s| && !IsSpace(s[i])
  {
    if s != "" && IsSpace(s[0]) {
      StartLacksNothing(s[1..]);
      if i :| 0 <= i < |s| && !IsSpace(s[i]) {
        assert s[1..][i - 1] == s[i];
      }
    }
  }

  lemma {:induction false} EndLacksNothing(s: string)
    ensures TrimEnd(s) != "" <==> exists i :: 0 <= i < |s| && !IsSpace(s[i])
  {
    if s != "" && IsSpace(s[|s| - 1]) {
      EndLacksNothing(s[..|s| - 1]);
      if i :| 0 <= i < |s| && !IsSpace(s[i]) {
        assert s[..|s| - 1][i] == s[i];
      }
    } else if s != "" {
      assert !IsSpace(s[|s| - 1]);
    }
  }

  /** Trimming leaves something exactly when there is a character that is no white space. */
  lemma TrimmedAway(s: string)
    ensures Trim(s) != "" <==> exists i :: 0 <= i < |s| && !IsSpace(s[i])
  {
    hide IsSpace;
    StartLacksNothing(s);
    EndLacksNothing(TrimStart(s));
    if TrimStart(s) != "" {
      assert !IsSpace(TrimStart(s)[0]);
    }
  }
}
