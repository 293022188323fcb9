/** What every segment of a page range means, well formed or not. */
module PageRangeLaws {
  import opened Options
  import opened Text
  import opened PageRange
  import Json

  // ---------------------------------------------------------------- white space

  /** The white space that `strip` removes, and the part of it that `int` ignores. */
  const STRIPPED := "\t\n\U{B}\U{C}\r\U{1C}\U{1D}\U{1E}\U{1F} "
  const IGNORED := "\t\n\U{B}\U{C}\r "

  lemma SpacesAre(c: char)
    ensures StripSpace(c) <==> c in STRIPPED
    ensures IntSpace(c) <==> c in IGNORED
  {
    assert STRIPPED[0] == 9 as char && STRIPPED[1] == 10 as char && STRIPPED[2] == 11 as char && STRIPPED[3] == 12 as char;
    assert STRIPPED[4] == 13 as char && STRIPPED[5] == 28 as char && STRIPPED[6] == 29 as char && STRIPPED[7] == 30 as char;
    assert STRIPPED[8] == 31 as char && STRIPPED[9] == 32 as char;
    assert IGNORED[0] == 9 as char && IGNORED[1] == 10 as char && IGNORED[2] == 11 as char && IGNORED[3] == 12 as char;
    assert IGNORED[4] == 13 as char && IGNORED[5] == 32 as char;
  }

  predicate Among(s: string, blanks: string) {
    forall i :: 0 <= i < |s| ==> s[i] in blanks
  }

  ghost predicate AllAre(s: string, space: char -> bool) {
    forall i :: 0 <= i < |s| ==> space(s[i])
  }

  lemma {:induction false} DropsStart(blank: string, s: string, space: char -> bool)
    requires AllAre(blank, space) && s != "" && !space(s[0])
    ensures DropStart(blank + s, space) == s
  {
    if blank == "" {
      assert blank + s == s;
    } else {
      assert (blank + s)[1..] == blank[1..] + s;
      DropsStart(blank[1..], s, space);
    }
  }

  lemma {:induction false} DropsEnd(s: string, blank: string, space: char -> bool)
    requires AllAre(blank, space) && s != "" && !space(Last(s))
    ensures DropEnd(s + blank, space) == s
  {
    if blank == "" {
      assert s + blank == s;
    } else {
      assert Init(s + blank) == s + Init(blank) && Last(s + blank) == Last(blank);
      DropsEnd(s, Init(blank), space);
    }
  }

  lemma DropsBoth(before: string, s: string, after: string, space: char -> bool)
    requires AllAre(before, space) && AllAre(after, space) && s != "" && !space(s[0]) && !space(Last(s))
    ensures DropEnd(DropStart(before + s + after, space), space) == s
  {
    assert before + s + after == before + (s + after);
    DropsStart(before, s + after, space);
    DropsEnd(s, after, space);
  }

  /** Only the white space at both ends goes. */
  lemma StripMeans(before: string, s: string, after: string)
    requires Among(before, STRIPPED) && Among(after, STRIPPED) && s != "" && s[0] !in STRIPPED && Last(s) !in STRIPPED
    ensures Strip(before + s + after) == s
  {
    hide StripSpace;
    forall c { SpacesAre(c); }
    DropsBoth(before, s, after, StripSpace);
  }

  // ---------------------------------------------------------------- numbers

  /** Groups of digits, none empty. */
  predicate Groups(groups: seq<string>) {
    groups != [] && forall i :: 0 <= i < |groups| ==> groups[i] != "" && Digits(groups[i])
  }

  predicate Digits(s: string) {
    forall i :: 0 <= i < |s| ==> '0' <= s[i] <= '9'
  }

  /** The groups with one underscore between each two. */
  function Underscored(groups: seq<string>): string
    requires groups != []
  {
    if |groups| == 1 then groups[0] else groups[0] + "_" + Underscored(groups[1..])
  }

  lemma {:induction false} GroupsAreNumeral(groups: seq<string>)
    requires Groups(groups)
    ensures Numeral(Underscored(groups))
  {
    if |groups| > 1 {
      var rest := Underscored(groups[1..]);
      GroupsAreNumeral(groups[1..]);
      var s := groups[0] + "_" + rest;
      assert Last(s) == Last(rest);
      forall i | 0 <= i < |s| ensures Json.IsDigit(s[i]) || s[i] == '_' {
        if i > |groups[0]| {
          assert s[i] == rest[i - |groups[0]| - 1];
        }
      }
      forall i | 0 <= i < |s| - 1 ensures s[i] != '_' || s[i + 1] != '_' {
        if i > |groups[0]| {
          assert s[i] == rest[i - |groups[0]| - 1] && s[i + 1] == rest[i - |groups[0]|];
        }
      }
    }
  }

  lemma {:induction false} NumeralHasGroups(s: string) returns (groups: seq<string>)
    requires Numeral(s)
    ensures Groups(groups) && Underscored(groups) == s
  {
    if '_' !in s {
      groups := [s];
    } else {
      var k :| 0 <= k < |s| && s[k] == '_';
      k := FirstUnderscore(s);
      var rest := s[k + 1..];
      assert Last(rest) == Last(s) && rest[0] == s[k + 1];
      assert Numeral(rest) by {
        assert forall i :: 0 <= i < |rest| ==> rest[i] == s[k + 1 + i];
      }
      var more := NumeralHasGroups(rest);
      groups := [s[..k]] + more;
      assert groups[1..] == more && s == s[..k] + "_" + rest;
    }
  }

  lemma {:induction false} FirstUnderscore(s: string) returns (k: nat)
    requires '_' in s
    ensures k < |s| && s[k] == '_' && forall i :: 0 <= i < k ==> s[i] != '_'
  {
    if s[0] == '_' {
      k := 0;
    } else {
      k := FirstUnderscore(s[1..]);
      assert s == [s[0]] + s[1..];
      k := k + 1;
    }
  }

  lemma {:induction false} WithoutAppend(a: string, b: string)
    requires forall i :: 0 <= i < |a + b| ==> Json.IsDigit((a + b)[i]) || (a + b)[i] == '_'
    requires forall i :: 0 <= i < |a| ==> Json.IsDigit(a[i]) || a[i] == '_'
    requires forall i :: 0 <= i < |b| ==> Json.IsDigit(b[i]) || b[i] == '_'
    ensures WithoutUnderscores(a + b) == WithoutUnderscores(a) + WithoutUnderscores(b)
  {
    if a == "" {
      assert a + b == b;
    } else {
      assert (a + b)[1..] == a[1..] + b;
      WithoutAppend(a[1..], b);
    }
  }

  predicate DigitsAndUnderscores(s: string) {
    forall i :: 0 <= i < |s| ==> Json.IsDigit(s[i]) || s[i] == '_'
  }

  lemma JoinedWithout(digits: string, rest: string)
    requires Digits(digits) && DigitsAndUnderscores(rest)
    ensures DigitsAndUnderscores(digits + "_" + rest)
    ensures WithoutUnderscores(digits + "_" + rest) == digits + WithoutUnderscores(rest)
  {
    NoUnderscores(digits);
    assert digits + "_" + rest == digits + ("_" + rest);
    assert DigitsAndUnderscores("_" + rest) && DigitsAndUnderscores(digits);
    WithoutAppend(digits, "_" + rest);
    assert ("_" + rest)[1..] == rest;
  }

  lemma {:induction false} WithoutIsFlat(groups: seq<string>)
    requires Groups(groups)
    ensures DigitsAndUnderscores(Underscored(groups)) && WithoutUnderscores(Underscored(groups)) == Flatten(groups)
  {
    hide WithoutUnderscores, DigitsAndUnderscores, Digits;
    if |groups| == 1 {
      OneGroup(groups[0]);
      assert groups == [groups[0]] && Flatten(groups) == groups[0];
    } else {
      assert Groups(groups[1..]);
      WithoutIsFlat(groups[1..]);
      JoinedWithout(groups[0], Underscored(groups[1..]));
    }
  }

  lemma OneGroup(digits: string)
    requires Digits(digits)
    ensures DigitsAndUnderscores(digits) && WithoutUnderscores(digits) == digits && Flatten([digits]) == digits
  {
    NoUnderscores(digits);
    assert [digits][1..] == [] && Flatten([]) == "";
  }

  /** A number: white space, a sign or none, groups of digits with single underscores between them, white space. */
  ghost predicate NumberText(s: string, before: string, sign: string, groups: seq<string>, after: string) {
    && Among(before, IGNORED) && Among(after, IGNORED) && sign in ["", "+", "-"] && Groups(groups)
    && s == before + (sign + Underscored(groups)) + after
  }

  lemma NumeralEnds(s: string)
    requires Numeral(s)
    ensures s != "" && !IntSpace(s[0]) && !IntSpace(Last(s)) && s[0] != '-' && s[0] != '+'
  {
  }

  /** Such a text is read as the number its digits give. */
  lemma IntReads(s: string, before: string, sign: string, groups: seq<string>, after: string)
    requires NumberText(s, before, sign, groups, after)
    ensures Digits(Flatten(groups))
    ensures Int(s) == Some(if sign == "-" then -(Json.DecimalValue(Flatten(groups)) as int) else Json.DecimalValue(Flatten(groups)))
  {
    hide IntSpace, Numeral, Int, Underscored, NumeralValue, Digits, WithoutUnderscores, DigitsAndUnderscores;
    var digits := Underscored(groups);
    NumeralOf(groups);
    NumberStripped(s, before, sign, groups, after);
    FlatDigits(groups);
    IntOf(s, sign + digits);
    SignThen(sign, digits);
  }

  lemma SignThen(sign: string, digits: string)
    requires sign in ["", "+", "-"] && digits != ""
    ensures sign != "" ==> (sign + digits)[0] == sign[0] && (sign + digits)[1..] == digits
    ensures sign == "" ==> sign + digits == digits
  {
  }

  lemma NumeralOf(groups: seq<string>)
    requires Groups(groups)
    ensures var digits := Underscored(groups);
      && digits != "" && digits[0] != '-' && digits[0] != '+' && !IntSpace(digits[0]) && !IntSpace(Last(digits))
      && Digits(Flatten(groups)) && NumeralValue(digits) == Some(Json.DecimalValue(Flatten(groups)))
  {
    hide IntSpace, Numeral, WithoutUnderscores;
    GroupsAreNumeral(groups);
    NumeralEnds(Underscored(groups));
    WithoutIsFlat(groups);
    FlatDigits(groups);
  }

  lemma NumberStripped(s: string, before: string, sign: string, groups: seq<string>, after: string)
    requires NumberText(s, before, sign, groups, after)
    ensures DropEnd(DropStart(s, IntSpace), IntSpace) == sign + Underscored(groups)
  {
    hide IntSpace, Numeral, Underscored, NumeralValue;
    var t := sign + Underscored(groups);
    NumeralOf(groups);
    SignsAreNone();
    AmongIgnored(before);
    AmongIgnored(after);
    assert t != "" && !IntSpace(t[0]) && Last(t) == Last(Underscored(groups));
    DropsBoth(before, t, after, IntSpace);
  }

  lemma AmongIgnored(s: string)
    ensures Among(s, IGNORED) <==> AllAre(s, IntSpace)
  {
    hide IntSpace;
    forall i | 0 <= i < |s| ensures s[i] in IGNORED <==> IntSpace(s[i]) {
      SpacesAre(s[i]);
    }
  }

  /** What `int` makes of what is left between the white space. */
  lemma IntOf(s: string, t: string)
    requires DropEnd(DropStart(s, IntSpace), IntSpace) == t
    ensures t != "" && t[0] == '-' ==>
              Int(s) == if NumeralValue(t[1..]).Some? then Some(-(NumeralValue(t[1..]).value as int)) else None
    ensures t != "" && t[0] == '+' ==> Int(s) == NumeralValue(t[1..])
    ensures t == "" || (t[0] != '-' && t[0] != '+') ==> Int(s) == NumeralValue(t)
  {
    hide NumeralValue, DropStart, DropEnd;
  }

  lemma SignsAreNone()
    ensures !IntSpace('-') && !IntSpace('+')
  {
  }

  lemma {:induction false} FlatDigits(groups: seq<string>)
    requires forall i :: 0 <= i < |groups| ==> Digits(groups[i])
    ensures Digits(Flatten(groups))
  {
    if groups != [] {
      FlatDigits(groups[1..]);
    }
  }

  lemma {:induction false} StartDropped(s: string, space: char -> bool) returns (before: string)
    ensures s == before + DropStart(s, space) && AllAre(before, space)
  {
    before := "";
    if s != "" && space(s[0]) {
      var more := StartDropped(s[1..], space);
      before := [s[0]] + more;
      assert s == [s[0]] + s[1..];
    }
  }

  lemma {:induction false} EndDropped(s: string, space: char -> bool) returns (after: string)
    ensures s == DropEnd(s, space) + after && AllAre(after, space)
  {
    after := "";
    if s != "" && space(Last(s)) {
      var more := EndDropped(Init(s), space);
      after := more + [Last(s)];
      assert s == Init(s) + [Last(s)];
    }
  }

  /** No other text is read as a number. */
  lemma IntReadsOnly(s: string) returns (before: string, sign: string, groups: seq<string>, after: string)
    requires Int(s).Some?
    ensures NumberText(s, before, sign, groups, after)
  {
    hide IntSpace, Numeral, Int, DropStart, DropEnd, Underscored, Groups;
    before := StartDropped(s, IntSpace);
    var t := DropStart(s, IntSpace);
    after := EndDropped(t, IntSpace);
    var u := DropEnd(t, IntSpace);
    AmongIgnored(before);
    AmongIgnored(after);
    IntOf(s, u);
    sign := if u != "" && (u[0] == '-' || u[0] == '+') then [u[0]] else "";
    var digits := if sign == "" then u else u[1..];
    groups := NumeralHasGroups(digits);
    assert u == sign + digits;
    Three(before, u, after, s, t);
  }

  lemma Three(before: string, u: string, after: string, s: string, t: string)
    requires s == before + t && t == u + after
    ensures s == before + u + after
  {
  }

  // ---------------------------------------------------------------- segments

  /** A segment without a hyphen: a page of the document, or an error that says what is wrong. */
  lemma PageVerdict(raw: string, total: int)
    requires '-' !in Strip(raw)
    ensures Bounds(raw, total) ==
      if Strip(raw) == "" then Err(EmptySegment)
      else if Int(Strip(raw)) == None then Err(BadNumber(Strip(raw)))
      else
        var n := Int(Strip(raw)).value;
        if 1 <= n <= total then Ok((n, n)) else Err(PageOutOfBounds(n))
  {
    hide Strip, Int;
  }

  /** A segment with one hyphen: the pages between two numbers, or an error that says what is wrong. */
  lemma RangeVerdict(raw: string, x: string, y: string, total: int)
    requires Strip(raw) == x + "-" + y && '-' !in x && '-' !in y
    ensures var part, a, b := Strip(raw), Int(x), Int(y);
      Bounds(raw, total) ==
        if a == None || b == None then Err(BadRange(part))
        else if a.value < 1 || b.value < 1 then Err(BelowOne(part))
        else if a.value > b.value then Err(Descending(part))
        else if b.value > total then Err(OutOfBounds(part))
        else Ok((a.value, b.value))
  {
    hide Strip, Int;
    CutFirst(x, '-', y);
    CutNone(y, '-');
    assert x + ['-'] + y == Strip(raw) && (x + ['-'] + y)[|x|] == '-';
    BlankIsNone(x);
    BlankIsNone(y);
  }

  lemma BlankIsNone(s: string)
    ensures Strip(s) == "" ==> Int(s) == None
  {
    hide Strip, Int;
    if Strip(s) == "" && Int(s).Some? {
      BlankHasNoDigit(s);
    }
  }

  lemma BlankHasNoDigit(s: string)
    requires Int(s).Some?
    ensures Strip(s) != ""
  {
    hide Strip, Int, StripSpace, IntSpace;
    var before, sign, groups, after := IntReadsOnly(s);
    var digits := Underscored(groups);
    var t := sign + digits;
    GroupsAreNumeral(groups);
    DigitsStay(digits);
    assert Last(t) == Last(digits);
    assert Among(before, STRIPPED) && Among(after, STRIPPED);
    StripMeans(before, t, after);
  }

  lemma DigitsStay(digits: string)
    requires Numeral(digits)
    ensures digits != "" && digits[0] !in STRIPPED && Last(digits) !in STRIPPED && '-' !in STRIPPED && '+' !in STRIPPED
  {
    SpacesAre(digits[0]);
    SpacesAre(Last(digits));
    SpacesAre('-');
    SpacesAre('+');
  }

  lemma {:induction false} CountAppend(a: string, b: string, c: char)
    ensures Count(a + b, c) == Count(a, c) + Count(b, c)
  {
    if a == "" {
      assert a + b == b;
    } else {
      assert (a + b)[1..] == a[1..] + b;
      CountAppend(a[1..], b, c);
    }
  }

  /** A segment with more than one hyphen is malformed. */
  lemma HyphensVerdict(raw: string, x: string, y: string, z: string, total: int)
    requires Strip(raw) == x + "-" + y + "-" + z
    ensures Bounds(raw, total) == Err(BadRange(Strip(raw)))
  {
    hide Strip, Int;
    CountAppend(x + "-" + y + "-", z, '-');
    CountAppend(x + "-" + y, "-", '-');
    CountAppend(x + "-", y, '-');
    CountAppend(x, "-", '-');
    assert Count("-", '-') == 1 by {
      assert "-"[1..] == "";
    }
    assert (x + "-" + y + "-" + z)[|x|] == '-';
  }
}
