/** Strict page ranges such as `1-3,5,7-9`, and the pages that a split keeps. */
module PageRange {
  import opened Options
  import opened Text
  import Json

  datatype Error =
    | NoPages
    | EmptyRange
    | EmptySegment
    | BadRange(part: string)
    | BelowOne(part: string)
    | Descending(part: string)
    | OutOfBounds(part: string)
    | BadNumber(part: string)
    | PageOutOfBounds(page: int)
    | NothingSelected

  datatype Result<+T> = Ok(value: T) | Err(error: Error)

  // ---------------------------------------------------------------- Python text

  /** The ASCII characters `strip` removes. */
  predicate StripSpace(c: char) {
    9 as char <= c <= 13 as char || 0x1c as char <= c <= 0x20 as char
  }

  /** The ASCII characters `int` ignores around a number. */
  predicate IntSpace(c: char) {
    9 as char <= c <= 13 as char || c == ' '
  }

  function DropStart(s: string, space: char -> bool): (r: string)
    ensures r != "" ==> !space(r[0])
  {
    if s != "" && space(s[0]) then DropStart(s[1..], space) else s
  }

  function DropEnd(s: string, space: char -> bool): (r: string)
    ensures r <= s && (r != "" ==> !space(Last(r)))
  {
    if s != "" && space(Last(s)) then DropEnd(Init(s), space) else s
  }

  function Strip(s: string): string {
    DropEnd(DropStart(s, StripSpace), StripSpace)
  }

  function Cut(s: string, c: char): (parts: seq<string>)
    ensures |parts| > 0
  {
    if s == "" then [""]
    else
      var rest := Cut(s[1..], c);
      if s[0] == c then [""] + rest else [[s[0]] + rest[0]] + rest[1..]
  }

  function Count(s: string, c: char): nat {
    if s == "" then 0 else (if s[0] == c then 1 else 0) + Count(s[1..], c)
  }

  /** Digits with single underscores between them. */
  predicate Numeral(s: string) {
    && s != "" && Json.IsDigit(s[0]) && Json.IsDigit(Last(s))
    && (forall i :: 0 <= i < |s| ==> Json.IsDigit(s[i]) || s[i] == '_')
    && (forall i :: 0 <= i < |s| - 1 ==> s[i] != '_' || s[i + 1] != '_')
  }

  function WithoutUnderscores(s: string): (r: string)
    requires forall i :: 0 <= i < |s| ==> Json.IsDigit(s[i]) || s[i] == '_'
    ensures forall i :: 0 <= i < |r| ==> Json.IsDigit(r[i])
  {
    if s == "" then "" else (if s[0] == '_' then "" else [s[0]]) + WithoutUnderscores(s[1..])
  }

  function NumeralValue(s: string): Option<nat> {
    if Numeral(s) then Some(Json.DecimalValue(WithoutUnderscores(s))) else None
  }

  /** Python's `int` on ASCII text. */
  function Int(s: string): Option<int> {
    var t := DropEnd(DropStart(s, IntSpace), IntSpace);
    if t != "" && t[0] == '-' then
      var n := NumeralValue(t[1..]);
      if n.Some? then Some(-(n.value as int)) else None
    else
      NumeralValue(if t != "" && t[0] == '+' then t[1..] else t)
  }

  // ---------------------------------------------------------------- what a range denotes

  /** The first and last page of one segment, counted from 1. */
  function Bounds(raw: string, total: int): Result<(int, int)> {
    var part := Strip(raw);
    if part == "" then Err(EmptySegment)
    else if '-' in part then
      if Count(part, '-') != 1 then Err(BadRange(part))
      else
        var ends := Cut(part, '-');
        if |ends| != 2 || Strip(ends[0]) == "" || Strip(ends[1]) == "" then Err(BadRange(part))
        else
          var start, end := Int(ends[0]), Int(ends[1]);
          if start.None? || end.None? then Err(BadRange(part))
          else if start.value < 1 || end.value < 1 then Err(BelowOne(part))
          else if start.value > end.value then Err(Descending(part))
          else if start.value > total || end.value > total then Err(OutOfBounds(part))
          else Ok((start.value, end.value))
    else
      var page := Int(part);
      if page.None? then Err(BadNumber(part))
      else if page.value < 1 || page.value > total then Err(PageOutOfBounds(page.value))
      else Ok((page.value, page.value))
  }

  /** The indices of the pages from `a` to `b`. */
  function Indices(a: int, b: int): (r: seq<int>)
    ensures |r| == (if a > b then 0 else b - a + 1) && forall i :: 0 <= i < |r| ==> r[i] == a - 1 + i
    decreases b - a + 1
  {
    if a > b then [] else Indices(a, b - 1) + [b - 1]
  }

  /** All indices in the order they are written, with repetitions, or the error of the first bad segment. */
  function Written(parts: seq<string>, total: int): Result<seq<int>> {
    if parts == [] then Ok([])
    else
      var before := Written(Init(parts), total);
      if before.Err? then before
      else
        var bounds := Bounds(Last(parts), total);
        if bounds.Err? then Err(bounds.error)
        else Ok(before.value + Indices(bounds.value.0, bounds.value.1))
  }

  /** Every index once, where it first occurs. */
  function Firsts(xs: seq<int>): seq<int> {
    if xs == [] then []
    else if Last(xs) in Firsts(Init(xs)) then Firsts(Init(xs))
    else Firsts(Init(xs)) + [Last(xs)]
  }

  function Parse(range: string, total: int): Result<seq<int>> {
    if total <= 0 then Err(NoPages)
    else if Strip(range) == "" then Err(EmptyRange)
    else
      var written := Written(Cut(range, ','), total);
      if written.Err? then written
      else if Firsts(written.value) == [] then Err(NothingSelected)
      else Ok(Firsts(written.value))
  }

  // ---------------------------------------------------------------- what a successful parse gives

  predicate Covers(parts: seq<string>, total: int, index: int) {
    exists i :: 0 <= i < |parts| && Bounds(parts[i], total).Ok? &&
      Bounds(parts[i], total).value.0 <= index + 1 <= Bounds(parts[i], total).value.1
  }

  ghost predicate NoRepeats(xs: seq<int>) {
    forall i, j :: 0 <= i < j < |xs| ==> xs[i] != xs[j]
  }

  lemma BoundsInRange(raw: string, total: int)
    requires Bounds(raw, total).Ok?
    ensures 1 <= Bounds(raw, total).value.0 <= Bounds(raw, total).value.1 <= total
  {
    hide Strip, Int, Cut, Count;
  }

  lemma {:induction false} WrittenIs(parts: seq<string>, total: int)
    ensures Written(parts, total).Ok? <==> forall i :: 0 <= i < |parts| ==> Bounds(parts[i], total).Ok?
    ensures Written(parts, total).Ok? ==>
              && (forall index :: index in Written(parts, total).value <==> Covers(parts, total, index))
              && (parts != [] ==> Written(parts, total).value != [])
  {
    hide Bounds;
    if parts != [] {
      var before, raw := Init(parts), Last(parts);
      WrittenIs(before, total);
      if Written(parts, total).Ok? {
        BoundsInRange(raw, total);
        var (a, b) := Bounds(raw, total).value;
        forall index ensures index in Indices(a, b) <==> a <= index + 1 <= b {
          if a <= index + 1 <= b {
            assert Indices(a, b)[index + 1 - a] == index;
          }
        }
        forall index ensures Covers(parts, total, index) <==> Covers(before, total, index) || a <= index + 1 <= b {
          CoversSnoc(before, raw, total, index);
        }
        assert parts == before + [raw];
      } else if Written(before, total).Ok? {
        assert !Bounds(parts[|parts| - 1], total).Ok?;
      } else {
        var i :| 0 <= i < |before| && !Bounds(before[i], total).Ok?;
        assert !Bounds(parts[i], total).Ok?;
      }
    }
  }

  lemma CoversSnoc(before: seq<string>, raw: string, total: int, index: int)
    ensures Covers(before + [raw], total, index) <==>
            Covers(before, total, index) ||
            (Bounds(raw, total).Ok? && Bounds(raw, total).value.0 <= index + 1 <= Bounds(raw, total).value.1)
  {
    hide Bounds;
    var parts := before + [raw];
    if Covers(before, total, index) {
      var i :| 0 <= i < |before| && Bounds(before[i], total).Ok? &&
               Bounds(before[i], total).value.0 <= index + 1 <= Bounds(before[i], total).value.1;
      assert parts[i] == before[i];
    }
    if Bounds(raw, total).Ok? && Bounds(raw, total).value.0 <= index + 1 <= Bounds(raw, total).value.1 {
      assert parts[|before|] == raw;
    }
  }

  lemma {:induction false} FirstsAre(xs: seq<int>)
    ensures NoRepeats(Firsts(xs))
    ensures forall x :: x in Firsts(xs) <==> x in xs
  {
    if xs != [] {
      FirstsAre(Init(xs));
      assert xs == Init(xs) + [Last(xs)];
    }
  }

  /** The place where `x` first occurs. */
  function Place(xs: seq<int>, x: int): (p: nat)
    requires x in xs
    ensures p < |xs| && xs[p] == x && x !in xs[..p]
  {
    if xs[0] == x then 0 else 1 + Place(xs[1..], x)
  }

  /** The result keeps the order of first occurrence. */
  lemma {:induction false} FirstsInOrder(xs: seq<int>, i: nat, j: nat)
    requires i < j < |Firsts(xs)|
    ensures Firsts(xs)[i] in xs && Firsts(xs)[j] in xs
    ensures Place(xs, Firsts(xs)[i]) < Place(xs, Firsts(xs)[j])
  {
    FirstsAre(xs);
    FirstsAre(Init(xs));
    var before := Firsts(Init(xs));
    assert xs == Init(xs) + [Last(xs)];
    if j < |before| {
      FirstsInOrder(Init(xs), i, j);
      PlaceSnoc(Init(xs), Last(xs), before[i]);
      PlaceSnoc(Init(xs), Last(xs), before[j]);
    } else {
      assert Firsts(xs)[i] == before[i] && before[i] in before;
      PlaceSnoc(Init(xs), Last(xs), before[i]);
      PlaceLast(xs);
    }
  }

  lemma PlaceIs(xs: seq<int>, x: int, p: nat)
    requires p < |xs| && xs[p] == x && forall i :: 0 <= i < p ==> xs[i] != x
    ensures x in xs && Place(xs, x) == p
  {
    var q := Place(xs, x);
    assert forall i :: 0 <= i < q ==> xs[..q][i] == xs[i];
  }

  lemma PlaceSnoc(xs: seq<int>, y: int, x: int)
    requires x in xs
    ensures x in xs + [y] && Place(xs + [y], x) == Place(xs, x)
  {
    var p := Place(xs, x);
    assert forall i :: 0 <= i < p ==> xs[..p][i] == xs[i];
    PlaceIs(xs + [y], x, p);
  }

  lemma PlaceLast(xs: seq<int>)
    requires xs != [] && Last(xs) !in Init(xs)
    ensures Place(xs, Last(xs)) == |xs| - 1
  {
    assert forall i :: 0 <= i < |xs| - 1 ==> Init(xs)[i] == xs[i];
    PlaceIs(xs, Last(xs), |xs| - 1);
  }

  /** Segment `i` is the first bad one. */
  ghost predicate FirstBad(parts: seq<string>, total: int, i: int) {
    0 <= i < |parts| && Bounds(parts[i], total).Err? && forall j :: 0 <= j < i ==> Bounds(parts[j], total).Ok?
  }

  /** A failure reports the first bad segment. */
  lemma {:induction false} FirstError(parts: seq<string>, total: int)
    requires Written(parts, total).Err?
    ensures exists i :: FirstBad(parts, total, i) && Bounds(parts[i], total).error == Written(parts, total).error
  {
    hide Bounds;
    if Written(Init(parts), total).Err? {
      FirstError(Init(parts), total);
      var i :| FirstBad(Init(parts), total, i) && Bounds(Init(parts)[i], total).error == Written(parts, total).error;
      assert FirstBad(parts, total, i) by {
        assert parts[i] == Init(parts)[i] && forall j :: 0 <= j < i ==> parts[j] == Init(parts)[j];
      }
    } else {
      WrittenIs(Init(parts), total);
      assert FirstBad(parts, total, |parts| - 1) by {
        assert forall j :: 0 <= j < |parts| - 1 ==> parts[j] == Init(parts)[j];
      }
    }
  }

  lemma BoundsNeverEmpty(raw: string, total: int)
    ensures Bounds(raw, total) != Err(NothingSelected)
  {
    hide Strip, Int, Cut, Count;
  }

  /** Parsing succeeds exactly when there are pages, the text is not blank and every segment is good. */
  lemma ParseSucceeds(range: string, total: int)
    ensures Parse(range, total).Ok? <==>
            && total > 0 && Strip(range) != ""
            && forall i :: 0 <= i < |Cut(range, ',')| ==> Bounds(Cut(range, ',')[i], total).Ok?
    ensures Parse(range, total) != Err(NothingSelected)
    ensures total > 0 && Strip(range) != "" && Parse(range, total).Err? ==>
              exists i :: FirstBad(Cut(range, ','), total, i) &&
                          Bounds(Cut(range, ',')[i], total).error == Parse(range, total).error
  {
    hide Bounds, Strip, Cut, Covers;
    var parts := Cut(range, ',');
    var written := Written(parts, total);
    WrittenIs(parts, total);
    if written.Ok? {
      FirstsAre(written.value);
      assert written.value[0] in written.value;
    } else {
      FirstError(parts, total);
      var i :| FirstBad(parts, total, i) && Bounds(parts[i], total).error == written.error;
      BoundsNeverEmpty(parts[i], total);
      assert !Bounds(Cut(range, ',')[i], total).Ok?;
    }
  }

  /** What a successful parse gives: exactly the pages the segments cover, each once, all within the document. */
  lemma ParsedPages(range: string, total: int)
    requires Parse(range, total).Ok?
    ensures var pages := Parse(range, total).value;
            && pages != [] && NoRepeats(pages)
            && (forall index :: index in pages <==> Covers(Cut(range, ','), total, index))
            && (forall index :: index in pages ==> 0 <= index < total)
  {
    hide Strip, Cut, Bounds;
    var parts := Cut(range, ',');
    WrittenIs(parts, total);
    FirstsAre(Written(parts, total).value);
    forall index | Covers(parts, total, index) ensures 0 <= index < total {
      var i :| 0 <= i < |parts| && Bounds(parts[i], total).Ok? &&
               Bounds(parts[i], total).value.0 <= index + 1 <= Bounds(parts[i], total).value.1;
      BoundsInRange(parts[i], total);
    }
  }

  // ---------------------------------------------------------------- printing and parsing back

  /** A segment as a user would write it, counted from 1. */
  datatype Segment = One(page: nat) | From(first: nat, last: nat)

  function SegmentText(g: Segment): string {
    match g
    case One(p) => Json.PrintNat(p)
    case From(a, b) => Json.PrintNat(a) + "-" + Json.PrintNat(b)
  }

  function SegmentIndices(g: Segment): seq<int> {
    match g
    case One(p) => [p - 1]
    case From(a, b) => Indices(a, b)
  }

  predicate GoodSegment(g: Segment, total: int) {
    match g
    case One(p) => 1 <= p <= total
    case From(a, b) => 1 <= a <= b <= total
  }

  function RangeText(segments: seq<Segment>): string
    requires segments != []
  {
    if |segments| == 1 then SegmentText(segments[0])
    else SegmentText(segments[0]) + "," + RangeText(segments[1..])
  }

  function AllIndices(segments: seq<Segment>): seq<int> {
    if segments == [] then [] else AllIndices(Init(segments)) + SegmentIndices(Last(segments))
  }

  function Texts(segments: seq<Segment>): (r: seq<string>)
    ensures |r| == |segments| && forall i :: 0 <= i < |r| ==> r[i] == SegmentText(segments[i])
  {
    seq(|segments|, i requires 0 <= i < |segments| => SegmentText(segments[i]))
  }

  lemma StripIsIdle(s: string)
    requires s != "" && !StripSpace(s[0]) && !StripSpace(Last(s))
    ensures Strip(s) == s
  {
  }

  lemma {:induction false} NoUnderscores(s: string)
    requires forall i :: 0 <= i < |s| ==> Json.IsDigit(s[i])
    ensures WithoutUnderscores(s) == s
  {
    if s != "" {
      NoUnderscores(s[1..]);
    }
  }

  lemma IntOfPrint(n: nat)
    ensures Int(Json.PrintNat(n)) == Some(n)
  {
    var s := Json.PrintNat(n);
    NoUnderscores(s);
    Json.DecimalOfPrint(n);
    assert Json.IsDigit(s[0]) && Json.IsDigit(s[|s| - 1]);
    assert DropEnd(DropStart(s, IntSpace), IntSpace) == s;
    assert Numeral(s);
  }

  lemma {:induction false} CutNone(s: string, c: char)
    requires c !in s
    ensures Cut(s, c) == [s] && Count(s, c) == 0
  {
    if s != "" {
      assert s[0] in s && forall x :: x in s[1..] ==> x in s;
      CutNone(s[1..], c);
      assert [s[0]] + s[1..] == s;
    }
  }

  lemma {:induction false} CutFirst(a: string, c: char, rest: string)
    requires c !in a
    ensures Cut(a + [c] + rest, c) == [a] + Cut(rest, c)
    ensures Count(a + [c] + rest, c) == 1 + Count(rest, c)
  {
    var s := a + [c] + rest;
    if a == "" {
      assert s[1..] == rest;
    } else {
      assert a[0] in a && forall x :: x in a[1..] ==> x in a;
      assert s[1..] == a[1..] + [c] + rest;
      CutFirst(a[1..], c, rest);
      assert [a[0]] + a[1..] == a;
    }
  }

  lemma DigitsOnly(n: nat, c: char)
    requires !Json.IsDigit(c)
    ensures c !in Json.PrintNat(n)
  {
  }

  lemma SegmentTextEnds(g: Segment)
    ensures SegmentText(g) != "" && Json.IsDigit(SegmentText(g)[0]) && Json.IsDigit(Last(SegmentText(g)))
    ensures ',' !in SegmentText(g)
    ensures Strip(SegmentText(g)) == SegmentText(g)
  {
    hide Strip;
    StripIsIdle(SegmentText(g));
  }

  lemma BoundsOfSegment(g: Segment, total: int)
    requires GoodSegment(g, total)
    ensures Bounds(SegmentText(g), total) ==
            Ok(match g case One(p) => (p as int, p as int) case From(a, b) => (a as int, b as int))
  {
    hide Strip, Int;
    SegmentTextEnds(g);
    match g
    case One(p) =>
      DigitsOnly(p, '-');
      IntOfPrint(p);
    case From(a, b) =>
      var s, t := Json.PrintNat(a), Json.PrintNat(b);
      DigitsOnly(a, '-');
      DigitsOnly(b, '-');
      CutFirst(s, '-', t);
      CutNone(t, '-');
      assert SegmentText(g) == s + ['-'] + t && (s + ['-'] + t)[|s|] == '-';
      assert Strip(s) == s && Strip(t) == t by { SegmentTextEnds(One(a)); SegmentTextEnds(One(b)); }
      IntOfPrint(a);
      IntOfPrint(b);
  }

  lemma IndicesOfSegment(g: Segment, total: int)
    requires GoodSegment(g, total)
    ensures var bounds := Bounds(SegmentText(g), total);
            bounds.Ok? && Indices(bounds.value.0, bounds.value.1) == SegmentIndices(g)
  {
    hide Bounds, SegmentText;
    BoundsOfSegment(g, total);
  }

  lemma {:induction false} CutOfRange(segments: seq<Segment>)
    requires segments != []
    ensures Cut(RangeText(segments), ',') == Texts(segments)
    ensures RangeText(segments) != "" && Json.IsDigit(RangeText(segments)[0]) && Json.IsDigit(Last(RangeText(segments)))
  {
    hide SegmentText;
    SegmentTextEnds(segments[0]);
    if |segments| == 1 {
      CutNone(SegmentText(segments[0]), ',');
    } else {
      CutOfRange(segments[1..]);
      CutFirst(SegmentText(segments[0]), ',', RangeText(segments[1..]));
      assert Last(RangeText(segments)) == Last(RangeText(segments[1..]));
    }
  }

  lemma {:induction false} WrittenOfTexts(segments: seq<Segment>, total: int)
    requires forall g :: g in segments ==> GoodSegment(g, total)
    ensures Written(Texts(segments), total) == Ok(AllIndices(segments))
  {
    hide SegmentText, Bounds, SegmentIndices, Indices, GoodSegment;
    if segments != [] {
      assert segments == Init(segments) + [Last(segments)];
      WrittenOfTexts(Init(segments), total);
      assert Init(Texts(segments)) == Texts(Init(segments));
      IndicesOfSegment(Last(segments), total);
    }
  }

  /** Any list of good segments, written out, parses to the pages it lists, in order of first occurrence. */
  lemma WrittenRangeParses(segments: seq<Segment>, total: int)
    requires segments != [] && forall g :: g in segments ==> GoodSegment(g, total)
    ensures Parse(RangeText(segments), total) == Ok(Firsts(AllIndices(segments)))
  {
    hide SegmentText, Bounds, Strip;
    CutOfRange(segments);
    StripIsIdle(RangeText(segments));
    WrittenOfTexts(segments, total);
    assert segments[0] in segments && GoodSegment(segments[0], total);
    ParseSucceeds(RangeText(segments), total);
  }

  function Singles(pages: seq<nat>): (r: seq<Segment>)
    ensures |r| == |pages| && forall i :: 0 <= i < |r| ==> r[i] == One(pages[i] + 1)
  {
    if pages == [] then [] else Singles(Init(pages)) + [One(Last(pages) + 1)]
  }

  lemma {:induction false} SinglesIndices(pages: seq<nat>)
    requires NoRepeats(pages)
    ensures AllIndices(Singles(pages)) == pages && Firsts(pages) == pages
  {
    if pages != [] {
      assert pages == Init(pages) + [Last(pages)];
      SinglesIndices(Init(pages));
      assert Init(Singles(pages)) == Singles(Init(pages));
      assert Last(pages) !in Init(pages);
    }
  }

  /** A list of different pages, printed one by one, parses back to itself, in the same order. */
  lemma PagesRoundTrip(pages: seq<nat>, total: int)
    requires pages != [] && NoRepeats(pages) && forall i :: i in pages ==> i < total
    ensures Parse(RangeText(Singles(pages)), total) == Ok(pages)
  {
    hide Parse, RangeText;
    forall g | g in Singles(pages) ensures GoodSegment(g, total) {
      var i :| 0 <= i < |pages| && g == Singles(pages)[i];
      assert pages[i] in pages;
    }
    WrittenRangeParses(Singles(pages), total);
    SinglesIndices(pages);
  }

  // ---------------------------------------------------------------- excluding pages

  /** The indices below `total` that are not among `pages`, ascending. */
  function Complement(pages: seq<int>, total: nat): seq<int> {
    if total == 0 then []
    else Complement(pages, total - 1) + (if total - 1 in pages then [] else [total - 1])
  }

  function Split(range: string, exclude: bool, total: nat): Result<seq<int>> {
    var parsed := Parse(range, total);
    if parsed.Err? then parsed
    else
      var pages := if exclude then Complement(parsed.value, total) else parsed.value;
      if pages == [] then Err(NothingSelected) else Ok(pages)
  }

  lemma {:induction false} ComplementIs(pages: seq<int>, total: nat)
    ensures var rest := Complement(pages, total);
            && (forall i :: i in rest <==> 0 <= i < total && i !in pages)
            && (forall i, j :: 0 <= i < j < |rest| ==> rest[i] < rest[j])
  {
    if total > 0 {
      ComplementIs(pages, total - 1);
      var before := Complement(pages, total - 1);
      forall i | 0 <= i < |before| ensures before[i] < total - 1 {
        assert before[i] in before;
      }
    }
  }

  /**
   * Selecting and excluding the same range part the document: every page is in exactly one of the two, the rest ascends,
   * and excluding fails exactly when the range is bad or covers every page.
   */
  lemma SplitsPartition(range: string, total: nat)
    ensures var kept, rest := Split(range, false, total), Split(range, true, total);
            && kept == Parse(range, total)
            && (rest.Ok? <==> kept.Ok? && exists i :: 0 <= i < total && i !in kept.value)
            && (rest.Ok? ==>
                  && (forall i :: 0 <= i < total ==> (i in kept.value) != (i in rest.value))
                  && (forall i :: i in rest.value ==> 0 <= i < total)
                  && (forall i, j :: 0 <= i < j < |rest.value| ==> rest.value[i] < rest.value[j]))
  {
    hide Parse, Covers;
    var parsed := Parse(range, total);
    if parsed.Ok? {
      ParsedPages(range, total);
      ComplementIs(parsed.value, total);
      var rest := Complement(parsed.value, total);
      if rest != [] {
        assert rest[0] in rest;
      }
    }
  }

  // ---------------------------------------------------------------- the loops

  lemma IndicesNext(written: seq<int>, start: int, page: int)
    requires start <= page
    ensures written + Indices(start, page) == written + Indices(start, page - 1) + [page - 1]
  {
  }

  lemma FirstsNext(xs: seq<int>, x: int)
    ensures Firsts(xs + [x]) == if x in Firsts(xs) then Firsts(xs) else Firsts(xs) + [x]
  {
    assert Init(xs + [x]) == xs;
  }

  /** The pages of one segment, added to those seen before. */
  method AddRange(start: int, end: int, pages: seq<int>, seen: set<int>, ghost written: seq<int>)
    returns (pages': seq<int>, seen': set<int>)
    requires pages == Firsts(written) && seen == set i | i in pages
    requires start <= end
    ensures pages' == Firsts(written + Indices(start, end)) && seen' == set i | i in pages'
  {
    hide Firsts, Indices;
    pages', seen' := pages, seen;
    assert written + Indices(start, start - 1) == written;
    for pageNum := start to end + 1
      invariant pages' == Firsts(written + Indices(start, pageNum - 1)) && seen' == set i | i in pages'
    {
      var idx := pageNum - 1;
      IndicesNext(written, start, pageNum);
      FirstsNext(written + Indices(start, pageNum - 1), idx);
      if idx !in seen' {
        seen' := seen' + {idx};
        pages' := pages' + [idx];
      }
    }
  }

  method ParsePageRange(range: string, total: int) returns (r: Result<seq<int>>)
    ensures r == Parse(range, total)
  {
    hide Bounds, Strip, Cut, Firsts;
    if total <= 0 {
      return Err(NoPages);
    }
    if Strip(range) == "" {
      return Err(EmptyRange);
    }
    var pages: seq<int>, seen: set<int> := [], {};
    var parts := Cut(range, ',');
    ghost var written: seq<int> := [];
    NoFirsts();
    for i := 0 to |parts|
      invariant Written(parts[..i], total) == Ok(written)
      invariant pages == Firsts(written) && seen == set p | p in pages
    {
      assert Init(parts[..i + 1]) == parts[..i];
      var bounds := Bounds(parts[i], total);
      if bounds.Err? {
        WrittenStops(parts, i + 1, total);
        return Err(bounds.error);
      }
      BoundsInRange(parts[i], total);
      pages, seen := AddRange(bounds.value.0, bounds.value.1, pages, seen, written);
      written := written + Indices(bounds.value.0, bounds.value.1);
    }
    assert parts[..|parts|] == parts;
    if pages == [] {
      return Err(NothingSelected);
    }
    return Ok(pages);
  }

  lemma NoFirsts()
    ensures Firsts([]) == []
  {
  }

  lemma {:induction false} WrittenStops(parts: seq<string>, i: nat, total: int)
    requires i <= |parts| && Written(parts[..i], total).Err?
    ensures Written(parts, total) == Written(parts[..i], total)
  {
    hide Bounds;
    if i == |parts| {
      assert parts[..i] == parts;
    } else {
      assert Init(parts)[..i] == parts[..i];
      WrittenStops(Init(parts), i, total);
    }
  }

  /** The pages that splitting a document of `total` pages writes. */
  method SplitPages(range: string, exclude: bool, total: nat) returns (r: Result<seq<int>>)
    ensures r == Split(range, exclude, total)
  {
    hide Parse;
    r := ParsePageRange(range, total);
    if r.Err? {
      return;
    }
    var pages := r.value;
    if exclude {
      var rest: seq<int> := [];
      for i := 0 to total
        invariant rest == Complement(pages, i)
      {
        if i !in pages {
          rest := rest + [i];
        }
      }
      pages := rest;
    }
    if pages == [] {
      return Err(NothingSelected);
    }
    return Ok(pages);
  }
}
