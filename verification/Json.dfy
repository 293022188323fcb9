/** JSON values with JavaScript's ordered objects, a printer (`JSON.stringify`) and a parser (`JSON.parse`). */
module Json {
  import opened Options
  import opened Text

  /** Numbers are integers; an object keeps its fields in insertion order. */
  datatype Json =
    | Null
    | Bool(b: bool)
    | Num(n: int)
    | Str(s: string)
    | Arr(items: seq<Json>)
    | Obj(fields: Fields)

  datatype Field = Field(key: string, value: Json)

  type Fields = seq<Field>

  /** The outcome of reading a value off the front of a text. */
  datatype Parsed<+T> = Fail | Got(value: T, rest: string)

  // ----- ordered objects -----

  predicate Distinct(fields: Fields) {
    forall i, j :: 0 <= i < j < |fields| ==> fields[i].key != fields[j].key
  }

  /** `key in object` */
  predicate Has(fields: Fields, key: string) {
    exists i :: 0 <= i < |fields| && fields[i].key == key
  }

  /** `object[key]` */
  function Get(fields: Fields, key: string): (r: Option<Json>)
    ensures r.Some? <==> Has(fields, key)
    ensures r.Some? ==> exists i :: 0 <= i < |fields| && fields[i] == Field(key, r.value)
  {
    if fields == [] then None
    else if fields[0].key == key then Some(fields[0].value)
    else
      var r := Get(fields[1..], key);
      assert forall i :: 0 <= i < |fields| - 1 ==> fields[1..][i] == fields[i + 1];
      assert Has(fields, key) ==> exists i :: 0 <= i < |fields| - 1 && fields[1..][i].key == key by {
        if Has(fields, key) {
          var i :| 0 <= i < |fields| && fields[i].key == key;
          assert fields[1..][i - 1].key == key;
        }
      }
      r
  }

  /** `object[key] = value`: a key already present keeps its place. */
  function Put(fields: Fields, key: string, value: Json): (r: Fields) {
    if fields == [] then [Field(key, value)]
    else if fields[0].key == key then [Field(key, value)] + fields[1..]
    else [fields[0]] + Put(fields[1..], key, value)
  }

  /** `delete object[key]` */
  function Remove(fields: Fields, key: string): (r: Fields) {
    if fields == [] then []
    else if fields[0].key == key then Remove(fields[1..], key)
    else [fields[0]] + Remove(fields[1..], key)
  }

  /** `{ ...a, ...b }`, and what `Object.assign(a, b)` leaves in `a`. */
  function Merge(a: Fields, b: Fields): (r: Fields)
    decreases |b|
  {
    if b == [] then a else Merge(Put(a, b[0].key, b[0].value), b[1..])
  }

  /** An object as the map it stands for. */
  function AsMap(fields: Fields): map<string, Json> {
    if fields == [] then map[] else AsMap(Init(fields))[Last(fields).key := Last(fields).value]
  }

  lemma {:induction false} AsMapHas(fields: Fields, key: string)
    ensures key in AsMap(fields) <==> Has(fields, key)
  {
    if fields != [] {
      AsMapHas(Init(fields), key);
      assert fields == Init(fields) + [Last(fields)];
      if Has(Init(fields), key) {
        var i :| 0 <= i < |fields| - 1 && Init(fields)[i].key == key;
        assert fields[i].key == key;
      }
      if Has(fields, key) && Last(fields).key != key {
        var i :| 0 <= i < |fields| && fields[i].key == key;
        assert Init(fields)[i].key == key;
      }
    }
  }

  lemma {:induction false} AsMapAt(fields: Fields, i: nat)
    requires i < |fields| && Distinct(fields)
    ensures fields[i].key in AsMap(fields) && AsMap(fields)[fields[i].key] == fields[i].value
  {
    if i < |fields| - 1 {
      AsMapAt(Init(fields), i);
    }
  }

  /** Objects with distinct keys are the same map when every field of one is a field of the other. */
  lemma {:induction false} AsMapSame(a: Fields, m: map<string, Json>)
    requires Distinct(a)
    requires forall i :: 0 <= i < |a| ==> a[i].key in m && m[a[i].key] == a[i].value
    requires forall k :: k in m ==> Has(a, k)
    ensures AsMap(a) == m
  {
    forall k
      ensures k in AsMap(a) <==> k in m
      ensures k in m ==> AsMap(a)[k] == m[k]
    {
      AsMapHas(a, k);
      if Has(a, k) {
        var i :| 0 <= i < |a| && a[i].key == k;
        AsMapAt(a, i);
      }
    }
  }

  lemma {:induction false} GetIsAsMap(fields: Fields, key: string)
    requires Distinct(fields)
    ensures Get(fields, key) == if key in AsMap(fields) then Some(AsMap(fields)[key]) else None
  {
    AsMapHas(fields, key);
    if Has(fields, key) {
      var i :| 0 <= i < |fields| && fields[i] == Field(key, Get(fields, key).value);
      AsMapAt(fields, i);
    }
  }

  /** Putting a new key appends it. */
  lemma {:induction false} PutFresh(fields: Fields, key: string, value: Json)
    requires !Has(fields, key)
    ensures Put(fields, key, value) == fields + [Field(key, value)]
  {
    if fields != [] {
      assert fields[0].key != key;
      HasTail(fields, key);
      PutFresh(fields[1..], key, value);
      assert fields == [fields[0]] + fields[1..];
    }
  }

  lemma HasTail(fields: Fields, key: string)
    requires fields != [] && fields[0].key != key
    ensures Has(fields, key) <==> Has(fields[1..], key)
  {
    if Has(fields, key) {
      var i :| 0 <= i < |fields| && fields[i].key == key;
      assert fields[1..][i - 1].key == key;
    }
    if Has(fields[1..], key) {
      var i :| 0 <= i < |fields[1..]| && fields[1..][i].key == key;
      assert fields[i + 1].key == key;
    }
  }

  lemma GetCons(f: Field, rest: Fields, key: string)
    ensures Get([f] + rest, key) == if f.key == key then Some(f.value) else Get(rest, key)
  {
    assert ([f] + rest)[1..] == rest;
  }

  lemma GetTwo(a: Field, b: Field, key: string)
    ensures Get([a, b], key) == if a.key == key then Some(a.value) else if b.key == key then Some(b.value) else None
  {
    assert [a] + [b] == [a, b] && [b] + [] == [b];
    GetCons(a, [b], key);
    GetCons(b, [], key);
  }

  lemma GetThree(a: Field, b: Field, c: Field, key: string)
    ensures Get([a, b, c], key) ==
      if a.key == key then Some(a.value) else if b.key == key then Some(b.value) else if c.key == key then Some(c.value) else None
  {
    assert [a] + [b, c] == [a, b, c];
    GetCons(a, [b, c], key);
    GetTwo(b, c, key);
  }

  lemma GetFour(a: Field, b: Field, c: Field, d: Field, key: string)
    ensures Get([a, b, c, d], key) ==
      if a.key == key then Some(a.value) else if b.key == key then Some(b.value)
      else if c.key == key then Some(c.value) else if d.key == key then Some(d.value) else None
  {
    assert [a] + [b, c, d] == [a, b, c, d];
    GetCons(a, [b, c, d], key);
    GetThree(b, c, d, key);
  }

  /** What `Put` leaves in the object: the new field and the old fields with other keys. */
  lemma {:induction false} PutFields(fields: Fields, key: string, value: Json)
    requires Distinct(fields)
    ensures Distinct(Put(fields, key, value))
    ensures forall i :: 0 <= i < |Put(fields, key, value)| ==>
      var e := Put(fields, key, value)[i];
      e == Field(key, value) || (e.key != key && e in fields)
    ensures Field(key, value) in Put(fields, key, value)
    ensures forall i :: 0 <= i < |fields| && fields[i].key != key ==> fields[i] in Put(fields, key, value)
  {
    var r := Put(fields, key, value);
    if fields != [] && fields[0].key == key {
      assert fields == [fields[0]] + fields[1..];
      assert r == [Field(key, value)] + fields[1..];
    } else if fields != [] {
      var tail := fields[1..];
      PutFields(tail, key, value);
      assert fields == [fields[0]] + tail;
      var p := Put(tail, key, value);
      assert r == [fields[0]] + p;
      forall i | 0 <= i < |p|
        ensures p[i].key != fields[0].key
      {
        assert p[i] in p;
      }
    }
  }

  lemma PutMap(fields: Fields, key: string, value: Json)
    requires Distinct(fields)
    ensures Distinct(Put(fields, key, value))
    ensures AsMap(Put(fields, key, value)) == AsMap(fields)[key := value]
  {
    PutFields(fields, key, value);
    var r := Put(fields, key, value);
    var m := AsMap(fields)[key := value];
    forall i | 0 <= i < |r|
      ensures r[i].key in m && m[r[i].key] == r[i].value
    {
      if r[i] != Field(key, value) {
        assert r[i] in r;
        var j :| 0 <= j < |fields| && fields[j] == r[i];
        AsMapAt(fields, j);
      }
    }
    assert Field(key, value) in r;
    forall k | k in m
      ensures Has(r, k)
    {
      AsMapHas(fields, k);
      if k != key {
        var j :| 0 <= j < |fields| && fields[j].key == k;
        assert fields[j] in r;
      }
    }
    AsMapSame(r, m);
  }

  lemma {:induction false} RemoveFields(fields: Fields, key: string)
    requires Distinct(fields)
    ensures Distinct(Remove(fields, key))
    ensures forall i :: 0 <= i < |Remove(fields, key)| ==>
      Remove(fields, key)[i].key != key && Remove(fields, key)[i] in fields
    ensures forall i :: 0 <= i < |fields| && fields[i].key != key ==> fields[i] in Remove(fields, key)
  {
    if fields != [] {
      var tail := Remove(fields[1..], key);
      RemoveFields(fields[1..], key);
      assert fields == [fields[0]] + fields[1..];
      if fields[0].key != key {
        forall i | 0 <= i < |tail|
          ensures tail[i].key != fields[0].key
        {
          var j :| 0 <= j < |fields[1..]| && fields[1..][j] == tail[i];
          assert fields[j + 1] == tail[i];
        }
      }
    }
  }

  lemma RemoveMap(fields: Fields, key: string)
    requires Distinct(fields)
    ensures Distinct(Remove(fields, key))
    ensures AsMap(Remove(fields, key)) == AsMap(fields) - {key}
  {
    RemoveFields(fields, key);
    var r := Remove(fields, key);
    var m := AsMap(fields) - {key};
    forall i | 0 <= i < |r|
      ensures r[i].key in m && m[r[i].key] == r[i].value
    {
      assert r[i] in r;
      var j :| 0 <= j < |fields| && fields[j] == r[i];
      AsMapAt(fields, j);
    }
    forall k | k in m
      ensures Has(r, k)
    {
      AsMapHas(fields, k);
      var j :| 0 <= j < |fields| && fields[j].key == k;
      assert fields[j] in r;
    }
    AsMapSame(r, m);
  }

  lemma {:induction false} MergeMap(a: Fields, b: Fields)
    requires Distinct(a) && Distinct(b)
    ensures Distinct(Merge(a, b))
    ensures AsMap(Merge(a, b)) == AsMap(a) + AsMap(b)
    decreases |b|
  {
    if b != [] {
      var f, tail := b[0], b[1..];
      PutMap(a, f.key, f.value);
      MergeMap(Put(a, f.key, f.value), tail);
      AsMapCons(b);
      UpdateThenAdd(AsMap(a), f.key, f.value, AsMap(tail));
    }
  }

  lemma UpdateThenAdd(a: map<string, Json>, k: string, v: Json, b: map<string, Json>)
    ensures a[k := v] + b == a + (map[k := v] + b)
  {
  }

  lemma {:induction false} AsMapCons(b: Fields)
    requires b != []
    ensures AsMap(b) == map[b[0].key := b[0].value] + AsMap(b[1..])
  {
    if |b| > 1 {
      AsMapCons(Init(b));
      assert Init(b)[1..] == Init(b[1..]);
    }
  }

  /** Merging into an object none of whose keys occur in the other is appending. */
  lemma {:induction false} MergeAppend(a: Fields, b: Fields)
    requires Distinct(a + b)
    ensures Merge(a, b) == a + b
    decreases |b|
  {
    if b != [] {
      forall i | 0 <= i < |a| ensures a[i].key != b[0].key {
        assert (a + b)[i] == a[i] && (a + b)[|a|] == b[0];
      }
      PutFresh(a, b[0].key, b[0].value);
      assert b == [b[0]] + b[1..];
      assert (a + [b[0]]) + b[1..] == a + b;
      MergeAppend(a + [b[0]], b[1..]);
    }
  }

  /** Every object inside `j` has distinct keys. */
  predicate WellFormed(j: Json)
    decreases j
  {
    match j
    case Arr(items) => forall i :: 0 <= i < |items| ==> WellFormed(items[i])
    case Obj(fields) => Distinct(fields) && forall i :: 0 <= i < |fields| ==> WellFormed(fields[i].value)
    case _ => true
  }

  lemma PutWellFormed(fields: Fields, key: string, value: Json)
    requires WellFormed(Obj(fields)) && WellFormed(value)
    ensures WellFormed(Obj(Put(fields, key, value)))
  {
    PutFields(fields, key, value);
  }

  lemma {:induction false} MergeWellFormed(a: Fields, b: Fields)
    requires WellFormed(Obj(a)) && WellFormed(Obj(b))
    ensures WellFormed(Obj(Merge(a, b)))
    decreases |b|
  {
    if b != [] {
      PutFields(a, b[0].key, b[0].value);
      assert WellFormed(Obj(b[1..]));
      MergeWellFormed(Put(a, b[0].key, b[0].value), b[1..]);
    }
  }

  // ----- printing -----

  predicate IsDigit(c: char) {
    '0' <= c <= '9'
  }

  function DigitChar(d: nat): char
    requires d < 10
  {
    ('0' as int + d) as char
  }

  function DigitValue(c: char): (d: nat)
    requires IsDigit(c)
    ensures d < 10 && DigitChar(d) == c
  {
    c as int - '0' as int
  }

  function PrintNat(n: nat): (r: string)
    ensures r != "" && forall i :: 0 <= i < |r| ==> IsDigit(r[i])
    ensures r[0] == '0' ==> n == 0 && |r| == 1
  {
    if n < 10 then [DigitChar(n)] else PrintNat(n / 10) + [DigitChar(n % 10)]
  }

  function PrintInt(n: int): string {
    if n < 0 then "-" + PrintNat(-n) else PrintNat(n)
  }

  function HexChar(d: nat): char
    requires d < 16
  {
    if d < 10 then DigitChar(d) else ('a' as int + d - 10) as char
  }

  function EscapeChar(c: char): string {
    if c == '\"' then "\\\""
    else if c == '\\' then "\\\\"
    else if c == '\U{8}' then "\\b"
    else if c == '\U{C}' then "\\f"
    else if c == '\n' then "\\n"
    else if c == '\r' then "\\r"
    else if c == '\t' then "\\t"
    else if c < ' ' then "\\u00" + [HexChar(c as int / 16), HexChar(c as int % 16)]
    else [c]
  }

  function Escape(s: string): string {
    if s == "" then "" else EscapeChar(s[0]) + Escape(s[1..])
  }

  function Quote(s: string): string {
    "\"" + Escape(s) + "\""
  }

  /** `JSON.stringify` */
  function Print(j: Json): string
    decreases j
  {
    match j
    case Null => "null"
    case Bool(b) => if b then "true" else "false"
    case Num(n) => PrintInt(n)
    case Str(s) => Quote(s)
    case Arr(items) => if items == [] then "[]" else "[" + PrintItems(items)
    case Obj(fields) => if fields == [] then "{}" else "{" + PrintFields(fields)
  }

  /** The items, the commas between them and the closing bracket. */
  function PrintItems(items: seq<Json>): string
    requires items != []
    decreases items
  {
    Print(items[0]) + if |items| == 1 then "]" else "," + PrintItems(items[1..])
  }

  function PrintFields(fields: Fields): string
    requires fields != []
    decreases fields
  {
    var f := fields[0];
    Quote(f.key) + ":" + Print(f.value) + if |fields| == 1 then "}" else "," + PrintFields(fields[1..])
  }

  // ----- parsing -----

  predicate IsJsonSpace(c: char) {
    c == ' ' || c == '\t' || c == '\n' || c == '\r'
  }

  function SkipSpace(s: string): (r: string)
    ensures |r| <= |s|
  {
    if s != "" && IsJsonSpace(s[0]) then SkipSpace(s[1..]) else s
  }

  /** How many digits `s` starts with. */
  function DigitRun(s: string): (n: nat)
    ensures n <= |s|
    ensures forall i :: 0 <= i < n ==> IsDigit(s[i])
    ensures n < |s| ==> !IsDigit(s[n])
  {
    if s != "" && IsDigit(s[0]) then 1 + DigitRun(s[1..]) else 0
  }

  function DecimalValue(digits: string): nat
    requires forall i :: 0 <= i < |digits| ==> IsDigit(digits[i])
  {
    if digits == "" then 0 else 10 * DecimalValue(Init(digits)) + DigitValue(Last(digits))
  }

  function ParseNat(s: string): (r: Parsed<nat>)
    ensures r.Got? ==> |r.rest| < |s|
  {
    var n := DigitRun(s);
    if n == 0 || (n > 1 && s[0] == '0') then Fail
    else Got(DecimalValue(s[..n]), s[n..])
  }

  function HexValue(c: char): Option<nat> {
    if IsDigit(c) then Some(DigitValue(c))
    else if 'a' <= c <= 'f' then Some(c as int - 'a' as int + 10)
    else if 'A' <= c <= 'F' then Some(c as int - 'A' as int + 10)
    else None
  }

  /** The character a four-digit hexadecimal escape stands for; surrogates are refused. */
  function HexEscape(h: string): Option<char>
    requires |h| == 4
  {
    match (HexValue(h[0]), HexValue(h[1]), HexValue(h[2]), HexValue(h[3]))
    case (Some(a), Some(b), Some(c), Some(d)) =>
      var v := ((a * 16 + b) * 16 + c) * 16 + d;
      if 0 <= v < 0xD800 || 0xE000 <= v < 0x1_0000 then Some(v as char) else None
    case _ => None
  }

  function SimpleEscape(c: char): Option<char> {
    match c
    case '\"' => Some('\"')
    case '\\' => Some('\\')
    case '/' => Some('/')
    case 'b' => Some('\U{8}')
    case 'f' => Some('\U{C}')
    case 'n' => Some('\n')
    case 'r' => Some('\r')
    case 't' => Some('\t')
    case _ => None
  }

  /** The next character of a string literal and what follows it. */
  function ParseChar(s: string): (r: Parsed<char>)
    requires s != ""
    ensures r.Got? ==> |r.rest| < |s|
  {
    if s[0] != '\\' then
      if s[0] < ' ' then Fail else Got(s[0], s[1..])
    else if |s| >= 6 && s[1] == 'u' then
      match HexEscape(s[2..6])
      case Some(c) => Got(c, s[6..])
      case None => Fail
    else if |s| >= 2 then
      match SimpleEscape(s[1])
      case Some(c) => Got(c, s[2..])
      case None => Fail
    else Fail
  }

  /** The rest of a string literal, after its opening quote. */
  function ParseString(s: string): (r: Parsed<string>)
    ensures r.Got? ==> |r.rest| < |s|
    decreases |s|
  {
    if s == "" then Fail
    else if s[0] == '\"' then Got("", s[1..])
    else
      match ParseChar(s)
      case Fail => Fail
      case Got(c, s1) =>
        match ParseString(s1)
        case Fail => Fail
        case Got(cs, s2) => Got([c] + cs, s2)
  }

  function ParseLiteral(s: string, literal: string, value: Json): (r: Parsed<Json>)
    requires literal != "" && WellFormed(value)
    ensures r.Got? ==> |r.rest| < |s| && WellFormed(r.value)
  {
    if StartsWith(s, literal) then Got(value, s[|literal|..]) else Fail
  }

  function ParseNumber(s: string, negative: bool): (r: Parsed<Json>)
    ensures r.Got? ==> |r.rest| < |s| && WellFormed(r.value)
  {
    match ParseNat(s)
    case Fail => Fail
    case Got(n, rest) => Got(Num(if negative then -(n as int) else n), rest)
  }

  /** `null`, a truth value or a number. */
  function ParseScalar(t: string): (r: Parsed<Json>)
    requires t != ""
    ensures r.Got? ==> |r.rest| < |t| && WellFormed(r.value)
  {
    match t[0]
    case 'n' => ParseLiteral(t, "null", Null)
    case 't' => ParseLiteral(t, "true", Bool(true))
    case 'f' => ParseLiteral(t, "false", Bool(false))
    case '-' => ParseNumber(t[1..], true)
    case _ => ParseNumber(t, false)
  }

  function ParseText(t: string): (r: Parsed<Json>)
    ensures r.Got? ==> |r.rest| < |t| && WellFormed(r.value)
  {
    match ParseString(t)
    case Fail => Fail
    case Got(v, rest) => Got(Str(v), rest)
  }

  function ParseValue(s: string): (r: Parsed<Json>)
    ensures r.Got? ==> |r.rest| < |s| && WellFormed(r.value)
    decreases |s|, 0
  {
    var t := SkipSpace(s);
    if t == "" then Fail
    else if t[0] == '\"' then ParseText(t[1..])
    else if t[0] == '[' then ParseArray(t[1..])
    else if t[0] == '{' then ParseObject(t[1..])
    else ParseScalar(t)
  }

  /** The rest of an array, after its opening bracket. */
  function ParseArray(t: string): (r: Parsed<Json>)
    ensures r.Got? ==> |r.rest| < |t| && WellFormed(r.value)
    decreases |t|, 2
  {
    var u := SkipSpace(t);
    if u != "" && u[0] == ']' then Got(Arr([]), u[1..])
    else
      match ParseItems(t)
      case Fail => Fail
      case Got(items, rest) => Got(Arr(items), rest)
  }

  /** The rest of an object, after its opening brace. */
  function ParseObject(t: string): (r: Parsed<Json>)
    ensures r.Got? ==> |r.rest| < |t| && WellFormed(r.value)
    decreases |t|, 2
  {
    var u := SkipSpace(t);
    if u != "" && u[0] == '}' then Got(Obj([]), u[1..])
    else
      match ParseFields(t, [])
      case Fail => Fail
      case Got(fields, rest) => Got(Obj(fields), rest)
  }

  function ParseItems(s: string): (r: Parsed<seq<Json>>)
    ensures r.Got? ==> |r.rest| < |s| && forall i :: 0 <= i < |r.value| ==> WellFormed(r.value[i])
    decreases |s|, 1
  {
    match ParseValue(s)
    case Fail => Fail
    case Got(v, s1) =>
      var t := SkipSpace(s1);
      if t == "" then Fail
      else if t[0] == ']' then Got([v], t[1..])
      else if t[0] != ',' then Fail
      else
        match ParseItems(t[1..])
        case Fail => Fail
        case Got(vs, rest) => Got([v] + vs, rest)
  }

  /** Fields up to the closing brace, put one by one into the object read so far. */
  function ParseFields(s: string, acc: Fields): (r: Parsed<Fields>)
    requires WellFormed(Obj(acc))
    ensures r.Got? ==> |r.rest| < |s| && WellFormed(Obj(r.value))
    decreases |s|, 1
  {
    var t := SkipSpace(s);
    if t == "" || t[0] != '\"' then Fail
    else
      match ParseString(t[1..])
      case Fail => Fail
      case Got(key, s1) =>
        var u := SkipSpace(s1);
        if u == "" || u[0] != ':' then Fail
        else
          match ParseValue(u[1..])
          case Fail => Fail
          case Got(v, s2) =>
            PutFields(acc, key, v);
            var acc' := Put(acc, key, v);
            var w := SkipSpace(s2);
            if w == "" then Fail
            else if w[0] == '}' then Got(acc', w[1..])
            else if w[0] != ',' then Fail
            else ParseFields(w[1..], acc')
  }

  /** `JSON.parse`; `None` where it throws. */
  function Parse(s: string): (r: Option<Json>)
    ensures r.Some? ==> WellFormed(r.value)
  {
    match ParseValue(s)
    case Fail => None
    case Got(v, rest) => if SkipSpace(rest) == "" then Some(v) else None
  }

  // ----- printing then parsing gives the value back -----

  lemma {:induction false} DigitRunOf(digits: string, rest: string)
    requires forall i :: 0 <= i < |digits| ==> IsDigit(digits[i])
    requires rest == "" || !IsDigit(rest[0])
    ensures DigitRun(digits + rest) == |digits|
  {
    if digits == "" {
      assert digits + rest == rest;
    } else {
      assert (digits + rest)[1..] == digits[1..] + rest;
      DigitRunOf(digits[1..], rest);
    }
  }

  lemma {:induction false} DecimalOfPrint(n: nat)
    ensures DecimalValue(PrintNat(n)) == n
  {
    if n >= 10 {
      DecimalOfPrint(n / 10);
      assert Init(PrintNat(n)) == PrintNat(n / 10);
    }
  }

  lemma ParseNatOfPrint(n: nat, rest: string)
    requires rest == "" || !IsDigit(rest[0])
    ensures ParseNat(PrintNat(n) + rest) == Got(n, rest)
  {
    var d := PrintNat(n);
    DigitRunOf(d, rest);
    DecimalOfPrint(n);
    assert (d + rest)[..|d|] == d && (d + rest)[|d|..] == rest;
  }

  lemma ParseCharOfEscape(c: char, rest: string)
    ensures EscapeChar(c) != "" && EscapeChar(c)[0] != '\"'
    ensures ParseChar(EscapeChar(c) + rest) == Got(c, rest)
  {
    var e := EscapeChar(c);
    var s := e + rest;
    assert s[|e|..] == rest;
    if |e| == 6 {
      assert s[2..6] == e[2..6];
      assert HexValue(HexChar(c as int / 16)) == Some(c as int / 16);
      assert HexValue(HexChar(c as int % 16)) == Some(c as int % 16);
      assert HexEscape(e[2..6]) == Some(c);
    }
  }

  lemma {:induction false} ParseStringOfEscape(v: string, rest: string)
    ensures ParseString(Escape(v) + "\"" + rest) == Got(v, rest)
  {
    if v == "" {
      ParseEmptyString(rest);
      assert Escape(v) + "\"" + rest == "\"" + rest;
    } else {
      ParseStringOfEscape(v[1..], rest);
      ParseStringStep(v, rest);
    }
  }

  lemma ParseStringStep(v: string, rest: string)
    requires v != "" && ParseString(Escape(v[1..]) + "\"" + rest) == Got(v[1..], rest)
    ensures ParseString(Escape(v) + "\"" + rest) == Got(v, rest)
  {
    var tail := Escape(v[1..]) + "\"" + rest;
    ParseCharOfEscape(v[0], tail);
    ParseOneChar(EscapeChar(v[0]) + tail, v[0], tail);
    EscapeShape(v, rest);
    assert [v[0]] + v[1..] == v;
  }

  lemma ParseEmptyString(rest: string)
    ensures ParseString("\"" + rest) == Got("", rest)
  {
    assert ("\"" + rest)[1..] == rest;
  }

  lemma ParseOneChar(s: string, c: char, tail: string)
    requires s != "" && s[0] != '\"' && ParseChar(s) == Got(c, tail) && ParseString(tail).Got?
    ensures ParseString(s) == Got([c] + ParseString(tail).value, ParseString(tail).rest)
  {
  }

  lemma EscapeShape(v: string, rest: string)
    requires v != ""
    ensures Escape(v) + "\"" + rest == EscapeChar(v[0]) + (Escape(v[1..]) + "\"" + rest)
  {
  }

  /** What may follow a printed value: anything that cannot extend a number. */
  predicate Ends(rest: string) {
    rest == "" || !IsDigit(rest[0])
  }

  lemma Regroup(a: string, b: string, c: string)
    ensures a + b + c == a + (b + c)
  {
  }

  lemma {:induction false} ParsePrint(j: Json, rest: string)
    requires WellFormed(j) && Ends(rest)
    ensures ParseValue(Print(j) + rest) == Got(j, rest)
    decreases j, 2
  {
    match j
    case Null => ParsePrintScalar(j, rest);
    case Bool(_) => ParsePrintScalar(j, rest);
    case Num(_) => ParsePrintNum(j.n, rest);
    case Str(v) => ParsePrintText(v, rest);
    case Arr(_) => ParsePrintArray(j, rest);
    case Obj(_) => ParsePrintObject(j, rest);
  }

  lemma QuoteShape(v: string, rest: string)
    ensures Quote(v) + rest == ['\"'] + (Escape(v) + "\"" + rest)
  {
  }

  lemma ParseQuoted(body: string, v: string, rest: string)
    requires ParseString(body) == Got(v, rest)
    ensures ParseValue(['\"'] + body) == Got(Str(v), rest)
  {
    ParseFrom('\"', body);
  }

  lemma ParsePrintText(v: string, rest: string)
    ensures ParseValue(Quote(v) + rest) == Got(Str(v), rest)
  {
    QuoteShape(v, rest);
    ParseStringOfEscape(v, rest);
    ParseQuoted(Escape(v) + "\"" + rest, v, rest);
  }

  lemma {:induction false} ParsePrintArray(j: Json, rest: string)
    requires j.Arr? && WellFormed(j) && Ends(rest)
    ensures ParseValue(Print(j) + rest) == Got(j, rest)
    decreases j, 1
  {
    var body := if j.items == [] then "]" else PrintItems(j.items);
    assert Print(j) == ['['] + body;
    Regroup(['['], body, rest);
    ParseFrom('[', body + rest);
    if j.items == [] {
      assert (body + rest)[1..] == rest;
    } else {
      ParsePrintItems(j.items, rest);
    }
  }

  lemma {:induction false} ParsePrintObject(j: Json, rest: string)
    requires j.Obj? && WellFormed(j) && Ends(rest)
    ensures ParseValue(Print(j) + rest) == Got(j, rest)
    decreases j, 1
  {
    hide ParseValue, ParseFields, PrintFields;
    var body := if j.fields == [] then "}" else PrintFields(j.fields);
    assert Print(j) == ['{'] + body;
    Regroup(['{'], body, rest);
    ParseFrom('{', body + rest);
    if j.fields == [] {
      assert (body + rest)[1..] == rest;
    } else {
      assert [] + j.fields == j.fields;
      ParsePrintFields(j.fields, [], rest);
    }
  }

  /** The first character of a value decides how it is read. */
  lemma ParseFrom(c: char, body: string)
    ensures c == '\"' ==> ParseValue([c] + body) == ParseText(body)
    ensures c == '[' ==> ParseValue([c] + body) == ParseArray(body)
    ensures c == '{' ==> ParseValue([c] + body) == ParseObject(body)
  {
    assert ([c] + body)[1..] == body;
  }

  lemma ParsePrintScalar(j: Json, rest: string)
    requires j.Null? || j.Bool?
    ensures ParseValue(Print(j) + rest) == Got(j, rest)
  {
    var s := Print(j) + rest;
    assert s[0] == Print(j)[0];
    assert SkipSpace(s) == s;
    assert s[|Print(j)|..] == rest;
    assert ParseScalar(s) == Got(j, rest);
  }

  lemma ParsePrintNum(n: int, rest: string)
    requires Ends(rest)
    ensures ParseValue(PrintInt(n) + rest) == Got(Num(n), rest)
  {
    if n < 0 {
      ParsePrintNegative(-n, rest);
    } else {
      ParseNatOfPrint(n, rest);
      ParseScalarFrom(PrintNat(n) + rest);
    }
  }

  lemma ParsePrintNegative(m: int, rest: string)
    requires m >= 0 && Ends(rest)
    ensures ParseValue("-" + PrintNat(m) + rest) == Got(Num(-m), rest)
  {
    var digits := PrintNat(m) + rest;
    ParseNatOfPrint(m, rest);
    ParseScalarFrom("-" + digits);
    Regroup("-", PrintNat(m), rest);
    assert ("-" + digits)[1..] == digits;
  }

  lemma ParseScalarFrom(s: string)
    requires s != "" && (s[0] == '-' || IsDigit(s[0]))
    ensures ParseValue(s) == ParseNumber(if s[0] == '-' then s[1..] else s, s[0] == '-')
  {
    assert ParseValue(s) == ParseScalar(s);
  }

  /** A printed value starts with neither white space nor a closing bracket. */
  lemma {:induction false} PrintFirst(j: Json)
    ensures Print(j) != "" && !IsSpace(Print(j)[0]) && !IsJsonSpace(Print(j)[0]) && Print(j)[0] != ']'
  {
  }

  /** The text after an item: the closing bracket, or a comma and the other items. */
  function AfterItem(items: seq<Json>, rest: string): (more: string)
    requires items != []
    ensures more != "" && Ends(more)
  {
    if |items| == 1 then "]" + rest else "," + (PrintItems(items[1..]) + rest)
  }

  lemma PrintItemsShape(items: seq<Json>, rest: string)
    requires items != []
    ensures PrintItems(items) + rest == Print(items[0]) + AfterItem(items, rest)
  {
    var tail := if |items| == 1 then "]" else "," + PrintItems(items[1..]);
    if |items| > 1 {
      Regroup(",", PrintItems(items[1..]), rest);
    }
    assert AfterItem(items, rest) == tail + rest;
    Regroup(Print(items[0]), tail, rest);
  }

  lemma AfterItemTail(items: seq<Json>, rest: string)
    requires items != []
    ensures AfterItem(items, rest)[1..] == if |items| == 1 then rest else PrintItems(items[1..]) + rest
  {
  }

  /** One item, given what it reads as and what follows it. */
  lemma ParseOneItem(s: string, v: Json, more: string)
    requires ParseValue(s) == Got(v, more) && more != "" && (more[0] == ']' || more[0] == ',')
    ensures ParseItems(s) ==
      if more[0] == ']' then Got([v], more[1..])
      else match ParseItems(more[1..]) { case Fail => Fail case Got(vs, rest) => Got([v] + vs, rest) }
  {
    assert SkipSpace(more) == more;
  }

  lemma {:induction false} ParsePrintItems(items: seq<Json>, rest: string)
    requires items != [] && forall i :: 0 <= i < |items| ==> WellFormed(items[i])
    ensures ParseItems(PrintItems(items) + rest) == Got(items, rest)
    ensures var s := PrintItems(items) + rest; SkipSpace(s) == s && s != "" && s[0] != ']'
    decreases items, 0
  {
    var more := AfterItem(items, rest);
    PrintFirst(items[0]);
    ParsePrint(items[0], more);
    PrintItemsShape(items, rest);
    AfterItemTail(items, rest);
    ParseOneItem(PrintItems(items) + rest, items[0], more);
    if |items| > 1 {
      ParsePrintItems(items[1..], rest);
      assert [items[0]] + items[1..] == items;
    } else {
      assert [items[0]] == items;
    }
  }

  /** One field, given what its parts read as. */
  lemma ParseFieldParts(afterQuote: string, key: string, afterColon: string, v: Json, more: string, acc: Fields)
    requires WellFormed(Obj(acc)) && ParseString(afterQuote) == Got(key, [':'] + afterColon)
    requires ParseValue(afterColon) == Got(v, more) && more != "" && (more[0] == '}' || more[0] == ',')
    ensures WellFormed(Obj(Put(acc, key, v)))
    ensures ParseFields(['\"'] + afterQuote, acc)
         == if more[0] == '}' then Got(Put(acc, key, v), more[1..]) else ParseFields(more[1..], Put(acc, key, v))
  {
    PutFields(acc, key, v);
    var s := ['\"'] + afterQuote;
    assert SkipSpace(s) == s && s[1..] == afterQuote;
    var u := [':'] + afterColon;
    assert SkipSpace(u) == u && u[1..] == afterColon;
    assert SkipSpace(more) == more;
  }

  lemma DistinctIsFresh(acc: Fields, fields: Fields)
    requires fields != [] && Distinct(acc + fields)
    ensures !Has(acc, fields[0].key)
  {
    forall i | 0 <= i < |acc| ensures acc[i].key != fields[0].key {
      assert (acc + fields)[i] == acc[i] && (acc + fields)[|acc|] == fields[0];
    }
  }

  /** The text after a field's value: the closing brace, or a comma and the other fields. */
  function AfterField(fields: Fields, rest: string): (more: string)
    requires fields != []
    ensures more != "" && Ends(more)
  {
    if |fields| == 1 then "}" + rest else "," + (PrintFields(fields[1..]) + rest)
  }

  lemma PrintFieldsShape(fields: Fields, rest: string)
    requires fields != []
    ensures PrintFields(fields) + rest
         == Quote(fields[0].key) + ([':'] + (Print(fields[0].value) + AfterField(fields, rest)))
  {
    var f := fields[0];
    var tail := if |fields| == 1 then "}" else "," + PrintFields(fields[1..]);
    if |fields| > 1 {
      Regroup(",", PrintFields(fields[1..]), rest);
    }
    assert AfterField(fields, rest) == tail + rest;
    RegroupField(Quote(f.key), Print(f.value), tail, rest);
  }

  lemma RegroupField(quoted: string, value: string, tail: string, rest: string)
    ensures (quoted + ":" + value + tail) + rest == quoted + ([':'] + (value + (tail + rest)))
  {
    Regroup(quoted + ":" + value, tail, rest);
    Regroup(quoted + ":", value, tail + rest);
    Regroup(quoted, ":", value + (tail + rest));
  }

  /** One field of an object whose earlier fields have other keys, given that its value reads back. */
  lemma ParseOneField(f: Field, acc: Fields, more: string)
    requires WellFormed(Obj(acc)) && !Has(acc, f.key)
    requires more != "" && (more[0] == '}' || more[0] == ',')
    requires ParseValue(Print(f.value) + more) == Got(f.value, more)
    ensures WellFormed(Obj(acc + [f]))
    ensures ParseFields(Quote(f.key) + ([':'] + (Print(f.value) + more)), acc)
         == if more[0] == '}' then Got(acc + [f], more[1..]) else ParseFields(more[1..], acc + [f])
  {
    var afterKey := [':'] + (Print(f.value) + more);
    QuoteShape(f.key, afterKey);
    ParseStringOfEscape(f.key, afterKey);
    ParseFieldParts(Escape(f.key) + "\"" + afterKey, f.key, Print(f.value) + more, f.value, more, acc);
    PutFresh(acc, f.key, f.value);
    assert f == Field(f.key, f.value);
  }

  lemma {:induction false} ParsePrintFields(fields: Fields, acc: Fields, rest: string)
    requires fields != [] && WellFormed(Obj(acc)) && Distinct(acc + fields)
    requires forall i :: 0 <= i < |fields| ==> WellFormed(fields[i].value)
    ensures ParseFields(PrintFields(fields) + rest, acc) == Got(acc + fields, rest)
    ensures var s := PrintFields(fields) + rest; SkipSpace(s) == s && s != "" && s[0] != '}'
    decreases fields, 0
  {
    var f, more := fields[0], AfterField(fields, rest);
    DistinctIsFresh(acc, fields);
    ParsePrint(f.value, more);
    ParseOneField(f, acc, more);
    PrintFieldsShape(fields, rest);
    if |fields| > 1 {
      FieldsRegroup(acc, fields);
      ParsePrintFields(fields[1..], acc + [f], rest);
    } else {
      assert fields == [f];
    }
    AfterFieldTail(fields, rest);
  }

  lemma FieldsRegroup(acc: Fields, fields: Fields)
    requires fields != []
    ensures (acc + [fields[0]]) + fields[1..] == acc + fields
  {
  }

  lemma AfterFieldTail(fields: Fields, rest: string)
    requires fields != []
    ensures AfterField(fields, rest)[1..] == if |fields| == 1 then rest else PrintFields(fields[1..]) + rest
  {
  }

  /** `JSON.parse(JSON.stringify(j))` is `j`. */
  lemma RoundTrip(j: Json)
    requires WellFormed(j)
    ensures Parse(Print(j)) == Some(j)
  {
    assert Print(j) + "" == Print(j);
    ParsePrint(j, "");
  }

  // ----- a printed value fits on one line -----

  predicate NoControl(s: string) {
    forall i :: 0 <= i < |s| ==> s[i] >= ' '
  }

  lemma {:induction false} EscapeNoControl(s: string)
    ensures NoControl(Escape(s))
  {
    if s != "" {
      EscapeNoControl(s[1..]);
    }
  }

  lemma {:induction false} PrintNoControl(j: Json)
    ensures NoControl(Print(j))
    decreases j, 1
  {
    match j
    case Arr(items) => if items != [] { PrintItemsNoControl(items); }
    case Obj(fields) => if fields != [] { PrintFieldsNoControl(fields); }
    case Str(s) => EscapeNoControl(s);
    case _ =>
  }

  lemma {:induction false} PrintItemsNoControl(items: seq<Json>)
    requires items != []
    ensures NoControl(PrintItems(items))
    decreases items, 0
  {
    PrintNoControl(items[0]);
    if |items| > 1 {
      PrintItemsNoControl(items[1..]);
    }
  }

  lemma {:induction false} PrintFieldsNoControl(fields: Fields)
    requires fields != []
    ensures NoControl(PrintFields(fields))
    decreases fields, 0
  {
    EscapeNoControl(fields[0].key);
    PrintNoControl(fields[0].value);
    if |fields| > 1 {
      PrintFieldsNoControl(fields[1..]);
    }
  }

  lemma {:induction false} FieldsEnd(fields: Fields)
    requires fields != []
    ensures PrintFields(fields) != "" && Last(PrintFields(fields)) == '}'
  {
    if |fields| > 1 {
      FieldsEnd(fields[1..]);
    }
  }

  /** A printed object begins and ends with its braces. */
  lemma PrintedBraces(fields: Fields)
    ensures var text := Print(Obj(fields)); |text| >= 2 && text[0] == '{' && Last(text) == '}'
  {
    if fields != [] {
      FieldsEnd(fields);
      hide PrintFields;
      assert Last("{" + PrintFields(fields)) == Last(PrintFields(fields));
    }
  }

  // ----- reading a field as the type it is declared with -----

  function FieldOf(j: Json, key: string): Option<Json> {
    if j.Obj? then Get(j.fields, key) else None
  }

  /** The text of a string field; a missing field counts as the empty text. */
  function TextOf(j: Json, key: string): string {
    match FieldOf(j, key)
    case Some(Str(s)) => s
    case _ => ""
  }

  function IntOf(j: Json, key: string): Option<int> {
    match FieldOf(j, key)
    case Some(Num(n)) => Some(n)
    case _ => None
  }
}
