/** The rolling hash in synthesized call ids, with JavaScript's 32-bit arithmetic written out. */
module ShortHash {
  import opened Text

  const TWO_TO_31 := 0x8000_0000
  const TWO_TO_32 := 0x1_0000_0000

  /** JavaScript's `x | 0` on an integer. */
  function ToInt32(x: int): (r: int)
    ensures -TWO_TO_31 <= r < TWO_TO_31
    ensures (x - r) % TWO_TO_32 == 0
  {
    var m := x % TWO_TO_32;
    if m >= TWO_TO_31 then m - TWO_TO_32 else m
  }

  /** The UTF-16 code units of a text. */
  function CodeUnits(s: string): seq<nat> {
    if s == "" then []
    else
      var c := s[0] as int;
      (if c < 0x1_0000 then [c] else [0xD800 + (c - 0x1_0000) / 0x400, 0xDC00 + (c - 0x1_0000) % 0x400])
      + CodeUnits(s[1..])
  }

  function Power33(n: nat): nat {
    if n == 0 then 1 else 33 * Power33(n - 1)
  }

  /** The sum of `c_i * 33^(n-1-i)` over all code units. */
  function WeightedSum(units: seq<nat>): nat {
    if units == [] then 0 else units[0] * Power33(|units| - 1) + WeightedSum(units[1..])
  }

  /** The hash before any wrapping. */
  function Polynomial(units: seq<nat>): nat {
    5381 * Power33(|units|) + WeightedSum(units)
  }

  /** The hash as `hashShortString` leaves it before taking the absolute value. */
  function Hash(units: seq<nat>): int {
    ToInt32(Polynomial(units))
  }

  /** Two integers that differ by a multiple of 2^32 wrap to the same one. */
  lemma SameInt32(x: int, y: int, k: int)
    requires x == y + k * TWO_TO_32
    ensures ToInt32(x) == ToInt32(y)
  {
    ModShift(y, k);
  }

  lemma ModShift(y: int, k: int)
    ensures (y + k * TWO_TO_32) % TWO_TO_32 == y % TWO_TO_32
  {
    var q, r := y / TWO_TO_32, y % TWO_TO_32;
    assert y + k * TWO_TO_32 == (q + k) * TWO_TO_32 + r;
    DivisionIsUnique(y + k * TWO_TO_32, q + k, r);
  }

  lemma DivisionIsUnique(x: int, q: int, r: int)
    requires x == q * TWO_TO_32 + r && 0 <= r < TWO_TO_32
    ensures x % TWO_TO_32 == r
  {
  }

  /** One wrapped step is the exact step, wrapped once. */
  lemma WrappedStep(exact: int, c: nat)
    ensures ToInt32(ToInt32(ToInt32(exact) * 32) + ToInt32(exact) + c) == ToInt32(33 * exact + c)
  {
    var h := ToInt32(exact);
    var shifted := ToInt32(h * 32);
    var a, b := (exact - h) / TWO_TO_32, (h * 32 - shifted) / TWO_TO_32;
    assert exact == h + a * TWO_TO_32 && h * 32 == shifted + b * TWO_TO_32;
    assert 33 * exact + c == (shifted + h + c) + (33 * a + b) * TWO_TO_32;
    SameInt32(33 * exact + c, shifted + h + c, 33 * a + b);
  }

  lemma {:induction false} WeightedSumSnoc(units: seq<nat>, c: nat)
    ensures WeightedSum(units + [c]) == 33 * WeightedSum(units) + c
  {
    if units == [] {
      assert units + [c] == [c] && [c][1..] == [];
      assert WeightedSum([c]) == c * Power33(0) + WeightedSum([]);
    } else {
      assert (units + [c])[1..] == units[1..] + [c];
      WeightedSumSnoc(units[1..], c);
      var p := Power33(|units| - 1);
      assert Power33(|units|) == 33 * p;
      assert units[0] * (33 * p) == 33 * (units[0] * p);
    }
  }

  /** One more code unit multiplies the exact hash by 33 and adds the unit. */
  lemma PolynomialSnoc(units: seq<nat>, c: nat)
    ensures Polynomial(units + [c]) == 33 * Polynomial(units) + c
  {
    WeightedSumSnoc(units, c);
  }

  function Base36Digit(d: nat): char
    requires d < 36
  {
    if d < 10 then ('0' as int + d) as char else ('a' as int + d - 10) as char
  }

  /** `n.toString(36)` */
  function ToBase36(n: nat): (r: string)
    ensures r != ""
  {
    if n < 36 then [Base36Digit(n)] else ToBase36(n / 36) + [Base36Digit(n % 36)]
  }

  function Abs(x: int): nat {
    if x < 0 then -x else x
  }

  function HashText(s: string): string {
    ToBase36(Abs(Hash(CodeUnits(s))))
  }

  /** The loop with its intermediate wrapping computes the exact polynomial, wrapped once; its text is base 36. */
  method HashShortString(input: string) returns (r: string)
    ensures r == HashText(input)
    ensures Abs(Hash(CodeUnits(input))) <= TWO_TO_31
  {
    var units := CodeUnits(input);
    var h := 5381;
    var i := 0;
    assert units[..0] == [] && Polynomial([]) == 5381;
    while i < |units|
      invariant 0 <= i <= |units|
      invariant h == Hash(units[..i])
    {
      assert units[..i + 1] == units[..i] + [units[i]];
      PolynomialSnoc(units[..i], units[i]);
      WrappedStep(Polynomial(units[..i]), units[i]);
      h := ToInt32(ToInt32(h * 32) + h + units[i]);
      i := i + 1;
    }
    assert units[..i] == units;
    r := ToBase36(Abs(h));
  }

  /** The wrapped loop as a function of the code units: what one iteration does after the others. */
  function Loop(units: seq<nat>): int {
    if units == [] then 5381
    else
      var h := Loop(Init(units));
      ToInt32(ToInt32(h * 32) + h + Last(units))
  }

  /** For every text the step-by-step wrapped loop equals the exact polynomial reduced to 32 signed bits. */
  lemma {:induction false} LoopIsPolynomial(units: seq<nat>)
    ensures Loop(units) == ToInt32(5381 * Power33(|units|) + WeightedSum(units))
    ensures 0 <= Abs(Loop(units)) <= TWO_TO_31
  {
    hide ToInt32, WeightedSum, Power33;
    if units == [] {
      LoopStart();
    } else {
      LoopIsPolynomial(Init(units));
      PolynomialSnoc(Init(units), Last(units));
      WrappedStep(Polynomial(Init(units)), Last(units));
      assert units == Init(units) + [Last(units)];
    }
  }

  lemma LoopStart()
    ensures ToInt32(5381 * Power33(0) + WeightedSum([])) == 5381
  {
  }

  function Base36Value(c: char): nat {
    if '0' <= c <= '9' then c as int - '0' as int else if 'a' <= c <= 'z' then c as int - 'a' as int + 10 else 0
  }

  function FromBase36(s: string): nat {
    if s == "" then 0 else 36 * FromBase36(Init(s)) + Base36Value(Last(s))
  }

  /** The text of a hash determines its absolute value. */
  lemma {:induction false} Base36RoundTrip(n: nat)
    ensures FromBase36(ToBase36(n)) == n
  {
    if n >= 36 {
      Base36RoundTrip(n / 36);
      assert Init(ToBase36(n)) == ToBase36(n / 36);
    } else {
      assert Init(ToBase36(n)) == "";
    }
  }

  /** The text reads back as the distance of the exact sum to the nearest multiple of 2^32. */
  lemma HashReadsBack(s: string)
    ensures var exact := 5381 * Power33(|CodeUnits(s)|) + WeightedSum(CodeUnits(s));
      var low := exact % 0x1_0000_0000;
      FromBase36(HashText(s)) == if low >= 0x8000_0000 then 0x1_0000_0000 - low else low
  {
    Base36RoundTrip(Abs(Hash(CodeUnits(s))));
  }

  /** A character beyond the first 2^16 is two units, which stand for it as UTF-16 prescribes; any other is its own unit. */
  lemma UnitsStandFor(c: char)
    ensures var units := CodeUnits([c]);
      if c as int < 0x1_0000 then units == [c as int]
      else
        && |units| == 2 && 0xD800 <= units[0] < 0xDC00 && 0xDC00 <= units[1] < 0xE000
        && 0x1_0000 + (units[0] - 0xD800) * 0x400 + (units[1] - 0xDC00) == c as int
  {
    assert [c][1..] == [] && CodeUnits([]) == [];
  }
}
