/** Decimal numbers as text: how values are printed and how the number action
    reads them. Floats are exact reals, not rounded to binary; a text beyond the
    range of 64-bit floats is an error. */
module Decimal {
  import opened Wrappers

  predicate IsDigit(c: char) {
    '0' <= c <= '9'
  }

  predicate AllDigits(t: string) {
    forall i | 0 <= i < |t| :: IsDigit(t[i])
  }

  function Digit(n: nat): (c: char)
    requires n < 10
    ensures IsDigit(c)
  {
    ('0' as int + n) as char
  }

  function Pow10(k: nat): (p: nat)
    ensures p > 0
  {
    if k == 0 then 1 else 10 * Pow10(k - 1)
  }

  function DigitsVal(t: string): nat
    requires AllDigits(t)
  {
    if t == "" then 0 else DigitsVal(t[..|t| - 1]) * 10 + (t[|t| - 1] as int - '0' as int)
  }

  /** The end of the run of digits that starts at `i`. */
  function DigitRun(t: string, i: nat): (j: nat)
    requires i <= |t|
    ensures i <= j <= |t| && AllDigits(t[i..j])
    ensures j < |t| ==> !IsDigit(t[j])
    decreases |t| - i
  {
    if i < |t| && IsDigit(t[i]) then
      var j := DigitRun(t, i + 1);
      assert t[i..j] == [t[i]] + t[i + 1..j];
      j
    else i
  }

  lemma DigitRunIs(t: string, i: nat, j: nat)
    requires i <= j <= |t| && AllDigits(t[i..j])
    requires j < |t| ==> !IsDigit(t[j])
    ensures DigitRun(t, i) == j
    decreases j - i
  {
    if i < j {
      assert t[i] == t[i..j][0];
      assert t[i + 1..j] == t[i..j][1..];
      DigitRunIs(t, i + 1, j);
    }
  }

  /** Where the digits before the point and those after it start and end. */
  function Scan(t: string): (r: (nat, nat, nat, nat))
    ensures r.0 <= r.1 <= r.2 <= r.3 <= |t| && AllDigits(t[r.0..r.1]) && AllDigits(t[r.2..r.3])
  {
    var a := if t != "" && t[0] == '-' then 1 else 0;
    var b := DigitRun(t, a);
    var c := if b < |t| && t[b] == '.' then b + 1 else b;
    var d := if c > b then DigitRun(t, c) else b;
    (a, b, c, d)
  }

  function Mantissa(whole: string, frac: string): real
    requires AllDigits(whole) && AllDigits(frac)
  {
    DigitsVal(whole) as real + DigitsVal(frac) as real / Pow10(|frac|) as real
  }
  function Abs(v: real): real {
    if v < 0.0 then -v else v
  }

  /** `v` divided by 2 to the power `n`. */
  function Halved(v: real, n: nat): real
    decreases n, v
  {
    if n == 0 then v else Halved(v / 2.0, n - 1)
  }

  /** Below 2^1024 - 2^970: from there on, half a unit above the largest 64-bit
      float, numbers are rounded to infinity. */
  predicate InRange(v: real) {
    Halved(Abs(v), 970) < 18014398509481983.0
  }

  /** Go's ParseFloat on texts of digits, dots, dashes and exponent letters;
      None for its syntax and range errors. */
  function ParseFloat(t: string): Option<real> {
    var v := Denoted(t);
    if v.Some? && InRange(v.value) then v else None
  }

  /** `v` times or divided by ten to the power of the number in `digits`. */
  function Moved(v: real, down: bool, digits: string): real
    requires AllDigits(digits)
  {
    var p := Pow10(DigitsVal(digits)) as real;
    if down then v / p else v * p
  }

  /** The number that a text of the right syntax denotes. */
  function Denoted(t: string): Option<real> {
    var (a, b, c, d) := Scan(t);
    var neg := a == 1;
    if b - a + (d - c) == 0 then None
    else
      var whole, frac := t[a..b], t[c..d];
      var mant := Mantissa(whole, frac);
      var v := if neg then -mant else mant;
      if d == |t| then Some(v)
      else if t[d] != 'e' && t[d] != 'E' then None
      else
        var negExp := d + 1 < |t| && t[d + 1] == '-';
        var f := if negExp then d + 2 else d + 1;
        if f == |t| || DigitRun(t, f) != |t| then None
        else
          assert t[f..] == t[f..|t|];
          Some(Moved(v, negExp, t[f..]))
  }

  function Dec(n: nat): (t: string)
    ensures t != "" && AllDigits(t) && DigitsVal(t) == n
  {
    if n < 10 then [Digit(n)]
    else
      var t := Dec(n / 10) + [Digit(n % 10)];
      assert t[..|t| - 1] == Dec(n / 10);
      t
  }

  /** The last `k` decimal digits of `n`, padded with zeros. */
  function Pad(n: nat, k: nat): (t: string)
    ensures |t| == k && AllDigits(t)
    ensures n < Pow10(k) ==> DigitsVal(t) == n
  {
    if k == 0 then ""
    else
      var t := Pad(n / 10, k - 1) + [Digit(n % 10)];
      assert t[..|t| - 1] == Pad(n / 10, k - 1);
      t
  }

  function IntText(n: int): string {
    if n < 0 then "-" + Dec(-n) else Dec(n)
  }

  const SCALE: nat := 100000000

  /** |v| in units of 10^-8, rounded to nearest, ties to even. */
  function Scaled(v: real): (m: nat) {
    var x := Abs(v) * SCALE as real;
    var f := x.Floor;
    var rest := x - f as real;
    if rest < 0.5 || (rest == 0.5 && f % 2 == 0) then f else f + 1
  }

  function FloatText(v: real): string {
    (if v < 0.0 then "-" else "") + Dec(Scaled(v) / SCALE) + "." + Pad(Scaled(v) % SCALE, 8)
  }

  function Rounded(v: real): real {
    if v < 0.0 then -(Scaled(v) as real / SCALE as real) else Scaled(v) as real / SCALE as real
  }

  /** What Go's integers and floats can hold; the largest float is 2^1024 - 2^971. */
  predicate GoInt(n: int) {
    -0x8000_0000_0000_0000 <= n < 0x8000_0000_0000_0000
  }

  predicate GoFloat(v: real) {
    Halved(Abs(v), 971) <= 9007199254740991.0
  }

  /** Halving is monotonic and additive. */
  lemma {:induction false} HalvedAdd(x: real, y: real, n: nat)
    requires x >= 0.0 && y >= 0.0
    ensures 0.0 <= Halved(x, n) && 0.0 <= Halved(y, n) && Halved(x + y, n) == Halved(x, n) + Halved(y, n)
    ensures Halved(y, n) <= y
    decreases n
  {
    if n > 0 {
      assert (x + y) / 2.0 == x / 2.0 + y / 2.0;
      HalvedAdd(x / 2.0, y / 2.0, n - 1);
    }
  }

  lemma {:induction false} HalvedStep(v: real, n: nat)
    ensures Halved(v, n + 1) == Halved(v, n) / 2.0
    decreases n
  {
    if n > 0 { HalvedStep(v / 2.0, n - 1); }
  }

  lemma HalvedMono(x: real, y: real, n: nat)
    requires 0.0 <= x <= y
    ensures Halved(x, n) <= Halved(y, n)
  {
    HalvedAdd(x, y - x, n);
    assert x + (y - x) == y;
  }

  lemma IntInRange(n: int)
    requires GoInt(n)
    ensures InRange(n as real)
  {
    hide Halved;
    var x := Abs(n as real);
    assert x <= 9223372036854775808.0;
    HalvedAdd(0.0, x, 960);
    HalvedTen(x, 960);
  }

  lemma HalvedTen(v: real, n: nat)
    requires v >= 0.0
    ensures Halved(v, n + 10) <= Halved(v, n) / 1024.0
  {
    hide Halved;
    HalvedStep(v, n);
    HalvedStep(v, n + 1);
    HalvedStep(v, n + 2);
    HalvedStep(v, n + 3);
    HalvedStep(v, n + 4);
    HalvedStep(v, n + 5);
    HalvedStep(v, n + 6);
    HalvedStep(v, n + 7);
    HalvedStep(v, n + 8);
    HalvedStep(v, n + 9);
  }

  lemma RoundedInRange(v: real)
    requires GoFloat(v)
    ensures InRange(Rounded(v))
  {
    hide Halved, Rounded;
    RoundedNear(v);
    HalvedStep(Abs(v), 970);
    HalvedAdd(Abs(v), 1.0, 970);
    HalvedAdd(0.0, 1.0, 960);
    HalvedTen(1.0, 960);
    HalvedMono(Abs(Rounded(v)), Abs(v) + 1.0, 970);
  }

  function PowTwo(n: nat): nat {
    if n == 0 then 1 else 2 * PowTwo(n - 1)
  }

  lemma {:induction false} HalvedIs(v: real, n: nat)
    ensures v == Halved(v, n) * PowTwo(n) as real
    decreases n
  {
    if n > 0 {
      HalvedIs(v / 2.0, n - 1);
      assert PowTwo(n) as real == 2.0 * PowTwo(n - 1) as real;
    }
  }

  lemma ScaledAtMost(v: real, k: nat)
    requires Abs(v) * SCALE as real <= k as real
    ensures Scaled(v) <= k
  {
    assert (Abs(v) * SCALE as real).Floor <= k;
  }

  lemma AbsRounded(v: real)
    ensures Abs(Rounded(v)) * SCALE as real == Scaled(v) as real
  {
    hide Scaled;
    assert Scaled(v) as real / SCALE as real >= 0.0;
  }

  lemma {:induction false} HalvedSteps(v: real, n: nat, k: nat)
    ensures Halved(v, n) == Halved(v, n + k) * PowTwo(k) as real
    decreases k
  {
    if k > 0 {
      HalvedStep(v, n + k - 1);
      HalvedSteps(v, n, k - 1);
      assert PowTwo(k) as real == 2.0 * PowTwo(k - 1) as real;
    }
  }

  lemma {:induction false} PowTwoAdd(m: nat, n: nat)
    ensures PowTwo(m + n) == PowTwo(m) * PowTwo(n)
    decreases n
  {
    if n > 0 {
      PowTwoAdd(m, n - 1);
      Associate(2, PowTwo(m), PowTwo(n - 1));
    }
  }

  lemma Associate(x: nat, y: nat, z: nat)
    ensures x * (y * z) == y * (x * z)
  {
  }

  /** 2^53 and 2^54. */
  lemma PowTwoSome()
    ensures PowTwo(53) == 9007199254740992 && PowTwo(54) == 18014398509481984
  {
    assert PowTwo(9) == 512;
    PowTwoAdd(9, 9);
    PowTwoAdd(18, 9);
    PowTwoAdd(27, 26);
    assert PowTwo(27) == 2 * PowTwo(26);
  }

  /** In units of 2^1024: what is nearer to one than half a unit in the last of
      53 places is too large, and the largest float is one unit below. */
  lemma RangesExact(v: real)
    ensures InRange(v) <==> Halved(Abs(v), 1024) < 1.0 - 1.0 / 18014398509481984.0
    ensures GoFloat(v) <==> Halved(Abs(v), 1024) <= 1.0 - 1.0 / 9007199254740992.0
  {
    hide Halved, PowTwo;
    PowTwoSome();
    HalvedSteps(Abs(v), 970, 54);
    HalvedSteps(Abs(v), 971, 53);
  }

  /** Rounding does not leave a range with an integer bound. */
  lemma RoundedWithin(v: real, n: nat, m: nat)
    requires Halved(Abs(v), n) <= m as real
    ensures Halved(Abs(Rounded(v)), n) <= m as real
  {
    hide Halved, PowTwo, Rounded, Scaled, Abs;
    var p := PowTwo(n);
    var q := m * p;
    HalvedIs(Abs(v), n);
    HalvedIs(Abs(Rounded(v)), n);
    PowTwoPositive(n);
    TimesMono(Halved(Abs(v), n), m as real, p as real);
    assert m as real * p as real == q as real;
    ScaledAtMost(v, q * SCALE);
    AbsRounded(v);
    assert Abs(Rounded(v)) <= q as real;
    if Halved(Abs(Rounded(v)), n) > m as real {
      TimesLess(m as real, Halved(Abs(Rounded(v)), n), p as real);
    }
  }

  lemma PowTwoPositive(n: nat)
    ensures PowTwo(n) > 0
  {
  }

  lemma TimesMono(a: real, b: real, c: real)
    requires a <= b && c >= 0.0
    ensures a * c <= b * c
  {
  }

  lemma TimesLess(a: real, b: real, c: real)
    requires a < b && c > 0.0
    ensures a * c < b * c
  {
  }

  lemma RoundedGoFloat(v: real)
    requires GoFloat(v)
    ensures GoFloat(Rounded(v))
  {
    hide Halved, Rounded;
    RoundedWithin(v, 971, 9007199254740991);
  }

  lemma RoundedNear(v: real)
    ensures v - 1.0 < Rounded(v) < v + 1.0
  {
    var x := Abs(v) * SCALE as real;
    assert x - 1.0 < Scaled(v) as real < x + 1.0;
    assert Abs(v) - 1.0 < Scaled(v) as real / SCALE as real < Abs(v) + 1.0;
  }

  lemma IntRoundTrip(n: int)
    requires GoInt(n)
    ensures ParseFloat(IntText(n)) == Some(n as real)
  {
    IntInRange(n);
    IntParsed(n);
    hide InRange, Denoted;
  }

  lemma IntParsed(n: int)
    ensures Denoted(IntText(n)) == Some(n as real)
  {
    var t := IntText(n);
    var a := if n < 0 then 1 else 0;
    assert t[a..] == Dec(if n < 0 then -n else n);
    assert t[a..|t|] == t[a..];
    assert n >= 0 ==> IsDigit(t[0]);
    DigitRunIs(t, a, |t|);
  }

  lemma ScaleIsPow()
    ensures Pow10(8) == SCALE
  {
    assert Pow10(4) == 10000;
  }

  lemma SplitScaled(m: nat)
    ensures m as real / SCALE as real == (m / SCALE) as real + (m % SCALE) as real / SCALE as real
  {
    var q, r := m / SCALE, m % SCALE;
    assert m == q * SCALE + r;
    assert m as real == q as real * SCALE as real + r as real;
  }

  /** The printed number is as near as any multiple of 10^-8, and of two that
      are as near the even one. */
  lemma RoundedNearest(v: real, k: nat)
    ensures var x, m := Abs(v) * SCALE as real, Scaled(v);
            Abs(x - m as real) <= Abs(x - k as real) && (Abs(x - m as real) == Abs(x - k as real) && k != m ==> m % 2 == 0)
  {
    var x := Abs(v) * SCALE as real;
    var f := x.Floor;
    assert f as real <= x < (f + 1) as real;
    if k <= f { assert k as real <= f as real; } else { assert k as real >= (f + 1) as real; }
  }

  /** Exactly the multiples of 10^-8 are printed as they are. */
  lemma RoundedExact(v: real)
    ensures Rounded(v) == v <==> v * SCALE as real == (v * SCALE as real).Floor as real
  {
    var x := v * SCALE as real;
    var k: int := Scaled(v);
    var m := if v < 0.0 then -k else k;
    if x == x.Floor as real {
      ScaledIs(v, if v < 0.0 then -x.Floor else x.Floor);
    }
    hide Scaled;
    assert Rounded(v) * SCALE as real == m as real;
  }

  lemma ScaledIs(v: real, k: int)
    requires Abs(v) * SCALE as real == k as real
    ensures k == Scaled(v)
  {
  }

  lemma FloatRoundTrip(v: real)
    requires GoFloat(v)
    ensures ParseFloat(FloatText(v)) == Some(Rounded(v))
  {
    RoundedInRange(v);
    FloatParsed(v);
    hide InRange, Denoted, Rounded;
  }

  lemma FloatParsed(v: real)
    ensures Denoted(FloatText(v)) == Some(Rounded(v))
  {
    hide Scaled, Dec, Pad, DigitsVal, Pow10;
    var m := Scaled(v);
    var whole, frac := Dec(m / SCALE), Pad(m % SCALE, 8);
    ParsePoint(v < 0.0, whole, frac);
    assert FloatText(v) == (if v < 0.0 then "-" else "") + whole + "." + frac;
    ScaleIsPow();
    SplitScaled(m);
  }

  lemma ParsePoint(neg: bool, whole: string, frac: string)
    requires whole != "" && AllDigits(whole) && AllDigits(frac)
    ensures var x := Mantissa(whole, frac);
            Denoted((if neg then "-" else "") + whole + "." + frac) == Some(if neg then -x else x)
  {
    hide DigitsVal, Pow10, DigitRun, Scan, AllDigits, Mantissa;
    var t := (if neg then "-" else "") + whole + "." + frac;
    ScanPoint(neg, whole, frac, t);
  }

  lemma ScanPoint(neg: bool, whole: string, frac: string, t: string)
    requires whole != "" && AllDigits(whole) && AllDigits(frac)
    requires t == (if neg then "-" else "") + whole + "." + frac
    ensures var a := if neg then 1 else 0; var b := a + |whole|;
            Scan(t) == (a, b, b + 1, |t|) && t[a..b] == whole && t[b + 1..|t|] == frac
  {
    hide DigitRun;
    var a := if neg then 1 else 0;
    var b := a + |whole|;
    assert t[a..b] == whole && t[b] == '.' && t[b + 1..|t|] == frac;
    assert !neg ==> t[0] == whole[0] && IsDigit(t[0]);
    DigitRunIs(t, a, b);
    DigitRunIs(t, b + 1, |t|);
  }
}
