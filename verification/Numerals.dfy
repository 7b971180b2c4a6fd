/** What number texts mean: the digits as an integer, scaled by powers of ten. */
module Numerals {
  import opened Wrappers
  import opened Decimal

  datatype Exponent = NoExp | Exp(e: char, neg: bool, digits: string)

  /** The parts of a number text. */
  datatype Numeral = Numeral(neg: bool, whole: string, point: bool, frac: string, exp: Exponent)

  predicate LegalExp(x: Exponent) {
    x.Exp? ==> x.e in "eE" && x.digits != "" && AllDigits(x.digits)
  }

  predicate Legal(n: Numeral) {
    && AllDigits(n.whole) && AllDigits(n.frac) && n.whole + n.frac != "" && (!n.point ==> n.frac == "") && LegalExp(n.exp)
  }

  function Sign(neg: bool): string {
    if neg then "-" else ""
  }

  function ExpText(x: Exponent): string {
    if x.NoExp? then "" else [x.e] + (Sign(x.neg) + x.digits)
  }

  function Text(n: Numeral): string {
    Sign(n.neg) + (n.whole + ((if n.point then "." else "") + (n.frac + ExpText(n.exp))))
  }

  lemma {:induction false} DigitsJoin(a: string, b: string)
    requires AllDigits(a) && AllDigits(b)
    ensures AllDigits(a + b) && DigitsVal(a + b) == DigitsVal(a) * Pow10(|b|) + DigitsVal(b)
    decreases |b|
  {
    if b == "" {
      assert a + b == a;
    } else {
      var c := b[..|b| - 1];
      DigitsJoin(a, c);
      assert (a + b)[..|a + b| - 1] == a + c;
      Scaled10(DigitsVal(a), Pow10(|c|), DigitsVal(c));
    }
  }

  lemma Scaled10(x: nat, p: nat, y: nat)
    ensures (x * p + y) * 10 == x * (10 * p) + y * 10
  {
  }

  /** A digit text is its digits times the powers of ten of their places. */
  lemma DigitsPlaces(t: string)
    requires AllDigits(t) && t != ""
    ensures AllDigits(t[1..]) && DigitsVal(t) == (t[0] as int - '0' as int) * Pow10(|t| - 1) + DigitsVal(t[1..])
    ensures Pow10(|t|) == 10 * Pow10(|t| - 1) && Pow10(0) == 1
  {
    hide DigitsVal, Pow10;
    assert t == [t[0]] + t[1..];
    OneDigit([t[0]], |t| - 1);
    DigitsJoin([t[0]], t[1..]);
  }

  lemma OneDigit(d: string, n: nat)
    requires |d| == 1 && AllDigits(d)
    ensures DigitsVal(d) == d[0] as int - '0' as int && Pow10(n + 1) == 10 * Pow10(n) && Pow10(0) == 1
  {
    assert d[..0] == "";
  }

  /** A zero behind the digits is a factor of ten. */
  lemma DigitsZero(t: string)
    requires AllDigits(t)
    ensures AllDigits(t + "0") && DigitsVal(t + "0") == 10 * DigitsVal(t)
  {
    assert (t + "0")[..|t|] == t;
  }

  /** Ten to the exponent, if that has the sign `neg`. */
  function Factor(x: Exponent, neg: bool): (k: nat)
    requires LegalExp(x)
    ensures k > 0
  {
    if x.Exp? && x.neg == neg then Pow10(DigitsVal(x.digits)) else 1
  }

  function Shifted(x: Exponent, v: real): real
    requires LegalExp(x)
  {
    if x.NoExp? then v else Moved(v, x.neg, x.digits)
  }

  /** All digits of a text as one integer. */
  function DigitsOf(n: Numeral): nat
    requires Legal(n)
  {
    DigitsJoin(n.whole, n.frac);
    DigitsVal(n.whole + n.frac)
  }

  /** `v` times ten to the number of digits behind the point, and to the
      exponent if that is negative, is the integer of all digits, times ten to
      the exponent if that is positive, with the sign of the text. */
  predicate Means(n: Numeral, v: real)
    requires Legal(n)
  {
    v * (Pow10(|n.frac|) as real) * (Factor(n.exp, true) as real)
    == (if n.neg then -1.0 else 1.0) * (DigitsOf(n) as real) * (Factor(n.exp, false) as real)
  }

  lemma MantissaMeans(whole: string, frac: string)
    requires AllDigits(whole) && AllDigits(frac)
    ensures AllDigits(whole + frac) && Mantissa(whole, frac) * Pow10(|frac|) as real == DigitsVal(whole + frac) as real
  {
    hide DigitsVal, Pow10;
    DigitsJoin(whole, frac);
    var a, b, p := DigitsVal(whole), DigitsVal(frac), Pow10(|frac|);
    assert (b as real / p as real) * p as real == b as real;
    AddTimes(a as real, b as real / p as real, p as real);
    assert (a * p) as real == a as real * p as real;
  }

  lemma AddTimes(x: real, y: real, p: real)
    ensures (x + y) * p == x * p + y * p
  {
  }

  /** Texts in a row. */
  lemma RowParts(t: string, s: string, w: string, p: string, f: string, x: string, r: string)
    requires t == s + (w + r) && r == p + (f + x)
    ensures var a := |s|; var b := a + |w|; var c := b + |p|; var d := c + |f|;
            && |t| == d + |x| && t[a..b] == w && t[b..c] == p && t[c..d] == f && t[d..] == x
  {
    var b := |s| + |w|;
    FrontParts(t, s, w, r);
    FrontParts(r, p, f, x);
    var c := |p|;
    assert t[b..b + c] == r[..c] && t[b + c..b + c + |f|] == r[c..c + |f|] && t[b + c + |f|..] == r[c + |f|..];
  }

  lemma FrontParts(t: string, x: string, y: string, z: string)
    requires t == x + (y + z)
    ensures |t| == |x| + |y| + |z| && t[..|x|] == x && t[|x|..|x| + |y|] == y && t[|x| + |y|..] == z
  {
  }

  /** Where the parts of a text stand. */
  lemma TextParts(n: Numeral)
    ensures var t := Text(n); var a := if n.neg then 1 else 0; var b := a + |n.whole|;
            var c := if n.point then b + 1 else b; var d := c + |n.frac|;
            && |t| == d + |ExpText(n.exp)| && t[a..b] == n.whole && t[c..d] == n.frac && t[d..] == ExpText(n.exp)
            && (n.point ==> t[b] == '.')
  {
    hide ExpText;
    var t, p := Text(n), if n.point then "." else "";
    RowParts(t, Sign(n.neg), n.whole, p, n.frac, ExpText(n.exp), p + (n.frac + ExpText(n.exp)));
    var b := |Sign(n.neg)| + |n.whole|;
    if n.point { assert t[b] == t[b..b + 1][0]; }
  }

  /** Where the parts of a legal text are found. */
  lemma ScanIs(n: Numeral)
    requires Legal(n)
    ensures var t := Text(n); var a := if n.neg then 1 else 0; var b := a + |n.whole|;
            var c := if n.point then b + 1 else b; var d := c + |n.frac|;
            && Scan(t) == (a, b, c, d) && t[a..b] == n.whole && t[c..d] == n.frac
            && |t| == d + |ExpText(n.exp)| && t[d..] == ExpText(n.exp)
  {
    hide DigitRun, AllDigits, ExpText, Text, IsDigit, LegalExp;
    var t := Text(n);
    var a := if n.neg then 1 else 0;
    var b := a + |n.whole|;
    var c := if n.point then b + 1 else b;
    var d := c + |n.frac|;
    TextParts(n);
    ExpHead(n.exp);
    DashHead(n);
    PointHead();
    if d < |t| { assert t[d] == t[d..][0]; }
    DigitRunIs(t, a, b);
    DigitRunIs(t, c, d);
  }

  lemma PointHead()
    ensures !IsDigit('.') && '.' !in "eE"
  {
  }

  lemma ExpHead(x: Exponent)
    requires LegalExp(x)
    ensures ExpText(x) != "" ==> ExpText(x)[0] in "eE" && !IsDigit(ExpText(x)[0])
  {
  }

  lemma DashHead(n: Numeral)
    requires Legal(n)
    ensures Text(n) != "" && (Text(n)[0] == '-' <==> n.neg)
  {
    var t := Text(n);
    if !n.neg {
      assert t[0] == if n.whole != "" then n.whole[0] else '.';
    }
  }

  lemma LegalDigits(x: Exponent)
    requires x.Exp? && LegalExp(x)
    ensures x.digits != "" && AllDigits(x.digits)
  {
  }

  lemma ExpShape(x: Exponent)
    requires x.Exp? && LegalExp(x)
    ensures var s := ExpText(x);
            |s| > 1 && (s[0] == 'e' || s[0] == 'E') && (s[1] == '-' <==> x.neg)
            && (if x.neg then |s| > 2 && s[2..] == x.digits else s[1..] == x.digits)
  {
  }

  /** The exponent of a text and what it does. */
  lemma ExpReads(t: string, d: nat, x: Exponent)
    requires x.Exp? && LegalExp(x) && d < |t| && t[d..] == ExpText(x)
    ensures var f := if x.neg then d + 2 else d + 1;
            && (t[d] == 'e' || t[d] == 'E') && (d + 1 < |t| && t[d + 1] == '-' <==> x.neg)
            && f < |t| && t[f..] == x.digits && DigitRun(t, f) == |t|
  {
    hide *;
    ExpShape(x);
    LegalDigits(x);
    var f := if x.neg then d + 2 else d + 1;
    assert t[d] == t[d..][0] && t[d + 1] == t[d..][1];
    assert t[f..] == t[d..][f - d..];
    assert t[f..|t|] == t[f..];
    DigitRunIs(t, f, |t|);
  }

  /** What a legal text is read as. */
  lemma DenotedIs(n: Numeral)
    requires Legal(n)
    ensures var m := Mantissa(n.whole, n.frac); Denoted(Text(n)) == Some(Shifted(n.exp, if n.neg then -m else m))
  {
    hide Text, Scan, DigitRun, Mantissa, AllDigits, ExpText, Shifted, LegalExp, Moved;
    var m := Mantissa(n.whole, n.frac);
    ScanIs(n);
    assert |n.whole| + |n.frac| > 0;
    if n.exp.NoExp? {
      ExpNone(n.exp);
      NoShift(n.exp, if n.neg then -m else m);
    } else {
      ExpSome(n.exp);
      ExpReads(Text(n), Scan(Text(n)).3, n.exp);
      WithExponent(Text(n), n.exp, if n.neg then -m else m);
    }
  }

  lemma NoShift(x: Exponent, v: real)
    requires x.NoExp?
    ensures Shifted(x, v) == v
  {
  }

  /** What the exponent does to the number in front of it. */
  lemma WithExponent(t: string, x: Exponent, v: real)
    requires x.Exp? && LegalExp(x)
    requires var (a, b, c, d) := Scan(t); var f := if x.neg then d + 2 else d + 1;
             && b - a + (d - c) != 0 && v == (var m := Mantissa(t[a..b], t[c..d]); if a == 1 then -m else m)
             && d < |t| && (t[d] == 'e' || t[d] == 'E') && (d + 1 < |t| && t[d + 1] == '-' <==> x.neg)
             && f < |t| && t[f..] == x.digits && DigitRun(t, f) == |t|
    ensures Denoted(t) == Some(Shifted(x, v))
  {
    hide Scan, DigitRun, Mantissa, AllDigits, Moved;
    var f := if x.neg then Scan(t).3 + 2 else Scan(t).3 + 1;
    assert t[f..] == t[f..|t|];
  }

  /** Every legal text reads as the number it means. */
  lemma NumeralReads(n: Numeral)
    requires Legal(n)
    ensures Denoted(Text(n)).Some? && Means(n, Denoted(Text(n)).value)
  {
    hide Text, Denoted, Mantissa, DigitsVal, Pow10, AllDigits, Factor, Shifted;
    DenotedIs(n);
    MantissaMeans(n.whole, n.frac);
    var m := Mantissa(n.whole, n.frac);
    SignTimes(n.neg, m, Pow10(|n.frac|) as real);
    ShiftTimes(n.exp, if n.neg then -m else m, Pow10(|n.frac|) as real);
  }

  lemma ExpNone(x: Exponent)
    requires x.NoExp?
    ensures ExpText(x) == ""
  {
  }

  lemma ExpSome(x: Exponent)
    requires x.Exp?
    ensures ExpText(x) != ""
  {
  }

  lemma SignTimes(neg: bool, m: real, p: real)
    ensures (if neg then -m else m) * p == (if neg then -1.0 else 1.0) * (m * p)
  {
  }

  lemma ShiftTimes(x: Exponent, v: real, p: real)
    requires LegalExp(x)
    ensures Shifted(x, v) * p * Factor(x, true) as real == v * p * Factor(x, false) as real
  {
    hide DigitsVal, Pow10, AllDigits;
    if x.Exp? {
      var k := Pow10(DigitsVal(x.digits)) as real;
      if x.neg {
        assert v / k * k == v;
        Commute(v / k, p, k);
      } else {
        Commute(v, k, p);
      }
    }
  }

  lemma Commute(x: real, y: real, z: real)
    ensures x * y * z == x * z * y
  {
  }

  /** The parts of a text that denotes a number. */
  function NumeralOf(t: string): Numeral {
    var (a, b, c, d) := Scan(t);
    var neg := d + 1 < |t| && t[d + 1] == '-';
    Numeral(a == 1, t[a..b], c > b, t[c..d],
            if d == |t| then NoExp
            else Exp(t[d], neg, if neg then t[d + 2..] else t[d + 1..]))
  }

  lemma PartsLegal(t: string)
    requires Denoted(t).Some? && LegalExp(NumeralOf(t).exp)
    ensures Legal(NumeralOf(t))
  {
    hide Mantissa, DigitRun, Scan, AllDigits, LegalExp, ExpText, Moved;
    ScanParts(t);
    var n := NumeralOf(t);
    assert |n.whole| + |n.frac| > 0;
  }

  lemma PartsJoined(t: string)
    requires ExpText(NumeralOf(t).exp) == t[Scan(t).3..]
    ensures Text(NumeralOf(t)) == t
  {
    hide DigitRun, Scan, AllDigits, ExpText;
    var (a, b, c, d) := Scan(t);
    ScanParts(t);
    Joined(t, a, b, c, d);
    SignAndPoint(t, a, b, c);
  }

  lemma SignAndPoint(t: string, a: nat, b: nat, c: nat)
    requires a <= 1 && a <= b <= c <= |t| && c <= b + 1
    requires (a == 1 ==> t[0] == '-') && (c == b + 1 ==> t[b] == '.')
    ensures t[..a] == Sign(a == 1) && t[b..c] == if c > b then "." else ""
  {
  }

  lemma Joined(t: string, a: nat, b: nat, c: nat, d: nat)
    requires a <= b <= c <= d <= |t|
    ensures t == t[..a] + (t[a..b] + (t[b..c] + (t[c..d] + t[d..])))
  {
  }

  /** Nothing else reads as a number. */
  lemma OnlyNumerals(t: string)
    requires Denoted(t).Some?
    ensures Legal(NumeralOf(t)) && Text(NumeralOf(t)) == t
  {
    hide *;
    ExpParts(t, Scan(t).3);
    PartsLegal(t);
    PartsJoined(t);
  }

  lemma ScanParts(t: string)
    ensures var (a, b, c, d) := Scan(t);
            && a <= 1 && (a == 1 ==> t[0] == '-') && (c == b || (c == b + 1 && t[b] == '.')) && (c == b ==> d == b)
  {
    hide DigitRun;
  }

  lemma ExpParts(t: string, d: nat)
    requires d <= |t| && Denoted(t).Some? && d == Scan(t).3
    ensures LegalExp(NumeralOf(t).exp) && ExpText(NumeralOf(t).exp) == t[d..]
  {
    hide Scan, DigitRun, AllDigits, Denoted;
    ExpFound(t, d);
    if d < |t| {
      var neg := d + 1 < |t| && t[d + 1] == '-';
      var f := if neg then d + 2 else d + 1;
      assert t[d..] == [t[d]] + (Sign(neg) + t[f..]);
    }
  }

  lemma ExpFound(t: string, d: nat)
    requires d < |t| ==> Denoted(t).Some? && d == Scan(t).3
    ensures d < |t| ==> var f := if d + 1 < |t| && t[d + 1] == '-' then d + 2 else d + 1;
                        t[d] in "eE" && f < |t| && AllDigits(t[f..])
  {
    hide Mantissa, Moved, Scan, AllDigits, DigitsVal;
    if d < |t| {
      var f := if d + 1 < |t| && t[d + 1] == '-' then d + 2 else d + 1;
      assert f < |t| ==> t[f..|t|] == t[f..];
    }
  }

  /** A text is read as a number exactly when it has the parts of one and is in
      the range of 64-bit floats, and then as the number its parts mean. */
  lemma ParseExact(t: string)
    ensures ParseFloat(t).Some? ==> Legal(NumeralOf(t)) && Text(NumeralOf(t)) == t && Means(NumeralOf(t), ParseFloat(t).value)
    ensures ParseFloat(t).None? <==> forall n, v: real | Legal(n) && Text(n) == t && Means(n, v) :: !InRange(v)
  {
    hide Means, Legal, Text, NumeralOf, Denoted, InRange;
    if Denoted(t).Some? {
      OnlyNumerals(t);
      NumeralReads(NumeralOf(t));
      assert Means(NumeralOf(t), Denoted(t).value);
    }
    forall n, v: real | Legal(n) && Text(n) == t && Means(n, v) ensures Denoted(t) == Some(v) {
      NumeralReads(n);
      MeansOnce(n, v, Denoted(t).value);
    }
  }

  /** A text means one number. */
  lemma MeansOnce(n: Numeral, v: real, w: real)
    requires Legal(n) && Means(n, v) && Means(n, w)
    ensures v == w
  {
    hide DigitsOf, Factor, AllDigits, Pow10, LegalExp;
    CancelTwice(v, w, Pow10(|n.frac|) as real, Factor(n.exp, true) as real,
                (if n.neg then -1.0 else 1.0) * (DigitsOf(n) as real) * (Factor(n.exp, false) as real));
  }

  lemma CancelTwice(v: real, w: real, p: real, k: real, x: real)
    requires p > 0.0 && k > 0.0 && v * p * k == x && w * p * k == x
    ensures v == w
  {
    Cancel(v * p, w * p, k);
    Cancel(v, w, p);
  }

  lemma Cancel(x: real, y: real, p: real)
    requires p > 0.0 && x * p == y * p
    ensures x == y
  {
    assert (x * p) / p == x && (y * p) / p == y;
  }

  /** A zero at the end of the digits behind the point changes nothing. */
  lemma TrailingZero(n: Numeral)
    requires Legal(n) && n.point
    ensures var z := n.(frac := n.frac + "0"); Legal(z) && Denoted(Text(z)) == Denoted(Text(n))
  {
    hide Text, Denoted, DigitsVal, Pow10;
    var z := n.(frac := n.frac + "0");
    NumeralReads(n);
    NumeralReads(z);
    ZeroMeans(n, Denoted(Text(z)).value);
    MeansOnce(n, Denoted(Text(z)).value, Denoted(Text(n)).value);
  }

  lemma ZeroMeans(n: Numeral, v: real)
    requires Legal(n) && Legal(n.(frac := n.frac + "0")) && Means(n.(frac := n.frac + "0"), v)
    ensures Means(n, v)
  {
    hide DigitsVal, AllDigits, Factor;
    DigitsJoin(n.whole, n.frac);
    DigitsZero(n.whole + n.frac);
    assert n.whole + (n.frac + "0") == n.whole + n.frac + "0";
    assert Pow10(|n.frac + "0"|) == 10 * Pow10(|n.frac|);
    TenTimes(v, Pow10(|n.frac|) as real, Factor(n.exp, true) as real, if n.neg then -1.0 else 1.0,
             DigitsOf(n) as real, Factor(n.exp, false) as real);
  }

  lemma TenTimes(v: real, p: real, d: real, s: real, x: real, u: real)
    requires v * (10.0 * p) * d == s * (10.0 * x) * u
    ensures v * p * d == s * x * u
  {
    assert v * (10.0 * p) * d == 10.0 * (v * p * d);
    assert s * (10.0 * x) * u == 10.0 * (s * x * u);
  }
}
