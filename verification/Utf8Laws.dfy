/** Decoding against encoding: the bytes of a code point (RFC 3629, section 3)
    decode to it, and nothing else is well-formed. */
module Utf8Laws {
  import opened Utf8

  /** The code points that have an encoding; surrogates have none. */
  predicate Scalar(rn: nat) {
    rn < 0xD800 || 0xE000 <= rn < 0x110000
  }

  function Byte(n: nat): (c: char)
    requires n < 0x100
    ensures c as int == n
  {
    n as char
  }

  /** The last six bits of a code point and those in front of them. */
  function Low(n: nat): (r: nat)
    ensures r < 0x40
  {
    n % 0x40
  }

  function High(n: nat): nat {
    n / 0x40
  }

  lemma SixBits(n: nat)
    ensures n == High(n) * 0x40 + Low(n)
  {
  }

  lemma SixBitsOnce(n: nat, h: nat, l: nat)
    requires n == h * 0x40 + l && l < 0x40
    ensures High(n) == h && Low(n) == l
  {
  }

  function Encode(rn: nat): (t: string)
    requires Scalar(rn)
    ensures 1 <= |t| <= 4
  {
    var h, h2, h3 := High(rn), High(High(rn)), High(High(High(rn)));
    if rn < 0x80 then [Byte(rn)]
    else if rn < 0x800 then [Byte(0xC0 + h), Byte(0x80 + Low(rn))]
    else if rn < 0x10000 then [Byte(0xE0 + h2), Byte(0x80 + Low(h)), Byte(0x80 + Low(rn))]
    else [Byte(0xF0 + h3), Byte(0x80 + Low(h2)), Byte(0x80 + Low(h)), Byte(0x80 + Low(rn))]
  }

  predicate EncodedAt(data: string, i: nat, rn: nat)
    requires Scalar(rn)
  {
    var t := Encode(rn);
    i + |t| <= |data| && forall k | 0 <= k < |t| :: data[i + k] == t[k]
  }

  /** What the bytes of a code point are. */
  lemma EncodeBytes(data: string, i: nat, rn: nat)
    requires Scalar(rn)
    ensures var h, h2, h3 := High(rn), High(High(rn)), High(High(High(rn)));
            EncodedAt(data, i, rn) <==>
              if rn < 0x80 then i < |data| && data[i] as int == rn
              else if rn < 0x800 then i + 1 < |data| && data[i] as int == 0xC0 + h && data[i + 1] as int == 0x80 + Low(rn)
              else if rn < 0x10000 then
                i + 2 < |data| && data[i] as int == 0xE0 + h2 && data[i + 1] as int == 0x80 + Low(h) && data[i + 2] as int == 0x80 + Low(rn)
              else
                i + 3 < |data| && data[i] as int == 0xF0 + h3 && data[i + 1] as int == 0x80 + Low(h2)
                && data[i + 2] as int == 0x80 + Low(h) && data[i + 3] as int == 0x80 + Low(rn)
  {
    hide High, Low;
    var t := Encode(rn);
    if EncodedAt(data, i, rn) {
      assert data[i + 0] == t[0];
      if |t| > 1 { assert data[i + 1] == t[1]; }
      if |t| > 2 { assert data[i + 2] == t[2]; }
      if |t| > 3 { assert data[i + 3] == t[3]; }
    }
  }

  /** The bytes of a code point decode to it. */
  lemma DecodesEncoded(data: string, i: nat, rn: nat)
    requires Scalar(rn) && EncodedAt(data, i, rn)
    ensures i <= |data| && DecodeRune(data, i) == Rune(rn, |Encode(rn)|)
  {
    EncodeBytes(data, i, rn);
    EncodeLength(rn);
    SixBits(rn);
    SixBits(High(rn));
    SixBits(High(High(rn)));
    hide High, Low, Encode, EncodedAt;
  }

  lemma EncodeLength(rn: nat)
    requires Scalar(rn)
    ensures |Encode(rn)| == if rn < 0x80 then 1 else if rn < 0x800 then 2 else if rn < 0x10000 then 3 else 4
  {
  }

  /** The bits of a decoded code point are those of its bytes. */
  lemma DecodedParts(data: string, i: nat)
    requires i < |data| && !Malformed(data, i)
    ensures var d := DecodeRune(data, i); var h, h2, h3 := High(d.rn), High(High(d.rn)), High(High(High(d.rn)));
            && (d.w > 1 ==> Low(d.rn) == Tail(data, i + d.w - 1))
            && (d.w == 2 ==> h == data[i] as int - 0xC0)
            && (d.w > 2 ==> Low(h) == Tail(data, i + d.w - 2))
            && (d.w == 3 ==> h2 == data[i] as int - 0xE0)
            && (d.w == 4 ==> Low(h2) == Tail(data, i + 1) && h3 == data[i] as int - 0xF0)
  {
    hide High, Low;
    var d := DecodeRune(data, i);
    if d.w == 2 {
      SixBitsOnce(d.rn, data[i] as int - 0xC0, Tail(data, i + 1));
    } else if d.w == 3 {
      var h := (data[i] as int - 0xE0) * 0x40 + Tail(data, i + 1);
      SixBitsOnce(d.rn, h, Tail(data, i + 2));
      SixBitsOnce(h, data[i] as int - 0xE0, Tail(data, i + 1));
    } else if d.w == 4 {
      var h2 := (data[i] as int - 0xF0) * 0x40 + Tail(data, i + 1);
      var h := h2 * 0x40 + Tail(data, i + 2);
      SixBitsOnce(d.rn, h, Tail(data, i + 3));
      SixBitsOnce(h, h2, Tail(data, i + 2));
      SixBitsOnce(h2, data[i] as int - 0xF0, Tail(data, i + 1));
    }
  }

  /** What decodes without an error is the bytes of the code point. */
  lemma EncodesDecoded(data: string, i: nat)
    requires i < |data| && !Malformed(data, i)
    ensures var d := DecodeRune(data, i); Scalar(d.rn) && EncodedAt(data, i, d.rn) && d.w == |Encode(d.rn)|
  {
    var d := DecodeRune(data, i);
    DecodedParts(data, i);
    hide High, Low, Encode, EncodedAt;
    EncodeBytes(data, i, d.rn);
    EncodeLength(d.rn);
  }

  /** A byte is malformed exactly when no code point is encoded there. */
  lemma MalformedExact(data: string, i: nat)
    requires i <= |data|
    ensures Malformed(data, i) <==> i < |data| && forall rn | Scalar(rn) :: !EncodedAt(data, i, rn)
  {
    hide DecodeRune, Encode;
    if i < |data| {
      if Malformed(data, i) {
        forall rn | Scalar(rn) ensures !EncodedAt(data, i, rn) {
          if EncodedAt(data, i, rn) {
            DecodesEncoded(data, i, rn);
            OneByte(rn);
          }
        }
      } else {
        EncodesDecoded(data, i);
      }
    }
  }

  lemma OneByte(rn: nat)
    requires Scalar(rn) && |Encode(rn)| == 1
    ensures rn < 0x80
  {
  }

  predicate Scalars(rs: seq<nat>) {
    forall k | 0 <= k < |rs| :: Scalar(rs[k])
  }

  function EncodeAll(rs: seq<nat>): string
    requires Scalars(rs)
  {
    if rs == [] then "" else Encode(rs[0]) + EncodeAll(rs[1..])
  }

  /** The code points of clean text from `i` on. */
  function Runes(data: string, i: nat): seq<nat>
    requires i <= |data|
    decreases |data| - i
  {
    if i == |data| then [] else [DecodeRune(data, i).rn] + Runes(data, Next(data, i))
  }

  lemma {:induction false} CleanEncoded(data: string, i: nat)
    requires i <= |data| && CleanTo(data, i, |data|)
    ensures Scalars(Runes(data, i)) && EncodeAll(Runes(data, i)) == data[i..]
    decreases |data| - i
  {
    hide DecodeRune, Encode, Scalar;
    if i < |data| {
      EncodesDecoded(data, i);
      CleanEncoded(data, Next(data, i));
      var d, rs := DecodeRune(data, i), Runes(data, i);
      assert rs[1..] == Runes(data, Next(data, i));
      assert data[i..] == data[i..i + d.w] + data[i + d.w..];
      assert data[i..i + d.w] == Encode(d.rn);
    }
  }

  lemma {:induction false} EncodedClean(data: string, i: nat, rs: seq<nat>)
    requires i <= |data| && Scalars(rs) && data[i..] == EncodeAll(rs)
    ensures CleanTo(data, i, |data|)
    decreases |rs|
  {
    hide DecodeRune, Encode, Scalar, Malformed;
    if rs == [] {
      AtEnd(data, i);
    } else {
      var t := Encode(rs[0]);
      assert data[i..] == t + EncodeAll(rs[1..]);
      EncodedHere(data, i, rs[0], EncodeAll(rs[1..]));
      DecodesEncoded(data, i, rs[0]);
      MalformedExact(data, i);
      EncodedClean(data, i + |t|, rs[1..]);
    }
  }

  lemma AtEnd(data: string, i: nat)
    requires i <= |data| && data[i..] == ""
    ensures i == |data| && !Malformed(data, i)
  {
  }

  lemma EncodedHere(data: string, i: nat, rn: nat, rest: string)
    requires Scalar(rn) && i <= |data| && data[i..] == Encode(rn) + rest
    ensures i < |data| && EncodedAt(data, i, rn) && data[i + |Encode(rn)|..] == rest
  {
    hide Encode;
    var t := Encode(rn);
    assert forall k | 0 <= k < |t| :: data[i + k] == data[i..][k] == t[k];
    assert data[i + |t|..] == data[i..][|t|..];
  }

  /** A text is UTF-8 exactly when it is the bytes of code points in a row. */
  lemma ValidExact(data: string)
    ensures ValidUtf8(data) <==> exists rs: seq<nat> :: Scalars(rs) && EncodeAll(rs) == data
  {
    hide CleanTo, Scalars, EncodeAll, Runes;
    assert data[0..] == data;
    if ValidUtf8(data) {
      CleanEncoded(data, 0);
      assert EncodeAll(Runes(data, 0)) == data;
    } else if exists rs: seq<nat> :: Scalars(rs) && EncodeAll(rs) == data {
      var rs: seq<nat> :| Scalars(rs) && EncodeAll(rs) == data;
      EncodedClean(data, 0, rs);
      assert false;
    }
  }
}
