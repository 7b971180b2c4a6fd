/** Go strings are byte sequences; a `string` of this model holds one byte per
    character. This module decodes one UTF-8 code point (RFC 3629, section 4). */
module Utf8 {

  const RUNE_ERROR: nat := 0xFFFD

  datatype Rune = Rune(rn: nat, w: nat)

  predicate Between(data: string, i: nat, lo: int, hi: int) {
    i < |data| && lo <= data[i] as int <= hi
  }

  function Tail(data: string, i: nat): nat
    requires Between(data, i, 0x80, 0xBF)
  {
    data[i] as int - 0x80
  }

  /** The code point that starts at byte `i` and its width: width 0 only at the
      end of the data, RUNE_ERROR with width 1 for a malformed byte. */
  function DecodeRune(data: string, i: nat): (r: Rune)
    requires i <= |data|
    ensures i + r.w <= |data|
    ensures r.w == 0 <==> i == |data|
    ensures i < |data| && data[i] as int < 0x80 ==> r == Rune(data[i] as int, 1)
    ensures i < |data| && data[i] as int >= 0x80 ==> r.rn >= 0x80
    ensures forall k :: i < k < i + r.w ==> data[k] as int >= 0x80
    ensures r.w == 0 ==> r.rn == RUNE_ERROR
  {
    if i == |data| then Rune(RUNE_ERROR, 0)
    else
      var c := data[i] as int;
      if c < 0x80 then Rune(c, 1)
      else if 0xC2 <= c <= 0xDF && Between(data, i + 1, 0x80, 0xBF) then
        Rune((c - 0xC0) * 0x40 + Tail(data, i + 1), 2)
      else if 0xE0 <= c <= 0xEF
              && Between(data, i + 1, if c == 0xE0 then 0xA0 else 0x80, if c == 0xED then 0x9F else 0xBF)
              && Between(data, i + 2, 0x80, 0xBF) then
        Rune(((c - 0xE0) * 0x40 + Tail(data, i + 1)) * 0x40 + Tail(data, i + 2), 3)
      else if 0xF0 <= c <= 0xF4
              && Between(data, i + 1, if c == 0xF0 then 0x90 else 0x80, if c == 0xF4 then 0x8F else 0xBF)
              && Between(data, i + 2, 0x80, 0xBF) && Between(data, i + 3, 0x80, 0xBF) then
        Rune((((c - 0xF0) * 0x40 + Tail(data, i + 1)) * 0x40 + Tail(data, i + 2)) * 0x40 + Tail(data, i + 3), 4)
      else Rune(RUNE_ERROR, 1)
  }

  /** The parser records an encoding error when it reads a malformed byte. */
  predicate Malformed(data: string, i: nat)
    requires i <= |data|
  {
    DecodeRune(data, i) == Rune(RUNE_ERROR, 1)
  }

  function Next(data: string, i: nat): (j: nat)
    requires i <= |data|
    ensures i <= j <= |data| && (j == i <==> i == |data|)
  {
    i + DecodeRune(data, i).w
  }

  /** `j` is reached by decoding code point after code point from `i`. */
  predicate Reaches(data: string, i: nat, j: nat)
    requires i <= |data|
    decreases |data| - i
  {
    i == j || (i < |data| && Reaches(data, Next(data, i), j))
  }

  /** No malformed byte is met when decoding from `i` up to and including `j`. */
  predicate CleanTo(data: string, i: nat, j: nat)
    requires i <= |data|
    decreases |data| - i
  {
    i > j || (!Malformed(data, i) && (i < |data| ==> CleanTo(data, Next(data, i), j)))
  }

  predicate ValidUtf8(data: string) {
    CleanTo(data, 0, |data|)
  }

  lemma ReachesNext(data: string, i: nat, j: nat)
    requires i <= |data| && Reaches(data, i, j)
    ensures i <= j <= |data| && Reaches(data, i, Next(data, j))
    decreases |data| - i
  {
    if i < |data| && i != j { ReachesNext(data, Next(data, i), j); }
  }

  /** Decoding never jumps over an offset it also reaches. */
  lemma NoJump(data: string, i: nat, j: nat, far: nat)
    requires i <= |data| && Reaches(data, i, j) && Reaches(data, i, far) && j < far
    ensures j <= |data| && Next(data, j) <= far
    decreases |data| - i
  {
    if i == j {
      ReachesNext(data, Next(data, i), far);
    } else if i == far {
      ReachesNext(data, Next(data, i), j);
    } else {
      NoJump(data, Next(data, i), j, far);
    }
  }

  lemma CleanStep(data: string, i: nat, j: nat)
    requires i <= |data| && Reaches(data, i, j)
    ensures j <= |data|
    ensures CleanTo(data, i, Next(data, j)) == (CleanTo(data, i, j) && !Malformed(data, Next(data, j)))
    decreases |data| - i
  {
    ReachesNext(data, i, j);
    if i < |data| && i != j {
      CleanStep(data, Next(data, i), j);
    } else if i == j && i < |data| {
      var n := Next(data, i);
      assert CleanTo(data, n, n) == !Malformed(data, n);
      assert CleanTo(data, n, i);
    }
  }

  lemma CleanMono(data: string, i: nat, j: nat, k: nat)
    requires i <= |data| && Reaches(data, i, j) && j <= k && CleanTo(data, i, k)
    ensures j <= |data| && !Malformed(data, j)
    decreases |data| - i
  {
    ReachesNext(data, i, j);
    if i != j { CleanMono(data, Next(data, i), j, k); }
  }
}
