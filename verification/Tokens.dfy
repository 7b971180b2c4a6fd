/** What the token and value rules of the query grammar match. */
module Tokens {
  import opened Wrappers
  import opened Texts
  import opened Utf8
  import opened Peg
  import opened QueryGrammar
  import opened Decimal

  ghost predicate Q(g: Grammar) {
    IsQueryGrammar(g) && WellFormed(g)
  }

  predicate Ascii(t: string) {
    forall i | 0 <= i < |t| :: t[i] as int < 0x80
  }

  lemma MatchLitAt(data: string, text: string, k: nat, pos: nat)
    requires Ascii(text) && k <= |text| && pos <= |data|
    ensures MatchLit(data, text, k, pos)
         == if StartsAt(data, pos, text[k..]) then Some(pos + |text| - k) else None
    decreases |text| - k
  {
    if k < |text| {
      assert text[k..] == [text[k]] + text[k + 1..];
      StartsSplit(data, pos, [text[k]], text[k + 1..]);
      var d := DecodeRune(data, pos);
      StartsOne(data, pos, text[k]);
      if pos < |data| && data[pos] == text[k] {
        MatchLitAt(data, text, k + 1, pos + 1);
      }
    }
  }

  lemma LitAt(g: Grammar, data: string, r: RuleId, text: string, pos: nat)
    requires Q(g) && r < RULES && Body(r) == Lit(text) && Ascii(text) && pos <= |data|
    ensures RecRule(g, data, r, pos) == if StartsAt(data, pos, text) then Some(pos + |text|) else None
  {
    MatchLitAt(data, text, 0, pos);
    assert text[0..] == text;
  }

  /** A one-character token. */
  lemma CharAt(g: Grammar, data: string, r: RuleId, c: char, pos: nat)
    requires Q(g) && r < RULES && Body(r) == Lit([c]) && c as int < 0x80 && pos <= |data|
    ensures RecRule(g, data, r, pos) == if pos < |data| && data[pos] == c then Some(pos + 1) else None
  {
    LitAt(g, data, r, [c], pos);
    StartsOne(data, pos, c);
  }

  predicate AsciiClass(e: Expr) {
    && e.Class? && !e.inverted && Ascii(e.chars)
    && forall k | 0 <= k < |e.ranges| :: e.ranges[k].1 as int < 0x80
  }

  predicate Member(e: Expr, data: string, pos: nat)
    requires e.Class?
  {
    pos < |data| && InClass(e, data[pos] as int)
  }

  lemma ClassAt(g: Grammar, data: string, e: Expr, pos: nat)
    requires Q(g) && AsciiClass(e) && pos <= |data|
    ensures Rec(g, data, e, pos) == if Member(e, data, pos) then Some(pos + 1) else None
  {
    var d := DecodeRune(data, pos);
    if pos < |data| && data[pos] as int >= 0x80 {
      assert !InClass(e, d.rn);
      assert !InClass(e, data[pos] as int);
    }
  }

  lemma ClassStar(g: Grammar, data: string, e: Expr, pos: nat, end: nat)
    requires Q(g) && AsciiClass(e) && pos <= end <= |data|
    requires forall k | pos <= k < end :: Member(e, data, k)
    requires !Member(e, data, end)
    ensures RecStar(g, data, e, pos) == end
    decreases end - pos
  {
    ClassAt(g, data, e, pos);
    if pos < end { ClassStar(g, data, e, pos + 1, end); }
  }

  lemma PhraseStar(g: Grammar, data: string, pos: nat, end: nat)
    requires Q(g) && pos <= end < |data| && data[end] == '"'
    requires forall k | pos <= k < end :: data[k] != '"'
    ensures RecStar(g, data, PhraseClass, pos) == end
    decreases end - pos
  {
    var d := DecodeRune(data, pos);
    assert InChars(PhraseClass.chars, '"' as int) by { assert PhraseClass.chars[0] == '"'; }
    if pos < end {
      assert d.rn != '"' as int;
      assert pos + d.w <= end;
      PhraseStar(g, data, pos + d.w, end);
    }
  }

  predicate IsWs(c: char) {
    c == ' ' || c == '\n' || c == '\t' || c == '\r'
  }

  predicate AllWs(t: string) {
    forall i | 0 <= i < |t| :: IsWs(t[i])
  }

  predicate WsAt(data: string, pos: nat) {
    pos < |data| && IsWs(data[pos])
  }

  predicate KeyChar(c: char) {
    c == '_' || c == '-' || 'A' <= c <= 'Z' || 'a' <= c <= 'z' || '0' <= c <= '9'
  }

  predicate WordStart(c: char) {
    c == '_' || c == '?' || c == '\\' || c == '*' || 'a' <= c <= 'z' || 'A' <= c <= 'Z'
  }

  predicate WordChar(c: char) {
    WordStart(c) || '0' <= c <= '9'
  }

  predicate NumberStart(c: char) {
    IsDigit(c) || c == '.' || c == '-'
  }

  predicate NumberChar(c: char) {
    NumberStart(c) || c == 'e' || c == 'E'
  }

  const WsClass := Class(" \n\t\r", [], false)

  lemma Classes(c: char)
    ensures InClass(WsClass, c as int) <==> IsWs(c)
    ensures InClass(KeyClass, c as int) <==> KeyChar(c)
    ensures InClass(WordHead, c as int) <==> WordStart(c)
    ensures InClass(WordTail, c as int) <==> WordChar(c)
  {
    CharsIn(WsClass.chars, c);
    CharsIn(KeyClass.chars, c);
    CharsIn(WordHead.chars, c);
    CharsIn(WordTail.chars, c);
    RangesIn(KeyClass.ranges, c);
    RangesIn(WordHead.ranges, c);
    RangesIn(WordTail.ranges, c);
  }

  lemma CharsIn(cs: string, c: char)
    ensures InChars(cs, c as int) <==> c in cs
  {
  }

  lemma RangesIn(rs: seq<(char, char)>, c: char)
    requires |rs| <= 3
    ensures InRanges(rs, c as int) <==> || (|rs| > 0 && rs[0].0 <= c <= rs[0].1)
                                        || (|rs| > 1 && rs[1].0 <= c <= rs[1].1)
                                        || (|rs| > 2 && rs[2].0 <= c <= rs[2].1)
  {
  }

  function Else(r: Option<nat>, s: Option<nat>): Option<nat> {
    if r.Some? then r else s
  }

  lemma SeqFails(g: Grammar, data: string, es: seq<Expr>, pos: nat)
    requires Q(g) && ExprOk(g, Seq(es)) && es != [] && pos <= |data|
    requires Rec(g, data, es[0], pos) == None
    ensures Rec(g, data, Seq(es), pos) == None
  {
  }

  lemma Seq2(g: Grammar, data: string, a: Expr, b: Expr, pos: nat)
    requires Q(g) && ExprOk(g, a) && ExprOk(g, b) && pos <= |data|
    ensures ExprOk(g, Seq([a, b]))
    ensures Rec(g, data, Seq([a, b]), pos)
         == if Rec(g, data, a, pos).None? then None else Rec(g, data, b, Rec(g, data, a, pos).value)
  {
    var es := [a, b];
    var r := Rec(g, data, a, pos);
    if r.Some? {
      assert RecSeq(g, data, es, 0, pos) == RecSeq(g, data, es, 1, r.value);
      var r1 := Rec(g, data, b, r.value);
      if r1.Some? {
        assert RecSeq(g, data, es, 1, r.value) == RecSeq(g, data, es, 2, r1.value);
      }
    }
  }

  lemma Seq3(g: Grammar, data: string, a: Expr, b: Expr, c: Expr, pos: nat)
    requires Q(g) && ExprOk(g, a) && ExprOk(g, b) && ExprOk(g, c) && pos <= |data|
    ensures ExprOk(g, Seq([a, b, c]))
    ensures Rec(g, data, Seq([a, b, c]), pos)
         == if Rec(g, data, Seq([a, b]), pos).None? then None
            else Rec(g, data, c, Rec(g, data, Seq([a, b]), pos).value)
  {
    var es := [a, b, c];
    Seq2(g, data, a, b, pos);
    var r := Rec(g, data, a, pos);
    if r.Some? {
      assert RecSeq(g, data, es, 0, pos) == RecSeq(g, data, es, 1, r.value);
      var r1 := Rec(g, data, b, r.value);
      if r1.Some? {
        assert RecSeq(g, data, es, 1, r.value) == RecSeq(g, data, es, 2, r1.value);
        var r2 := Rec(g, data, c, r1.value);
        if r2.Some? {
          assert RecSeq(g, data, es, 2, r1.value) == RecSeq(g, data, es, 3, r2.value);
        }
      }
    }
  }

  lemma ChoiceStep(g: Grammar, data: string, es: seq<Expr>, i: nat, pos: nat)
    requires Q(g) && (forall k | 0 <= k < |es| :: ExprOk(g, es[k])) && i < |es| && pos <= |data|
    ensures RecChoice(g, data, es, i, pos) == Else(Rec(g, data, es[i], pos), RecChoice(g, data, es, i + 1, pos))
  {
  }

  lemma Choice2(g: Grammar, data: string, a: Expr, b: Expr, pos: nat)
    requires Q(g) && ExprOk(g, a) && ExprOk(g, b) && pos <= |data|
    ensures ExprOk(g, Choice([a, b]))
    ensures Rec(g, data, Choice([a, b]), pos) == Else(Rec(g, data, a, pos), Rec(g, data, b, pos))
  {
    ChoiceStep(g, data, [a, b], 0, pos);
    ChoiceStep(g, data, [a, b], 1, pos);
  }

  /** The body of a rule, with or without an action around it. */
  lemma RuleIs(g: Grammar, data: string, r: RuleId, pos: nat)
    requires Q(g) && r < RULES && pos <= |data|
    ensures ExprOk(g, Body(r)) && RecRule(g, data, r, pos) == Rec(g, data, Body(r), pos)
    ensures Body(r).Act? ==> ExprOk(g, Body(r).e) && RecRule(g, data, r, pos) == Rec(g, data, Body(r).e, pos)
    ensures Rec(g, data, Ref(r), pos) == RecRule(g, data, r, pos)
  {
    assert RuleOk(g, r);
  }
}
