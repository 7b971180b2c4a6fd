/** Texts of field values and operators, and what the value rules of the query
    grammar make of them. */
module Values {
  import opened Wrappers
  import opened Utf8
  import opened Peg
  import opened QueryAst
  import opened QueryGrammar
  import opened Decimal
  import opened Texts
  import opened Tokens

  lemma WsMatches(g: Grammar, data: string, pos: nat, end: nat)
    requires Q(g) && pos <= end <= |data| && AllWs(data[pos..end]) && !WsAt(data, end)
    ensures RecRule(g, data, WS, pos) == if end == pos then None else Some(end)
    ensures Rec(g, data, Opt(Ref(WS)), pos) == Some(end)
  {
    hide RecRule, RecStar, ExprOk, Nullable, LeftRank, Member;
    WsMembers(data, pos, end);
    RuleIs(g, data, WS, pos);
    ClassAt(g, data, WsClass, pos);
    if pos < end { ClassStar(g, data, WsClass, pos + 1, end); }
  }

  lemma SeqOptWs(g: Grammar, data: string, es: seq<Expr>, i: nat, pos: nat, end: nat)
    requires Q(g) && (forall k | 0 <= k < |es| :: ExprOk(g, es[k])) && i < |es| && es[i] == Opt(Ref(WS))
    requires pos <= end <= |data| && AllWs(data[pos..end]) && !WsAt(data, end)
    ensures RecSeq(g, data, es, i, pos) == RecSeq(g, data, es, i + 1, end)
  {
    hide RecRule, Rec, AllWs, WsAt;
    WsMatches(g, data, pos, end);
  }

  lemma OptIs(g: Grammar, data: string, e: Expr, pos: nat)
    requires Q(g) && ExprOk(g, e) && pos <= |data|
    ensures ExprOk(g, Opt(e))
    ensures Rec(g, data, Opt(e), pos) == Else(Rec(g, data, e, pos), Some(pos))
  {
  }

  lemma WsMembers(data: string, pos: nat, end: nat)
    requires pos <= end <= |data| && AllWs(data[pos..end]) && !WsAt(data, end)
    ensures (forall k | pos <= k < end :: Member(WsClass, data, k)) && !Member(WsClass, data, end)
  {
    forall k | pos <= k < end ensures Member(WsClass, data, k) {
      assert IsWs(data[pos..end][k - pos]);
      Classes(data[k]);
    }
    if end < |data| { Classes(data[end]); }
  }

  predicate LegalKey(f: string) {
    f != "" && forall i | 0 <= i < |f| :: KeyChar(f[i])
  }

  lemma KeyMatches(g: Grammar, data: string, pos: nat, f: string)
    requires Q(g) && LegalKey(f) && StartsAt(data, pos, f)
    requires pos + |f| < |data| ==> !KeyChar(data[pos + |f|])
    ensures RecRule(g, data, KEY, pos) == Some(pos + |f|)
  {
    var end := pos + |f|;
    forall k | pos <= k < end ensures Member(KeyClass, data, k) {
      StartsChar(data, pos, f, k - pos);
      Classes(data[k]);
    }
    if end < |data| { Classes(data[end]); }
    assert Body(KEY) == Act(OnText, Plus(KeyClass));
    ClassAt(g, data, KeyClass, pos);
    ClassStar(g, data, KeyClass, pos + 1, end);
    assert Rec(g, data, Plus(KeyClass), pos) == Some(end);
  }

  /** A value as it is written in a query. */
  datatype ValText =
    | PhraseText(body: string)
    | NumberText(t: string)
    | WordText(t: string)
    | DateTimeText(t: string)
    | WindowText(open: string, from: string, to: string, close: string)

  function TextOf(v: ValText): string {
    match v
    case PhraseText(body) => "\"" + body + "\""
    case NumberText(t) => t
    case WordText(t) => t
    case DateTimeText(t) => t
    case WindowText(open, from, to, close) => "[" + (open + (from + ("~" + (to + (close + "]")))))
  }

  predicate LegalPhrase(body: string) {
    body != "" && forall i | 0 <= i < |body| :: body[i] != '"'
  }

  predicate LegalNumber(t: string) {
    t != "" && NumberStart(t[0]) && forall i | 0 <= i < |t| :: NumberChar(t[i])
  }

  predicate LegalWord(t: string) {
    t != "" && WordStart(t[0]) && forall i | 0 <= i < |t| :: WordChar(t[i])
  }

  /** Digits where `form` has a 0, and otherwise the character of `form`. */
  predicate FormedLike(t: string, form: string) {
    |t| == |form| && forall i | 0 <= i < |t| :: if form[i] == '0' then IsDigit(t[i]) else t[i] == form[i]
  }

  const DATE_TIME_FORM: string := "0000-00-00T00:00:00Z"

  predicate LegalDateTime(t: string) {
    FormedLike(t, DATE_TIME_FORM)
  }

  /** Behind the tilde, a first dash belongs to the window and not to the number. */
  predicate LegalEnd(t: string) {
    LegalNumber(if t != "" && t[0] == '-' then t[1..] else t)
  }

  /** From one number to another, or from one date and time to another. */
  predicate LegalRange(from: string, to: string) {
    (LegalDateTime(from) && LegalDateTime(to)) || (LegalNumber(from) && LegalEnd(to))
  }

  predicate LegalVal(v: ValText) {
    match v
    case PhraseText(body) => LegalPhrase(body)
    case NumberText(t) => LegalNumber(t)
    case WordText(t) => LegalWord(t)
    case DateTimeText(t) => LegalDateTime(t)
    case WindowText(open, from, to, close) => AllWs(open) && AllWs(close) && LegalRange(from, to)
  }

  /** The value the parser gives to the condition, and whether it reports the
      text as a malformed or too large number. */
  function ValueOf(v: ValText): Value {
    match v
    case PhraseText(_) => Str(TextOf(v))
    case WordText(t) => Str(t)
    case DateTimeText(t) => Str(t)
    case WindowText(_, _, _, _) => Str(TextOf(v))
    case NumberText(t) => var f := ParseFloat(t); Float(if f.Some? then f.value else 0.0)
  }

  predicate BadNumber(v: ValText) {
    v.NumberText? && ParseFloat(v.t).None?
  }

  /** What may follow a value. */
  predicate AtDelim(data: string, p: nat) {
    p == |data| || (p < |data| && (IsWs(data[p]) || data[p] == ')'))
  }

  lemma PhraseMatches(g: Grammar, data: string, pos: nat, body: string)
    requires Q(g) && LegalPhrase(body) && StartsAt(data, pos, TextOf(PhraseText(body)))
    ensures RecRule(g, data, PHRASE, pos) == Some(pos + |body| + 2)
  {
    hide RecRule, Rec, Q, ExprOk;
    var t, end := TextOf(PhraseText(body)), pos + 1 + |body|;
    assert t == ['"'] + body + ['"'];
    forall k | pos <= k <= end ensures data[k] == t[k - pos] { StartsChar(data, pos, t, k - pos); }
    RuleIs(g, data, PHRASE, pos);
    CharAt(g, data, DQ, '"', pos);
    CharAt(g, data, DQ, '"', end);
    RuleIs(g, data, DQ, pos);
    RuleIs(g, data, DQ, end);
    PhraseContent(g, data, pos + 1, end);
    Seq2(g, data, Ref(DQ), Plus(PhraseClass), pos);
    Seq3(g, data, Ref(DQ), Plus(PhraseClass), Ref(DQ), pos);
  }

  lemma PhraseContent(g: Grammar, data: string, pos: nat, end: nat)
    requires Q(g) && pos < end < |data| && data[end] == '"'
    requires forall k | pos <= k < end :: data[k] != '"'
    ensures ExprOk(g, Plus(PhraseClass)) && Rec(g, data, Plus(PhraseClass), pos) == Some(end)
  {
    var d := DecodeRune(data, pos);
    assert d.rn != '"' as int;
    assert pos + d.w <= end;
    assert Rec(g, data, PhraseClass, pos) == Some(pos + d.w);
    PhraseStar(g, data, pos + d.w, end);
  }

  lemma WordMatches(g: Grammar, data: string, pos: nat, t: string)
    requires Q(g) && LegalWord(t) && StartsAt(data, pos, t) && AtDelim(data, pos + |t|)
    ensures RecRule(g, data, WORD, pos) == Some(pos + |t|)
  {
    WordMembers(data, pos, t);
    WordFrom(g, data, pos, pos + |t|);
  }

  lemma WordMembers(data: string, pos: nat, t: string)
    requires LegalWord(t) && StartsAt(data, pos, t) && AtDelim(data, pos + |t|)
    ensures t != "" && Member(WordHead, data, pos) && forall k | pos < k < pos + |t| :: Member(WordTail, data, k)
    ensures pos + |t| < |data| ==> !Member(WordTail, data, pos + |t|)
  {
    hide StartsAt;
    StartsBound(data, pos, t);
    forall k | pos <= k < pos + |t| ensures Member(WordTail, data, k) && (k == pos ==> Member(WordHead, data, k)) {
      StartsChar(data, pos, t, k - pos);
      Classes(data[k]);
    }
    if pos + |t| < |data| { Classes(data[pos + |t|]); }
  }

  lemma WordFrom(g: Grammar, data: string, pos: nat, end: nat)
    requires Q(g) && pos < end <= |data| && Member(WordHead, data, pos)
    requires forall k | pos < k < end :: Member(WordTail, data, k)
    requires end < |data| ==> !Member(WordTail, data, end)
    ensures RecRule(g, data, WORD, pos) == Some(end)
  {
    hide RecRule, RecSeq, RecStar;
    RuleIs(g, data, WORD, pos);
    ClassAt(g, data, WordHead, pos);
    ClassStar(g, data, WordTail, pos + 1, end);
    Seq2(g, data, WordHead, Star(WordTail), pos);
  }

  lemma DigitAt(g: Grammar, data: string, pos: nat)
    requires Q(g) && pos <= |data|
    ensures RecRule(g, data, DIGIT, pos) == if pos < |data| && IsDigit(data[pos]) then Some(pos + 1) else None
  {
    ClassAt(g, data, Body(DIGIT), pos);
    if pos < |data| { RangesIn(Body(DIGIT).ranges, data[pos]); }
  }

  lemma ExpAt(g: Grammar, data: string, pos: nat)
    requires Q(g) && pos <= |data|
    ensures RecRule(g, data, EEE, pos)
         == if pos < |data| && (data[pos] == 'e' || data[pos] == 'E') then Some(pos + 1) else None
  {
    ClassAt(g, data, Body(EEE), pos);
    if pos < |data| { CharsIn("eE", data[pos]); }
  }

  lemma NumberHeadAt(g: Grammar, data: string, pos: nat)
    requires Q(g) && pos <= |data| && ExprOk(g, NumberHead)
    ensures Rec(g, data, NumberHead, pos)
         == if pos < |data| && NumberStart(data[pos]) then Some(pos + 1) else None
  {
    hide RecRule;
    DigitAt(g, data, pos);
    CharAt(g, data, DOT, '.', pos);
    CharAt(g, data, DASH, '-', pos);
    var es := NumberHead.es;
    ChoiceStep(g, data, es, 0, pos);
    ChoiceStep(g, data, es, 1, pos);
    ChoiceStep(g, data, es, 2, pos);
  }

  lemma NumberTailAt(g: Grammar, data: string, pos: nat)
    requires Q(g) && pos <= |data| && ExprOk(g, NumberTail)
    ensures Rec(g, data, NumberTail, pos)
         == if pos < |data| && NumberChar(data[pos]) then Some(pos + 1) else None
  {
    hide RecRule;
    DigitAt(g, data, pos);
    CharAt(g, data, DASH, '-', pos);
    ExpAt(g, data, pos);
    CharAt(g, data, DOT, '.', pos);
    var es := NumberTail.es;
    ChoiceStep(g, data, es, 0, pos);
    ChoiceStep(g, data, es, 1, pos);
    ChoiceStep(g, data, es, 2, pos);
    ChoiceStep(g, data, es, 3, pos);
  }

  lemma NumberStar(g: Grammar, data: string, pos: nat, end: nat)
    requires Q(g) && pos <= end <= |data| && ExprOk(g, NumberTail) && !Nullable(g, NumberTail)
    requires forall k | pos <= k < end :: NumberChar(data[k])
    requires end < |data| ==> !NumberChar(data[end])
    ensures RecStar(g, data, NumberTail, pos) == end
    decreases end - pos
  {
    NumberTailAt(g, data, pos);
    if pos < end { NumberStar(g, data, pos + 1, end); }
  }

  lemma NumberMatches(g: Grammar, data: string, pos: nat, t: string)
    requires Q(g) && LegalNumber(t) && StartsAt(data, pos, t) && AtDelim(data, pos + |t|)
    ensures RecRule(g, data, NUMBER, pos) == Some(pos + |t|)
  {
    hide RecRule, AtDelim;
    NotNumberDelim(data, pos + |t|);
    NumberSpan(data, pos, t);
    NumberSeq(g, data, pos, pos + |t|);
    RuleIs(g, data, NUMBER, pos);
  }

  lemma NumberSpan(data: string, pos: nat, t: string)
    requires LegalNumber(t) && StartsAt(data, pos, t)
    ensures pos < pos + |t| <= |data| && NumberStart(data[pos]) && forall k | pos <= k < pos + |t| :: NumberChar(data[k])
  {
    hide NumberStart, NumberChar;
    StartsChar(data, pos, t, 0);
    forall k | pos <= k < pos + |t| ensures NumberChar(data[k]) { StartsChar(data, pos, t, k - pos); }
  }

  /** What the two number rules match. */
  lemma NumberSeq(g: Grammar, data: string, pos: nat, end: nat)
    requires Q(g) && pos < end <= |data| && NumberStart(data[pos]) && forall k | pos <= k < end :: NumberChar(data[k])
    requires end < |data| ==> !NumberChar(data[end])
    ensures ExprOk(g, Body(WIN_NUMBER)) && Rec(g, data, Body(WIN_NUMBER), pos) == Some(end)
  {
    hide RecRule, NumberStart, NumberChar;
    NumberParts(g);
    NumberHeadAt(g, data, pos);
    NumberStar(g, data, pos + 1, end);
    Seq2(g, data, NumberHead, Star(NumberTail), pos);
  }

  lemma NumberParts(g: Grammar)
    requires Q(g)
    ensures ExprOk(g, NumberHead) && ExprOk(g, NumberTail) && !Nullable(g, NumberTail)
  {
    RefChoiceGood(g, NumberHead.es, 1);
    RefChoiceGood(g, NumberTail.es, 1);
  }

  lemma NumberFails(g: Grammar, data: string, pos: nat)
    requires Q(g) && pos <= |data| && (pos < |data| ==> !NumberStart(data[pos]))
    ensures RecRule(g, data, NUMBER, pos) == None
  {
    RuleIs(g, data, NUMBER, pos);
    NumberParts(g);
    NumberHeadAt(g, data, pos);
    SeqFails(g, data, Body(NUMBER).e.es, pos);
  }

  lemma PhraseFails(g: Grammar, data: string, pos: nat)
    requires Q(g) && pos <= |data| && (pos < |data| ==> data[pos] != '"')
    ensures RecRule(g, data, PHRASE, pos) == None
  {
    RuleIs(g, data, PHRASE, pos);
    CharAt(g, data, DQ, '"', pos);
    SeqFails(g, data, Body(PHRASE).e.es, pos);
  }

  lemma WindowFails(g: Grammar, data: string, pos: nat)
    requires Q(g) && pos <= |data| && (pos < |data| ==> data[pos] != '[')
    ensures RecRule(g, data, WINDOW, pos) == None
  {
    RuleIs(g, data, WINDOW, pos);
    CharAt(g, data, OPEN_BRACKET, '[', pos);
    SeqFails(g, data, Body(WINDOW).e.es, pos);
  }

  lemma Digits2At(g: Grammar, data: string, pos: nat)
    requires Q(g) && pos <= |data|
    ensures RecRule(g, data, DIGITS2, pos)
         == if pos + 1 < |data| && IsDigit(data[pos]) && IsDigit(data[pos + 1]) then Some(pos + 2) else None
  {
    RuleIs(g, data, DIGITS2, pos);
    Seq2(g, data, Ref(DIGIT), Ref(DIGIT), pos);
    DigitAt(g, data, pos);
    if pos < |data| { DigitAt(g, data, pos + 1); }
  }

  lemma Digits4At(g: Grammar, data: string, pos: nat)
    requires Q(g) && pos <= |data|
    ensures var r := RecRule(g, data, DIGITS4, pos);
            r.Some? ==> r.value == pos + 4 && forall k | pos <= k < pos + 4 :: IsDigit(data[k])
  {
    RuleIs(g, data, DIGITS4, pos);
    Seq2(g, data, Ref(DIGITS2), Ref(DIGITS2), pos);
    Digits2At(g, data, pos);
    if pos + 2 <= |data| { Digits2At(g, data, pos + 2); }
  }

  /** A date is ten digits and dashes. */
  lemma DateShape(g: Grammar, data: string, pos: nat)
    requires Q(g) && pos <= |data|
    ensures var r := RecRule(g, data, DATE, pos);
            r.Some? ==> r.value == pos + 10 <= |data| && forall k | pos <= k < pos + 10 :: NumberChar(data[k])
  {
    RuleIs(g, data, DATE, pos);
    DateSeq(g, data, Body(DATE).es, pos);
  }

  lemma DateSeq(g: Grammar, data: string, es: seq<Expr>, pos: nat)
    requires Q(g) && (forall k | 0 <= k < |es| :: ExprOk(g, es[k])) && pos <= |data|
    requires es == [Ref(DIGITS4), Ref(DASH), Ref(DIGITS2), Ref(DASH), Ref(DIGITS2)]
    ensures var r := RecSeq(g, data, es, 0, pos);
            r.Some? ==> r.value == pos + 10 <= |data| && forall k | pos <= k < pos + 10 :: NumberChar(data[k])
  {
    hide RecRule;
    if RecSeq(g, data, es, 0, pos).Some? {
      Digits4At(g, data, pos);
      SeqStep(g, data, es, 0, pos);
      DashDigits(g, data, es, 1, pos + 4);
      DashDigits(g, data, es, 3, pos + 7);
      SeqEnd(g, data, es, pos + 10);
    }
  }

  lemma DashDigits(g: Grammar, data: string, es: seq<Expr>, i: nat, pos: nat)
    requires Q(g) && (forall k | 0 <= k < |es| :: ExprOk(g, es[k])) && pos <= |data|
    requires i + 1 < |es| && es[i] == Ref(DASH) && es[i + 1] == Ref(DIGITS2)
    ensures RecSeq(g, data, es, i, pos).Some? ==>
              pos + 3 <= |data| && data[pos] == '-' && IsDigit(data[pos + 1]) && IsDigit(data[pos + 2]) &&
              RecSeq(g, data, es, i, pos) == RecSeq(g, data, es, i + 2, pos + 3)
  {
    if RecSeq(g, data, es, i, pos).Some? {
      CharAt(g, data, DASH, '-', pos);
      SeqStep(g, data, es, i, pos);
      Digits2At(g, data, pos + 1);
      SeqStep(g, data, es, i + 1, pos + 1);
    }
  }

  lemma SeqIs(g: Grammar, data: string, es: seq<Expr>, pos: nat)
    requires Q(g) && ExprOk(g, Seq(es)) && pos <= |data|
    ensures Rec(g, data, Seq(es), pos) == RecSeq(g, data, es, 0, pos)
    ensures forall k | 0 <= k < |es| :: ExprOk(g, es[k])
  {
  }

  lemma SeqStep(g: Grammar, data: string, es: seq<Expr>, i: nat, pos: nat)
    requires Q(g) && (forall k | 0 <= k < |es| :: ExprOk(g, es[k])) && i < |es| && pos <= |data|
    ensures RecSeq(g, data, es, i, pos).Some? ==>
              Rec(g, data, es[i], pos).Some? &&
              RecSeq(g, data, es, i, pos) == RecSeq(g, data, es, i + 1, Rec(g, data, es[i], pos).value)
  {
  }

  lemma SeqEnd(g: Grammar, data: string, es: seq<Expr>, pos: nat)
    requires Q(g) && (forall k | 0 <= k < |es| :: ExprOk(g, es[k])) && pos <= |data|
    ensures RecSeq(g, data, es, |es|, pos) == Some(pos)
  {
  }

  lemma DateTimeShape(g: Grammar, data: string, pos: nat)
    requires Q(g) && pos <= |data|
    ensures RecRule(g, data, DATE_TIME, pos).Some? ==>
              pos + 10 < |data| && data[pos + 10] == 'T' && forall k | pos <= k < pos + 10 :: NumberChar(data[k])
  {
    hide Rec, RecRule, RecSeq, ExprOk;
    RuleIs(g, data, DATE_TIME, pos);
    SeqIs(g, data, Body(DATE_TIME).e.es, pos);
    DateShape(g, data, pos);
    RuleIs(g, data, DATE, pos);
    var es := Body(DATE_TIME).e.es;
    if RecSeq(g, data, es, 0, pos).Some? {
      SeqStep(g, data, es, 0, pos);
      CharAt(g, data, TEE, 'T', pos + 10);
      RuleIs(g, data, TEE, pos + 10);
      SeqStep(g, data, es, 1, pos + 10);
    }
  }

  /** No legal value that is not a date and time is taken for one. */
  lemma DateTimeFails(g: Grammar, data: string, pos: nat, v: ValText)
    requires Q(g) && LegalVal(v) && !v.DateTimeText?
    requires StartsAt(data, pos, TextOf(v)) && AtDelim(data, pos + |TextOf(v)|)
    ensures RecRule(g, data, DATE_TIME, pos) == None
  {
    var t := TextOf(v);
    DateTimeShape(g, data, pos);
    NotNumberDelim(data, pos + |t|);
    StartsChar(data, pos, t, 0);
    if |t| > 10 { StartsChar(data, pos, t, 10); }
    if RecRule(g, data, DATE_TIME, pos).Some? {
      DigitStart(g, data, pos);
    }
  }

  lemma NotNumberDelim(data: string, p: nat)
    requires AtDelim(data, p)
    ensures p < |data| ==> !NumberChar(data[p])
  {
  }

  lemma DigitStart(g: Grammar, data: string, pos: nat)
    requires Q(g) && pos < |data| && RecRule(g, data, DATE_TIME, pos).Some?
    ensures IsDigit(data[pos])
  {
    hide RecRule, RecSeq;
    RuleIs(g, data, DATE_TIME, pos);
    RuleIs(g, data, DATE, pos);
    Digits4At(g, data, pos);
    SeqStep(g, data, Body(DATE_TIME).e.es, 0, pos);
    SeqStep(g, data, Body(DATE).es, 0, pos);
  }

  /** A legal date and time is matched as a whole. */
  lemma DateTimeMatches(g: Grammar, data: string, pos: nat, t: string)
    requires Q(g) && LegalDateTime(t) && StartsAt(data, pos, t)
    ensures RecRule(g, data, DATE_TIME, pos) == Some(pos + |t|)
  {
    hide RecRule, Rec, RecSeq;
    DateTimeChars(data, pos, t);
    var es := Body(DATE_TIME).e.es;
    RuleIs(g, data, DATE_TIME, pos);
    SeqIs(g, data, es, pos);
    DateMatches(g, data, pos);
    CharAt(g, data, TEE, 'T', pos + 10);
    TimeMatches(g, data, pos + 11);
    CharAt(g, data, ZEE, 'Z', pos + 19);
    RefPart(g, data, es, 0, DATE, pos);
    RefPart(g, data, es, 1, TEE, pos + 10);
    RefPart(g, data, es, 2, TIME, pos + 11);
    RefPart(g, data, es, 3, ZEE, pos + 19);
    SeqEnd(g, data, es, pos + 20);
  }

  predicate DigitsAt(data: string, pos: nat) {
    pos + 1 < |data| && IsDigit(data[pos]) && IsDigit(data[pos + 1])
  }

  predicate Is(data: string, pos: nat, c: char) {
    pos < |data| && data[pos] == c
  }

  lemma DateTimeChars(data: string, pos: nat, t: string)
    requires LegalDateTime(t) && StartsAt(data, pos, t)
    ensures |t| == 20 && pos + 20 <= |data|
    ensures DigitsAt(data, pos) && DigitsAt(data, pos + 2) && Is(data, pos + 4, '-')
    ensures DigitsAt(data, pos + 5) && Is(data, pos + 7, '-') && DigitsAt(data, pos + 8) && Is(data, pos + 10, 'T')
    ensures DigitsAt(data, pos + 11) && Is(data, pos + 13, ':') && DigitsAt(data, pos + 14)
    ensures Is(data, pos + 16, ':') && DigitsAt(data, pos + 17) && Is(data, pos + 19, 'Z')
  {
    hide StartsAt;
    StartsBound(data, pos, t);
    forall k | pos <= k < pos + 20
      ensures var c := DATE_TIME_FORM[k - pos]; if c == '0' then IsDigit(data[k]) else data[k] == c
    {
      StartsChar(data, pos, t, k - pos);
      assert t[k - pos] == data[k];
    }
  }

  /** An element of a sequence that is a rule and matches. */
  lemma RefPart(g: Grammar, data: string, es: seq<Expr>, i: nat, r: RuleId, pos: nat)
    requires Q(g) && (forall k | 0 <= k < |es| :: ExprOk(g, es[k])) && i < |es| && pos <= |data|
    requires es[i] == Ref(r) && r < RULES && RecRule(g, data, r, pos).Some?
    ensures RecRule(g, data, r, pos).value <= |data|
    ensures RecSeq(g, data, es, i, pos) == RecSeq(g, data, es, i + 1, RecRule(g, data, r, pos).value)
  {
    hide RecRule;
  }

  lemma DateMatches(g: Grammar, data: string, pos: nat)
    requires Q(g) && DigitsAt(data, pos) && DigitsAt(data, pos + 2) && Is(data, pos + 4, '-')
    requires DigitsAt(data, pos + 5) && Is(data, pos + 7, '-') && DigitsAt(data, pos + 8)
    ensures RecRule(g, data, DATE, pos) == Some(pos + 10)
  {
    hide Rec, RecRule, RecSeq;
    var es := Body(DATE).es;
    RuleIs(g, data, DATE, pos);
    SeqIs(g, data, es, pos);
    FourDigits(g, data, pos);
    CharAt(g, data, DASH, '-', pos + 4);
    Digits2At(g, data, pos + 5);
    CharAt(g, data, DASH, '-', pos + 7);
    Digits2At(g, data, pos + 8);
    RefPart(g, data, es, 0, DIGITS4, pos);
    RefPart(g, data, es, 1, DASH, pos + 4);
    RefPart(g, data, es, 2, DIGITS2, pos + 5);
    RefPart(g, data, es, 3, DASH, pos + 7);
    RefPart(g, data, es, 4, DIGITS2, pos + 8);
    SeqEnd(g, data, es, pos + 10);
  }

  lemma FourDigits(g: Grammar, data: string, pos: nat)
    requires Q(g) && DigitsAt(data, pos) && DigitsAt(data, pos + 2)
    ensures RecRule(g, data, DIGITS4, pos) == Some(pos + 4)
  {
    hide Rec, RecRule, RecSeq;
    var es := Body(DIGITS4).es;
    RuleIs(g, data, DIGITS4, pos);
    SeqIs(g, data, es, pos);
    Digits2At(g, data, pos);
    Digits2At(g, data, pos + 2);
    RefPart(g, data, es, 0, DIGITS2, pos);
    RefPart(g, data, es, 1, DIGITS2, pos + 2);
    SeqEnd(g, data, es, pos + 4);
  }

  lemma TimeMatches(g: Grammar, data: string, pos: nat)
    requires Q(g) && DigitsAt(data, pos) && Is(data, pos + 2, ':') && DigitsAt(data, pos + 3)
    requires Is(data, pos + 5, ':') && DigitsAt(data, pos + 6)
    ensures RecRule(g, data, TIME, pos) == Some(pos + 8)
  {
    hide Rec, RecRule, RecSeq;
    var es := Body(TIME).es;
    RuleIs(g, data, TIME, pos);
    SeqIs(g, data, es, pos);
    Digits2At(g, data, pos);
    CharAt(g, data, COLON, ':', pos + 2);
    Digits2At(g, data, pos + 3);
    CharAt(g, data, COLON, ':', pos + 5);
    Digits2At(g, data, pos + 6);
    RefPart(g, data, es, 0, DIGITS2, pos);
    RefPart(g, data, es, 1, COLON, pos + 2);
    RefPart(g, data, es, 2, DIGITS2, pos + 3);
    RefPart(g, data, es, 3, COLON, pos + 5);
    RefPart(g, data, es, 4, DIGITS2, pos + 6);
    SeqEnd(g, data, es, pos + 8);
  }
}
