/** Windows and dates and times cannot stand without a field. */
module Unfielded {
  import opened Wrappers
  import opened Peg
  import opened QueryAst
  import opened QueryRun
  import opened QueryGrammar
  import opened Decimal
  import opened Texts
  import opened Tokens
  import opened Values
  import opened Terms
  import opened Pairs
  import opened FlatQueries
  import opened FlatRuns
  import opened QueryParse
  import opened GroupParse
  import opened NotNames

  /** No negation and no group starts here. */
  lemma NoPrefix(g: Grammar, data: string)
    requires Q(g) && data != "" && data[0] != 'N' && data[0] != '!' && data[0] != '(' && !WsAt(data, 0)
    ensures RecRule(g, data, NOT_CHECK, 0) == None
    ensures RecRule(g, data, NOT_GROUP_START, 0) == None && RecRule(g, data, GROUP_START, 0) == None
  {
    hide RecRule, Rec, StartsAt;
    NotTokenAt(g, data, 0);
    FirstOf(data, 0, "NOT");
    FirstOf(data, 0, "!");
    NotSeqIs(g, data, 0, 0, 0);
    RuleIs(g, data, NOT_PREFIX, 0);
    CheckAsPrefix(g, data, 0);
    PrefixFails(g, data, 0, 0);
  }

  /** No query starts with a window. */
  lemma WindowUnbuilt(g: Grammar, data: string)
    requires Q(g) && data != "" && data[0] == '['
    ensures Built(g, data) == None
  {
    hide RecRule, Rec, Built, StartsAt;
    NoPrefix(g, data);
    TermFails(g, data, 0, 0);
    ExprFails(g, data, 0);
    QueryFails(g, data, 0);
    InputFails(g, data);
    Unbuilt(g, data);
  }

  lemma OpValueNone(g: Grammar, data: string, pos: nat)
    requires Q(g) && pos < |data| && IsDigit(data[pos])
    ensures RecRule(g, data, OP_VALUE, pos) == None
  {
    hide Run, RunRule, Rec, RecRule, RecChoice, StartsAt, ExprOk, Nullable, LeftRank;
    assert StartsAt(data, pos, "") by { EmptyStarts(data, pos); }
    var es := Body(OP_VALUE).es;
    OpAlternativeRun(g, data, "d", DATE_TIME, pos, NO, START);
    OpAlternativeRun(g, data, "n", NUMBER, pos, NO, START);
    OpAlternativeRun(g, data, "p", PHRASE, pos, NO, START);
    OpAlternativeRun(g, data, "w", WORD, pos, NO, START);
    RuleIs(g, data, OP_VALUE, pos);
    ChoiceOk(g, OP_VALUE);
    ChoiceIs(g, data, es, pos);
    ChoiceStep(g, data, es, 0, pos);
    ChoiceStep(g, data, es, 1, pos);
    ChoiceStep(g, data, es, 2, pos);
    ChoiceStep(g, data, es, 3, pos);
  }

  lemma EmptyStarts(data: string, pos: nat)
    requires pos <= |data|
    ensures StartsAt(data, pos, "")
  {
  }

  /** Two digits before a colon are the whole value. */
  lemma HourValue(g: Grammar, data: string, pos: nat)
    requires Q(g) && DigitsAt(data, pos) && Is(data, pos + 2, ':')
    ensures RecRule(g, data, VALUE, pos) == Some(pos + 2)
  {
    hide Rec, RecRule, RecChoice, ExprOk, Nullable, LeftRank;
    var es := Body(VALUE).es;
    WindowFails(g, data, pos);
    OpValueNone(g, data, pos);
    PhraseFails(g, data, pos);
    DateTimeShape(g, data, pos);
    NumberSeq(g, data, pos, pos + 2);
    RuleIs(g, data, NUMBER, pos);
    RuleIs(g, data, VALUE, pos);
    ChoiceOk(g, VALUE);
    ChoiceIs(g, data, es, pos);
    ChoiceRule(g, data, es, 0, WINDOW, pos);
    ChoiceRule(g, data, es, 1, OP_VALUE, pos);
    ChoiceRule(g, data, es, 2, PHRASE, pos);
    ChoiceRule(g, data, es, 3, DATE_TIME, pos);
    ChoiceRule(g, data, es, 4, NUMBER, pos);
  }

  /** A date and time reads as a field name up to its first colon, with the
      minutes as the value. */
  lemma DateTimeAsPair(g: Grammar, data: string, pos: nat, t: string)
    requires Q(g) && LegalDateTime(t) && StartsAt(data, pos, t)
    ensures pos + 20 <= |data| && RecRule(g, data, KEY_VALUE, pos) == Some(pos + 16) && Is(data, pos + 16, ':')
  {
    hide Rec, RecRule, RecSeq, StartsAt, LegalDateTime, Q, ExprOk;
    DateTimeChars(data, pos, t);
    DateTimeName(data, pos, t);
    var f := t[..13];
    KeyMatches(g, data, pos, f);
    CharAt(g, data, COLON, ':', pos + 13);
    HourValue(g, data, pos + 14);
    var es := Body(KEY_VALUE).e.es;
    PairParts(g, es);
    RuleIs(g, data, KEY_VALUE, pos);
    SeqIs(g, data, es, pos);
    RuleIs(g, data, KEY, pos);
    LabelIs(g, data, "k", Ref(KEY), pos);
    LabelPart(g, data, es, 0, pos);
    RefPart(g, data, es, 1, COLON, pos + 13);
    SeqOptWs(g, data, es, 2, pos + 14, pos + 14);
    RuleIs(g, data, VALUE, pos + 14);
    LabelIs(g, data, "v", Ref(VALUE), pos + 14);
    LabelPart(g, data, es, 3, pos + 14);
    SeqEnd(g, data, es, pos + 16);
  }

  lemma DateTimeName(data: string, pos: nat, t: string)
    requires LegalDateTime(t) && StartsAt(data, pos, t)
    ensures |t| == 20 && LegalKey(t[..13]) && StartsAt(data, pos, t[..13])
    ensures !IsWs(t[0]) && t[0] != 'N' && t[0] != '!' && t[0] != '('
  {
    assert t == t[..13] + t[13..];
    StartsSplit(data, pos, t[..13], t[13..]);
    hide StartsAt;
    forall k | 0 <= k < 13 ensures KeyChar(t[k]) {
      assert DATE_TIME_FORM[k] in "0-T";
    }
    assert IsDigit(t[0]);
  }

  lemma LabelPart(g: Grammar, data: string, es: seq<Expr>, i: nat, pos: nat)
    requires Q(g) && (forall k | 0 <= k < |es| :: ExprOk(g, es[k])) && i < |es| && pos <= |data| && Rec(g, data, es[i], pos).Some?
    ensures RecSeq(g, data, es, i, pos) == RecSeq(g, data, es, i + 1, Rec(g, data, es[i], pos).value)
  {
  }

  /** No query starts with a date and time: what follows its minutes fits
      nothing. */
  lemma DateTimeUnbuilt(g: Grammar, data: string, t: string)
    requires Q(g) && LegalDateTime(t) && StartsAt(data, 0, t)
    ensures Built(g, data) == None
  {
    hide RecRule, Rec, RecStar, StartsAt, LegalDateTime, Built, WsAt, ExprOk, Nullable;
    DateTimeName(data, 0, t);
    StartsBound(data, 0, t);
    StartsChar(data, 0, t, 0);
    DateTimeAsPair(g, data, 0, t);
    NotWsThere(data, 16);
    NoPrefix(g, data);
    PairAlone(g, data, 16);
    MoreNone(g, data, 16);
    QueryIs(g, data, 0, 16);
    TrailFails(g, data, 16);
    Unbuilt(g, data);
  }

  lemma NotWsThere(data: string, p: nat)
    requires data != "" && !IsWs(data[0]) && Is(data, p, ':')
    ensures !WsAt(data, 0) && !WsAt(data, p)
  {
  }

  /** A term that is a pair. */
  lemma TermPair(g: Grammar, data: string, p: nat)
    requires Q(g) && RecRule(g, data, KEY_VALUE, 0) == Some(p) && RecRule(g, data, NOT_CHECK, 0) == None
    ensures RecRule(g, data, TERM, 0) == Some(p)
  {
    hide RecRule, Rec, RecSeq, RecChoice, Q, ExprOk;
    RuleIs(g, data, KEY_VALUE, 0);
    RuleIs(g, data, SINGLE_VALUE, 0);
    RuleIs(g, data, NOT_CHECK, 0);
    RuleIs(g, data, TERM, 0);
    OptIs(g, data, Ref(NOT_CHECK), 0);
    Choice2(g, data, Ref(KEY_VALUE), Ref(SINGLE_VALUE), 0);
    Seq2(g, data, Opt(Ref(NOT_CHECK)), Choice([Ref(KEY_VALUE), Ref(SINGLE_VALUE)]), 0);
  }

  /** An expression that is a pair. */
  lemma PairAlone(g: Grammar, data: string, p: nat)
    requires Q(g) && RecRule(g, data, KEY_VALUE, 0) == Some(p) && RecRule(g, data, NOT_CHECK, 0) == None
    requires RecRule(g, data, NOT_GROUP_START, 0) == None && RecRule(g, data, GROUP_START, 0) == None
    ensures RecRule(g, data, EXPR, 0) == Some(p)
  {
    hide RecRule, Rec, RecSeq, RecChoice, Q;
    TermPair(g, data, p);
    RuleIs(g, data, NOT_GROUP_START, 0);
    RuleIs(g, data, GROUP_START, 0);
    RuleIs(g, data, GROUP_PREFIX, 0);
    Choice2(g, data, Ref(NOT_GROUP_START), Ref(GROUP_START), 0);
    GroupOrTerm(g, data, 0, None);
  }

  /** Without whitespace there is no further term. */
  lemma MoreNone(g: Grammar, data: string, p: nat)
    requires Q(g) && Is(data, p, ':')
    ensures ExprOk(g, MORE) && !Nullable(g, MORE) && Rec(g, data, MORE, p) == None && RecStar(g, data, MORE, p) == p
  {
    hide RecRule, Rec, RecStar, ExprOk, Nullable;
    MoreOk(g);
    WsMatches(g, data, p, p);
    RuleIs(g, data, WS, p);
    SeqFails(g, data, MORE.es, p);
    RunStarStep(g, data, MORE, p, [], map[], START);
  }

  /** A text that goes on where its query part ends. */
  lemma TrailFails(g: Grammar, data: string, p: nat)
    requires Q(g) && !WsAt(data, 0) && p < |data| && !WsAt(data, p) && RecRule(g, data, QUERY, 0) == Some(p)
    ensures RecRule(g, data, INPUT, 0) == None
  {
    hide RecRule, Rec, RecSeq, WsAt;
    InputParts(g);
    NotAtEnd(g, data, p);
    var es := Body(INPUT).e.es;
    RuleIs(g, data, INPUT, 0);
    SeqIs(g, data, es, 0);
    SeqOptWs(g, data, es, 0, 0, 0);
    SeqRule(g, data, es, 1, QUERY, 0);
    SeqOptWs(g, data, es, 2, p, p);
    SeqStep(g, data, es, 3, p);
  }
}
