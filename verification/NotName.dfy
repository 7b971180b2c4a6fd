/** Texts that are no queries: a field name NOT, which is read as a negation of
    nothing. */
module NotNames {
  import opened Wrappers
  import opened Peg
  import opened QueryRun
  import opened QueryGrammar
  import opened Texts
  import opened Tokens
  import opened Values
  import opened Pairs
  import opened FlatQueries
  import opened FlatRuns
  import opened QueryParse
  import opened GroupParse

  /** Neither a field name nor a value starts here. */
  predicate NoItem(data: string, pos: nat) {
    pos < |data| && data[pos] in ":(["
  }

  lemma KeyFails(g: Grammar, data: string, pos: nat)
    requires Q(g) && NoItem(data, pos)
    ensures RecRule(g, data, KEY, pos) == None
  {
    hide RecRule;
    Classes(data[pos]);
    RuleIs(g, data, KEY, pos);
    ClassAt(g, data, KeyClass, pos);
    assert Rec(g, data, Plus(KeyClass), pos) == None;
  }

  lemma WordFails(g: Grammar, data: string, pos: nat)
    requires Q(g) && NoItem(data, pos)
    ensures RecRule(g, data, WORD, pos) == None
  {
    hide RecRule;
    Classes(data[pos]);
    RuleIs(g, data, WORD, pos);
    ClassAt(g, data, WordHead, pos);
    SeqFails(g, data, Body(WORD).e.es, pos);
  }

  lemma DateTimeNone(g: Grammar, data: string, pos: nat)
    requires Q(g) && NoItem(data, pos)
    ensures RecRule(g, data, DATE_TIME, pos) == None
  {
    hide RecRule, Rec;
    if RecRule(g, data, DATE_TIME, pos).Some? { DigitStart(g, data, pos); }
  }

  lemma KeyValueFails(g: Grammar, data: string, pos: nat)
    requires Q(g) && NoItem(data, pos)
    ensures RecRule(g, data, KEY_VALUE, pos) == None
  {
    hide RecRule, Rec, RecSeq;
    KeyFails(g, data, pos);
    RuleIs(g, data, KEY_VALUE, pos);
    RuleIs(g, data, KEY, pos);
    var es := Body(KEY_VALUE).e.es;
    PairParts(g, es);
    LabelIs(g, data, "k", Ref(KEY), pos);
    SeqFails(g, data, es, pos);
  }

  lemma LabelIs(g: Grammar, data: string, name: string, e: Expr, pos: nat)
    requires Q(g) && ExprOk(g, e) && pos <= |data|
    ensures ExprOk(g, Label(name, e)) && Rec(g, data, Label(name, e), pos) == Rec(g, data, e, pos)
  {
  }

  /** An element of a sequence, and an alternative, that is a rule. */
  lemma SeqRule(g: Grammar, data: string, es: seq<Expr>, i: nat, r: RuleId, pos: nat)
    requires Q(g) && (forall k | 0 <= k < |es| :: ExprOk(g, es[k])) && i < |es| && pos <= |data|
    requires es[i] == Ref(r) && r < RULES
    ensures var rec := RecRule(g, data, r, pos);
            RecSeq(g, data, es, i, pos) == if rec.None? then None else RecSeq(g, data, es, i + 1, rec.value)
  {
    hide RecRule, Body;
    RuleIs(g, data, r, pos);
  }

  lemma ChoiceRule(g: Grammar, data: string, es: seq<Expr>, i: nat, r: RuleId, pos: nat)
    requires Q(g) && (forall k | 0 <= k < |es| :: ExprOk(g, es[k])) && i < |es| && pos <= |data|
    requires es[i] == Ref(r) && r < RULES
    ensures RecChoice(g, data, es, i, pos) == Else(RecRule(g, data, r, pos), RecChoice(g, data, es, i + 1, pos))
  {
    hide RecRule, Body;
    RuleIs(g, data, r, pos);
  }

  lemma SingleValueFails(g: Grammar, data: string, pos: nat)
    requires Q(g) && NoItem(data, pos)
    ensures RecRule(g, data, SINGLE_VALUE, pos) == None
  {
    hide RecRule, Rec, RecChoice, Q;
    PhraseFails(g, data, pos);
    DateTimeNone(g, data, pos);
    NumberFails(g, data, pos);
    WordFails(g, data, pos);
    SingleValueIs(g, data, pos);
  }

  lemma SingleValueIs(g: Grammar, data: string, pos: nat)
    requires Q(g) && pos <= |data|
    requires RecRule(g, data, PHRASE, pos) == None && RecRule(g, data, DATE_TIME, pos) == None
    requires RecRule(g, data, NUMBER, pos) == None && RecRule(g, data, WORD, pos) == None
    ensures RecRule(g, data, SINGLE_VALUE, pos) == None
  {
    hide RecRule, Rec, RecChoice, Q, ExprOk;
    var es := Body(SINGLE_VALUE).es;
    RuleIs(g, data, SINGLE_VALUE, pos);
    ChoiceOk(g, SINGLE_VALUE);
    ChoiceIs(g, data, es, pos);
    ChoiceRule(g, data, es, 0, es[0].rule, pos);
    ChoiceRule(g, data, es, 1, es[1].rule, pos);
    ChoiceRule(g, data, es, 2, es[2].rule, pos);
    ChoiceRule(g, data, es, 3, es[3].rule, pos);
  }

  lemma ChoiceIs(g: Grammar, data: string, es: seq<Expr>, pos: nat)
    requires Q(g) && (forall k | 0 <= k < |es| :: ExprOk(g, es[k])) && pos <= |data|
    ensures ExprOk(g, Choice(es)) && Rec(g, data, Choice(es), pos) == RecChoice(g, data, es, 0, pos)
    ensures RecChoice(g, data, es, |es|, pos) == None
  {
  }

  /** No term starts where its pair would have to start with no item. */
  lemma TermFails(g: Grammar, data: string, pos: nat, p: nat)
    requires Q(g) && pos <= p && NoItem(data, p)
    requires RecRule(g, data, NOT_CHECK, pos) == if p == pos then None else Some(p)
    ensures RecRule(g, data, TERM, pos) == None
  {
    hide RecRule, Rec, RecSeq, RecChoice;
    KeyValueFails(g, data, p);
    SingleValueFails(g, data, p);
    RuleIs(g, data, KEY_VALUE, p);
    RuleIs(g, data, SINGLE_VALUE, p);
    RuleIs(g, data, NOT_CHECK, pos);
    RuleIs(g, data, TERM, pos);
    OptIs(g, data, Ref(NOT_CHECK), pos);
    Choice2(g, data, Ref(KEY_VALUE), Ref(SINGLE_VALUE), p);
    Seq2(g, data, Opt(Ref(NOT_CHECK)), Choice([Ref(KEY_VALUE), Ref(SINGLE_VALUE)]), pos);
  }

  /** The negation rules at a text `NOT:`. */
  lemma NotColon(g: Grammar, data: string, pos: nat)
    requires Q(g) && StartsAt(data, pos, "NOT:")
    ensures pos + 3 < |data| && data[pos + 3] == ':'
    ensures RecRule(g, data, NOT_PREFIX, pos) == Some(pos + 3)
    ensures RecRule(g, data, NOT_CHECK, pos) == Some(pos + 3)
  {
    hide RecRule, Rec, StartsAt;
    StartsBound(data, pos, "NOT:");
    StartsChar(data, pos, "NOT:", 3);
    assert "NOT:" == "NOT" + ":";
    StartsSplit(data, pos, "NOT", ":");
    NotTokenAt(g, data, pos);
    NotSeqIs(g, data, pos, pos + 3, pos + 3);
    RuleIs(g, data, NOT_PREFIX, pos);
    RuleIs(g, data, NOT_CHECK, pos);
  }

  /** No expression starts with `NOT:`. */
  lemma NotColonFails(g: Grammar, data: string, pos: nat)
    requires Q(g) && StartsAt(data, pos, "NOT:")
    ensures pos <= |data| && RecRule(g, data, EXPR, pos) == None
  {
    hide RecRule, Rec, StartsAt;
    NotColon(g, data, pos);
    PrefixFails(g, data, pos, pos + 3);
    TermFails(g, data, pos, pos + 3);
    ExprFails(g, data, pos);
  }

  lemma ExprFails(g: Grammar, data: string, pos: nat)
    requires Q(g) && pos <= |data| && RecRule(g, data, TERM, pos) == None
    requires RecRule(g, data, NOT_GROUP_START, pos) == None && RecRule(g, data, GROUP_START, pos) == None
    ensures RecRule(g, data, EXPR, pos) == None
  {
    hide RecRule, Rec;
    RuleIs(g, data, NOT_GROUP_START, pos);
    RuleIs(g, data, GROUP_START, pos);
    RuleIs(g, data, GROUP_PREFIX, pos);
    Choice2(g, data, Ref(NOT_GROUP_START), Ref(GROUP_START), pos);
    GroupOrTerm(g, data, pos, None);
  }

  /** An expression is a group or else a term. */
  lemma GroupOrTerm(g: Grammar, data: string, pos: nat, p: Option<nat>)
    requires Q(g) && pos <= |data| && RecRule(g, data, GROUP_PREFIX, pos) == p && (p.Some? ==> p.value <= |data|)
    requires p.Some? ==> RecRule(g, data, GROUP_SUFFIX, p.value) == None
    ensures RecRule(g, data, EXPR, pos) == RecRule(g, data, TERM, pos)
  {
    hide RecRule, Rec, Q;
    GroupNone(g, data, pos, p);
    RuleIs(g, data, GROUP_OR_NOT, pos);
    RuleIs(g, data, TERM, pos);
    RuleIs(g, data, EXPR, pos);
    Choice2(g, data, Ref(GROUP_OR_NOT), Ref(TERM), pos);
  }

  lemma GroupNone(g: Grammar, data: string, pos: nat, p: Option<nat>)
    requires Q(g) && pos <= |data| && RecRule(g, data, GROUP_PREFIX, pos) == p && (p.Some? ==> p.value <= |data|)
    requires p.Some? ==> RecRule(g, data, GROUP_SUFFIX, p.value) == None
    ensures RecRule(g, data, GROUP_OR_NOT, pos) == None
  {
    hide RecRule, Rec, Q;
    RuleIs(g, data, GROUP_PREFIX, pos);
    if p.Some? { RuleIs(g, data, GROUP_SUFFIX, p.value); }
    RuleIs(g, data, GROUP_OR_NOT, pos);
    RuleIs(g, data, GROUP_SUFFIX, pos);
    Seq2(g, data, Ref(GROUP_PREFIX), Ref(GROUP_SUFFIX), pos);
  }

  /** A group whose inside fails is no expression. */
  lemma GroupTextFails(g: Grammar, data: string, pos: nat)
    requires Q(g) && ParenAt(data, pos) && RecRule(g, data, GROUP_SUFFIX, pos + 1) == None
    ensures RecRule(g, data, EXPR, pos) == None
  {
    hide RecRule, Rec, ParenAt;
    NoPrefixAtParen(g, data, pos);
    ParenIs(data, pos);
    NoCheckAtParen(g, data, pos);
    NoNegationAtParen(g, data, pos);
    TermFails(g, data, pos, pos);
    RuleIs(g, data, NOT_GROUP_START, pos);
    RuleIs(g, data, GROUP_START, pos);
    RuleIs(g, data, GROUP_PREFIX, pos);
    Choice2(g, data, Ref(NOT_GROUP_START), Ref(GROUP_START), pos);
    GroupOrTerm(g, data, pos, Some(pos + 1));
  }

  /** A negated group whose inside fails is no expression either. */
  lemma NegTextFails(g: Grammar, data: string, pos: nat, neg: Neg)
    requires Q(g) && !neg.Plain? && NegAt(data, pos, neg) && ParenAt(data, pos + NegLen(neg))
    requires RecRule(g, data, GROUP_SUFFIX, pos + NegLen(neg) + 1) == None
    ensures pos <= |data| && RecRule(g, data, EXPR, pos) == None
  {
    hide RecRule, Rec, NegAt, NegLen;
    var p := pos + NegLen(neg);
    NegPrefix(g, data, pos, neg);
    NegPositive(neg);
    ParenIs(data, p);
    CheckAsPrefix(g, data, pos);
    TermFails(g, data, pos, p);
    NegStartRec(g, data, pos, p);
    RuleIs(g, data, NOT_GROUP_START, pos);
    RuleIs(g, data, GROUP_START, pos);
    RuleIs(g, data, GROUP_PREFIX, pos);
    Choice2(g, data, Ref(NOT_GROUP_START), Ref(GROUP_START), pos);
    GroupOrTerm(g, data, pos, Some(p + 1));
  }

  lemma NegPositive(neg: Neg)
    requires !neg.Plain?
    ensures NegLen(neg) > 0
  {
  }

  /** The negation of a term and that of a group are the same sequence. */
  lemma CheckAsPrefix(g: Grammar, data: string, pos: nat)
    requires Q(g) && pos <= |data|
    ensures RecRule(g, data, NOT_CHECK, pos) == RecRule(g, data, NOT_PREFIX, pos)
  {
    hide RecRule, Rec;
    RuleIs(g, data, NOT_PREFIX, pos);
    RuleIs(g, data, NOT_CHECK, pos);
  }

  lemma ParenIs(data: string, pos: nat)
    requires ParenAt(data, pos)
    ensures pos < |data| && NoItem(data, pos)
  {
  }

  lemma NoCheckAtParen(g: Grammar, data: string, pos: nat)
    requires Q(g) && ParenAt(data, pos) && RecRule(g, data, NOT_PREFIX, pos) == None
    ensures RecRule(g, data, NOT_CHECK, pos) == None
  {
    hide RecRule, Rec;
    RuleIs(g, data, NOT_PREFIX, pos);
    RuleIs(g, data, NOT_CHECK, pos);
  }

  /** No query where no expression starts. */
  lemma QueryFails(g: Grammar, data: string, pos: nat)
    requires Q(g) && pos <= |data| && RecRule(g, data, EXPR, pos) == None
    ensures RecRule(g, data, QUERY, pos) == None
  {
    hide RecRule, Rec;
    MoreOk(g);
    RuleIs(g, data, EXPR, pos);
    RuleIs(g, data, EXPRS, pos);
    RuleIs(g, data, QUERY, pos);
    SeqFails(g, data, Body(EXPRS).es, pos);
  }

  /** A text whose query part fails. */
  lemma InputFails(g: Grammar, data: string)
    requires Q(g) && !WsAt(data, 0) && RecRule(g, data, QUERY, 0) == None
    ensures RecRule(g, data, INPUT, 0) == None
  {
    hide RecRule, Rec, RecSeq, WsAt;
    InputParts(g);
    WsMatches(g, data, 0, 0);
    RuleIs(g, data, INPUT, 0);
    RuleIs(g, data, QUERY, 0);
    var es := Body(INPUT).e.es;
    SeqIs(g, data, es, 0);
    SeqStep(g, data, es, 0, 0);
    SeqStep(g, data, es, 1, 0);
  }

  /** A text that no rule matches gives no query. */
  lemma Unbuilt(g: Grammar, data: string)
    requires Q(g) && RecRule(g, data, INPUT, 0) == None
    ensures Built(g, data) == None
  {
    hide RunRule, RecRule;
  }

  /** A separator that is followed by `NOT:` ends the list of terms. */
  lemma MoreStops(g: Grammar, data: string, pos: nat, s: Sep)
    requires Q(g) && SepAt(data, pos, s) && StartsAt(data, pos + SepLen(s), "NOT:")
    ensures ExprOk(g, MORE) && pos <= |data| && Rec(g, data, MORE, pos) == None
  {
    hide RecRule, Rec, RecSeq, RunRule, GapAt, StartsAt, WsAt, SepAt, SepTok;
    SepParts(data, pos, s);
    var p := pos + |s.before|;
    var q := p + |SepTok(s)|;
    var e := pos + SepLen(s);
    WsRun(g, data, pos, s.before, START);
    SepTokenRun(g, data, p, s, START);
    WsRun(g, data, q, s.after, START);
    NotColonFails(g, data, e);
    MoreOk(g);
    MoreIs(g, data, pos, p, q, e);
  }

  lemma MoreIs(g: Grammar, data: string, pos: nat, p: nat, q: nat, e: nat)
    requires Q(g) && pos <= p <= q <= e <= |data| && ExprOk(g, MORE)
    requires RecRule(g, data, WS, pos) == Some(p) && RecRule(g, data, OPERATOR, p) == Some(q)
    requires RecRule(g, data, WS, q) == Some(e) && RecRule(g, data, EXPR, e) == None
    ensures Rec(g, data, MORE, pos) == None
  {
    hide RecRule, Rec, RecSeq, Q, ExprOk;
    var es := MORE.es;
    SeqIs(g, data, es, pos);
    SeqRule(g, data, es, 0, WS, pos);
    SeqRule(g, data, es, 1, OPERATOR, p);
    SeqRule(g, data, es, 2, WS, q);
    SeqRule(g, data, es, 3, EXPR, e);
  }

  /** The list of terms goes on exactly to where no further one follows. */
  lemma {:induction false} RestStops(g: Grammar, data: string, pos: nat, rest: Rest)
    requires Q(g) && RestTo(data, pos, rest) && ExprOk(g, MORE) && !Nullable(g, MORE)
    requires pos + RestLen(rest) <= |data| && Rec(g, data, MORE, pos + RestLen(rest)) == None
    ensures RecStar(g, data, MORE, pos) == pos + RestLen(rest)
    decreases |rest|
  {
    hide Run, Rec, RunStar, RecStar, ExprOk, Nullable, SepAt, TermAt, SepLen, TermLen, SepSt, TermSt;
    if rest == [] {
      RunStarStep(g, data, MORE, pos, [], map[], START);
    } else {
      var (s, t) := rest[0];
      MoreRun(g, data, pos, s, t, START);
      RunStarStep(g, data, MORE, pos, [], map[], START);
      RestStops(g, data, pos + SepLen(s) + TermLen(t), rest[1..]);
    }
  }

  /** The inside of a group that stops before a separator has no closing
      parenthesis there. */
  lemma SuffixStops(g: Grammar, data: string, pos: nat, first: Term, rest: Rest, s: Sep)
    requires Q(g) && TermAt(data, pos, first) && RestTo(data, pos + TermLen(first), rest)
    requires var e := pos + TermLen(first) + RestLen(rest);
             SepAt(data, e, s) && StartsAt(data, e + SepLen(s), "NOT:")
    ensures RecRule(g, data, GROUP_SUFFIX, pos) == None
  {
    hide RecRule, Rec, RecStar, RunRule, TermAt, SepAt, RestTo, StartsAt, ExprOk, Nullable, TermLen, SepLen, RestLen, TermSt;
    var p := pos + TermLen(first);
    var e := p + RestLen(rest);
    MoreStops(g, data, e, s);
    MoreOk(g);
    ExprRun(g, data, pos, first, START);
    RestStops(g, data, p, rest);
    QueryIs(g, data, pos, p);
    TermNotWs(data, pos, first);
    SuffixNone(g, data, pos, e, s);
  }

  lemma QueryIs(g: Grammar, data: string, pos: nat, p: nat)
    requires Q(g) && pos <= p <= |data| && RecRule(g, data, EXPR, pos) == Some(p)
    ensures ExprOk(g, MORE) && !Nullable(g, MORE) && RecRule(g, data, QUERY, pos) == Some(RecStar(g, data, MORE, p))
  {
    hide RecRule, Rec, RecStar, RunStar;
    MoreOk(g);
    RuleIs(g, data, EXPR, pos);
    RuleIs(g, data, EXPRS, pos);
    RuleIs(g, data, QUERY, pos);
    RunStarIs(g, data, MORE, p, map[], START);
    Seq2(g, data, Ref(EXPR), Star(MORE), pos);
  }

  lemma SuffixNone(g: Grammar, data: string, pos: nat, e: nat, s: Sep)
    requires Q(g) && !WsAt(data, pos) && pos <= e && SepAt(data, e, s) && RecRule(g, data, QUERY, pos) == Some(e)
    ensures RecRule(g, data, GROUP_SUFFIX, pos) == None
  {
    hide RecRule, Rec, RecSeq, GapAt, WsAt, StartsAt, SepAt, SepTok, SepLen, Q, AllWs;
    SepParts(data, e, s);
    var q := e + |s.before|;
    GapSpan(data, e, s.before);
    NoClose(g, data, q, s);
    SuffixIs(g, data, pos, e, q);
  }

  lemma SuffixIs(g: Grammar, data: string, pos: nat, e: nat, q: nat)
    requires Q(g) && pos <= e <= q <= |data| && !WsAt(data, pos) && AllWs(data[e..q]) && !WsAt(data, q)
    requires RecRule(g, data, QUERY, pos) == Some(e) && RecRule(g, data, CLOSE_PAREN, q) == None
    ensures RecRule(g, data, GROUP_SUFFIX, pos) == None
  {
    hide RecRule, Rec, RecSeq, WsAt, Q, ExprOk;
    var es := Body(GROUP_SUFFIX).es;
    SuffixParts(g);
    RuleIs(g, data, GROUP_SUFFIX, pos);
    SeqIs(g, data, es, pos);
    SeqOptWs(g, data, es, 0, pos, pos);
    SeqRule(g, data, es, 1, QUERY, pos);
    SeqOptWs(g, data, es, 2, e, q);
    SeqRule(g, data, es, 3, CLOSE_PAREN, q);
  }

  lemma NoClose(g: Grammar, data: string, pos: nat, s: Sep)
    requires Q(g) && StartsAt(data, pos, SepTok(s))
    ensures pos <= |data| && RecRule(g, data, CLOSE_PAREN, pos) == None
  {
    hide RecRule;
    StartsChar(data, pos, SepTok(s), 0);
    CharAt(g, data, CLOSE_PAREN, ')', pos);
  }

  /** The inside of a group that starts with `NOT:`. */
  lemma SuffixFails(g: Grammar, data: string, pos: nat)
    requires Q(g) && StartsAt(data, pos, "NOT:")
    ensures pos <= |data| && RecRule(g, data, GROUP_SUFFIX, pos) == None
  {
    hide RecRule, Rec, RecSeq, StartsAt, WsAt, ExprOk;
    NotColonFails(g, data, pos);
    QueryFails(g, data, pos);
    NotNoWs(data, pos);
    SuffixParts(g);
    RuleIs(g, data, GROUP_SUFFIX, pos);
    var es := Body(GROUP_SUFFIX).es;
    SeqIs(g, data, es, pos);
    SeqOptWs(g, data, es, 0, pos, pos);
    SeqRule(g, data, es, 1, QUERY, pos);
  }

  lemma NotNoWs(data: string, pos: nat)
    requires StartsAt(data, pos, "NOT:")
    ensures !WsAt(data, pos)
  {
    StartsChar(data, pos, "NOT:", 0);
  }

  /** A text `NOT:` and anything is no query, bare or first in a group. */
  lemma NotTextUnbuilt(g: Grammar, data: string)
    requires Q(g) && StartsAt(data, 0, "NOT:")
    ensures Built(g, data) == None
  {
    hide RecRule, Rec, StartsAt, WsAt, Built;
    NotColonFails(g, data, 0);
    NotNoWs(data, 0);
    QueryFails(g, data, 0);
    InputFails(g, data);
    Unbuilt(g, data);
  }

  lemma NegUnbuilt(g: Grammar, data: string, neg: Neg)
    requires Q(g) && !neg.Plain? && NegAt(data, 0, neg) && ParenAt(data, NegLen(neg))
    requires RecRule(g, data, GROUP_SUFFIX, NegLen(neg) + 1) == None
    ensures Built(g, data) == None
  {
    hide RecRule, Rec, Built, NegLen;
    NegTextFails(g, data, 0, neg);
    NegStart(data, 0, neg);
    QueryFails(g, data, 0);
    InputFails(g, data);
    Unbuilt(g, data);
  }

  lemma GroupUnbuilt(g: Grammar, data: string)
    requires Q(g) && ParenAt(data, 0) && RecRule(g, data, GROUP_SUFFIX, 1) == None
    ensures Built(g, data) == None
  {
    hide RecRule, Rec, Built;
    GroupTextFails(g, data, 0);
    QueryFails(g, data, 0);
    InputFails(g, data);
    Unbuilt(g, data);
  }
}
