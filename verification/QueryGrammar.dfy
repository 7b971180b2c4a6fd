/** The query grammar of the parser, rule by rule, with its certificate of
    well-formedness. */
module QueryGrammar {
  import opened Peg

  const INPUT: RuleId := 0
  const QUERY: RuleId := 1
  const EXPRS: RuleId := 2
  const OPERATOR: RuleId := 3
  const EXPR: RuleId := 4
  const TERM: RuleId := 5
  const NOT_CHECK: RuleId := 6
  const GROUP_OR_NOT: RuleId := 7
  const GROUP_PREFIX: RuleId := 8
  const GROUP_START: RuleId := 9
  const NOT_GROUP_START: RuleId := 10
  const GROUP_SUFFIX: RuleId := 11
  const NOT_PREFIX: RuleId := 12
  const KEY_VALUE: RuleId := 13
  const SINGLE_VALUE: RuleId := 14
  const KEY: RuleId := 15
  const VALUE: RuleId := 16
  const OP_VALUE: RuleId := 17
  const DATE_TIME: RuleId := 18
  const PHRASE: RuleId := 19
  const WINDOW: RuleId := 20
  const WINDOW_RANGE: RuleId := 21
  const DATE_WINDOW: RuleId := 22
  const WIN_DATE_TIME: RuleId := 23
  const NUMBER_WINDOW: RuleId := 24
  const WIN_NUMBER: RuleId := 25
  const DATE: RuleId := 26
  const TIME: RuleId := 27
  const WORD: RuleId := 28
  const NUMBER: RuleId := 29
  const DIGITS2: RuleId := 30
  const DIGITS4: RuleId := 31
  const OPEN_PAREN: RuleId := 32
  const CLOSE_PAREN: RuleId := 33
  const OPEN_BRACKET: RuleId := 34
  const CLOSE_BRACKET: RuleId := 35
  const DIGIT: RuleId := 36
  const DASH: RuleId := 37
  const COLON: RuleId := 38
  const TILDA: RuleId := 39
  const DQ: RuleId := 40
  const TEE: RuleId := 41
  const ZEE: RuleId := 42
  const EEE: RuleId := 43
  const DOT: RuleId := 44
  const NOT_TOKEN: RuleId := 45
  const AND_TOKEN: RuleId := 46
  const OR_TOKEN: RuleId := 47
  const FIELD_OP: RuleId := 48
  const GTE: RuleId := 49
  const LTE: RuleId := 50
  const GREATER: RuleId := 51
  const LESS: RuleId := 52
  const UNEQUAL: RuleId := 53
  const EQUAL: RuleId := 54
  const WS: RuleId := 55

  const RULES: nat := 56

  const KeyClass := Class("_-", [('A', 'Z'), ('a', 'z'), ('0', '9')], false)
  const PhraseClass := Class("\"", [], true)
  const WordHead := Class("_?\\*", [('a', 'z'), ('A', 'Z')], false)
  const WordTail := Class("_?\\*", [('a', 'z'), ('A', 'Z'), ('0', '9')], false)
  const NumberHead := Choice([Ref(DIGIT), Ref(DOT), Ref(DASH)])
  const NumberTail := Choice([Ref(DIGIT), Ref(DASH), Ref(EEE), Ref(DOT)])

  function OpAlternative(label': string, value: RuleId): Expr {
    Act(OnField(label'), Seq([Ref(FIELD_OP), Label(label', Ref(value))]))
  }

  function Body(r: RuleId): Expr
    requires r < RULES
  {
    match r
    case INPUT => Act(OnInput, Seq([Opt(Ref(WS)), Ref(QUERY), Opt(Ref(WS)), Not(Any)]))
    case QUERY => Ref(EXPRS)
    case EXPRS => Seq([Ref(EXPR), Star(Seq([Ref(WS), Ref(OPERATOR), Ref(WS), Ref(EXPR)]))])
    case OPERATOR => Choice([Act(OnOr, Ref(OR_TOKEN)), Act(OnAnd, Ref(AND_TOKEN))])
    case EXPR => Choice([Ref(GROUP_OR_NOT), Ref(TERM)])
    case TERM => Seq([Opt(Ref(NOT_CHECK)), Choice([Ref(KEY_VALUE), Ref(SINGLE_VALUE)])])
    case NOT_CHECK => Act(OnNotCheck, Seq([Ref(NOT_TOKEN), Opt(Ref(WS))]))
    case GROUP_OR_NOT => Seq([Ref(GROUP_PREFIX), Ref(GROUP_SUFFIX)])
    case GROUP_PREFIX => Choice([Ref(NOT_GROUP_START), Ref(GROUP_START)])
    case GROUP_START => Act(OnGroupStart, Seq([Not(Ref(NOT_PREFIX)), Ref(OPEN_PAREN)]))
    case NOT_GROUP_START => Act(OnNotGroupStart, Seq([Ref(NOT_PREFIX), Ref(OPEN_PAREN)]))
    case GROUP_SUFFIX => Seq([Opt(Ref(WS)), Ref(QUERY), Opt(Ref(WS)), Ref(CLOSE_PAREN)])
    case NOT_PREFIX => Seq([Ref(NOT_TOKEN), Opt(Ref(WS))])
    case KEY_VALUE => Act(OnKeyValue, Seq([Label("k", Ref(KEY)), Ref(COLON), Opt(Ref(WS)), Label("v", Ref(VALUE))]))
    case SINGLE_VALUE => Choice([Ref(PHRASE), Ref(DATE_TIME), Ref(NUMBER), Ref(WORD)])
    case KEY => Act(OnText, Plus(KeyClass))
    case VALUE => Choice([Ref(WINDOW), Ref(OP_VALUE), Ref(PHRASE), Ref(DATE_TIME), Ref(NUMBER),
                         Act(OnField("w"), Label("w", Ref(WORD)))])
    case OP_VALUE => Choice([OpAlternative("d", DATE_TIME), OpAlternative("n", NUMBER),
                            OpAlternative("p", PHRASE), OpAlternative("w", WORD)])
    case DATE_TIME => Act(OnText, Seq([Ref(DATE), Ref(TEE), Ref(TIME), Ref(ZEE)]))
    case PHRASE => Act(OnText, Seq([Ref(DQ), Plus(PhraseClass), Ref(DQ)]))
    case WINDOW => Act(OnText, Seq([Ref(OPEN_BRACKET), Opt(Ref(WS)), Ref(WINDOW_RANGE), Opt(Ref(WS)), Ref(CLOSE_BRACKET)]))
    case WINDOW_RANGE => Choice([Ref(DATE_WINDOW), Ref(NUMBER_WINDOW)])
    case DATE_WINDOW => Seq([Ref(WIN_DATE_TIME), Ref(TILDA), Ref(WIN_DATE_TIME)])
    case WIN_DATE_TIME => Seq([Ref(DATE), Ref(TEE), Ref(TIME), Ref(ZEE)])
    case NUMBER_WINDOW => Seq([Ref(WIN_NUMBER), Ref(TILDA), Opt(Ref(DASH)), Ref(WIN_NUMBER)])
    case WIN_NUMBER => Seq([NumberHead, Star(NumberTail)])
    case DATE => Seq([Ref(DIGITS4), Ref(DASH), Ref(DIGITS2), Ref(DASH), Ref(DIGITS2)])
    case TIME => Seq([Ref(DIGITS2), Ref(COLON), Ref(DIGITS2), Ref(COLON), Ref(DIGITS2)])
    case WORD => Act(OnText, Seq([WordHead, Star(WordTail)]))
    case NUMBER => Act(OnNumber, Seq([NumberHead, Star(NumberTail)]))
    case DIGITS2 => Seq([Ref(DIGIT), Ref(DIGIT)])
    case DIGITS4 => Seq([Ref(DIGITS2), Ref(DIGITS2)])
    case OPEN_PAREN => Lit("(")
    case CLOSE_PAREN => Lit(")")
    case OPEN_BRACKET => Lit("[")
    case CLOSE_BRACKET => Lit("]")
    case DIGIT => Class("", [('0', '9')], false)
    case DASH => Lit("-")
    case COLON => Lit(":")
    case TILDA => Lit("~")
    case DQ => Lit("\"")
    case TEE => Lit("T")
    case ZEE => Lit("Z")
    case EEE => Class("eE", [], false)
    case DOT => Lit(".")
    case NOT_TOKEN => Choice([Lit("NOT"), Lit("!")])
    case AND_TOKEN => Choice([Lit("AND"), Lit("&")])
    case OR_TOKEN => Choice([Lit("OR"), Lit("|")])
    case FIELD_OP => Choice([Ref(GTE), Ref(LTE), Ref(GREATER), Ref(LESS), Ref(UNEQUAL), Ref(EQUAL)])
    case GTE => Act(OnGE, Lit(">="))
    case LTE => Act(OnLE, Lit("<="))
    case GREATER => Act(OnGT, Lit(">"))
    case LESS => Act(OnLT, Lit("<"))
    case UNEQUAL => Act(OnNE, Lit("!="))
    case EQUAL => Act(OnEQ, Lit("="))
    case _ => Plus(Class(" \n\t\r", [], false))
  }

  function RankOf(r: RuleId): nat {
    match r
    case INPUT => 10
    case QUERY => 9
    case EXPRS => 8
    case OPERATOR => 1
    case EXPR => 7
    case TERM => 6
    case NOT_CHECK => 1
    case GROUP_OR_NOT => 4
    case GROUP_PREFIX => 3
    case GROUP_START => 2
    case NOT_GROUP_START => 2
    case GROUP_SUFFIX => 10
    case NOT_PREFIX => 1
    case KEY_VALUE => 1
    case SINGLE_VALUE => 5
    case VALUE => 5
    case OP_VALUE => 2
    case DATE_TIME => 4
    case PHRASE => 1
    case WINDOW => 1
    case WINDOW_RANGE => 6
    case DATE_WINDOW => 5
    case WIN_DATE_TIME => 4
    case NUMBER_WINDOW => 2
    case WIN_NUMBER => 1
    case DATE => 3
    case TIME => 2
    case NUMBER => 1
    case DIGITS2 => 1
    case DIGITS4 => 2
    case FIELD_OP => 1
    case _ => 0
  }

  /** The certificate: no rule matches the empty string. */
  ghost predicate Certified(g: Grammar) {
    && |g.rules| == |g.nullable| == |g.rank| == RULES
    && forall r: RuleId | r < RULES :: !g.nullable[r] && g.rank[r] == RankOf(r)
  }

  /** `g` is the grammar of the parser. */
  ghost predicate IsQueryGrammar(g: Grammar) {
    Certified(g) && forall r: RuleId | r < RULES :: g.rules[r] == Body(r)
  }

  /** `e` is well-formed, consumes input, and enters rules of rank below `k`. */
  predicate Good(g: Grammar, e: Expr, k: nat)
    requires Shaped(g)
  {
    ExprOk(g, e) && !Nullable(g, e) && LeftRank(g, e) <= k
  }

  predicate RefBelow(e: Expr, k: nat) {
    e.Ref? && e.rule < RULES && RankOf(e.rule) < k
  }

  lemma RefGood(g: Grammar, e: Expr, k: nat)
    requires Certified(g) && RefBelow(e, k)
    ensures Good(g, e, k)
  {
  }

  lemma SeqGood(g: Grammar, es: seq<Expr>, k: nat)
    requires Certified(g)
    requires es != [] && Good(g, es[0], k)
    requires forall i | 0 < i < |es| :: ExprOk(g, es[i])
    ensures Good(g, Seq(es), k)
  {
    assert SeqRank(g, es, 0) == LeftRank(g, es[0]);
  }

  lemma ChoiceRankBound(g: Grammar, es: seq<Expr>, i: nat, k: nat)
    requires Certified(g)
    requires i <= |es| && forall j | i <= j < |es| :: LeftRank(g, es[j]) <= k
    ensures ChoiceRank(g, es, i) <= k
    decreases |es| - i
  {
    if i < |es| { ChoiceRankBound(g, es, i + 1, k); }
  }

  lemma ChoiceGood(g: Grammar, es: seq<Expr>, k: nat)
    requires Certified(g)
    requires forall i | 0 <= i < |es| :: Good(g, es[i], k)
    ensures Good(g, Choice(es), k)
  {
    ChoiceRankBound(g, es, 0, k);
  }

  /** The first element may match the empty string, the second may not. */
  lemma SkipSeqGood(g: Grammar, es: seq<Expr>, k: nat)
    requires Certified(g) && |es| >= 2
    requires Nullable(g, es[0]) && LeftRank(g, es[0]) <= k && Good(g, es[1], k)
    requires forall i | 0 <= i < |es| :: ExprOk(g, es[i])
    ensures Good(g, Seq(es), k)
  {
    assert SeqRank(g, es, 1) == LeftRank(g, es[1]);
  }

  /** A choice among lower rules. */
  lemma RefChoiceGood(g: Grammar, es: seq<Expr>, k: nat)
    requires Certified(g) && forall i | 0 <= i < |es| :: RefBelow(es[i], k)
    ensures Good(g, Choice(es), k)
  {
    forall i | 0 <= i < |es| ensures Good(g, es[i], k) { RefGood(g, es[i], k); }
    ChoiceGood(g, es, k);
  }

  predicate Trivial(e: Expr) {
    e.Ref? || ((e.Opt? || e.Label?) && e.e.Ref?)
  }

  /** A sequence that starts with a lower rule. */
  lemma RefSeqGood(g: Grammar, es: seq<Expr>, k: nat)
    requires Certified(g) && es != [] && RefBelow(es[0], k)
    requires forall i | 0 < i < |es| :: Trivial(es[i])
    ensures Good(g, Seq(es), k)
  {
    RefGood(g, es[0], k);
    forall i | 0 < i < |es| ensures ExprOk(g, es[i]) { assert Trivial(es[i]); }
    SeqGood(g, es, k);
  }

  lemma NumberGood(g: Grammar)
    requires Certified(g)
    ensures Good(g, Seq([NumberHead, Star(NumberTail)]), 1)
  {
    RefChoiceGood(g, NumberHead.es, 1);
    RefChoiceGood(g, NumberTail.es, 1);
    SeqGood(g, [NumberHead, Star(NumberTail)], 1);
  }

  lemma OpAlternativeGood(g: Grammar, l: string, r: RuleId)
    requires Certified(g) && r < RULES
    ensures Good(g, OpAlternative(l, r), 2)
  {
    RefSeqGood(g, [Ref(FIELD_OP), Label(l, Ref(r))], 2);
  }

  lemma OptWs(g: Grammar)
    requires Certified(g)
    ensures ExprOk(g, Opt(Ref(WS))) && Nullable(g, Opt(Ref(WS))) && LeftRank(g, Opt(Ref(WS))) <= 10
    ensures Good(g, Ref(QUERY), 10) && ExprOk(g, Ref(QUERY))
  {
    RefGood(g, Ref(QUERY), 10);
  }

  lemma QueryAfterWs(g: Grammar, last: Expr)
    requires Certified(g) && ExprOk(g, last)
    ensures Good(g, Seq([Opt(Ref(WS)), Ref(QUERY), Opt(Ref(WS)), last]), 10)
  {
    hide Good, ExprOk, Nullable, LeftRank, Certified;
    OptWs(g);
    SkipSeqGood(g, [Opt(Ref(WS)), Ref(QUERY), Opt(Ref(WS)), last], 10);
  }

  lemma GroupRules(g: Grammar)
    requires Certified(g)
    ensures Good(g, Body(INPUT), RankOf(INPUT)) && Good(g, Body(GROUP_SUFFIX), RankOf(GROUP_SUFFIX))
  {
    hide Good, LeftRank;
    QueryAfterWs(g, Not(Any));
    QueryAfterWs(g, Ref(CLOSE_PAREN));
    ActGood(g, OnInput, Seq([Opt(Ref(WS)), Ref(QUERY), Opt(Ref(WS)), Not(Any)]), 10);
  }

  lemma GroupStartRule(g: Grammar)
    requires Certified(g)
    ensures Good(g, Body(GROUP_START), RankOf(GROUP_START))
  {
    var es := Body(GROUP_START).e.es;
    assert ExprOk(g, es[0]) && LeftRank(g, es[0]) == 2;
    RefGood(g, es[1], 2);
    SkipSeqGood(g, es, 2);
  }

  lemma ExprsRule(g: Grammar)
    requires Certified(g)
    ensures Good(g, Body(EXPRS), RankOf(EXPRS))
  {
    var b := Body(EXPRS);
    RefSeqGood(g, b.es[1].e.es, 1);
    RefGood(g, b.es[0], 8);
    SeqGood(g, b.es, 8);
  }

  lemma OperatorRule(g: Grammar)
    requires Certified(g)
    ensures Good(g, Body(OPERATOR), RankOf(OPERATOR))
  {
    var b := Body(OPERATOR);
    assert Good(g, b.es[0], 1) && Good(g, b.es[1], 1);
    ChoiceGood(g, b.es, 1);
  }

  lemma TermRule(g: Grammar)
    requires Certified(g)
    ensures Good(g, Body(TERM), RankOf(TERM))
  {
    var es := Body(TERM).es;
    RefChoiceGood(g, es[1].es, 6);
    assert ExprOk(g, es[0]) && LeftRank(g, es[0]) == 2;
    SkipSeqGood(g, es, 6);
  }

  lemma KeyValueRule(g: Grammar)
    requires Certified(g)
    ensures Good(g, Body(KEY_VALUE), RankOf(KEY_VALUE))
  {
    var es := Body(KEY_VALUE).e.es;
    assert Good(g, es[0], 1);
    forall i | 0 < i < |es| ensures ExprOk(g, es[i]) { assert Trivial(es[i]); }
    SeqGood(g, es, 1);
  }

  lemma ValueRule(g: Grammar)
    requires Certified(g)
    ensures Good(g, Body(VALUE), RankOf(VALUE))
  {
    var es := Body(VALUE).es;
    assert Good(g, es[5], 5);
    forall i | 0 <= i < |es| ensures Good(g, es[i], 5) {
      if i < 5 { RefGood(g, es[i], 5); }
    }
    ChoiceGood(g, es, 5);
  }

  lemma OpValueRule(g: Grammar)
    requires Certified(g)
    ensures Good(g, Body(OP_VALUE), RankOf(OP_VALUE))
  {
    OpAlternativeGood(g, "d", DATE_TIME);
    OpAlternativeGood(g, "n", NUMBER);
    OpAlternativeGood(g, "p", PHRASE);
    OpAlternativeGood(g, "w", WORD);
    ChoiceGood(g, Body(OP_VALUE).es, 2);
  }

  lemma PhraseRule(g: Grammar)
    requires Certified(g)
    ensures Good(g, Body(PHRASE), RankOf(PHRASE))
  {
    var es := Body(PHRASE).e.es;
    assert ExprOk(g, Plus(PhraseClass));
    RefGood(g, es[0], 1);
    SeqGood(g, es, 1);
  }

  lemma WordRule(g: Grammar)
    requires Certified(g)
    ensures Good(g, Body(WORD), RankOf(WORD))
  {
    SeqGood(g, Body(WORD).e.es, 0);
  }

  lemma KeyRule(g: Grammar)
    requires Certified(g)
    ensures Good(g, Body(KEY), RankOf(KEY))
  {
  }

  lemma SpaceRule(g: Grammar)
    requires Certified(g)
    ensures Good(g, Body(WS), RankOf(WS))
  {
    hide Certified;
  }

  lemma SpecialRules(g: Grammar, r: RuleId)
    requires Certified(g)
    requires r in {INPUT, GROUP_SUFFIX, GROUP_START, EXPRS, OPERATOR, TERM, KEY_VALUE, VALUE, OP_VALUE,
                   NUMBER, WIN_NUMBER, WORD, KEY, PHRASE, WS}
    ensures Good(g, Body(r), RankOf(r))
  {
    match r {
      case INPUT => GroupRules(g);
      case GROUP_SUFFIX => GroupRules(g);
      case GROUP_START => GroupStartRule(g);
      case EXPRS => ExprsRule(g);
      case OPERATOR => OperatorRule(g);
      case TERM => TermRule(g);
      case KEY_VALUE => KeyValueRule(g);
      case VALUE => ValueRule(g);
      case OP_VALUE => OpValueRule(g);
      case PHRASE => PhraseRule(g);
      case WORD => WordRule(g);
      case NUMBER => NumberGood(g);
      case WIN_NUMBER => NumberGood(g);
      case KEY => KeyRule(g);
      case _ => SpaceRule(g);
    }
  }

  lemma ChoiceRules(g: Grammar, r: RuleId)
    requires Certified(g) && r in {EXPR, GROUP_PREFIX, SINGLE_VALUE, WINDOW_RANGE, FIELD_OP}
    ensures Good(g, Body(r), RankOf(r))
  {
    hide Good, LeftRank, ExprOk, Certified;
    RefChoiceGood(g, Body(r).es, RankOf(r));
  }

  lemma SeqRules(g: Grammar, r: RuleId)
    requires Certified(g)
    requires r in {GROUP_OR_NOT, NOT_PREFIX, DATE_WINDOW, WIN_DATE_TIME, NUMBER_WINDOW, DATE, TIME, DIGITS2, DIGITS4}
    ensures Good(g, Body(r), RankOf(r))
  {
    RefSeqGood(g, Body(r).es, RankOf(r));
  }

  lemma ActGood(g: Grammar, a: Action, e: Expr, k: nat)
    requires Certified(g) && Good(g, e, k)
    ensures Good(g, Act(a, e), k)
  {
  }

  lemma ActionRules(g: Grammar, r: RuleId)
    requires Certified(g) && r in {NOT_CHECK, NOT_GROUP_START, DATE_TIME, WINDOW}
    ensures Good(g, Body(r), RankOf(r))
  {
    hide Good, LeftRank, ExprOk, Certified;
    RefSeqGood(g, Body(r).e.es, RankOf(r));
    ActGood(g, Body(r).action, Body(r).e, RankOf(r));
  }

  lemma TokenRules(g: Grammar, r: RuleId)
    requires Certified(g) && OPEN_PAREN <= r <= EQUAL && r != FIELD_OP
    ensures Good(g, Body(r), RankOf(r))
  {
    hide Certified;
    var b := Body(r);
    if b.Choice? { ChoiceGood(g, b.es, 0); }
  }

  /** The parser's grammar is well-formed, so parsing it always ends. */
  lemma GrammarWellFormed(g: Grammar)
    requires IsQueryGrammar(g)
    ensures WellFormed(g)
  {
    forall r: RuleId | r < RULES ensures RuleOk(g, r) {
      assert Good(g, Body(r), RankOf(r)) by {
        if r in {INPUT, GROUP_SUFFIX, GROUP_START, EXPRS, OPERATOR, TERM, KEY_VALUE, VALUE, OP_VALUE,
                 NUMBER, WIN_NUMBER, WORD, KEY, PHRASE, WS} {
          SpecialRules(g, r);
        } else if r in {EXPR, GROUP_PREFIX, SINGLE_VALUE, WINDOW_RANGE, FIELD_OP} {
          ChoiceRules(g, r);
        } else if r in {NOT_CHECK, NOT_GROUP_START, DATE_TIME, WINDOW} {
          ActionRules(g, r);
        } else if OPEN_PAREN <= r <= EQUAL {
          TokenRules(g, r);
        } else if r == QUERY {
          RefGood(g, Body(r), RankOf(r));
        } else {
          SeqRules(g, r);
        }
      }
    }
  }
}

