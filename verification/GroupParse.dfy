/** A flat query in one pair of parentheses, the form in which nodes are
    printed. */
module GroupParse {
  import opened Wrappers
  import opened Utf8
  import opened Peg
  import opened QueryAst
  import opened NodeStacks
  import opened QueryRun
  import opened QueryGrammar
  import opened Texts
  import opened Tokens
  import opened PureRules
  import opened Terms
  import opened Pairs
  import opened FlatQueries
  import opened FlatRuns
  import opened QueryParse

  const GROUPED: St := St(OPEN, false)

  /** The state after the opening of a group: a plain one starts a new node, a
      negated one goes on with the current node, and the negation leaves no
      trace. */
  function Opened(st: St, neg: Neg): St {
    st.(stack := if neg.Plain? then WithNewNode(st.stack) else WithNode(st.stack))
  }

  lemma FirstOpened(neg: Neg)
    ensures Opened(START, neg) == GROUPED
  {
  }

  /** A negation, if any, and the whitespace behind it. */
  predicate NegAt(data: string, pos: nat, neg: Neg) {
    StartsAt(data, pos, NegText(neg)) && GapAt(data, pos + |NegText(neg)|, NegGap(neg))
  }

  function NegLen(neg: Neg): nat {
    |NegText(neg)| + |NegGap(neg)|
  }

  /** A flat query in one pair of parentheses, perhaps with a negation in front,
      with optional whitespace inside and outside of them. */
  predicate GroupText(data: string, lead: string, neg: Neg, open: string, first: Term, rest: Rest, close: string, tail: string) {
    var p := |lead| + NegLen(neg);
    var a := p + 1 + |open|;
    var q := a + FlatLen(first, rest) + |close|;
    && GapAt(data, 0, lead) && NegAt(data, |lead|, neg) && p < |data| && data[p] == '('
    && GapAt(data, p + 1, open) && FlatAt(data, a, first, rest, close)
    && q < |data| && data[q] == ')' && GapAt(data, q + 1, tail) && q + 1 + |tail| == |data|
  }

  predicate ParenAt(data: string, pos: nat) {
    pos < |data| && data[pos] == '('
  }

  lemma NoPrefixAtParen(g: Grammar, data: string, pos: nat)
    requires Q(g) && ParenAt(data, pos)
    ensures RecRule(g, data, NOT_PREFIX, pos) == None
  {
    hide Rec, RecRule;
    NotTokenAt(g, data, pos);
    FirstOf(data, pos, "NOT");
    FirstOf(data, pos, "!");
    NotSeqIs(g, data, pos, pos, pos);
    RuleIs(g, data, NOT_PREFIX, pos);
  }

  lemma NoNegationAtParen(g: Grammar, data: string, pos: nat)
    requires Q(g) && ParenAt(data, pos)
    ensures RecRule(g, data, NOT_GROUP_START, pos) == None
    ensures RecRule(g, data, GROUP_START, pos) == Some(pos + 1)
  {
    hide Rec, RecRule;
    NoPrefixAtParen(g, data, pos);
    RuleIs(g, data, NOT_PREFIX, pos);
    RuleIs(g, data, NOT_GROUP_START, pos);
    RuleIs(g, data, GROUP_START, pos);
    CharAt(g, data, OPEN_PAREN, '(', pos);
    RuleIs(g, data, OPEN_PAREN, pos);
    Seq2(g, data, Ref(NOT_PREFIX), Ref(OPEN_PAREN), pos);
    RecNot(g, data, Ref(NOT_PREFIX), pos);
    Seq2(g, data, Not(Ref(NOT_PREFIX)), Ref(OPEN_PAREN), pos);
  }

  lemma GroupStartRun(g: Grammar, data: string, pos: nat, st: St)
    requires Q(g) && ParenAt(data, pos)
    ensures var o := RunRule(g, data, GROUP_START, pos, st); o.ok && o.pos == pos + 1 && o.st == Opened(st, Plain)
  {
    hide Run, RunRule, Rec, RecRule, PureExpr;
    PureParts();
    RuleIs(g, data, GROUP_START, pos);
    NoNegationAtParen(g, data, pos);
    var e := Body(GROUP_START).e;
    PureRun(g, data, e, pos, map[], st);
    RunRuleIs(g, data, GROUP_START, pos, st);
    RunActIs(g, data, OnGroupStart, e, pos, map[], st);
  }

  /** A negation in front of a parenthesis. */
  lemma NegPrefix(g: Grammar, data: string, pos: nat, neg: Neg)
    requires Q(g) && !neg.Plain? && NegAt(data, pos, neg) && ParenAt(data, pos + NegLen(neg))
    ensures pos <= |data| && RecRule(g, data, NOT_PREFIX, pos) == Some(pos + NegLen(neg))
  {
    hide Rec, RecRule, StartsAt;
    var p := pos + |NegText(neg)|;
    StartsBound(data, pos, NegText(neg));
    NegStart(data, pos, neg);
    GapSpan(data, p, NegGap(neg));
    NotTokenAt(g, data, pos);
    NotSeqIs(g, data, pos, p, pos + NegLen(neg));
    RuleIs(g, data, NOT_PREFIX, pos);
  }

  lemma NegStart(data: string, pos: nat, neg: Neg)
    requires !neg.Plain? && StartsAt(data, pos, NegText(neg))
    ensures StartsAt(data, pos, "NOT") <==> neg.NotWord?
    ensures StartsAt(data, pos, "!") <==> neg.Bang?
    ensures pos < |data| && !IsWs(data[pos])
  {
    StartsChar(data, pos, NegText(neg), 0);
    FirstOf(data, pos, "NOT");
    FirstOf(data, pos, "!");
  }

  lemma NegStartRec(g: Grammar, data: string, pos: nat, p: nat)
    requires Q(g) && pos <= p && ParenAt(data, p) && RecRule(g, data, NOT_PREFIX, pos) == Some(p)
    ensures RecRule(g, data, NOT_GROUP_START, pos) == Some(p + 1)
  {
    hide Rec, RecRule, Q;
    RuleIs(g, data, NOT_PREFIX, pos);
    RuleIs(g, data, NOT_GROUP_START, pos);
    CharAt(g, data, OPEN_PAREN, '(', p);
    RuleIs(g, data, OPEN_PAREN, p);
    Seq2(g, data, Ref(NOT_PREFIX), Ref(OPEN_PAREN), pos);
  }

  lemma NegStartRun(g: Grammar, data: string, pos: nat, p: nat, neg: Neg, st: St)
    requires Q(g) && pos <= |data| && RecRule(g, data, NOT_GROUP_START, pos) == Some(p) && !neg.Plain?
    ensures var o := RunRule(g, data, NOT_GROUP_START, pos, st); o.ok && o.pos == p && o.st == Opened(st, neg)
  {
    hide Run, RunRule, Rec, RecRule, PureExpr;
    PureParts();
    RuleIs(g, data, NOT_GROUP_START, pos);
    var e := Body(NOT_GROUP_START).e;
    PureRun(g, data, e, pos, map[], st);
    RunRuleIs(g, data, NOT_GROUP_START, pos, st);
    RunActIs(g, data, OnNotGroupStart, e, pos, map[], st);
  }

  lemma NegPrefixRun(g: Grammar, data: string, pos: nat, p: nat, st: St, st1: St)
    requires Q(g) && pos <= |data|
    requires var o := RunRule(g, data, NOT_GROUP_START, pos, st); o.ok && o.pos == p && o.st == st1
    ensures var o := RunRule(g, data, GROUP_PREFIX, pos, st); o.ok && o.pos == p && o.st == st1
  {
    hide Run, RunRule, Rec, RecRule, RunChoice, PureExpr;
    var es := Body(GROUP_PREFIX).es;
    RunRuleIs(g, data, GROUP_PREFIX, pos, st);
    ChoiceOk(g, GROUP_PREFIX);
    RunChoiceIs(g, data, es, pos, map[], st);
    RefStep(g, data, es, 0, NOT_GROUP_START, pos, st);
  }

  /** The opening of a group, negated or not. */
  lemma OpenRun(g: Grammar, data: string, pos: nat, neg: Neg, st: St)
    requires Q(g) && NegAt(data, pos, neg) && ParenAt(data, pos + NegLen(neg))
    ensures pos <= |data| && !WsAt(data, pos)
    ensures var o := RunRule(g, data, GROUP_PREFIX, pos, st); o.ok && o.pos == pos + NegLen(neg) + 1 && o.st == Opened(st, neg)
  {
    hide Run, RunRule, Rec, RecRule, StartsAt, GapAt, Q, Opened;
    var p := pos + NegLen(neg);
    if neg.Plain? {
      PrefixRun(g, data, pos, st);
    } else {
      NegStart(data, pos, neg);
      NegPrefix(g, data, pos, neg);
      NegStartRec(g, data, pos, p);
      NegStartRun(g, data, pos, p + 1, neg, st);
      NegPrefixRun(g, data, pos, p + 1, st, Opened(st, neg));
    }
  }

  lemma PrefixRun(g: Grammar, data: string, pos: nat, st: St)
    requires Q(g) && ParenAt(data, pos)
    ensures var o := RunRule(g, data, GROUP_PREFIX, pos, st); o.ok && o.pos == pos + 1 && o.st == Opened(st, Plain)
  {
    hide Run, RunRule, Rec, RecRule, RunChoice, PureExpr;
    var es := Body(GROUP_PREFIX).es;
    PureParts();
    NoNegationAtParen(g, data, pos);
    PureActFails(g, data, NOT_GROUP_START, pos, st);
    GroupStartRun(g, data, pos, st);
    RunRuleIs(g, data, GROUP_PREFIX, pos, st);
    ChoiceOk(g, GROUP_PREFIX);
    RunChoiceIs(g, data, es, pos, map[], st);
    RefStep(g, data, es, 0, NOT_GROUP_START, pos, st);
    RefStep(g, data, es, 1, GROUP_START, pos, st);
  }

  lemma ChoiceOk(g: Grammar, r: RuleId)
    requires Q(g) && r < RULES && Body(r).Choice?
    ensures forall k | 0 <= k < |Body(r).es| :: ExprOk(g, Body(r).es[k])
  {
    assert RuleOk(g, r);
    assert ExprOk(g, Choice(Body(r).es));
  }

  lemma SuffixParts(g: Grammar)
    requires Q(g)
    ensures Body(GROUP_SUFFIX) == Seq([Opt(Ref(WS)), Ref(QUERY), Opt(Ref(WS)), Ref(CLOSE_PAREN)])
    ensures forall k | 0 <= k < 4 :: ExprOk(g, Body(GROUP_SUFFIX).es[k])
  {
    assert RuleOk(g, GROUP_SUFFIX);
  }

  lemma CloseRun(g: Grammar, data: string, pos: nat, st: St)
    requires Q(g) && pos < |data| && data[pos] == ')'
    ensures var o := RunRule(g, data, CLOSE_PAREN, pos, st); o.ok && o.pos == pos + 1 && o.st == st
  {
    hide Run, RunRule, Rec, RecRule;
    CharAt(g, data, CLOSE_PAREN, ')', pos);
    TextRun(g, data, CLOSE_PAREN, pos, st);
  }

  /** The inside of a group, from `pos` to its closing parenthesis. */
  lemma SuffixRun(g: Grammar, data: string, pos: nat, open: string, q: nat, close: string, st: St, st1: St)
    requires Q(g) && GapAt(data, pos, open) && !WsAt(data, pos + |open|) && pos + |open| <= q
    requires GapAt(data, q, close) && q + |close| < |data| && data[q + |close|] == ')'
    requires var o := RunRule(g, data, QUERY, pos + |open|, st); o.ok && o.pos == q && o.st == st1
    ensures var o := RunRule(g, data, GROUP_SUFFIX, pos, st); o.ok && o.pos == q + |close| + 1 && o.st == st1
  {
    hide Run, RunRule, RunSeq, Rec, RecRule, RecSeq, GapAt;
    SuffixParts(g);
    assert !WsAt(data, q + |close|);
    var es := Body(GROUP_SUFFIX).es;
    var e := q + |close|;
    RunRuleIs(g, data, GROUP_SUFFIX, pos, st);
    RunSeqIs(g, data, es, pos, map[], st);
    OptWsRun(g, data, pos, open, map[], st);
    OptWsRun(g, data, q, close, map[], st1);
    CloseRun(g, data, e, st1);
    var v0 := Run(g, data, es[0], pos, map[], st).val;
    var v1 := RunRule(g, data, QUERY, pos + |open|, st).val;
    var v2 := Run(g, data, es[2], q, map[], st1).val;
    RunSeqStep(g, data, es, 0, pos, pos, [], map[], st);
    SeqRef(g, data, es, 1, QUERY, pos, pos + |open|, [] + [v0], map[], st);
    RunSeqStep(g, data, es, 2, pos, q, [] + [v0] + [v1], map[], st1);
    SeqRef(g, data, es, 3, CLOSE_PAREN, pos, e, [] + [v0] + [v1] + [v2], map[], st1);
    RunSeqEnd(g, data, es, pos, e + 1, [] + [v0] + [v1] + [v2] + [RunRule(g, data, CLOSE_PAREN, e, st1).val], map[], st1);
  }

  lemma GroupSeq(g: Grammar, data: string, pos: nat, p: nat, q: nat, st: St, st0: St, st1: St)
    requires Q(g) && pos <= p <= |data|
    requires var o := RunRule(g, data, GROUP_PREFIX, pos, st); o.ok && o.pos == p && o.st == st0
    requires var o := RunRule(g, data, GROUP_SUFFIX, p, st0); o.ok && o.pos == q && o.st == st1
    ensures var o := RunRule(g, data, EXPR, pos, st); o.ok && o.pos == q && o.st == st1
  {
    hide Run, RunRule, RunChoice, Rec, RecRule, Q;
    RunRefIs(g, data, GROUP_PREFIX, pos, map[], st);
    RunRefIs(g, data, GROUP_SUFFIX, p, map[], st0);
    RunRuleIs(g, data, GROUP_OR_NOT, pos, st);
    RunSeq2(g, data, Ref(GROUP_PREFIX), Ref(GROUP_SUFFIX), pos, map[], st);
    var es := Body(EXPR).es;
    RunRuleIs(g, data, EXPR, pos, st);
    ChoiceOk(g, EXPR);
    RunChoiceIs(g, data, es, pos, map[], st);
    RefStep(g, data, es, 0, GROUP_OR_NOT, pos, st);
  }

  lemma EndOfGroup(g: Grammar, data: string, pos: nat, tail: string, st: St)
    requires Q(g) && GapAt(data, pos, tail) && pos + |tail| == |data|
    ensures ExprOk(g, MORE) && !Nullable(g, MORE)
    ensures var o := RunStar(g, data, MORE, pos, [], map[], st); o.pos == pos && o.st == st
  {
    hide Run, RunStar, Rec, GapAt, ExprOk, Nullable;
    MoreOk(g);
    assert EndAt(data, pos, tail);
    MoreFails(g, data, pos, tail, st);
    StarStep(g, data, pos, [], map[], st);
  }

  lemma GroupParts(data: string, lead: string, neg: Neg, open: string, first: Term, rest: Rest, close: string, tail: string)
    requires GroupText(data, lead, neg, open, first, rest, close, tail)
    ensures var p := |lead| + NegLen(neg); var a := p + 1 + |open|; var q := a + FlatLen(first, rest);
            && GapAt(data, 0, lead) && NegAt(data, |lead|, neg) && ParenAt(data, p)
            && GapAt(data, p + 1, open) && FlatAt(data, a, first, rest, close) && !WsAt(data, a)
            && GapAt(data, q, close) && q + |close| < |data| && data[q + |close|] == ')'
            && GapAt(data, q + |close| + 1, tail) && q + |close| + 1 + |tail| == |data|
  {
    hide TermAt, GapAt, RestAt, NegAt;
    var a := |lead| + NegLen(neg) + 1 + |open|;
    TermNotWs(data, a, first);
    RestGap(data, a + TermLen(first), rest, close);
  }

  /** What follows the last term. */
  lemma {:induction false} RestGap(data: string, pos: nat, rest: Rest, tail: string)
    requires RestAt(data, pos, rest, tail)
    ensures GapAt(data, pos + RestLen(rest), tail)
    decreases |rest|
  {
    hide TermAt, SepAt, GapAt, SepLen, TermLen;
    if rest != [] {
      RestGap(data, pos + SepLen(rest[0].0) + TermLen(rest[0].1), rest[1..], tail);
    }
  }

  /** A flat query in parentheses denotes the node that it denotes without them,
      or for a single term a node without an operator; a negation in front of
      the parentheses changes nothing. */
  lemma GroupQueryParses(g: Grammar, data: string, lead: string, neg: Neg, open: string, first: Term, rest: Rest,
                         close: string, tail: string)
    requires Q(g) && GroupText(data, lead, neg, open, first, rest, close, tail)
    ensures Built(g, data) ==
            if Rejected(first, rest) || !ValidUtf8(data) then None else Some(Value.Parsed(GroupQueryFor(first, rest)))
    ensures Built(g, data).Some? ==> AllGiven(first, rest)
  {
    hide AllGiven, RunRule, RecRule, Built, GroupText, GroupQueryFor, Rejected, ValidUtf8, QueryOf, AfterQuery, FlatSt, FlatAt,
         FlatLen, GapAt, WsAt, NegAt, NegLen;
    if !Rejected(first, rest) { GoodGiven(first, rest); }
    GroupParts(data, lead, neg, open, first, rest, close, tail);
    var st1 := FlatSt(GROUPED, first, rest);
    GroupExprs(g, data, lead, neg, open, first, rest, close, tail);
    InputSeq(g, data, lead, |data| - |tail|, tail, START, st1);
    GroupBuild(first, rest);
    BuiltIs(g, data, GroupQueryFor(first, rest), Rejected(first, rest));
  }

  /** An expression that is the whole query. */
  lemma OnlyExpr(g: Grammar, data: string, pos: nat, e: nat, tail: string, st: St)
    requires Q(g) && pos <= e && GapAt(data, e, tail) && e + |tail| == |data|
    requires var o := RunRule(g, data, EXPR, pos, START); o.ok && o.pos == e && o.st == st
    ensures var o := RunRule(g, data, QUERY, pos, START); o.ok && o.pos == e && o.st == st
  {
    hide RunRule, RecRule, RunStar, RecStar, Run, Rec, ExprOk, Nullable, GapAt;
    EndOfGroup(g, data, e, tail, st);
    ExprsSeq(g, data, pos, START);
  }

  lemma GroupExprs(g: Grammar, data: string, lead: string, neg: Neg, open: string, first: Term, rest: Rest,
                   close: string, tail: string)
    requires Q(g) && GroupText(data, lead, neg, open, first, rest, close, tail)
    ensures |lead| <= |data| - |tail| && !WsAt(data, |lead|)
    ensures var o := RunRule(g, data, QUERY, |lead|, START);
            o.ok && o.pos == |data| - |tail| && o.st == FlatSt(GROUPED, first, rest)
  {
    hide RunRule, RecRule, GroupText, FlatAt, FlatLen, FlatSt, GapAt, WsAt, Q, NegAt, NegLen;
    var p := |lead|;
    var e := p + NegLen(neg) + 1 + |open| + FlatLen(first, rest) + |close| + 1;
    GroupParts(data, lead, neg, open, first, rest, close, tail);
    assert e + |tail| == |data| && GapAt(data, e, tail);
    GroupExpr(g, data, p, neg, open, first, rest, close);
    OnlyExpr(g, data, p, e, tail, FlatSt(GROUPED, first, rest));
  }

  lemma GroupExpr(g: Grammar, data: string, p: nat, neg: Neg, open: string, first: Term, rest: Rest, close: string)
    requires Q(g) && NegAt(data, p, neg) && ParenAt(data, p + NegLen(neg))
    requires var b := p + NegLen(neg) + 1; var a := b + |open|; var q := a + FlatLen(first, rest);
             && GapAt(data, b, open) && FlatAt(data, a, first, rest, close) && !WsAt(data, a)
             && GapAt(data, q, close) && q + |close| < |data| && data[q + |close|] == ')'
    ensures p <= |data| && !WsAt(data, p)
    ensures var o := RunRule(g, data, EXPR, p, START);
            && o.ok && o.pos == p + NegLen(neg) + 1 + |open| + FlatLen(first, rest) + |close| + 1
            && o.st == FlatSt(GROUPED, first, rest)
  {
    hide RunRule, RecRule, FlatAt, FlatLen, FlatSt, GapAt, WsAt, NegAt, NegLen, Opened;
    var b := p + NegLen(neg) + 1;
    var a := b + |open|;
    var q := a + FlatLen(first, rest);
    var st1 := FlatSt(GROUPED, first, rest);
    ExprsRun(g, data, a, first, rest, close, GROUPED);
    FirstOpened(neg);
    OpenRun(g, data, p, neg, START);
    SuffixRun(g, data, b, open, q, close, GROUPED, st1);
    GroupSeq(g, data, p, b, q + |close| + 1, START, GROUPED, st1);
  }
}
