/** Rules without effects: parsing them leaves the node stack, the errors and
    the labels of the enclosing rule alone, whether they match or not. */
module PureRules {
  import opened Peg
  import opened QueryAst
  import opened QueryRun
  import opened QueryGrammar
  import opened Tokens

  predicate PureRule(r: RuleId) {
    || r in {NOT_PREFIX, KEY, DATE_TIME, PHRASE, WINDOW, WINDOW_RANGE, DATE_WINDOW, WIN_DATE_TIME, NUMBER_WINDOW,
             WIN_NUMBER, DATE, TIME, WORD, DIGITS2, DIGITS4, WS}
    || OPEN_PAREN <= r <= OR_TOKEN
  }

  predicate PureExpr(e: Expr)
    decreases e
  {
    match e
    case Any => true
    case Lit(_) => true
    case Class(_, _, _) => true
    case Seq(es) => forall i | 0 <= i < |es| :: PureExpr(es[i])
    case Choice(es) => forall i | 0 <= i < |es| :: PureExpr(es[i])
    case Not(e1) => PureExpr(e1)
    case And(e1) => PureExpr(e1)
    case Opt(e1) => PureExpr(e1)
    case Star(e1) => PureExpr(e1)
    case Plus(e1) => PureExpr(e1)
    case Ref(r) => PureRule(r)
    case Act(a, e1) => a == OnText && PureExpr(e1)
    case Label(_, _) => false
  }

  /** Recursion over the shapes that occur in pure rules. */
  lemma PureRefs(es: seq<Expr>)
    requires forall i | 0 <= i < |es| :: (es[i].Ref? && PureRule(es[i].rule))
                                         || (es[i].Opt? && es[i].e.Ref? && PureRule(es[i].e.rule))
    ensures PureExpr(Seq(es)) && PureExpr(Choice(es))
  {
  }

  lemma PureNumber()
    ensures PureExpr(Body(WIN_NUMBER))
  {
    var b := Body(WIN_NUMBER);
    PureRefs(NumberHead.es);
    PureRefs(NumberTail.es);
    assert b.es[0] == NumberHead && b.es[1] == Star(NumberTail);
  }

  lemma PureSeqIs(es: seq<Expr>)
    requires forall i | 0 <= i < |es| :: PureExpr(es[i])
    ensures PureExpr(Act(OnText, Seq(es)))
  {
  }

  lemma PureWord()
    ensures PureExpr(Body(WORD))
  {
    PureSeqIs(Body(WORD).e.es);
  }

  lemma PurePhrase()
    ensures PureExpr(Body(PHRASE))
  {
    PureSeqIs(Body(PHRASE).e.es);
  }

  lemma PureKey()
    ensures PureExpr(Body(KEY))
  {
  }

  lemma PureSpace()
    ensures PureExpr(Body(WS))
  {
  }

  lemma PureLists(r: RuleId)
    requires r in {NOT_PREFIX, WINDOW_RANGE, DATE_WINDOW, WIN_DATE_TIME, NUMBER_WINDOW, DATE, TIME, DIGITS2, DIGITS4}
    ensures PureExpr(Body(r))
  {
    hide PureExpr;
    PureRefs(Body(r).es);
  }

  lemma PureActions(r: RuleId)
    requires r in {DATE_TIME, WINDOW}
    ensures PureExpr(Body(r))
  {
    PureRefs(Body(r).e.es);
  }

  lemma PureTokens(r: RuleId)
    requires OPEN_PAREN <= r <= OR_TOKEN
    ensures PureExpr(Body(r))
  {
    var b := Body(r);
    if b.Choice? { assert PureExpr(b.es[0]) && PureExpr(b.es[1]); }
  }

  lemma PureBody(r: RuleId)
    requires PureRule(r)
    ensures r < RULES && PureExpr(Body(r))
  {
    hide PureExpr, Body;
    PureNumber();
    PureWord();
    PurePhrase();
    PureKey();
    PureSpace();
    if OPEN_PAREN <= r <= OR_TOKEN {
      PureTokens(r);
    } else if r in {DATE_TIME, WINDOW} {
      PureActions(r);
    } else if r !in {WIN_NUMBER, WORD, PHRASE, KEY, WS} {
      PureLists(r);
    }
  }

  lemma {:induction false} PureRun(g: Grammar, data: string, e: Expr, pos: nat, env: Env, st: St)
    requires Q(g) && ExprOk(g, e) && PureExpr(e) && pos <= |data|
    ensures Run(g, data, e, pos, env, st).st == st && Run(g, data, e, pos, env, st).env == env
    decreases |data| - pos, LeftRank(g, e), e, 0
  {
    match e
    case Any =>
    case Lit(_) =>
    case Class(_, _, _) =>
    case Seq(es) => PureSeq(g, data, es, 0, pos, pos, [], env, st);
    case Choice(es) => PureChoice(g, data, es, 0, pos, env, st);
    case Not(e1) => PureRun(g, data, e1, pos, map[], st);
    case And(e1) => PureRun(g, data, e1, pos, map[], st);
    case Opt(e1) => PureRun(g, data, e1, pos, map[], st);
    case Star(e1) => PureStar(g, data, e1, pos, [], env, st);
    case Plus(e1) =>
      PureRun(g, data, e1, pos, map[], st);
      var o := Run(g, data, e1, pos, map[], st);
      if o.ok { PureStar(g, data, e1, o.pos, [o.val], env, st); }
    case Ref(r) => PureRuleRun(g, data, r, pos, st);
    case Act(_, e1) => PureRun(g, data, e1, pos, env, st);
    case Label(_, _) =>
  }

  lemma {:induction false} PureRuleRun(g: Grammar, data: string, r: RuleId, pos: nat, st: St)
    requires Q(g) && PureRule(r) && r < RULES && pos <= |data|
    ensures RunRule(g, data, r, pos, st).st == st
    decreases |data| - pos, g.rank[r], g.rules[r], 1
  {
    PureBody(r);
    assert RuleOk(g, r);
    PureRun(g, data, g.rules[r], pos, map[], st);
  }

  lemma {:induction false} PureSeq(g: Grammar, data: string, es: seq<Expr>, i: nat, start: nat, pos: nat,
                                   vals: seq<Value>, env: Env, st: St)
    requires Q(g) && i <= |es| && start <= pos <= |data|
    requires forall k | 0 <= k < |es| :: ExprOk(g, es[k]) && PureExpr(es[k])
    ensures var o := RunSeq(g, data, es, i, start, pos, vals, env, st); o.st == st && o.env == env
    decreases |data| - pos, SeqRank(g, es, i), es, |es| - i
  {
    if i < |es| {
      PureRun(g, data, es[i], pos, env, st);
      var o := Run(g, data, es[i], pos, env, st);
      if o.ok { PureSeq(g, data, es, i + 1, start, o.pos, vals + [o.val], env, st); }
    }
  }

  lemma {:induction false} PureChoice(g: Grammar, data: string, es: seq<Expr>, i: nat, pos: nat, env: Env, st: St)
    requires Q(g) && i <= |es| && pos <= |data|
    requires forall k | 0 <= k < |es| :: ExprOk(g, es[k]) && PureExpr(es[k])
    ensures var o := RunChoice(g, data, es, i, pos, env, st); o.st == st && o.env == env
    decreases |data| - pos, ChoiceRank(g, es, i), es, |es| - i
  {
    if i < |es| {
      PureRun(g, data, es[i], pos, map[], st);
      if !Run(g, data, es[i], pos, map[], st).ok { PureChoice(g, data, es, i + 1, pos, env, st); }
    }
  }

  lemma {:induction false} PureStar(g: Grammar, data: string, e: Expr, pos: nat, vals: seq<Value>, env: Env, st: St)
    requires Q(g) && ExprOk(g, e) && !Nullable(g, e) && PureExpr(e) && pos <= |data|
    ensures var o := RunStar(g, data, e, pos, vals, env, st); o.st == st && o.env == env
    decreases |data| - pos, LeftRank(g, e), e, 1
  {
    PureRun(g, data, e, pos, map[], st);
    var o := Run(g, data, e, pos, map[], st);
    if o.ok { PureStar(g, data, e, o.pos, vals + [o.val], env, st); }
  }
}
