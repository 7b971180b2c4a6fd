/** Terms of queries, negated or not, as text, and what parsing one does to the
    node stack. */
module FlatQueries {
  import opened Wrappers
  import opened Peg
  import opened NodeStacks
  import opened QueryRun
  import opened QueryGrammar
  import opened Texts
  import opened Tokens
  import opened PureRules
  import opened Values
  import opened Terms
  import opened Pairs
  import opened BareTerms

  /** A negation in front of a term: `NOT` or `!`, then optional whitespace. */
  datatype Neg = Plain | NotWord(ws: string) | Bang(ws: string)

  datatype Term = Term(neg: Neg, atom: Atom)

  function NegText(n: Neg): string {
    match n case Plain => "" case NotWord(_) => "NOT" case Bang(_) => "!"
  }

  function NegGap(n: Neg): string {
    if n.Plain? then "" else n.ws
  }

  predicate TermAt(data: string, pos: nat, t: Term) {
    var p := pos + |NegText(t.neg)|;
    && StartsAt(data, pos, NegText(t.neg))
    && GapAt(data, p, NegGap(t.neg))
    && AtomAt(data, p + |NegGap(t.neg)|, t.atom)
    && (t.neg.Plain? ==> !("NOT" <= Head(t.atom)))
  }

  function TermLen(t: Term): nat {
    |NegText(t.neg)| + |NegGap(t.neg)| + AtomLen(t.atom)
  }

  function NegSt(st: St, n: Neg): St {
    if n.Plain? then st else
      var s := WithCondition(st.stack);
      st.(stack := s.(cond := Some(s.cond.value.(invert := true))))
  }

  function TermSt(st: St, t: Term): St {
    AtomSt(NegSt(st, t.neg), t.atom)
  }

  lemma NotTokenAt(g: Grammar, data: string, pos: nat)
    requires Q(g) && pos <= |data|
    ensures RecRule(g, data, NOT_TOKEN, pos)
         == if StartsAt(data, pos, "NOT") then Some(pos + 3)
            else if StartsAt(data, pos, "!") then Some(pos + 1) else None
  {
    RuleIs(g, data, NOT_TOKEN, pos);
    Choice2(g, data, Lit("NOT"), Lit("!"), pos);
    MatchLitAt(data, "NOT", 0, pos);
    MatchLitAt(data, "!", 0, pos);
    assert "NOT"[0..] == "NOT" && "!"[0..] == "!";
  }

  /** What stands at the start of a term. */
  lemma TermStart(data: string, pos: nat, t: Term)
    requires TermAt(data, pos, t)
    ensures var p := pos + |NegText(t.neg)| + |NegGap(t.neg)|;
            p < |data| && !IsWs(data[p]) && data[p] != '('
    ensures StartsAt(data, pos, "NOT") <==> t.neg.NotWord?
    ensures StartsAt(data, pos, "!") <==> t.neg.Bang?
  {
    hide AtomAt, GapAt, StartsAt, Head;
    var p := pos + |NegText(t.neg)| + |NegGap(t.neg)|;
    AtomStart(data, p, t.atom);
    StartsOne(data, pos, '!');
    if t.neg.Plain? {
      NoNegation(data, pos, Head(t.atom));
    } else {
      StartsChar(data, pos, NegText(t.neg), 0);
      if StartsAt(data, pos, "NOT") { StartsChar(data, pos, "NOT", 0); }
    }
  }

  /** An atom starts with its head, and what follows that is no letter. */
  lemma AtomStart(data: string, pos: nat, a: Atom)
    requires AtomAt(data, pos, a)
    ensures pos < |data| && !IsWs(data[pos]) && data[pos] != '(' && data[pos] != '!'
    ensures Head(a) != "" && StartsAt(data, pos, Head(a))
    ensures var q := pos + |Head(a)|; q < |data| ==> data[q] !in "NOT"
  {
    hide ValueAt, GapAt, StartsAt;
    StartsBound(data, pos, Head(a));
    StartsChar(data, pos, Head(a), 0);
  }

  /** A text that does not start with NOT, and is not followed by a letter of it. */
  lemma NoNegation(data: string, pos: nat, f: string)
    requires f != "" && StartsAt(data, pos, f) && !("NOT" <= f)
    requires pos + |f| < |data| ==> data[pos + |f|] !in "NOT"
    ensures !StartsAt(data, pos, "NOT")
  {
    StartsChar(data, pos, f, 0);
    if |f| > 1 { StartsChar(data, pos, f, 1); }
    if |f| > 2 { StartsChar(data, pos, f, 2); }
    PrefixNot(f);
    if StartsAt(data, pos, "NOT") {
      StartsChar(data, pos, "NOT", 0);
      StartsChar(data, pos, "NOT", 1);
      StartsChar(data, pos, "NOT", 2);
    }
  }

  lemma PrefixNot(f: string)
    ensures |f| > 2 && f[0] == 'N' && f[1] == 'O' && f[2] == 'T' ==> "NOT" <= f
  {
  }

  /** The negation sequence, shared by three rules. */
  lemma NotSeq(g: Grammar, data: string, pos: nat, t: Term)
    requires Q(g) && TermAt(data, pos, t)
    ensures pos <= |data| && ExprOk(g, Seq([Ref(NOT_TOKEN), Opt(Ref(WS))]))
    ensures Rec(g, data, Seq([Ref(NOT_TOKEN), Opt(Ref(WS))]), pos)
         == if t.neg.Plain? then None else Some(pos + |NegText(t.neg)| + |NegGap(t.neg)|)
  {
    hide StartsAt, Rec, RecRule, AtomAt;
    TermStart(data, pos, t);
    var p := pos + |NegText(t.neg)|;
    var q := p + |NegGap(t.neg)|;
    GapSpan(data, p, NegGap(t.neg));
    hide TermAt;
    NotTokenAt(g, data, pos);
    if t.neg.Plain? {
      NotSeqIs(g, data, pos, pos, pos);
    } else {
      NotSeqIs(g, data, pos, p, q);
    }
  }

  lemma GapSpan(data: string, pos: nat, ws: string)
    requires GapAt(data, pos, ws)
    ensures pos + |ws| <= |data| && AllWs(data[pos..pos + |ws|])
  {
  }

  lemma NotSeqIs(g: Grammar, data: string, pos: nat, p: nat, q: nat)
    requires Q(g) && pos <= p <= q <= |data| && AllWs(data[p..q]) && !WsAt(data, q)
    requires RecRule(g, data, NOT_TOKEN, pos) == if p == pos then None else Some(p)
    ensures ExprOk(g, Seq([Ref(NOT_TOKEN), Opt(Ref(WS))]))
    ensures Rec(g, data, Seq([Ref(NOT_TOKEN), Opt(Ref(WS))]), pos) == if p == pos then None else Some(q)
  {
    WsMatches(g, data, p, q);
    RuleIs(g, data, NOT_TOKEN, pos);
    hide Rec, RecRule;
    Seq2(g, data, Ref(NOT_TOKEN), Opt(Ref(WS)), pos);
  }

  /** An action over an effect-free sequence has no effect when it fails. */
  lemma PureActFails(g: Grammar, data: string, r: RuleId, pos: nat, st: St)
    requires Q(g) && r < RULES && Body(r).Act? && PureExpr(Body(r).e) && pos <= |data|
    requires RecRule(g, data, r, pos) == None
    ensures var o := RunRule(g, data, r, pos, st); !o.ok && o.st == st
  {
    RunRuleIs(g, data, r, pos, st);
    RuleIs(g, data, r, pos);
    PureRun(g, data, Body(r).e, pos, map[], st);
  }

  /** No group starts where a term starts. */
  lemma NoGroupStarts(g: Grammar, data: string, pos: nat, t: Term)
    requires Q(g) && TermAt(data, pos, t)
    ensures pos <= |data| && RecRule(g, data, NOT_GROUP_START, pos) == None
    ensures RecRule(g, data, GROUP_START, pos) == None
  {
    hide Rec, RecRule, TermAt, StartsAt, AtomAt, GapAt;
    TermStart(data, pos, t);
    NotSeq(g, data, pos, t);
    var p := pos + |NegText(t.neg)| + |NegGap(t.neg)|;
    RuleIs(g, data, NOT_PREFIX, pos);
    PrefixFails(g, data, pos, p);
  }

  lemma PrefixFails(g: Grammar, data: string, pos: nat, p: nat)
    requires Q(g) && pos <= p < |data| && data[p] != '('
    requires RecRule(g, data, NOT_PREFIX, pos) == (if p == pos then None else Some(p))
    ensures RecRule(g, data, NOT_GROUP_START, pos) == None
    ensures RecRule(g, data, GROUP_START, pos) == None
  {
    hide Rec, RecRule;
    RuleIs(g, data, NOT_PREFIX, pos);
    RuleIs(g, data, NOT_GROUP_START, pos);
    RuleIs(g, data, GROUP_START, pos);
    CharAt(g, data, OPEN_PAREN, '(', p);
    RuleIs(g, data, OPEN_PAREN, p);
    Seq2(g, data, Ref(NOT_PREFIX), Ref(OPEN_PAREN), pos);
    RecNot(g, data, Ref(NOT_PREFIX), pos);
    Seq2(g, data, Not(Ref(NOT_PREFIX)), Ref(OPEN_PAREN), pos);
  }

  lemma RecNot(g: Grammar, data: string, e: Expr, pos: nat)
    requires Q(g) && ExprOk(g, e) && pos <= |data|
    ensures ExprOk(g, Not(e)) && Rec(g, data, Not(e), pos) == if Rec(g, data, e, pos).Some? then None else Some(pos)
  {
  }

  lemma PureParts()
    ensures PureExpr(Body(NOT_GROUP_START).e) && PureExpr(Body(GROUP_START).e) && PureExpr(Body(NOT_CHECK).e)
  {
    assert PureExpr(Not(Ref(NOT_PREFIX)));
  }

  lemma GroupFails(g: Grammar, data: string, pos: nat, t: Term, st: St)
    requires Q(g) && TermAt(data, pos, t)
    ensures pos <= |data|
    ensures var o := RunRule(g, data, GROUP_OR_NOT, pos, st); !o.ok && o.st == st
  {
    hide Run, RunRule, Rec, RecRule, RunChoice, RunSeq, TermAt, PureExpr;
    NoGroupStarts(g, data, pos, t);
    PureParts();
    PureActFails(g, data, NOT_GROUP_START, pos, st);
    PureActFails(g, data, GROUP_START, pos, st);
    PrefixRunFails(g, data, pos, st);
    GroupSeqFails(g, data, pos, st);
  }

  lemma GroupSeqFails(g: Grammar, data: string, pos: nat, st: St)
    requires Q(g) && pos <= |data|
    requires var o := RunRule(g, data, GROUP_PREFIX, pos, st); !o.ok && o.st == st
    ensures var o := RunRule(g, data, GROUP_OR_NOT, pos, st); !o.ok && o.st == st
  {
    hide Run, RunRule, Rec, RecRule, RunChoice, RunSeq;
    RunRuleIs(g, data, GROUP_PREFIX, pos, st);
    RunRuleIs(g, data, GROUP_OR_NOT, pos, st);
    RunSeq2(g, data, Ref(GROUP_PREFIX), Ref(GROUP_SUFFIX), pos, map[], st);
  }

  lemma PrefixRunFails(g: Grammar, data: string, pos: nat, st: St)
    requires Q(g) && pos <= |data|
    requires var o := RunRule(g, data, NOT_GROUP_START, pos, st); !o.ok && o.st == st
    requires var o := RunRule(g, data, GROUP_START, pos, st); !o.ok && o.st == st
    ensures var o := RunRule(g, data, GROUP_PREFIX, pos, st); !o.ok && o.st == st
  {
    var es := Body(GROUP_PREFIX).es;
    hide Run, RunRule, Rec, RecRule, RunChoice;
    RunRuleIs(g, data, GROUP_PREFIX, pos, st);
    assert ExprOk(g, Choice(es));
    RunChoiceIs(g, data, es, pos, map[], st);
    RefStep(g, data, es, 0, NOT_GROUP_START, pos, st);
    RefStep(g, data, es, 1, GROUP_START, pos, st);
    ChoiceEnd(g, data, es, pos, st);
  }

  lemma NotCheckRun(g: Grammar, data: string, pos: nat, t: Term, st: St)
    requires Q(g) && TermAt(data, pos, t)
    ensures pos <= |data|
    ensures var o := RunRule(g, data, NOT_CHECK, pos, st);
            && o.ok == !t.neg.Plain? && o.st == NegSt(st, t.neg)
            && (o.ok ==> o.pos == pos + |NegText(t.neg)| + |NegGap(t.neg)|)
  {
    hide Run, RunRule, Rec, RecRule, TermAt;
    NotSeq(g, data, pos, t);
    PureParts();
    var e := Seq([Ref(NOT_TOKEN), Opt(Ref(WS))]);
    assert Body(NOT_CHECK) == Act(OnNotCheck, e);
    PureRun(g, data, e, pos, map[], st);
    RunRuleIs(g, data, NOT_CHECK, pos, st);
    RunActIs(g, data, OnNotCheck, e, pos, map[], st);
  }

  lemma OptRun(g: Grammar, data: string, r: RuleId, pos: nat, env: Env, st: St)
    requires Q(g) && r < RULES && pos <= |data|
    ensures ExprOk(g, Opt(Ref(r)))
    ensures var o, p := RunRule(g, data, r, pos, st), Run(g, data, Opt(Ref(r)), pos, env, st);
            p.ok && p.pos == o.pos && p.env == env && p.st == o.st
  {
  }

  lemma TermRun(g: Grammar, data: string, pos: nat, t: Term, st: St)
    requires Q(g) && TermAt(data, pos, t)
    ensures pos <= |data|
    ensures var o := RunRule(g, data, TERM, pos, st);
            o.ok && o.pos == pos + TermLen(t) && o.st == TermSt(st, t)
  {
    hide Run, RunRule, Rec, RecRule, AtomAt, AtomSt, NegSt, AtomLen, GapAt, StartsAt, Head;
    var p := pos + |NegText(t.neg)| + |NegGap(t.neg)|;
    assert AtomAt(data, p, t.atom);
    NotCheckRun(g, data, pos, t, st);
    AtomRun(g, data, p, t.atom, NegSt(st, t.neg));
    TermSeq(g, data, pos, p, st, NegSt(st, t.neg));
  }

  /** The optional negation moves to `p` and to state `st1`. */
  lemma TermSeq(g: Grammar, data: string, pos: nat, p: nat, st: St, st1: St)
    requires Q(g) && pos <= p <= |data| && ExprOk(g, Choice([Ref(KEY_VALUE), Ref(SINGLE_VALUE)]))
    requires Run(g, data, Choice([Ref(KEY_VALUE), Ref(SINGLE_VALUE)]), p, map[], st1).ok
    requires var o := RunRule(g, data, NOT_CHECK, pos, st); o.st == st1 && o.pos == p
    ensures var o, k := RunRule(g, data, TERM, pos, st), Run(g, data, Choice([Ref(KEY_VALUE), Ref(SINGLE_VALUE)]), p, map[], st1);
            o.ok && o.pos == k.pos && o.st == k.st
  {
    hide Run, RunRule, Rec, RecRule;
    OptRun(g, data, NOT_CHECK, pos, map[], st);
    RunRuleIs(g, data, TERM, pos, st);
    RunSeq2(g, data, Opt(Ref(NOT_CHECK)), Choice([Ref(KEY_VALUE), Ref(SINGLE_VALUE)]), pos, map[], st);
  }

  lemma ExprRun(g: Grammar, data: string, pos: nat, t: Term, st: St)
    requires Q(g) && TermAt(data, pos, t)
    ensures pos <= |data|
    ensures var o := RunRule(g, data, EXPR, pos, st);
            o.ok && o.pos == pos + TermLen(t) && o.st == TermSt(st, t)
  {
    hide Run, RunRule, Rec, RecRule, RunChoice, TermAt, TermSt, TermLen;
    var es := Body(EXPR).es;
    GroupFails(g, data, pos, t, st);
    TermRun(g, data, pos, t, st);
    RunRuleIs(g, data, EXPR, pos, st);
    assert ExprOk(g, Choice(es));
    RunChoiceIs(g, data, es, pos, map[], st);
    RefStep(g, data, es, 0, GROUP_OR_NOT, pos, st);
    RefStep(g, data, es, 1, TERM, pos, st);
  }
}
