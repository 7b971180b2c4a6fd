/** Sequences of terms under AND and OR: from the text to the node stack. */
module FlatRuns {
  import opened Wrappers
  import opened Peg
  import opened QueryAst
  import opened QueryRun
  import opened QueryGrammar
  import opened Texts
  import opened Tokens
  import opened Values
  import opened Terms
  import opened Pairs
  import opened FlatQueries

  /** An operator between two terms, as a word or as a symbol. */
  datatype Sep = Sep(before: string, isOr: bool, short: bool, after: string)

  function SepTok(s: Sep): string {
    if s.isOr then (if s.short then "|" else "OR") else (if s.short then "&" else "AND")
  }

  function OpOf(s: Sep): NodeOp {
    if s.isOr then OROP else ANDOP
  }

  function OtherOp(op: NodeOp): NodeOp {
    if op == OROP then ANDOP else OROP
  }

  predicate SepAt(data: string, pos: nat, s: Sep) {
    var p := pos + |s.before|;
    var q := p + |SepTok(s)|;
    && s.before != "" && GapAt(data, pos, s.before)
    && StartsAt(data, p, SepTok(s))
    && s.after != "" && GapAt(data, q, s.after)
    && !WsAt(data, q + |s.after|)
  }

  function SepLen(s: Sep): nat {
    |s.before| + |SepTok(s)| + |s.after|
  }

  function SepSt(st: St, s: Sep): St {
    Operated(st, OpOf(s), OtherOp(OpOf(s))).1
  }

  lemma OrTokenAt(g: Grammar, data: string, pos: nat)
    requires Q(g) && pos <= |data|
    ensures RecRule(g, data, OR_TOKEN, pos)
         == if StartsAt(data, pos, "OR") then Some(pos + 2) else if StartsAt(data, pos, "|") then Some(pos + 1) else None
  {
    RuleIs(g, data, OR_TOKEN, pos);
    Choice2(g, data, Lit("OR"), Lit("|"), pos);
    MatchLitAt(data, "OR", 0, pos);
    MatchLitAt(data, "|", 0, pos);
    assert "OR"[0..] == "OR" && "|"[0..] == "|";
  }

  lemma AndTokenAt(g: Grammar, data: string, pos: nat)
    requires Q(g) && pos <= |data|
    ensures RecRule(g, data, AND_TOKEN, pos)
         == if StartsAt(data, pos, "AND") then Some(pos + 3) else if StartsAt(data, pos, "&") then Some(pos + 1) else None
  {
    RuleIs(g, data, AND_TOKEN, pos);
    Choice2(g, data, Lit("AND"), Lit("&"), pos);
    MatchLitAt(data, "AND", 0, pos);
    MatchLitAt(data, "&", 0, pos);
    assert "AND"[0..] == "AND" && "&"[0..] == "&";
  }

  /** Running one alternative of the operator rule. */
  lemma OperatorAlternative(g: Grammar, data: string, a: Action, r: RuleId, pos: nat, st: St)
    requires Q(g) && (r == OR_TOKEN || r == AND_TOKEN) && pos <= |data|
    ensures ExprOk(g, Act(a, Ref(r)))
    ensures var o, rec := Run(g, data, Act(a, Ref(r)), pos, map[], st), RecRule(g, data, r, pos);
            if rec.None? then !o.ok && o.st == st
            else o.ok && o.pos == rec.value && o.st == Effect(a, data[pos..o.pos], map[], st).1
  {
    hide RecRule, Effect, RunRule;
    RunRuleIs(g, data, r, pos, st);
    TextRun(g, data, r, pos, st);
    hide Run, Rec;
    RunActIs(g, data, a, Ref(r), pos, map[], st);
  }

  /** The operator found at `pos`, if any: OR first, then AND. */
  lemma OperatorRun(g: Grammar, data: string, pos: nat, st: St)
    requires Q(g) && pos <= |data|
    ensures var o := RunRule(g, data, OPERATOR, pos, st);
            var rOr, rAnd := RecRule(g, data, OR_TOKEN, pos), RecRule(g, data, AND_TOKEN, pos);
            if rOr.Some? then o.ok && o.pos == rOr.value && o.st == Operated(st, OROP, ANDOP).1
            else if rAnd.Some? then o.ok && o.pos == rAnd.value && o.st == Operated(st, ANDOP, OROP).1
            else !o.ok && o.st == st
  {
    var es := Body(OPERATOR).es;
    assert es == [Act(OnOr, Ref(OR_TOKEN)), Act(OnAnd, Ref(AND_TOKEN))];
    OperatorAlternative(g, data, OnOr, OR_TOKEN, pos, st);
    OperatorAlternative(g, data, OnAnd, AND_TOKEN, pos, st);
    hide Run, RunRule, Rec, RecRule, RunChoice, Operated;
    RunRuleIs(g, data, OPERATOR, pos, st);
    RunChoiceIs(g, data, es, pos, map[], st);
    RunChoiceStep(g, data, es, 0, pos, map[], st);
    RunChoiceStep(g, data, es, 1, pos, map[], st);
    ChoiceEnd(g, data, es, pos, st);
  }

  lemma SepTokenRun(g: Grammar, data: string, pos: nat, s: Sep, st: St)
    requires Q(g) && StartsAt(data, pos, SepTok(s))
    ensures var o := RunRule(g, data, OPERATOR, pos, st);
            o.ok && o.pos == pos + |SepTok(s)| && o.st == SepSt(st, s)
  {
    OrTokenAt(g, data, pos);
    AndTokenAt(g, data, pos);
    SepStart(data, pos, s);
    hide RunRule, RecRule, Operated, StartsAt;
    OperatorRun(g, data, pos, st);
  }

  lemma SepStart(data: string, pos: nat, s: Sep)
    requires StartsAt(data, pos, SepTok(s))
    ensures StartsAt(data, pos, "OR") <==> s.isOr && !s.short
    ensures StartsAt(data, pos, "|") <==> s.isOr && s.short
    ensures StartsAt(data, pos, "AND") <==> !s.isOr && !s.short
    ensures StartsAt(data, pos, "&") <==> !s.isOr && s.short
  {
    StartsChar(data, pos, SepTok(s), 0);
    FirstOf(data, pos, "OR");
    FirstOf(data, pos, "|");
    FirstOf(data, pos, "AND");
    FirstOf(data, pos, "&");
  }

  lemma FirstOf(data: string, pos: nat, t: string)
    requires t != ""
    ensures StartsAt(data, pos, t) ==> data[pos] == t[0]
  {
    if StartsAt(data, pos, t) { StartsChar(data, pos, t, 0); }
  }

  /** The end of a flat query: optional whitespace, then a closing parenthesis
      or the end of the text. */
  predicate EndAt(data: string, pos: nat, tail: string) {
    var q := pos + |tail|;
    GapAt(data, pos, tail) && (q == |data| || (q < |data| && data[q] == ')'))
  }

  lemma OperatorFails(g: Grammar, data: string, pos: nat, st: St)
    requires Q(g) && (pos == |data| || (pos < |data| && data[pos] == ')'))
    ensures var o := RunRule(g, data, OPERATOR, pos, st); !o.ok && o.st == st
  {
    OrTokenAt(g, data, pos);
    AndTokenAt(g, data, pos);
    FirstOf(data, pos, "OR");
    FirstOf(data, pos, "|");
    FirstOf(data, pos, "AND");
    FirstOf(data, pos, "&");
    hide RunRule, RecRule, Operated;
    OperatorRun(g, data, pos, st);
  }

  lemma WsRun(g: Grammar, data: string, pos: nat, ws: string, st: St)
    requires Q(g) && GapAt(data, pos, ws) && !WsAt(data, pos + |ws|)
    ensures var o := RunRule(g, data, WS, pos, st);
            o.ok == (ws != "") && o.pos == pos + |ws| && o.st == st
  {
    WsMatches(g, data, pos, pos + |ws|);
    TextRun(g, data, WS, pos, st);
  }

  const MORE: Expr := Seq([Ref(WS), Ref(OPERATOR), Ref(WS), Ref(EXPR)])

  lemma MoreOk(g: Grammar)
    requires Q(g)
    ensures ExprOk(g, MORE) && !Nullable(g, MORE)
    ensures forall k | 0 <= k < 4 :: ExprOk(g, MORE.es[k])
    ensures Body(EXPRS) == Seq([Ref(EXPR), Star(MORE)])
  {
    RefSeqGood(g, MORE.es, 1);
  }

  /** A sequence element that is a rule. */
  lemma SeqRef(g: Grammar, data: string, es: seq<Expr>, i: nat, r: RuleId, start: nat, pos: nat,
               vals: seq<Value>, env: Env, st: St)
    requires Q(g) && (forall k | 0 <= k < |es| :: ExprOk(g, es[k])) && i < |es| && start <= pos <= |data|
    requires es[i] == Ref(r) && r < RULES
    ensures var o := RunRule(g, data, r, pos, st);
            RunSeq(g, data, es, i, start, pos, vals, env, st)
            == if !o.ok then Out(false, start, NoValue, env, o.st)
               else RunSeq(g, data, es, i + 1, start, o.pos, vals + [o.val], env, o.st)
  {
    RunRefIs(g, data, r, pos, env, st);
    hide Run, RunRule, Rec, RecRule, RunSeq;
    RunSeqStep(g, data, es, i, start, pos, vals, env, st);
  }

  lemma RunRefIs(g: Grammar, data: string, r: RuleId, pos: nat, env: Env, st: St)
    requires Q(g) && r < RULES && pos <= |data|
    ensures Run(g, data, Ref(r), pos, env, st) == RunRule(g, data, r, pos, st).(env := env)
    ensures var o := RunRule(g, data, r, pos, st); !o.ok ==> o.pos == pos && o.val == NoValue
  {
  }

  /** One more operator and term. */
  lemma MoreRun(g: Grammar, data: string, pos: nat, s: Sep, t: Term, st: St)
    requires Q(g) && SepAt(data, pos, s) && TermAt(data, pos + SepLen(s), t)
    ensures ExprOk(g, MORE) && pos <= |data|
    ensures var o := Run(g, data, MORE, pos, map[], st);
            o.ok && o.pos == pos + SepLen(s) + TermLen(t) && o.st == TermSt(SepSt(st, s), t)
  {
    hide Run, GapAt, StartsAt, WsAt, TermAt, TermSt, SepSt, TermLen, SepTok;
    SepParts(data, pos, s);
    MoreParts(g, data, pos, pos + |s.before|, pos + |s.before| + |SepTok(s)|, s, t, st);
  }

  lemma SepParts(data: string, pos: nat, s: Sep)
    requires SepAt(data, pos, s)
    ensures var p := pos + |s.before|; var q := p + |SepTok(s)|;
            && pos <= p <= q <= pos + SepLen(s) == q + |s.after| <= |data|
            && GapAt(data, pos, s.before) && StartsAt(data, p, SepTok(s)) && GapAt(data, q, s.after)
            && s.before != "" && s.after != "" && !WsAt(data, p) && !WsAt(data, q + |s.after|)
  {
    SepNotWs(data, pos + |s.before|, s);
  }

  lemma MoreParts(g: Grammar, data: string, pos: nat, p: nat, q: nat, s: Sep, t: Term, st: St)
    requires Q(g) && pos <= p <= q <= pos + SepLen(s) <= |data|
    requires p == pos + |s.before| && q == p + |SepTok(s)| && pos + SepLen(s) == q + |s.after|
    requires GapAt(data, pos, s.before) && StartsAt(data, p, SepTok(s)) && GapAt(data, q, s.after)
    requires s.before != "" && s.after != "" && !WsAt(data, p) && !WsAt(data, q + |s.after|)
    requires TermAt(data, pos + SepLen(s), t)
    ensures ExprOk(g, MORE)
    ensures var o := Run(g, data, MORE, pos, map[], st);
            o.ok && o.pos == pos + SepLen(s) + TermLen(t) && o.st == TermSt(SepSt(st, s), t)
  {
    hide GapAt, StartsAt, WsAt, TermAt, TermSt, SepSt, TermLen, SepTok, SepLen, Run, RunRule, Rec, RecRule, RunSeq;
    var st1 := SepSt(st, s);
    WsRun(g, data, pos, s.before, st);
    SepTokenRun(g, data, p, s, st);
    WsRun(g, data, q, s.after, st1);
    ExprRun(g, data, pos + SepLen(s), t, st1);
    MoreSeq(g, data, pos, p, q, pos + SepLen(s), st, st1);
  }

  lemma SepNotWs(data: string, pos: nat, s: Sep)
    requires StartsAt(data, pos, SepTok(s))
    ensures !WsAt(data, pos)
  {
    StartsChar(data, pos, SepTok(s), 0);
  }

  lemma MoreSeq(g: Grammar, data: string, pos: nat, p: nat, q: nat, e: nat, st: St, st1: St)
    requires Q(g) && pos <= p <= q <= e <= |data|
    requires var o := RunRule(g, data, WS, pos, st); o.ok && o.pos == p && o.st == st
    requires var o := RunRule(g, data, OPERATOR, p, st); o.ok && o.pos == q && o.st == st1
    requires var o := RunRule(g, data, WS, q, st1); o.ok && o.pos == e && o.st == st1
    requires RunRule(g, data, EXPR, e, st1).ok
    ensures ExprOk(g, MORE)
    ensures var o, x := Run(g, data, MORE, pos, map[], st), RunRule(g, data, EXPR, e, st1);
            o.ok && o.pos == x.pos && o.st == x.st
  {
    MoreOk(g);
    var es := MORE.es;
    hide Run, RunRule, Rec, RecRule, RunSeq;
    var v0, v1, v2 := RunRule(g, data, WS, pos, st).val, RunRule(g, data, OPERATOR, p, st).val, RunRule(g, data, WS, q, st1).val;
    var x := RunRule(g, data, EXPR, e, st1);
    RunSeqIs(g, data, es, pos, map[], st);
    SeqRef(g, data, es, 0, WS, pos, pos, [], map[], st);
    SeqRef(g, data, es, 1, OPERATOR, pos, p, [] + [v0], map[], st);
    SeqRef(g, data, es, 2, WS, pos, q, [] + [v0] + [v1], map[], st1);
    SeqRef(g, data, es, 3, EXPR, pos, e, [] + [v0] + [v1] + [v2], map[], st1);
    RunSeqEnd(g, data, es, pos, x.pos, [] + [v0] + [v1] + [v2] + [x.val], map[], x.st);
  }

  /** Nothing more: at the end of a flat query. */
  lemma MoreFails(g: Grammar, data: string, pos: nat, tail: string, st: St)
    requires Q(g) && EndAt(data, pos, tail)
    ensures ExprOk(g, MORE) && pos <= |data|
    ensures var o := Run(g, data, MORE, pos, map[], st); !o.ok && o.st == st
  {
    MoreOk(g);
    var es := MORE.es;
    var q := pos + |tail|;
    WsRun(g, data, pos, tail, st);
    OperatorFails(g, data, q, st);
    hide Run, RunRule, Rec, RecRule, RunSeq, GapAt;
    var v0 := RunRule(g, data, WS, pos, st).val;
    RunSeqIs(g, data, es, pos, map[], st);
    SeqRef(g, data, es, 0, WS, pos, pos, [], map[], st);
    SeqRef(g, data, es, 1, OPERATOR, pos, q, [] + [v0], map[], st);
  }

  type Rest = seq<(Sep, Term)>

  /** The remaining terms of a flat query at `pos`, then its end. */
  predicate RestAt(data: string, pos: nat, rest: Rest, tail: string)
    decreases |rest|
  {
    if rest == [] then EndAt(data, pos, tail)
    else
      var (s, t) := rest[0];
      SepAt(data, pos, s) && TermAt(data, pos + SepLen(s), t)
      && RestAt(data, pos + SepLen(s) + TermLen(t), rest[1..], tail)
  }

  /** The same without its end. */
  predicate RestTo(data: string, pos: nat, rest: Rest)
    decreases |rest|
  {
    rest == []
    || (SepAt(data, pos, rest[0].0) && TermAt(data, pos + SepLen(rest[0].0), rest[0].1)
        && RestTo(data, pos + SepLen(rest[0].0) + TermLen(rest[0].1), rest[1..]))
  }

  lemma {:induction false} RestEnds(data: string, pos: nat, rest: Rest, tail: string)
    requires RestTo(data, pos, rest) && EndAt(data, pos + RestLen(rest), tail)
    ensures RestAt(data, pos, rest, tail)
    decreases |rest|
  {
    hide SepAt, TermAt, SepLen, TermLen, EndAt;
    if rest != [] { RestEnds(data, pos + SepLen(rest[0].0) + TermLen(rest[0].1), rest[1..], tail); }
  }

  function RestLen(rest: Rest): nat {
    if rest == [] then 0 else SepLen(rest[0].0) + TermLen(rest[0].1) + RestLen(rest[1..])
  }

  function RestSt(st: St, rest: Rest): St
    decreases |rest|
  {
    if rest == [] then st else RestSt(TermSt(SepSt(st, rest[0].0), rest[0].1), rest[1..])
  }

  lemma {:induction false} RestRun(g: Grammar, data: string, pos: nat, rest: Rest, tail: string,
                                   vals: seq<Value>, env: Env, st: St)
    requires Q(g) && RestAt(data, pos, rest, tail)
    ensures ExprOk(g, MORE) && !Nullable(g, MORE) && pos <= |data|
    ensures var o := RunStar(g, data, MORE, pos, vals, env, st);
            o.ok && o.pos == pos + RestLen(rest) && o.st == RestSt(st, rest)
    decreases |rest|
  {
    hide Run, Rec, RunStar, RecStar, ExprOk, Nullable, EndAt, SepAt, TermAt, SepLen, TermLen, SepSt, TermSt;
    MoreOk(g);
    if rest == [] {
      MoreFails(g, data, pos, tail, st);
      StarStep(g, data, pos, vals, env, st);
    } else {
      var (s, t) := rest[0];
      RestParts(data, pos, rest, tail, st);
      hide RestAt, RestLen, RestSt;
      MoreRun(g, data, pos, s, t, st);
      var o := Run(g, data, MORE, pos, map[], st);
      StarStep(g, data, pos, vals, env, st);
      RestRun(g, data, o.pos, rest[1..], tail, vals + [o.val], env, o.st);
    }
  }

  lemma RestParts(data: string, pos: nat, rest: Rest, tail: string, st: St)
    requires rest != [] && RestAt(data, pos, rest, tail)
    ensures var (s, t) := rest[0];
            && SepAt(data, pos, s) && TermAt(data, pos + SepLen(s), t)
            && RestAt(data, pos + SepLen(s) + TermLen(t), rest[1..], tail)
            && RestLen(rest) == SepLen(s) + TermLen(t) + RestLen(rest[1..])
            && RestSt(st, rest) == RestSt(TermSt(SepSt(st, s), t), rest[1..])
            && pos <= |data|
  {
  }

  lemma StarStep(g: Grammar, data: string, pos: nat, vals: seq<Value>, env: Env, st: St)
    requires Q(g) && ExprOk(g, MORE) && !Nullable(g, MORE) && pos <= |data|
    ensures var o := Run(g, data, MORE, pos, map[], st);
            RunStar(g, data, MORE, pos, vals, env, st)
            == if !o.ok then Out(true, pos, List(vals), env, o.st)
               else RunStar(g, data, MORE, o.pos, vals + [o.val], env, o.st)
  {
  }

  /** A whole flat query: a first term and the rest. */
  predicate FlatAt(data: string, pos: nat, first: Term, rest: Rest, tail: string) {
    TermAt(data, pos, first) && RestAt(data, pos + TermLen(first), rest, tail)
  }

  function FlatLen(first: Term, rest: Rest): nat {
    TermLen(first) + RestLen(rest)
  }

  function FlatSt(st: St, first: Term, rest: Rest): St {
    RestSt(TermSt(st, first), rest)
  }

  lemma ExprsRun(g: Grammar, data: string, pos: nat, first: Term, rest: Rest, tail: string, st: St)
    requires Q(g) && FlatAt(data, pos, first, rest, tail)
    ensures pos <= |data|
    ensures var o := RunRule(g, data, QUERY, pos, st);
            o.ok && o.pos == pos + FlatLen(first, rest) && o.st == FlatSt(st, first, rest)
  {
    hide ExprOk, Nullable, TermLen, RestLen, TermSt, RestSt, TermAt, RestAt, Run, RunRule, Rec, RecRule, RunStar, RecStar;
    ExprRun(g, data, pos, first, st);
    var x := RunRule(g, data, EXPR, pos, st);
    RestRun(g, data, x.pos, rest, tail, [], map[], x.st);
    ExprsSeq(g, data, pos, st);
  }

  lemma ExprsSeq(g: Grammar, data: string, pos: nat, st: St)
    requires Q(g) && ExprOk(g, MORE) && !Nullable(g, MORE) && pos <= |data| && RunRule(g, data, EXPR, pos, st).ok
    ensures var x := RunRule(g, data, EXPR, pos, st);
            var o, r := RunRule(g, data, QUERY, pos, st), RunStar(g, data, MORE, x.pos, [], map[], x.st);
            o.ok && o.pos == r.pos && o.st == r.st
  {
    MoreOk(g);
    hide Run, RunRule, Rec, RecRule, RunStar, RecStar;
    var x := RunRule(g, data, EXPR, pos, st);
    StarRun(g, data, x.pos, map[], x.st);
    RunRefIs(g, data, EXPR, pos, map[], st);
    RunSeq2(g, data, Ref(EXPR), Star(MORE), pos, map[], st);
    RunRuleIs(g, data, EXPRS, pos, st);
    RunRuleIs(g, data, QUERY, pos, st);
    RunRefIs(g, data, EXPRS, pos, map[], st);
  }

  lemma StarRun(g: Grammar, data: string, pos: nat, env: Env, st: St)
    requires Q(g) && ExprOk(g, MORE) && !Nullable(g, MORE) && pos <= |data|
    ensures ExprOk(g, Star(MORE))
    ensures Run(g, data, Star(MORE), pos, env, st) == RunStar(g, data, MORE, pos, [], env, st)
  {
  }
}
