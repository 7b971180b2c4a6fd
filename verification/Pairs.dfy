/** Pairs `field:value` as text, and what parsing one does to the node stack. */
module Pairs {
  import opened Wrappers
  import opened Peg
  import opened QueryAst
  import opened NodeStacks
  import opened QueryRun
  import opened QueryGrammar
  import opened Texts
  import opened Tokens
  import opened PureRules
  import opened Values
  import opened Terms

  function PlainIndex(v: ValText): nat {
    match v case PhraseText(_) => 2 case DateTimeText(_) => 3 case NumberText(_) => 4 case WordText(_) => 5 case WindowText(_, _, _, _) => 0
  }

  ghost predicate ValueAlternatives(g: Grammar, es: seq<Expr>) {
    && Q(g) && |es| == 6
    && (forall k | 0 <= k < 5 :: es[k] == Ref(ValueRule(k)))
    && es[5] == Act(OnField("w"), Label("w", Ref(WORD)))
    && forall k | 0 <= k < 6 :: ExprOk(g, es[k])
  }

  function ValueRule(i: nat): RuleId {
    match i case 0 => WINDOW case 1 => OP_VALUE case 2 => PHRASE case 3 => DATE_TIME case _ => NUMBER
  }

  lemma ValueParts(g: Grammar, es: seq<Expr>)
    requires Q(g) && es == Body(VALUE).es
    ensures ValueAlternatives(g, es)
  {
    assert RuleOk(g, VALUE);
    assert ExprOk(g, Choice(es));
  }

  /** The outcome of a matching value rule. */
  predicate Valued(o: Out, end: nat, v: ValText, st: St) {
    o.ok && o.pos == end && o.val == ValueOf(v) && o.st == Flagged(st, v)
  }

  /** A word value passes through a label and an action. */
  lemma WordAlternative(g: Grammar, data: string, pos: nat, v: ValText, st: St)
    requires Q(g) && TextAt(data, pos, v) && v.WordText?
    ensures ExprOk(g, Act(OnField("w"), Label("w", Ref(WORD))))
    ensures Valued(Run(g, data, Act(OnField("w"), Label("w", Ref(WORD))), pos, map[], st), pos + |TextOf(v)|, v, st)
  {
    hide Run, RunRule, Rec, RecRule, TextAt, ValueOf, Flagged, TextOf, StartsAt;
    TextBound(data, pos, v);
    KindRun(g, data, pos, v, st);
    RunRuleIs(g, data, WORD, pos, st);
    RunLabelIs(g, data, "w", Ref(WORD), pos, map[], st);
    RunActIs(g, data, OnField("w"), Label("w", Ref(WORD)), pos, map[], st);
  }

  lemma {:induction false} ValueFrom(g: Grammar, data: string, es: seq<Expr>, i: nat, pos: nat, v: ValText, st: St)
    requires ValueAlternatives(g, es) && TextAt(data, pos, v) && pos <= |data| && 2 <= i <= PlainIndex(v)
    ensures Valued(RunChoice(g, data, es, i, pos, map[], st), pos + |TextOf(v)|, v, st)
    decreases 6 - i
  {
    hide Run, RunRule, RunChoice, Rec, RecRule, RecChoice, TextAt, Flagged, ValueOf, TextOf;
    if i == 5 {
      WordAlternative(g, data, pos, v, st);
      RunChoiceStep(g, data, es, i, pos, map[], st);
    } else {
      RefStep(g, data, es, i, ValueRule(i), pos, st);
      if i == PlainIndex(v) {
        KindRun(g, data, pos, v, st);
      } else {
        OtherFails(g, data, ValueRule(i), pos, v, st);
        ValueFrom(g, data, es, i + 1, pos, v, st);
      }
    }
  }

  lemma ValueHead(g: Grammar, data: string, es: seq<Expr>, pos: nat, op: FieldOp, v: ValText, st: St)
    requires ValueAlternatives(g, es) && ValueAt(data, pos, op, v)
    ensures Valued(RunChoice(g, data, es, 0, pos, map[], st), pos + |OpText(op)| + |TextOf(v)|, v, OpSt(st, op))
  {
    hide Run, RunRule, RunChoice, Rec, RecRule, RecChoice, Flagged, ValueOf, TextOf, TextAt, StartsAt;
    assert OpSt(st, NO) == st && OpText(NO) == "" && (op == NO ==> TextAt(data, pos, v));
    ValueStart(data, pos, op, v);
    hide OpSt, OpText, ValueAt, Valued;
    RefStep(g, data, es, 0, WINDOW, pos, st);
    if v.WindowText? {
      KindRun(g, data, pos, v, st);
    } else {
      WindowFails(g, data, pos);
      TextRun(g, data, WINDOW, pos, st);
      OpValueRun(g, data, pos, op, v, st);
      RefStep(g, data, es, 1, OP_VALUE, pos, st);
      if op == NO { ValueFrom(g, data, es, 2, pos, v, st); }
    }
  }

  lemma ValueRun(g: Grammar, data: string, pos: nat, op: FieldOp, v: ValText, st: St)
    requires Q(g) && ValueAt(data, pos, op, v)
    ensures Valued(RunRule(g, data, VALUE, pos, st), pos + |OpText(op)| + |TextOf(v)|, v, OpSt(st, op))
  {
    hide Run, RunRule, RunChoice, Rec, RecRule, RecChoice, OpSt, Flagged, ValueOf, OpText, TextOf, TextAt, StartsAt;
    assert pos <= |data|;
    var es := Body(VALUE).es;
    ValueParts(g, es);
    RunRuleIs(g, data, VALUE, pos, st);
    RunChoiceIs(g, data, es, pos, map[], st);
    ValueHead(g, data, es, pos, op, v, st);
  }

  /** What is asked for: `field:[gap][op]value`, or a value alone. */
  datatype Atom = Pair(field: string, gap: string, op: FieldOp, val: ValText) | Bare(val: ValText)

  predicate PairAt(data: string, pos: nat, p: Atom)
    requires p.Pair?
  {
    var c := pos + |p.field|;
    && LegalKey(p.field) && StartsAt(data, pos, p.field)
    && c < |data| && data[c] == ':'
    && GapAt(data, c + 1, p.gap)
    && ValueAt(data, c + 1 + |p.gap|, p.op, p.val)
  }

  predicate GapAt(data: string, pos: nat, ws: string) {
    AllWs(ws) && StartsAt(data, pos, ws)
  }

  function PairLen(p: Atom): nat
    requires p.Pair?
  {
    |p.field| + 1 + |p.gap| + |OpText(p.op)| + |TextOf(p.val)|
  }

  /** The state after a pair: its condition becomes the current one. */
  function PairSt(st: St, p: Atom): St
    requires p.Pair?
  {
    var s1 := Flagged(OpSt(st, p.op), p.val);
    var s := WithCondition(s1.stack);
    s1.(stack := s.(cond := Some(s.cond.value.(field := p.field, value := ValueOf(p.val)))))
  }

  lemma OptWsRun(g: Grammar, data: string, pos: nat, ws: string, env: Env, st: St)
    requires Q(g) && GapAt(data, pos, ws) && !WsAt(data, pos + |ws|)
    ensures ExprOk(g, Opt(Ref(WS)))
    ensures var o := Run(g, data, Opt(Ref(WS)), pos, env, st);
            o.ok && o.pos == pos + |ws| && o.env == env && o.st == st
  {
    hide Run, RunRule, RecRule, Rec;
    WsMatches(g, data, pos, pos + |ws|);
    assert PureExpr(Opt(Ref(WS)));
    PureRun(g, data, Opt(Ref(WS)), pos, env, st);
  }

  lemma KeyRun(g: Grammar, data: string, pos: nat, f: string, env: Env, st: St)
    requires Q(g) && LegalKey(f) && StartsAt(data, pos, f)
    requires pos + |f| < |data| && data[pos + |f|] == ':'
    ensures ExprOk(g, Label("k", Ref(KEY)))
    ensures var o := Run(g, data, Label("k", Ref(KEY)), pos, env, st);
            o.ok && o.pos == pos + |f| && o.env == env["k" := Str(f)] && o.st == st
  {
    hide Run, RunRule, RecRule, Rec;
    KeyMatches(g, data, pos, f);
    TextRun(g, data, KEY, pos, st);
    RunRuleIs(g, data, KEY, pos, st);
    RunLabelIs(g, data, "k", Ref(KEY), pos, env, st);
  }

  lemma ValueLabelRun(g: Grammar, data: string, pos: nat, op: FieldOp, v: ValText, env: Env, st: St)
    requires Q(g) && ValueAt(data, pos, op, v)
    ensures ExprOk(g, Label("v", Ref(VALUE)))
    ensures var o := Run(g, data, Label("v", Ref(VALUE)), pos, env, st);
            && o.ok && o.pos == pos + |OpText(op)| + |TextOf(v)| && o.env == env["v" := ValueOf(v)]
            && o.st == Flagged(OpSt(st, op), v)
  {
    assert pos <= |data|;
    hide Run, RunRule, RecRule, Rec, ValueAt, ValueOf, Flagged, OpSt, OpText, TextOf;
    ValueRun(g, data, pos, op, v, st);
    RunRuleIs(g, data, VALUE, pos, st);
    RunLabelIs(g, data, "v", Ref(VALUE), pos, env, st);
  }

  lemma ColonRun(g: Grammar, data: string, pos: nat, env: Env, st: St)
    requires Q(g) && pos < |data| && data[pos] == ':'
    ensures var o := Run(g, data, Ref(COLON), pos, env, st);
            o.ok && o.pos == pos + 1 && o.env == env && o.st == st
  {
    CharAt(g, data, COLON, ':', pos);
    PureRun(g, data, Ref(COLON), pos, env, st);
  }

  /** The sequence of a pair, without its action. */
  lemma PairSeq(g: Grammar, data: string, es: seq<Expr>, pos: nat, p: Atom, st: St)
    requires p.Pair? && Q(g) && PairAt(data, pos, p)
    requires |es| == 4 && es[0] == Label("k", Ref(KEY)) && es[1] == Ref(COLON)
    requires es[2] == Opt(Ref(WS)) && es[3] == Label("v", Ref(VALUE)) && forall k | 0 <= k < 4 :: ExprOk(g, es[k])
    ensures var o := RunSeq(g, data, es, 0, pos, pos, [], map[], st);
            && o.ok && o.pos == pos + PairLen(p)
            && o.env == map["k" := Str(p.field), "v" := ValueOf(p.val)]
            && o.st == Flagged(OpSt(st, p.op), p.val)
  {
    hide Run, RunSeq, RecSeq, Rec, ValueAt, ValueOf, Flagged, OpSt, OpText, TextOf, GapAt, LegalKey, StartsAt;
    var c := pos + |p.field|;
    var d := c + 1 + |p.gap|;
    ValueStart(data, d, p.op, p.val);
    KeyRun(g, data, pos, p.field, map[], st);
    var o0 := Run(g, data, es[0], pos, map[], st);
    RunSeqStep(g, data, es, 0, pos, pos, [], map[], st);
    ColonRun(g, data, c, o0.env, st);
    var o1 := Run(g, data, es[1], c, o0.env, st);
    RunSeqStep(g, data, es, 1, pos, c, [] + [o0.val], o0.env, st);
    OptWsRun(g, data, c + 1, p.gap, o0.env, st);
    var o2 := Run(g, data, es[2], c + 1, o0.env, st);
    RunSeqStep(g, data, es, 2, pos, c + 1, [] + [o0.val] + [o1.val], o0.env, st);
    PairTail(g, data, es, pos, d, p, [] + [o0.val] + [o1.val] + [o2.val], o0.env, st);
  }

  lemma PairTail(g: Grammar, data: string, es: seq<Expr>, start: nat, pos: nat, p: Atom, vals: seq<Value>, env: Env, st: St)
    requires p.Pair? && Q(g) && ValueAt(data, pos, p.op, p.val) && start <= pos
    requires |es| == 4 && es[3] == Label("v", Ref(VALUE)) && forall k | 0 <= k < 4 :: ExprOk(g, es[k])
    ensures pos <= |data|
    ensures var o := RunSeq(g, data, es, 3, start, pos, vals, env, st);
            && o.ok && o.pos == pos + |OpText(p.op)| + |TextOf(p.val)| && o.env == env["v" := ValueOf(p.val)]
            && o.st == Flagged(OpSt(st, p.op), p.val)
  {
    assert pos <= |data|;
    hide Run, RunSeq, RecSeq, Rec, ValueAt, ValueOf, Flagged, OpSt, OpText, TextOf;
    ValueLabelRun(g, data, pos, p.op, p.val, env, st);
    var o := Run(g, data, es[3], pos, env, st);
    RunSeqStep(g, data, es, 3, start, pos, vals, env, st);
    RunSeqEnd(g, data, es, start, o.pos, vals + [o.val], o.env, o.st);
  }

  lemma PairRun(g: Grammar, data: string, pos: nat, p: Atom, st: St)
    requires p.Pair? && Q(g) && PairAt(data, pos, p)
    ensures var o := RunRule(g, data, KEY_VALUE, pos, st);
            o.ok && o.pos == pos + PairLen(p) && o.st == PairSt(st, p)
  {
    hide Run, RunRule, RunSeq, RecSeq, Rec, RecRule, PairLen, ValueOf, Effect, PairSt, ValueAt, GapAt, StartsAt, LegalKey;
    assert pos <= |data|;
    hide PairAt;
    var es := Body(KEY_VALUE).e.es;
    PairParts(g, es);
    RunRuleIs(g, data, KEY_VALUE, pos, st);
    RunSeqIs(g, data, es, pos, map[], st);
    PairSeq(g, data, es, pos, p, st);
    var o := RunSeq(g, data, es, 0, pos, pos, [], map[], st);
    KeyValueEffect(data[pos..o.pos], p, st);
    RunActIs(g, data, OnKeyValue, Seq(es), pos, map[], st);
  }

  lemma KeyValueEffect(text: string, p: Atom, st: St)
    requires p.Pair?
    ensures Effect(OnKeyValue, text, map["k" := Str(p.field), "v" := ValueOf(p.val)],
                   Flagged(OpSt(st, p.op), p.val)).1 == PairSt(st, p)
  {
  }

  lemma PairParts(g: Grammar, es: seq<Expr>)
    requires Q(g) && es == Body(KEY_VALUE).e.es
    ensures |es| == 4 && es[0] == Label("k", Ref(KEY)) && es[1] == Ref(COLON)
    ensures es[2] == Opt(Ref(WS)) && es[3] == Label("v", Ref(VALUE)) && forall k | 0 <= k < 4 :: ExprOk(g, es[k])
  {
    assert RuleOk(g, KEY_VALUE);
    assert ExprOk(g, Seq(es));
  }
}
