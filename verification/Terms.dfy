/** Terms `[NOT] field:[op]value` as text, and what parsing one does to the
    node stack. */
module Terms {
  import opened Peg
  import opened QueryAst
  import opened QueryRun
  import opened QueryGrammar
  import opened Decimal
  import opened Texts
  import opened Tokens
  import opened PureRules
  import opened Values
  import opened Windows

  function OpText(op: FieldOp): string {
    match op
    case NO => ""
    case EQ => "="
    case LT => "<"
    case GT => ">"
    case LE => "<="
    case GE => ">="
    case NE => "!="
  }

  lemma RunRuleIs(g: Grammar, data: string, r: RuleId, pos: nat, st: St)
    requires Q(g) && r < RULES && pos <= |data|
    ensures ExprOk(g, Body(r)) && RunRule(g, data, r, pos, st) == Run(g, data, Body(r), pos, map[], st)
    ensures Run(g, data, Ref(r), pos, map[], st) == RunRule(g, data, r, pos, st).(env := map[])
  {
    assert RuleOk(g, r);
  }

  lemma RunChoiceStep(g: Grammar, data: string, es: seq<Expr>, i: nat, pos: nat, env: Env, st: St)
    requires Q(g) && (forall k | 0 <= k < |es| :: ExprOk(g, es[k])) && i < |es| && pos <= |data|
    ensures var o := Run(g, data, es[i], pos, map[], st);
            RunChoice(g, data, es, i, pos, env, st)
            == if o.ok then o.(env := env) else RunChoice(g, data, es, i + 1, pos, env, o.st)
  {
  }

  /** A token with an action. */
  lemma TokenRun(g: Grammar, data: string, r: RuleId, a: Action, text: string, pos: nat, st: St)
    requires Q(g) && r < RULES && Body(r) == Act(a, Lit(text)) && Ascii(text) && pos <= |data|
    ensures var o := RunRule(g, data, r, pos, st);
            if StartsAt(data, pos, text) then
              o.ok && o.pos == pos + |text| && o.st == Effect(a, text, map[], st).1
            else !o.ok && o.st == st
  {
    RunRuleIs(g, data, r, pos, st);
    MatchLitAt(data, text, 0, pos);
    assert text[0..] == text;
  }

  /** No operator token starts at `pos`. */
  predicate NoOpAt(data: string, pos: nat) {
    pos < |data| ==> data[pos] !in "<>=!"
  }

  /** The operator the ordered choice of tokens finds. */
  function FirstOp(data: string, pos: nat): FieldOp {
    if StartsAt(data, pos, ">=") then GE
    else if StartsAt(data, pos, "<=") then LE
    else if StartsAt(data, pos, ">") then GT
    else if StartsAt(data, pos, "<") then LT
    else if StartsAt(data, pos, "!=") then NE
    else if StartsAt(data, pos, "=") then EQ
    else NO
  }

  lemma FieldOpIs(g: Grammar, data: string, es: seq<Expr>, pos: nat, st: St)
    requires Q(g) && pos <= |data| && (forall k | 0 <= k < |es| :: ExprOk(g, es[k])) && IsFieldOps(es)
    ensures var o, op := RunChoice(g, data, es, 0, pos, map[], st), FirstOp(data, pos);
            && o.ok == (op != NO)
            && o.st == (if o.ok then Compared(st, op).1 else st)
            && (o.ok ==> o.pos == pos + |OpText(op)|)
  {
    hide Run, RunChoice, RunRule, Rec, RecChoice, RecRule, Q, ExprOk, StartsAt, Compared, Effect, Body, IsFieldOps;
    OpStep(g, data, es, 0, pos, st);
    OpStep(g, data, es, 1, pos, st);
    OpStep(g, data, es, 2, pos, st);
    OpStep(g, data, es, 3, pos, st);
    OpStep(g, data, es, 4, pos, st);
    OpStep(g, data, es, 5, pos, st);
    ChoiceEnd(g, data, es, pos, st);
  }

  predicate IsFieldOps(es: seq<Expr>) {
    es == [Ref(GTE), Ref(LTE), Ref(GREATER), Ref(LESS), Ref(UNEQUAL), Ref(EQUAL)]
  }

  function OpAt(i: nat): FieldOp {
    match i case 0 => GE case 1 => LE case 2 => GT case 3 => LT case 4 => NE case _ => EQ
  }

  function OpRule(i: nat): RuleId {
    match i case 0 => GTE case 1 => LTE case 2 => GREATER case 3 => LESS case 4 => UNEQUAL case _ => EQUAL
  }

  function OpAction(i: nat): Action {
    match i case 0 => OnGE case 1 => OnLE case 2 => OnGT case 3 => OnLT case 4 => OnNE case _ => OnEQ
  }

  lemma OpBody(es: seq<Expr>, i: nat)
    requires IsFieldOps(es) && i < 6
    ensures |es| == 6 && OpRule(i) < RULES && es[i] == Ref(OpRule(i))
    ensures Body(OpRule(i)) == Act(OpAction(i), Lit(OpText(OpAt(i)))) && Ascii(OpText(OpAt(i)))
  {
  }

  lemma OpEffect(i: nat, st: St)
    requires i < 6
    ensures Effect(OpAction(i), OpText(OpAt(i)), map[], st) == Compared(st, OpAt(i))
  {
    hide OpText;
  }

  lemma OpStep(g: Grammar, data: string, es: seq<Expr>, i: nat, pos: nat, st: St)
    requires Q(g) && pos <= |data| && (forall k | 0 <= k < |es| :: ExprOk(g, es[k])) && IsFieldOps(es) && i < 6
    ensures |es| == 6
    ensures var o, op := RunChoice(g, data, es, i, pos, map[], st), OpAt(i);
            if StartsAt(data, pos, OpText(op)) then o.ok && o.st == Compared(st, op).1 && o.pos == pos + |OpText(op)|
            else o == RunChoice(g, data, es, i + 1, pos, map[], st)
  {
    hide Run, RunChoice, RunRule, Rec, RecChoice, RecRule, Q, ExprOk, StartsAt, Compared, Effect, Body, OpText, IsFieldOps;
    OpBody(es, i);
    OpEffect(i, st);
    FieldOpStep(g, data, es, i, OpRule(i), OpAction(i), OpText(OpAt(i)), OpAt(i), pos, st);
  }

  lemma FieldOpRun(g: Grammar, data: string, pos: nat, op: FieldOp, st: St)
    requires Q(g) && pos <= |data|
    requires op != NO ==> StartsAt(data, pos, OpText(op))
    requires NoOpAt(data, pos + |OpText(op)|)
    ensures var o := RunRule(g, data, FIELD_OP, pos, st);
            && o.ok == (op != NO)
            && o.st == (if o.ok then Compared(st, op).1 else st)
            && (o.ok ==> o.pos == pos + |OpText(op)|)
  {
    RunRuleIs(g, data, FIELD_OP, pos, st);
    FieldOpIs(g, data, Body(FIELD_OP).es, pos, st);
    FirstOpIs(data, pos, op);
  }

  lemma FirstOpIs(data: string, pos: nat, op: FieldOp)
    requires op != NO ==> StartsAt(data, pos, OpText(op))
    requires NoOpAt(data, pos + |OpText(op)|)
    ensures FirstOp(data, pos) == op
  {
    OnlyOp(data, pos, op, GE);
    OnlyOp(data, pos, op, LE);
    OnlyOp(data, pos, op, GT);
    OnlyOp(data, pos, op, LT);
    OnlyOp(data, pos, op, NE);
    OnlyOp(data, pos, op, EQ);
  }

  lemma ChoiceEnd(g: Grammar, data: string, es: seq<Expr>, pos: nat, st: St)
    requires Q(g) && (forall k | 0 <= k < |es| :: ExprOk(g, es[k])) && pos <= |data|
    ensures RunChoice(g, data, es, |es|, pos, map[], st) == Out(false, pos, NoValue, map[], st)
  {
  }

  lemma FieldOpStep(g: Grammar, data: string, es: seq<Expr>, i: nat, r: RuleId, a: Action, text: string,
                    op: FieldOp, pos: nat, st: St)
    requires Q(g) && pos <= |data| && (forall k | 0 <= k < |es| :: ExprOk(g, es[k]))
    requires i < |es| && es[i] == Ref(r) && r < RULES && Body(r) == Act(a, Lit(text)) && Ascii(text)
    requires Effect(a, text, map[], st) == Compared(st, op)
    ensures var o := RunChoice(g, data, es, i, pos, map[], st);
            if StartsAt(data, pos, text) then o.ok && o.st == Compared(st, op).1 && o.pos == pos + |text|
            else o == RunChoice(g, data, es, i + 1, pos, map[], st)
  {
    TokenRun(g, data, r, a, text, pos, st);
    RunRuleIs(g, data, r, pos, st);
    RunChoiceStep(g, data, es, i, pos, map[], st);
  }

  lemma OnlyOp(data: string, pos: nat, op: FieldOp, op': FieldOp)
    requires op' != NO && (op != NO ==> StartsAt(data, pos, OpText(op))) && NoOpAt(data, pos + |OpText(op)|)
    ensures StartsAt(data, pos, OpText(op')) <==> op' == op || (op' == GT && op == GE) || (op' == LT && op == LE)
  {
    var t, t' := OpText(op), OpText(op');
    if StartsAt(data, pos, t') {
      StartsChar(data, pos, t', 0);
      if |t'| == 2 { StartsChar(data, pos, t', 1); }
      if |t| > 0 { StartsChar(data, pos, t, 0); }
      if |t| == 2 { StartsChar(data, pos, t, 1); }
    }
    if op == GE || op == LE {
      StartsChar(data, pos, t, 0);
      StartsOne(data, pos, t[0]);
    }
  }

  lemma RunSeq2(g: Grammar, data: string, a: Expr, b: Expr, pos: nat, env: Env, st: St)
    requires Q(g) && ExprOk(g, a) && ExprOk(g, b) && pos <= |data|
    ensures ExprOk(g, Seq([a, b]))
    ensures var o, r := Run(g, data, a, pos, env, st), Run(g, data, Seq([a, b]), pos, env, st);
            if !o.ok then r == o else
              var o2 := Run(g, data, b, o.pos, o.env, o.st);
              r == if o2.ok then o2.(val := List([o.val, o2.val])) else o2.(pos := pos)
  {
    RunSeqIs(g, data, [a, b], pos, env, st);
    hide Run, RunSeq, Rec, RecSeq, Q, ExprOk;
    var o := Run(g, data, a, pos, env, st);
    RunSeqStep(g, data, [a, b], 0, pos, pos, [], env, st);
    if o.ok {
      var o2 := Run(g, data, b, o.pos, o.env, o.st);
      assert [] + [o.val] == [o.val] && [o.val] + [o2.val] == [o.val, o2.val];
      RunSeqStep(g, data, [a, b], 1, pos, o.pos, [o.val], o.env, o.st);
      if o2.ok {
        RunSeqEnd(g, data, [a, b], pos, o2.pos, [o.val, o2.val], o2.env, o2.st);
      }
    }
  }

  lemma RunSeqIs(g: Grammar, data: string, es: seq<Expr>, pos: nat, env: Env, st: St)
    requires Q(g) && (forall k | 0 <= k < |es| :: ExprOk(g, es[k])) && pos <= |data|
    ensures ExprOk(g, Seq(es))
    ensures Run(g, data, Seq(es), pos, env, st) == RunSeq(g, data, es, 0, pos, pos, [], env, st)
  {
  }

  lemma RunSeqStep(g: Grammar, data: string, es: seq<Expr>, i: nat, start: nat, pos: nat,
                   vals: seq<Value>, env: Env, st: St)
    requires Q(g) && (forall k | 0 <= k < |es| :: ExprOk(g, es[k])) && i < |es| && start <= pos <= |data|
    ensures var o := Run(g, data, es[i], pos, env, st);
            RunSeq(g, data, es, i, start, pos, vals, env, st)
            == if !o.ok then o.(pos := start)
               else RunSeq(g, data, es, i + 1, start, o.pos, vals + [o.val], o.env, o.st)
  {
  }

  lemma RunSeqEnd(g: Grammar, data: string, es: seq<Expr>, start: nat, pos: nat,
                  vals: seq<Value>, env: Env, st: St)
    requires Q(g) && (forall k | 0 <= k < |es| :: ExprOk(g, es[k])) && start <= pos <= |data|
    ensures RunSeq(g, data, es, |es|, start, pos, vals, env, st) == Out(true, pos, List(vals), env, st)
  {
  }

  lemma RunActIs(g: Grammar, data: string, a: Action, e: Expr, pos: nat, env: Env, st: St)
    requires Q(g) && ExprOk(g, e) && pos <= |data|
    ensures ExprOk(g, Act(a, e))
    ensures var o, r := Run(g, data, e, pos, env, st), Run(g, data, Act(a, e), pos, env, st);
            r == if o.ok then
                   var (v, st') := Effect(a, data[pos..o.pos], o.env, o.st);
                   o.(val := v, st := st')
                 else o
  {
  }

  lemma RunLabelIs(g: Grammar, data: string, name: string, e: Expr, pos: nat, env: Env, st: St)
    requires Q(g) && ExprOk(g, e) && pos <= |data|
    ensures ExprOk(g, Label(name, e))
    ensures var o := Run(g, data, e, pos, map[], st);
            Run(g, data, Label(name, e), pos, env, st)
            == o.(env := if o.ok && name != "" then env[name := o.val] else env)
  {
  }

  /** Rules whose action returns the matched text have no effect. */
  lemma TextRun(g: Grammar, data: string, r: RuleId, pos: nat, st: St)
    requires Q(g) && PureRule(r) && r < RULES && pos <= |data|
    ensures var o := RunRule(g, data, r, pos, st);
            o.st == st && (o.ok && Body(r).Act? ==> o.val == Str(data[pos..o.pos]))
  {
    RunRuleIs(g, data, r, pos, st);
    PureRuleRun(g, data, r, pos, st);
    PureBody(r);
    if Body(r).Act? {
      assert Body(r).action == OnText;
    }
  }

  /** A legal value at `pos`, followed by a delimiter. */
  predicate TextAt(data: string, pos: nat, v: ValText) {
    LegalVal(v) && StartsAt(data, pos, TextOf(v)) && AtDelim(data, pos + |TextOf(v)|)
  }

  lemma TextBound(data: string, pos: nat, v: ValText)
    requires TextAt(data, pos, v)
    ensures pos <= pos + |TextOf(v)| <= |data|
  {
  }

  function KindRule(v: ValText): RuleId {
    match v
    case PhraseText(_) => PHRASE
    case NumberText(_) => NUMBER
    case WordText(_) => WORD
    case DateTimeText(_) => DATE_TIME
    case WindowText(_, _, _, _) => WINDOW
  }

  function Flagged(st: St, v: ValText): St {
    if BadNumber(v) then st.(err := true) else st
  }

  lemma NumberEffect(g: Grammar, data: string, pos: nat, st: St)
    requires Q(g) && pos <= |data|
    ensures var o := RunRule(g, data, NUMBER, pos, st);
            if !o.ok then o.st == st else (o.val, o.st) == Effect(OnNumber, data[pos..o.pos], map[], st)
  {
    RunRuleIs(g, data, NUMBER, pos, st);
    PureBody(WIN_NUMBER);
    assert Body(NUMBER).e == Body(WIN_NUMBER);
    PureRun(g, data, Body(NUMBER).e, pos, map[], st);
  }

  lemma KindRun(g: Grammar, data: string, pos: nat, v: ValText, st: St)
    requires Q(g) && TextAt(data, pos, v)
    ensures var o := RunRule(g, data, KindRule(v), pos, st);
            o.ok && o.pos == pos + |TextOf(v)| && o.val == ValueOf(v) && o.st == Flagged(st, v)
  {
    hide Run, RunRule, Rec, RecRule, Q, ParseFloat, AtDelim, LegalPhrase, LegalNumber, LegalWord, LegalDateTime, StartsAt;
    StartsBound(data, pos, TextOf(v));
    match v {
      case PhraseText(body) =>
        PhraseMatches(g, data, pos, body);
        TextRun(g, data, PHRASE, pos, st);
      case NumberText(t) =>
        NumberMatches(g, data, pos, t);
        NumberEffect(g, data, pos, st);
      case WordText(t) =>
        WordMatches(g, data, pos, t);
        TextRun(g, data, WORD, pos, st);
      case DateTimeText(t) =>
        DateTimeMatches(g, data, pos, t);
        TextRun(g, data, DATE_TIME, pos, st);
      case WindowText(_, _, _, _) =>
        WindowMatches(g, data, pos, v);
        TextRun(g, data, WINDOW, pos, st);
    }
  }

  lemma OtherFails(g: Grammar, data: string, r: RuleId, pos: nat, v: ValText, st: St)
    requires Q(g) && TextAt(data, pos, v)
    requires r in {DATE_TIME, NUMBER, PHRASE} && r != KindRule(v) && !(r == NUMBER && v.DateTimeText?) && !v.WindowText?
    ensures var o := RunRule(g, data, r, pos, st); !o.ok && o.st == st
  {
    StartsChar(data, pos, TextOf(v), 0);
    if r == DATE_TIME {
      DateTimeFails(g, data, pos, v);
      TextRun(g, data, DATE_TIME, pos, st);
    } else if r == NUMBER {
      NumberFails(g, data, pos);
      NumberEffect(g, data, pos, st);
    } else {
      PhraseFails(g, data, pos);
      TextRun(g, data, PHRASE, pos, st);
    }
  }

  /** One alternative of an operator value: the operator takes effect even when
      the value after it does not match. */
  lemma OpAlternativeRun(g: Grammar, data: string, l: string, r: RuleId, pos: nat, op: FieldOp, st: St)
    requires Q(g) && r < RULES && l != "" && pos <= |data|
    requires op != NO ==> StartsAt(data, pos, OpText(op))
    requires NoOpAt(data, pos + |OpText(op)|)
    ensures ExprOk(g, OpAlternative(l, r))
    ensures var o := Run(g, data, OpAlternative(l, r), pos, map[], st);
            if op == NO then !o.ok && o.st == st else
              var o2 := RunRule(g, data, r, pos + |OpText(op)|, Compared(st, op).1);
              o.ok == o2.ok && o.st == o2.st && (o.ok ==> o.pos == o2.pos && o.val == o2.val)
  {
    hide Run, RunRule, Rec, RecRule, Compared, StartsAt, FirstOp, Body;
    FieldOpRun(g, data, pos, op, st);
    RunRuleIs(g, data, FIELD_OP, pos, st);
    var a, b := Ref(FIELD_OP), Label(l, Ref(r));
    RunSeq2(g, data, a, b, pos, map[], st);
    RunActIs(g, data, OnField(l), Seq([a, b]), pos, map[], st);
    if op != NO {
      var st1, p1 := Compared(st, op).1, pos + |OpText(op)|;
      RunRuleIs(g, data, r, p1, st1);
      RunLabelIs(g, data, l, Ref(r), p1, map[], st1);
    }
  }

  /** An operator and a value at `pos`, followed by a delimiter; a window has no
      operator. */
  predicate ValueAt(data: string, pos: nat, op: FieldOp, v: ValText) {
    pos <= |data| && (op != NO ==> !v.WindowText?) && StartsAt(data, pos, OpText(op)) && TextAt(data, pos + |OpText(op)|, v)
  }

  lemma ValueFirst(v: ValText)
    requires LegalVal(v)
    ensures TextOf(v) != "" && TextOf(v)[0] !in "<>=!" && !IsWs(TextOf(v)[0]) && (TextOf(v)[0] == '[' <==> v.WindowText?)
  {
  }

  lemma ValueStart(data: string, pos: nat, op: FieldOp, v: ValText)
    requires ValueAt(data, pos, op, v)
    ensures NoOpAt(data, pos + |OpText(op)|) && pos + |OpText(op)| <= |data|
    ensures pos < |data| && (data[pos] == '[' <==> v.WindowText?) && !IsWs(data[pos])
  {
    hide LegalVal, AtDelim, TextOf, StartsAt;
    ValueFirst(v);
    StartsBound(data, pos + |OpText(op)|, TextOf(v));
    StartsChar(data, pos + |OpText(op)|, TextOf(v), 0);
    if op != NO { StartsChar(data, pos, OpText(op), 0); }
  }

  function OpSt(st: St, op: FieldOp): St {
    if op == NO then st else Compared(st, op).1
  }

  lemma OpStTwice(st: St, op: FieldOp)
    ensures OpSt(OpSt(st, op), op) == OpSt(st, op)
  {
  }

  lemma OpValueStep(g: Grammar, data: string, es: seq<Expr>, i: nat, l: string, r: RuleId,
                    pos: nat, op: FieldOp, v: ValText, st: St)
    requires Q(g) && ValueAt(data, pos, op, v) && (forall k | 0 <= k < |es| :: ExprOk(g, es[k]))
    requires i < |es| && es[i] == OpAlternative(l, r) && l != ""
    requires r < RULES
    requires op == NO || r == KindRule(v) || (r in {DATE_TIME, NUMBER, PHRASE} && !v.DateTimeText?)
    ensures var o := RunChoice(g, data, es, i, pos, map[], st);
            if op != NO && r == KindRule(v) then
              && o.ok && o.pos == pos + |OpText(op)| + |TextOf(v)| && o.val == ValueOf(v)
              && o.st == Flagged(OpSt(st, op), v)
            else o == RunChoice(g, data, es, i + 1, pos, map[], OpSt(st, op))
  {
    hide Run, RunRule, RunChoice, Rec, RecRule, Body, Compared, Flagged, TextAt, StartsAt, ValueOf;
    var p1 := pos + |OpText(op)|;
    ValueStart(data, pos, op, v);
    OpAlternativeRun(g, data, l, r, pos, op, st);
    if op != NO {
      if r == KindRule(v) {
        KindRun(g, data, p1, v, OpSt(st, op));
      } else {
        OtherFails(g, data, r, p1, v, OpSt(st, op));
      }
    }
    RunChoiceStep(g, data, es, i, pos, map[], st);
  }

  function AltRule(i: nat): RuleId {
    match i case 0 => DATE_TIME case 1 => NUMBER case 2 => PHRASE case _ => WORD
  }

  function AltLabel(i: nat): string {
    match i case 0 => "d" case 1 => "n" case 2 => "p" case _ => "w"
  }

  function KindIndex(v: ValText): nat {
    match v case DateTimeText(_) => 0 case NumberText(_) => 1 case PhraseText(_) => 2 case WordText(_) => 3 case WindowText(_, _, _, _) => 4
  }

  ghost predicate OpAlternatives(g: Grammar, es: seq<Expr>) {
    && Q(g) && |es| == 4
    && forall k | 0 <= k < 4 :: es[k] == OpAlternative(AltLabel(k), AltRule(k)) && ExprOk(g, es[k])
  }

  lemma OpStNone(st: St)
    ensures OpSt(st, NO) == st
  {
  }

  /** From alternative `i` on, the alternative for the kind of value is taken. */
  lemma {:induction false} OpValueFrom(g: Grammar, data: string, es: seq<Expr>, i: nat, pos: nat,
                                       op: FieldOp, v: ValText, st: St)
    requires OpAlternatives(g, es) && ValueAt(data, pos, op, v)
    requires i <= 4 && (op == NO || i <= KindIndex(v))
    ensures var o := RunChoice(g, data, es, i, pos, map[], st);
            if op == NO then !o.ok && o.st == st else
              && o.ok && o.pos == pos + |OpText(op)| + |TextOf(v)| && o.val == ValueOf(v)
              && o.st == Flagged(OpSt(st, op), v)
    decreases 4 - i
  {
    hide Run, RunRule, RunChoice, Rec, RecRule, RecChoice, Compared, Flagged, StartsAt, ValueOf, OpSt, OpText, TextOf;
    OpStTwice(st, op);
    OpStNone(st);
    var s := OpSt(st, op);
    if i == 4 {
      ChoiceEnd(g, data, es, pos, st);
    } else {
      OpValueStep(g, data, es, i, AltLabel(i), AltRule(i), pos, op, v, st);
      if op == NO || i < KindIndex(v) {
        OpValueFrom(g, data, es, i + 1, pos, op, v, s);
      }
    }
  }

  lemma ValueBound(data: string, pos: nat, op: FieldOp, v: ValText)
    requires ValueAt(data, pos, op, v)
    ensures pos <= |data|
  {
  }

  lemma OpValueRun(g: Grammar, data: string, pos: nat, op: FieldOp, v: ValText, st: St)
    requires Q(g) && ValueAt(data, pos, op, v)
    ensures var o := RunRule(g, data, OP_VALUE, pos, st);
            if op == NO then !o.ok && o.st == st else
              && o.ok && o.pos == pos + |OpText(op)| + |TextOf(v)| && o.val == ValueOf(v)
              && o.st == Flagged(OpSt(st, op), v)
  {
    hide Run, RunRule, RunChoice, Rec, RecRule, RecChoice, ValueAt, OpSt, Flagged, ValueOf, OpText, TextOf;
    ValueBound(data, pos, op, v);
    var es := Body(OP_VALUE).es;
    OpValueParts(g, es);
    RunRuleIs(g, data, OP_VALUE, pos, st);
    RunChoiceIs(g, data, es, pos, map[], st);
    OpValueFrom(g, data, es, 0, pos, op, v, st);
  }

  /** An alternative that is a rule. */
  lemma RefStep(g: Grammar, data: string, es: seq<Expr>, i: nat, r: RuleId, pos: nat, st: St)
    requires Q(g) && (forall k | 0 <= k < |es| :: ExprOk(g, es[k])) && pos <= |data|
    requires i < |es| && es[i] == Ref(r) && r < RULES
    ensures var o := RunRule(g, data, r, pos, st);
            RunChoice(g, data, es, i, pos, map[], st)
            == if o.ok then o.(env := map[]) else RunChoice(g, data, es, i + 1, pos, map[], o.st)
  {
    hide Run, RunRule, RunChoice, Rec, RecRule, RecChoice;
    RunRuleIs(g, data, r, pos, st);
    RunChoiceStep(g, data, es, i, pos, map[], st);
  }

  lemma RunChoiceIs(g: Grammar, data: string, es: seq<Expr>, pos: nat, env: Env, st: St)
    requires Q(g) && (forall k | 0 <= k < |es| :: ExprOk(g, es[k])) && pos <= |data|
    ensures ExprOk(g, Choice(es))
    ensures Run(g, data, Choice(es), pos, env, st) == RunChoice(g, data, es, 0, pos, env, st)
  {
  }

  lemma OpValueParts(g: Grammar, es: seq<Expr>)
    requires Q(g) && es == Body(OP_VALUE).es
    ensures OpAlternatives(g, es)
  {
    assert RuleOk(g, OP_VALUE);
    assert ExprOk(g, Choice(es));
  }
}
