/** What a parse does: positions and values, and the effects of the semantic
    actions on the node stack, which failing alternatives do not undo. */
module QueryRun {
  import opened Wrappers
  import opened Peg
  import opened QueryAst
  import opened NodeStacks
  import opened Decimal

  type Env = map<string, Value>

  /** `err` records that some action reported an error. */
  datatype St = St(stack: Stack, err: bool)

  datatype Out = Out(ok: bool, pos: nat, val: Value, env: Env, st: St)

  function Get(env: Env, name: string): Value {
    if name in env then env[name] else NoValue
  }

  function Operated(st: St, op: NodeOp, other: NodeOp): (Value, St) {
    var s := WithNode(WithNewCondition(st.stack));
    if s.node.value.op == other then (NoValue, St(s, true))
    else (Pointer, St(s.(node := Some(s.node.value.(op := op))), st.err))
  }

  function Compared(st: St, op: FieldOp): (Value, St) {
    var s := WithCondition(st.stack);
    (Pointer, st.(stack := s.(cond := Some(s.cond.value.(op := op)))))
  }

  /** The value and the effect of an action run on the matched text. */
  function Effect(a: Action, text: string, env: Env, st: St): (Value, St) {
    match a
    case OnInput => (Parsed(QueryOf(st.stack)), st.(stack := AfterQuery(st.stack)))
    case OnOr => Operated(st, OROP, ANDOP)
    case OnAnd => Operated(st, ANDOP, OROP)
    case OnNotCheck =>
      var s := WithCondition(st.stack);
      (NoValue, st.(stack := s.(cond := Some(s.cond.value.(invert := true)))))
    case OnGroupStart => (Pointer, st.(stack := WithNewNode(st.stack)))
    case OnNotGroupStart => (Pointer, st.(stack := WithNode(st.stack)))
    case OnKeyValue =>
      var s := WithCondition(st.stack);
      var k := Get(env, "k");
      if k.Str? then
        (Pointer, st.(stack := s.(cond := Some(s.cond.value.(field := k.s, value := Get(env, "v"))))))
      else (NoValue, St(s, true))
    case OnText => (Str(text), st)
    case OnNumber =>
      var f := ParseFloat(text);
      if f.Some? then (Float(f.value), st) else (Float(0.0), st.(err := true))
    case OnField(name) => (Get(env, name), st)
    case OnGE => Compared(st, GE)
    case OnLE => Compared(st, LE)
    case OnGT => Compared(st, GT)
    case OnLT => Compared(st, LT)
    case OnNE => Compared(st, NE)
    case OnEQ => Compared(st, EQ)
  }

  /** The outcome `o` of a parse at `pos` is the one recognition predicts; a
      failing parse has no value and leaves the position where it was. */
  predicate Agrees(o: Out, r: Option<nat>, pos: nat) {
    && o.ok == r.Some?
    && o.pos == (if r.Some? then r.value else pos)
    && (!o.ok ==> o.val == NoValue)
  }

  function Matched(data: string, r: Option<nat>, pos: nat, env: Env, st: St): (o: Out)
    requires r.Some? ==> pos <= r.value <= |data|
    ensures Agrees(o, r, pos)
  {
    if r.Some? then Out(true, r.value, Raw(data[pos..r.value]), env, st) else Out(false, pos, NoValue, env, st)
  }

  /** Parsing `e` at `pos` without a memo table. */
  function Run(g: Grammar, data: string, e: Expr, pos: nat, env: Env, st: St): (o: Out)
    requires WellFormed(g) && ExprOk(g, e) && pos <= |data|
    ensures Agrees(o, Rec(g, data, e, pos), pos)
    decreases |data| - pos, LeftRank(g, e), e, 0
  {
    match e
    case Any => Matched(data, Rec(g, data, e, pos), pos, env, st)
    case Lit(_) => Matched(data, Rec(g, data, e, pos), pos, env, st)
    case Class(_, _, _) => Matched(data, Rec(g, data, e, pos), pos, env, st)
    case Seq(es) => RunSeq(g, data, es, 0, pos, pos, [], env, st)
    case Choice(es) => RunChoice(g, data, es, 0, pos, env, st)
    case Not(e1) =>
      var o := Run(g, data, e1, pos, map[], st);
      Out(!o.ok, pos, NoValue, env, o.st)
    case And(e1) =>
      var o := Run(g, data, e1, pos, map[], st);
      Out(o.ok, pos, NoValue, env, o.st)
    case Opt(e1) =>
      var o := Run(g, data, e1, pos, map[], st);
      Out(true, o.pos, o.val, env, o.st)
    case Star(e1) => RunStar(g, data, e1, pos, [], env, st)
    case Plus(e1) =>
      var o := Run(g, data, e1, pos, map[], st);
      if o.ok then RunStar(g, data, e1, o.pos, [o.val], env, o.st) else Out(false, pos, NoValue, env, o.st)
    case Ref(rule) =>
      if rule < |g.rules| then
        var o := RunRule(g, data, rule, pos, st);
        o.(env := env)
      else Out(false, pos, NoValue, env, st.(err := true))
    case Act(a, e1) =>
      var o := Run(g, data, e1, pos, env, st);
      if o.ok then
        var (v, st') := Effect(a, data[pos..o.pos], o.env, o.st);
        o.(val := v, st := st')
      else o
    case Label(name, e1) =>
      var o := Run(g, data, e1, pos, map[], st);
      o.(env := if o.ok && name != "" then env[name := o.val] else env)
  }

  function RunRule(g: Grammar, data: string, r: RuleId, pos: nat, st: St): (o: Out)
    requires WellFormed(g) && r < |g.rules| && pos <= |data|
    ensures Agrees(o, RecRule(g, data, r, pos), pos)
    decreases |data| - pos, g.rank[r], g.rules[r], 1
  {
    assert RuleOk(g, r);
    Run(g, data, g.rules[r], pos, map[], st)
  }

  function RunSeq(g: Grammar, data: string, es: seq<Expr>, i: nat, start: nat, pos: nat,
                  vals: seq<Value>, env: Env, st: St): (o: Out)
    requires WellFormed(g) && i <= |es| && start <= pos <= |data|
    requires forall k | 0 <= k < |es| :: ExprOk(g, es[k])
    ensures Agrees(o, RecSeq(g, data, es, i, pos), start)
    decreases |data| - pos, SeqRank(g, es, i), es, |es| - i
  {
    if i == |es| then Out(true, pos, List(vals), env, st)
    else
      var o := Run(g, data, es[i], pos, env, st);
      if !o.ok then o.(pos := start)
      else RunSeq(g, data, es, i + 1, start, o.pos, vals + [o.val], o.env, o.st)
  }

  function RunChoice(g: Grammar, data: string, es: seq<Expr>, i: nat, pos: nat, env: Env, st: St): (o: Out)
    requires WellFormed(g) && i <= |es| && pos <= |data|
    requires forall k | 0 <= k < |es| :: ExprOk(g, es[k])
    ensures Agrees(o, RecChoice(g, data, es, i, pos), pos)
    decreases |data| - pos, ChoiceRank(g, es, i), es, |es| - i
  {
    if i == |es| then Out(false, pos, NoValue, env, st)
    else
      var o := Run(g, data, es[i], pos, map[], st);
      if o.ok then o.(env := env) else RunChoice(g, data, es, i + 1, pos, env, o.st)
  }

  function RunStar(g: Grammar, data: string, e: Expr, pos: nat, vals: seq<Value>, env: Env, st: St): (o: Out)
    requires WellFormed(g) && ExprOk(g, e) && !Nullable(g, e) && pos <= |data|
    ensures Agrees(o, Some(RecStar(g, data, e, pos)), pos)
    decreases |data| - pos, LeftRank(g, e), e, 1
  {
    var o := Run(g, data, e, pos, map[], st);
    if !o.ok then Out(true, pos, List(vals), env, o.st)
    else RunStar(g, data, e, o.pos, vals + [o.val], env, o.st)
  }

  /** Looking ahead moves nothing and binds nothing, but what the actions did to
      the stack meanwhile stays. */
  lemma LookAhead(g: Grammar, data: string, e: Expr, pos: nat, env: Env, st: St)
    requires WellFormed(g) && ExprOk(g, e) && pos <= |data|
    ensures ExprOk(g, Not(e)) && ExprOk(g, And(e))
    ensures var o, n, a := Run(g, data, e, pos, map[], st), Run(g, data, Not(e), pos, env, st), Run(g, data, And(e), pos, env, st);
            && n.pos == a.pos == pos && n.env == a.env == env && n.st == a.st == o.st && n.ok == !o.ok && a.ok == o.ok
  {
  }

  lemma RunPlus(g: Grammar, data: string, e: Expr, pos: nat, env: Env, st: St)
    requires WellFormed(g) && ExprOk(g, e) && !Nullable(g, e) && pos <= |data|
    ensures ExprOk(g, Plus(e))
    ensures var o := Run(g, data, e, pos, map[], st);
            Run(g, data, Plus(e), pos, env, st)
            == if o.ok then RunStar(g, data, e, o.pos, [o.val], env, o.st) else Out(false, pos, NoValue, env, o.st)
    ensures var r := Rec(g, data, e, pos);
            Rec(g, data, Plus(e), pos) == if r.Some? then Some(RecStar(g, data, e, r.value)) else None
  {
  }

  lemma RunStarIs(g: Grammar, data: string, e: Expr, pos: nat, env: Env, st: St)
    requires WellFormed(g) && ExprOk(g, e) && !Nullable(g, e) && pos <= |data|
    ensures ExprOk(g, Star(e)) && Rec(g, data, Star(e), pos) == Some(RecStar(g, data, e, pos))
    ensures Run(g, data, Star(e), pos, env, st) == RunStar(g, data, e, pos, [], env, st)
  {
  }

  lemma RunStarStep(g: Grammar, data: string, e: Expr, pos: nat, vals: seq<Value>, env: Env, st: St)
    requires WellFormed(g) && ExprOk(g, e) && !Nullable(g, e) && pos <= |data|
    ensures var o := Run(g, data, e, pos, map[], st);
            RunStar(g, data, e, pos, vals, env, st)
            == if o.ok then RunStar(g, data, e, o.pos, vals + [o.val], env, o.st)
               else Out(true, pos, List(vals), env, o.st)
    ensures var r := Rec(g, data, e, pos);
            RecStar(g, data, e, pos) == if r.Some? then RecStar(g, data, e, r.value) else pos
  {
  }
}
