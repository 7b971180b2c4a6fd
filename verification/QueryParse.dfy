/** Whole queries: what the parser makes of a flat query, bare or in one pair
    of parentheses. */
module QueryParse {
  import opened Wrappers
  import opened Utf8
  import opened Peg
  import opened QueryAst
  import opened NodeStacks
  import opened QueryRun
  import opened QueryGrammar
  import opened Decimal
  import Numerals
  import opened Texts
  import opened Tokens
  import opened Values
  import opened Terms
  import opened Pairs
  import opened FlatQueries
  import opened FlatRuns

  const START: St := St(EMPTY, false)

  /** The condition of a term; that of a value alone has no field and no value. */
  function CondOf(t: Term): Condition {
    match t.atom
    case Pair(f, _, op, v) => Condition(f, op, ValueOf(v), !t.neg.Plain?)
    case Bare(_) => FRESH.(invert := !t.neg.Plain?)
  }

  /** A value alone, not negated, leaves the stack as it is. */
  predicate Silent(t: Term) {
    t.atom.Bare? && t.neg.Plain?
  }

  function Conds(rest: Rest): seq<Item> {
    if rest == [] then [] else [Cond(CondOf(rest[0].1))] + Conds(rest[1..])
  }

  /** Some operator differs from `op`. */
  predicate Mixed(op: NodeOp, rest: Rest) {
    exists i | 0 <= i < |rest| :: OpOf(rest[i].0) != op
  }

  predicate AnyBadNumber(first: Term, rest: Rest) {
    BadNumber(first.atom.val) || exists i | 0 <= i < |rest| :: BadNumber(rest[i].1.atom.val)
  }

  /** The terms after a silent one that has left no condition: a second silent
      one leaves nothing either, and at the end a nil. */
  function Lost(rest: Rest): seq<Item> {
    if rest == [] then [Missing]
    else if !Silent(rest[0].1) then Conds(rest)
    else if |rest| == 1 then [Missing]
    else Conds(rest[1..])
  }

  /** The query a flat text denotes. */
  function QueryFor(first: Term, rest: Rest): Query {
    Query(if rest == [] then (if Silent(first) then Missing else Cond(CondOf(first)))
          else Sub(Node(OpOf(rest[0].0), [Cond(CondOf(first))] + if Silent(first) then Lost(rest) else Conds(rest))))
  }

  /** In parentheses there is always a node, without an operator for one term. */
  function GroupQueryFor(first: Term, rest: Rest): Query {
    Query(Sub(Node(if rest == [] then NOOP else OpOf(rest[0].0),
                   if !Silent(first) then [Cond(CondOf(first))] + Conds(rest)
                   else if rest == [] then [Missing] else Conds(rest))))
  }

  /** An action reports an error for it. */
  predicate Rejected(first: Term, rest: Rest) {
    (rest != [] && Mixed(OpOf(rest[0].0), rest)) || AnyBadNumber(first, rest)
  }

  /** The value that a text is to have, told by its characters. */
  ghost predicate Gives(v: ValText, x: Value) {
    match v
    case PhraseText(body) => x == Str("\"" + body + "\"")
    case WordText(t) => x == Str(t)
    case DateTimeText(t) => x == Str(t)
    case WindowText(open, from, to, close) => x == Str("[" + (open + (from + ("~" + (to + (close + "]"))))))
    case NumberText(t) =>
      x.Float? && Numerals.Legal(Numerals.NumeralOf(t)) && Numerals.Text(Numerals.NumeralOf(t)) == t
      && Numerals.Means(Numerals.NumeralOf(t), x.v)
  }

  /** Every text has its value, and a number is bad exactly when it has not the
      parts of one or is beyond the range of 64-bit floats. */
  lemma ValueGives(v: ValText)
    ensures !BadNumber(v) ==> Gives(v, ValueOf(v))
    ensures BadNumber(v) <==>
              v.NumberText? && forall n, x: real | Numerals.Legal(n) && Numerals.Text(n) == v.t && Numerals.Means(n, x) :: !InRange(x)
  {
    hide ParseFloat, InRange, Numerals.Legal, Numerals.Text, Numerals.Means, Numerals.NumeralOf;
    if v.NumberText? { Numerals.ParseExact(v.t); }
  }

  /** A pair has its value, a value alone has none. */
  ghost predicate Given(t: Term) {
    if t.atom.Pair? then Gives(t.atom.val, CondOf(t).value) else CondOf(t).value == NoValue
  }

  ghost predicate AllGiven(first: Term, rest: Rest) {
    Given(first) && forall i | 0 <= i < |rest| :: Given(rest[i].1)
  }

  lemma GoodGiven(first: Term, rest: Rest)
    requires !Rejected(first, rest)
    ensures AllGiven(first, rest)
  {
    hide Gives, ValueOf, BadNumber;
    ValueGives(first.atom.val);
    forall i | 0 <= i < |rest| ensures Given(rest[i].1) {
      ValueGives(rest[i].1.atom.val);
    }
  }

  lemma TermBuild(st: St, t: Term)
    requires st.stack.cond == None || st.stack.cond == Some(FRESH)
    ensures TermSt(st, t) == St(Stack(st.stack.node, if st.stack.cond.None? && Silent(t) then None else Some(CondOf(t))),
                                st.err || BadNumber(t.atom.val))
  {
  }

  lemma SepBuild(node: Option<Node>, c: Condition, err: bool, s: Sep)
    requires node.None? || node.value.op != OtherOp(OpOf(s))
    ensures SepSt(St(Stack(node, Some(c)), err), s)
         == St(Stack(Some(Node(OpOf(s), (if node.Some? then node.value.conds else []) + [Cond(c)])), Some(FRESH)), err)
  {
    assert [] + [Cond(c)] == [Cond(c)];
  }

  lemma SepClash(n: Node, c: Condition, err: bool, s: Sep)
    requires n.op == OtherOp(OpOf(s))
    ensures SepSt(St(Stack(Some(n), Some(c)), err), s)
         == St(Stack(Some(n.(conds := n.conds + [Cond(c)])), Some(FRESH)), true)
  {
  }

  /** Under a node whose operator is set, every term is appended in order and
      only a different operator or a malformed number is an error. */
  lemma {:induction false} RestBuild(op: NodeOp, cs: seq<Item>, c: Condition, err: bool, rest: Rest)
    requires op != NOOP
    ensures var r := RestSt(St(Stack(Some(Node(op, cs)), Some(c)), err), rest);
            && AfterQuery(r.stack).node == Some(Node(op, cs + [Cond(c)] + Conds(rest)))
            && (r.err <==> err || Mixed(op, rest) || exists i | 0 <= i < |rest| :: BadNumber(rest[i].1.atom.val))
    decreases |rest|
  {
    hide SepSt, TermSt, Mixed, BadNumber, CondOf, OpOf;
    if rest == [] {
      assert cs + [Cond(c)] + [] == cs + [Cond(c)];
      NotMixed(op);
    } else {
      var (s, t) := rest[0];
      var st1 := SepSt(St(Stack(Some(Node(op, cs)), Some(c)), err), s);
      OneBuild(op, cs, c, err, s, t);
      var err1 := err || OpOf(s) != op || BadNumber(t.atom.val);
      RestBuild(op, cs + [Cond(c)], CondOf(t), err1, rest[1..]);
      assert cs + [Cond(c)] + Conds(rest) == cs + [Cond(c)] + [Cond(CondOf(t))] + Conds(rest[1..]);
      RestErrors(op, rest);
    }
  }

  lemma NotMixed(op: NodeOp)
    ensures !Mixed(op, [])
  {
  }

  /** One operator and the term after it. */
  lemma OneBuild(op: NodeOp, cs: seq<Item>, c: Condition, err: bool, s: Sep, t: Term)
    requires op != NOOP
    ensures TermSt(SepSt(St(Stack(Some(Node(op, cs)), Some(c)), err), s), t) ==
            St(Stack(Some(Node(op, cs + [Cond(c)])), Some(CondOf(t))), err || OpOf(s) != op || BadNumber(t.atom.val))
  {
    hide TermSt, BadNumber, CondOf;
    if OpOf(s) == op {
      SepBuild(Some(Node(op, cs)), c, err, s);
    } else {
      SepClash(Node(op, cs), c, err, s);
    }
    TermBuild(SepSt(St(Stack(Some(Node(op, cs)), Some(c)), err), s), t);
  }

  lemma RestErrors(op: NodeOp, rest: Rest)
    requires rest != []
    ensures Mixed(op, rest) <==> OpOf(rest[0].0) != op || Mixed(op, rest[1..])
    ensures (exists i | 0 <= i < |rest| :: BadNumber(rest[i].1.atom.val)) <==>
            BadNumber(rest[0].1.atom.val) || exists i | 0 <= i < |rest| - 1 :: BadNumber(rest[1..][i].1.atom.val)
  {
    forall i | 0 < i < |rest| ensures rest[i] == rest[1..][i - 1] {}
    assert rest == [rest[0]] + rest[1..];
  }

  /** The stack at the start of a group: one fresh node. */
  const OPEN: Stack := Stack(Some(Node(NOOP, [])), None)

  /** Once the first operator has left a node and a fresh condition, the node
      takes the conditions of all terms. */
  lemma AfterSep(st: St, op: NodeOp, cs: seq<Item>, err: bool, rest: Rest)
    requires rest != [] && op != NOOP
    requires SepSt(st, rest[0].0) == St(Stack(Some(Node(op, cs)), Some(FRESH)), err || OpOf(rest[0].0) != op)
    ensures var r := RestSt(st, rest);
            && AfterQuery(r.stack).node == Some(Node(op, cs + Conds(rest)))
            && (r.err <==> err || Mixed(op, rest) || exists i | 0 <= i < |rest| :: BadNumber(rest[i].1.atom.val))
  {
    hide SepSt, TermSt, Mixed, BadNumber, CondOf, OpOf, RestSt, Silent;
    var (s, t) := rest[0];
    var st1 := SepSt(st, s);
    TermBuild(st1, t);
    RestBuild(op, cs, CondOf(t), st1.err || BadNumber(t.atom.val), rest[1..]);
    RestStStep(st, rest);
    assert cs + [Cond(CondOf(t))] + Conds(rest[1..]) == cs + Conds(rest);
    RestErrors(op, rest);
  }

  lemma RestStStep(st: St, rest: Rest)
    requires rest != []
    ensures RestSt(st, rest) == RestSt(TermSt(SepSt(st, rest[0].0), rest[0].1), rest[1..])
  {
  }

  lemma RestStEnd(st: St, rest: Rest)
    requires rest == []
    ensures RestSt(st, rest) == st
  {
  }

  /** An operator after a silent term that has left no condition: without a node
      it makes one with an empty condition. */
  lemma SepNone(err: bool, s: Sep)
    ensures SepSt(St(EMPTY, err), s) == St(Stack(Some(Node(OpOf(s), [Cond(FRESH)])), None), err)
  {
  }

  lemma SepSilent(n: Node, err: bool, s: Sep)
    ensures var op := if n.op == NOOP then OpOf(s) else n.op;
            op != NOOP && SepSt(St(Stack(Some(n), None), err), s) == St(Stack(Some(n.(op := op)), Some(FRESH)), err || OpOf(s) != op)
  {
  }

  /** A list of terms behind a silent one, outside of parentheses. */
  lemma LostBuild(err: bool, rest: Rest)
    requires rest != []
    ensures var op := OpOf(rest[0].0); var r := RestSt(St(EMPTY, err), rest);
            && AfterQuery(r.stack).node == Some(Node(op, [Cond(FRESH)] + Lost(rest)))
            && (r.err <==> err || Mixed(op, rest) || exists i | 0 <= i < |rest| :: BadNumber(rest[i].1.atom.val))
  {
    hide TermSt, SepSt, BadNumber, CondOf, Mixed, RestSt, Silent, OpOf;
    var (sep, t) := rest[0];
    var op := OpOf(sep);
    var n := Node(op, [Cond(FRESH)]);
    SepNone(err, sep);
    OpIs(sep);
    TermBuild(St(Stack(Some(n), None), err), t);
    RestStStep(St(EMPTY, err), rest);
    RestErrors(op, rest);
    var bad := err || BadNumber(t.atom.val);
    if !Silent(t) {
      RestBuild(op, n.conds, CondOf(t), bad, rest[1..]);
      assert n.conds + [Cond(CondOf(t))] + Conds(rest[1..]) == n.conds + Conds(rest);
    } else if |rest| == 1 {
      RestStEnd(St(Stack(Some(n), None), bad), rest[1..]);
      assert AfterQuery(Stack(Some(n), None)).node == Some(n.(conds := [Cond(FRESH)] + [Missing]));
      NotMixed(op);
    } else {
      SepSilent(n, bad, rest[1].0);
      AfterSep(St(Stack(Some(n), None), bad), op, n.conds, bad, rest[1..]);
    }
  }

  lemma OpIs(s: Sep)
    ensures OpOf(s) != NOOP
  {
  }

  /** What one term leaves. */
  lemma OneTerm(first: Term)
    ensures QueryOf(FlatSt(START, first, []).stack) == QueryFor(first, [])
    ensures QueryOf(FlatSt(St(OPEN, false), first, []).stack) == GroupQueryFor(first, [])
    ensures FlatSt(START, first, []).err == FlatSt(St(OPEN, false), first, []).err == BadNumber(first.atom.val)
  {
    hide TermSt, BadNumber, CondOf;
    TermBuild(START, first);
    TermBuild(St(OPEN, false), first);
    assert [] + [Cond(CondOf(first))] == [Cond(CondOf(first))] + Conds([]) && [] + [Missing] == [Missing];
  }

  /** The main fact about the actions: a flat query builds one node with its
      conditions in the order of the text. */
  lemma FlatBuild(first: Term, rest: Rest)
    ensures var r := FlatSt(START, first, rest);
            QueryOf(r.stack) == QueryFor(first, rest) && (r.err <==> Rejected(first, rest))
  {
    hide TermSt, SepSt, BadNumber, CondOf, Mixed, RestSt, Silent;
    if rest == [] {
      OneTerm(first);
    } else {
      var bad, sep := BadNumber(first.atom.val), rest[0].0;
      TermBuild(START, first);
      OpIs(sep);
      if Silent(first) {
        SilentCond(first);
        LostBuild(bad, rest);
      } else {
        var c := CondOf(first);
        SepBuild(None, c, bad, sep);
        assert [] + [Cond(c)] == [Cond(c)];
        AfterSep(St(Stack(None, Some(c)), bad), OpOf(sep), [Cond(c)], bad, rest);
      }
    }
  }

  /** The same in parentheses. */
  lemma GroupBuild(first: Term, rest: Rest)
    ensures var r := FlatSt(St(OPEN, false), first, rest);
            QueryOf(r.stack) == GroupQueryFor(first, rest) && (r.err <==> Rejected(first, rest))
  {
    hide TermSt, SepSt, BadNumber, CondOf, Mixed, RestSt, Silent;
    if rest == [] {
      OneTerm(first);
    } else {
      var bad, sep := BadNumber(first.atom.val), rest[0].0;
      TermBuild(St(OPEN, false), first);
      OpIs(sep);
      if Silent(first) {
        SepSilent(Node(NOOP, []), bad, sep);
        AfterSep(St(OPEN, bad), OpOf(sep), [], bad, rest);
        assert [] + Conds(rest) == Conds(rest);
      } else {
        var c := CondOf(first);
        SepBuild(Some(Node(NOOP, [])), c, bad, sep);
        assert [] + [Cond(c)] == [Cond(c)];
        AfterSep(St(Stack(Some(Node(NOOP, [])), Some(c)), bad), OpOf(sep), [Cond(c)], bad, rest);
      }
    }
  }

  lemma SilentCond(t: Term)
    ensures Silent(t) ==> CondOf(t) == FRESH
  {
  }

  lemma InputParts(g: Grammar)
    requires Q(g)
    ensures Body(INPUT) == Act(OnInput, Seq([Opt(Ref(WS)), Ref(QUERY), Opt(Ref(WS)), Not(Any)]))
    ensures forall k | 0 <= k < 4 :: ExprOk(g, Body(INPUT).e.es[k])
  {
    assert RuleOk(g, INPUT);
    assert ExprOk(g, Body(INPUT).e);
  }

  /** `!.` matches only at the end. */
  lemma EndRun(g: Grammar, data: string, env: Env, st: St)
    requires Q(g)
    ensures var o := Run(g, data, Not(Any), |data|, env, st); o.ok && o.pos == |data| && o.env == env && o.st == st
  {
  }

  lemma NotAtEnd(g: Grammar, data: string, pos: nat)
    requires Q(g) && pos <= |data|
    ensures Rec(g, data, Not(Any), pos) == if pos == |data| then Some(pos) else None
  {
  }

  /** Around a query: optional whitespace on both sides, then the end. */
  lemma InputSeq(g: Grammar, data: string, lead: string, q: nat, tail: string, st: St, st1: St)
    requires Q(g) && GapAt(data, 0, lead) && !WsAt(data, |lead|)
    requires GapAt(data, q, tail) && q + |tail| == |data| && |lead| <= q
    requires var o := RunRule(g, data, QUERY, |lead|, st); o.ok && o.pos == q && o.st == st1
    ensures var o := RunRule(g, data, INPUT, 0, st);
            o.ok && o.pos == |data| && o.val == Value.Parsed(QueryOf(st1.stack)) && o.st == st1.(stack := AfterQuery(st1.stack))
  {
    InputParts(g);
    assert |lead| <= |data| && !WsAt(data, |data|);
    var es := Body(INPUT).e.es;
    hide Run, RunRule, RunSeq, Rec, RecRule, GapAt;
    OptWsRun(g, data, 0, lead, map[], st);
    OptWsRun(g, data, q, tail, map[], st1);
    EndRun(g, data, map[], st1);
    var v0 := Run(g, data, es[0], 0, map[], st).val;
    var v1 := RunRule(g, data, QUERY, |lead|, st).val;
    var v2 := Run(g, data, es[2], q, map[], st1).val;
    var v3 := Run(g, data, es[3], |data|, map[], st1).val;
    RunSeqStep(g, data, es, 0, 0, 0, [], map[], st);
    SeqRef(g, data, es, 1, QUERY, 0, |lead|, [] + [v0], map[], st);
    RunSeqStep(g, data, es, 2, 0, q, [] + [v0] + [v1], map[], st1);
    InputTail(g, data, es, [] + [v0] + [v1] + [v2], st1);
    InputAction(g, data, es, st, st1);
  }

  lemma InputTail(g: Grammar, data: string, es: seq<Expr>, vals: seq<Value>, st: St)
    requires Q(g) && |es| == 4 && es[3] == Not(Any) && forall k | 0 <= k < 4 :: ExprOk(g, es[k])
    ensures var o := RunSeq(g, data, es, 3, 0, |data|, vals, map[], st); o.ok && o.pos == |data| && o.st == st
  {
    hide Run, RunSeq, Rec;
    EndRun(g, data, map[], st);
    RunSeqStep(g, data, es, 3, 0, |data|, vals, map[], st);
    RunSeqEnd(g, data, es, 0, |data|, vals + [Run(g, data, es[3], |data|, map[], st).val], map[], st);
  }

  lemma InputAction(g: Grammar, data: string, es: seq<Expr>, st: St, st1: St)
    requires Q(g) && es == Body(INPUT).e.es && forall k | 0 <= k < |es| :: ExprOk(g, es[k])
    requires var o := RunSeq(g, data, es, 0, 0, 0, [], map[], st); o.ok && o.pos == |data| && o.st == st1
    ensures var o := RunRule(g, data, INPUT, 0, st);
            o.ok && o.pos == |data| && o.val == Value.Parsed(QueryOf(st1.stack)) && o.st == st1.(stack := AfterQuery(st1.stack))
  {
    hide Run, RunRule, RunSeq, Rec, RecRule;
    RunRuleIs(g, data, INPUT, 0, st);
    RunSeqIs(g, data, es, 0, map[], st);
    RunActIs(g, data, OnInput, Seq(es), 0, map[], st);
  }

  /** A flat query with optional whitespace around it. */
  predicate WholeText(data: string, lead: string, first: Term, rest: Rest, tail: string) {
    var q := |lead| + FlatLen(first, rest);
    GapAt(data, 0, lead) && FlatAt(data, |lead|, first, rest, tail) && GapAt(data, q, tail) && q + |tail| == |data|
  }

  lemma TermNotWs(data: string, pos: nat, t: Term)
    requires TermAt(data, pos, t)
    ensures pos < |data| && !WsAt(data, pos)
  {
    TermStart(data, pos, t);
    if !t.neg.Plain? { StartsChar(data, pos, NegText(t.neg), 0); }
  }

  /** The result of the parser for a text: None for every kind of error, which
      are no match, an error of an action and a malformed byte. */
  ghost function Built(g: Grammar, data: string): Option<Value>
    requires Q(g)
  {
    var o := RunRule(g, data, INPUT, 0, START);
    if o.ok && !o.st.err && ValidUtf8(data) then Some(o.val) else None
  }

  lemma BuiltIs(g: Grammar, data: string, q: Query, bad: bool)
    requires Q(g)
    requires var o := RunRule(g, data, INPUT, 0, START); o.ok && o.val == Value.Parsed(q) && o.st.err == bad
    ensures Built(g, data) == if bad || !ValidUtf8(data) then None else Some(Value.Parsed(q))
  {
  }

  /** Every parenthesis-free query denotes its conditions in the order of the
      text under the operator used; it is an error exactly when AND and OR are
      mixed, a number is malformed or too large, or the text is not UTF-8. Of a
      value without a field only the place and the negation are left. */
  lemma FlatQueryParses(g: Grammar, data: string, lead: string, first: Term, rest: Rest, tail: string)
    requires Q(g) && WholeText(data, lead, first, rest, tail)
    ensures Built(g, data) ==
            if Rejected(first, rest) || !ValidUtf8(data) then None else Some(Value.Parsed(QueryFor(first, rest)))
    ensures Built(g, data).Some? ==> AllGiven(first, rest)
  {
    hide RunRule, Built, WholeText, QueryFor, Rejected, ValidUtf8, AllGiven;
    if !Rejected(first, rest) { GoodGiven(first, rest); }
    FlatQueryRuns(g, data, lead, first, rest, tail);
    BuiltIs(g, data, QueryFor(first, rest), Rejected(first, rest));
  }

  lemma FlatQueryRuns(g: Grammar, data: string, lead: string, first: Term, rest: Rest, tail: string)
    requires Q(g) && WholeText(data, lead, first, rest, tail)
    ensures var o := RunRule(g, data, INPUT, 0, START);
            o.ok && o.val == Value.Parsed(QueryFor(first, rest)) && (o.st.err <==> Rejected(first, rest))
  {
    hide Run, RunRule, Rec, RecRule, FlatAt, WholeText, GapAt, FlatSt, FlatLen, QueryOf, QueryFor, Rejected, AfterQuery;
    BareParts(data, lead, first, rest, tail);
    ExprsRun(g, data, |lead|, first, rest, tail, START);
    InputSeq(g, data, lead, |lead| + FlatLen(first, rest), tail, START, FlatSt(START, first, rest));
    FlatBuild(first, rest);
  }

  lemma BareParts(data: string, lead: string, first: Term, rest: Rest, tail: string)
    requires WholeText(data, lead, first, rest, tail)
    ensures var q := |lead| + FlatLen(first, rest);
            && GapAt(data, 0, lead) && FlatAt(data, |lead|, first, rest, tail) && !WsAt(data, |lead|)
            && GapAt(data, q, tail) && q + |tail| == |data|
  {
    hide RestAt;
    TermNotWs(data, |lead|, first);
  }

  /** The same term, but for what is written where there is no field. */
  predicate Alike(t: Term, u: Term) {
    t.neg.Plain? == u.neg.Plain? && if t.atom.Bare? then u.atom.Bare? else u.atom == t.atom
  }

  predicate AlikeAll(rest: Rest, other: Rest) {
    |rest| == |other|
    && forall i | 0 <= i < |rest| :: OpOf(rest[i].0) == OpOf(other[i].0) && Alike(rest[i].1, other[i].1)
  }

  lemma {:induction false} AlikeConds(rest: Rest, other: Rest)
    requires AlikeAll(rest, other)
    ensures Conds(rest) == Conds(other)
  {
    hide OpOf;
    if rest != [] {
      assert AlikeAll(rest[1..], other[1..]) by {
        forall i | 0 <= i < |rest| - 1
          ensures OpOf(rest[1..][i].0) == OpOf(other[1..][i].0) && Alike(rest[1..][i].1, other[1..][i].1)
        {
          assert rest[1..][i] == rest[i + 1] && other[1..][i] == other[i + 1];
        }
      }
      AlikeConds(rest[1..], other[1..]);
    }
  }

  lemma AlikeQuery(first: Term, rest: Rest, first': Term, rest': Rest)
    requires Alike(first, first') && AlikeAll(rest, rest')
    ensures QueryFor(first, rest) == QueryFor(first', rest')
  {
    hide OpOf, Conds;
    AlikeConds(rest, rest');
    if |rest| > 1 {
      assert AlikeAll(rest[1..], rest'[1..]) by {
        forall i | 0 <= i < |rest| - 1
          ensures OpOf(rest[1..][i].0) == OpOf(rest'[1..][i].0) && Alike(rest[1..][i].1, rest'[1..][i].1)
        {
          assert rest[1..][i] == rest[i + 1] && rest'[1..][i] == rest'[i + 1];
        }
      }
      AlikeConds(rest[1..], rest'[1..]);
    }
  }

  /** The words, phrases and numbers that stand without a field are forgotten:
      texts that differ in nothing else give the same query. */
  lemma BareForgotten(g: Grammar, data: string, lead: string, first: Term, rest: Rest, tail: string,
                      data': string, lead': string, first': Term, rest': Rest, tail': string)
    requires Q(g) && WholeText(data, lead, first, rest, tail) && WholeText(data', lead', first', rest', tail')
    requires Alike(first, first') && AlikeAll(rest, rest') && Built(g, data).Some? && Built(g, data').Some?
    ensures Built(g, data) == Built(g, data')
  {
    hide Built, WholeText, QueryFor, Rejected, ValidUtf8, Alike, AlikeAll, AllGiven;
    FlatQueryParses(g, data, lead, first, rest, tail);
    FlatQueryParses(g, data', lead', first', rest', tail');
    AlikeQuery(first, rest, first', rest');
  }
}
