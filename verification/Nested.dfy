/** Queries with groups within groups: what the parser does with any of them,
    and what becomes of the conditions and the groups. */
module NestedQueries {
  import opened Wrappers
  import opened Utf8
  import opened Peg
  import opened QueryAst
  import opened NodeStacks
  import opened QueryRun
  import opened QueryGrammar
  import opened Texts
  import opened Tokens
  import opened Terms
  import opened Pairs
  import opened FlatQueries
  import opened FlatRuns
  import opened QueryParse
  import opened GroupParse

  /** A term, or expressions in parentheses, perhaps with a negation in front. */
  datatype Elem = One(t: Term) | Group(neg: Neg, open: string, body: Exprs, close: string)

  datatype Exprs = Exprs(first: Elem, rest: seq<(Sep, Elem)>)

  function ElemLen(e: Elem): nat
    decreases e
  {
    match e
    case One(t) => TermLen(t)
    case Group(neg, open, body, close) => NegLen(neg) + 1 + |open| + ExprsLen(body) + |close| + 1
  }

  function ExprsLen(q: Exprs): nat
    decreases q
  {
    ElemLen(q.first) + MoreLen(q, 0)
  }

  function MoreLen(q: Exprs, i: nat): nat
    requires i <= |q.rest|
    decreases q, 0, |q.rest| - i
  {
    if i == |q.rest| then 0 else SepLen(q.rest[i].0) + ElemLen(q.rest[i].1) + MoreLen(q, i + 1)
  }

  predicate CloseAt(data: string, pos: nat) {
    pos < |data| && data[pos] == ')'
  }

  predicate ElemAt(data: string, pos: nat, e: Elem)
    decreases e
  {
    match e
    case One(t) => TermAt(data, pos, t)
    case Group(neg, open, body, close) =>
      var p := pos + NegLen(neg);
      var a := p + 1 + |open|;
      && NegAt(data, pos, neg) && ParenAt(data, p) && GapAt(data, p + 1, open)
      && ExprsAt(data, a, body, close) && CloseAt(data, a + ExprsLen(body) + |close|)
  }

  /** Expressions under operators, then the end: whitespace and a closing
      parenthesis or the end of the text. */
  predicate ExprsAt(data: string, pos: nat, q: Exprs, tail: string)
    decreases q
  {
    ElemAt(data, pos, q.first) && MoreAt(data, pos + ElemLen(q.first), q, 0, tail)
  }

  predicate MoreAt(data: string, pos: nat, q: Exprs, i: nat, tail: string)
    requires i <= |q.rest|
    decreases q, 0, |q.rest| - i
  {
    if i == |q.rest| then EndAt(data, pos, tail)
    else
      var p := pos + SepLen(q.rest[i].0);
      SepAt(data, pos, q.rest[i].0) && ElemAt(data, p, q.rest[i].1)
      && MoreAt(data, p + ElemLen(q.rest[i].1), q, i + 1, tail)
  }

  /** What the actions do, in the order of the text: a closing parenthesis does
      nothing. */
  function ElemSt(st: St, e: Elem): St
    decreases e
  {
    match e
    case One(t) => TermSt(st, t)
    case Group(neg, _, body, _) => ExprsSt(Opened(st, neg), body)
  }

  function ExprsSt(st: St, q: Exprs): St
    decreases q
  {
    MoreSt(ElemSt(st, q.first), q, 0)
  }

  function MoreSt(st: St, q: Exprs, i: nat): St
    requires i <= |q.rest|
    decreases q, 0, |q.rest| - i
  {
    if i == |q.rest| then st else MoreSt(ElemSt(SepSt(st, q.rest[i].0), q.rest[i].1), q, i + 1)
  }

  lemma {:induction false} ElemRun(g: Grammar, data: string, pos: nat, e: Elem, st: St)
    requires Q(g) && ElemAt(data, pos, e)
    ensures pos <= |data| && !WsAt(data, pos)
    ensures var o := RunRule(g, data, EXPR, pos, st); o.ok && o.pos == pos + ElemLen(e) && o.st == ElemSt(st, e)
    decreases e
  {
    hide RunRule, RecRule, TermAt, TermSt, TermLen, GapAt, WsAt, NegAt, NegLen, Opened, ExprsSt, ExprsLen, ExprsAt, ParenAt, Q;
    match e {
      case One(t) =>
        TermNotWs(data, pos, t);
        ExprRun(g, data, pos, t, st);
      case Group(neg, open, body, close) =>
        var b := pos + NegLen(neg) + 1;
        var a := b + |open|;
        var st0 := Opened(st, neg);
        OpenRun(g, data, pos, neg, st);
        ExprsRun(g, data, a, body, close, st0);
        CloseIs(data, a + ExprsLen(body) + |close|);
        SuffixRun(g, data, b, open, a + ExprsLen(body), close, st0, ExprsSt(st0, body));
        GroupSeq(g, data, pos, b, a + ExprsLen(body) + |close| + 1, st, st0, ExprsSt(st0, body));
    }
  }

  lemma CloseIs(data: string, pos: nat)
    requires CloseAt(data, pos)
    ensures pos < |data| && data[pos] == ')' && !WsAt(data, pos)
  {
  }

  lemma {:induction false} ExprsRun(g: Grammar, data: string, pos: nat, q: Exprs, tail: string, st: St)
    requires Q(g) && ExprsAt(data, pos, q, tail)
    ensures pos <= |data| && !WsAt(data, pos) && GapAt(data, pos + ExprsLen(q), tail)
    ensures var o := RunRule(g, data, QUERY, pos, st); o.ok && o.pos == pos + ExprsLen(q) && o.st == ExprsSt(st, q)
    decreases q
  {
    hide RunRule, RecRule, RunStar, RecStar, ElemAt, ElemLen, ElemSt, MoreAt, MoreLen, MoreSt, ExprOk, Nullable, WsAt, GapAt;
    ElemRun(g, data, pos, q.first, st);
    var x := RunRule(g, data, EXPR, pos, st);
    MoreExprs(g, data, x.pos, q, 0, tail, [], map[], x.st);
    ExprsSeq(g, data, pos, st);
  }

  lemma {:induction false} MoreExprs(g: Grammar, data: string, pos: nat, q: Exprs, i: nat, tail: string,
                                     vals: seq<Value>, env: Env, st: St)
    requires Q(g) && i <= |q.rest| && MoreAt(data, pos, q, i, tail)
    ensures ExprOk(g, MORE) && !Nullable(g, MORE) && pos <= |data| && GapAt(data, pos + MoreLen(q, i), tail)
    ensures var o := RunStar(g, data, MORE, pos, vals, env, st);
            o.ok && o.pos == pos + MoreLen(q, i) && o.st == MoreSt(st, q, i)
    decreases q, 0, |q.rest| - i
  {
    hide Run, Rec, RunStar, RecStar, ExprOk, Nullable, SepAt, ElemAt, SepLen, ElemLen, SepSt, ElemSt, GapAt;
    MoreOk(g);
    if i == |q.rest| {
      MoreFails(g, data, pos, tail, st);
      StarStep(g, data, pos, vals, env, st);
    } else {
      var (s, e) := q.rest[i];
      ElemRun(g, data, pos + SepLen(s), e, SepSt(st, s));
      MoreElem(g, data, pos, s, st);
      var o := Run(g, data, MORE, pos, map[], st);
      StarStep(g, data, pos, vals, env, st);
      MoreExprs(g, data, o.pos, q, i + 1, tail, vals + [o.val], env, o.st);
    }
  }

  /** One more operator and expression. */
  lemma MoreElem(g: Grammar, data: string, pos: nat, s: Sep, st: St)
    requires Q(g) && SepAt(data, pos, s) && RunRule(g, data, EXPR, pos + SepLen(s), SepSt(st, s)).ok
    ensures ExprOk(g, MORE) && pos <= |data|
    ensures var o, x := Run(g, data, MORE, pos, map[], st), RunRule(g, data, EXPR, pos + SepLen(s), SepSt(st, s));
            o.ok && o.pos == x.pos && o.st == x.st
  {
    hide GapAt, StartsAt, WsAt, SepAt, SepSt, SepTok, Run, RunRule, Rec, RecRule;
    SepParts(data, pos, s);
    var p := pos + |s.before|;
    var q := p + |SepTok(s)|;
    WsRun(g, data, pos, s.before, st);
    SepTokenRun(g, data, p, s, st);
    WsRun(g, data, q, s.after, SepSt(st, s));
    MoreSeq(g, data, pos, p, q, pos + SepLen(s), st, SepSt(st, s));
  }

  predicate NestedText(data: string, lead: string, q: Exprs, tail: string) {
    GapAt(data, 0, lead) && ExprsAt(data, |lead|, q, tail) && |lead| + ExprsLen(q) + |tail| == |data|
  }

  /** Every query, however deep its groups, is parsed to what the actions build
      in the order of the text. */
  lemma NestedParses(g: Grammar, data: string, lead: string, q: Exprs, tail: string)
    requires Q(g) && NestedText(data, lead, q, tail)
    ensures Built(g, data) == if ExprsSt(START, q).err || !ValidUtf8(data) then None
                              else Some(Value.Parsed(QueryOf(ExprsSt(START, q).stack)))
  {
    hide RunRule, RecRule, Built, GapAt, WsAt, ExprsAt, ExprsLen, ExprsSt, ValidUtf8, QueryOf, AfterQuery, Q;
    var st := ExprsSt(START, q);
    ExprsRun(g, data, |lead|, q, tail, START);
    InputSeq(g, data, lead, |lead| + ExprsLen(q), tail, START, st);
    BuiltIs(g, data, QueryOf(st.stack), st.err);
  }

  /** Every term has a field or a negation, and so leaves a condition. */
  predicate Loud(e: Elem)
    decreases e
  {
    match e
    case One(t) => !Silent(t)
    case Group(_, _, body, _) => AllLoud(body)
  }

  predicate AllLoud(q: Exprs)
    decreases q
  {
    Loud(q.first) && forall i | 0 <= i < |q.rest| :: Loud(q.rest[i].1)
  }

  /** The conditions in the order of the text. An operator promises a condition
      (`due`); a plain group that follows it instead leaves that one empty. */
  function Written(e: Elem, due: bool): seq<Condition>
    decreases e
  {
    match e
    case One(t) => [CondOf(t)]
    case Group(neg, _, body, _) =>
      if due && neg.Plain? then [FRESH] + AllWritten(body, false) else AllWritten(body, due)
  }

  function AllWritten(q: Exprs, due: bool): seq<Condition>
    decreases q
  {
    Written(q.first, due) + MoreWritten(q, 0)
  }

  function MoreWritten(q: Exprs, i: nat): seq<Condition>
    requires i <= |q.rest|
    decreases q, 0, |q.rest| - i
  {
    if i == |q.rest| then [] else Written(q.rest[i].1, true) + MoreWritten(q, i + 1)
  }

  /** The finished conditions of a stack. */
  function Done(s: Stack): seq<Condition> {
    if s.node.Some? then LeavesFrom(s.node.value, 0) else []
  }

  function Pending(due: bool): Option<Condition> {
    if due then Some(FRESH) else None
  }

  /** An operator finishes the current condition and makes the next one due. */
  lemma SepKeeps(st: St, s: Sep)
    requires st.stack.cond.Some?
    ensures var r := SepSt(st, s).stack; r.cond == Pending(true) && Done(r) == StackLeaves(st.stack) && r.node.Some?
  {
    hide LeavesFrom;
    var s0, s1 := st.stack, WithNewCondition(st.stack);
    StackKeeps(s0);
    if s0.node.None? { OneLeaf(NOOP, Cond(s0.cond.value)); }
    assert s1.cond == Some(FRESH) && s1.node.Some?;
    assert StackLeaves(s1) == Done(s1) + [FRESH];
    assert Done(s1) == StackLeaves(s0) by { Dropped(Done(s1), StackLeaves(s0), FRESH); }
    SameLeaves(s1.node.value, OpOf(s), 0);
  }

  lemma Dropped(x: seq<Condition>, y: seq<Condition>, c: Condition)
    requires x + [c] == y + [c]
    ensures x == y
  {
    assert x == (x + [c])[..|x + [c]| - 1] && y == (y + [c])[..|y + [c]| - 1];
  }

  lemma {:induction false} SameLeaves(n: Node, op: NodeOp, i: nat)
    requires i <= |n.conds|
    ensures LeavesFrom(n.(op := op), i) == LeavesFrom(n, i)
    decreases |n.conds| - i
  {
    if i < |n.conds| { SameLeaves(n, op, i + 1); }
  }

  /** A term gives the due condition, or makes one. */
  lemma TermKeeps(st: St, t: Term, due: bool)
    requires st.stack.cond == Pending(due) && !Silent(t)
    ensures var r := TermSt(st, t).stack; r.cond == Some(CondOf(t)) && Done(r) == Done(st.stack)
  {
    hide TermSt, CondOf, Silent, LeavesFrom;
    TermBuild(st, t);
  }

  /** The opening of a group. */
  lemma OpenKeeps(st: St, neg: Neg, due: bool)
    requires st.stack.cond == Pending(due) && (due ==> st.stack.node.Some?)
    ensures var r := Opened(st, neg).stack; var d := due && !neg.Plain?;
            r.cond == Pending(d) && Done(r) == Done(st.stack) + (if due && neg.Plain? then [FRESH] else [])
            && r.node.Some?
  {
    hide LeavesFrom;
    StackKeeps(st.stack);
    assert Done(st.stack) + [] == Done(st.stack);
    OneLeaf(NOOP, Missing);
  }

  lemma {:induction false} ElemKeeps(st: St, e: Elem, due: bool)
    requires st.stack.cond == Pending(due) && (due ==> st.stack.node.Some?) && Loud(e)
    ensures var r := ElemSt(st, e).stack; r.cond.Some? && StackLeaves(r) == Done(st.stack) + Written(e, due)
    decreases e
  {
    hide LeavesFrom, Done, TermSt, Opened, CondOf, Silent, ExprsSt, AllWritten, AllLoud;
    match e {
      case One(t) =>
        TermKeeps(st, t, due);
        LeavesIs(TermSt(st, t).stack);
      case Group(neg, _, body, _) =>
        OpenKeeps(st, neg, due);
        ExprsKeep(Opened(st, neg), body, due && !neg.Plain?);
        assert Done(st.stack) + [FRESH] + AllWritten(body, false) == Done(st.stack) + ([FRESH] + AllWritten(body, false));
        assert Done(st.stack) + [] + AllWritten(body, due) == Done(st.stack) + AllWritten(body, due);
    }
  }

  lemma LeavesIs(s: Stack)
    requires s.cond.Some?
    ensures StackLeaves(s) == Done(s) + [s.cond.value]
  {
  }

  lemma {:induction false} ExprsKeep(st: St, q: Exprs, due: bool)
    requires st.stack.cond == Pending(due) && (due ==> st.stack.node.Some?) && AllLoud(q)
    ensures var r := ExprsSt(st, q).stack; r.cond.Some? && StackLeaves(r) == Done(st.stack) + AllWritten(q, due)
    decreases q
  {
    hide LeavesFrom, Done, ElemSt, MoreSt, Written, MoreWritten, Loud;
    ElemKeeps(st, q.first, due);
    MoreKeep(ElemSt(st, q.first), q, 0);
    assert Done(st.stack) + Written(q.first, due) + MoreWritten(q, 0) == Done(st.stack) + (Written(q.first, due) + MoreWritten(q, 0));
  }

  lemma {:induction false} MoreKeep(st: St, q: Exprs, i: nat)
    requires st.stack.cond.Some? && i <= |q.rest| && forall k | 0 <= k < |q.rest| :: Loud(q.rest[k].1)
    ensures var r := MoreSt(st, q, i).stack; r.cond.Some? && StackLeaves(r) == StackLeaves(st.stack) + MoreWritten(q, i)
    decreases q, 0, |q.rest| - i
  {
    hide LeavesFrom, Done, ElemSt, SepSt, Written, Loud, StackLeaves;
    if i == |q.rest| {
      assert StackLeaves(st.stack) + [] == StackLeaves(st.stack);
    } else {
      var (s, e) := q.rest[i];
      var st1 := SepSt(st, s);
      SepKeeps(st, s);
      ElemKeeps(st1, e, true);
      MoreKeep(ElemSt(st1, e), q, i + 1);
      assert StackLeaves(st.stack) + Written(e, true) + MoreWritten(q, i + 1)
          == StackLeaves(st.stack) + (Written(e, true) + MoreWritten(q, i + 1));
    }
  }

  /** No condition of a query is lost, made up or moved, whatever its groups,
      except for an empty one in front of each plain group behind an operator. */
  lemma NestedKeeps(g: Grammar, data: string, lead: string, q: Exprs, tail: string)
    requires Q(g) && NestedText(data, lead, q, tail) && AllLoud(q) && Built(g, data).Some?
    ensures Built(g, data).value.Parsed? && Leaves(Built(g, data).value.q.cond) == AllWritten(q, false)
  {
    hide Built, NestedText, LeavesFrom, Leaves, StackLeaves, ExprsSt, AllWritten, AllLoud, QueryOf, ValidUtf8;
    NestedParses(g, data, lead, q, tail);
    ExprsKeep(START, q, false);
    assert Done(START.stack) == [];
    assert [] + AllWritten(q, false) == AllWritten(q, false);
    StackKeeps(ExprsSt(START, q).stack);
  }

  /** Only terms. */
  predicate Flat(q: Exprs) {
    q.first.One? && forall i | 0 <= i < |q.rest| :: q.rest[i].1.One?
  }

  predicate Grown(n: Option<Node>, m: Option<Node>) {
    n.Some? ==> m.Some? && n.value.conds <= m.value.conds
  }

  lemma TermGrows(st: St, t: Term)
    ensures TermSt(st, t).stack.node == st.stack.node || Grown(st.stack.node, TermSt(st, t).stack.node)
  {
  }

  lemma SepGrows(st: St, s: Sep)
    ensures Grown(st.stack.node, SepSt(st, s).stack.node)
  {
  }

  lemma {:induction false} MoreGrows(st: St, q: Exprs, i: nat)
    requires i <= |q.rest| && Flat(q)
    ensures Grown(st.stack.node, MoreSt(st, q, i).stack.node)
    decreases |q.rest| - i
  {
    hide TermSt, SepSt;
    if i < |q.rest| {
      var (s, e) := q.rest[i];
      SepGrows(st, s);
      TermGrows(SepSt(st, s), e.t);
      MoreGrows(ElemSt(SepSt(st, s), e), q, i + 1);
    }
  }

  /** A group inside a query does not become a node of its own: a plain one puts
      everything in front of it into a node, before its own conditions, and a
      negated one adds its conditions to the node in front of it. */
  lemma GroupPlace(st: St, e: Elem)
    requires e.Group? && Flat(e.body) && st.stack.node.Some?
    ensures var n, r := st.stack.node.value, ElemSt(st, e).stack.node;
            && r.Some?
            && (if e.neg.Plain? then r.value.conds != [] && r.value.conds[0] == Sub(Appended(n, st.stack.cond))
                else n.conds <= r.value.conds)
  {
    hide TermSt, SepSt, Appended;
    var st0 := Opened(st, e.neg);
    TermGrows(st0, e.body.first.t);
    MoreGrows(ElemSt(st0, e.body.first), e.body, 0);
  }

  /** `term op (terms)`: the node of the query starts with a node of the term and
      an empty condition, or if the group is negated with the term itself. */
  lemma GroupAfterTerm(g: Grammar, data: string, lead: string, t: Term, s: Sep, e: Elem, tail: string)
    requires Q(g) && e.Group? && Flat(e.body) && !Silent(t)
    requires NestedText(data, lead, Exprs(One(t), [(s, e)]), tail) && Built(g, data).Some?
    ensures var v := Built(g, data).value;
            && v.Parsed? && v.q.cond.Sub? && v.q.cond.n.conds != []
            && v.q.cond.n.conds[0] == if e.neg.Plain? then Sub(Node(OpOf(s), [Cond(CondOf(t)), Cond(FRESH)])) else Cond(CondOf(t))
  {
    hide Built, NestedText, ElemSt, CondOf, Silent, ValidUtf8, Flat, TermSt, SepSt, OpOf;
    var q := Exprs(One(t), [(s, e)]);
    NestedParses(g, data, lead, q, tail);
    TermThenGroup(START, t, s, e);
    TermBuild(START, t);
    var c := CondOf(t);
    var st1 := SepSt(TermSt(START, t), s);
    SepBuild(None, c, TermSt(START, t).err, s);
    assert [] + [Cond(c)] == [Cond(c)];
    assert Appended(Node(OpOf(s), [Cond(c)]), Some(FRESH)) == Node(OpOf(s), [Cond(c), Cond(FRESH)]);
    GroupPlace(st1, e);
  }

  lemma TermThenGroup(st: St, t: Term, s: Sep, e: Elem)
    ensures ExprsSt(st, Exprs(One(t), [(s, e)])) == ElemSt(SepSt(TermSt(st, t), s), e)
  {
    var q := Exprs(One(t), [(s, e)]);
    assert MoreSt(ElemSt(st, q.first), q, 0) == MoreSt(ElemSt(SepSt(ElemSt(st, q.first), s), e), q, 1);
  }
}
