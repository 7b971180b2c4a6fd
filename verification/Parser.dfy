/** The parser object: a position, a label stack, an optional memo table and
    the global node stack, interpreting a grammar expression by expression. */
module Parsers {
  import opened Wrappers
  import opened Utf8
  import opened Peg
  import opened QueryAst
  import opened NodeStacks
  import opened QueryRun
  import opened Decimal

  datatype Savepoint = Savepoint(offset: nat, rn: nat, w: nat)

  datatype MemoKey = RuleKey(r: RuleId) | ExprKey(e: Expr)

  datatype Entry = Entry(val: Value, ok: bool, end: Savepoint)

  ghost predicate At(data: string, p: Savepoint) {
    p.offset <= |data| && Rune(p.rn, p.w) == DecodeRune(data, p.offset)
  }

  predicate KeyOk(g: Grammar, key: MemoKey) {
    WellFormed(g) && if key.RuleKey? then key.r < |g.rules| else ExprOk(g, key.e)
  }

  /** What re-parsing a memoised node at `pos` would recognize. */
  function RecKey(g: Grammar, data: string, key: MemoKey, pos: nat): Option<nat>
    requires KeyOk(g, key) && pos <= |data|
  {
    match key
    case RuleKey(r) => RecRule(g, data, r, pos)
    case ExprKey(e) => Rec(g, data, e, pos)
  }

  ghost predicate EntryOk(g: Grammar, data: string, pos: nat, key: MemoKey, en: Entry) {
    && pos <= |data| && KeyOk(g, key) && At(data, en.end)
    && Agrees(Out(en.ok, en.end.offset, en.val, map[], St(EMPTY, false)), RecKey(g, data, key, pos), pos)
  }

  class Parser {
    const g: Grammar
    const data: string
    const memoize: bool
    const stack: NodeStack
    var pt: Savepoint
    var memo: map<(nat, MemoKey), Entry>
    var vstack: seq<Env>
    var failed: bool
    var badEncoding: bool
    ghost var far: nat

    ghost predicate Valid()
      reads this
    {
      && WellFormed(g)
      && At(data, pt)
      && pt.offset <= far <= |data|
      && Reaches(data, 0, pt.offset) && Reaches(data, 0, far)
      && badEncoding == !CleanTo(data, 0, far)
      && forall k | k in memo :: EntryOk(g, data, k.0, k.1, memo[k])
                                 && memo[k].end.offset <= far && Reaches(data, 0, memo[k].end.offset)
    }

    function Top(): Env
      reads this
      requires vstack != []
    {
      vstack[|vstack| - 1]
    }

    function Under(): seq<Env>
      reads this
      requires vstack != []
    {
      vstack[..|vstack| - 1]
    }

    function State(): St
      reads this, stack
    {
      St(stack.View(), failed)
    }

    constructor (g: Grammar, data: string, memoize: bool, stack: NodeStack)
      requires WellFormed(g)
      ensures Valid() && this.g == g && this.data == data && this.memoize == memoize && this.stack == stack
      ensures pt.offset == 0 && vstack == [] && !failed && memo == map[]
    {
      this.g, this.data, this.memoize, this.stack := g, data, memoize, stack;
      memo, vstack, failed := map[], [], false;
      var d := DecodeRune(data, 0);
      pt := Savepoint(0, d.rn, d.w);
      far := 0;
      badEncoding := d.rn == RUNE_ERROR && d.w == 1;
      new;
      assert CleanTo(data, 0, 0) == !Malformed(data, 0);
    }

    /** Advances to the next code point. */
    method Read()
      requires Valid()
      modifies this`pt, this`badEncoding, this`far
      ensures Valid() && pt.offset == old(pt.offset + pt.w) && far >= old(far)
    {
      var next := pt.offset + pt.w;
      var d := DecodeRune(data, next);
      ReachesNext(data, 0, pt.offset);
      if pt.offset < far { NoJump(data, 0, pt.offset, far); }
      if next <= far && !badEncoding { CleanMono(data, 0, next, far); }
      CleanStep(data, 0, pt.offset);
      pt := Savepoint(next, d.rn, d.w);
      if d.rn == RUNE_ERROR && d.w == 1 {
        badEncoding := true;
      }
      far := if far < next then next else far;
    }

    method Restore(p: Savepoint)
      requires Valid() && At(data, p) && p.offset <= far && Reaches(data, 0, p.offset)
      modifies this`pt
      ensures Valid() && pt.offset == p.offset
    {
      if p.offset == pt.offset {
        return;
      }
      pt := p;
    }

    method PushV()
      modifies this`vstack
      ensures vstack == old(vstack) + [map[]]
    {
      vstack := vstack + [map[]];
    }

    method PopV()
      requires vstack != []
      modifies this`vstack
      ensures vstack == old(vstack)[..|old(vstack)| - 1]
    {
      vstack := vstack[..|vstack| - 1];
    }

    /** The frame of every parse method: the position moves as recognition
        predicts, and only the top label set may change. */
    twostate predicate Parsed(ok: bool, val: Value, r: Option<nat>)
      requires old(vstack) != []
      reads this, stack
    {
      && Valid()
      && |vstack| == |old(vstack)| && Under() == old(Under())
      && Agrees(Out(ok, pt.offset, val, map[], St(EMPTY, false)), r, old(pt.offset))
      && far >= old(far)
    }

    function Outcome(ok: bool, val: Value): Out
      reads this, stack
      requires vstack != []
    {
      Out(ok, pt.offset, val, Top(), State())
    }

    method GetMemoized(key: MemoKey) returns (res: Entry, hit: bool)
      ensures hit == ((pt.offset, key) in memo)
      ensures hit ==> res == memo[(pt.offset, key)]
    {
      hit := (pt.offset, key) in memo;
      res := if hit then memo[(pt.offset, key)] else Entry(NoValue, false, pt);
    }

    method SetMemoized(p: Savepoint, key: MemoKey, entry: Entry)
      requires Valid() && EntryOk(g, data, p.offset, key, entry)
      requires entry.end.offset <= far && Reaches(data, 0, entry.end.offset)
      modifies this`memo
      ensures Valid()
    {
      memo := memo[(p.offset, key) := entry];
    }

    /** Runs a semantic action on the node stack. */
    method RunAction(a: Action, text: string, env: Env) returns (val: Value)
      modifies this`failed, stack
      ensures (val, State()) == Effect(a, text, env, old(State()))
    {
      match a {
        case OnInput =>
          var q := stack.Query();
          val := Value.Parsed(q);
        case OnOr => val := RunOperator(OROP, ANDOP);
        case OnAnd => val := RunOperator(ANDOP, OROP);
        case OnNotCheck =>
          var c := stack.CurrentCondition();
          stack.currentCondition := Some(c.(invert := true));
          val := NoValue;
        case OnGroupStart =>
          stack.NewNode();
          val := Pointer;
        case OnNotGroupStart =>
          var n := stack.CurrentNode();
          val := Pointer;
        case OnKeyValue =>
          var c := stack.CurrentCondition();
          var k := Get(env, "k");
          if k.Str? {
            stack.currentCondition := Some(c.(field := k.s, value := Get(env, "v")));
            val := Pointer;
          } else {
            failed := true;
            val := NoValue;
          }
        case OnText => val := Str(text);
        case OnNumber =>
          var f := ParseFloat(text);
          if f.None? { failed := true; }
          val := Float(if f.Some? then f.value else 0.0);
        case OnField(name) => val := Get(env, name);
        case OnGE => val := RunComparison(GE);
        case OnLE => val := RunComparison(LE);
        case OnGT => val := RunComparison(GT);
        case OnLT => val := RunComparison(LT);
        case OnNE => val := RunComparison(NE);
        case OnEQ => val := RunComparison(EQ);
      }
    }

    method RunOperator(op: NodeOp, other: NodeOp) returns (val: Value)
      modifies this`failed, stack
      ensures (val, State()) == Operated(old(State()), op, other)
    {
      stack.NewCondition();
      var n := stack.CurrentNode();
      if n.op == other {
        failed := true;
        return NoValue;
      }
      stack.currentNode := Some(n.(op := op));
      val := Pointer;
    }

    method RunComparison(op: FieldOp) returns (val: Value)
      modifies this`failed, stack
      ensures (val, State()) == Compared(old(State()), op)
    {
      var c := stack.CurrentCondition();
      stack.currentCondition := Some(c.(op := op));
      val := Pointer;
    }

    method ParseAnyMatcher() returns (val: Value, ok: bool)
      requires Valid() && vstack != []
      modifies this, stack
      ensures Parsed(ok, val, Rec(g, data, Any, old(pt.offset))) && memo == old(memo)
      ensures Outcome(ok, val) == Run(g, data, Any, old(pt.offset), old(Top()), old(State()))
    {
      if pt.rn == RUNE_ERROR && pt.w == 0 {
        return NoValue, false;
      }
      var start := pt;
      Read();
      return Raw(data[start.offset..pt.offset]), true;
    }

    method ParseCharClassMatcher(e: Expr) returns (val: Value, ok: bool)
      requires Valid() && vstack != [] && e.Class?
      modifies this, stack
      ensures Parsed(ok, val, Rec(g, data, e, old(pt.offset))) && memo == old(memo)
      ensures Outcome(ok, val) == Run(g, data, e, old(pt.offset), old(Top()), old(State()))
    {
      hide EntryOk, Reaches, CleanTo, WellFormed;
      var cur, start := pt.rn, pt;
      if cur == RUNE_ERROR && pt.w == 0 {
        return NoValue, false;
      }
      for i := 0 to |e.chars|
        invariant forall k | 0 <= k < i :: e.chars[k] as int != cur
      {
        if e.chars[i] as int == cur {
          assert InChars(e.chars, cur);
          if e.inverted {
            return NoValue, false;
          }
          Read();
          return Raw(data[start.offset..pt.offset]), true;
        }
      }
      for i := 0 to |e.ranges|
        invariant forall k | 0 <= k < i :: !(e.ranges[k].0 as int <= cur <= e.ranges[k].1 as int)
      {
        if e.ranges[i].0 as int <= cur && cur <= e.ranges[i].1 as int {
          assert InRanges(e.ranges, cur);
          if e.inverted {
            return NoValue, false;
          }
          Read();
          return Raw(data[start.offset..pt.offset]), true;
        }
      }
      if e.inverted {
        Read();
        return Raw(data[start.offset..pt.offset]), true;
      }
      return NoValue, false;
    }

    method ParseLitMatcher(text: string) returns (val: Value, ok: bool)
      requires Valid() && vstack != []
      modifies this, stack
      ensures Parsed(ok, val, Rec(g, data, Lit(text), old(pt.offset))) && memo == old(memo)
      ensures Outcome(ok, val) == Run(g, data, Lit(text), old(pt.offset), old(Top()), old(State()))
    {
      var start := pt;
      for k := 0 to |text|
        invariant Valid() && far >= old(far) && start.offset <= pt.offset
        invariant vstack == old(vstack) && State() == old(State()) && memo == old(memo)
        invariant MatchLit(data, text, 0, start.offset) == MatchLit(data, text, k, pt.offset)
      {
        if pt.rn != text[k] as int {
          Restore(start);
          return NoValue, false;
        }
        Read();
      }
      return Raw(data[start.offset..pt.offset]), true;
    }

    method ParseRule(r: RuleId) returns (val: Value, ok: bool)
      requires Valid() && vstack != [] && r < |g.rules|
      modifies this, stack
      ensures Parsed(ok, val, RecRule(g, data, r, old(pt.offset)))
      ensures Top() == old(Top())
      ensures !memoize ==> Outcome(ok, val) == RunRule(g, data, r, old(pt.offset), old(State())).(env := Top())
      decreases |data| - pt.offset, g.rank[r], g.rules[r], 6
    {
      hide Run, Rec, RunRule, RecRule, CleanTo, WellFormed, Reaches, Malformed, DecodeRune;
      if memoize {
        var res, hit := GetMemoized(RuleKey(r));
        if hit {
          Restore(res.end);
          return res.val, res.ok;
        }
      }
      var start := pt;
      val, ok := ParseRuleBody(r);
      if memoize {
        SetMemoized(start, RuleKey(r), Entry(val, ok, pt));
      }
    }

    method ParseRuleBody(r: RuleId) returns (val: Value, ok: bool)
      requires Valid() && vstack != [] && r < |g.rules|
      modifies this, stack
      ensures Parsed(ok, val, RecRule(g, data, r, old(pt.offset)))
      ensures Top() == old(Top())
      ensures !memoize ==> Outcome(ok, val) == RunRule(g, data, r, old(pt.offset), old(State())).(env := Top())
      decreases |data| - pt.offset, g.rank[r], g.rules[r], 5
    {
      hide Run, Rec;
      assert RuleOk(g, r);
      PushV();
      val, ok := ParseExpr(g.rules[r]);
      PopV();
    }

    method ParseExpr(e: Expr) returns (val: Value, ok: bool)
      requires Valid() && vstack != [] && ExprOk(g, e)
      modifies this, stack
      ensures Parsed(ok, val, Rec(g, data, e, old(pt.offset)))
      ensures !memoize ==> Outcome(ok, val) == Run(g, data, e, old(pt.offset), old(Top()), old(State()))
      decreases |data| - pt.offset, LeftRank(g, e), e, 4
    {
      hide Run, Rec, RunRule, RecRule;
      if memoize {
        var res, hit := GetMemoized(ExprKey(e));
        if hit {
          Restore(res.end);
          return res.val, res.ok;
        }
      }
      var start := pt;
      val, ok := Dispatch(e);
      if memoize {
        SetMemoized(start, ExprKey(e), Entry(val, ok, pt));
      }
    }

    method Dispatch(e: Expr) returns (val: Value, ok: bool)
      requires Valid() && vstack != [] && ExprOk(g, e)
      modifies this, stack
      ensures Parsed(ok, val, Rec(g, data, e, old(pt.offset)))
      ensures !memoize ==> Outcome(ok, val) == Run(g, data, e, old(pt.offset), old(Top()), old(State()))
      decreases |data| - pt.offset, LeftRank(g, e), e, 3
    {
      hide EntryOk, Reaches, CleanTo, WellFormed;
      match e {
        case Any => val, ok := ParseAnyMatcher();
        case Lit(text) => val, ok := ParseLitMatcher(text);
        case Class(_, _, _) => val, ok := ParseCharClassMatcher(e);
        case Seq(es) => val, ok := ParseSeqExpr(e);
        case Choice(es) => val, ok := ParseChoiceExpr(e);
        case Not(e1) => val, ok := ParseNotExpr(e);
        case And(e1) => val, ok := ParseAndExpr(e);
        case Opt(e1) => val, ok := ParseZeroOrOneExpr(e);
        case Star(e1) => val, ok := ParseZeroOrMoreExpr(e);
        case Plus(e1) => val, ok := ParseOneOrMoreExpr(e);
        case Ref(r) => val, ok := ParseRuleRefExpr(e);
        case Act(a, e1) => val, ok := ParseActionExpr(e);
        case Label(name, e1) => val, ok := ParseLabeledExpr(e);
      }
    }

    method ParseActionExpr(e: Expr) returns (val: Value, ok: bool)
      requires Valid() && vstack != [] && ExprOk(g, e) && e.Act?
      modifies this, stack
      ensures Parsed(ok, val, Rec(g, data, e, old(pt.offset)))
      ensures !memoize ==> Outcome(ok, val) == Run(g, data, e, old(pt.offset), old(Top()), old(State()))
      decreases |data| - pt.offset, LeftRank(g, e), e, 2
    {
      var start := pt;
      val, ok := ParseExpr(e.e);
      if ok {
        val := RunAction(e.action, data[start.offset..pt.offset], Top());
      }
    }

    method ParseLabeledExpr(e: Expr) returns (val: Value, ok: bool)
      requires Valid() && vstack != [] && ExprOk(g, e) && e.Label?
      modifies this, stack
      ensures Parsed(ok, val, Rec(g, data, e, old(pt.offset)))
      ensures !memoize ==> Outcome(ok, val) == Run(g, data, e, old(pt.offset), old(Top()), old(State()))
      decreases |data| - pt.offset, LeftRank(g, e), e, 2
    {
      hide EntryOk, Reaches, CleanTo, Malformed, DecodeRune;
      PushV();
      val, ok := ParseExpr(e.e);
      PopV();
      if ok && e.name != "" {
        vstack := vstack[|vstack| - 1 := Top()[e.name := val]];
      }
    }

    method ParseRuleRefExpr(e: Expr) returns (val: Value, ok: bool)
      requires Valid() && vstack != [] && ExprOk(g, e) && e.Ref?
      modifies this, stack
      ensures Parsed(ok, val, Rec(g, data, e, old(pt.offset)))
      ensures !memoize ==> Outcome(ok, val) == Run(g, data, e, old(pt.offset), old(Top()), old(State()))
      decreases |data| - pt.offset, LeftRank(g, e), e, 2
    {
      if e.rule >= |g.rules| {
        failed := true;
        return NoValue, false;
      }
      val, ok := ParseRule(e.rule);
    }

    method ParseNotExpr(e: Expr) returns (val: Value, ok: bool)
      requires Valid() && vstack != [] && ExprOk(g, e) && e.Not?
      modifies this, stack
      ensures Parsed(ok, val, Rec(g, data, e, old(pt.offset)))
      ensures !memoize ==> Outcome(ok, val) == Run(g, data, e, old(pt.offset), old(Top()), old(State()))
      decreases |data| - pt.offset, LeftRank(g, e), e, 2
    {
      hide EntryOk, Reaches, CleanTo, WellFormed;
      var start := pt;
      PushV();
      val, ok := ParseExpr(e.e);
      PopV();
      Restore(start);
      return NoValue, !ok;
    }

    method ParseAndExpr(e: Expr) returns (val: Value, ok: bool)
      requires Valid() && vstack != [] && ExprOk(g, e) && e.And?
      modifies this, stack
      ensures Parsed(ok, val, Rec(g, data, e, old(pt.offset)))
      ensures !memoize ==> Outcome(ok, val) == Run(g, data, e, old(pt.offset), old(Top()), old(State()))
      decreases |data| - pt.offset, LeftRank(g, e), e, 2
    {
      hide EntryOk, Reaches, CleanTo, WellFormed;
      var start := pt;
      PushV();
      val, ok := ParseExpr(e.e);
      PopV();
      Restore(start);
      return NoValue, ok;
    }

    method ParseZeroOrOneExpr(e: Expr) returns (val: Value, ok: bool)
      requires Valid() && vstack != [] && ExprOk(g, e) && e.Opt?
      modifies this, stack
      ensures Parsed(ok, val, Rec(g, data, e, old(pt.offset)))
      ensures !memoize ==> Outcome(ok, val) == Run(g, data, e, old(pt.offset), old(Top()), old(State()))
      decreases |data| - pt.offset, LeftRank(g, e), e, 2
    {
      PushV();
      val, ok := ParseExpr(e.e);
      PopV();
      ok := true;
    }

    method ParseChoiceExpr(e: Expr) returns (val: Value, ok: bool)
      requires Valid() && vstack != [] && ExprOk(g, e) && e.Choice?
      modifies this, stack
      ensures Parsed(ok, val, Rec(g, data, e, old(pt.offset)))
      ensures !memoize ==> Outcome(ok, val) == Run(g, data, e, old(pt.offset), old(Top()), old(State()))
      decreases |data| - pt.offset, LeftRank(g, e), e, 2
    {
      hide EntryOk, Reaches, CleanTo, Malformed, DecodeRune;
      var es, p := e.es, pt.offset;
      for i := 0 to |es|
        invariant Valid() && far >= old(far) && vstack == old(vstack) && pt.offset == p
        invariant RecChoice(g, data, es, 0, p) == RecChoice(g, data, es, i, p)
        invariant ChoiceRank(g, es, i) <= LeftRank(g, e)
        invariant !memoize ==>
          RunChoice(g, data, es, 0, p, old(Top()), old(State()))
          == RunChoice(g, data, es, i, p, Top(), State())
      {
        PushV();
        val, ok := ParseExpr(es[i]);
        PopV();
        if ok {
          return;
        }
      }
      return NoValue, false;
    }

    method ParseSeqExpr(e: Expr) returns (val: Value, ok: bool)
      requires Valid() && vstack != [] && ExprOk(g, e) && e.Seq?
      modifies this, stack
      ensures Parsed(ok, val, Rec(g, data, e, old(pt.offset)))
      ensures !memoize ==> Outcome(ok, val) == Run(g, data, e, old(pt.offset), old(Top()), old(State()))
      decreases |data| - pt.offset, LeftRank(g, e), e, 2
    {
      var es, start := e.es, pt;
      var vals: seq<Value> := [];
      for i := 0 to |es|
        invariant Valid() && far >= old(far) && |vstack| == |old(vstack)| && Under() == old(Under())
        invariant start.offset <= pt.offset
        invariant start.offset < pt.offset || SeqRank(g, es, i) <= LeftRank(g, e)
        invariant RecSeq(g, data, es, 0, start.offset) == RecSeq(g, data, es, i, pt.offset)
        invariant !memoize ==>
          RunSeq(g, data, es, 0, start.offset, start.offset, [], old(Top()), old(State()))
          == RunSeq(g, data, es, i, start.offset, pt.offset, vals, Top(), State())
      {
        val, ok := ParseExpr(es[i]);
        if !ok {
          Restore(start);
          return NoValue, false;
        }
        vals := vals + [val];
      }
      return List(vals), true;
    }

    method ParseZeroOrMoreExpr(e: Expr) returns (val: Value, ok: bool)
      requires Valid() && vstack != [] && ExprOk(g, e) && e.Star?
      modifies this, stack
      ensures Parsed(ok, val, Rec(g, data, e, old(pt.offset)))
      ensures !memoize ==> Outcome(ok, val) == Run(g, data, e, old(pt.offset), old(Top()), old(State()))
      decreases |data| - pt.offset, LeftRank(g, e), e, 2
    {
      hide Run, RunStar, Rec, RecStar, EntryOk, Reaches, CleanTo, WellFormed;
      var start := pt;
      RunStarIs(g, data, e.e, pt.offset, Top(), State());
      var vals: seq<Value> := [];
      while true
        invariant Valid() && far >= old(far) && vstack == old(vstack) && start.offset <= pt.offset
        invariant RecStar(g, data, e.e, start.offset) == RecStar(g, data, e.e, pt.offset)
        invariant !memoize ==>
          RunStar(g, data, e.e, start.offset, [], old(Top()), old(State()))
          == RunStar(g, data, e.e, pt.offset, vals, Top(), State())
        decreases |data| - pt.offset
      {
        RunStarStep(g, data, e.e, pt.offset, vals, Top(), State());
        PushV();
        val, ok := ParseExpr(e.e);
        PopV();
        if !ok {
          return List(vals), true;
        }
        vals := vals + [val];
      }
    }

    method ParseOneOrMoreExpr(e: Expr) returns (val: Value, ok: bool)
      requires Valid() && vstack != [] && ExprOk(g, e) && e.Plus?
      modifies this, stack
      ensures Parsed(ok, val, Rec(g, data, e, old(pt.offset)))
      ensures !memoize ==> Outcome(ok, val) == Run(g, data, e, old(pt.offset), old(Top()), old(State()))
      decreases |data| - pt.offset, LeftRank(g, e), e, 2
    {
      hide Run, RunStar, Rec, RecStar, EntryOk, Reaches, CleanTo, WellFormed;
      var p := pt.offset;
      RunPlus(g, data, e.e, p, Top(), State());
      var vals: seq<Value> := [];
      while true
        invariant Valid() && far >= old(far) && vstack == old(vstack) && p <= pt.offset
        invariant vals == [] ==> pt.offset == p && (!memoize ==> State() == old(State()))
        invariant vals != [] ==> Rec(g, data, e, p) == Some(RecStar(g, data, e.e, pt.offset))
        invariant vals != [] && !memoize ==>
          Run(g, data, e, p, old(Top()), old(State()))
          == RunStar(g, data, e.e, pt.offset, vals, old(Top()), State())
        decreases |data| - pt.offset
      {
        RunStarStep(g, data, e.e, pt.offset, vals, Top(), State());
        PushV();
        val, ok := ParseExpr(e.e);
        PopV();
        if !ok {
          if |vals| == 0 {
            return NoValue, false;
          }
          return List(vals), true;
        }
        assert vals == [] ==> vals + [val] == [val];
        vals := vals + [val];
      }
    }
  }
}
