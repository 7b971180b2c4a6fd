/** Parsing expression grammars as the generated parser interprets them:
    expressions, well-formedness, and what a grammar recognizes. */
module Peg {
  import opened Wrappers
  import opened Utf8

  /** The semantic actions of the query grammar. */
  datatype Action =
    | OnInput | OnOr | OnAnd | OnNotCheck | OnGroupStart | OnNotGroupStart
    | OnKeyValue | OnText | OnNumber | OnField(name: string)
    | OnGE | OnLE | OnGT | OnLT | OnNE | OnEQ

  type RuleId = nat

  datatype Expr =
    | Any
    | Lit(text: string)
    | Class(chars: string, ranges: seq<(char, char)>, inverted: bool)
    | Seq(es: seq<Expr>)
    | Choice(es: seq<Expr>)
    | Not(e: Expr)
    | And(e: Expr)
    | Opt(e: Expr)
    | Star(e: Expr)
    | Plus(e: Expr)
    | Ref(rule: RuleId)
    | Act(action: Action, e: Expr)
    | Label(name: string, e: Expr)

  /** A grammar with its certificate: which rules may match without consuming
      input, and a rank that bounds left recursion. */
  datatype Grammar = Grammar(rules: seq<Expr>, nullable: seq<bool>, rank: seq<nat>)

  predicate Shaped(g: Grammar) {
    |g.rules| == |g.nullable| == |g.rank|
  }

  predicate Nullable(g: Grammar, e: Expr)
    requires Shaped(g)
    decreases e
  {
    match e
    case Any => false
    case Lit(text) => text == "" || text[0] as int == RUNE_ERROR
    case Class(_, _, _) => false
    case Seq(es) => forall i | 0 <= i < |es| :: Nullable(g, es[i])
    case Choice(es) => exists i | 0 <= i < |es| :: Nullable(g, es[i])
    case Not(_) => true
    case And(_) => true
    case Opt(_) => true
    case Star(_) => true
    case Plus(e1) => Nullable(g, e1)
    case Ref(r) => r < |g.rules| && g.nullable[r]
    case Act(_, e1) => Nullable(g, e1)
    case Label(_, e1) => Nullable(g, e1)
  }

  function Max(a: nat, b: nat): nat {
    if a < b then b else a
  }

  /** An upper bound on the rank of the rules that can be entered before any
      input is consumed. */
  function LeftRank(g: Grammar, e: Expr): nat
    requires Shaped(g)
    decreases e
  {
    match e
    case Any => 0
    case Lit(_) => 0
    case Class(_, _, _) => 0
    case Seq(es) => SeqRank(g, es, 0)
    case Choice(es) => ChoiceRank(g, es, 0)
    case Not(e1) => LeftRank(g, e1)
    case And(e1) => LeftRank(g, e1)
    case Opt(e1) => LeftRank(g, e1)
    case Star(e1) => LeftRank(g, e1)
    case Plus(e1) => LeftRank(g, e1)
    case Ref(r) => if r < |g.rules| then g.rank[r] + 1 else 0
    case Act(_, e1) => LeftRank(g, e1)
    case Label(_, e1) => LeftRank(g, e1)
  }

  function SeqRank(g: Grammar, es: seq<Expr>, i: nat): nat
    requires Shaped(g) && i <= |es|
    decreases es, |es| - i
  {
    if i == |es| then 0
    else Max(LeftRank(g, es[i]), if Nullable(g, es[i]) then SeqRank(g, es, i + 1) else 0)
  }

  function ChoiceRank(g: Grammar, es: seq<Expr>, i: nat): nat
    requires Shaped(g) && i <= |es|
    decreases es, |es| - i
  {
    if i == |es| then 0 else Max(LeftRank(g, es[i]), ChoiceRank(g, es, i + 1))
  }

  /** Nothing that may match the empty string is repeated. */
  predicate ExprOk(g: Grammar, e: Expr)
    requires Shaped(g)
    decreases e
  {
    match e
    case Any => true
    case Lit(_) => true
    case Class(_, _, _) => true
    case Seq(es) => forall i | 0 <= i < |es| :: ExprOk(g, es[i])
    case Choice(es) => forall i | 0 <= i < |es| :: ExprOk(g, es[i])
    case Not(e1) => ExprOk(g, e1)
    case And(e1) => ExprOk(g, e1)
    case Opt(e1) => ExprOk(g, e1)
    case Star(e1) => ExprOk(g, e1) && !Nullable(g, e1)
    case Plus(e1) => ExprOk(g, e1) && !Nullable(g, e1)
    case Ref(_) => true
    case Act(_, e1) => ExprOk(g, e1)
    case Label(_, e1) => ExprOk(g, e1)
  }

  predicate RuleOk(g: Grammar, r: RuleId)
    requires Shaped(g) && r < |g.rules|
  {
    && ExprOk(g, g.rules[r])
    && LeftRank(g, g.rules[r]) <= g.rank[r]
    && (Nullable(g, g.rules[r]) ==> g.nullable[r])
  }

  predicate WellFormed(g: Grammar) {
    Shaped(g) && forall r: RuleId | r < |g.rules| :: RuleOk(g, r)
  }

  predicate InChars(chars: string, rn: nat) {
    exists k | 0 <= k < |chars| :: chars[k] as int == rn
  }

  predicate InRanges(ranges: seq<(char, char)>, rn: nat) {
    exists k | 0 <= k < |ranges| :: ranges[k].0 as int <= rn <= ranges[k].1 as int
  }

  predicate InClass(e: Expr, rn: nat)
    requires e.Class?
  {
    (InChars(e.chars, rn) || InRanges(e.ranges, rn)) != e.inverted
  }

  function MatchLit(data: string, text: string, k: nat, pos: nat): (r: Option<nat>)
    requires k <= |text| && pos <= |data|
    ensures r.Some? ==> pos <= r.value <= |data|
    ensures r.Some? && k < |text| && text[k] as int != RUNE_ERROR ==> pos < r.value
    decreases |text| - k
  {
    if k == |text| then Some(pos)
    else
      var d := DecodeRune(data, pos);
      if d.rn == text[k] as int then MatchLit(data, text, k + 1, pos + d.w) else None
  }

  /** Where `e` ends when it is matched at `pos`, or None when it does not
      match. Actions and labels play no part. */
  function Rec(g: Grammar, data: string, e: Expr, pos: nat): (r: Option<nat>)
    requires WellFormed(g) && ExprOk(g, e) && pos <= |data|
    ensures r.Some? ==> pos <= r.value <= |data|
    ensures r.Some? && !Nullable(g, e) ==> pos < r.value
    decreases |data| - pos, LeftRank(g, e), e, 0
  {
    match e
    case Any =>
      var d := DecodeRune(data, pos);
      if d.w == 0 then None else Some(pos + d.w)
    case Lit(text) => MatchLit(data, text, 0, pos)
    case Class(_, _, _) =>
      var d := DecodeRune(data, pos);
      if d.w != 0 && InClass(e, d.rn) then Some(pos + d.w) else None
    case Seq(es) => RecSeq(g, data, es, 0, pos)
    case Choice(es) => RecChoice(g, data, es, 0, pos)
    case Not(e1) => if Rec(g, data, e1, pos).Some? then None else Some(pos)
    case And(e1) => if Rec(g, data, e1, pos).Some? then Some(pos) else None
    case Opt(e1) => var r := Rec(g, data, e1, pos); if r.Some? then r else Some(pos)
    case Star(e1) => Some(RecStar(g, data, e1, pos))
    case Plus(e1) =>
      var r := Rec(g, data, e1, pos);
      if r.Some? then Some(RecStar(g, data, e1, r.value)) else None
    case Ref(rule) => if rule < |g.rules| then RecRule(g, data, rule, pos) else None
    case Act(_, e1) => Rec(g, data, e1, pos)
    case Label(_, e1) => Rec(g, data, e1, pos)
  }

  function RecRule(g: Grammar, data: string, r: RuleId, pos: nat): (res: Option<nat>)
    requires WellFormed(g) && r < |g.rules| && pos <= |data|
    ensures res.Some? ==> pos <= res.value <= |data|
    ensures res.Some? && !g.nullable[r] ==> pos < res.value
    decreases |data| - pos, g.rank[r], g.rules[r], 1
  {
    assert RuleOk(g, r);
    Rec(g, data, g.rules[r], pos)
  }

  function RecSeq(g: Grammar, data: string, es: seq<Expr>, i: nat, pos: nat): (r: Option<nat>)
    requires WellFormed(g) && i <= |es| && pos <= |data|
    requires forall k | 0 <= k < |es| :: ExprOk(g, es[k])
    ensures r.Some? ==> pos <= r.value <= |data|
    ensures r.Some? && (exists k | i <= k < |es| :: !Nullable(g, es[k])) ==> pos < r.value
    decreases |data| - pos, SeqRank(g, es, i), es, |es| - i
  {
    if i == |es| then Some(pos)
    else
      var r := Rec(g, data, es[i], pos);
      if r.None? then None else RecSeq(g, data, es, i + 1, r.value)
  }

  function RecChoice(g: Grammar, data: string, es: seq<Expr>, i: nat, pos: nat): (r: Option<nat>)
    requires WellFormed(g) && i <= |es| && pos <= |data|
    requires forall k | 0 <= k < |es| :: ExprOk(g, es[k])
    ensures r.Some? ==> pos <= r.value <= |data|
    ensures r.Some? && (forall k | i <= k < |es| :: !Nullable(g, es[k])) ==> pos < r.value
    decreases |data| - pos, ChoiceRank(g, es, i), es, |es| - i
  {
    if i == |es| then None
    else
      var r := Rec(g, data, es[i], pos);
      if r.Some? then r else RecChoice(g, data, es, i + 1, pos)
  }

  function RecStar(g: Grammar, data: string, e: Expr, pos: nat): (r: nat)
    requires WellFormed(g) && ExprOk(g, e) && !Nullable(g, e) && pos <= |data|
    ensures pos <= r <= |data|
    decreases |data| - pos, LeftRank(g, e), e, 1
  {
    var r := Rec(g, data, e, pos);
    if r.None? then pos else RecStar(g, data, e, r.value)
  }
}
