/** Values that stand alone, without a field: the parser reads them and forgets
    them. */
module BareTerms {
  import opened Peg
  import opened QueryRun
  import opened QueryGrammar
  import opened Texts
  import opened Tokens
  import opened PureRules
  import opened Values
  import opened Terms
  import opened Pairs

  /** A date and time and a window are no values that can stand alone. */
  predicate BareVal(v: ValText) {
    !v.DateTimeText? && !v.WindowText?
  }

  predicate AtomAt(data: string, pos: nat, a: Atom) {
    match a
    case Pair(_, _, _, _) => PairAt(data, pos, a)
    case Bare(v) => BareVal(v) && TextAt(data, pos, v)
  }

  function AtomLen(a: Atom): nat {
    match a
    case Pair(_, _, _, _) => PairLen(a)
    case Bare(v) => |TextOf(v)|
  }

  /** What an atom starts with. */
  function Head(a: Atom): string {
    match a
    case Pair(f, _, _, _) => f
    case Bare(v) => TextOf(v)
  }

  function AtomSt(st: St, a: Atom): St {
    match a
    case Pair(_, _, _, _) => PairSt(st, a)
    case Bare(v) => Flagged(st, v)
  }

  /** A field name ends before the first colon. */
  lemma {:induction false} KeyStops(g: Grammar, data: string, pos: nat, end: nat)
    requires Q(g) && pos <= end <= |data| && (end < |data| ==> !KeyChar(data[end]))
    ensures RecStar(g, data, KeyClass, pos) <= end
    decreases end - pos
  {
    hide Rec;
    if pos < |data| { Classes(data[pos]); }
    ClassAt(g, data, KeyClass, pos);
    if pos < end { KeyStops(g, data, pos + 1, end); }
  }

  lemma KeyEnds(g: Grammar, data: string, pos: nat, end: nat, st: St)
    requires Q(g) && pos <= end <= |data| && (end < |data| ==> !KeyChar(data[end]))
    ensures var r := RecRule(g, data, KEY, pos); r.Some? ==> r.value <= end
  {
    hide RecStar, RecRule, Rec;
    if pos < |data| { Classes(data[pos]); }
    RuleIs(g, data, KEY, pos);
    ClassAt(g, data, KeyClass, pos);
    if pos < end { KeyStops(g, data, pos + 1, end); }
    RunPlus(g, data, KeyClass, pos, map[], st);
  }

  /** No pair starts where no colon follows the first name. */
  lemma KeyValueFails(g: Grammar, data: string, pos: nat, end: nat, st: St)
    requires Q(g) && pos <= end <= |data| && (forall k | pos <= k < end :: data[k] != ':')
    requires end < |data| ==> !KeyChar(data[end]) && data[end] != ':'
    ensures var o := RunRule(g, data, KEY_VALUE, pos, st); !o.ok && o.st == st
  {
    hide Run, RunRule, RunSeq, Rec, RecRule, RecSeq, KeyChar, ExprOk;
    var es := Body(KEY_VALUE).e.es;
    PairParts(g, es);
    NoPairSeq(g, data, es, pos, end, st);
    RunRuleIs(g, data, KEY_VALUE, pos, st);
    RunSeqIs(g, data, es, pos, map[], st);
    RunActIs(g, data, OnKeyValue, Seq(es), pos, map[], st);
  }

  lemma NoPairSeq(g: Grammar, data: string, es: seq<Expr>, pos: nat, end: nat, st: St)
    requires Q(g) && pos <= end <= |data| && (forall k | pos <= k < end :: data[k] != ':')
    requires end < |data| ==> !KeyChar(data[end]) && data[end] != ':'
    requires |es| == 4 && es[0] == Label("k", Ref(KEY)) && es[1] == Ref(COLON) && forall k | 0 <= k < 4 :: ExprOk(g, es[k])
    ensures var o := RunSeq(g, data, es, 0, pos, pos, [], map[], st); !o.ok && o.st == st
  {
    hide Run, RunRule, RunSeq, Rec, RecRule, RecSeq, KeyChar, ExprOk;
    KeyEnds(g, data, pos, end, st);
    TextRun(g, data, KEY, pos, st);
    RunRuleIs(g, data, KEY, pos, st);
    RunLabelIs(g, data, "k", Ref(KEY), pos, map[], st);
    var o := Run(g, data, es[0], pos, map[], st);
    RunSeqStep(g, data, es, 0, pos, pos, [], map[], st);
    if o.ok {
      NoColon(g, data, o.pos, o.env, st);
      RunSeqStep(g, data, es, 1, pos, o.pos, [] + [o.val], o.env, st);
    }
  }

  lemma NoColon(g: Grammar, data: string, pos: nat, env: Env, st: St)
    requires Q(g) && pos <= |data| && (pos < |data| ==> data[pos] != ':')
    ensures var o := Run(g, data, Ref(COLON), pos, env, st); !o.ok && o.st == st
  {
    CharAt(g, data, COLON, ':', pos);
    PureRun(g, data, Ref(COLON), pos, env, st);
  }

  /** Where a value that stands alone has no colon and no further name. */
  function QuietEnd(pos: nat, v: ValText): nat {
    if v.PhraseText? then pos else pos + |TextOf(v)|
  }

  lemma BareQuiet(data: string, pos: nat, v: ValText)
    requires AtomAt(data, pos, Bare(v))
    ensures var end := QuietEnd(pos, v);
            && pos <= end <= |data| && (forall k | pos <= k < end :: data[k] != ':')
            && (end < |data| ==> !KeyChar(data[end]) && data[end] != ':')
  {
    hide StartsAt, LegalPhrase;
    var t := TextOf(v);
    StartsBound(data, pos, t);
    StartsChar(data, pos, t, 0);
    forall k | pos <= k < pos + |t| ensures data[k] == t[k - pos] { StartsChar(data, pos, t, k - pos); }
  }

  function SingleRule(i: nat): RuleId {
    match i case 0 => PHRASE case 1 => DATE_TIME case 2 => NUMBER case _ => WORD
  }

  function SingleIndex(v: ValText): nat {
    match v case PhraseText(_) => 0 case NumberText(_) => 2 case _ => 3
  }

  ghost predicate SingleAlternatives(g: Grammar, es: seq<Expr>) {
    && Q(g) && |es| == 4 && forall k | 0 <= k < 4 :: es[k] == Ref(SingleRule(k)) && ExprOk(g, es[k])
  }

  lemma SingleParts(g: Grammar, es: seq<Expr>)
    requires Q(g) && es == Body(SINGLE_VALUE).es
    ensures SingleAlternatives(g, es)
  {
    assert RuleOk(g, SINGLE_VALUE);
    assert ExprOk(g, Choice(es));
  }

  lemma {:induction false} SingleFrom(g: Grammar, data: string, es: seq<Expr>, i: nat, pos: nat, v: ValText, st: St)
    requires SingleAlternatives(g, es) && AtomAt(data, pos, Bare(v)) && i <= SingleIndex(v)
    ensures pos <= |data|
    ensures var o := RunChoice(g, data, es, i, pos, map[], st);
            o.ok && o.pos == pos + |TextOf(v)| && o.st == Flagged(st, v)
    decreases 4 - i
  {
    hide Run, RunRule, RunChoice, Rec, RecRule, RecChoice, TextAt, Flagged, ValueOf, TextOf;
    TextBound(data, pos, v);
    RefStep(g, data, es, i, SingleRule(i), pos, st);
    if i == SingleIndex(v) {
      KindRun(g, data, pos, v, st);
    } else {
      OtherFails(g, data, SingleRule(i), pos, v, st);
      SingleFrom(g, data, es, i + 1, pos, v, st);
    }
  }

  /** A value alone only reports a bad number. */
  lemma SingleRun(g: Grammar, data: string, pos: nat, v: ValText, st: St)
    requires Q(g) && AtomAt(data, pos, Bare(v))
    ensures pos <= |data|
    ensures var o := RunRule(g, data, SINGLE_VALUE, pos, st);
            o.ok && o.pos == pos + |TextOf(v)| && o.st == Flagged(st, v)
  {
    hide Run, RunRule, RunChoice, Rec, RecRule, Flagged, TextOf, AtomAt;
    var es := Body(SINGLE_VALUE).es;
    SingleParts(g, es);
    SingleFrom(g, data, es, 0, pos, v, st);
    RunRuleIs(g, data, SINGLE_VALUE, pos, st);
    RunChoiceIs(g, data, es, pos, map[], st);
  }

  /** A pair or else a value alone. */
  lemma AtomRun(g: Grammar, data: string, pos: nat, a: Atom, st: St)
    requires Q(g) && AtomAt(data, pos, a)
    ensures pos <= |data| && ExprOk(g, Choice([Ref(KEY_VALUE), Ref(SINGLE_VALUE)]))
    ensures var o := Run(g, data, Choice([Ref(KEY_VALUE), Ref(SINGLE_VALUE)]), pos, map[], st);
            o.ok && o.pos == pos + AtomLen(a) && o.st == AtomSt(st, a)
  {
    hide Run, RunRule, RunChoice, Rec, RecRule, PairAt, PairSt, PairLen, TextOf, TextAt, Flagged;
    var es := [Ref(KEY_VALUE), Ref(SINGLE_VALUE)];
    match a {
      case Pair(_, _, _, _) => PairRun(g, data, pos, a, st);
      case Bare(v) =>
        BareQuiet(data, pos, v);
        KeyValueFails(g, data, pos, QuietEnd(pos, v), st);
        SingleRun(g, data, pos, v, st);
    }
    RunChoiceIs(g, data, es, pos, map[], st);
    RefStep(g, data, es, 0, KEY_VALUE, pos, st);
    RefStep(g, data, es, 1, SINGLE_VALUE, pos, st);
  }
}
