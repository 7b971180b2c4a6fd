/** The translation keeps the meaning of queries of any depth. */
module MongoLaws {
  import opened Wrappers
  import opened Blobs
  import opened QueryAst
  import opened Decimal
  import opened Texts
  import opened ValueText
  import opened Json
  import opened Mongo

  /** The filter that a translated condition or node reads as. */
  function ValueTree(c: Condition): Json
    requires LegalCond(c)
  {
    var a := AtomOfValue(AsPrintedCond(c).value).value;
    if a.StrAtom? then Text(a.s) else Number(a.v)
  }

  function OpKey(op: FieldOp): string
    requires op != NO
  {
    match op
    case EQ => "$eq" case LT => "$lt" case LE => "$lte" case GT => "$gt" case GE => "$gte" case NE => "$ne"
  }

  function OpTree(c: Condition): Json
    requires LegalCond(c)
  {
    if c.op == NO then ValueTree(c) else Object([(OpKey(c.op), ValueTree(c))])
  }

  function CondTree(c: Condition): Json
    requires LegalCond(c)
  {
    Object([(c.field, if c.invert then Object([("$not", OpTree(c))]) else OpTree(c))])
  }

  function NodeTree(n: Node): Json
    requires LegalNode(n)
    decreases n, 3
  {
    Object([(NodeKey(n.op), Array(Trees(n, 0)))])
  }

  function Trees(n: Node, i: nat): (r: seq<Json>)
    requires LegalNode(n) && i <= |n.conds|
    ensures |r| == |n.conds| - i
    decreases n, 2, |n.conds| - i
  {
    if i == |n.conds| then [] else [ItemTree(n, i)] + Trees(n, i + 1)
  }

  function ItemTree(n: Node, i: nat): Json
    requires LegalNode(n) && i < |n.conds|
    decreases n, 1
  {
    match n.conds[i]
    case Cond(c) => CondTree(c)
    case Sub(m) => NodeTree(m)
  }

  // ---- the text reads as the tree ----

  lemma ValueReads(s: string, i: nat, c: Condition)
    requires LegalCond(c) && StartsAt(s, i, VtoS(c.value))
    requires i + |VtoS(c.value)| < |s| && s[i + |VtoS(c.value)|] == '}'
    ensures ReadValue(s, i) == Some((ValueTree(c), i + |VtoS(c.value)|))
  {
    hide *;
    ValueIs(c);
    BraceEnds();
    match c.value
    case Str(t) =>
      var inner := Quoted(t)[1..|Quoted(t)| - 1];
      TextReads(s, i, inner);
      QuoteLen(inner);
    case Int(n) =>
      IntRoundTrip(n);
      IntChars(n);
      NumberReads(s, i, IntText(n));
    case Float(x) =>
      FloatRoundTrip(x);
      FloatChars(x);
      NumberReads(s, i, FloatText(x));
  }

  lemma BraceEnds()
    ensures !NumberChar('}')
  {
  }

  lemma QuoteLen(t: string)
    ensures |Quote(t)| == |t| + 2
  {
  }

  /** What the value of a legal condition is, prints as and reads as. */
  lemma ValueIs(c: Condition)
    requires LegalCond(c)
    ensures match c.value
            case Str(t) =>
              && |Quoted(t)| >= 2
              && var inner := Quoted(t)[1..|Quoted(t)| - 1];
                 VtoS(c.value) == Quote(inner) && Plain(inner) && ValueTree(c) == Text(inner)
            case Int(n) => GoInt(n) && VtoS(c.value) == IntText(n) && ValueTree(c) == Number(n as real)
            case Float(x) => GoFloat(x) && VtoS(c.value) == FloatText(x) && ValueTree(c) == Number(Rounded(x))
            case _ => false
  {
    hide GoInt, GoFloat, IntText, FloatText, Rounded, Plain, Quote;
    if c.value.Str? { QuotedIs(c.value.s); }
  }

  lemma QuotedIs(t: string)
    requires |Quoted(t)| >= 2
    ensures Quoted(t) == Quote(Quoted(t)[1..|Quoted(t)| - 1])
  {
  }

  lemma IntChars(n: int)
    ensures IntText(n) != "" && forall k | 0 <= k < |IntText(n)| :: NumberChar(IntText(n)[k])
  {
  }

  lemma FloatChars(x: real)
    ensures FloatText(x) != "" && forall k | 0 <= k < |FloatText(x)| :: NumberChar(FloatText(x)[k])
  {
    var whole, frac := Dec(Scaled(x) / SCALE), Pad(Scaled(x) % SCALE, 8);
    hide Dec, Pad, Scaled;
    assert FloatText(x) == (if x < 0.0 then "-" else "") + whole + "." + frac;
  }

  /** The value of a one-member object stands at its place. */
  lemma InMember(s: string, i: nat, k: string, t: string)
    requires StartsAt(s, i, Member(k, t))
    ensures |Member(k, t)| == |k| + |t| + 6 && StartsAt(s, i + |k| + 5, t)
    ensures i + |k| + 5 + |t| < |s| && s[i + |k| + 5 + |t|] == '}'
  {
    MemberParts(s, i, k, t);
  }

  lemma KeysPlain()
    ensures Plain("$eq") && Plain("$lt") && Plain("$lte") && Plain("$gt") && Plain("$gte") && Plain("$ne") && Plain("$not")
    ensures Plain("$and") && Plain("$or") && Plain("$nop")
  {
  }

  lemma OpReads(s: string, i: nat, c: Condition)
    requires LegalCond(c) && StartsAt(s, i, OToMdb(c))
    requires i + |OToMdb(c)| < |s| && s[i + |OToMdb(c)|] == '}'
    ensures ReadValue(s, i) == Some((OpTree(c), i + |OToMdb(c)|))
  {
    hide ReadValue, Plain, StartsAt, LegalCond, VtoS, ValueTree, Member;
    if c.op == NO {
      ValueReads(s, i, c);
    } else {
      var k := OpKey(c.op);
      KeysPlain();
      InMember(s, i, k, VtoS(c.value));
      ValueReads(s, i + |k| + 5, c);
      MemberReads(s, i, k, VtoS(c.value), ValueTree(c));
    }
  }

  lemma CondReads(s: string, i: nat, c: Condition)
    requires LegalCond(c) && StartsAt(s, i, CToMdb(c))
    ensures ReadValue(s, i) == Some((CondTree(c), i + |CToMdb(c)|))
  {
    hide ReadValue, Plain, StartsAt, OToMdb, OpTree, Member;
    var o := OToMdb(c);
    var t := if c.invert then Member("$not", o) else o;
    InMember(s, i, c.field, t);
    var p := i + |c.field| + 5;
    if c.invert {
      KeysPlain();
      InMember(s, p, "$not", o);
      OpReads(s, p + 9, c);
      MemberReads(s, p, "$not", o, OpTree(c));
    } else {
      OpReads(s, p, c);
    }
    MemberReads(s, i, c.field, t, if c.invert then Object([("$not", OpTree(c))]) else OpTree(c));
  }

  lemma ArrayParts(s: string, i: nat, t: string)
    requires StartsAt(s, i, "[" + (t + "]"))
    ensures i + 1 + |t| < |s| && s[i] == '[' && StartsAt(s, i + 1, t) && s[i + 1 + |t|] == ']'
  {
    hide StartsAt;
    StartsSplit(s, i, "[", t + "]");
    StartsSplit(s, i + 1, t, "]");
    StartsOne(s, i, '[');
    StartsOne(s, i + 1 + |t|, ']');
  }

  lemma NextParts(s: string, i: nat, x: string, t: string)
    requires StartsAt(s, i, x + ("," + (" " + t)))
    ensures i + |x| + 1 < |s| && StartsAt(s, i, x) && s[i + |x|] == ',' && s[i + |x| + 1] == ' ' && StartsAt(s, i + |x| + 2, t)
  {
    hide StartsAt;
    StartsSplit(s, i, x, "," + (" " + t));
    StartsSplit(s, i + |x|, ",", " " + t);
    StartsSplit(s, i + |x| + 1, " ", t);
    StartsOne(s, i + |x|, ',');
    StartsOne(s, i + |x| + 1, ' ');
  }

  lemma {:induction false} NodeReads(s: string, i: nat, n: Node)
    requires LegalNode(n) && StartsAt(s, i, NToMdb(n))
    ensures ReadValue(s, i) == Some((NodeTree(n), i + |NToMdb(n)|))
    decreases n, 3
  {
    hide ReadValue, ReadElems, Plain, StartsAt, Member, LegalNode, NoMissing, XsToMdb, Trees;
    var k, xs := NodeKey(n.op), XsToMdb(n, 0);
    var p := i + |k| + 5;
    KeysPlain();
    InMember(s, i, k, "[" + (xs + "]"));
    ArrayParts(s, p, xs);
    XsStarts(s, p + 1, n);
    if n.conds == [] {
      ArrayReads(s, p, [], p + 2);
    } else {
      ElemsRead(s, p + 1, n, 0);
      ArrayReads(s, p, Trees(n, 0), p + |xs| + 2);
    }
    MemberReads(s, i, k, "[" + (xs + "]"), Array(Trees(n, 0)));
  }

  /** The elements' text is empty or starts with an object. */
  lemma XsStarts(s: string, i: nat, n: Node)
    requires LegalNode(n) && StartsAt(s, i, XsToMdb(n, 0))
    ensures if n.conds == [] then XsToMdb(n, 0) == "" && Trees(n, 0) == [] else XsToMdb(n, 0) != "" && i < |s| && s[i] == '{'
  {
    if n.conds != [] {
      XStarts(n);
      StartsChar(s, i, XsToMdb(n, 0), 0);
    }
  }

  lemma XStarts(n: Node)
    requires NoMissing(n) && n.conds != []
    ensures XsToMdb(n, 0) != "" && XsToMdb(n, 0)[0] == '{'
  {
    hide Quote, OToMdb;
    match n.conds[0]
    case Cond(c) => assert CToMdb(c)[0] == '{';
    case Sub(m) => assert NToMdb(m)[0] == '{';
  }

  lemma {:induction false} ElemsRead(s: string, i: nat, n: Node, k: nat)
    requires LegalNode(n) && k < |n.conds| && StartsAt(s, i, XsToMdb(n, k))
    requires i + |XsToMdb(n, k)| < |s| && s[i + |XsToMdb(n, k)|] == ']'
    ensures ReadElems(s, i) == Some((Trees(n, k), i + |XsToMdb(n, k)| + 1))
    decreases n, 2, |n.conds| - k
  {
    hide ReadValue, ReadElems, StartsAt, LegalNode, NoMissing, XToMdb, ItemTree;
    var x := XToMdb(n, k);
    if k + 1 == |n.conds| {
      assert XsToMdb(n, k) == x;
      ItemReads(s, i, n, k);
      LastElem(s, i, ItemTree(n, k), i + |x|);
      assert Trees(n, k + 1) == [];
      assert Trees(n, k) == [ItemTree(n, k)];
    } else {
      var t := XsToMdb(n, k + 1);
      NextParts(s, i, x, t);
      ItemReads(s, i, n, k);
      ElemsRead(s, i + |x| + 2, n, k + 1);
      NextElem(s, i, ItemTree(n, k), i + |x|, Trees(n, k + 1), i + |x| + 2 + |t| + 1);
    }
  }

  lemma {:induction false} ItemReads(s: string, i: nat, n: Node, k: nat)
    requires LegalNode(n) && k < |n.conds| && StartsAt(s, i, XToMdb(n, k))
    ensures ReadValue(s, i) == Some((ItemTree(n, k), i + |XToMdb(n, k)|))
    decreases n, 1
  {
    hide ReadValue, StartsAt, Member, NToMdb, CToMdb;
    match n.conds[k]
    case Cond(c) => CondReads(s, i, c);
    case Sub(m) => NodeReads(s, i, m);
  }

  predicate LegalItem(x: Item) {
    match x
    case Cond(c) => LegalCond(c)
    case Sub(n) => LegalNode(n)
    case Missing => false
  }

  function Tree(x: Item): Json
    requires LegalItem(x)
  {
    if x.Cond? then CondTree(x.c) else NodeTree(x.n)
  }

  /** The filter text reads, as a whole and in one way only, as the tree of the
      query. */
  lemma FilterReads(x: Item)
    requires LegalItem(x)
    ensures Read(Filter(x)) == Some(Tree(x))
  {
    hide ReadValue, CToMdb, NToMdb, CondTree, NodeTree;
    var s := Filter(x);
    assert s[0..0 + |s|] == s;
    match x
    case Cond(c) => CondReads(s, 0, c);
    case Sub(n) => NodeReads(s, 0, n);
  }

  // ---- the tree means what the query means ----

  lemma OrderLaws(x: Atom, a: Atom)
    ensures Comparable(x, a) ==> (!Below(a, x) <==> x == a || Below(x, a)) && (!Below(x, a) <==> x == a || Below(a, x))
    ensures !Comparable(x, a) ==> x != a && !Below(x, a) && !Below(a, x)
  {
    if x.StrAtom? && a.StrAtom? {
      LessTotal(x.s, a.s);
      LessIrreflexive(x.s);
      if Less(x.s, a.s) && Less(a.s, x.s) { LessTransitive(x.s, a.s, x.s); }
    }
  }

  /** The six comparisons agree. */
  lemma CompareMeans(x: Option<Atom>, op: FieldOp, a: Atom)
    requires op != NO
    ensures Compare(x, OpKey(op), a) == Some(Holds(x, op, a))
  {
    if x.Some? { OrderLaws(x.value, a); }
  }

  lemma OpsMean(x: Option<Atom>, c: Condition)
    requires LegalCond(c) && c.op != NO
    ensures MatchOps(x, OpTree(c), 0) == Some(Holds(x, c.op, AtomOfValue(AsPrintedCond(c).value).value))
  {
    hide Compare, Holds, LegalCond, AtomOfValue, AsPrintedCond;
    TreeAtom(c);
    var o, a := OpTree(c), AtomOfValue(AsPrintedCond(c).value).value;
    CompareMeans(x, c.op, a);
    assert MatchOps(x, o, 1) == Some(true);
  }

  lemma TreeAtom(c: Condition)
    requires LegalCond(c)
    ensures AtomOf(ValueTree(c)) == AtomOfValue(AsPrintedCond(c).value) && (ValueTree(c).Text? || ValueTree(c).Number?)
  {
  }

  /** The printed query is legal, too. */
  lemma CondPrinted(c: Condition)
    requires LegalCond(c)
    ensures LegalCond(AsPrintedCond(c))
  {
    hide Rounded, GoFloat;
    if c.value.Float? { RoundedGoFloat(c.value.v); }
  }

  lemma {:induction false} NodePrinted(n: Node)
    requires LegalNode(n)
    ensures LegalNode(AsPrinted(n))
    decreases n, 1
  {
    hide LegalCond;
    forall i | 0 <= i < |n.conds|
      ensures var x := AsPrinted(n).conds[i];
              (x.Cond? && LegalCond(x.c)) || (x.Sub? && LegalNode(x.n))
    {
      ItemPrinted(n, i);
    }
  }

  lemma {:induction false} ItemPrinted(n: Node, i: nat)
    requires LegalNode(n) && i < |n.conds|
    ensures var x := AsPrintedItem(n, i);
            (x.Cond? && LegalCond(x.c)) || (x.Sub? && LegalNode(x.n))
    decreases n, 0
  {
    hide LegalCond, AsPrinted;
    match n.conds[i]
    case Cond(c) => CondPrinted(c);
    case Sub(m) => NodePrinted(m);
  }

  /** A condition: the server rejects it exactly when it inverts a bare value,
      and otherwise selects the documents for which the printed condition holds. */
  lemma CondMeans(c: Condition, d: Doc)
    requires LegalCond(c)
    ensures LegalCond(AsPrintedCond(c))
    ensures Match(CondTree(c), d) == if TranslatableCond(c) then Some(SelectsCond(AsPrintedCond(c), d)) else None
  {
    hide Compare, Holds, AtomOfValue, ValueTree, Rounded, GoValue;
    var j, x := CondTree(c), FieldOf(d, c.field);
    CondPrinted(c);
    TreeAtom(c);
    FieldMeans(x, c);
    assert Operator("$and") && Operator("$or");
    assert MatchMembers(j, 1, d) == Some(true);
    assert j.members[0] == (c.field, if c.invert then Object([("$not", OpTree(c))]) else OpTree(c));
  }

  lemma FieldMeans(x: Option<Atom>, c: Condition)
    requires LegalCond(c)
    ensures var v := if c.invert then Object([("$not", OpTree(c))]) else OpTree(c);
            MatchField(x, v) == if TranslatableCond(c)
                                then Some(Holds(x, c.op, AtomOfValue(AsPrintedCond(c).value).value) != c.invert) else None
  {
    hide Compare, AtomOfValue, ValueTree, LegalCond, AsPrintedCond;
    TreeAtom(c);
    var o := OpTree(c);
    if c.op != NO { OpsMean(x, c); }
    if c.invert {
      var v := Object([("$not", o)]);
      assert MatchOps(x, v, 1) == Some(true);
    }
  }

  lemma {:induction false} NodeMeans(n: Node, d: Doc)
    requires LegalNode(n)
    ensures LegalNode(AsPrinted(n))
    ensures Match(NodeTree(n), d) == if Translatable(n) then Some(Selects(AsPrinted(n), d)) else None
    decreases n, 3
  {
    hide LegalNode, SelectsFrom, TranslatableFrom, Trees;
    NodePrinted(n);
    var j, v := NodeTree(n), Array(Trees(n, 0));
    assert MatchMembers(j, 1, d) == Some(true);
    assert j.members[0] == (NodeKey(n.op), v);
    ElemsMean(n, 0, d);
    assert |v.elems| == |n.conds|;
  }

  /** The elements of a node under AND, and under OR. */
  lemma {:induction false} SelectsAll(n: Node, i: nat, d: Doc)
    requires LegalNode(n) && i <= |n.conds|
    ensures n.op == ANDOP ==> (SelectsFrom(n, i, d) <==> forall k | i <= k < |n.conds| :: SelectsItem(n, k, d))
    ensures n.op != ANDOP ==> (!SelectsFrom(n, i, d) <==> forall k | i <= k < |n.conds| :: !SelectsItem(n, k, d))
    decreases |n.conds| - i
  {
    hide LegalNode;
    if i < |n.conds| {
      SelectsAll(n, i + 1, d);
      var first, rest := SelectsItem(n, i, d), SelectsFrom(n, i + 1, d);
      assert SelectsFrom(n, i, d) == if n.op == ANDOP then first && rest else first || rest;
      if n.op == ANDOP {
        if first && rest {
          forall k | i <= k < |n.conds| ensures SelectsItem(n, k, d) {}
        } else {
          var k :| i <= k < |n.conds| && !SelectsItem(n, k, d);
          assert !SelectsItem(n, k, d);
        }
      } else {
        if !first && !rest {
          forall k | i <= k < |n.conds| ensures !SelectsItem(n, k, d) {}
        } else {
          var k :| i <= k < |n.conds| && SelectsItem(n, k, d);
          assert SelectsItem(n, k, d);
        }
      }
    }
  }

  lemma {:induction false} ElemsMean(n: Node, i: nat, d: Doc)
    requires LegalNode(n) && i <= |n.conds|
    ensures LegalNode(AsPrinted(n))
    ensures MatchElems(Array(Trees(n, 0)), i, n.op == ANDOP, d) ==
            if TranslatableFrom(n, i) then Some(SelectsFrom(AsPrinted(n), i, d)) else None
    decreases n, 2, |n.conds| - i
  {
    hide LegalNode, Match, SelectsItem, TranslatableItem, ItemTree, Trees;
    NodePrinted(n);
    var v := Array(Trees(n, 0));
    if i < |n.conds| {
      TreesAt(n, 0, i);
      ItemMeans(n, i, d);
      ElemsMean(n, i + 1, d);
    }
  }

  lemma {:induction false} TreesAt(n: Node, i: nat, k: nat)
    requires LegalNode(n) && i <= k < |n.conds|
    ensures Trees(n, i)[k - i] == ItemTree(n, k)
    decreases k - i
  {
    hide LegalNode, ItemTree;
    if i < k { TreesAt(n, i + 1, k); }
  }

  lemma {:induction false} ItemMeans(n: Node, i: nat, d: Doc)
    requires LegalNode(n) && i < |n.conds|
    ensures LegalNode(AsPrinted(n))
    ensures Match(ItemTree(n, i), d) == if TranslatableItem(n, i) then Some(SelectsItem(AsPrinted(n), i, d)) else None
    decreases n, 1
  {
    hide Match, SelectsCond, TranslatableCond, CondTree, NodeTree, Translatable;
    NodePrinted(n);
    match n.conds[i]
    case Cond(c) => CondMeans(c, d);
    case Sub(m) => NodeMeans(m, d);
  }

  predicate TranslatableTop(x: Item) {
    match x
    case Cond(c) => TranslatableCond(c)
    case Sub(n) => Translatable(n)
    case Missing => false
  }

  predicate SelectsTop(x: Item, d: Doc)
    requires LegalItem(x)
  {
    if x.Cond? then SelectsCond(x.c, d) else Selects(x.n, d)
  }

  function AsPrintedTop(x: Item): Item {
    match x
    case Cond(c) => Cond(AsPrintedCond(c))
    case Sub(n) => Sub(AsPrinted(n))
    case Missing => Missing
  }

  /** The text sent to the server, read as JSON and applied to any document,
      selects it exactly when the query with its floats as they are printed does;
      the server rejects the text exactly when a bare value is inverted or a node
      is empty or has no operator, at any depth. */
  lemma TranslationMeans(x: Item, d: Doc)
    requires LegalItem(x)
    ensures Read(Filter(x)).Some? && LegalItem(AsPrintedTop(x))
    ensures Match(Read(Filter(x)).value, d) == if TranslatableTop(x) then Some(SelectsTop(AsPrintedTop(x), d)) else None
  {
    hide Read, Filter, Match, CondTree, NodeTree, SelectsCond, Selects, Translatable, TranslatableCond, AsPrinted, AsPrintedCond;
    FilterReads(x);
    match x
    case Cond(c) => CondMeans(c, d);
    case Sub(n) => NodeMeans(n, d);
  }

  // ---- floats with more than eight digits after the point ----

  /** Every float, at any depth, has at most eight digits after the point. */
  predicate ExactCond(c: Condition) {
    c.value.Float? ==> Rounded(c.value.v) == c.value.v
  }

  predicate Exact(n: Node)
    decreases n
  {
    forall i | 0 <= i < |n.conds| ::
      match n.conds[i]
      case Cond(c) => ExactCond(c)
      case Sub(m) => Exact(m)
      case Missing => true
  }

  lemma {:induction false} PrintedSame(n: Node)
    ensures AsPrinted(n) == n <==> Exact(n)
    decreases n
  {
    hide Rounded;
    forall i | 0 <= i < |n.conds|
      ensures AsPrintedItem(n, i) == n.conds[i] <==>
              match n.conds[i]
              case Cond(c) => ExactCond(c)
              case Sub(m) => Exact(m)
              case Missing => true
    {
      if n.conds[i].Sub? { PrintedSame(n.conds[i].n); }
    }
    assert AsPrinted(n) == n <==> forall i | 0 <= i < |n.conds| :: AsPrintedItem(n, i) == n.conds[i];
  }

  /** Without such floats the translation keeps the meaning of the query. */
  lemma TranslationExact(x: Item, d: Doc)
    requires LegalItem(x) && TranslatableTop(x) && (if x.Cond? then ExactCond(x.c) else Exact(x.n))
    ensures Read(Filter(x)).Some? && Match(Read(Filter(x)).value, d) == Some(SelectsTop(x, d))
  {
    hide Read, Filter, Match, LegalItem, TranslatableTop, SelectsTop, Rounded;
    TranslationMeans(x, d);
    if x.Sub? { PrintedSame(x.n); }
  }

  /** A single condition keeps its meaning for all documents exactly when its
      value has at most eight digits after the point. */
  lemma CondExact(c: Condition)
    requires LegalCond(c) && TranslatableCond(c)
    ensures (forall d :: Match(CondTree(c), d) == Some(SelectsCond(c, d))) <==> ExactCond(c)
  {
    hide Match, SelectsCond, CondTree, LegalCond, Rounded, TranslatableCond;
    forall d: Doc ensures LegalCond(AsPrintedCond(c)) && Match(CondTree(c), d) == Some(SelectsCond(AsPrintedCond(c), d)) {
      CondMeans(c, d);
    }
    if !ExactCond(c) {
      CondPrinted(c);
      RoundingShows(c);
    }
  }

  /** A document whose field has the value itself, or the printed one, shows the
      difference. */
  lemma RoundingShows(c: Condition)
    requires LegalCond(c) && LegalCond(AsPrintedCond(c)) && !ExactCond(c)
    ensures var d, e := map[c.field := NumAtom(c.value.v)], map[c.field := NumAtom(Rounded(c.value.v))];
            SelectsCond(c, d) != SelectsCond(AsPrintedCond(c), d) || SelectsCond(c, e) != SelectsCond(AsPrintedCond(c), e)
  {
    hide Rounded, LegalCond;
  }
}
