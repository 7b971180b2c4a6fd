/** The round trip: what the parser makes of the text of a printed query. */
module RoundTrips {
  import opened Wrappers
  import opened Utf8
  import opened Peg
  import opened QueryAst
  import opened QueryGrammar
  import opened Decimal
  import opened Texts
  import opened Tokens
  import opened ValueText
  import opened Values
  import opened Terms
  import opened Pairs
  import opened BareTerms
  import opened FlatQueries
  import opened FlatRuns
  import opened QueryParse
  import opened GroupParse
  import opened NotNames
  import opened QueryPrint

  /** Values whose text is one token of the query language. */
  predicate PrintableVal(v: Value) {
    match v
    case Str(s) => var q := Quoted(s); |q| >= 3 && LegalPhrase(q[1..|q| - 1])
    case Int(n) => GoInt(n)
    case Float(x) => GoFloat(x)
    case _ => false
  }

  predicate PrintableCond(c: Condition) {
    !c.invert && LegalKey(c.field) && PrintableVal(c.value)
  }

  /** A node of at least two plain conditions under AND or OR. */
  predicate PrintableNode(n: Node) {
    n.op != NOOP && |n.conds| >= 2 && forall i | 0 <= i < |n.conds| :: n.conds[i].Cond? && PrintableCond(n.conds[i].c)
  }

  predicate NotName(c: Condition) {
    "NOT" <= c.field
  }

  /** What a printed value comes back as: quoted strings, and numbers as floats
      rounded to eight digits after the point. */
  function NormVal(v: Value): Value {
    match v
    case Str(s) => Str(Quoted(s))
    case Int(n) => Float(n as real)
    case Float(x) => Float(Rounded(x))
    case _ => v
  }

  function Norm(c: Condition): Condition {
    c.(value := NormVal(c.value))
  }

  function NormNode(n: Node): Node
    requires PrintableNode(n)
  {
    n.(conds := seq(|n.conds|, i requires 0 <= i < |n.conds| => Cond(Norm(n.conds[i].c))))
  }

  /** What the parser reads: a field name that starts with NOT is taken for the
      negation of the rest of the name. */
  function ReadBack(c: Condition): Condition {
    if NotName(c) then Norm(c.(field := c.field[3..], invert := true)) else Norm(c)
  }

  function ReadNode(n: Node): Node
    requires PrintableNode(n)
  {
    n.(conds := seq(|n.conds|, i requires 0 <= i < |n.conds| => Cond(ReadBack(n.conds[i].c))))
  }

  function ValTextOf(v: Value): ValText
    requires PrintableVal(v)
  {
    match v
    case Str(s) => PhraseText(Quoted(s)[1..|Quoted(s)| - 1])
    case Int(n) => NumberText(IntText(n))
    case Float(x) => NumberText(FloatText(x))
  }

  function TermOf(c: Condition): Term
    requires PrintableCond(c)
  {
    if NotName(c) then Term(NotWord(""), Pair(c.field[3..], "", c.op, ValTextOf(c.value)))
    else Term(Plain, Pair(c.field, "", c.op, ValTextOf(c.value)))
  }

  lemma StrTextIs(s: string)
    requires PrintableVal(Str(s))
    ensures var t := ValTextOf(Str(s)); TextOf(t) == Quoted(s) && LegalVal(t)
  {
    hide LegalPhrase;
    var q := Quoted(s);
    assert q == "\"" + q[1..|q| - 1] + "\"";
  }

  lemma NumberTextIs(t: string, x: real)
    requires LegalNumber(t) && ParseFloat(t) == Some(x)
    ensures var v := NumberText(t); LegalVal(v) && ValueOf(v) == Float(x) && !BadNumber(v)
  {
    hide ParseFloat, LegalNumber;
  }

  lemma ValTextIs(v: Value)
    requires PrintableVal(v)
    ensures TextOf(ValTextOf(v)) == VtoS(v) && LegalVal(ValTextOf(v)) && !ValTextOf(v).WindowText?
    ensures ValueOf(ValTextOf(v)) == NormVal(v) && !BadNumber(ValTextOf(v))
  {
    hide ParseFloat, IntText, FloatText, Rounded, Quoted, LegalVal, LegalNumber;
    match v {
      case Str(s) => StrTextIs(s);
      case Int(n) =>
        NumberTexts(n, 0.0);
        IntRoundTrip(n);
        NumberTextIs(IntText(n), n as real);
      case Float(x) =>
        NumberTexts(0, x);
        FloatRoundTrip(x);
        NumberTextIs(FloatText(x), Rounded(x));
    }
  }

  lemma NumberTexts(n: int, x: real)
    ensures LegalNumber(IntText(n)) && LegalNumber(FloatText(x))
  {
    DigitsNumber(Dec(if n < 0 then -n else n));
    var a, b := Dec(Scaled(x) / SCALE), Pad(Scaled(x) % SCALE, 8);
    DigitsNumber(a);
    DigitsNumber(b);
    FloatShape(a, b);
    assert FloatText(x) == (if x < 0.0 then "-" else "") + (a + "." + b);
  }

  lemma DigitsNumber(t: string)
    requires AllDigits(t)
    ensures forall i | 0 <= i < |t| :: NumberChar(t[i]) && NumberStart(t[i])
  {
  }

  lemma FloatShape(a: string, b: string)
    requires a != "" && AllDigits(a) && AllDigits(b)
    ensures LegalNumber(a + "." + b) && LegalNumber("-" + (a + "." + b))
  {
  }

  lemma TermOfIs(c: Condition)
    requires PrintableCond(c)
    ensures CondOf(TermOf(c)) == ReadBack(c) && TermLen(TermOf(c)) == |CondText(c)|
    ensures !BadNumber(TermOf(c).atom.val) && !Silent(TermOf(c))
  {
    ValTextIs(c.value);
  }

  lemma RestOfName(c: Condition)
    requires PrintableCond(c) && NotName(c) && c.field != "NOT"
    ensures c.field == "NOT" + c.field[3..] && LegalKey(c.field[3..])
  {
  }

  /** A printed condition is a term of the query language, unless its field name
      is NOT. */
  lemma CondAt(data: string, pos: nat, c: Condition)
    requires PrintableCond(c) && c.field != "NOT"
    requires StartsAt(data, pos, CondText(c)) && AtDelim(data, pos + |CondText(c)|)
    ensures TermAt(data, pos, TermOf(c))
  {
    hide LegalVal, AtDelim, PrintableVal, LegalKey, TextOf, OpText, ValTextOf, CondText, PairAt, TermAt, StartsAt;
    var v := ValTextOf(c.value);
    CondFacts(data, pos, c);
    KeyOf(c);
    if NotName(c) {
      RestOfName(c);
      StartsSplit(data, pos, "NOT", c.field[3..]);
      PairFrom(data, pos + 3, c.field[3..], c.op, v);
      NegTerm(data, pos, TermOf(c));
    } else {
      EmptyGap(data, pos);
      PairFrom(data, pos, c.field, c.op, v);
      PlainTerm(data, pos, TermOf(c));
    }
  }

  lemma KeyOf(c: Condition)
    requires PrintableCond(c)
    ensures LegalKey(c.field)
  {
  }

  lemma NegTerm(data: string, pos: nat, t: Term)
    requires t.neg == NotWord("") && t.atom.Pair? && StartsAt(data, pos, "NOT") && PairAt(data, pos + 3, t.atom)
    ensures TermAt(data, pos, t)
  {
    hide PairAt;
    StartsBound(data, pos, "NOT");
    EmptyGap(data, pos + 3);
  }

  lemma PairFrom(data: string, pos: nat, f: string, op: FieldOp, v: ValText)
    requires var p := pos + |f| + 1;
             && p <= |data| && LegalKey(f) && StartsAt(data, pos, f) && data[p - 1] == ':' && StartsAt(data, p, OpText(op))
             && LegalVal(v) && !v.WindowText? && StartsAt(data, p + |OpText(op)|, TextOf(v))
             && AtDelim(data, p + |OpText(op)| + |TextOf(v)|)
    ensures PairAt(data, pos, Pair(f, "", op, v))
  {
    hide LegalVal, AtDelim, LegalKey, TextOf, OpText, StartsAt;
    EmptyGap(data, pos + |f| + 1);
    hide GapAt;
  }

  lemma CondFacts(data: string, pos: nat, c: Condition)
    requires !c.invert && PrintableVal(c.value) && StartsAt(data, pos, CondText(c)) && AtDelim(data, pos + |CondText(c)|)
    ensures var v, p := ValTextOf(c.value), pos + |c.field| + 1;
            && p <= |data| && StartsAt(data, pos, c.field) && data[p - 1] == ':' && StartsAt(data, p, OpText(c.op))
            && LegalVal(v) && !v.WindowText? && StartsAt(data, p + |OpText(c.op)|, TextOf(v))
            && AtDelim(data, p + |OpText(c.op)| + |TextOf(v)|)
  {
    hide *;
    CondTextIs(c);
    ValTextIs(c.value);
    CondSplit(data, pos, c.field, OpText(c.op), VtoS(c.value));
  }

  lemma CondTextIs(c: Condition)
    requires !c.invert
    ensures CondText(c) == c.field + (":" + (OpText(c.op) + VtoS(c.value)))
    ensures |CondText(c)| == |c.field| + 1 + |OpText(c.op)| + |VtoS(c.value)|
  {
    hide OpText, VtoS;
  }

  lemma PlainTerm(data: string, pos: nat, t: Term)
    requires t.neg.Plain? && t.atom.Pair? && PairAt(data, pos, t.atom) && GapAt(data, pos, "") && !("NOT" <= t.atom.field)
    ensures TermAt(data, pos, t)
  {
    hide PairAt;
    assert NegText(t.neg) == "" && NegGap(t.neg) == "" && StartsAt(data, pos, "");
  }

  lemma EmptyGap(data: string, pos: nat)
    requires pos <= |data|
    ensures GapAt(data, pos, "")
  {
  }

  lemma CondSplit(data: string, pos: nat, f: string, op: string, v: string)
    requires StartsAt(data, pos, f + (":" + (op + v)))
    ensures var c := pos + |f|;
            && StartsAt(data, pos, f) && c < |data| && data[c] == ':'
            && StartsAt(data, c + 1, op) && StartsAt(data, c + 1 + |op|, v)
  {
    StartsSplit(data, pos, f, ":" + (op + v));
    StartsSplit(data, pos + |f|, ":", op + v);
    StartsOne(data, pos + |f|, ':');
    StartsSplit(data, pos + |f| + 1, op, v);
  }

  function SepOf(n: Node): Sep {
    Sep(" ", n.op == OROP, false, " ")
  }

  /** The terms of a printed node from `i` up to `k`. */
  function RestOf(n: Node, i: nat, k: nat): Rest
    requires PrintableNode(n) && i <= k <= |n.conds|
    decreases k - i
  {
    if i == k then [] else [(SepOf(n), TermOf(n.conds[i].c))] + RestOf(n, i + 1, k)
  }

  /** The first element from `i` on whose field name is NOT, or the end. */
  function NotIndex(n: Node, i: nat): (k: nat)
    requires PrintableNode(n) && i <= |n.conds|
    ensures i <= k <= |n.conds| && forall j | i <= j < k :: n.conds[j].c.field != "NOT"
    ensures k < |n.conds| ==> n.conds[k].c.field == "NOT"
    decreases |n.conds| - i
  {
    if i == |n.conds| || n.conds[i].c.field == "NOT" then i else NotIndex(n, i + 1)
  }

  lemma Complete(n: Node)
    requires PrintableNode(n)
    ensures NoMissing(n)
  {
  }

  lemma OneSpace(data: string, pos: nat)
    requires pos < |data| && data[pos] == ' '
    ensures GapAt(data, pos, " ")
  {
    StartsOne(data, pos, ' ');
  }

  lemma SepFrom(data: string, pos: nat, n: Node)
    requires PrintableNode(n) && StartsAt(data, pos, " " + OpName(n.op) + " ")
    requires !WsAt(data, pos + |OpName(n.op)| + 2)
    ensures SepAt(data, pos, SepOf(n)) && SepLen(SepOf(n)) == |OpName(n.op)| + 2
    ensures pos < |data| && data[pos] == ' '
  {
    hide StartsAt, GapAt;
    var t := OpName(n.op);
    assert " " + t + " " == " " + (t + " ");
    StartsSplit(data, pos, " ", t + " ");
    StartsSplit(data, pos + 1, t, " ");
    StartsOne(data, pos, ' ');
    StartsOne(data, pos + 1 + |t|, ' ');
    OneSpace(data, pos);
    OneSpace(data, pos + 1 + |t|);
    assert SepTok(SepOf(n)) == t;
  }

  /** The first character of a printed condition is no whitespace. */
  lemma CondNotWs(c: Condition)
    requires PrintableCond(c)
    ensures CondText(c) != "" && !IsWs(CondText(c)[0])
  {
    assert CondText(c)[0] == c.field[0];
  }

  /** From element `i` up to `k`, a printed node is the rest of a flat query. */
  lemma {:induction false} RestFrom(data: string, pos: nat, n: Node, i: nat, k: nat)
    requires PrintableNode(n) && NoMissing(n) && 1 <= i <= k <= |n.conds|
    requires forall j | i <= j < k :: n.conds[j].c.field != "NOT"
    requires StartsAt(data, pos, Joined(n, i))
    requires pos + |Joined(n, i)| < |data| && data[pos + |Joined(n, i)|] == ')'
    ensures var rest := RestOf(n, i, k);
            && RestTo(data, pos, rest) && StartsAt(data, pos + RestLen(rest), Joined(n, k))
            && RestLen(rest) + |Joined(n, k)| == |Joined(n, i)|
    ensures AtDelim(data, pos)
    decreases k - i
  {
    hide StartsAt, CondText, PrintableCond, TermAt, SepAt, SepLen, TermLen, SepOf, TermOf, GapAt;
    JoinedDelim(data, pos, n, i);
    if i < k {
      var c, sep := n.conds[i].c, " " + OpName(n.op) + " ";
      var p := pos + |sep|;
      var q := p + |CondText(c)|;
      JoinedSplit(data, pos, n, i);
      RestFrom(data, q, n, i + 1, k);
      JoinedDelim(data, q, n, i + 1);
      CondAt(data, p, c);
      SepFrom(data, pos, n);
      TermOfIs(c);
      RestCons(data, pos, n, i, k);
    }
  }

  lemma JoinedDelim(data: string, pos: nat, n: Node, i: nat)
    requires PrintableNode(n) && NoMissing(n) && 1 <= i <= |n.conds|
    requires StartsAt(data, pos, Joined(n, i))
    requires pos + |Joined(n, i)| < |data| && data[pos + |Joined(n, i)|] == ')'
    ensures AtDelim(data, pos)
  {
    hide StartsAt, ItemText;
    if i < |n.conds| {
      assert Joined(n, i)[0] == ' ';
      StartsChar(data, pos, Joined(n, i), 0);
    }
  }

  /** One element with its separator and what follows. */
  lemma JoinedSplit(data: string, pos: nat, n: Node, i: nat)
    requires PrintableNode(n) && NoMissing(n) && 1 <= i < |n.conds| && StartsAt(data, pos, Joined(n, i))
    ensures var c, sep := n.conds[i].c, " " + OpName(n.op) + " "; var p := pos + |sep|;
            && |sep| == |OpName(n.op)| + 2 && StartsAt(data, pos, sep) && StartsAt(data, p, CondText(c)) && !WsAt(data, p)
            && StartsAt(data, p + |CondText(c)|, Joined(n, i + 1))
            && |Joined(n, i)| == |sep| + |CondText(c)| + |Joined(n, i + 1)|
  {
    hide StartsAt, CondText, PrintableCond;
    var c, sep := n.conds[i].c, " " + OpName(n.op) + " ";
    var p := pos + |sep|;
    assert Joined(n, i) == sep + (CondText(c) + Joined(n, i + 1));
    StartsSplit(data, pos, sep, CondText(c) + Joined(n, i + 1));
    StartsSplit(data, p, CondText(c), Joined(n, i + 1));
    CondNotWs(c);
    StartsChar(data, p, CondText(c), 0);
  }

  lemma RestCons(data: string, pos: nat, n: Node, i: nat, k: nat)
    requires PrintableNode(n) && 1 <= i < k <= |n.conds|
    requires var s, t := SepOf(n), TermOf(n.conds[i].c);
             && SepAt(data, pos, s) && TermAt(data, pos + SepLen(s), t)
             && RestTo(data, pos + SepLen(s) + TermLen(t), RestOf(n, i + 1, k))
    ensures RestTo(data, pos, RestOf(n, i, k))
    ensures RestLen(RestOf(n, i, k)) == SepLen(SepOf(n)) + TermLen(TermOf(n.conds[i].c)) + RestLen(RestOf(n, i + 1, k))
  {
    hide SepAt, TermAt, PrintableCond, SepLen, TermLen, SepOf, TermOf, NoMissing;
    var rest := RestOf(n, i, k);
    assert rest == [(SepOf(n), TermOf(n.conds[i].c))] + RestOf(n, i + 1, k);
    assert rest[1..] == RestOf(n, i + 1, k);
  }

  /** The parser gives this query for the text. */
  ghost predicate ParsesTo(g: Grammar, data: string, q: Query)
    requires Q(g)
  {
    Built(g, data) == Some(Value.Parsed(q))
  }

  /** What the parser makes of a printed condition. */
  lemma ConditionReads(g: Grammar, c: Condition)
    requires Q(g) && PrintableCond(c)
    ensures Built(g, CondText(c)) == if c.field != "NOT" && ValidUtf8(CondText(c))
                                     then Some(Value.Parsed(Query(Cond(ReadBack(c))))) else None
  {
    hide Built, CondText, PrintableCond, ReadBack, TermAt, TermLen, TermOf, BadNumber, WholeText, ValidUtf8, Silent, CondOf;
    var data := CondText(c);
    Whole(data);
    if c.field == "NOT" {
      CondPlain(c);
      NotStarts(data, 0, c);
      NotTextUnbuilt(g, data);
    } else {
      var t := TermOf(c);
      CondAt(data, 0, c);
      TermOfIs(c);
      BareFrom(data, t);
      FlatQueryParses(g, data, "", t, [], "");
    }
  }

  lemma NotStarts(data: string, pos: nat, c: Condition)
    requires !c.invert && c.field == "NOT" && StartsAt(data, pos, CondText(c))
    ensures StartsAt(data, pos, "NOT:")
  {
    hide StartsAt, OpText, VtoS;
    var v := OpText(c.op) + VtoS(c.value);
    assert CondText(c) == "NOT:" + v;
    StartsSplit(data, pos, "NOT:", v);
  }

  lemma ReadBackIs(c: Condition)
    requires !c.invert
    ensures ReadBack(c) == Norm(c) <==> !NotName(c)
  {
  }

  /** Where the parts of a printed inverted condition stand. */
  lemma InvertedParts(data: string, c: Condition)
    requires PrintableCond(c) && data == CondText(c.(invert := true))
    ensures var t := CondText(c); var p := 2 + |t|;
            && NegAt(data, 0, Bang("")) && ParenAt(data, 1) && StartsAt(data, 2, t) && AtDelim(data, p)
            && p + 1 == |data| && data[p] == ')'
  {
    hide StartsAt, PrintableVal, VtoS, OpText, LegalKey;
    var t := CondText(c);
    assert data == "!" + ("(" + (t + ")"));
    Whole(data);
    StartsSplit(data, 0, "!", "(" + (t + ")"));
    StartsSplit(data, 1, "(", t + ")");
    StartsSplit(data, 2, t, ")");
    StartsOne(data, 1, '(');
    StartsOne(data, 2 + |t|, ')');
    EmptyGap(data, 1);
  }

  /** What the parser makes of a printed inverted condition: a node without an
      operator around the condition, which is no longer inverted. */
  lemma InvertedReads(g: Grammar, c: Condition)
    requires Q(g) && PrintableCond(c)
    ensures var t := CondText(c.(invert := true));
            Built(g, t) == if c.field != "NOT" && ValidUtf8(t)
                           then Some(Value.Parsed(Query(Sub(Node(NOOP, [Cond(ReadBack(c))]))))) else None
  {
    hide Built, RecRule, CondText, PrintableCond, ReadBack, TermAt, TermLen, TermOf, BadNumber, GroupText, ValidUtf8, Silent, CondOf,
         NegAt, StartsAt, AtDelim;
    var data := CondText(c.(invert := true));
    InvertedParts(data, c);
    if c.field == "NOT" {
      CondPlain(c);
      NotStarts(data, 2, c);
      SuffixFails(g, data, 2);
      NegUnbuilt(g, data, Bang(""));
    } else {
      var t := TermOf(c);
      CondAt(data, 2, c);
      TermOfIs(c);
      NegFrom(data, t);
      GroupQueryParses(g, data, "", Bang(""), "", t, [], "", "");
      assert [Cond(CondOf(t))] + Conds([]) == [Cond(CondOf(t))];
    }
  }

  lemma NegFrom(data: string, t: Term)
    requires NegAt(data, 0, Bang("")) && ParenAt(data, 1) && TermAt(data, 2, t)
    requires var p := 2 + TermLen(t); p + 1 == |data| && data[p] == ')'
    ensures GroupText(data, "", Bang(""), "", t, [], "", "")
  {
    hide TermAt, TermLen, NegAt;
    var p := 2 + TermLen(t);
    EmptyGap(data, 0);
    EmptyGap(data, 2);
    EmptyGap(data, p);
    EmptyGap(data, |data|);
    assert EndAt(data, p, "") && RestAt(data, p, [], "") && FlatAt(data, 2, t, [], "");
  }

  /** A condition comes back from its text exactly when it is not inverted, its
      field name does not start with NOT and the text is UTF-8. */
  lemma RoundTripExact(g: Grammar, c: Condition)
    requires Q(g) && PrintableCond(c.(invert := false))
    ensures ParsesTo(g, CondText(c), Query(Cond(Norm(c)))) <==> !c.invert && !NotName(c) && ValidUtf8(CondText(c))
  {
    hide Built, CondText, PrintableVal, LegalKey, Norm, ReadBack, ValidUtf8;
    if c.invert {
      assert c == c.(invert := false).(invert := true);
      InvertedReads(g, c.(invert := false));
    } else {
      assert c == c.(invert := false);
      ConditionReads(g, c);
      ReadBackIs(c);
    }
  }

  /** A node of a single condition is printed as the condition, and so does not
      come back as a node. */
  lemma SingleNodeLost(g: Grammar, n: Node, c: Condition, m: Node)
    requires Q(g) && n.conds == [Cond(c)] && PrintableCond(c)
    ensures NoMissing(n) && NodeText(n) == CondText(c)
    ensures !ParsesTo(g, NodeText(n), Query(Sub(m)))
  {
    hide Built, CondText, PrintableCond, ReadBack, ValidUtf8;
    SingleText(n, c);
    ConditionReads(g, c);
  }

  lemma SingleText(n: Node, c: Condition)
    requires n.conds == [Cond(c)]
    ensures NoMissing(n) && NodeText(n) == CondText(c)
  {
    hide CondText;
    assert Joined(n, 1) == "" && ItemText(n, 0) == CondText(c);
    assert Joined(n, 0) == ItemText(n, 0) + Joined(n, 1);
  }

  lemma BareFrom(data: string, t: Term)
    requires TermAt(data, 0, t) && TermLen(t) == |data|
    ensures WholeText(data, "", t, [], "")
  {
    hide TermAt, TermLen;
    EmptyGap(data, 0);
    EmptyGap(data, |data|);
    assert EndAt(data, |data|, "") && RestAt(data, |data|, [], "") && FlatAt(data, 0, t, [], "");
    assert FlatLen(t, []) == |data|;
  }

  lemma {:induction false} RestOfIs(n: Node, i: nat)
    requires PrintableNode(n) && i <= |n.conds|
    ensures Conds(RestOf(n, i, |n.conds|)) == ReadNode(n).conds[i..]
    ensures var rest := RestOf(n, i, |n.conds|);
            forall k | 0 <= k < |rest| :: OpOf(rest[k].0) == n.op && !BadNumber(rest[k].1.atom.val)
    decreases |n.conds| - i
  {
    hide PrintableCond, ReadBack, TermOf, BadNumber;
    if i < |n.conds| {
      RestOfIs(n, i + 1);
      TermOfIs(n.conds[i].c);
    }
  }

  lemma NodeSplit(n: Node)
    requires PrintableNode(n) && NoMissing(n)
    ensures NodeText(n) == "(" + (CondText(n.conds[0].c) + (Joined(n, 1) + ")"))
  {
    hide CondText, PrintableCond;
    assert Joined(n, 0) == CondText(n.conds[0].c) + Joined(n, 1);
  }

  /** The parts of a printed node. */
  lemma NodeParts(data: string, n: Node)
    requires PrintableNode(n) && NoMissing(n) && data == NodeText(n)
    ensures var c := n.conds[0].c; var p := 1 + |CondText(c)|; var q := p + |Joined(n, 1)|;
            && ParenAt(data, 0) && StartsAt(data, 1, CondText(c)) && !WsAt(data, 1) && StartsAt(data, p, Joined(n, 1))
            && q + 1 == |data| && data[q] == ')' && AtDelim(data, p)
  {
    hide CondText, PrintableCond, Joined, StartsAt, NodeText, AtDelim, NoMissing;
    var c := n.conds[0].c;
    var p := 1 + |CondText(c)|;
    NodeSplit(n);
    Whole(data);
    StartsSplit(data, 0, "(", CondText(c) + (Joined(n, 1) + ")"));
    StartsSplit(data, 1, CondText(c), Joined(n, 1) + ")");
    StartsSplit(data, p, Joined(n, 1), ")");
    StartsOne(data, 0, '(');
    StartsOne(data, p + |Joined(n, 1)|, ')');
    CondNotWs(c);
    StartsChar(data, 1, CondText(c), 0);
    JoinedDelim(data, p, n, 1);
  }

  /** Without a field name NOT, a printed node is a flat query in parentheses. */
  lemma NodeAt(data: string, n: Node)
    requires PrintableNode(n) && NoMissing(n) && data == NodeText(n) && NotIndex(n, 0) == |n.conds|
    ensures GroupText(data, "", Plain, "", TermOf(n.conds[0].c), RestOf(n, 1, |n.conds|), "", "")
  {
    hide CondText, PrintableCond, Joined, StartsAt, NodeText, TermAt, RestAt, RestTo, TermLen, RestLen, GroupText, NoMissing,
         NotIndex, TermOf, WsAt, AtDelim;
    var c := n.conds[0].c;
    var p := 1 + |CondText(c)|;
    NodeParts(data, n);
    RestFrom(data, p, n, 1, |n.conds|);
    CondAt(data, 1, c);
    TermOfIs(c);
    JoinedNone(n);
    GroupFrom(data, TermOf(c), RestOf(n, 1, |n.conds|));
  }

  lemma JoinedNone(n: Node)
    requires NoMissing(n)
    ensures Joined(n, |n.conds|) == ""
  {
  }

  lemma GroupFrom(data: string, first: Term, rest: Rest)
    requires ParenAt(data, 0)
    requires var p := 1 + TermLen(first); var q := p + RestLen(rest);
             q + 1 == |data| && data[q] == ')' && TermAt(data, 1, first) && RestTo(data, p, rest)
    ensures GroupText(data, "", Plain, "", first, rest, "", "")
  {
    hide TermAt, RestAt, RestTo, TermLen, RestLen;
    var p := 1 + TermLen(first);
    EmptyGap(data, 0);
    EmptyGap(data, 1);
    EmptyGap(data, p + RestLen(rest));
    EmptyGap(data, |data|);
    RestEnds(data, p, rest, "");
  }

  lemma Whole(data: string)
    ensures StartsAt(data, 0, data) && AtDelim(data, |data|)
  {
    assert data[0..|data|] == data;
  }

  /** A field name NOT anywhere in a node makes its text unreadable. */
  lemma NodeUnread(g: Grammar, n: Node)
    requires Q(g) && PrintableNode(n) && NotIndex(n, 0) < |n.conds|
    ensures NoMissing(n) && Built(g, NodeText(n)) == None
  {
    hide Built, RecRule, PrintableCond, NodeText, CondText, Joined, StartsAt, WsAt, AtDelim, TermAt, TermOf, TermLen, NotIndex;
    Complete(n);
    var data, k, c := NodeText(n), NotIndex(n, 0), n.conds[0].c;
    NodeParts(data, n);
    if k == 0 {
      CondPlain(c);
      NotStarts(data, 1, c);
      SuffixFails(g, data, 1);
    } else {
      var p := 1 + |CondText(c)|;
      CondAt(data, 1, c);
      TermOfIs(c);
      StopsAt(g, data, n, k);
    }
    GroupUnbuilt(g, data);
  }

  lemma CondPlain(c: Condition)
    requires PrintableCond(c)
    ensures !c.invert
  {
  }

  lemma StopsAt(g: Grammar, data: string, n: Node, k: nat)
    requires Q(g) && PrintableNode(n) && NoMissing(n) && 1 <= k < |n.conds| && n.conds[k].c.field == "NOT"
    requires forall j | 0 <= j < k :: n.conds[j].c.field != "NOT"
    requires var t := TermOf(n.conds[0].c); var p := 1 + TermLen(t);
             && TermAt(data, 1, t) && StartsAt(data, p, Joined(n, 1))
             && p + |Joined(n, 1)| < |data| && data[p + |Joined(n, 1)|] == ')'
    ensures 1 <= |data| && RecRule(g, data, GROUP_SUFFIX, 1) == None
  {
    hide Q, RecRule, PrintableCond, NodeText, CondText, Joined, StartsAt, WsAt, AtDelim, TermAt, TermOf, TermLen, RestTo, RestLen,
         SepAt, SepLen, NoMissing;
    var t := TermOf(n.conds[0].c);
    var p, rest := 1 + TermLen(t), RestOf(n, 1, k);
    RestFrom(data, p, n, 1, k);
    var e := p + RestLen(rest);
    JoinedSplit(data, e, n, k);
    SepFrom(data, e, n);
    CondPlain(n.conds[k].c);
    NotStarts(data, e + SepLen(SepOf(n)), n.conds[k].c);
    SuffixStops(g, data, 1, t, rest, SepOf(n));
  }

  /** What the parser makes of a printed node. */
  lemma NodeReads(g: Grammar, n: Node)
    requires Q(g) && PrintableNode(n) && NotIndex(n, 0) == |n.conds|
    ensures NoMissing(n)
    ensures Built(g, NodeText(n)) == if ValidUtf8(NodeText(n)) then Some(Value.Parsed(Query(Sub(ReadNode(n))))) else None
  {
    hide Built, RecRule, PrintableCond, NodeText, GroupText, NotIndex, ValidUtf8, GroupQueryFor, Rejected;
    Complete(n);
    var data, first, rest := NodeText(n), TermOf(n.conds[0].c), RestOf(n, 1, |n.conds|);
    NodeAt(data, n);
    GroupQueryParses(g, data, "", Plain, "", first, rest, "", "");
    QueryForIs(n);
  }

  lemma QueryForIs(n: Node)
    requires PrintableNode(n)
    ensures var first, rest := TermOf(n.conds[0].c), RestOf(n, 1, |n.conds|);
            rest != [] && GroupQueryFor(first, rest) == Query(Sub(ReadNode(n))) && !Rejected(first, rest)
  {
    hide PrintableCond, ReadBack, TermOf, BadNumber, CondOf, Silent;
    RestOfIs(n, 1);
    TermOfIs(n.conds[0].c);
    assert ReadNode(n).conds == [Cond(ReadBack(n.conds[0].c))] + ReadNode(n).conds[1..];
    assert RestOf(n, 1, |n.conds|)[0].0 == SepOf(n) && OpOf(SepOf(n)) == n.op;
  }

  lemma ReadNodeIs(n: Node)
    requires PrintableNode(n)
    ensures ReadNode(n) == NormNode(n) <==> forall i | 0 <= i < |n.conds| :: !NotName(n.conds[i].c)
  {
    hide Norm, ReadBack, NotName;
    forall i | 0 <= i < |n.conds|
      ensures ReadNode(n).conds[i] == NormNode(n).conds[i] <==> !NotName(n.conds[i].c)
    {
      CondPlain(n.conds[i].c);
      ReadBackIs(n.conds[i].c);
    }
  }

  /** A flat node of at least two plain conditions comes back from its text, with
      its operator and its conditions in order, exactly when no field name starts
      with NOT and the text is UTF-8. */
  lemma NodeRoundTripExact(g: Grammar, n: Node)
    requires Q(g) && PrintableNode(n)
    ensures NoMissing(n)
    ensures ParsesTo(g, NodeText(n), Query(Sub(NormNode(n))))
       <==> (forall i | 0 <= i < |n.conds| :: !NotName(n.conds[i].c)) && ValidUtf8(NodeText(n))
  {
    hide Built, PrintableCond, NodeText, Norm, ReadBack, ValidUtf8, NormNode, ReadNode;
    Complete(n);
    var k := NotIndex(n, 0);
    if k == |n.conds| {
      NodeReads(g, n);
      ReadNodeIs(n);
    } else {
      NodeUnread(g, n);
      assert NotName(n.conds[k].c);
    }
  }
}
