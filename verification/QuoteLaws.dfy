/** Filters that are no JSON: a string that is printed as a single quote. */
module QuoteLaws {
  import opened Wrappers
  import opened QueryAst
  import opened Texts
  import opened ValueText
  import opened Json
  import opened Mongo
  import opened MongoLaws

  /** The empty string and the string of one quote are printed as one quote
      instead of two. */
  predicate OneQuote(c: Condition) {
    c.value.Str? && |Quoted(c.value.s)| == 1
  }

  lemma OneQuoteIs(c: Condition)
    requires c.value.Str?
    ensures OneQuote(c) <==> c.value.s == "" || c.value.s == "\""
    ensures OneQuote(c) ==> VtoS(c.value) == "\""
  {
  }

  /** A condition whose name and value are plain, but perhaps a single quote. */
  predicate Clean(c: Condition) {
    if OneQuote(c) then Plain(c.field) && !Operator(c.field) else LegalCond(c)
  }

  /** A name whose first character is no space, brace or comma. */
  predicate FirmName(f: string) {
    f != "" ==> Firm(f[0])
  }

  predicate CleanNode(n: Node): (r: bool)
    ensures r ==> NoMissing(n)
    decreases n
  {
    NoMissing(n) && forall i | 0 <= i < |n.conds| ::
      match n.conds[i]
      case Cond(c) => Clean(c) && FirmName(c.field)
      case Sub(m) => CleanNode(m)
      case Missing => false
  }

  /** At some depth a string is printed as a single quote. */
  predicate QuoteIn(n: Node)
    decreases n
  {
    exists i | 0 <= i < |n.conds| ::
      match n.conds[i]
      case Cond(c) => OneQuote(c)
      case Sub(m) => QuoteIn(m)
      case Missing => false
  }

  predicate QuoteAt(x: Item) {
    match x
    case Cond(c) => OneQuote(c)
    case Sub(n) => QuoteIn(n)
    case Missing => false
  }

  /** Without such a string everything is legal. */
  lemma {:induction false} NodeLegal(n: Node)
    requires CleanNode(n) && !QuoteIn(n)
    ensures LegalNode(n)
    decreases n
  {
    hide LegalCond;
    forall i | 0 <= i < |n.conds|
      ensures match n.conds[i]
              case Cond(c) => LegalCond(c)
              case Sub(m) => LegalNode(m)
              case Missing => false
    {
      match n.conds[i]
      case Cond(c) => assert Clean(c) && !OneQuote(c);
      case Sub(m) => NodeLegal(m);
      case Missing =>
    }
  }

  lemma OpKeyPlain(op: FieldOp)
    requires op != NO
    ensures Plain(OpKey(op))
  {
    hide Plain;
    KeysPlain();
  }

  /** A single quote. */
  lemma QuoteFails(s: string, i: nat)
    requires StartsAt(s, i, "\"") && TailAt(s, i + 1)
    ensures i <= |s| && Stuck(s, i)
  {
    hide *;
    StartsOne(s, i, '"');
    QuoteStuck(s, i);
  }

  /** After the single quote of a condition there are only braces. */
  lemma QuoteOpFails(s: string, i: nat, c: Condition)
    requires OneQuote(c) && StartsAt(s, i, OToMdb(c)) && TailAt(s, i + |OToMdb(c)|)
    ensures i <= |s| && Stuck(s, i)
  {
    hide *;
    OneQuoteOp(c);
    StartsBound(s, i, OToMdb(c));
    if c.op == NO {
      QuoteFails(s, i);
    } else {
      var k := OpKey(c.op);
      OpKeyPlain(c.op);
      InMember(s, i, k, "\"");
      BraceTail(s, i + |k| + 6);
      QuoteFails(s, i + |k| + 5);
      MemberFails(s, i, k, "\"");
      FailsStuck(s, i);
    }
  }

  lemma OneQuoteOp(c: Condition)
    requires OneQuote(c)
    ensures OToMdb(c) == if c.op == NO then "\"" else Member(OpKey(c.op), "\"")
  {
    hide Member;
    OneQuoteIs(c);
  }

  lemma BraceTail(s: string, p: nat)
    requires p < |s| && s[p] == '}' && TailAt(s, p + 1)
    ensures TailAt(s, p)
  {
    TailBack(s, p, p + 1);
  }

  lemma FailsStuck(s: string, i: nat)
    requires i <= |s| && ReadValue(s, i) == None
    ensures Stuck(s, i)
  {
    hide ReadValue;
  }

  lemma QuoteCondFails(s: string, i: nat, c: Condition)
    requires OneQuote(c) && Plain(c.field) && StartsAt(s, i, CToMdb(c)) && TailAt(s, i + |CToMdb(c)|)
    ensures i <= |s| && ReadValue(s, i) == None
  {
    hide ReadValue, Plain, StartsAt, OToMdb, Member, TailAt, OneQuote;
    var o := OToMdb(c);
    var t := if c.invert then Member("$not", o) else o;
    InMember(s, i, c.field, t);
    var p := i + |c.field| + 5;
    TailBack(s, p + |t|, p + |t| + 1);
    if c.invert {
      KeysPlain();
      InMember(s, p, "$not", o);
      TailBack(s, p + 9 + |o|, p + |t|);
      QuoteOpFails(s, p + 9, c);
      MemberFails(s, p, "$not", o);
    } else {
      QuoteOpFails(s, p, c);
    }
    MemberFails(s, i, c.field, t);
  }

  /** What an element starts with: a brace, a quote and a firm character. */
  lemma XStart(n: Node, k: nat)
    requires CleanNode(n) && k < |n.conds|
    ensures var x := XToMdb(n, k); |x| > 2 && x[0] == '{' && x[1] == '"' && Firm(x[2])
  {
    hide LegalCond, OToMdb;
    match n.conds[k]
    case Cond(c) => MemberStart(c.field, if c.invert then Member("$not", OToMdb(c)) else OToMdb(c));
    case Sub(m) => MemberStart(NodeKey(m.op), "[" + (XsToMdb(m, 0) + "]"));
  }

  lemma MemberStart(k: string, t: string)
    requires FirmName(k)
    ensures var x := Member(k, t); |x| > 2 && x[0] == '{' && x[1] == '"' && Firm(x[2])
  {
    var x := Member(k, t);
    assert x[2] == if k == "" then '"' else k[0];
  }

  /** The text from element `k` on starts with the text of the element. */
  lemma XsStart(s: string, i: nat, n: Node, k: nat)
    requires CleanNode(n) && k < |n.conds| && StartsAt(s, i, XsToMdb(n, k))
    ensures i + 2 < |s| && s[i] == '{' && s[i + 1] == '"' && Firm(s[i + 2])
  {
    hide StartsAt, CleanNode, NoMissing, Firm, XToMdb;
    XStart(n, k);
    var x := XsToMdb(n, k);
    StartsBound(s, i, x);
    StartsChar(s, i, x, 0);
    StartsChar(s, i, x, 1);
    StartsChar(s, i, x, 2);
  }

  lemma {:induction false} QuoteNodeFails(s: string, i: nat, n: Node)
    requires CleanNode(n) && QuoteIn(n) && StartsAt(s, i, NToMdb(n)) && TailAt(s, i + |NToMdb(n)|)
    ensures i <= |s| && ReadValue(s, i) == None
    decreases n, 3
  {
    hide ReadValue, ReadElems, Plain, StartsAt, Member, CleanNode, NoMissing, XsToMdb, TailAt, Firm;
    var k, xs := NodeKey(n.op), XsToMdb(n, 0);
    var p := i + |k| + 5;
    KeysPlain();
    InMember(s, i, k, "[" + (xs + "]"));
    ArrayParts(s, p, xs);
    TailBack(s, p + 1 + |xs|, i + |NToMdb(n)|);
    XsStart(s, p + 1, n, 0);
    QuoteElemsFail(s, p + 1, n, 0);
    ArrayFails(s, p);
    FailsStuck(s, p);
    MemberFails(s, i, k, "[" + (xs + "]"));
  }

  lemma {:induction false} QuoteElemsFail(s: string, i: nat, n: Node, k: nat)
    requires CleanNode(n) && k < |n.conds| && StartsAt(s, i, XsToMdb(n, k)) && TailAt(s, i + |XsToMdb(n, k)|)
    requires exists j | k <= j < |n.conds| :: QuoteAt(n.conds[j])
    ensures i <= |s| && ReadElems(s, i) == None
    decreases n, 2, |n.conds| - k
  {
    hide ReadValue, ReadElems, StartsAt, CleanNode, NoMissing, XToMdb, TailAt, Firm, QuoteAt;
    var x := XToMdb(n, k);
    if k + 1 == |n.conds| {
      assert XsToMdb(n, k) == x;
      QuoteItemFails(s, i, n, k);
      ElemFails(s, i);
    } else {
      NextParts(s, i, x, XsToMdb(n, k + 1));
      var e := i + |x|;
      XsStart(s, e + 2, n, k + 1);
      TailQuote(s, e + 3);
      TailBack(s, e, e + 3);
      if QuoteAt(n.conds[k]) {
        QuoteItemFails(s, i, n, k);
        ElemFails(s, i);
      } else {
        GoodItemReads(s, i, n, k);
        QuoteElemsFail(s, e + 2, n, k + 1);
        NextFails(s, i, ReadValue(s, i).value.0, e);
      }
    }
  }

  lemma {:induction false} QuoteItemFails(s: string, i: nat, n: Node, k: nat)
    requires CleanNode(n) && k < |n.conds| && QuoteAt(n.conds[k])
    requires StartsAt(s, i, XToMdb(n, k)) && TailAt(s, i + |XToMdb(n, k)|)
    ensures i <= |s| && ReadValue(s, i) == None
    decreases n, 1
  {
    hide ReadValue, StartsAt, Member, NToMdb, CToMdb, TailAt, OneQuote;
    match n.conds[k]
    case Cond(c) => QuoteCondFails(s, i, c);
    case Sub(m) => QuoteNodeFails(s, i, m);
  }

  lemma GoodItemReads(s: string, i: nat, n: Node, k: nat)
    requires CleanNode(n) && k < |n.conds| && !QuoteAt(n.conds[k]) && StartsAt(s, i, XToMdb(n, k))
    ensures i <= |s| && ReadValue(s, i).Some? && ReadValue(s, i).value.1 == i + |XToMdb(n, k)|
  {
    hide ReadValue, StartsAt, Member, NToMdb, CToMdb, QuoteIn, LegalNode, OneQuote;
    StartsBound(s, i, XToMdb(n, k));
    match n.conds[k]
    case Cond(c) => CondReads(s, i, c);
    case Sub(m) => NodeLegal(m); NodeReads(s, i, m);
  }

  /** Both strings make a bare condition unreadable, and nothing else does. */
  lemma CondReadable(c: Condition)
    requires Clean(c)
    ensures Read(CToMdb(c)).Some? <==> !OneQuote(c)
  {
    hide ReadValue, CToMdb, OneQuote, LegalCond, Plain;
    var s := CToMdb(c);
    if OneQuote(c) {
      Whole(s);
      TailEnd(s);
      QuoteCondFails(s, 0, c);
    } else {
      FilterReads(Cond(c));
    }
  }

  lemma Whole(s: string)
    ensures StartsAt(s, 0, s)
  {
  }

  /** The filter of a node is JSON exactly when no string at any depth is printed
      as a single quote. */
  lemma NodeReadable(n: Node)
    requires CleanNode(n)
    ensures Read(NToMdb(n)).Some? <==> !QuoteIn(n)
  {
    hide ReadValue, NToMdb, CleanNode, QuoteIn, LegalNode;
    var s := NToMdb(n);
    if QuoteIn(n) {
      Whole(s);
      TailEnd(s);
      QuoteNodeFails(s, 0, n);
    } else {
      NodeLegal(n);
      FilterReads(Sub(n));
    }
  }
}
