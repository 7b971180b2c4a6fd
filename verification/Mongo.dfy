/** The translation of queries to Mongo filters, and what both mean. */
module Mongo {
  import opened Wrappers
  import opened Blobs
  import opened QueryAst
  import opened Decimal
  import opened ValueText
  import opened Json

  /** The fields of an indexed document. */
  datatype Atom = StrAtom(s: string) | NumAtom(v: real)

  type Doc = map<string, Atom>

  function FieldOf(d: Doc, f: string): Option<Atom> {
    if f in d then Some(d[f]) else None
  }

  // ---- the translator ----

  function OToMdb(c: Condition): string {
    var v := VtoS(c.value);
    match c.op
    case NO => v
    case EQ => Member("$eq", v)
    case LT => Member("$lt", v)
    case LE => Member("$lte", v)
    case GT => Member("$gt", v)
    case GE => Member("$gte", v)
    case NE => Member("$ne", v)
  }

  function CToMdb(c: Condition): string {
    var cv := OToMdb(c);
    Member(c.field, if c.invert then Member("$not", cv) else cv)
  }

  /** The operator's name in lower case, after a dollar. */
  function NodeKey(op: NodeOp): string {
    match op case NOOP => "$nop" case ANDOP => "$and" case OROP => "$or"
  }

  function NToMdb(n: Node): string
    requires NoMissing(n)
    decreases n, 3
  {
    Member(NodeKey(n.op), "[" + (XsToMdb(n, 0) + "]"))
  }

  /** The elements of a node from `i` on. */
  function XsToMdb(n: Node, i: nat): string
    requires NoMissing(n) && i <= |n.conds|
    decreases n, 2, |n.conds| - i
  {
    if i == |n.conds| then ""
    else if i + 1 == |n.conds| then XToMdb(n, i)
    else XToMdb(n, i) + ("," + (" " + XsToMdb(n, i + 1)))
  }

  function XToMdb(n: Node, i: nat): string
    requires NoMissing(n) && i < |n.conds|
    decreases n, 1
  {
    if n.conds[i].Cond? then CToMdb(n.conds[i].c) else NToMdb(n.conds[i].n)
  }

  /** The filter of a whole query, after its `#`. */
  function Filter(x: Item): string
    requires !x.Missing? && (x.Sub? ==> NoMissing(x.n))
  {
    if x.Cond? then CToMdb(x.c) else NToMdb(x.n)
  }

  method ToMongoQuery(q: Query) returns (t: string)
    requires !q.cond.Missing? && (q.cond.Sub? ==> NoMissing(q.cond.n))
    ensures t == "#" + Filter(q.cond)
  {
    var f: string;
    match q.cond {
      case Cond(c) => f := CToMdb(c);
      case Sub(n) => f := NodeToMdb(n);
    }
    t := "#" + f;
  }

  method NodeToMdb(n: Node) returns (t: string)
    requires NoMissing(n)
    ensures t == NToMdb(n)
    decreases n, 1
  {
    hide XToMdb, XsToMdb, NoMissing, Member;
    var b := "";
    XsEnd(n);
    for i := 0 to |n.conds|
      invariant i < |n.conds| ==> b + (if i == 0 then "" else ", ") + XsToMdb(n, i) == XsToMdb(n, 0)
      invariant i == |n.conds| ==> b == XsToMdb(n, 0)
      invariant i == 0 ==> b == ""
    {
      ghost var was := b;
      if i > 0 { b := b + ", "; }
      var x := ItemToMdb(n, i);
      XsStep(n, i, b);
      b := b + x;
    }
    t := Member(NodeKey(n.op), "[" + (b + "]"));
  }

  method ItemToMdb(n: Node, i: nat) returns (t: string)
    requires NoMissing(n) && i < |n.conds|
    ensures t == XToMdb(n, i)
    decreases n, 0
  {
    match n.conds[i] {
      case Cond(c) => t := CToMdb(c);
      case Sub(m) => t := NodeToMdb(m);
    }
  }

  lemma XsStep(n: Node, i: nat, b: string)
    requires NoMissing(n) && i < |n.conds|
    ensures b + XsToMdb(n, i) ==
            if i + 1 == |n.conds| then b + XToMdb(n, i) else (b + XToMdb(n, i)) + ", " + XsToMdb(n, i + 1)
  {
    if i + 1 < |n.conds| { assert "," + (" " + XsToMdb(n, i + 1)) == ", " + XsToMdb(n, i + 1); }
  }

  lemma XsEnd(n: Node)
    requires NoMissing(n)
    ensures XsToMdb(n, |n.conds|) == ""
  {
  }

  // ---- what a Mongo server makes of a filter ----

  function AtomOf(j: Json): Option<Atom> {
    match j
    case Text(s) => Some(StrAtom(s))
    case Number(v) => Some(NumAtom(v))
    case _ => None
  }

  /** Values of different types are not comparable. */
  predicate Below(a: Atom, b: Atom) {
    match (a, b)
    case (StrAtom(s), StrAtom(t)) => Less(s, t)
    case (NumAtom(x), NumAtom(y)) => x < y
    case _ => false
  }

  /** One comparison operator on the value of a field; None when the server
      rejects it. */
  function Compare(x: Option<Atom>, op: string, a: Atom): Option<bool> {
    if op == "$eq" then Some(x == Some(a))
    else if op == "$ne" then Some(x != Some(a))
    else if op == "$lt" then Some(x.Some? && Below(x.value, a))
    else if op == "$lte" then Some(x.Some? && (x.value == a || Below(x.value, a)))
    else if op == "$gt" then Some(x.Some? && Below(a, x.value))
    else if op == "$gte" then Some(x.Some? && (x.value == a || Below(a, x.value)))
    else None
  }

  predicate Operator(k: string) {
    k != "" && k[0] == '$'
  }

  /** The operators of an object from `i` on, applied to the value of a field. */
  function MatchOps(x: Option<Atom>, o: Json, i: nat): Option<bool>
    requires o.Object? && i <= |o.members|
    decreases o, |o.members| - i
  {
    if i == |o.members| then Some(true)
    else
      var k, j := o.members[i].0, o.members[i].1;
      var first :=
        if k == "$not" then
          if j.Object? && j.members != [] && Operator(j.members[0].0) then
            var r := MatchOps(x, j, 0);
            if r.None? then None else Some(!r.value)
          else None
        else if AtomOf(j).Some? then Compare(x, k, AtomOf(j).value) else None;
      var rest := MatchOps(x, o, i + 1);
      if first.None? || rest.None? then None else Some(first.value && rest.value)
  }

  /** A bare value asks for an equal one; no field holds an object or array. */
  function MatchField(x: Option<Atom>, j: Json): Option<bool> {
    match j
    case Object(ops) => if ops != [] && Operator(ops[0].0) then MatchOps(x, j, 0) else Some(false)
    case Array(_) => Some(false)
    case _ => Some(x == AtomOf(j))
  }

  /** Does a document match a filter? The members of a filter all have to; None
      when the server rejects it. */
  function Match(j: Json, d: Doc): Option<bool>
    decreases j, 0
  {
    if !j.Object? then None else MatchMembers(j, 0, d)
  }

  function MatchMembers(j: Json, i: nat, d: Doc): Option<bool>
    requires j.Object? && i <= |j.members|
    decreases j, 0, |j.members| - i
  {
    if i == |j.members| then Some(true)
    else
      var k, v := j.members[i].0, j.members[i].1;
      var first :=
        if k == "$and" || k == "$or" then
          if v.Array? && v.elems != [] then MatchElems(v, 0, k == "$and", d) else None
        else if Operator(k) then None
        else MatchField(FieldOf(d, k), v);
      var rest := MatchMembers(j, i + 1, d);
      if first.None? || rest.None? then None else Some(first.value && rest.value)
  }

  /** The filters of an array from `i` on: all of them, or any of them. */
  function MatchElems(v: Json, i: nat, all: bool, d: Doc): Option<bool>
    requires v.Array? && i <= |v.elems|
    decreases v, 0, |v.elems| - i
  {
    if i == |v.elems| then Some(all)
    else
      var first, rest := Match(v.elems[i], d), MatchElems(v, i + 1, all, d);
      if first.None? || rest.None? then None
      else Some(if all then first.value && rest.value else first.value || rest.value)
  }

  // ---- what a query means ----

  /** The value of a condition: a string without the quotes that the parser
      leaves around it, or a number. */
  function AtomOfValue(v: Value): Option<Atom> {
    match v
    case Str(s) => if |Quoted(s)| >= 2 then Some(StrAtom(Quoted(s)[1..|Quoted(s)| - 1])) else None
    case Int(n) => Some(NumAtom(n as real))
    case Float(x) => Some(NumAtom(x))
    case _ => None
  }

  /** Numbers that Go can hold. */
  predicate GoValue(v: Value) {
    match v
    case Int(n) => GoInt(n)
    case Float(x) => GoFloat(x)
    case _ => true
  }

  /** Names and strings without quotes, backslashes or control characters, and
      no name that starts like an operator. */
  predicate LegalCond(c: Condition): (r: bool)
    ensures r ==> AtomOfValue(c.value).Some?
  {
    && Plain(c.field) && !Operator(c.field) && AtomOfValue(c.value).Some? && GoValue(c.value)
    && (AtomOfValue(c.value).value.StrAtom? ==> Plain(AtomOfValue(c.value).value.s))
  }

  predicate Holds(x: Option<Atom>, op: FieldOp, a: Atom) {
    match op
    case NO => x == Some(a)
    case EQ => x == Some(a)
    case NE => x != Some(a)
    case LT => x.Some? && Below(x.value, a)
    case LE => x.Some? && !Below(a, x.value) && Comparable(x.value, a)
    case GT => x.Some? && Below(a, x.value)
    case GE => x.Some? && !Below(x.value, a) && Comparable(x.value, a)
  }

  predicate Comparable(a: Atom, b: Atom) {
    a.StrAtom? == b.StrAtom?
  }

  predicate SelectsCond(c: Condition, d: Doc)
    requires LegalCond(c)
  {
    Holds(FieldOf(d, c.field), c.op, AtomOfValue(c.value).value) != c.invert
  }

  predicate LegalNode(n: Node): (r: bool)
    ensures r ==> NoMissing(n)
    decreases n
  {
    NoMissing(n) && forall i | 0 <= i < |n.conds| ::
      match n.conds[i]
      case Cond(c) => LegalCond(c)
      case Sub(m) => LegalNode(m)
      case Missing => false
  }

  /** All elements under AND, some element otherwise. */
  predicate Selects(n: Node, d: Doc)
    requires LegalNode(n)
    decreases n, 2
  {
    SelectsFrom(n, 0, d)
  }

  /** The same for the elements from `i` on. */
  predicate SelectsFrom(n: Node, i: nat, d: Doc)
    requires LegalNode(n) && i <= |n.conds|
    decreases n, 1, |n.conds| - i
  {
    if i == |n.conds| then n.op == ANDOP
    else if n.op == ANDOP then SelectsItem(n, i, d) && SelectsFrom(n, i + 1, d)
    else SelectsItem(n, i, d) || SelectsFrom(n, i + 1, d)
  }

  predicate SelectsItem(n: Node, i: nat, d: Doc)
    requires LegalNode(n) && i < |n.conds|
    decreases n, 0
  {
    match n.conds[i]
    case Cond(c) => SelectsCond(c, d)
    case Sub(m) => Selects(m, d)
  }

  /** The query with its floats rounded to eight digits after the point, as they
      are printed. */
  function AsPrintedCond(c: Condition): Condition {
    if c.value.Float? then c.(value := Float(Rounded(c.value.v))) else c
  }

  function AsPrinted(n: Node): (r: Node)
    ensures r.op == n.op && |r.conds| == |n.conds|
    decreases n, 1
  {
    Node(n.op, seq(|n.conds|, i requires 0 <= i < |n.conds| => AsPrintedItem(n, i)))
  }

  function AsPrintedItem(n: Node, i: nat): Item
    requires i < |n.conds|
    decreases n, 0
  {
    match n.conds[i]
    case Cond(c) => Cond(AsPrintedCond(c))
    case Sub(m) => Sub(AsPrinted(m))
    case Missing => Missing
  }

  /** No bare value is inverted, no node is empty or without an operator. */
  predicate TranslatableCond(c: Condition) {
    !(c.invert && c.op == NO)
  }

  predicate Translatable(n: Node)
    decreases n, 2
  {
    n.op != NOOP && n.conds != [] && TranslatableFrom(n, 0)
  }

  predicate TranslatableFrom(n: Node, i: nat)
    requires i <= |n.conds|
    decreases n, 1, |n.conds| - i
  {
    i == |n.conds| || (TranslatableItem(n, i) && TranslatableFrom(n, i + 1))
  }

  predicate TranslatableItem(n: Node, i: nat)
    requires i < |n.conds|
    decreases n, 0
  {
    match n.conds[i]
    case Cond(c) => TranslatableCond(c)
    case Sub(m) => Translatable(m)
    case Missing => false
  }
}
