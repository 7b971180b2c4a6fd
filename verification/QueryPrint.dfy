/** Printing of queries. */
module QueryPrint {
  import opened QueryAst
  import opened ValueText
  import opened Terms

  function CondText(c: Condition): string {
    var t := c.field + ":" + OpText(c.op) + VtoS(c.value);
    if c.invert then "!(" + t + ")" else t
  }

  function NodeText(n: Node): string
    requires NoMissing(n)
    decreases n, 3
  {
    if |n.conds| > 1 then "(" + Joined(n, 0) + ")" else Joined(n, 0)
  }

  function ItemText(n: Node, i: nat): string
    requires NoMissing(n) && i < |n.conds|
    decreases n, 1
  {
    if n.conds[i].Cond? then CondText(n.conds[i].c) else NodeText(n.conds[i].n)
  }

  /** The elements from `i` on, separated by the operator. */
  function Joined(n: Node, i: nat): string
    requires NoMissing(n) && i <= |n.conds|
    decreases n, 2, |n.conds| - i
  {
    if i == |n.conds| then ""
    else (if i == 0 then "" else " " + OpName(n.op) + " ") + ItemText(n, i) + Joined(n, i + 1)
  }

  /** One element of a node, with the operator in front of all but the first. */
  function Piece(n: Node, i: nat): string
    requires NoMissing(n) && i < |n.conds|
  {
    (if i == 0 then "" else " " + OpName(n.op) + " ") + ItemText(n, i)
  }

  lemma JoinedStep(n: Node, i: nat, b: string)
    requires NoMissing(n) && i < |n.conds|
    ensures b + Joined(n, i) == b + Piece(n, i) + Joined(n, i + 1)
  {
    assert Joined(n, i) == Piece(n, i) + Joined(n, i + 1);
  }

  lemma JoinedEnd(n: Node, b: string)
    requires NoMissing(n)
    ensures b + Joined(n, |n.conds|) == b
  {
  }

  lemma NodeTextIs(n: Node)
    requires NoMissing(n)
    ensures NodeText(n) == if |n.conds| > 1 then "(" + Joined(n, 0) + ")" else Joined(n, 0)
  {
  }

  /** The printer writes into a buffer; `f` is true before the first element. */
  method NodeString(n: Node) returns (b: string)
    requires NoMissing(n)
    ensures b == NodeText(n)
    decreases n, 1
  {
    hide Joined, ItemText, NodeText, NoMissing, OpName;
    b := "";
    var cl := |n.conds|;
    if cl > 1 {
      b := b + "(";
    }
    ghost var open := b;
    NodeTextIs(n);
    var f := true;
    for i := 0 to cl
      invariant f <==> i == 0
      invariant b + Joined(n, i) == open + Joined(n, 0)
    {
      ghost var was := b;
      JoinedStep(n, i, was);
      if !f {
        b := b + " ";
        b := b + OpName(n.op);
        b := b + " ";
      }
      var t := ItemString(n, i);
      b := b + t;
      f := false;
      assert b == was + Piece(n, i);
    }
    JoinedEnd(n, b);
    if cl > 1 {
      b := b + ")";
    }
  }

  method ItemString(n: Node, i: nat) returns (t: string)
    requires NoMissing(n) && i < |n.conds|
    ensures t == ItemText(n, i)
    decreases n, 0
  {
    match n.conds[i] {
      case Cond(c) => t := CondText(c);
      case Sub(m) => t := NodeString(m);
      case Missing => t := "";
    }
  }
}
