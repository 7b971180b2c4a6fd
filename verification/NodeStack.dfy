/** The node stack on which the semantic actions build a query. */
module NodeStacks {
  import opened Wrappers
  import opened QueryAst

  datatype Stack = Stack(node: Option<Node>, cond: Option<Condition>)

  const EMPTY: Stack := Stack(None, None)
  const FRESH: Condition := Condition("", NO, NoValue, false)

  function ItemOf(c: Option<Condition>): Item {
    match c
    case None => Missing
    case Some(c) => Cond(c)
  }

  function Appended(n: Node, c: Option<Condition>): Node {
    n.(conds := n.conds + [ItemOf(c)])
  }

  function WithNewNode(s: Stack): Stack {
    match s.node
    case Some(n) => Stack(Some(Node(NOOP, [Sub(Appended(n, s.cond))])), None)
    case None => Stack(Some(Node(NOOP, if s.cond.Some? then [Cond(s.cond.value)] else [])), None)
  }

  function WithNode(s: Stack): (r: Stack)
    ensures r.node.Some?
  {
    if s.node.None? then WithNewNode(s) else s
  }

  function WithNewCondition(s: Stack): Stack {
    if s.cond.None? then s.(cond := Some(FRESH))
    else if s.node.Some? then Stack(Some(Appended(s.node.value, s.cond)), Some(FRESH))
    else WithNewNode(s).(cond := Some(FRESH))
  }

  function WithCondition(s: Stack): (r: Stack)
    ensures r.cond.Some?
  {
    if s.cond.None? then WithNewCondition(s) else s
  }

  function AfterQuery(s: Stack): Stack {
    if s.node.None? then s else s.(node := Some(Appended(s.node.value, s.cond)))
  }

  function QueryOf(s: Stack): Query {
    Query(if s.node.None? then ItemOf(s.cond) else Sub(AfterQuery(s).node.value))
  }

  /** All conditions of an item, in order and at any depth. */
  function Leaves(x: Item): seq<Condition>
    decreases x, 1
  {
    match x
    case Cond(c) => [c]
    case Sub(n) => LeavesFrom(n, 0)
    case Missing => []
  }

  function LeavesFrom(n: Node, i: nat): seq<Condition>
    requires i <= |n.conds|
    decreases n, 0, |n.conds| - i
  {
    if i == |n.conds| then [] else Leaves(n.conds[i]) + LeavesFrom(n, i + 1)
  }

  /** The finished conditions of a stack and the current one behind them. */
  function StackLeaves(s: Stack): seq<Condition> {
    (if s.node.Some? then LeavesFrom(s.node.value, 0) else []) + (if s.cond.Some? then [s.cond.value] else [])
  }

  lemma {:induction false} LeavesAppend(n: Node, x: Item, i: nat)
    requires i <= |n.conds|
    ensures LeavesFrom(n.(conds := n.conds + [x]), i) == LeavesFrom(n, i) + Leaves(x)
    decreases |n.conds| - i
  {
    var m := n.(conds := n.conds + [x]);
    if i == |n.conds| {
      assert LeavesFrom(m, i + 1) == [];
    } else {
      LeavesAppend(n, x, i + 1);
      assert m.conds[i] == n.conds[i];
    }
  }

  lemma OneLeaf(op: NodeOp, x: Item)
    ensures LeavesFrom(Node(op, [x]), 0) == Leaves(x) && LeavesFrom(Node(op, []), 0) == []
  {
    assert LeavesFrom(Node(op, [x]), 1) == [];
  }

  lemma AppendedLeaves(n: Node, c: Option<Condition>)
    ensures LeavesFrom(Appended(n, c), 0) == LeavesFrom(n, 0) + if c.Some? then [c.value] else []
  {
    LeavesAppend(n, ItemOf(c), 0);
  }

  /** No operation of the stack loses, makes up or moves a condition: a new node
      keeps them all, a new condition is put behind them, and the query has them
      all in the order in which they were made. */
  lemma StackKeeps(s: Stack)
    ensures StackLeaves(WithNewNode(s)) == StackLeaves(s) && StackLeaves(WithNode(s)) == StackLeaves(s)
    ensures StackLeaves(WithNewCondition(s)) == StackLeaves(s) + [FRESH]
    ensures StackLeaves(WithCondition(s)) == if s.cond.Some? then StackLeaves(s) else StackLeaves(s) + [FRESH]
    ensures Leaves(QueryOf(s).cond) == StackLeaves(s)
  {
    hide Appended;
    if s.node.Some? {
      AppendedLeaves(s.node.value, s.cond);
      OneLeaf(NOOP, Sub(Appended(s.node.value, s.cond)));
    }
    OneLeaf(NOOP, ItemOf(s.cond));
    hide LeavesFrom;
  }

  class NodeStack {
    var currentNode: Option<Node>
    var currentCondition: Option<Condition>

    function View(): Stack
      reads this
    {
      Stack(currentNode, currentCondition)
    }

    constructor ()
      ensures View() == EMPTY
    {
      currentNode, currentCondition := None, None;
    }

    method Reset()
      modifies this
      ensures View() == EMPTY
    {
      currentNode := None;
      currentCondition := None;
    }

    method Query() returns (q: QueryAst.Query)
      modifies this
      ensures q == QueryOf(old(View())) && View() == AfterQuery(old(View()))
    {
      var c := ItemOf(currentCondition);
      if currentNode.Some? {
        currentNode := Some(currentNode.value.(conds := currentNode.value.conds + [ItemOf(currentCondition)]));
        c := Sub(currentNode.value);
      }
      q := QueryAst.Query(c);
    }

    method NewNode()
      modifies this
      ensures View() == WithNewNode(old(View()))
    {
      var conds: seq<Item> := [];
      if currentNode.Some? {
        currentNode := Some(currentNode.value.(conds := currentNode.value.conds + [ItemOf(currentCondition)]));
        conds := [Sub(currentNode.value)];
        currentCondition := None;
      } else if currentCondition.Some? {
        conds := [Cond(currentCondition.value)];
        currentCondition := None;
      }
      currentNode := Some(Node(NOOP, conds));
    }

    method CurrentNode() returns (n: Node)
      modifies this
      ensures View() == WithNode(old(View())) && n == View().node.value
    {
      if currentNode.None? {
        NewNode();
      }
      n := currentNode.value;
    }

    method NewCondition()
      modifies this
      ensures View() == WithNewCondition(old(View()))
    {
      if currentCondition.Some? {
        if currentNode.Some? {
          currentNode := Some(currentNode.value.(conds := currentNode.value.conds + [ItemOf(currentCondition)]));
        } else {
          NewNode();
        }
      }
      currentCondition := Some(FRESH);
    }

    method CurrentCondition() returns (c: Condition)
      modifies this
      ensures View() == WithCondition(old(View())) && c == View().cond.value
    {
      if currentCondition.None? {
        NewCondition();
      }
      c := currentCondition.value;
    }
  }
}
