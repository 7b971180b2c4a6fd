/** The coordinator of operations on blobs: a list of operations per id, and
    one goroutine per operation. */
module OpsCoor {
  import opened Blobs

  datatype OperationType = OpUnknown | OpBackup | OpTntBck | OpRestore | OpCache

  datatype Op = Op(idx: nat, opt: OperationType, id: Id, hasCallback: bool)

  /** What a goroutine has done so far. */
  datatype Phase = Prepared | Running | CalledBack | Removed | Finished

  /** `calls[i]`: how often the callback of operation `i` has run. */
  datatype Coor = Coor(idx: nat, lists: map<Id, seq<Op>>, tasks: map<nat, (Op, Phase)>, calls: multiset<nat>)

  function Position(items: seq<Op>, idx: nat): (p: nat)
    ensures p <= |items| && (p < |items| ==> items[p].idx == idx)
    ensures forall k | 0 <= k < p :: items[k].idx != idx
  {
    if items == [] || items[0].idx == idx then 0 else 1 + Position(items[1..], idx)
  }

  /** The operation's place is taken by the last one. */
  function Without(items: seq<Op>, idx: nat): seq<Op> {
    var p := Position(items, idx);
    if p < |items| then items[p := items[|items| - 1]][..|items| - 1] else items
  }

  function ListOf(lists: map<Id, seq<Op>>, id: Id): seq<Op> {
    if id in lists then lists[id] else []
  }

  function PreparedWith(c: Coor, opt: OperationType, id: Id, hasCallback: bool): Coor {
    var op := Op(c.idx + 1, opt, id, hasCallback);
    Coor(c.idx + 1, c.lists[id := ListOf(c.lists, id) + [op]], c.tasks[op.idx := (op, Prepared)], c.calls)
  }

  /** The next step of the goroutine of operation `i`. */
  function Advanced(c: Coor, i: nat): Coor
    requires i in c.tasks
  {
    var (op, ph) := c.tasks[i];
    match ph
    case Prepared => c.(tasks := c.tasks[i := (op, Running)])
    case Running =>
      c.(tasks := c.tasks[i := (op, CalledBack)], calls := if op.hasCallback then c.calls + multiset{i} else c.calls)
    case CalledBack =>
      c.(tasks := c.tasks[i := (op, Removed)],
         lists := if op.id in c.lists then c.lists[op.id := Without(c.lists[op.id], op.idx)] else c.lists)
    case Removed => c.(tasks := c.tasks[i := (op, Finished)])
    case Finished => c
  }

  class Operations {
    var items: seq<Op>

    constructor ()
      ensures items == []
    {
      items := [];
    }

    method Append(item: Op)
      modifies this
      ensures items == old(items) + [item]
    {
      items := items + [item];
    }

    method Len() returns (n: nat)
      ensures n == |items|
    {
      return |items|;
    }

    method Remove(op: Op) returns (ok: bool)
      modifies this
      ensures items == Without(old(items), op.idx)
      ensures ok <==> exists k :: 0 <= k < |old(items)| && old(items)[k].idx == op.idx
    {
      var i := -1;
      for x := 0 to |items|
        invariant i == -1 && forall k | 0 <= k < x :: items[k].idx != op.idx
      {
        if items[x].idx == op.idx {
          i := x;
          break;
        }
      }
      if i > -1 {
        items := items[i := items[|items| - 1]];
        items := items[..|items| - 1];
        return true;
      }
      return false;
    }
  }

  class SingleNodeOpsCoor {
    var idx: nat
    var entities: map<Id, Operations>
    var tasks: map<nat, (Op, Phase)>
    var calls: multiset<nat>

    constructor ()
      ensures Valid() && State() == Coor(0, map[], map[], multiset{})
    {
      idx, entities, tasks, calls := 0, map[], map[], multiset{};
    }

    /** Each id has its own list. */
    ghost predicate Valid()
      reads this`entities
    {
      forall a, b | a in entities && b in entities && a != b :: entities[a] != entities[b]
    }

    ghost function Lists(): map<Id, seq<Op>>
      reads this`entities, set id | id in entities :: entities[id]
    {
      map id | id in entities :: entities[id].items
    }

    ghost function State(): Coor
      reads this, set id | id in entities :: entities[id]
    {
      Coor(idx, Lists(), tasks, calls)
    }

    /** The list of an id, an empty one if it has none yet. */
    method Entry(id: Id) returns (ops: Operations)
      requires Valid()
      modifies this`entities
      ensures Valid() && id in entities && entities[id] == ops && ops.items == ListOf(old(Lists()), id)
      ensures forall x | x in entities :: x == id || x in old(entities)
      ensures forall x | x in old(entities) :: x in entities && entities[x] == old(entities)[x]
      ensures id in old(entities) || fresh(ops)
    {
      if id !in entities {
        ops := new Operations();
        entities := entities[id := ops];
      } else {
        ops := entities[id];
      }
    }

    method Enter(op: Op)
      requires Valid()
      modifies this`entities, set x | x in entities :: entities[x]
      ensures Valid() && Lists() == old(Lists())[op.id := ListOf(old(Lists()), op.id) + [op]]
    {
      ghost var lists := Lists()[op.id := ListOf(Lists(), op.id) + [op]];
      var ops := Entry(op.id);
      ops.Append(op);
      forall x | x in entities ensures x in lists && entities[x].items == lists[x] {
        if x != op.id { assert x in old(entities) && entities[x] == old(entities)[x]; }
      }
      assert Lists() == lists;
    }

    method Prepare(opt: OperationType, id: Id, hasCallback: bool) returns (op: Op, ok: bool)
      requires Valid()
      modifies this, set x | x in entities :: entities[x]
      ensures Valid() && State() == PreparedWith(old(State()), opt, id, hasCallback)
      ensures op == Op(idx, opt, id, hasCallback) && ok == (opt != OpUnknown)
    {
      hide SingleNodeOpsCoor.Valid, SingleNodeOpsCoor.Lists, Position, Without;
      ok := opt != OpUnknown;
      idx := idx + 1;
      op := Op(idx, opt, id, hasCallback);
      Enter(op);
      tasks := tasks[idx := (op, Prepared)];
    }

    method Drop(op: Op)
      requires Valid()
      modifies set x | x in entities :: entities[x]
      ensures var l := old(Lists());
              Lists() == if op.id in l then l[op.id := Without(l[op.id], op.idx)] else l
    {
      ghost var was := Lists();
      if op.id in entities {
        var removed := entities[op.id].Remove(op);
        assert Lists() == was[op.id := Without(was[op.id], op.idx)];
      }
    }

    /** One step of the goroutine of operation `i`. */
    method Step(i: nat)
      requires Valid() && i in tasks
      modifies this, set x | x in entities :: entities[x]
      ensures Valid() && State() == Advanced(old(State()), i)
    {
      hide SingleNodeOpsCoor.Valid, SingleNodeOpsCoor.Lists, Position, Without;
      var op, ph := tasks[i].0, tasks[i].1;
      match ph
      case Prepared => tasks := tasks[i := (op, Running)];
      case Running =>
        if op.hasCallback { calls := calls + multiset{i}; }
        tasks := tasks[i := (op, CalledBack)];
      case CalledBack =>
        Drop(op);
        tasks := tasks[i := (op, Removed)];
      case Removed => tasks := tasks[i := (op, Finished)];
      case Finished =>
    }

    method Count(id: Id) returns (n: nat)
      ensures n == |ListOf(Lists(), id)|
    {
      if id !in entities { return 0; }
      n := entities[id].Len();
    }
  }
}
