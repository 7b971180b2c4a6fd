/** What holds for every interleaving of new operations and goroutine steps. */
module OpsLaws {
  import opened Blobs
  import opened OpsCoor

  predicate Live(ph: Phase) {
    ph.Prepared? || ph.Running? || ph.CalledBack?
  }

  predicate Called(ph: Phase) {
    ph.CalledBack? || ph.Removed? || ph.Finished?
  }

  /** `op` has been appended to the list of `id` and not yet removed. */
  predicate Pending(c: Coor, id: Id, op: Op) {
    op.idx in c.tasks && c.tasks[op.idx].0 == op && op.id == id && Live(c.tasks[op.idx].1)
  }

  ghost predicate Unique(items: seq<Op>) {
    forall i, j | 0 <= i < j < |items| :: items[i].idx != items[j].idx
  }

  ghost predicate ListsOk(c: Coor) {
    forall id :: Unique(ListOf(c.lists, id)) && forall op :: op in ListOf(c.lists, id) <==> Pending(c, id, op)
  }

  /** Indices are handed out once, and a callback runs once. */
  ghost predicate TasksOk(c: Coor) {
    && (forall i :: i in c.tasks <==> 1 <= i <= c.idx)
    && (forall i | i in c.tasks :: c.tasks[i].0.idx == i)
    && (forall i :: c.calls[i] == if i in c.tasks && c.tasks[i].0.hasCallback && Called(c.tasks[i].1) then 1 else 0)
  }

  ghost predicate Inv(c: Coor) {
    TasksOk(c) && ListsOk(c)
  }

  datatype Action = Prepare(opt: OperationType, id: Id, hasCallback: bool) | Advance(i: nat)

  function Next(c: Coor, a: Action): Coor {
    match a
    case Prepare(opt, id, hasCallback) => PreparedWith(c, opt, id, hasCallback)
    case Advance(i) => if i in c.tasks then Advanced(c, i) else c
  }

  function Run(c: Coor, actions: seq<Action>): Coor
    decreases |actions|
  {
    if actions == [] then c else Run(Next(c, actions[0]), actions[1..])
  }

  lemma PositionOf(items: seq<Op>, op: Op)
    requires Unique(items) && op in items
    ensures Position(items, op.idx) < |items| && items[Position(items, op.idx)] == op
  {
  }

  lemma WithoutUnique(items: seq<Op>, idx: nat)
    requires Unique(items)
    ensures Unique(Without(items, idx))
  {
  }

  /** Putting the last element over the one at `p` and cutting the end. */
  lemma SwapRemove(items: seq<Op>, p: nat)
    requires p < |items|
    ensures multiset(items[p := items[|items| - 1]][..|items| - 1]) == multiset(items) - multiset{items[p]}
  {
    var n := |items| - 1;
    assert items == items[..n] + [items[n]];
    if p < n {
      assert items[..n] == items[..p] + [items[p]] + items[p + 1..n];
      assert items[p := items[n]][..n] == items[..p] + [items[n]] + items[p + 1..n];
    } else {
      assert items[p := items[n]][..n] == items[..n];
    }
  }

  /** Taking an operation out drops exactly that one. */
  lemma WithoutExact(items: seq<Op>, op: Op)
    requires Unique(items) && op in items
    ensures multiset(Without(items, op.idx)) == multiset(items) - multiset{op}
    ensures forall x :: x in Without(items, op.idx) <==> x in items && x != op
  {
    PositionOf(items, op);
    SwapRemove(items, Position(items, op.idx));
    UniqueCount(items, op);
    hide Position, Unique;
    var r := Without(items, op.idx);
    forall x ensures x in r <==> x in items && x != op {
      assert x in r <==> multiset(r)[x] > 0;
      assert x in items <==> multiset(items)[x] > 0;
    }
  }

  lemma UniqueCount(items: seq<Op>, op: Op)
    requires Unique(items) && op in items
    ensures multiset(items)[op] == 1
  {
    var k :| 0 <= k < |items| && items[k] == op;
    assert items == items[..k] + [op] + items[k + 1..];
    assert op !in items[..k] && op !in items[k + 1..];
  }

  lemma PrepareOk(c: Coor, opt: OperationType, id: Id, hasCallback: bool)
    requires Inv(c)
    ensures Inv(PreparedWith(c, opt, id, hasCallback))
  {
    var r, op := PreparedWith(c, opt, id, hasCallback), Op(c.idx + 1, opt, id, hasCallback);
    assert c.calls[c.idx + 1] == 0;
    forall x
      ensures Unique(ListOf(r.lists, x)) && forall o :: o in ListOf(r.lists, x) <==> Pending(r, x, o)
    {
      var l := ListOf(c.lists, x);
      assert Unique(l) && forall o :: o in l <==> Pending(c, x, o);
      if x == id {
        forall k | 0 <= k < |l| ensures l[k].idx != op.idx { assert Pending(c, x, l[k]); }
        assert ListOf(r.lists, x) == l + [op];
      } else {
        assert ListOf(r.lists, x) == l;
      }
    }
  }

  lemma AdvanceLists(c: Coor, i: nat, x: Id)
    requires Inv(c) && i in c.tasks
    ensures var r := Advanced(c, i);
            Unique(ListOf(r.lists, x)) && forall o :: o in ListOf(r.lists, x) <==> Pending(r, x, o)
  {
    hide Without, Position, Unique, TasksOk;
    var r, op := Advanced(c, i), c.tasks[i].0;
    var l := ListOf(c.lists, x);
    assert Unique(l) && forall o :: o in l <==> Pending(c, x, o);
    if c.tasks[i].1.CalledBack? && x == op.id {
      assert Pending(c, x, op) && op.idx == i by { TaskIndex(c, i); }
      WithoutExact(l, op);
      WithoutUnique(l, i);
      hide Inv;
      assert ListOf(r.lists, x) == Without(l, i);
    } else {
      assert ListOf(r.lists, x) == l;
    }
  }

  lemma TaskIndex(c: Coor, i: nat)
    requires Inv(c) && i in c.tasks
    ensures c.tasks[i].0.idx == i
  {
  }

  /** A step that calls back counts the callback. */
  lemma TasksStep(c: Coor, i: nat, ph: Phase, r: Coor)
    requires TasksOk(c) && i in c.tasks && (Called(c.tasks[i].1) ==> Called(ph))
    requires r.idx == c.idx && r.tasks == c.tasks[i := (c.tasks[i].0, ph)]
    requires r.calls == if c.tasks[i].0.hasCallback && Called(ph) && !Called(c.tasks[i].1) then c.calls + multiset{i} else c.calls
    ensures TasksOk(r)
  {
  }

  lemma AdvanceTasks(c: Coor, i: nat)
    requires TasksOk(c) && i in c.tasks
    ensures TasksOk(Advanced(c, i))
  {
    hide Without, Position, TasksOk;
    match c.tasks[i].1
    case Prepared => TasksStep(c, i, Running, Advanced(c, i));
    case Running => TasksStep(c, i, CalledBack, Advanced(c, i));
    case CalledBack => TasksStep(c, i, Removed, Advanced(c, i));
    case Removed => TasksStep(c, i, Finished, Advanced(c, i));
    case Finished =>
  }

  lemma AdvanceOk(c: Coor, i: nat)
    requires Inv(c) && i in c.tasks
    ensures Inv(Advanced(c, i))
  {
    hide Without, Unique, ListOf, Pending, TasksOk, Advanced;
    AdvanceTasks(c, i);
    forall x
      ensures var r := Advanced(c, i);
              Unique(ListOf(r.lists, x)) && forall o :: o in ListOf(r.lists, x) <==> Pending(r, x, o)
    {
      AdvanceLists(c, i, x);
    }
  }

  /** Every interleaving of prepares and goroutine steps keeps the invariant. */
  lemma {:induction false} RunOk(c: Coor, actions: seq<Action>)
    requires Inv(c)
    ensures Inv(Run(c, actions))
    decreases |actions|
  {
    if actions != [] {
      match actions[0] {
        case Prepare(opt, id, hasCallback) => PrepareOk(c, opt, id, hasCallback);
        case Advance(i) => if i in c.tasks { AdvanceOk(c, i); }
      }
      RunOk(Next(c, actions[0]), actions[1..]);
    }
  }

  lemma StartOk()
    ensures Inv(Coor(0, map[], map[], multiset{}))
  {
  }

  function LiveOps(c: Coor, id: Id): set<nat> {
    set i | i in c.tasks && c.tasks[i].0.id == id && Live(c.tasks[i].1)
  }

  function Idxs(items: seq<Op>): set<nat> {
    set k | 0 <= k < |items| :: items[k].idx
  }

  lemma {:induction false} UniqueSize(items: seq<Op>)
    requires Unique(items)
    ensures |Idxs(items)| == |items|
    decreases |items|
  {
    if items != [] {
      var n := |items| - 1;
      UniqueSize(items[..n]);
      assert Idxs(items) == Idxs(items[..n]) + {items[n].idx};
    }
  }

  /** The count of an id is the number of its operations that were prepared and
      not yet removed. */
  lemma CountIsLive(c: Coor, id: Id)
    requires Inv(c)
    ensures |ListOf(c.lists, id)| == |LiveOps(c, id)|
  {
    var l := ListOf(c.lists, id);
    assert Unique(l) && forall o :: o in l <==> Pending(c, id, o);
    UniqueSize(l);
    forall i ensures i in Idxs(l) <==> i in LiveOps(c, id) {
      if i in Idxs(l) {
        var k :| 0 <= k < |l| && l[k].idx == i;
        assert Pending(c, id, l[k]);
      }
      if i in LiveOps(c, id) { assert Pending(c, id, c.tasks[i].0) && c.tasks[i].0 in l; }
    }
    assert Idxs(l) == LiveOps(c, id);
  }

  lemma FirstIn(l: seq<Op>)
    ensures l != [] ==> l[0] in l
  {
  }

  /** When all goroutines are done, every count is 0 and every callback has run
      exactly once; no callback has run for an operation that was not prepared. */
  lemma AllDone(c: Coor)
    requires Inv(c) && forall i | i in c.tasks :: c.tasks[i].1.Finished?
    ensures forall id :: ListOf(c.lists, id) == []
    ensures forall i :: c.calls[i] == if i in c.tasks && c.tasks[i].0.hasCallback then 1 else 0
  {
    forall id ensures ListOf(c.lists, id) == [] {
      var l := ListOf(c.lists, id);
      assert Unique(l) && forall o :: o in l <==> Pending(c, id, o);
      assert forall o :: !Pending(c, id, o);
      FirstIn(l);
    }
  }

  /** How many steps a goroutine still has to make. */
  function Left(ph: Phase): nat {
    match ph case Prepared => 4 case Running => 3 case CalledBack => 2 case Removed => 1 case Finished => 0
  }

  function StepsOf(actions: seq<Action>, i: nat): nat {
    if actions == [] then 0 else (if actions[0] == Advance(i) then 1 else 0) + StepsOf(actions[1..], i)
  }

  lemma NextLeft(c: Coor, a: Action, i: nat)
    requires i in c.tasks && i <= c.idx
    ensures i in Next(c, a).tasks && Next(c, a).tasks[i].0 == c.tasks[i].0
    ensures var n := Left(c.tasks[i].1); Left(Next(c, a).tasks[i].1) == if a == Advance(i) && n > 0 then n - 1 else n
  {
    hide Without;
  }

  lemma TaskBound(c: Coor, i: nat)
    requires TasksOk(c) && i in c.tasks
    ensures i <= c.idx
  {
  }

  lemma NextTasks(c: Coor, a: Action)
    requires TasksOk(c)
    ensures TasksOk(Next(c, a))
  {
    match a {
      case Prepare(opt, id, hasCallback) =>
      case Advance(i) => if i in c.tasks { AdvanceTasks(c, i); }
    }
  }

  /** Whatever else happens in between, an operation is finished after four steps
      of its own goroutine. */
  lemma {:induction false} RunFinishes(c: Coor, actions: seq<Action>, i: nat)
    requires TasksOk(c) && i in c.tasks
    ensures i in Run(c, actions).tasks
    ensures var n, k := Left(c.tasks[i].1), StepsOf(actions, i);
            Left(Run(c, actions).tasks[i].1) == if k < n then n - k else 0
    decreases |actions|
  {
    hide TasksOk, Next, Left;
    if actions != [] {
      TaskBound(c, i);
      NextLeft(c, actions[0], i);
      NextTasks(c, actions[0]);
      RunFinishes(Next(c, actions[0]), actions[1..], i);
    }
  }

  /** A new operation is prepared, in the list of its id and not yet called back. */
  lemma PrepareAdds(c: Coor, opt: OperationType, id: Id, hasCallback: bool)
    requires Inv(c)
    ensures var r, op := PreparedWith(c, opt, id, hasCallback), Op(c.idx + 1, opt, id, hasCallback);
            && op.idx !in c.tasks && r.tasks == c.tasks[op.idx := (op, Prepared)]
            && ListOf(r.lists, id) == ListOf(c.lists, id) + [op] && r.calls == c.calls
            && forall x | x != id :: ListOf(r.lists, x) == ListOf(c.lists, x)
  {
  }
}
