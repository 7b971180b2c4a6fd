/** The per-mille selectors of the mounted volumes. */
module Volume {
  import opened Blobs

  const U64 := 0x1_0000_0000_0000_0000

  type Name = string

  datatype Info = Info(name: Name, free: nat, total: nat, selector: nat, freepm: nat)

  type Volumes = map<Name, Info>

  /** What a mounted file system reports. */
  predicate Mounted(vi: Info) {
    0 < vi.total < U64 && vi.free <= vi.total
  }

  /** 64-bit arithmetic. */
  function FreePerMill(vi: Info): nat
    requires vi.total > 0
  {
    (vi.free * 1000 % U64) / vi.total
  }

  ghost function SumFree(vs: Volumes, s: set<Name>): nat
    requires s <= vs.Keys
  {
    if s == {} then 0 else var k :| k in s; vs[k].freepm + SumFree(vs, s - {k})
  }

  ghost function SumSelectors(vs: Volumes, s: set<Name>): nat
    requires s <= vs.Keys
  {
    if s == {} then 0 else var k :| k in s; vs[k].selector + SumSelectors(vs, s - {k})
  }

  lemma {:induction false} SumFreeWithout(vs: Volumes, s: set<Name>, x: Name)
    requires s <= vs.Keys && x in s
    ensures SumFree(vs, s) == vs[x].freepm + SumFree(vs, s - {x})
    decreases s
  {
    var k :| k in s && SumFree(vs, s) == vs[k].freepm + SumFree(vs, s - {k});
    if k != x {
      SumFreeWithout(vs, s - {k}, x);
      SumFreeWithout(vs, s - {x}, k);
      assert s - {k} - {x} == s - {x} - {k};
    }
  }

  lemma {:induction false} SumSelectorsWithout(vs: Volumes, s: set<Name>, x: Name)
    requires s <= vs.Keys && x in s
    ensures SumSelectors(vs, s) == vs[x].selector + SumSelectors(vs, s - {x})
    decreases s
  {
    var k :| k in s && SumSelectors(vs, s) == vs[k].selector + SumSelectors(vs, s - {k});
    if k != x {
      SumSelectorsWithout(vs, s - {k}, x);
      SumSelectorsWithout(vs, s - {x}, k);
      assert s - {k} - {x} == s - {x} - {k};
    }
  }

  lemma {:induction false} SumFreeSame(vs: Volumes, ws: Volumes, s: set<Name>)
    requires s <= vs.Keys && s <= ws.Keys && forall k | k in s :: vs[k].freepm == ws[k].freepm
    ensures SumFree(vs, s) == SumFree(ws, s)
    decreases s
  {
    if s != {} {
      var k :| k in s;
      SumFreeWithout(vs, s, k);
      SumFreeWithout(ws, s, k);
      SumFreeSame(vs, ws, s - {k});
    }
  }

  lemma NoSum(vs: Volumes)
    ensures SumFree(vs, {}) == 0
  {
  }

  lemma SumFreeAdd(vs: Volumes, s: set<Name>, k: Name, vi: Info)
    requires s <= vs.Keys && k in vs && k !in s
    ensures SumFree(vs[k := vi], s + {k}) == vi.freepm + SumFree(vs, s)
  {
    SumFreeWithout(vs[k := vi], s + {k}, k);
    assert s + {k} - {k} == s;
    SumFreeSame(vs, vs[k := vi], s);
  }

  /** The free per-mille of every volume, and its share of their sum. */
  ghost predicate Calculated(was: Volumes, vs: Volumes) {
    && vs.Keys == was.Keys
    && (forall k | k in vs :: was[k].total > 0 && vs[k].freepm == FreePerMill(was[k]))
    && (forall k | k in vs ::
          vs[k] == was[k].(freepm := vs[k].freepm, selector := vs[k].selector)
          && vs[k].selector == if SumFree(vs, vs.Keys) > 0 then vs[k].freepm * 1000 / SumFree(vs, vs.Keys) else was[k].selector)
  }

  /** The name of the first volume, in the order `ks`, at which the running sum
      of the selectors reaches `i`; "" if there is none. */
  function Select(ks: seq<Name>, vs: Volumes, i: int): Name
    requires forall k | k in ks :: k in vs
  {
    if ks == [] then ""
    else if i <= vs[ks[0]].selector then vs[ks[0]].name
    else Select(ks[1..], vs, i - vs[ks[0]].selector)
  }

  ghost predicate SortedNames(ks: seq<Name>, s: set<Name>) {
    (forall i, j | 0 <= i < j < |ks| :: Less(ks[i], ks[j])) && (forall k :: k in ks <==> k in s)
  }

  class Manager {
    var volumes: Volumes

    constructor (vs: Volumes)
      ensures volumes == vs
    {
      volumes := vs;
    }

    method CalculatePerMill()
      requires forall k | k in volumes :: volumes[k].total > 0
      modifies this
      ensures Calculated(old(volumes), volumes)
    {
      hide SumFree, FreePerMill;
      var gfreepm := Measure();
      ghost var half := volumes;
      if gfreepm > 0 {
        Share(gfreepm);
        SumFreeSame(half, volumes, volumes.Keys);
      }
    }

    /** The first loop: each volume's free per-mille, and their sum. */
    method Measure() returns (gfreepm: nat)
      requires forall k | k in volumes :: volumes[k].total > 0
      modifies this
      ensures volumes.Keys == old(volumes).Keys
      ensures forall k | k in volumes :: volumes[k] == old(volumes)[k].(freepm := FreePerMill(old(volumes)[k]))
      ensures gfreepm == SumFree(volumes, volumes.Keys)
    {
      hide SumFree, FreePerMill;
      ghost var was := volumes;
      gfreepm := 0;
      var todo := volumes.Keys;
      NoSum(volumes);
      assert was.Keys - todo == {};
      while todo != {}
        invariant todo <= was.Keys == volumes.Keys
        invariant forall k | k in was :: volumes[k] == if k in todo then was[k] else was[k].(freepm := FreePerMill(was[k]))
        invariant gfreepm == SumFree(volumes, was.Keys - todo)
        decreases |todo|
      {
        var k :| k in todo;
        var vi := volumes[k];
        vi := vi.(freepm := FreePerMill(vi));
        gfreepm := gfreepm + vi.freepm;
        SumFreeAdd(volumes, was.Keys - todo, k, vi);
        volumes := volumes[k := vi];
        assert was.Keys - todo + {k} == was.Keys - (todo - {k});
        todo := todo - {k};
      }
      assert was.Keys - todo == volumes.Keys;
    }

    /** The second loop: each volume's share of the sum. */
    method Share(gfreepm: nat)
      requires gfreepm > 0
      modifies this
      ensures volumes.Keys == old(volumes).Keys
      ensures forall k | k in volumes ::
                volumes[k] == old(volumes)[k].(selector := old(volumes)[k].freepm * 1000 / gfreepm)
    {
      ghost var was := volumes;
      var todo := volumes.Keys;
      while todo != {}
        invariant todo <= was.Keys == volumes.Keys
        invariant forall k | k in was ::
                    volumes[k] == if k in todo then was[k] else was[k].(selector := was[k].freepm * 1000 / gfreepm)
        decreases |todo|
      {
        var k :| k in todo;
        var vi := volumes[k];
        volumes := volumes[k := vi.(selector := vi.freepm * 1000 / gfreepm)];
        todo := todo - {k};
      }
    }

    method SelectFree(i: int) returns (r: Name)
      ensures forall ks | SortedNames(ks, volumes.Keys) :: r == Select(ks, volumes, i)
    {
      var keys := SortedKeys();
      forall ks | SortedNames(ks, volumes.Keys) ensures ks == keys { SortedOnce(ks, keys, volumes.Keys); }
      var sel := 0;
      for x := 0 to |keys|
        invariant Select(keys, volumes, i) == Select(keys[x..], volumes, i - sel)
      {
        sel := sel + volumes[keys[x]].selector;
        if i <= sel {
          return volumes[keys[x]].name;
        }
        assert keys[x..][1..] == keys[x + 1..];
      }
      return "";
    }

    method SortedKeys() returns (keys: seq<Name>)
      ensures SortedNames(keys, volumes.Keys)
    {
      keys := [];
      var todo := volumes.Keys;
      while todo != {}
        invariant todo <= volumes.Keys && SortedNames(keys, volumes.Keys - todo)
        decreases |todo|
      {
        var k :| k in todo;
        InsertedSorted(keys, volumes.Keys - todo, k);
        keys := Inserted(keys, k);
        todo := todo - {k};
        assert volumes.Keys - todo == volumes.Keys - (todo + {k}) + {k};
      }
      assert volumes.Keys - todo == volumes.Keys;
    }
  }

  function Inserted(ks: seq<Name>, k: Name): seq<Name> {
    if ks == [] || Less(k, ks[0]) then [k] + ks else [ks[0]] + Inserted(ks[1..], k)
  }

  lemma {:induction false} InsertedSorted(ks: seq<Name>, s: set<Name>, k: Name)
    requires SortedNames(ks, s) && k !in s
    ensures SortedNames(Inserted(ks, k), s + {k})
    decreases |ks|
  {
    var r := Inserted(ks, k);
    if ks == [] || Less(k, ks[0]) {
      forall j | 0 <= j < |ks| ensures Less(k, ks[j]) {
        if j > 0 { LessTransitive(k, ks[0], ks[j]); }
      }
    } else {
      LessTotal(k, ks[0]);
      LessIrreflexive(ks[0]);
      assert ks[0] !in ks[1..];
      InsertedSorted(ks[1..], s - {ks[0]}, k);
      forall j | 0 < j < |r| ensures Less(ks[0], r[j]) {
        assert r[j] in Inserted(ks[1..], k);
        if r[j] != k {
          assert r[j] in ks[1..];
        }
      }
    }
  }

  /** There is only one sorted order of a set of names. */
  lemma {:induction false} SortedOnce(a: seq<Name>, b: seq<Name>, s: set<Name>)
    requires SortedNames(a, s) && SortedNames(b, s)
    ensures a == b
    decreases |a|
  {
    assert b != [] ==> b[0] in b && b[0] in a;
    if a != [] {
      assert a[0] in b;
      if a[0] != b[0] {
        LessTransitive(a[0], b[0], a[0]);
        LessIrreflexive(a[0]);
      }
      TailSorted(a, s);
      TailSorted(b, s);
      SortedOnce(a[1..], b[1..], s - {a[0]});
    }
  }

  lemma TailSorted(a: seq<Name>, s: set<Name>)
    requires SortedNames(a, s) && a != []
    ensures SortedNames(a[1..], s - {a[0]})
  {
    LessIrreflexive(a[0]);
    forall k ensures k in a[1..] <==> k in s - {a[0]} {
      assert k in a <==> k == a[0] || k in a[1..];
    }
  }
}
