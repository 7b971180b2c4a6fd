/** How well the integer selectors share the draws out among the volumes. */
module VolumeLaws {
  import opened Volume

  lemma FloorBounds(x: nat, g: nat)
    requires g > 0
    ensures g * (x / g) <= x < g * (x / g) + g
  {
  }

  /** At most 1000, also when free bytes times 1000 wraps around. */
  lemma PerMillRange(vi: Info)
    requires Mounted(vi)
    ensures FreePerMill(vi) <= 1000
  {
    var w := vi.free * 1000 % U64;
    assert w <= vi.total * 1000;
    FloorBounds(w, vi.total);
    if w / vi.total > 1000 { MulMono(1001, w / vi.total, vi.total); }
  }

  /** The thousandths of the total that are free, rounded down, as long as free
      bytes times 1000 does not wrap around. */
  lemma PerMillExact(vi: Info, p: nat)
    requires Mounted(vi) && vi.free * 1000 < U64
    ensures FreePerMill(vi) == p <==> p * vi.total <= 1000 * vi.free < (p + 1) * vi.total
  {
    FloorBounds(vi.free * 1000, vi.total);
    FloorOnce(vi.free * 1000, vi.total, p);
  }

  lemma FloorOnce(x: nat, g: nat, p: nat)
    requires g > 0
    ensures x / g == p <==> p * g <= x < (p + 1) * g
  {
    FloorBounds(x, g);
    if p < x / g { MulMono(p + 1, x / g, g); }
    if x / g < p { MulMono(x / g + 1, p, g); }
  }

  /** A selector is the volume's share of the sum, in thousandths rounded down. */
  lemma ShareExact(was: Volumes, vs: Volumes, k: Name, p: nat)
    requires Calculated(was, vs) && SumFree(vs, vs.Keys) > 0 && k in vs
    ensures vs[k].selector == p <==> p * SumFree(vs, vs.Keys) <= 1000 * vs[k].freepm < (p + 1) * SumFree(vs, vs.Keys)
  {
    FloorOnce(vs[k].freepm * 1000, SumFree(vs, vs.Keys), p);
  }

  /** While no volume has a thousandth free, the selectors stay as they were. */
  lemma NoneFree(was: Volumes, vs: Volumes, k: Name)
    requires Calculated(was, vs) && k in vs && forall x | x in was :: was[x].total > 0 && FreePerMill(was[x]) == 0
    ensures vs[k] == was[k].(freepm := 0)
  {
    SumZero(vs, vs.Keys);
  }

  lemma {:induction false} SumZero(vs: Volumes, s: set<Name>)
    requires s <= vs.Keys && forall x | x in s :: vs[x].freepm == 0
    ensures SumFree(vs, s) == 0
    decreases s
  {
    if s != {} {
      var x :| x in s;
      SumFreeWithout(vs, s, x);
      SumZero(vs, s - {x});
    }
  }

  lemma MulMono(a: nat, b: nat, g: nat)
    requires a <= b
    ensures g * a <= g * b
  {
  }

  lemma {:induction false} SumBounds(vs: Volumes, s: set<Name>, g: nat)
    requires s <= vs.Keys && g > 0 && forall k | k in s :: vs[k].selector == vs[k].freepm * 1000 / g
    ensures g * SumSelectors(vs, s) <= 1000 * SumFree(vs, s)
    ensures 1000 * SumFree(vs, s) + |s| <= g * SumSelectors(vs, s) + g * |s|
    decreases s
  {
    if s != {} {
      var k :| k in s;
      var t := s - {k};
      SumBounds(vs, t, g);
      SumFreeWithout(vs, s, k);
      SumSelectorsWithout(vs, s, k);
      FloorBounds(vs[k].freepm * 1000, g);
      Distribute(g, vs[k].selector, SumSelectors(vs, t));
      Distribute(g, 1, |t|);
      assert |s| == 1 + |t|;
    }
  }

  lemma Distribute(g: nat, a: nat, b: nat)
    ensures g * (a + b) == g * a + g * b
  {
  }

  /** The selectors of `n` volumes sum to at most 1000 and to more than
      1000 - n, and more free space never gives a smaller selector. */
  lemma SelectorShares(was: Volumes, vs: Volumes)
    requires Calculated(was, vs) && SumFree(vs, vs.Keys) > 0
    ensures 1000 - |vs| < SumSelectors(vs, vs.Keys) <= 1000
    ensures forall a, b | a in vs && b in vs && vs[a].freepm <= vs[b].freepm :: vs[a].selector <= vs[b].selector
  {
    var g, s := SumFree(vs, vs.Keys), SumSelectors(vs, vs.Keys);
    var n := |vs.Keys|;
    assert n == |vs|;
    SumBounds(vs, vs.Keys, g);
    assert vs.Keys != {};
    Cancel(g, s, n);
    forall a, b | a in vs && b in vs && vs[a].freepm <= vs[b].freepm ensures vs[a].selector <= vs[b].selector {
      FloorMono(vs[a].freepm * 1000, vs[b].freepm * 1000, g);
    }
  }

  lemma Cancel(g: nat, s: nat, n: nat)
    requires g > 0 && n > 0 && g * s <= 1000 * g && 1000 * g + n <= g * s + g * n
    ensures 1000 - n < s <= 1000
  {
    if s > 1000 { MulMono(1001, s, g); }
    if s + n <= 1000 {
      Distribute(g, s, n);
      MulMono(s + n, 1000, g);
    }
  }

  lemma FloorMono(x: nat, y: nat, g: nat)
    requires g > 0 && x <= y
    ensures x / g <= y / g
  {
    FloorBounds(x, g);
    FloorBounds(y, g);
    if x / g > y / g { MulMono(y / g + 1, x / g, g); }
  }

  /** The sum of the first `k` selectors. */
  function Before(ks: seq<Name>, vs: Volumes, k: nat): nat
    requires k <= |ks| && forall x | x in ks :: x in vs
  {
    if k == 0 then 0 else vs[ks[0]].selector + Before(ks[1..], vs, k - 1)
  }

  lemma {:induction false} BeforeAll(ks: seq<Name>, vs: Volumes, s: set<Name>)
    requires SortedNames(ks, s) && s <= vs.Keys
    ensures Before(ks, vs, |ks|) == SumSelectors(vs, s)
    decreases |ks|
  {
    if ks != [] {
      TailSorted(ks, s);
      BeforeAll(ks[1..], vs, s - {ks[0]});
      SumSelectorsWithout(vs, s, ks[0]);
    } else {
      assert s == {};
    }
  }

  lemma {:induction false} BeforeGrows(ks: seq<Name>, vs: Volumes, k: nat)
    requires k < |ks| && forall x | x in ks :: x in vs
    ensures Before(ks, vs, k + 1) == Before(ks, vs, k) + vs[ks[k]].selector
    ensures Before(ks, vs, k + 1) <= Before(ks, vs, |ks|)
    decreases |ks|
  {
    if k > 0 {
      BeforeGrows(ks[1..], vs, k - 1);
    }
  }

  /** The volumes go by the names of their directories. */
  ghost predicate Named(ks: seq<Name>, vs: Volumes) {
    && (forall x | x in ks :: x in vs && vs[x].name == x != "")
    && forall i, j | 0 <= i < j < |ks| :: ks[i] != ks[j]
  }

  lemma {:induction false} SelectIn(ks: seq<Name>, vs: Volumes, i: int)
    requires Named(ks, vs)
    ensures Select(ks, vs, i) in ks || Select(ks, vs, i) == ""
    ensures i > 0 ==> (Select(ks, vs, i) == "" <==> i > Before(ks, vs, |ks|))
    decreases |ks|
  {
    if ks != [] && i > vs[ks[0]].selector { SelectIn(ks[1..], vs, i - vs[ks[0]].selector); }
  }

  /** Volume `k` is selected for exactly the numbers of its own interval. */
  lemma {:induction false} SelectInterval(ks: seq<Name>, vs: Volumes, i: int, k: nat)
    requires Named(ks, vs) && k < |ks| && i > 0
    ensures Select(ks, vs, i) == ks[k] <==> Before(ks, vs, k) < i <= Before(ks, vs, k) + vs[ks[k]].selector
    decreases |ks|
  {
    var s := vs[ks[0]].selector;
    if i > s {
      SelectIn(ks[1..], vs, i - s);
      if k > 0 {
        SelectInterval(ks[1..], vs, i - s, k - 1);
      } else {
        assert ks[0] !in ks[1..];
      }
    }
  }

  function Interval(a: int, b: int): (s: set<int>)
    ensures forall i :: i in s <==> a < i <= b
    ensures |s| == if a <= b then b - a else 0
    decreases b - a
  {
    if b <= a then {} else Interval(a, b - 1) + {b}
  }

  /** The numbers from `lo` to `hi` that select `name`. */
  function Draws(ks: seq<Name>, vs: Volumes, lo: int, hi: int, name: Name): set<int>
    requires forall x | x in ks :: x in vs
  {
    set i | lo <= i <= hi && Select(ks, vs, i) == name
  }

  /** Among the numbers 1 to the sum of the selectors, each volume is selected
      exactly as often as its selector says. */
  lemma HitsExactly(ks: seq<Name>, vs: Volumes, k: nat)
    requires Named(ks, vs) && k < |ks|
    ensures |Draws(ks, vs, 1, Before(ks, vs, |ks|), ks[k])| == vs[ks[k]].selector
  {
    var a, n := Before(ks, vs, k), vs[ks[k]].selector;
    BeforeGrows(ks, vs, k);
    forall i: int | 1 <= i <= Before(ks, vs, |ks|) ensures Select(ks, vs, i) == ks[k] <==> a < i <= a + n {
      SelectInterval(ks, vs, i, k);
    }
    assert Draws(ks, vs, 1, Before(ks, vs, |ks|), ks[k]) == Interval(a, a + n);
  }

  /** The draw 0 selects the first volume, even one with no free space. */
  lemma DrawZero(ks: seq<Name>, vs: Volumes)
    requires Named(ks, vs) && ks != []
    ensures Select(ks, vs, 0) == ks[0]
  {
  }

  /** Of the draws 0 to 999 at most `n - 2` find no volume. */
  lemma FewMisses(was: Volumes, vs: Volumes, ks: seq<Name>)
    requires Calculated(was, vs) && SumFree(vs, vs.Keys) > 0
    requires SortedNames(ks, vs.Keys) && Named(ks, vs)
    ensures var n := |vs|;
            |Draws(ks, vs, 0, 999, "")| <= if n >= 2 then n - 2 else 0
  {
    hide Calculated;
    var s := SumSelectors(vs, vs.Keys);
    SelectorShares(was, vs);
    BeforeAll(ks, vs, vs.Keys);
    assert ks != [] by {
      assert vs.Keys != {};
      var x :| x in vs;
      assert x in ks;
    }
    forall i: int | 0 <= i < 1000 ensures Select(ks, vs, i) == "" <==> s < i <= 999 {
      if i == 0 { DrawZero(ks, vs); } else { SelectIn(ks, vs, i); }
    }
    assert Draws(ks, vs, 0, 999, "") == Interval(s, 999);
  }
}
