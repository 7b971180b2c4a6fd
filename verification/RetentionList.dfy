/** The bounded list of the next retention entries to expire. */
module RetentionList {
  import opened Blobs
  import opened Retentions

  type Entries = seq<RetentionEntry>

  ghost predicate Sorted(l: Entries) {
    forall i, j | 0 <= i < j < |l| :: l[i].Deadline() <= l[j].Deadline()
  }

  ghost predicate Distinct(l: Entries) {
    forall i, j | 0 <= i < j < |l| :: l[i].blobID != l[j].blobID
  }

  ghost predicate ListOk(l: Entries, max: int) {
    Sorted(l) && Distinct(l) && (|l| <= max || l == [])
  }

  predicate Listed(l: Entries, id: Id) {
    exists i | 0 <= i < |l| :: l[i].blobID == id
  }

  /** The first entry with a later deadline than `t`. */
  function Later(l: Entries, t: int): (p: nat)
    ensures p <= |l|
    ensures forall i | 0 <= i < p :: l[i].Deadline() <= t
    ensures p < |l| ==> l[p].Deadline() > t
  {
    if l == [] || l[0].Deadline() > t then 0 else 1 + Later(l[1..], t)
  }

  lemma LaterIs(l: Entries, t: int, p: nat)
    requires p <= |l| && (p < |l| ==> l[p].Deadline() > t) && forall i | 0 <= i < p :: l[i].Deadline() <= t
    ensures Later(l, t) == p
  {
    if p > 0 { LaterIs(l[1..], t, p - 1); }
  }

  function Cut(l: Entries, max: int): Entries
    requires max > 0
  {
    if |l| > max then l[..max - 1] else l
  }

  function Pushed(l: Entries, r: RetentionEntry, max: int): Entries {
    var p := Later(l, r.Deadline());
    if Listed(l, r.blobID) || p >= max then l else Cut(l[..p] + [r] + l[p..], max)
  }

  /** All of `rs`, in order. */
  function PushedAll(l: Entries, rs: Entries, max: int): Entries {
    if rs == [] then l else Pushed(PushedAll(l, rs[..|rs| - 1], max), rs[|rs| - 1], max)
  }

  /** The entry of `id` is taken out; if there is none, the first entry is. */
  function Removed(l: Entries, id: Id): Entries {
    if l == [] then l
    else
      var i := IndexOf(l, id);
      l[..i] + l[i + 1..]
  }

  function IndexOf(l: Entries, id: Id): (i: nat)
    requires l != []
    ensures i < |l|
    ensures Listed(l, id) ==> l[i].blobID == id && forall j | 0 <= j < i :: l[j].blobID != id
    ensures !Listed(l, id) ==> i == 0
  {
    if l[0].blobID == id || !Listed(l, id) then 0
    else
      assert Listed(l[1..], id) by {
        var k :| 0 <= k < |l| && l[k].blobID == id;
        assert l[1..][k - 1] == l[k];
      }
      1 + IndexOf(l[1..], id)
  }

  /** How many entries at the front are due. */
  function DueCount(l: Entries, now: int): (n: nat)
    ensures n <= |l|
    ensures forall i | 0 <= i < n :: l[i].Deadline() < now
    ensures n < |l| ==> l[n].Deadline() >= now
  {
    if l == [] || l[0].Deadline() >= now then 0 else 1 + DueCount(l[1..], now)
  }

  /** In a sorted list exactly the entries before `DueCount` are due. */
  lemma DueFirst(l: Entries, now: int)
    requires Sorted(l)
    ensures forall k | 0 <= k < |l| :: l[k].Deadline() < now <==> k < DueCount(l, now)
  {
    var n := DueCount(l, now);
    assert forall k | n <= k < |l| :: l[n].Deadline() <= l[k].Deadline();
  }

  /** More milliseconds than the retention, which is in minutes, have passed since
      the base, or since the creation of a blob without a base. */
  predicate Overdue(e: RetentionEntry, now: int) {
    now - (if e.retentionBase > 0 then e.retentionBase else e.creationDate) > e.retention * 60000
  }

  /** The due entries of a sorted list are the overdue ones. */
  lemma DueExact(l: Entries, now: int)
    requires Sorted(l)
    ensures forall k | 0 <= k < |l| :: k < DueCount(l, now) <==> Overdue(l[k], now)
  {
    DueFirst(l, now);
    hide DueCount, Sorted;
  }

  /** Asked for are the overdue entries, and the others are kept. */
  ghost predicate Splits(l: Entries, now: int, asked: seq<(Tenant, Id)>, rest: Entries) {
    forall k | 0 <= k < |l| ::
      ((l[k].tenantID, l[k].blobID) in asked <==> Overdue(l[k], now)) && (l[k] in rest <==> !Overdue(l[k], now))
  }

  lemma DueSplits(l: Entries, now: int, asked: seq<(Tenant, Id)>)
    requires Sorted(l) && Distinct(l) && |asked| == DueCount(l, now)
    requires forall k | 0 <= k < |asked| :: asked[k] == (l[k].tenantID, l[k].blobID)
    ensures Splits(l, now, asked, l[|asked|..])
  {
    DueExact(l, now);
    var n := |asked|;
    hide Sorted, DueCount, Overdue;
    forall k | 0 <= k < |l|
      ensures ((l[k].tenantID, l[k].blobID) in asked <==> k < n) && (l[k] in l[n..] <==> n <= k)
    {
      if k < n { assert asked[k] == (l[k].tenantID, l[k].blobID); }
      if n <= k { assert l[n..][k - n] == l[k]; }
    }
  }

  lemma RemovedFirst(l: Entries)
    requires l != []
    ensures Removed(l, l[0].blobID) == l[1..]
  {
  }

  lemma SuffixOk(l: Entries, n: nat, max: int)
    requires ListOk(l, max) && n <= |l|
    ensures ListOk(l[n..], max)
  {
  }

  class SingleRetentionManager {
    const MaxSize: int
    var retentionList: Entries

    constructor (maxSize: int)
      ensures MaxSize == maxSize && retentionList == []
    {
      MaxSize, retentionList := maxSize, [];
    }

    method PushToList(r: RetentionEntry)
      requires ListOk(retentionList, MaxSize)
      modifies this
      ensures retentionList == Pushed(old(retentionList), r, MaxSize) && ListOk(retentionList, MaxSize)
    {
      PushedOk(retentionList, r, MaxSize);
      for k := 0 to |retentionList|
        invariant forall j | 0 <= j < k :: retentionList[j].blobID != r.blobID
      {
        if r.blobID == retentionList[k].blobID { return; }
      }
      var i := Search(r.Deadline());
      if i < MaxSize {
        retentionList := InsertAt(retentionList, i, r);
        if |retentionList| > MaxSize {
          retentionList := retentionList[..MaxSize - 1];
        }
      }
    }

    method Search(t: int) returns (i: nat)
      requires Sorted(retentionList)
      ensures i == Later(retentionList, t)
    {
      i := 0;
      var j := |retentionList|;
      while i < j
        invariant 0 <= i <= j <= |retentionList|
        invariant forall k | 0 <= k < i :: retentionList[k].Deadline() <= t
        invariant forall k | j <= k < |retentionList| :: retentionList[k].Deadline() > t
      {
        var h := (i + j) / 2;
        if retentionList[h].Deadline() > t { j := h; } else { i := h + 1; }
      }
      LaterIs(retentionList, t, i);
    }

    static method InsertAt(data: Entries, i: nat, v: RetentionEntry) returns (r: Entries)
      requires i <= |data|
      ensures r == data[..i] + [v] + data[i..]
    {
      if i == |data| { return data + [v]; }
      r := data[..i + 1] + data[i..];
      r := r[i := v];
    }

    method RemoveEntry(id: Id)
      modifies this
      ensures retentionList == Removed(old(retentionList), id)
    {
      var i := 0;
      var x := 0;
      while x < |retentionList|
        invariant 0 <= x <= |retentionList| && i == 0
        invariant forall j | 0 <= j < x :: retentionList[j].blobID != id
      {
        if id == retentionList[x].blobID { i := x; break; }
        x := x + 1;
      }
      if |retentionList| > i {
        assert i == IndexOf(retentionList, id);
        retentionList := retentionList[..i] + retentionList[i + 1..];
      }
    }

    /** `asked` are the deletes that are requested from the storages, whose
        outcome does not matter here. */
    method ProcessRetention(now: int) returns (asked: seq<(Tenant, Id)>)
      requires ListOk(retentionList, MaxSize)
      modifies this
      ensures var n := DueCount(old(retentionList), now);
              retentionList == old(retentionList)[n..]
              && |asked| == n && (forall k | 0 <= k < n :: asked[k] == (old(retentionList)[k].tenantID, old(retentionList)[k].blobID))
              && ListOk(retentionList, MaxSize)
      ensures Splits(old(retentionList), now, asked, retentionList)
    {
      hide Sorted, Distinct, Splits;
      var l := retentionList;
      var rmvList: seq<Id> := [];
      asked := [];
      ghost var n := DueCount(l, now);
      DueFirst(l, now);
      for k := 0 to |l|
        invariant k <= n ==> |asked| == |rmvList| == k
        invariant k > n ==> |asked| == |rmvList| == n
        invariant forall j | 0 <= j < |asked| :: asked[j] == (l[j].tenantID, l[j].blobID) && rmvList[j] == l[j].blobID
      {
        if l[k].Deadline() < now {
          rmvList := rmvList + [l[k].blobID];
          asked := asked + [(l[k].tenantID, l[k].blobID)];
        }
      }
      for k := 0 to |rmvList|
        invariant retentionList == l[k..]
      {
        RemovedFirst(l[k..]);
        RemoveEntry(rmvList[k]);
      }
      SuffixOk(l, n, MaxSize);
      DueSplits(l, now, asked);
    }

    /** `order` are the entries in the order in which tenants and their
        retention files are walked. */
    method RefreshRetention(order: Entries)
      requires ListOk(retentionList, MaxSize)
      modifies this
      ensures retentionList == PushedAll(old(retentionList), order, MaxSize) && ListOk(retentionList, MaxSize)
    {
      for k := 0 to |order|
        invariant ListOk(retentionList, MaxSize)
        invariant retentionList == PushedAll(old(retentionList), order[..k], MaxSize)
      {
        assert order[..k + 1][..k] == order[..k];
        PushToList(order[k]);
      }
      assert order[..|order|] == order;
    }

    /** `stored`: the tenant's storage took the entry. */
    method AddRetention(r: RetentionEntry, stored: bool) returns (ok: bool)
      requires ListOk(retentionList, MaxSize)
      modifies this
      ensures ListOk(retentionList, MaxSize) && ok == (r.retention <= 0 || stored)
      ensures retentionList == if r.retention > 0 && stored then Pushed(old(retentionList), r, MaxSize) else old(retentionList)
    {
      if r.retention > 0 {
        if !stored { return false; }
        PushToList(r);
      }
      return true;
    }
  }

  /** A push keeps the list sorted, free of duplicates and within its bound. */
  lemma PushedOk(l: Entries, r: RetentionEntry, max: int)
    requires ListOk(l, max)
    ensures ListOk(Pushed(l, r, max), max)
  {
    var p := Later(l, r.Deadline());
    if !Listed(l, r.blobID) && p < max { InsertedOk(l, r, p); }
  }

  lemma InsertedOk(l: Entries, r: RetentionEntry, p: nat)
    requires Sorted(l) && Distinct(l) && p == Later(l, r.Deadline()) && !Listed(l, r.blobID)
    ensures Sorted(l[..p] + [r] + l[p..]) && Distinct(l[..p] + [r] + l[p..])
  {
    var m := l[..p] + [r] + l[p..];
    hide Later, RetentionEntry.Deadline;
    forall i, j | 0 <= i < j < |m|
      ensures m[i].Deadline() <= m[j].Deadline() && m[i].blobID != m[j].blobID
    {
      InsertedAt(l, r, p, i);
      InsertedAt(l, r, p, j);
      var a, b := if i < p then i else i - 1, if j < p then j else j - 1;
      if i == p {
        assert l[p].Deadline() <= l[b].Deadline();
      } else if j != p {
        assert a < b;
      }
    }
  }

  /** What stands where after an insertion. */
  lemma InsertedAt(l: Entries, r: RetentionEntry, p: nat, i: nat)
    requires p <= |l| && i <= |l|
    ensures (l[..p] + [r] + l[p..])[i] == if i < p then l[i] else if i == p then r else l[i - 1]
  {
  }

  /** At least `max - 1` listed entries are due no later than `e`. */
  predicate Late(l: Entries, e: RetentionEntry, max: int) {
    |l| >= max - 1 && (max >= 2 ==> l[max - 2].Deadline() <= e.Deadline())
  }

  /** `m` is `l` with one more entry at `p`. */
  ghost predicate IsMerged(l: Entries, m: Entries, p: nat) {
    p < |m| == |l| + 1 && forall i | 0 <= i < |l| :: l[i] == m[if i < p then i else i + 1]
  }

  lemma CutKeeps(m: Entries, max: int, k: nat)
    requires Sorted(m) && k < |m| <= max + 1 && max > 0
    ensures m[k] in Cut(m, max) || Late(Cut(m, max), m[k], max)
  {
    if |m| > max {
      assert k < max - 1 ==> m[..max - 1][k] == m[k];
    }
  }

  lemma MemberStays(l: Entries, m: Entries, p: nat, max: int, e: RetentionEntry)
    requires IsMerged(l, m, p) && Sorted(m) && max > 0 && |l| <= max && e in l
    ensures e in Cut(m, max) || Late(Cut(m, max), e, max)
  {
    hide Sorted, Cut, Late;
    var i :| 0 <= i < |l| && l[i] == e;
    CutKeeps(m, max, if i < p then i else i + 1);
  }

  lemma LateStays(l: Entries, m: Entries, p: nat, max: int, e: RetentionEntry)
    requires IsMerged(l, m, p) && Sorted(m) && max > 0 && |l| <= max && Late(l, e, max)
    ensures Late(Cut(m, max), e, max)
  {
    if max >= 2 {
      assert l[max - 2] == m[if max - 2 < p then max - 2 else max - 1];
    }
  }

  /** An entry that comes after a full list. */
  lemma RejectedLate(l: Entries, r: RetentionEntry, max: int)
    requires Later(l, r.Deadline()) >= max
    ensures Late(l, r, max)
  {
  }

  lemma MergedIs(l: Entries, r: RetentionEntry)
    ensures var p := Later(l, r.Deadline()); var m := l[..p] + [r] + l[p..]; IsMerged(l, m, p) && m[p] == r
  {
  }

  lemma PushKeeps(l: Entries, r: RetentionEntry, max: int, e: RetentionEntry)
    requires ListOk(l, max)
    ensures e in l ==> e in Pushed(l, r, max) || Late(Pushed(l, r, max), e, max)
    ensures Late(l, e, max) ==> Late(Pushed(l, r, max), e, max)
    ensures r in Pushed(l, r, max) || Listed(l, r.blobID) || Late(Pushed(l, r, max), r, max)
  {
    hide *;
    var p := Later(l, r.Deadline());
    PushedIs(l, r, max);
    if p >= max {
      RejectedLate(l, r, max);
    } else if !Listed(l, r.blobID) {
      var m := l[..p] + [r] + l[p..];
      MergedIs(l, r);
      MergedLen(l, r);
      ListParts(l, max);
      MergedSorted(l, r);
      CutKeeps(m, max, p);
      if Late(l, e, max) { LateStays(l, m, p, max, e); }
      if e in l { MemberStays(l, m, p, max, e); }
    }
  }

  lemma PushedIs(l: Entries, r: RetentionEntry, max: int)
    ensures var p := Later(l, r.Deadline());
            if Listed(l, r.blobID) || p >= max then Pushed(l, r, max) == l
            else max > 0 && Pushed(l, r, max) == Cut(l[..p] + [r] + l[p..], max)
  {
    hide Cut, Later, Listed;
  }

  lemma MergedLen(l: Entries, r: RetentionEntry)
    ensures var p := Later(l, r.Deadline()); |l[..p] + [r] + l[p..]| == |l| + 1
  {
    hide Later;
  }

  lemma ListParts(l: Entries, max: int)
    requires ListOk(l, max)
    ensures Sorted(l) && (|l| <= max || l == [])
  {
  }

  lemma MergedSorted(l: Entries, r: RetentionEntry)
    requires Sorted(l)
    ensures var p := Later(l, r.Deadline()); Sorted(l[..p] + [r] + l[p..])
  {
    var p := Later(l, r.Deadline());
    var m := l[..p] + [r] + l[p..];
    forall i, j | 0 <= i < j < |m| ensures m[i].Deadline() <= m[j].Deadline() {
      assert i != p ==> m[i] == l[if i < p then i else i - 1];
      assert j != p ==> m[j] == l[if j < p then j else j - 1];
    }
  }
}
