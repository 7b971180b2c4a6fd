/** The list of cache entries: sorted by blob id, with access times and the
    bytes kept in memory. */
module Lru {
  import opened Wrappers
  import opened Blobs

  datatype Entry = Entry(lastAccess: int, desc: Desc, data: Option<Bytes>)

  function Key(e: Entry): Id {
    e.desc.blobID
  }

  ghost predicate Sorted(es: seq<Entry>) {
    forall i, j | 0 <= i < j < |es| :: Less(Key(es[i]), Key(es[j]))
  }

  function DataLen(e: Entry): nat {
    if e.data.Some? then |e.data.value| else 0
  }

  /** The bytes of all entries that are held in memory. */
  function Ram(es: seq<Entry>): nat {
    if es == [] then 0 else DataLen(es[0]) + Ram(es[1..])
  }

  lemma RamSplit(a: seq<Entry>, b: seq<Entry>)
    ensures Ram(a + b) == Ram(a) + Ram(b)
  {
    if a == [] {
      assert a + b == b;
    } else {
      assert (a + b)[1..] == a[1..] + b;
    }
  }

  lemma RamAt(es: seq<Entry>, i: nat)
    requires i < |es|
    ensures Ram(es) == Ram(es[..i]) + DataLen(es[i]) + Ram(es[i + 1..])
  {
    var b := [es[i]] + es[i + 1..];
    assert es == es[..i] + b && b[0] == es[i] && b[1..] == es[i + 1..];
    RamSplit(es[..i], b);
  }

  /** The first entry whose id is not below `id`. */
  function Position(es: seq<Entry>, id: Id): (p: nat)
    ensures p <= |es|
    ensures forall i | 0 <= i < p :: Less(Key(es[i]), id)
    ensures p < |es| ==> !Less(Key(es[p]), id)
  {
    if es == [] || !Less(Key(es[0]), id) then 0 else 1 + Position(es[1..], id)
  }

  predicate Contains(es: seq<Entry>, id: Id) {
    var p := Position(es, id);
    p < |es| && Key(es[p]) == id
  }

  lemma PositionIs(es: seq<Entry>, id: Id, i: nat)
    requires i <= |es| && forall k | 0 <= k < i :: Less(Key(es[k]), id)
    requires i < |es| ==> !Less(Key(es[i]), id)
    ensures Position(es, id) == i
  {
    if i > 0 { PositionIs(es[1..], id, i - 1); }
  }

  /** In a sorted list the binary search misses nothing. */
  lemma HasIff(es: seq<Entry>, id: Id)
    requires Sorted(es)
    ensures Contains(es, id) <==> exists i :: 0 <= i < |es| && Key(es[i]) == id
    ensures forall i | 0 <= i < |es| && Key(es[i]) == id :: i == Position(es, id)
  {
    forall i | 0 <= i < |es| && Key(es[i]) == id ensures i == Position(es, id) {
      LessIrreflexive(id);
      PositionIs(es, id, i);
    }
  }

  function Inserted(es: seq<Entry>, e: Entry): seq<Entry> {
    var p := Position(es, Key(e));
    es[..p] + [e] + es[p..]
  }

  function Without(es: seq<Entry>, i: nat): seq<Entry>
    requires i < |es|
  {
    es[..i] + es[i + 1..]
  }

  lemma InsertedSorted(es: seq<Entry>, e: Entry)
    requires Sorted(es) && !Contains(es, Key(e))
    ensures Sorted(Inserted(es, e)) && Ram(Inserted(es, e)) == Ram(es) + DataLen(e)
  {
    var p, r := Position(es, Key(e)), Inserted(es, e);
    forall j | p <= j < |es| ensures Less(Key(e), Key(es[j])) {
      LessTotal(Key(e), Key(es[p]));
      if p < j { LessTransitive(Key(e), Key(es[p]), Key(es[j])); }
    }
    forall i, j | 0 <= i < j < |r| ensures Less(Key(r[i]), Key(r[j])) {
      if j < p {
      } else if i < p < j {
        assert r[j] == es[j - 1];
      } else if p < i {
        assert r[i] == es[i - 1] && r[j] == es[j - 1];
      }
    }
    RamAt(r, p);
    assert r[..p] == es[..p] && r[p + 1..] == es[p..] && es == es[..p] + es[p..];
    RamSplit(es[..p], es[p..]);
  }

  lemma WithoutSorted(es: seq<Entry>, i: nat)
    requires i < |es|
    ensures Sorted(es) ==> Sorted(Without(es, i))
    ensures Ram(Without(es, i)) == Ram(es) - DataLen(es[i])
  {
    RamAt(es, i);
    RamSplit(es[..i], es[i + 1..]);
  }

  lemma ReplacedSorted(es: seq<Entry>, i: nat, e: Entry)
    requires i < |es|
    ensures Sorted(es) && Key(e) == Key(es[i]) ==> Sorted(es[i := e])
    ensures Ram(es[i := e]) == Ram(es) - DataLen(es[i]) + DataLen(e)
  {
    RamAt(es, i);
    RamAt(es[i := e], i);
    assert es[i := e][..i] == es[..i] && es[i := e][i + 1..] == es[i + 1..];
  }

  /** The first entry, among the first `n`, with the smallest access time. */
  function Oldest(es: seq<Entry>, n: nat): (k: nat)
    requires 0 < n <= |es|
    ensures k < n
    ensures forall j | 0 <= j < n :: es[k].lastAccess <= es[j].lastAccess
    ensures forall j | 0 <= j < k :: es[k].lastAccess < es[j].lastAccess
  {
    if n == 1 then 0
    else
      var k := Oldest(es, n - 1);
      if es[n - 1].lastAccess < es[k].lastAccess then n - 1 else k
  }

  /** The same among the entries with data in memory. */
  function OldestWithData(es: seq<Entry>, n: nat): (r: Option<nat>)
    requires n <= |es|
    ensures r.None? <==> forall j | 0 <= j < n :: es[j].data.None?
    ensures r.Some? ==> r.value < n && es[r.value].data.Some?
    ensures r.Some? ==> forall j | 0 <= j < n && es[j].data.Some? :: es[r.value].lastAccess <= es[j].lastAccess
    ensures r.Some? ==> forall j | 0 <= j < r.value && es[j].data.Some? :: es[r.value].lastAccess < es[j].lastAccess
  {
    if n == 0 then None
    else
      var r := OldestWithData(es, n - 1);
      if es[n - 1].data.Some? && (r.None? || es[n - 1].lastAccess < es[r.value].lastAccess) then Some(n - 1) else r
  }

  function WithData(es: seq<Entry>): nat {
    if es == [] then 0 else (if es[0].data.Some? then 1 else 0) + WithData(es[1..])
  }

  lemma WithDataDrops(es: seq<Entry>, i: nat)
    requires i < |es| && es[i].data.Some?
    ensures WithData(es[i := es[i].(data := None)]) == WithData(es) - 1
  {
    var r := es[i := es[i].(data := None)];
    if i == 0 {
      assert r[1..] == es[1..];
    } else {
      assert r[1..] == es[1..][i - 1 := es[1..][i - 1].(data := None)];
      WithDataDrops(es[1..], i - 1);
    }
  }

  /** Drops data from memory, oldest first, until the limit is met. */
  function Trimmed(es: seq<Entry>, ram: int, max: int): (r: (seq<Entry>, int))
    ensures |r.0| == |es|
    decreases WithData(es)
  {
    if ram <= max then (es, ram)
    else
      var o := OldestWithData(es, |es|);
      if o.None? then (es, 0)
      else
        WithDataDrops(es, o.value);
        Trimmed(es[o.value := es[o.value].(data := None)], ram - DataLen(es[o.value]), max)
  }

  /** `t` is `es` with some data dropped from memory. */
  ghost predicate SameButData(es: seq<Entry>, t: seq<Entry>) {
    |t| == |es| && forall i | 0 <= i < |es| ::
      t[i].desc == es[i].desc && t[i].lastAccess == es[i].lastAccess && (t[i].data == es[i].data || t[i].data == None)
  }

  /** The accounting is exact: the limit is met by dropping data, and the
      branch that resets the counter is never needed. */
  lemma {:induction false} TrimmedOk(es: seq<Entry>, max: int)
    requires max >= 0
    ensures var (t, ram) := Trimmed(es, Ram(es), max);
            SameButData(es, t) && ram == Ram(t) && ram <= max && (Ram(es) <= max ==> t == es)
    decreases WithData(es)
  {
    hide Ram, SameButData, OldestWithData, WithData, DataLen;
    SameSelf(es);
    if Ram(es) > max {
      var o := OldestWithData(es, |es|);
      if o.None? {
        NoData(es);
      } else {
        var es1 := es[o.value := es[o.value].(data := None)];
        WithDataDrops(es, o.value);
        NoDataLen(es[o.value]);
        ReplacedSorted(es, o.value, es[o.value].(data := None));
        TrimmedOk(es1, max);
        SameDrop(es, o.value, Trimmed(es1, Ram(es1), max).0);
      }
    }
  }

  lemma SameSelf(es: seq<Entry>)
    ensures SameButData(es, es)
  {
  }

  lemma SameDrop(es: seq<Entry>, i: nat, t: seq<Entry>)
    requires i < |es| && SameButData(es[i := es[i].(data := None)], t)
    ensures SameButData(es, t)
  {
  }

  lemma NoDataLen(e: Entry)
    ensures DataLen(e.(data := None)) == 0
  {
  }

  lemma NoData(es: seq<Entry>)
    requires forall j | 0 <= j < |es| :: es[j].data.None?
    ensures Ram(es) == 0
  {
  }

  class LRUList {
    const MaxCount: int
    const MaxRAMSize: int
    var entries: seq<Entry>
    var ramsize: int

    constructor (maxCount: int, maxRAMSize: int)
      ensures MaxCount == maxCount && MaxRAMSize == maxRAMSize && entries == [] && ramsize == 0
    {
      MaxCount, MaxRAMSize, entries, ramsize := maxCount, maxRAMSize, [], 0;
    }

    /** Binary search for the first id that is not below `id`. */
    method Search(id: Id) returns (i: nat)
      requires Sorted(entries)
      ensures i == Position(entries, id)
    {
      i := 0;
      var j := |entries|;
      while i < j
        invariant 0 <= i <= j <= |entries|
        invariant forall k | 0 <= k < i :: Less(Key(entries[k]), id)
        invariant forall k | j <= k < |entries| :: !Less(Key(entries[k]), id)
      {
        var h := (i + j) / 2;
        if Less(Key(entries[h]), id) {
          forall k | 0 <= k <= h ensures Less(Key(entries[k]), id) {
            if k < h { LessTransitive(Key(entries[k]), Key(entries[h]), id); }
          }
          i := h + 1;
        } else {
          forall k | h <= k < |entries| ensures !Less(Key(entries[k]), id) {
            if h < k && Less(Key(entries[k]), id) { LessTransitive(Key(entries[h]), Key(entries[k]), id); }
          }
          j := h;
        }
      }
      PositionIs(entries, id, i);
    }

    method Add(e: Entry) returns (ok: bool)
      requires Sorted(entries)
      modifies this
      ensures ok && entries == Inserted(old(entries), e) && ramsize == old(ramsize) + DataLen(e)
    {
      var i := Search(Key(e));
      if i == |entries| {
        entries := entries + [e];
      } else {
        var shifted := entries[..i + 1] + entries[i..];
        entries := shifted[i := e];
      }
      assert entries == Inserted(old(entries), e);
      if e.data.Some? {
        ramsize := ramsize + |e.data.value|;
      }
      return true;
    }

    method Update(e: Entry, now: int)
      requires Sorted(entries)
      modifies this`entries
      ensures var p := Position(old(entries), Key(e));
              entries == if Contains(old(entries), Key(e)) then old(entries)[p := e.(lastAccess := now)] else old(entries)
    {
      var i := Search(Key(e));
      if i < |entries| && Key(entries[i]) == Key(e) {
        entries := entries[i := e.(lastAccess := now)];
      }
    }

    method Has(id: Id) returns (ok: bool)
      requires Sorted(entries)
      ensures ok == Contains(entries, id)
    {
      var i := Search(id);
      ok := i < |entries| && Key(entries[i]) == id;
    }

    /** Looks an entry up and marks it as used. */
    method Get(id: Id, now: int) returns (r: Option<Entry>)
      requires Sorted(entries)
      modifies this`entries
      ensures var p := Position(old(entries), id);
              if Contains(old(entries), id) then
                entries == Touched(old(entries), id, now) && r == Some(old(entries)[p].(lastAccess := now))
              else entries == old(entries) && r == None
    {
      var i := Search(id);
      if i < |entries| && Key(entries[i]) == id {
        entries := entries[i := entries[i].(lastAccess := now)];
        return Some(entries[i]);
      }
      return None;
    }

    method Delete(id: Id) returns (r: Id)
      requires Sorted(entries)
      modifies this
      ensures var p := Position(old(entries), id);
              if Contains(old(entries), id) then
                entries == Without(old(entries), p) && ramsize == old(ramsize) - DataLen(old(entries)[p]) && r == id
              else entries == old(entries) && ramsize == old(ramsize) && r == ""
    {
      var i := Search(id);
      if i < |entries| && Key(entries[i]) == id {
        if entries[i].data.Some? {
          ramsize := ramsize - |entries[i].data.value|;
        }
        entries := entries[..i] + entries[i + 1..];
        return id;
      }
      return "";
    }

    method GetOldest() returns (oldest: nat)
      requires entries != []
      ensures oldest == Oldest(entries, |entries|)
    {
      oldest := 0;
      for x := 0 to |entries|
        invariant x == 0 ==> oldest == 0
        invariant x > 0 ==> oldest == Oldest(entries, x)
      {
        if entries[x].lastAccess < entries[oldest].lastAccess {
          oldest := x;
        }
      }
    }

    method GetOldestWithData() returns (oldest: int)
      ensures oldest == (var o := OldestWithData(entries, |entries|); if o.None? then -1 else o.value)
    {
      oldest := -1;
      for x := 0 to |entries|
        invariant oldest == (var o := OldestWithData(entries, x); if o.None? then -1 else o.value)
      {
        if entries[x].data.Some? {
          if oldest == -1 || entries[x].lastAccess < entries[oldest].lastAccess {
            oldest := x;
          }
        }
      }
    }

    /** Names the entry to evict, if there are too many, and drops data until
        the memory limit is met. */
    method HandleContrains() returns (id: Id)
      requires 0 <= MaxCount
      modifies this
      ensures id == EvictId(old(entries), MaxCount)
      ensures (entries, ramsize) == Limited(old(entries), old(ramsize), MaxRAMSize)
    {
      id := "";
      if |entries| > MaxCount {
        var oldest := GetOldest();
        id := Key(entries[oldest]);
      }
      if MaxRAMSize > 0 {
        while ramsize > MaxRAMSize
          invariant Trimmed(old(entries), old(ramsize), MaxRAMSize) == Trimmed(entries, ramsize, MaxRAMSize)
          decreases WithData(entries), ramsize
        {
          var oldest := GetOldestWithData();
          if oldest == -1 {
            ramsize := 0;
            break;
          }
          WithDataDrops(entries, oldest);
          ramsize := ramsize - |entries[oldest].data.value|;
          entries := entries[oldest := entries[oldest].(data := None)];
        }
      }
    }
  }

  function Touched(es: seq<Entry>, id: Id, now: int): seq<Entry> {
    var p := Position(es, id);
    if Contains(es, id) then es[p := es[p].(lastAccess := now)] else es
  }

  function EvictId(es: seq<Entry>, maxCount: int): Id
    requires 0 <= maxCount
  {
    if |es| > maxCount then Key(es[Oldest(es, |es|)]) else ""
  }

  function Limited(es: seq<Entry>, ram: int, max: int): (seq<Entry>, int) {
    if max > 0 then Trimmed(es, ram, max) else (es, ram)
  }
}
