/** The cache object: each call does to its fields what the state model says,
    and every run of calls refines a plain map. */
module FastCaches {
  import opened Wrappers
  import opened Blobs
  import opened Lru
  import opened CacheModel
  import opened CacheLaws

  const DEFAULT_MFFRS := 100 * 1024

  class FastCache {
    const MaxFileSizeForRAM: int
    const entries: LRUList
    var files: map<Id, Bytes>
    var bf: iset<Id>
    var bfDirty: bool

    /** An empty cache; an empty bloom filter may already let ids through. */
    constructor (maxCount: nat, maxRAMSize: int, maxFileSizeForRAM: int, noise: iset<Id>)
      ensures fresh(entries) && Valid(State())
      ensures State() == Cache(maxCount, maxRAMSize, if maxFileSizeForRAM == 0 then DEFAULT_MFFRS else maxFileSizeForRAM,
                               [], 0, map[], noise)
    {
      MaxFileSizeForRAM := if maxFileSizeForRAM == 0 then DEFAULT_MFFRS else maxFileSizeForRAM;
      entries := new LRUList(maxCount, maxRAMSize);
      files, bf, bfDirty := map[], noise, false;
    }

    ghost function State(): Cache
      reads this, entries
    {
      Cache(if entries.MaxCount < 0 then 0 else entries.MaxCount, entries.MaxRAMSize, MaxFileSizeForRAM,
            entries.entries, entries.ramsize, files, bf)
    }

    method HasBlob(id: Id) returns (r: Result<bool, StoreError>)
      requires Valid(State())
      ensures r == if id == "" then Err(EmptyId) else Ok(Abs(State(), id).Some?)
    {
      CoreAt(State(), id);
      if id == "" { return Err(EmptyId); }
      if id in bf {
        var has := entries.Has(id);
        if has { return Ok(true); }
      }
      return Ok(false);
    }

    /** `noise` are the ids that pass the filter, besides `b`'s, once `b`'s id
        has been inserted. */
    method StoreBlob(b: Desc, data: Bytes, now: int, readBack: bool, noise: iset<Id>) returns (r: Result<Id, StoreError>)
      requires Valid(State()) && 0 <= entries.MaxCount && |b.blobID| != 1
      requires b.blobID != "" && !Held(State(), b.blobID) ==>
                 Stored(State(), NewEntry(State(), b, data, now, readBack), data, noise).Some?
      modifies this, entries
      ensures if b.blobID == "" || Held(old(State()), b.blobID) then
                State() == old(State()) && r == Err(if b.blobID == "" then EmptyId else Exist)
              else
                r == Ok(b.blobID) && Valid(State())
                && Some(State()) == Stored(old(State()), NewEntry(old(State()), b, data, now, readBack), data, noise)
    {
      hide Core, Valid, Evicted, Deleted, Abs, Contains, Ram;
      ghost var e := NewEntry(State(), b, data, now, readBack);
      ghost var was, a := State(), AddedTo(State(), e, data);
      HeldIff(State(), b.blobID);
      var has := HasBlob(b.blobID);
      if has.Err? { return Err(has.error); }
      if has.value { return Err(Exist); }
      StoreKeeps(was, e, data, noise);
      AddedCore(was, e, data);
      var dat := WriteBinFile(b.blobID, data, readBack);
      var added := entries.Add(Entry(now, b, dat));
      assert State() == a;
      while true
        invariant Core(State()) && Evicted(State()) == Evicted(a) && Evicted(a).Some?
        invariant bf == was.bloom
        decreases |entries.entries|
      {
        ghost var c := State();
        LoopRound(c);
        var id := entries.HandleContrains();
        assert State() == Limit(c);
        if id == "" { break; }
        var deleted := DeleteBlob(id);
      }
      UpdateBloom(b.blobID, noise);
      return Ok(b.blobID);
    }

    method WriteBinFile(id: Id, data: Bytes, readBack: bool) returns (dat: Option<Bytes>)
      modifies this`files
      ensures files == old(files)[id := data]
      ensures dat == if |data| < MaxFileSizeForRAM && readBack then Some(data) else None
    {
      files := files[id := data];
      if |data| < MaxFileSizeForRAM && readBack {
        return Some(data);
      }
      return None;
    }

    method DeleteBlob(id: Id) returns (r: Result<(), StoreError>)
      requires Core(State())
      modifies this`files, this`bfDirty, entries
      ensures State() == Deleted(old(State()), id)
      ensures r == if id == "" then Err(EmptyId) else if Held(old(State()), id) then Ok(()) else Err(NotExist)
    {
      if id == "" { return Err(EmptyId); }
      CoreAt(State(), id);
      if id in bf {
        var has := entries.Has(id);
        if has {
          var lid := entries.Delete(id);
          if lid != "" {
            if lid !in files { return Err(NotExist); }
            files := files - {lid};
            bfDirty := true;
          }
          return Ok(());
        }
      }
      return Err(NotExist);
    }

    method UpdateBlobDescription(id: Id, b: Desc, now: int) returns (r: Result<(), StoreError>)
      requires Valid(State())
      modifies entries
      ensures State() == Updated(old(State()), id, b, now)
      ensures r == if b.blobID == "" then Err(EmptyId) else Ok(())
    {
      CoreAt(State(), b.blobID);
      var has := HasBlob(b.blobID);
      if has.Err? { return Err(has.error); }
      if !has.value { return Ok(()); }
      if id in bf {
        ghost var was := State();
        TouchKeeps(was, id, now);
        var l := entries.Get(id, now);
        if l.Some? {
          TouchedAt(was.entries, id, now, b.blobID);
          entries.Update(l.value.(desc := b), now);
        }
      }
      return Ok(());
    }

    method GetBlobDescription(id: Id, now: int) returns (r: Result<Desc, StoreError>)
      requires Valid(State())
      modifies entries
      ensures State() == if id == "" then old(State()) else Touch(old(State()), id, now)
      ensures var m := Abs(old(State()), id);
              r == if id == "" then Err(EmptyId) else if m.Some? then Ok(m.value.0) else Err(NotExist)
    {
      CoreAt(State(), id);
      if id == "" { return Err(EmptyId); }
      if id in bf {
        var l := entries.Get(id, now);
        if l.Some? { return Ok(l.value.desc); }
      }
      return Err(NotExist);
    }

    method RetrieveBlob(id: Id, now: int) returns (r: Result<Bytes, StoreError>)
      requires Valid(State())
      modifies entries
      ensures State() == if id == "" then old(State()) else Touch(old(State()), id, now)
      ensures var m := Abs(old(State()), id);
              r == if id == "" then Err(EmptyId) else if m.Some? then Ok(m.value.1) else Err(NotExist)
    {
      CoreAt(State(), id);
      if id == "" { return Err(EmptyId); }
      if id in bf {
        var l := entries.Get(id, now);
        if l.Some? {
          if l.value.data.Some? { return Ok(l.value.data.value); }
          if id !in files { return Err(NotExist); }
          return Ok(files[id]);
        }
      }
      return Err(NotExist);
    }

    method UpdateBloom(id: Id, noise: iset<Id>)
      modifies this`bf
      ensures bf == old(bf) + iset{id} + noise
    {
      bf := bf + iset{id} + noise;
    }

    /** Every minute: a filter of the ids that are in the list, plus `noise`. */
    method RebuildBloomFilter(noise: iset<Id>)
      modifies this`bf, this`bfDirty
      ensures State() == if old(bfDirty) then Rebuilt(old(State()), noise) else old(State())
      ensures !bfDirty
    {
      if bfDirty {
        var tb := noise;
        for k := 0 to |entries.entries|
          invariant tb == (iset i | 0 <= i < k :: Key(entries.entries[i])) + noise
        {
          tb := tb + iset{Key(entries.entries[k])};
        }
        bf := tb;
        bfDirty := false;
      }
    }
  }

  lemma TouchedAt(es: seq<Entry>, id: Id, now: int, x: Id)
    requires Sorted(es)
    ensures Position(Touched(es, id, now), x) == Position(es, x) && Contains(Touched(es, id, now), x) == Contains(es, x)
  {
    var t := Touched(es, id, now);
    assert forall i | 0 <= i < |es| :: Key(t[i]) == Key(es[i]);
    PositionIs(t, x, Position(es, x));
  }
}
