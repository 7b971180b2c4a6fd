/** What the calls of the cache keep and change, and when a store ends. */
module CacheLaws {
  import opened Wrappers
  import opened Blobs
  import opened Lru
  import opened CacheModel

  lemma CoreAt(c: Cache, id: Id)
    requires Core(c)
    ensures Agrees(Lookup(c.entries, id), c.files, id)
    ensures Abs(c, id) == match Lookup(c.entries, id)
                          case None => None
                          case Some(e) => Some((e.desc, c.files[id]))
  {
  }

  lemma HeldIff(c: Cache, id: Id)
    requires Valid(c)
    ensures Held(c, id) <==> Contains(c.entries, id)
    ensures Held(c, id) <==> Abs(c, id).Some?
    ensures Valid(c) ==> Core(c) && Sorted(c.entries)
  {
    CoreAt(c, id);
  }

  lemma DeletedCore(c: Cache, id: Id)
    requires Core(c)
    ensures Core(Deleted(c, id))
    ensures Held(c, id) ==> |Deleted(c, id).entries| == |c.entries| - 1
    ensures forall x :: Abs(Deleted(c, id), x) == if x == id && id in c.bloom then None else Abs(c, x)
  {
    var d := Deleted(c, id);
    hide Sorted, Ram, Position, Without;
    if id != "" && Held(c, id) {
      var p := Position(c.entries, id);
      WithoutSorted(c.entries, p);
      forall x
        ensures Agrees(Lookup(d.entries, x), d.files, x) && Abs(d, x) == if x == id then None else Abs(c, x)
      {
        WithoutLookup(c.entries, p, x);
        CoreAt(c, x);
      }
      WithoutLookup(c.entries, p, "");
      WithoutLength(c.entries, p);
    } else {
      CoreAt(c, id);
    }
  }

  lemma WithoutLength(es: seq<Entry>, p: nat)
    requires p < |es|
    ensures |Without(es, p)| == |es| - 1
  {
  }

  lemma AddedCore(c: Cache, e: Entry, data: Bytes)
    requires Core(c) && Key(e) != "" && !Contains(c.entries, Key(e)) && (e.data.Some? ==> e.data.value == data)
    ensures Core(AddedTo(c, e, data)) && |AddedTo(c, e, data).entries| == |c.entries| + 1
    ensures forall x :: Abs(AddedTo(c, e, data), x) == if x == Key(e) then Some((e.desc, data)) else Abs(c, x)
  {
    var d := AddedTo(c, e, data);
    InsertedSorted(c.entries, e);
    hide Sorted, Ram;
    InsertedLength(c.entries, e);
    hide Position, Inserted;
    forall x
      ensures Agrees(Lookup(d.entries, x), d.files, x)
      ensures Abs(d, x) == if x == Key(e) then Some((e.desc, data)) else Abs(c, x)
    {
      InsertedLookup(c.entries, e, x);
      CoreAt(c, x);
    }
    InsertedLookup(c.entries, e, "");
  }

  lemma InsertedLength(es: seq<Entry>, e: Entry)
    ensures |Inserted(es, e)| == |es| + 1
  {
  }

  /** Meeting the memory limit changes no contents. */
  lemma LimitCore(c: Cache)
    requires Core(c)
    ensures Core(Limit(c)) && SameButData(c.entries, Limit(c).entries)
    ensures c.maxRam > 0 ==> Limit(c).ramsize <= c.maxRam
    ensures c.maxRam <= 0 || c.ramsize <= c.maxRam ==> Limit(c) == c
    ensures forall x :: Contains(Limit(c).entries, x) == Contains(c.entries, x) && Abs(Limit(c), x) == Abs(c, x)
  {
    var d := Limit(c);
    if c.maxRam > 0 { TrimmedOk(c.entries, c.maxRam); }
    SameSelf(c.entries);
    SameLookup(c.entries, d.entries, "");
    hide Sorted, Ram, Position, SameButData;
    forall x
      ensures Agrees(Lookup(d.entries, x), d.files, x)
      ensures Contains(d.entries, x) == Contains(c.entries, x) && Abs(d, x) == Abs(c, x)
    {
      SameLookup(c.entries, d.entries, x);
      CoreAt(c, x);
    }
  }

  lemma OldestSame(es: seq<Entry>, t: seq<Entry>, n: nat)
    requires SameButData(es, t) && 0 < n <= |es|
    ensures Oldest(t, n) == Oldest(es, n)
  {
    if n > 1 { OldestSame(es, t, n - 1); }
  }

  lemma VictimHeld(c: Cache)
    requires Core(c)
    ensures Victim(Limit(c)) == Victim(c)
    ensures Victim(c) == "" <==> |c.entries| <= c.maxCount
    ensures Victim(c) != "" ==> Contains(c.entries, Victim(c))
  {
    LimitCore(c);
    if |c.entries| > c.maxCount {
      OldestSame(c.entries, Limit(c).entries, |c.entries|);
      LookupIs(c.entries, Oldest(c.entries, |c.entries|));
    }
  }

  /** One entry too many: at most one eviction, of an id the filter lets
      through; otherwise the loop does not end. */
  lemma EvictedOnce(c: Cache, x: Id)
    requires Core(c) && Filtered(c, x) && |c.entries| <= c.maxCount + 1
    ensures Evicted(c) == if Victim(c) != "" && Victim(c) !in c.bloom then None else Some(Round(c))
    ensures Victim(c) != "" && Victim(c) !in c.bloom ==> Victim(c) == x
  {
    VictimHeld(c);
    LimitCore(c);
    hide Core, Contains, Abs, SameButData, EvictId, Limit;
    if Victim(c) != "" && Victim(c) in c.bloom {
      assert Held(Limit(c), Victim(c)) by { LimitBloom(c); }
      DeletedCore(Limit(c), Victim(c));
      DeletedSizes(Limit(c), Victim(c));
      LimitBloom(c);
      LimitCore(Round(c));
      VictimHeld(Round(c));
    } else {
      LimitBloom(c);
    }
  }

  lemma LimitBloom(c: Cache)
    ensures var d := Limit(c); d.bloom == c.bloom && d.maxCount == c.maxCount && d.maxRam == c.maxRam && d.files == c.files
    ensures |Limit(c).entries| == |c.entries|
  {
  }

  lemma DeletedSizes(c: Cache, id: Id)
    ensures var d := Deleted(c, id); d.bloom == c.bloom && d.maxCount == c.maxCount && d.maxRam == c.maxRam
    ensures Deleted(c, id).ramsize <= c.ramsize && |Deleted(c, id).entries| <= |c.entries|
  {
  }

  /** The new entry is older than all others, or as old and first by id. */
  predicate WouldBeOldest(es: seq<Entry>, e: Entry) {
    forall i | 0 <= i < |es| ::
      e.lastAccess < es[i].lastAccess || (e.lastAccess == es[i].lastAccess && Less(Key(e), Key(es[i])))
  }

  lemma OldestAt(es: seq<Entry>, k: nat)
    requires k < |es| && forall j | 0 <= j < |es| :: es[k].lastAccess <= es[j].lastAccess
    requires forall j | 0 <= j < k :: es[k].lastAccess < es[j].lastAccess
    ensures Oldest(es, |es|) == k
  {
  }

  lemma InsertedAt(es: seq<Entry>, e: Entry)
    requires Sorted(es) && !Contains(es, Key(e))
    ensures var p, r := Position(es, Key(e)), Inserted(es, e);
            r[p] == e && forall i | 0 <= i < |es| :: es[i] == r[if i < p then i else i + 1]
    ensures forall i | 0 <= i < |es| :: Less(Key(e), Key(es[i])) <==> Position(es, Key(e)) <= i
  {
    var p, r := Position(es, Key(e)), Inserted(es, e);
    InsertedSorted(es, e);
    hide Inserted, Ram;
    forall i | 0 <= i < |es| ensures Less(Key(e), Key(es[i])) <==> p <= i {
      if p <= i {
        assert r[p] == e && es[i] == r[i + 1];
      } else if Less(Key(e), Key(es[i])) {
        LessTransitive(Key(e), Key(es[i]), Key(e));
        LessIrreflexive(Key(e));
      }
    }
  }

  /** Which of a list's entries is the oldest after one has been put in. */
  lemma OldestInserted(es: seq<Entry>, r: seq<Entry>, p: nat)
    requires p < |r| == |es| + 1 && forall i | 0 <= i < |es| :: es[i] == r[if i < p then i else i + 1]
    ensures Oldest(r, |r|) == p <==>
            forall i | 0 <= i < |es| :: r[p].lastAccess < es[i].lastAccess || (r[p].lastAccess == es[i].lastAccess && p <= i)
  {
    if forall i | 0 <= i < |es| :: r[p].lastAccess < es[i].lastAccess || (r[p].lastAccess == es[i].lastAccess && p <= i) {
      forall j | 0 <= j < |r| && j != p
        ensures r[p].lastAccess <= r[j].lastAccess && (j < p ==> r[p].lastAccess < r[j].lastAccess)
      {
        assert r[j] == es[if j < p then j else j - 1];
      }
      OldestAt(r, p);
    }
  }

  /** When the candidate for eviction is the new entry itself. */
  lemma VictimIsNew(es: seq<Entry>, e: Entry)
    requires Sorted(es) && !Contains(es, Key(e))
    ensures |Inserted(es, e)| == |es| + 1
    ensures var r := Inserted(es, e); Key(r[Oldest(r, |r|)]) == Key(e) <==> WouldBeOldest(es, e)
  {
    hide Inserted, Ram, Less, Sorted, Contains, Position, Oldest;
    var p, r := Position(es, Key(e)), Inserted(es, e);
    InsertedLength(es, e);
    InsertedAt(es, e);
    InsertedSorted(es, e);
    OldestInserted(es, r, p);
    KeyOnce(r, p, Oldest(r, |r|));
  }

  lemma KeyOnce(es: seq<Entry>, p: nat, k: nat)
    requires Sorted(es) && p < |es| && k < |es|
    ensures Key(es[k]) == Key(es[p]) <==> k == p
  {
    if k != p {
      LessIrreflexive(Key(es[p]));
      assert Less(Key(es[if k < p then k else p]), Key(es[if k < p then p else k]));
    }
  }

  /** A store of a new blob does not end exactly when the list is full, the
      new entry is its own candidate for eviction and its id does not pass the
      filter yet. */
  lemma StoreEnds(c: Cache, e: Entry, data: Bytes, noise: iset<Id>)
    requires Valid(c) && Key(e) != "" && !Held(c, Key(e)) && (e.data.Some? ==> e.data.value == data)
    ensures Stored(c, e, data, noise).None? <==>
            |c.entries| == c.maxCount && WouldBeOldest(c.entries, e) && Key(e) !in c.bloom
  {
    var a := AddedTo(c, e, data);
    assert !Contains(c.entries, Key(e)) by { assert Filtered(c, ""); }
    AddedCore(c, e, data);
    AddedFiltered(c, e, data);
    EvictedOnce(a, Key(e));
    VictimHeld(a);
    if |c.entries| == c.maxCount { VictimIsNew(c.entries, e); }
  }

  lemma AddedFiltered(c: Cache, e: Entry, data: Bytes)
    requires Valid(c) && !Contains(c.entries, Key(e))
    ensures Filtered(AddedTo(c, e, data), Key(e))
  {
    forall id | Contains(AddedTo(c, e, data).entries, id) && id != Key(e) ensures id in c.bloom {
      InsertedLookup(c.entries, e, id);
      InsertedLookup(c.entries, e, "");
    }
  }

  /** A store of a new blob keeps every invariant and adds the blob, but for
      one entry at most, which is evicted. */
  lemma StoreKeeps(c: Cache, e: Entry, data: Bytes, noise: iset<Id>)
    requires Valid(c) && Key(e) != "" && !Held(c, Key(e)) && (e.data.Some? ==> e.data.value == data)
    requires Stored(c, e, data, noise).Some?
    ensures var r, v := Stored(c, e, data, noise).value, Victim(AddedTo(c, e, data));
            Valid(r) && (v == "" <==> |c.entries| < c.maxCount) && |r.entries| <= |c.entries| + 1
            && forall x :: Abs(r, x) == if x == v then None else if x == Key(e) then Some((e.desc, data)) else Abs(c, x)
  {
    var a := AddedTo(c, e, data);
    var v, r := Victim(a), Stored(c, e, data, noise).value;
    assert !Contains(c.entries, Key(e)) by { assert Filtered(c, ""); }
    AddedCore(c, e, data);
    AddedFiltered(c, e, data);
    EvictedOnce(a, Key(e));
    VictimHeld(a);
    LimitCore(a);
    LimitBloom(a);
    DeletedCore(Limit(a), v);
    DeletedSizes(Limit(a), v);
    EmptyAbsent(c);
    FilteredAfter(a, v, Key(e));
    hide Filtered, Contains, SameButData, EvictId, Limit, Deleted, AddedTo;
    StoredIs(c, e, data, noise);
    BloomWider(Round(a), r, Key(e));
    assert Within(r);
  }

  lemma EmptyAbsent(c: Cache)
    requires Core(c)
    ensures Abs(c, "") == None
  {
  }

  lemma StoredIs(c: Cache, e: Entry, data: Bytes, noise: iset<Id>)
    requires Evicted(AddedTo(c, e, data)).Some?
    ensures var r := Evicted(AddedTo(c, e, data)).value;
            Stored(c, e, data, noise) == Some(r.(bloom := r.bloom + iset{Key(e)} + noise))
  {
  }

  lemma FilteredAfter(a: Cache, v: Id, x: Id)
    requires Core(a) && Filtered(a, x)
    ensures Filtered(Deleted(Limit(a), v), x)
  {
    LimitCore(a);
    DeletedCore(Limit(a), v);
    LimitBloom(a);
    DeletedSizes(Limit(a), v);
    forall id | Contains(Deleted(Limit(a), v).entries, id) && id != x ensures id in a.bloom {
      CoreAt(Deleted(Limit(a), v), id);
      CoreAt(a, id);
    }
  }

  lemma BloomWider(c: Cache, r: Cache, x: Id)
    requires Core(c) && Filtered(c, x) && r == c.(bloom := r.bloom) && c.bloom <= r.bloom && x in r.bloom
    ensures Core(r) && Filtered(r, "") && forall y :: Abs(r, y) == Abs(c, y)
  {
  }

  /** Whatever is evicted for a blob with a later access time than some entry
      is another entry, and no entry was used less recently. */
  lemma StoreEvictsOldest(c: Cache, e: Entry, data: Bytes, noise: iset<Id>, k: nat)
    requires Valid(c) && Key(e) != "" && !Held(c, Key(e)) && (e.data.Some? ==> e.data.value == data)
    requires k < |c.entries| && c.entries[k].lastAccess < e.lastAccess
    ensures Stored(c, e, data, noise).Some?
    ensures Abs(Stored(c, e, data, noise).value, Key(e)) == Some((e.desc, data))
    ensures var v := Victim(AddedTo(c, e, data));
            v != "" ==> v != Key(e) && Contains(c.entries, v)
                        && forall i | 0 <= i < |c.entries| :: Lookup(c.entries, v).value.lastAccess <= c.entries[i].lastAccess
  {
    var a := AddedTo(c, e, data);
    var v := Victim(a);
    assert !WouldBeOldest(c.entries, e);
    StoreEnds(c, e, data, noise);
    StoreKeeps(c, e, data, noise);
    assert !Contains(c.entries, Key(e)) by { assert Filtered(c, ""); }
    AddedCore(c, e, data);
    VictimHeld(a);
    if v != "" {
      VictimIsNew(c.entries, e);
      InsertedLookup(c.entries, e, v);
      var o := Oldest(a.entries, |a.entries|);
      LookupIs(a.entries, o);
      forall i | 0 <= i < |c.entries| ensures a.entries[o].lastAccess <= c.entries[i].lastAccess {
        var p := Position(c.entries, Key(e));
        assert c.entries[i] == a.entries[if i < p then i else i + 1];
      }
    }
  }

  /** A round of a loop that ends. */
  lemma LoopRound(c: Cache)
    requires Core(c) && Evicted(c).Some?
    ensures Core(Limit(c)) && Victim(c) == EvictId(c.entries, c.maxCount)
    ensures Victim(c) == "" ==> Evicted(c) == Some(Limit(c))
    ensures Victim(c) != "" ==>
              Core(Round(c)) && Evicted(Round(c)) == Evicted(c) && |Round(c).entries| < |c.entries|
    ensures Limit(c).bloom == c.bloom && Round(c).bloom == c.bloom
  {
    LimitCore(c);
    LimitBloom(c);
    VictimHeld(c);
    DeletedCore(Limit(c), Victim(c));
  }

  /** Evicted is the loop: None exactly when every round asks for one more. */
  lemma {:induction false} LoopRuns(c: Cache, n: nat)
    requires Core(c) && Evicted(c).None?
    ensures Victim(Rounds(c, n)) != ""
    decreases n
  {
    VictimHeld(c);
    if n > 0 {
      LimitCore(c);
      DeletedCore(Limit(c), Victim(c));
      if !Held(Limit(c), Victim(c)) {
        LimitCore(Limit(c));
        VictimHeld(Limit(c));
        LimitTwice(c);
      }
      LoopRuns(Round(c), n - 1);
    }
  }

  lemma LimitTwice(c: Cache)
    requires Core(c)
    ensures Limit(Limit(c)) == Limit(c)
  {
    LimitCore(c);
    LimitBloom(c);
    LimitCore(Limit(c));
  }

  lemma {:induction false} LoopStops(c: Cache) returns (n: nat)
    requires Evicted(c).Some?
    ensures Victim(Rounds(c, n)) == "" && Evicted(c).value == Limit(Rounds(c, n))
    decreases |c.entries|
  {
    n := 0;
    if Victim(c) != "" {
      n := LoopStops(Round(c));
      n := n + 1;
    }
  }

  lemma DeleteKeeps(c: Cache, id: Id)
    requires Valid(c)
    ensures Valid(Deleted(c, id))
    ensures forall x :: Abs(Deleted(c, id), x) == if x == id then None else Abs(c, x)
  {
    DeletedCore(c, id);
    DeletedSizes(c, id);
    EmptyAbsent(c);
    CoreAt(c, id);
    forall x | Contains(Deleted(c, id).entries, x) && x != "" ensures x in c.bloom {
      CoreAt(Deleted(c, id), x);
      CoreAt(c, x);
    }
  }

  lemma TouchKeeps(c: Cache, id: Id, now: int)
    requires Core(c)
    ensures Core(Touch(c, id, now)) && (Valid(c) ==> Valid(Touch(c, id, now)))
    ensures forall x :: Abs(Touch(c, id, now), x) == Abs(c, x)
  {
    var p := Position(c.entries, id);
    if id in c.bloom && Contains(c.entries, id) {
      var e := c.entries[p].(lastAccess := now);
      ReplaceKeeps(c, p, e);
      CoreAt(c, id);
      hide Core, Valid, Position, Lookup, Ram;
      assert Touch(c, id, now) == c.(entries := c.entries[p := e]);
    } else {
      assert Touch(c, id, now) == c;
    }
  }

  /** Writing entry `e` over the one with its id. */
  lemma ReplaceKeeps(c: Cache, p: nat, e: Entry)
    requires Core(c) && p < |c.entries| && Key(e) == Key(c.entries[p])
    ensures Key(e) in c.files
    ensures var d := c.(entries := c.entries[p := e]);
            Core(d) <==> DataLen(e) == DataLen(c.entries[p]) && (e.data.Some? ==> e.data.value == c.files[Key(e)])
    ensures var d := c.(entries := c.entries[p := e]);
            Core(d) && Valid(c) ==> Valid(d)
    ensures var d := c.(entries := c.entries[p := e]); forall x ::
              Abs(d, x) == if x == Key(e) then Some((e.desc, c.files[x])) else Abs(c, x)
  {
    var d := c.(entries := c.entries[p := e]);
    ReplacedSorted(c.entries, p, e);
    LookupIs(c.entries, p);
    hide Ram, DataLen;
    forall x
      ensures Lookup(d.entries, x) == if x == Key(e) then Some(e) else Lookup(c.entries, x)
    {
      ReplacedLookup(c.entries, p, e, x);
    }
    assert Agrees(Lookup(d.entries, Key(e)), d.files, Key(e)) <==> (e.data.Some? ==> e.data.value == c.files[Key(e)]);
    ReplacedLookup(c.entries, p, e, "");
    hide Sorted, Position, Contains;
  }

  lemma VictimOlder(c: Cache, i: nat, j: nat)
    requires Sorted(c.entries) && i < |c.entries| && j < |c.entries| && Key(c.entries[i]) != ""
    requires c.entries[j].lastAccess < c.entries[i].lastAccess
    ensures Victim(c) != Key(c.entries[i])
  {
    HasIff(c.entries, Key(c.entries[i]));
    hide Sorted, Contains, Position;
    var o := Oldest(c.entries, |c.entries|);
    assert o != i;
  }

  /** Where the entries of a list are after one more is put in. */
  lemma AddedAt(c: Cache, e: Entry, data: Bytes, i: nat)
    requires Core(c) && !Contains(c.entries, Key(e)) && i < |c.entries|
    ensures var a := AddedTo(c, e, data).entries; var j := if i < Position(c.entries, Key(e)) then i else i + 1;
            Sorted(a) && j < |a| && a[j] == c.entries[i]
  {
    InsertedSorted(c.entries, e);
    InsertedAt(c.entries, e);
    InsertedLength(c.entries, e);
    hide Inserted, Sorted, Ram;
  }

  lemma TouchedEntries(c: Cache, id: Id, now: int)
    requires Valid(c) && Held(c, id)
    ensures var p, es, t := Position(c.entries, id), c.entries, Touch(c, id, now).entries;
            p < |es| && Key(es[p]) == id != "" && t == es[p := es[p].(lastAccess := now)]
  {
  }

  /** A blob that has just been read is not the next to be evicted, as long as
      another entry was used before that. */
  lemma TouchProtects(c: Cache, id: Id, now: int, e: Entry, data: Bytes, k: nat)
    requires Valid(c) && Held(c, id) && !Held(c, Key(e))
    requires k < |c.entries| && Key(c.entries[k]) != id && c.entries[k].lastAccess < now
    ensures Victim(AddedTo(Touch(c, id, now), e, data)) != id
  {
    hide Core, Abs, Touch, AddedTo, Victim;
    var t := Touch(c, id, now);
    TouchKeeps(c, id, now);
    TouchedEntries(c, id, now);
    HeldIff(c, Key(e));
    TouchBloom(c, id, now);
    HeldIff(t, Key(e));
    var p, q := Position(c.entries, id), Position(t.entries, Key(e));
    AddedAt(t, e, data, k);
    AddedAt(t, e, data, p);
    VictimOlder(AddedTo(t, e, data), if p < q then p else p + 1, if k < q then k else k + 1);
  }

  lemma TouchBloom(c: Cache, id: Id, now: int)
    requires Sorted(c.entries)
    ensures Touch(c, id, now).bloom == c.bloom
    ensures forall x :: Held(Touch(c, id, now), x) == Held(c, x)
  {
    var t := Touch(c, id, now);
    assert |t.entries| == |c.entries| && forall i | 0 <= i < |c.entries| :: Key(t.entries[i]) == Key(c.entries[i]);
    forall x ensures Held(t, x) == Held(c, x) {
      PositionIs(t.entries, x, Position(c.entries, x));
    }
  }
}
