/** Which blob a full cache gives up, told by the times of the calls. */
module CacheUse {
  import opened Wrappers
  import opened Blobs
  import opened Lru
  import opened CacheModel
  import opened CacheLaws
  import opened CacheRuns

  /** When each blob was last stored, described, read or given a description. */
  type Uses = map<Id, int>

  function UsesAfter(u: Uses, call: Call, accepted: bool): Uses {
    match call
    case Store(b, _, now, _, _) => if accepted then u[b.blobID := now] else u
    case Update(b, now) => u[b.blobID := now]
    case Describe(id, now) => u[id := now]
    case Fetch(id, now) => u[id := now]
    case Delete(_) => u
    case Rebuild(_) => u
  }

  /** A run of calls with the record of uses; None when some call does not end. */
  function RunUses(c: Cache, u: Uses, calls: seq<Call>): Option<(Cache, Uses)>
    decreases |calls|
  {
    if calls == [] then Some((c, u))
    else
      var next := After(c, calls[0]);
      if next.None? then None else RunUses(next.value, UsesAfter(u, calls[0], Accepts(c, calls[0])), calls[1..])
  }

  /** The access times in the list are the recorded ones. */
  ghost predicate Recorded(c: Cache, u: Uses) {
    forall id | Lookup(c.entries, id).Some? :: id in u && u[id] == Lookup(c.entries, id).value.lastAccess
  }

  /** `d` has no entries but those of `c`, with their access times, perhaps
      without their data. */
  ghost predicate UsedAs(c: Cache, d: Cache) {
    forall id | Lookup(d.entries, id).Some? ::
      Lookup(c.entries, id).Some?
      && Lookup(d.entries, id).value in {Lookup(c.entries, id).value, Lookup(c.entries, id).value.(data := None)}
  }

  lemma DeletedUses(c: Cache, id: Id)
    requires Core(c)
    ensures UsedAs(c, Deleted(c, id))
  {
    hide Sorted, Position, Without, Ram;
    if id != "" && Held(c, id) {
      forall x ensures Lookup(Deleted(c, id).entries, x).Some? ==> Lookup(Deleted(c, id).entries, x) == Lookup(c.entries, x) {
        WithoutLookup(c.entries, Position(c.entries, id), x);
      }
    }
  }

  lemma LimitUses(c: Cache)
    requires Core(c)
    ensures UsedAs(c, Limit(c))
  {
    LimitCore(c);
    hide Limit, Core, Position, Contains;
    forall x | Lookup(Limit(c).entries, x).Some?
      ensures Lookup(c.entries, x).Some?
      ensures Lookup(Limit(c).entries, x).value in {Lookup(c.entries, x).value, Lookup(c.entries, x).value.(data := None)}
    {
      SameLookup(c.entries, Limit(c).entries, x);
    }
  }

  /** A store adds one entry and takes none of the others anew. */
  lemma StoredUses(c: Cache, e: Entry, data: Bytes, noise: iset<Id>)
    requires Valid(c) && Key(e) != "" && !Held(c, Key(e)) && (e.data.Some? ==> e.data.value == data)
    requires Stored(c, e, data, noise).Some?
    ensures UsedAs(AddedTo(c, e, data), Stored(c, e, data, noise).value)
  {
    var a := AddedTo(c, e, data);
    HeldIff(c, Key(e));
    AddedCore(c, e, data);
    AddedFiltered(c, e, data);
    EvictedOnce(a, Key(e));
    LimitCore(a);
    LimitUses(a);
    DeletedUses(Limit(a), Victim(a));
    hide Lookup, Core, Deleted, Limit, AddedTo, Victim;
  }

  lemma AddedRecorded(c: Cache, u: Uses, e: Entry, data: Bytes)
    requires Valid(c) && !Held(c, Key(e)) && Recorded(c, u)
    ensures Recorded(AddedTo(c, e, data), u[Key(e) := e.lastAccess])
  {
    HeldIff(c, Key(e));
    hide Position, Contains, Sorted, Lookup;
    forall x | Lookup(AddedTo(c, e, data).entries, x).Some?
      ensures x in u[Key(e) := e.lastAccess]
      ensures u[Key(e) := e.lastAccess][x] == Lookup(AddedTo(c, e, data).entries, x).value.lastAccess
    {
      InsertedLookup(c.entries, e, x);
    }
  }

  lemma RecordedAs(c: Cache, d: Cache, u: Uses)
    requires Recorded(c, u) && UsedAs(c, d)
    ensures Recorded(d, u)
  {
    hide Lookup;
  }

  /** Writing an entry with a new access time over the one with its id. */
  lemma ReplacedRecorded(c: Cache, u: Uses, p: nat, e: Entry)
    requires Core(c) && Recorded(c, u) && p < |c.entries| && Key(e) == Key(c.entries[p])
    ensures Recorded(c.(entries := c.entries[p := e]), u[Key(e) := e.lastAccess])
  {
    var d, w := c.(entries := c.entries[p := e]), u[Key(e) := e.lastAccess];
    hide Lookup;
    forall x | Lookup(d.entries, x).Some? ensures x in w && w[x] == Lookup(d.entries, x).value.lastAccess {
      ReplacedLookup(c.entries, p, e, x);
    }
  }

  lemma MissRecorded(c: Cache, u: Uses, id: Id, now: int)
    requires Recorded(c, u) && Lookup(c.entries, id).None?
    ensures Recorded(c, u[id := now])
  {
    hide Lookup;
  }

  lemma TouchRecorded(c: Cache, u: Uses, id: Id, now: int)
    requires Valid(c) && Recorded(c, u)
    ensures Recorded(Touch(c, id, now), u[id := now])
  {
    HeldIff(c, id);
    EmptyAbsent(c);
    if Held(c, id) {
      TouchedEntries(c, id, now);
      var p := Position(c.entries, id);
      ReplacedRecorded(c, u, p, c.entries[p].(lastAccess := now));
      TouchIs(c, id, now);
    } else {
      NoTouch(c, id, now);
      MissRecorded(c, u, id, now);
    }
  }

  lemma TouchIs(c: Cache, id: Id, now: int)
    requires Valid(c) && Held(c, id)
    ensures var p := Position(c.entries, id); Touch(c, id, now) == c.(entries := c.entries[p := c.entries[p].(lastAccess := now)])
  {
  }

  lemma NoTouch(c: Cache, id: Id, now: int)
    requires !Held(c, id)
    ensures Touch(c, id, now) == c
  {
  }

  lemma UpdateRecorded(c: Cache, u: Uses, b: Desc, now: int)
    requires Valid(c) && Recorded(c, u)
    ensures Recorded(Updated(c, b.blobID, b, now), u[b.blobID := now])
  {
    HeldIff(c, b.blobID);
    if b.blobID != "" && Held(c, b.blobID) {
      var p := Position(c.entries, b.blobID);
      var e := c.entries[p].(lastAccess := now, desc := b);
      ReplacedRecorded(c, u, p, e);
      assert Touched(c.entries, b.blobID, now)[p := e] == c.entries[p := e];
    } else {
      EmptyMiss(c);
      MissRecorded(c, u, b.blobID, now);
    }
  }

  lemma EmptyMiss(c: Cache)
    requires Core(c)
    ensures Lookup(c.entries, "").None?
  {
  }

  lemma StoreRecorded(c: Cache, u: Uses, call: Call)
    requires Valid(c) && Recorded(c, u) && Accepts(c, call) && After(c, call).Some?
    ensures Recorded(After(c, call).value, u[call.b.blobID := call.now])
  {
    hide Core, Lookup, Stored, AddedTo, Held;
    var e := NewEntry(c, call.b, call.data, call.now, call.readBack);
    StoredUses(c, e, call.data, call.noise);
    AddedRecorded(c, u, e, call.data);
    RecordedAs(AddedTo(c, e, call.data), After(c, call).value, u[call.b.blobID := call.now]);
  }

  lemma StepRecorded(c: Cache, u: Uses, call: Call)
    requires Valid(c) && Recorded(c, u) && After(c, call).Some?
    ensures Valid(After(c, call).value) && Recorded(After(c, call).value, UsesAfter(u, call, Accepts(c, call)))
  {
    hide Core, Abs, Stored, Touch, Deleted, Updated, Recorded, Lookup;
    match call
    case Store(b, data, now, readBack, noise) =>
      if Accepts(c, call) {
        StoreKeeps(c, NewEntry(c, b, data, now, readBack), data, noise);
        StoreRecorded(c, u, call);
      }
    case Update(b, now) => UpdateKeeps(c, b, now); UpdateRecorded(c, u, b, now);
    case Describe(id, now) => TouchKeeps(c, id, now); UseRecorded(c, u, id, now);
    case Fetch(id, now) => TouchKeeps(c, id, now); UseRecorded(c, u, id, now);
    case Delete(id) => DeleteKeeps(c, id); DeletedUses(c, id); RecordedAs(c, Deleted(c, id), u);
    case Rebuild(noise) => RebuildKeeps(c, noise); SameRecorded(c, Rebuilt(c, noise), u);
  }

  lemma UseRecorded(c: Cache, u: Uses, id: Id, now: int)
    requires Valid(c) && Recorded(c, u)
    ensures Recorded(if id == "" then c else Touch(c, id, now), u[id := now])
  {
    hide Recorded, Touch, Core;
    TouchRecorded(c, u, id, now);
    if id == "" {
      EmptyMiss(c);
      MissRecorded(c, u, id, now);
    }
  }

  lemma SameRecorded(c: Cache, d: Cache, u: Uses)
    requires Recorded(c, u) && d.entries == c.entries
    ensures Recorded(d, u)
  {
  }

  /** The blobs among which a store chooses: the cached ones and its own. */
  predicate Candidate(c: Cache, call: Call, x: Id)
    requires call.Store?
  {
    Abs(c, x).Some? || x == call.b.blobID
  }

  /** Used before `x`, or at the same time and first by id. */
  predicate UsedBefore(u: Uses, v: Id, x: Id) {
    v in u && x in u && (u[v] < u[x] || (u[v] == u[x] && (v == x || Less(v, x))))
  }

  /** Whatever a store evicts was used least recently of all candidates. */
  ghost predicate EvictsLeastUsed(c: Cache, u: Uses, call: Call)
    requires call.Store? && After(c, call).Some?
  {
    forall v, x | Candidate(c, call, v) && Abs(After(c, call).value, v).None? && Candidate(c, call, x) ::
      UsedBefore(u[call.b.blobID := call.now], v, x)
  }

  lemma VictimUsed(c: Cache, u: Uses, x: Id)
    requires Core(c) && Recorded(c, u) && Victim(c) != "" && Lookup(c.entries, x).Some?
    ensures UsedBefore(u, Victim(c), x)
  {
    var o, i := Oldest(c.entries, |c.entries|), Position(c.entries, x);
    LookupIs(c.entries, o);
    LookupIs(c.entries, i);
  }

  lemma StoreEvicts(c: Cache, u: Uses, call: Call)
    requires Valid(c) && Recorded(c, u) && Accepts(c, call) && After(c, call).Some?
    ensures EvictsLeastUsed(c, u, call)
  {
    hide Core, Stored, AddedTo, Held, UsedBefore, Victim, Recorded;
    var e := NewEntry(c, call.b, call.data, call.now, call.readBack);
    var a, w := AddedTo(c, e, call.data), u[call.b.blobID := call.now];
    HeldIff(c, call.b.blobID);
    StoreKeeps(c, e, call.data, call.noise);
    AddedCore(c, e, call.data);
    AddedRecorded(c, u, e, call.data);
    forall v, x | Candidate(c, call, v) && Abs(After(c, call).value, v).None? && Candidate(c, call, x)
      ensures UsedBefore(w, v, x)
    {
      EmptyAbsent(c);
      CoreAt(a, x);
      VictimUsed(a, w, x);
    }
  }

  /** After any run of calls, a store that needs room gives up the blob whose
      last use in the run lies furthest back, where storing is the first use. */
  lemma {:induction false} RunEvicts(c: Cache, u: Uses, calls: seq<Call>, call: Call)
    requires Valid(c) && Recorded(c, u) && RunUses(c, u, calls).Some? && call.Store?
    requires var (d, w) := RunUses(c, u, calls).value; Accepts(d, call) && After(d, call).Some?
    ensures var (d, w) := RunUses(c, u, calls).value; EvictsLeastUsed(d, w, call)
    decreases |calls|
  {
    hide Valid, Recorded, EvictsLeastUsed, After, Accepts, UsesAfter;
    if calls == [] {
      StoreEvicts(c, u, call);
    } else {
      StepRecorded(c, u, calls[0]);
      RunEvicts(After(c, calls[0]).value, UsesAfter(u, calls[0], Accepts(c, calls[0])), calls[1..], call);
    }
  }

  /** An empty cache and no uses. */
  lemma StartRecorded(c: Cache)
    requires c.entries == []
    ensures Recorded(c, map[])
  {
  }

  // ---- what is kept in memory ----

  /** Only contents below the size limit are in memory. */
  ghost predicate OnlySmall(c: Cache) {
    forall id | Lookup(c.entries, id).Some? && Lookup(c.entries, id).value.data.Some? ::
      |Lookup(c.entries, id).value.data.value| < c.maxFile
  }

  lemma SmallAs(c: Cache, d: Cache)
    requires OnlySmall(c) && UsedAs(c, d) && d.maxFile == c.maxFile
    ensures OnlySmall(d)
  {
    hide Lookup;
  }

  lemma EvictedFile(c: Cache)
    requires Evicted(c).Some?
    ensures Evicted(c).value.maxFile == c.maxFile
    decreases |c.entries|
  {
    if Victim(c) != "" { EvictedFile(Round(c)); }
  }

  lemma AddedSmall(c: Cache, e: Entry, data: Bytes)
    requires Valid(c) && !Held(c, Key(e)) && OnlySmall(c) && (e.data.Some? ==> |e.data.value| < c.maxFile)
    ensures OnlySmall(AddedTo(c, e, data))
  {
    HeldIff(c, Key(e));
    hide Position, Contains, Sorted, Lookup;
    forall x | Lookup(AddedTo(c, e, data).entries, x).Some? && Lookup(AddedTo(c, e, data).entries, x).value.data.Some?
      ensures |Lookup(AddedTo(c, e, data).entries, x).value.data.value| < c.maxFile
    {
      InsertedLookup(c.entries, e, x);
    }
  }

  lemma ReplacedSmall(c: Cache, p: nat, e: Entry)
    requires Core(c) && OnlySmall(c) && p < |c.entries| && Key(e) == Key(c.entries[p]) && e.data == c.entries[p].data
    ensures OnlySmall(c.(entries := c.entries[p := e]))
  {
    var d := c.(entries := c.entries[p := e]);
    LookupIs(c.entries, p);
    hide Lookup;
    forall x | Lookup(d.entries, x).Some? && Lookup(d.entries, x).value.data.Some?
      ensures |Lookup(d.entries, x).value.data.value| < c.maxFile
    {
      ReplacedLookup(c.entries, p, e, x);
    }
  }

  lemma TouchSmall(c: Cache, id: Id, now: int)
    requires Valid(c) && OnlySmall(c)
    ensures OnlySmall(Touch(c, id, now))
  {
    HeldIff(c, id);
    EmptyAbsent(c);
    if Held(c, id) {
      TouchedEntries(c, id, now);
      var p := Position(c.entries, id);
      ReplacedSmall(c, p, c.entries[p].(lastAccess := now));
      TouchIs(c, id, now);
    } else {
      NoTouch(c, id, now);
    }
  }

  lemma UpdateSmall(c: Cache, b: Desc, now: int)
    requires Valid(c) && OnlySmall(c)
    ensures OnlySmall(Updated(c, b.blobID, b, now))
  {
    HeldIff(c, b.blobID);
    if b.blobID != "" && Held(c, b.blobID) {
      var p := Position(c.entries, b.blobID);
      var e := c.entries[p].(lastAccess := now, desc := b);
      ReplacedSmall(c, p, e);
      assert Touched(c.entries, b.blobID, now)[p := e] == c.entries[p := e];
    }
  }

  lemma StepSmall(c: Cache, call: Call)
    requires Valid(c) && OnlySmall(c) && After(c, call).Some?
    ensures OnlySmall(After(c, call).value)
  {
    hide Core, Abs, Stored, Touch, Deleted, Updated, OnlySmall, Lookup, AddedTo;
    match call
    case Store(b, data, now, readBack, noise) =>
      if Accepts(c, call) {
        var e := NewEntry(c, b, data, now, readBack);
        StoredUses(c, e, data, noise);
        AddedSmall(c, e, data);
        StoredFile(c, e, data, noise);
        SmallAs(AddedTo(c, e, data), After(c, call).value);
      }
    case Update(b, now) => UpdateSmall(c, b, now);
    case Describe(id, now) => TouchSmall(c, id, now);
    case Fetch(id, now) => TouchSmall(c, id, now);
    case Delete(id) => DeletedUses(c, id); DeletedFile(c, id); SmallAs(c, Deleted(c, id));
    case Rebuild(noise) => SameSmall(c, Rebuilt(c, noise));
  }

  lemma SameSmall(c: Cache, d: Cache)
    requires OnlySmall(c) && d.entries == c.entries && d.maxFile == c.maxFile
    ensures OnlySmall(d)
  {
  }

  lemma StoredFile(c: Cache, e: Entry, data: Bytes, noise: iset<Id>)
    requires Stored(c, e, data, noise).Some?
    ensures Stored(c, e, data, noise).value.maxFile == c.maxFile == AddedTo(c, e, data).maxFile
  {
    EvictedFile(AddedTo(c, e, data));
  }

  lemma DeletedFile(c: Cache, id: Id)
    ensures Deleted(c, id).maxFile == c.maxFile
  {
  }

  /** Over every run of calls, only contents below the size limit are in memory. */
  lemma {:induction false} RunSmall(c: Cache, u: Uses, calls: seq<Call>)
    requires Valid(c) && OnlySmall(c) && Recorded(c, u) && RunUses(c, u, calls).Some?
    ensures OnlySmall(RunUses(c, u, calls).value.0)
    decreases |calls|
  {
    hide Valid, Recorded, OnlySmall, After, Accepts, UsesAfter;
    if calls != [] {
      StepSmall(c, calls[0]);
      StepRecorded(c, u, calls[0]);
      RunSmall(After(c, calls[0]).value, UsesAfter(u, calls[0], Accepts(c, calls[0])), calls[1..]);
    }
  }

  /** After a store that leaves the memory limit kept, contents are in memory
      exactly when they are small and the file could be read back. */
  lemma StoreInMemory(c: Cache, call: Call)
    requires Valid(c) && Accepts(c, call) && After(c, call).Some?
    requires c.maxRam <= 0 || c.ramsize + |call.data| <= c.maxRam
    requires Abs(After(c, call).value, call.b.blobID).Some?
    ensures Lookup(After(c, call).value.entries, call.b.blobID)
         == Some(Entry(call.now, call.b, if call.readBack && |call.data| < c.maxFile then Some(call.data) else None))
  {
    var e := NewEntry(c, call.b, call.data, call.now, call.readBack);
    var a := AddedTo(c, e, call.data);
    HeldIff(c, call.b.blobID);
    AddedCore(c, e, call.data);
    AddedFiltered(c, e, call.data);
    EvictedOnce(a, Key(e));
    LimitCore(a);
    StoreKeeps(c, e, call.data, call.noise);
    InsertedLookup(c.entries, e, Key(e));
    hide Lookup, Core, Limit, Abs, Filtered, Held;
    if Victim(a) != "" && Victim(a) in a.bloom { OtherLookup(a, Victim(a), Key(e)); }
  }

  lemma OtherLookup(c: Cache, id: Id, x: Id)
    requires Core(c) && x != id
    ensures Lookup(Deleted(c, id).entries, x) == Lookup(c.entries, x)
  {
    if id != "" && Held(c, id) { WithoutLookup(c.entries, Position(c.entries, id), x); }
  }
}
