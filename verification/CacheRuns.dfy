/** Whole runs of cache calls: the cache refines a plain map from ids to
    descriptions and contents, up to eviction. */
module CacheRuns {
  import opened Wrappers
  import opened Blobs
  import opened Lru
  import opened CacheModel
  import opened CacheLaws

  type Plain = map<Id, (Desc, Bytes)>

  datatype Call =
    | Store(b: Desc, data: Bytes, now: int, readBack: bool, noise: iset<Id>)
    | Update(b: Desc, now: int)
    | Describe(id: Id, now: int)
    | Fetch(id: Id, now: int)
    | Delete(id: Id)
    | Rebuild(noise: iset<Id>)

  /** A store of an id the cache does not hold. */
  predicate Accepts(c: Cache, call: Call) {
    call.Store? && call.b.blobID != "" && !Held(c, call.b.blobID)
  }

  /** The state after a call; None when the call does not end. */
  function After(c: Cache, call: Call): Option<Cache> {
    match call
    case Store(b, data, now, readBack, noise) =>
      if Accepts(c, call) then Stored(c, NewEntry(c, b, data, now, readBack), data, noise) else Some(c)
    case Update(b, now) => Some(Updated(c, b.blobID, b, now))
    case Describe(id, now) => Some(if id == "" then c else Touch(c, id, now))
    case Fetch(id, now) => Some(if id == "" then c else Touch(c, id, now))
    case Delete(id) => Some(Deleted(c, id))
    case Rebuild(noise) => Some(Rebuilt(c, noise))
  }

  /** What the calls mean on a plain map that never forgets. */
  function PlainAfter(m: Plain, call: Call, accepted: bool): Plain {
    match call
    case Store(b, data, _, _, _) => if accepted then m[b.blobID := (b, data)] else m
    case Update(b, _) => if b.blobID in m then m[b.blobID := (b, m[b.blobID].1)] else m
    case Describe(_, _) => m
    case Fetch(_, _) => m
    case Delete(id) => m - {id}
    case Rebuild(_) => m
  }

  /** A run from state `c` and map `m`; None when some call does not end. */
  function Run(c: Cache, m: Plain, calls: seq<Call>): Option<(Cache, Plain)>
    decreases |calls|
  {
    if calls == [] then Some((c, m))
    else
      var next := After(c, calls[0]);
      if next.None? then None
      else Run(next.value, PlainAfter(m, calls[0], Accepts(c, calls[0])), calls[1..])
  }

  /** Whatever the cache holds is what the map holds. */
  ghost predicate Refines(c: Cache, m: Plain) {
    forall id | Abs(c, id).Some? :: id in m && m[id] == Abs(c, id).value
  }

  /** An update replaces the description of `id` by that of the same blob. */
  lemma UpdateKeeps(c: Cache, b: Desc, now: int)
    requires Valid(c)
    ensures Valid(Updated(c, b.blobID, b, now))
    ensures forall x :: Abs(Updated(c, b.blobID, b, now), x) ==
                        if x == b.blobID && Abs(c, x).Some? then Some((b, Abs(c, x).value.1)) else Abs(c, x)
  {
    HeldIff(c, b.blobID);
    CoreAt(c, b.blobID);
    if b.blobID != "" && Held(c, b.blobID) {
      var p := Position(c.entries, b.blobID);
      var e := c.entries[p].(lastAccess := now, desc := b);
      ReplaceKeeps(c, p, e);
      hide Core, Valid, Lookup, Ram;
      assert Touched(c.entries, b.blobID, now)[p := e] == c.entries[p := e];
      assert Updated(c, b.blobID, b, now) == c.(entries := c.entries[p := e]);
    } else {
      EmptyAbsent(c);
    }
  }

  /** With a description of another blob, the invariants survive exactly when
      the data in memory of the first fits the file of the second. */
  lemma UpdateOtherExact(c: Cache, id: Id, b: Desc, now: int)
    requires Valid(c) && Held(c, id) && Held(c, b.blobID) && id != b.blobID
    ensures b.blobID in c.files
    ensures var e, t := Lookup(c.entries, id).value, Lookup(c.entries, b.blobID).value;
            Core(Updated(c, id, b, now)) <==>
            DataLen(e) == DataLen(t) && (e.data.Some? ==> e.data.value == c.files[b.blobID])
  {
    TouchKeeps(c, id, now);
    CoreAt(c, b.blobID);
    EmptyAbsent(c);
    var d, p, q := Touch(c, id, now), Position(c.entries, id), Position(c.entries, b.blobID);
    ReplaceKeeps(d, q, c.entries[p].(lastAccess := now, desc := b));
  }

  /** A rebuilt filter lets every entry through. */
  lemma RebuildKeeps(c: Cache, noise: iset<Id>)
    requires Valid(c)
    ensures Valid(Rebuilt(c, noise)) && forall x :: Abs(Rebuilt(c, noise), x) == Abs(c, x)
  {
    forall id | Contains(c.entries, id) ensures id in Rebuilt(c, noise).bloom {
      assert Key(c.entries[Position(c.entries, id)]) == id;
    }
  }

  /** A rebuilt filter lets exactly the ids of the entries through, but for its
      noise: no longer those of deleted blobs. */
  lemma RebuildExact(c: Cache, noise: iset<Id>, id: Id)
    requires Sorted(c.entries)
    ensures id in Rebuilt(c, noise).bloom <==> Contains(c.entries, id) || id in noise
  {
    HasIff(c.entries, id);
    if Contains(c.entries, id) { assert Key(c.entries[Position(c.entries, id)]) == id; }
  }

  lemma StepRefines(c: Cache, m: Plain, call: Call)
    requires Valid(c) && Refines(c, m) && After(c, call).Some?
    ensures Valid(After(c, call).value) && Refines(After(c, call).value, PlainAfter(m, call, Accepts(c, call)))
  {
    hide Core, Abs, Stored, Touch, Deleted, Rebuilt, Updated;
    match call
    case Store(b, data, now, readBack, noise) =>
      if Accepts(c, call) { StoreKeeps(c, NewEntry(c, b, data, now, readBack), data, noise); }
    case Update(b, now) => UpdateKeeps(c, b, now);
    case Describe(id, now) => TouchKeeps(c, id, now);
    case Fetch(id, now) => TouchKeeps(c, id, now);
    case Delete(id) => DeleteKeeps(c, id);
    case Rebuild(noise) => RebuildKeeps(c, noise);
  }

  /** After any run every invariant holds, and each hit gives the description
      last written and the contents last stored under that id. */
  lemma {:induction false} RunRefines(c: Cache, m: Plain, calls: seq<Call>)
    requires Valid(c) && Refines(c, m) && Run(c, m, calls).Some?
    ensures var (d, n) := Run(c, m, calls).value; Valid(d) && Refines(d, n)
    decreases |calls|
  {
    if calls != [] {
      StepRefines(c, m, calls[0]);
      RunRefines(After(c, calls[0]).value, PlainAfter(m, calls[0], Accepts(c, calls[0])), calls[1..]);
    }
  }

  predicate StoresTo(call: Call, id: Id) {
    call.Store? && call.b.blobID == id
  }

  lemma {:induction false} RunMiss(c: Cache, m: Plain, id: Id, calls: seq<Call>)
    requires Valid(c) && Abs(c, id).None? && Run(c, m, calls).Some?
    requires forall k | 0 <= k < |calls| :: !StoresTo(calls[k], id)
    ensures Abs(Run(c, m, calls).value.0, id).None?
    decreases |calls|
  {
    if calls != [] {
      MissStays(c, calls[0], id);
      RunMiss(After(c, calls[0]).value, PlainAfter(m, calls[0], Accepts(c, calls[0])), id, calls[1..]);
    }
  }

  lemma MissStays(c: Cache, call: Call, id: Id)
    requires Valid(c) && Abs(c, id).None? && !StoresTo(call, id) && After(c, call).Some?
    ensures Valid(After(c, call).value) && Abs(After(c, call).value, id).None?
  {
    hide Core, Abs, Stored, Touch, Deleted, Rebuilt, Updated;
    match call
    case Store(b, data, now, readBack, noise) =>
      if Accepts(c, call) { StoreKeeps(c, NewEntry(c, b, data, now, readBack), data, noise); }
    case Update(b, now) => UpdateKeeps(c, b, now);
    case Describe(x, now) => TouchKeeps(c, x, now);
    case Fetch(x, now) => TouchKeeps(c, x, now);
    case Delete(x) => DeleteKeeps(c, x);
    case Rebuild(noise) => RebuildKeeps(c, noise);
  }

  /** After a delete the id misses until it is stored again. */
  lemma DeletedMisses(c: Cache, m: Plain, id: Id, calls: seq<Call>)
    requires Valid(c) && Run(c, m, [Delete(id)] + calls).Some?
    requires forall k | 0 <= k < |calls| :: !StoresTo(calls[k], id)
    ensures Abs(Run(c, m, [Delete(id)] + calls).value.0, id).None?
  {
    DeleteKeeps(c, id);
    assert ([Delete(id)] + calls)[1..] == calls;
    RunMiss(Deleted(c, id), m - {id}, id, calls);
  }

  function Stores(calls: seq<Call>): nat {
    if calls == [] then 0 else (if calls[0].Store? then 1 else 0) + Stores(calls[1..])
  }

  /** The cache holds the whole map. */
  ghost predicate Exact(c: Cache, m: Plain) {
    forall id :: Abs(c, id) == if id in m then Some(m[id]) else None
  }

  lemma StepExact(c: Cache, m: Plain, call: Call)
    requires Valid(c) && Exact(c, m) && After(c, call).Some? && (call.Store? ==> |c.entries| < c.maxCount)
    ensures var d := After(c, call).value;
            Valid(d) && d.maxCount == c.maxCount && |d.entries| <= |c.entries| + (if call.Store? then 1 else 0)
    ensures Exact(After(c, call).value, PlainAfter(m, call, Accepts(c, call)))
  {
    hide Core, Abs, Stored, Deleted;
    EmptyAbsent(c);
    match call
    case Store(b, data, now, readBack, noise) =>
      if Accepts(c, call) {
        StoreKeeps(c, NewEntry(c, b, data, now, readBack), data, noise);
        StoredMax(c, NewEntry(c, b, data, now, readBack), data, noise);
        EmptyAbsent(After(c, call).value);
      }
    case Update(b, now) => UpdateKeeps(c, b, now);
    case Describe(x, now) => TouchKeeps(c, x, now);
    case Fetch(x, now) => TouchKeeps(c, x, now);
    case Delete(x) => DeleteKeeps(c, x); DeletedSizes(c, x);
    case Rebuild(noise) => RebuildKeeps(c, noise);
  }

  lemma EvictedMax(c: Cache)
    requires Evicted(c).Some?
    ensures Evicted(c).value.maxCount == c.maxCount
    decreases |c.entries|
  {
    if Victim(c) != "" { EvictedMax(Round(c)); }
  }

  lemma StoredMax(c: Cache, e: Entry, data: Bytes, noise: iset<Id>)
    requires Stored(c, e, data, noise).Some?
    ensures Stored(c, e, data, noise).value.maxCount == c.maxCount
  {
    EvictedMax(AddedTo(c, e, data));
  }

  /** As long as there is room for every store, nothing is forgotten. */
  lemma {:induction false} RunExact(c: Cache, m: Plain, calls: seq<Call>)
    requires Valid(c) && Exact(c, m) && |c.entries| + Stores(calls) <= c.maxCount && Run(c, m, calls).Some?
    ensures var (d, n) := Run(c, m, calls).value; Exact(d, n)
    decreases |calls|
  {
    if calls != [] {
      StepExact(c, m, calls[0]);
      RunExact(After(c, calls[0]).value, PlainAfter(m, calls[0], Accepts(c, calls[0])), calls[1..]);
    }
  }
}
