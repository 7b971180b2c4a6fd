/** The cache as a state: the entry list, the files below it and the bloom
    filter in front, with what each call does to them. */
module CacheModel {
  import opened Wrappers
  import opened Blobs
  import opened Lru

  /** `bloom` holds the ids that pass the filter; it may hold more ids than
      were inserted. */
  datatype Cache = Cache(maxCount: nat, maxRam: int, maxFile: int, entries: seq<Entry>, ramsize: int,
                         files: map<Id, Bytes>, bloom: iset<Id>)

  function Lookup(es: seq<Entry>, id: Id): Option<Entry> {
    if Contains(es, id) then Some(es[Position(es, id)]) else None
  }

  predicate Held(c: Cache, id: Id) {
    id in c.bloom && Contains(c.entries, id)
  }

  /** An entry and the file of its id belong together. */
  predicate Agrees(e: Option<Entry>, files: map<Id, Bytes>, id: Id) {
    match e
    case None => id !in files
    case Some(e) => id in files && (e.data.Some? ==> e.data.value == files[id])
  }

  /** What holds at every moment, also in the middle of a store. */
  ghost predicate Core(c: Cache) {
    && Sorted(c.entries) && !Contains(c.entries, "")
    && (forall id :: Agrees(Lookup(c.entries, id), c.files, id))
    && c.ramsize == Ram(c.entries)
  }

  /** Every entry but that of `x` passes the filter. */
  ghost predicate Filtered(c: Cache, x: Id) {
    forall id | Contains(c.entries, id) && id != x :: id in c.bloom
  }

  ghost predicate Within(c: Cache) {
    |c.entries| <= c.maxCount && (c.maxRam > 0 ==> c.ramsize <= c.maxRam)
  }

  /** What holds between calls. */
  ghost predicate Valid(c: Cache) {
    Core(c) && Filtered(c, "") && Within(c)
  }

  /** The plain map the cache stands for, id by id. */
  function Abs(c: Cache, id: Id): Option<(Desc, Bytes)> {
    var e := Lookup(c.entries, id);
    if e.Some? && id in c.files then Some((e.value.desc, c.files[id])) else None
  }

  function Deleted(c: Cache, id: Id): Cache {
    if id != "" && Held(c, id) then
      var p := Position(c.entries, id);
      c.(entries := Without(c.entries, p), ramsize := c.ramsize - DataLen(c.entries[p]), files := c.files - {id})
    else c
  }

  function Touch(c: Cache, id: Id, now: int): Cache {
    if id in c.bloom then c.(entries := Touched(c.entries, id, now)) else c
  }

  /** The entry of a new blob: small contents are kept in memory, when reading
      the file back worked. */
  function NewEntry(c: Cache, b: Desc, data: Bytes, now: int, readBack: bool): Entry {
    Entry(now, b, if |data| < c.maxFile && readBack then Some(data) else None)
  }

  /** A store before its eviction loop. */
  function AddedTo(c: Cache, e: Entry, data: Bytes): Cache {
    c.(entries := Inserted(c.entries, e), ramsize := c.ramsize + DataLen(e), files := c.files[Key(e) := data])
  }

  function Limit(c: Cache): Cache {
    var (es, ram) := Limited(c.entries, c.ramsize, c.maxRam);
    c.(entries := es, ramsize := ram)
  }

  /** The id one round of the eviction loop evicts; "" ends the loop. */
  function Victim(c: Cache): Id {
    EvictId(c.entries, c.maxCount)
  }

  function Round(c: Cache): Cache {
    Deleted(Limit(c), Victim(c))
  }

  function Rounds(c: Cache, n: nat): Cache
    decreases n
  {
    if n == 0 then c else Rounds(Round(c), n - 1)
  }

  /** The eviction loop: None when it does not end. */
  function Evicted(c: Cache): Option<Cache>
    decreases |c.entries|
  {
    if Victim(c) == "" then Some(Limit(c))
    else if Held(Limit(c), Victim(c)) then Evicted(Round(c))
    else None
  }

  function Stored(c: Cache, e: Entry, data: Bytes, noise: iset<Id>): Option<Cache> {
    var r := Evicted(AddedTo(c, e, data));
    if r.None? then None else Some(r.value.(bloom := r.value.bloom + iset{Key(e)} + noise))
  }

  /** The description of `id` is replaced by `b`; the entry that is written is
      the one of `b`'s own id. */
  function Updated(c: Cache, id: Id, b: Desc, now: int): Cache {
    if b.blobID == "" || !Held(c, b.blobID) || !Held(c, id) then c
    else
      var es := Touched(c.entries, id, now);
      var e := c.entries[Position(c.entries, id)].(lastAccess := now, desc := b);
      c.(entries := es[Position(c.entries, b.blobID) := e])
  }

  function Rebuilt(c: Cache, noise: iset<Id>): Cache {
    c.(bloom := (iset i | 0 <= i < |c.entries| :: Key(c.entries[i])) + noise)
  }

  lemma LookupIs(es: seq<Entry>, i: nat)
    requires Sorted(es) && i < |es|
    ensures Lookup(es, Key(es[i])) == Some(es[i])
  {
    HasIff(es, Key(es[i]));
  }

  lemma LookupSome(es: seq<Entry>, id: Id) returns (i: nat)
    ensures Lookup(es, id).Some? ==> i < |es| && Key(es[i]) == id && es[i] == Lookup(es, id).value
  {
    i := Position(es, id);
  }

  lemma InsertedLookup(es: seq<Entry>, e: Entry, x: Id)
    requires Sorted(es) && !Contains(es, Key(e))
    ensures Lookup(Inserted(es, e), x) == if x == Key(e) then Some(e) else Lookup(es, x)
  {
    var p, r := Position(es, Key(e)), Inserted(es, e);
    InsertedSorted(es, e);
    hide Sorted;
    LookupIs(r, p);
    if x != Key(e) {
      var i := LookupSome(es, x);
      if Lookup(es, x).Some? { LookupIs(r, if i < p then i else i + 1); }
      var j := LookupSome(r, x);
      if Lookup(r, x).Some? { LookupIs(es, if j < p then j else j - 1); }
    }
  }

  lemma WithoutLookup(es: seq<Entry>, p: nat, x: Id)
    requires Sorted(es) && p < |es|
    ensures Lookup(Without(es, p), x) == if x == Key(es[p]) then None else Lookup(es, x)
  {
    var r := Without(es, p);
    WithoutSorted(es, p);
    var i := LookupSome(es, x);
    LookupIs(es, p);
    if Lookup(es, x).Some? && x != Key(es[p]) { LookupIs(r, if i < p then i else i - 1); }
    var j := LookupSome(r, x);
    if Lookup(r, x).Some? { LookupIs(es, if j < p then j else j + 1); }
  }

  lemma ReplacedLookup(es: seq<Entry>, i: nat, e: Entry, x: Id)
    requires Sorted(es) && i < |es| && Key(e) == Key(es[i])
    ensures Sorted(es[i := e])
    ensures Lookup(es[i := e], x) == if x == Key(e) then Some(e) else Lookup(es, x)
  {
    var r := es[i := e];
    ReplacedSorted(es, i, e);
    LookupIs(r, i);
    var k := LookupSome(es, x);
    if Lookup(es, x).Some? { LookupIs(r, k); }
    var j := LookupSome(r, x);
    if Lookup(r, x).Some? { LookupIs(es, j); }
  }

  lemma SameLookup(es: seq<Entry>, t: seq<Entry>, x: Id)
    requires Sorted(es) && SameButData(es, t)
    ensures Sorted(t)
    ensures match Lookup(es, x)
            case None => Lookup(t, x) == None
            case Some(e) => Lookup(t, x) == Some(e) || Lookup(t, x) == Some(e.(data := None))
  {
    var k := LookupSome(es, x);
    if Lookup(es, x).Some? { LookupIs(t, k); }
    var j := LookupSome(t, x);
    if Lookup(t, x).Some? { LookupIs(es, j); }
  }
}
