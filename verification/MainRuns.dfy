/** Whole runs of any number of tenants over one shared cache. */
module MainRuns {
  import opened Wrappers
  import opened Blobs
  import opened SimpleFile
  import opened MainModel
  import opened MainInv

  type Histories = map<Tenant, History>

  /** The tenants' storages; the cache they share is `cache`. */
  datatype System = System(mains: map<Tenant, Main>, cache: Cache, hist: Histories)

  /** The storage of `t` as it is when it acts. */
  function View(s: System, t: Tenant): Main
    requires t in s.mains
  {
    var m := s.mains[t];
    if m.cch.None? then m else m.(cch := Some(s.cache))
  }

  function Stepped(s: System, t: Tenant, a: Action): System
    requires t in s.mains && t in s.hist
  {
    var m := Acted(View(s, t), a);
    System(s.mains[t := m], if m.cch.Some? then m.cch.value else s.cache,
           s.hist[t := Recorded(View(s, t), s.hist[t], a)])
  }

  /** A cache entry holds what the tenant it names has stored under the id. */
  predicate EntryOk(id: Id, e: (Desc, Bytes), hist: Histories) {
    e.0.tenantID in hist && DescOk(e.0, id, e.0.tenantID, hist[e.0.tenantID]) && e.1 == hist[e.0.tenantID][id]
  }

  ghost predicate CacheOk(c: Cache, hist: Histories) {
    forall id | id in c :: EntryOk(id, c[id], hist)
  }

  ghost predicate TenantsOk(s: System) {
    && s.hist.Keys == s.mains.Keys
    && forall t | t in s.mains :: s.mains[t].tenant == t && MainOk(s.mains[t], s.hist[t])
  }

  ghost predicate Inv(s: System) {
    TenantsOk(s) && CacheOk(s.cache, s.hist)
  }

  function FillOf(m: Main, b: Desc): Option<Desc> {
    if m.cch.None? || b.blobID == "" || Cached(m, b.blobID) then None else Some(b)
  }

  /** The blob a task would put into the cache, if it would put one. */
  function Fills(m: Main, k: Task): Option<Desc> {
    match k
    case CacheFile(b) => FillOf(m, b)
    case CacheById(id) =>
      if m.cch.None? || id == "" || Cached(m, id) || Described(m, id).1.Err? then None
      else FillOf(m, Described(m, id).1.value)
    case _ => None
  }

  /** A cache task that runs when the primary no longer has the blob: it caches
      no bytes under a description that promises some. */
  predicate BadFill(m: Main, a: Action) {
    a.Run? && Fills(m, a.task).Some?
    && Fills(m, a.task).value.blobID !in m.stg.bin && Fills(m, a.task).value.contentLength > 0
  }

  /** The description of a cached blob of another tenant is replaced although
      the tenants stored different bytes under the same id. */
  predicate BadUpdate(m: Main, h: History, a: Action)
    requires Legal(m, h, a)
  {
    a.Update? && Cached(m, a.b.blobID) && m.cch.value[a.b.blobID].1 != h[a.b.blobID]
  }

  lemma LegalView(s: System, t: Tenant)
    requires TenantsOk(s) && t in s.mains
    ensures MainOk(View(s, t), s.hist[t]) && View(s, t).tenant == t
  {
  }

  lemma RecordedKeeps(m: Main, h: History, a: Action)
    requires Legal(m, h, a)
    ensures forall id | id in h :: id in Recorded(m, h, a) && Recorded(m, h, a)[id] == h[id]
  {
    if a.Store? && !Has(m.stg, a.b.blobID) && !WrongSize(a.b, a.data) { StoreSteps(m, a); }
  }

  lemma TenantsKept(s: System, t: Tenant, a: Action)
    requires TenantsOk(s) && t in s.mains && Legal(View(s, t), s.hist[t], a)
    ensures TenantsOk(Stepped(s, t, a))
  {
    LegalView(s, t);
    ActedOk(View(s, t), s.hist[t], a);
    hide MainOk, Acted, Legal, Recorded;
  }

  /** What an action does to the cache: nothing, one entry less, one filled
      from the primary, or a new description for one. */
  lemma CacheEffect(m: Main, a: Action)
    requires m.cch.Some?
    ensures var c, r := m.cch.value, Acted(m, a).cch;
            if a.Run? && Fills(m, a.task).Some? then
              var b := Fills(m, a.task).value;
              r == Some(c[b.blobID := (b, Piped(m.stg, b.blobID))])
            else if a.Update? && a.b.blobID != "" && Cached(m, a.b.blobID) then
              r == Some(c[a.b.blobID := (a.b, c[a.b.blobID].1)])
            else r == Some(c) || (a.Evict? && r == Some(c - {a.id})) || (a.Delete? && r == Some(c - {a.id}))
  {
    match a
    case Store(b, data, newId) =>
    case Check(id) => ReadSteps(m, id);
    case Describe(id) => DescribedCache(m, id);
    case Retrieve(id) => ReadSteps(m, id);
    case Delete(id, bckFails) =>
    case Update(b) =>
    case Run(k) => FillEffect(m.(tasks := m.tasks - multiset{k}), m, k);
    case Lose(_, _, _, _) =>
    case Evict(id) =>
  }

  lemma DescribedCache(m: Main, id: Id)
    ensures Described(m, id).0.cch == m.cch && Described(m, id).0.stg == m.stg
  {
  }

  lemma FilledIs(m1: Main, m: Main, b: Desc)
    requires m1 == m.(tasks := m1.tasks) && m.cch.Some?
    ensures Filled(m1, b).cch ==
            match FillOf(m, b)
            case None => m.cch
            case Some(_) => Some(m.cch.value[b.blobID := (b, Piped(m.stg, b.blobID))])
  {
  }

  lemma SameDescribed(m1: Main, m: Main, id: Id)
    requires m1 == m.(tasks := m1.tasks)
    ensures Described(m1, id).1 == Described(m, id).1
    ensures var d := Described(m1, id).0; d == m.(tasks := d.tasks)
  {
  }

  lemma FillEffect(m1: Main, m: Main, k: Task)
    requires m1 == m.(tasks := m1.tasks) && m.cch.Some?
    ensures Executed(m1, k).cch ==
            match Fills(m, k)
            case None => m.cch
            case Some(b) => Some(m.cch.value[b.blobID := (b, Piped(m.stg, b.blobID))])
  {
    hide Described, Filled, FillOf, Piped;
    match k
    case CacheFile(b) => FilledIs(m1, m, b); FillOfIs(m, b);
    case CacheById(id) =>
      SameDescribed(m1, m, id);
      var (m2, b) := Described(m1, id);
      if b.Ok? {
        FilledIs(m2, m, b.value);
        FillOfIs(m, b.value);
      }
    case _ =>
  }

  lemma FillOfIs(m: Main, b: Desc)
    ensures FillOf(m, b).Some? ==> FillOf(m, b).value == b
    ensures m.cch.None? || b.blobID == "" || Cached(m, b.blobID) ==> FillOf(m, b) == None
  {
  }

  /** The cache stays right exactly when the action is neither a fill from a
      primary that lost the blob nor an update of another tenant's entry. */
  lemma CacheKept(s: System, t: Tenant, a: Action)
    requires Inv(s) && t in s.mains && Legal(View(s, t), s.hist[t], a)
    ensures CacheOk(Stepped(s, t, a).cache, Stepped(s, t, a).hist) <==>
            !BadFill(View(s, t), a) && !BadUpdate(View(s, t), s.hist[t], a)
  {
    hide Acted, Recorded, MainOk;
    var m, h, g := View(s, t), s.hist[t], Stepped(s, t, a).hist;
    LegalView(s, t);
    NoEmptyId(m, h);
    RecordedKeeps(m, h, a);
    WiderCache(s.cache, s.hist, t, Recorded(m, h, a));
    if m.cch.Some? {
      CacheEffect(m, a);
      var c := s.cache;
      if a.Run? && Fills(m, a.task).Some? {
        var b := Fills(m, a.task).value;
        FillDesc(s, t, a.task);
        ReplacedEntry(c, b.blobID, (b, Piped(m.stg, b.blobID)), g);
      } else if a.Update? && a.b.blobID != "" && Cached(m, a.b.blobID) {
        ReplacedEntry(c, a.b.blobID, (a.b, c[a.b.blobID].1), g);
      }
    } else {
      assert Stepped(s, t, a).cache == s.cache;
    }
  }

  lemma NoEmptyId(m: Main, h: History)
    requires MainOk(m, h)
    ensures "" !in h
  {
  }

  lemma WiderCache(c: Cache, hist: Histories, t: Tenant, h: History)
    requires CacheOk(c, hist) && t in hist && forall id | id in hist[t] :: id in h && h[id] == hist[t][id]
    ensures CacheOk(c, hist[t := h])
  {
  }

  lemma ReplacedEntry(c: Cache, id: Id, e: (Desc, Bytes), hist: Histories)
    requires CacheOk(c, hist)
    ensures CacheOk(c[id := e], hist) <==> EntryOk(id, e, hist)
  {
    assert id in c[id := e];
  }

  /** A fill is by a blob the tenant has stored. */
  lemma FillDesc(s: System, t: Tenant, k: Task)
    requires TenantsOk(s) && t in s.mains && k in View(s, t).tasks && Fills(View(s, t), k).Some?
    ensures var b := Fills(View(s, t), k).value; DescOk(b, b.blobID, t, s.hist[t])
    ensures var b := Fills(View(s, t), k).value;
            EntryOk(b.blobID, (b, Piped(View(s, t).stg, b.blobID)), s.hist) <==>
            b.blobID in View(s, t).stg.bin || b.contentLength <= 0
  {
    LegalView(s, t);
    if k.CacheById? { DescribedOk(View(s, t), k.id, s.hist[t]); }
  }

  /** One step of any tenant: the invariant survives exactly when the step is
      not one of the two bad ones. */
  lemma StepExact(s: System, t: Tenant, a: Action)
    requires Inv(s) && t in s.mains && Legal(View(s, t), s.hist[t], a)
    ensures Inv(Stepped(s, t, a)) <==> !BadFill(View(s, t), a) && !BadUpdate(View(s, t), s.hist[t], a)
  {
    TenantsKept(s, t, a);
    CacheKept(s, t, a);
    hide TenantsOk, CacheOk, Stepped;
  }
}
