/** What every step of one tenant's storage keeps: all copies of a blob hold
    the bytes that were stored first. */
module MainInv {
  import opened Wrappers
  import opened Blobs
  import opened SimpleFile
  import opened MainModel

  /** What a tenant has stored under each id. */
  type History = map<Id, Bytes>

  datatype Action =
    | Store(b: Desc, data: Bytes, newId: Id)
    | Check(id: Id)
    | Describe(id: Id)
    | Retrieve(id: Id)
    | Delete(id: Id, bckFails: bool)
    | Update(b: Desc)
    | Run(task: Task)
    | Lose(id: Id, bin: bool, desc: bool, known: bool)
    | Evict(id: Id)

  /** The primary loses some of the files of a blob. */
  function Lost(s: Files, a: Action): Files
    requires a.Lose?
  {
    Files(if a.bin then s.bin - {a.id} else s.bin, if a.desc then s.desc - {a.id} else s.desc,
          if a.known then s.known - {a.id} else s.known, s.ret)
  }

  function Acted(m: Main, a: Action): (r: Main)
    ensures SameSetup(m, r)
  {
    match a
    case Store(b, data, newId) => StoredMain(m, b, data, newId).0
    case Check(id) => Checked(m, id).0
    case Describe(id) => Described(m, id).0
    case Retrieve(id) => Retrieved(m, id).0
    case Delete(id, bckFails) => DeletedMain(m, id, bckFails).0
    case Update(b) => UpdatedMain(m, b)
    case Run(task) => TaskRun(m, task)
    case Lose(_, _, _, _) => m.(stg := Lost(m.stg, a))
    case Evict(id) => if m.cch.None? then m else m.(cch := Some(m.cch.value - {id}))
  }

  function StoreId(a: Action): Id
    requires a.Store?
  {
    if a.b.blobID == "" then a.newId else a.b.blobID
  }

  function Recorded(m: Main, h: History, a: Action): History {
    if a.Store? && StoredMain(m, a.b, a.data, a.newId).1.Ok? then h[StoreId(a) := a.data] else h
  }

  /** Blobs are stored under fresh ids with their own tenant's name, or under an
      id that the primary has, which is refused; an update keeps the id, the
      tenant and the length, and only pending tasks run. */
  predicate Legal(m: Main, h: History, a: Action) {
    match a
    case Store(b, data, newId) =>
      Has(m.stg, b.blobID) || (StoreId(a) != "" && StoreId(a) !in h && b.tenantID == m.tenant)
    case Update(b) => DescOk(b, b.blobID, m.tenant, h)
    case Run(task) => task in m.tasks
    case _ => true
  }

  predicate DescOk(d: Desc, id: Id, t: Tenant, h: History) {
    d.blobID == id && d.tenantID == t && id in h && d.contentLength == |h[id]|
  }

  ghost predicate FilesOk(s: Files, t: Tenant, h: History) {
    && (forall id | id in s.bin :: id in h && s.bin[id] == h[id])
    && (forall id | id in s.desc :: DescOk(s.desc[id], id, t, h))
    && (forall id | id in s.known :: DescOk(s.known[id], id, t, h))
  }

  predicate TaskOk(k: Task, t: Tenant, h: History) {
    match k
    case Backup(b, id) => DescOk(b, id, t, h)
    case CacheFile(b) => DescOk(b, b.blobID, t, h)
    case CacheById(id) => id in h
    case Restore(b) => DescOk(b, b.blobID, t, h)
    case UpdateBackup(b) => DescOk(b, b.blobID, t, h)
  }

  ghost predicate MainOk(m: Main, h: History) {
    && "" !in h
    && FilesOk(m.stg, m.tenant, h)
    && (m.bck.Some? ==> FilesOk(m.bck.value, m.tenant, h))
    && (forall k | k in m.tasks :: TaskOk(k, m.tenant, h))
  }

  /** Neither store has the bytes. */
  predicate Gone(m: Main, id: Id) {
    id !in m.stg.bin && (m.bck.Some? ==> id !in m.bck.value.bin)
  }

  lemma StoredOk(s: Files, b: Desc, data: Bytes, newId: Id, t: Tenant, h: History)
    requires FilesOk(s, t, h) && b.tenantID == t
    requires WrongSize(b, data) || (Named(b, data, newId).blobID in h && h[Named(b, data, newId).blobID] == data)
    ensures FilesOk(Stored(s, b, data, newId).0, t, h)
  {
  }

  /** Copying what the source yields never puts other bytes into a store: when
      the source has lost the blob, the length check refuses the copy, unless
      the blob was empty anyway. */
  lemma CopiedOk(from: Files, to: Files, b: Desc, t: Tenant, h: History)
    requires FilesOk(from, t, h) && FilesOk(to, t, h) && DescOk(b, b.blobID, t, h) && "" !in h
    ensures FilesOk(Stored(to, b, Piped(from, b.blobID), "").0, t, h)
    ensures b.blobID in from.bin ==> !WrongSize(b, Piped(from, b.blobID))
  {
    StoredOk(to, b, Piped(from, b.blobID), "", t, h);
  }

  lemma RemovedOk(s: Files, id: Id, t: Tenant, h: History)
    requires FilesOk(s, t, h)
    ensures FilesOk(Deleted(s, id).0, t, h)
  {
  }

  lemma WiderOk(s: Files, t: Tenant, h: History, id: Id, data: Bytes)
    requires FilesOk(s, t, h) && id !in h
    ensures FilesOk(s, t, h[id := data])
  {
  }

  lemma SpawnOk(m: Main, k: Task, h: History)
    requires MainOk(m, h) && TaskOk(k, m.tenant, h)
    ensures MainOk(Spawned(m, k), h)
  {
  }

  lemma DescribeOk(s: Files, id: Id, t: Tenant, h: History)
    requires FilesOk(s, t, h)
    ensures SimpleFile.Describe(s, id).Ok? ==> DescOk(SimpleFile.Describe(s, id).value, id, t, h)
  {
  }

  lemma DescribedOk(m: Main, id: Id, h: History)
    requires MainOk(m, h)
    ensures MainOk(Described(m, id).0, h) && Described(m, id).0.cch == m.cch && Described(m, id).0.stg == m.stg
    ensures !OwnHit(m, id) && Described(m, id).1.Ok? ==> DescOk(Described(m, id).1.value, id, m.tenant, h)
  {
    DescribeOk(m.stg, id, m.tenant, h);
    if m.bck.Some? { DescribeOk(m.bck.value, id, m.tenant, h); }
  }

  lemma BackedUpOk(m: Main, b: Desc, id: Id, h: History)
    requires MainOk(m, h) && DescOk(b, id, m.tenant, h)
    ensures MainOk(BackedUp(m, b, id), h)
  {
    if m.bck.Some? { CopiedOk(m.stg, m.bck.value, b, m.tenant, h); }
  }

  lemma RestoredOk(m: Main, b: Desc, h: History)
    requires MainOk(m, h) && DescOk(b, b.blobID, m.tenant, h)
    ensures MainOk(Restored(m, b), h)
  {
    if m.bck.Some? && Has(m.bck.value, b.blobID) {
      CopiedOk(m.bck.value, m.stg, b, m.tenant, h);
    }
  }

  lemma Taken(m: Main, t: Task, h: History)
    requires MainOk(m, h) && t in m.tasks
    ensures MainOk(m.(tasks := m.tasks - multiset{t}), h) && TaskOk(t, m.tenant, h)
  {
    hide FilesOk;
  }

  lemma TaskRunOk(m: Main, t: Task, h: History)
    requires MainOk(m, h) && t in m.tasks
    ensures MainOk(TaskRun(m, t), h)
  {
    var m1 := m.(tasks := m.tasks - multiset{t});
    Taken(m, t, h);
    hide FilesOk;
    match t
    case Backup(b, id) => BackedUpOk(m1, b, id, h);
    case CacheFile(b) =>
    case CacheById(id) => DescribedOk(m1, id, h);
    case Restore(b) => RestoredOk(m1, b, h);
    case UpdateBackup(b) => if m.bck.Some? { UpdatedOk(m.bck.value, b, m.tenant, h); }
  }

  lemma UpdatedOk(s: Files, b: Desc, t: Tenant, h: History)
    requires FilesOk(s, t, h) && DescOk(b, b.blobID, t, h)
    ensures FilesOk(Updated(s, b), t, h)
  {
  }

  lemma NewBlobOk(m: Main, h: History, b: Desc, data: Bytes, newId: Id)
    requires MainOk(m, h) && !WrongSize(b, data) && b.tenantID == m.tenant
    requires Named(b, data, newId).blobID !in h && Named(b, data, newId).blobID != ""
    ensures var d := Named(b, data, newId); var g := h[d.blobID := data];
            DescOk(d, d.blobID, m.tenant, g) && MainOk(m.(stg := Stored(m.stg, b, data, newId).0), g)
  {
    var d := Named(b, data, newId);
    var g := h[d.blobID := data];
    WiderOk(m.stg, m.tenant, h, d.blobID, data);
    if m.bck.Some? { WiderOk(m.bck.value, m.tenant, h, d.blobID, data); }
    StoredOk(m.stg, b, data, newId, m.tenant, g);
    hide FilesOk, Stored;
  }

  lemma StoredMainOk(m: Main, h: History, a: Action)
    requires MainOk(m, h) && a.Store? && Legal(m, h, a)
    ensures MainOk(Acted(m, a), Recorded(m, h, a))
  {
    hide MainOk, FilesOk, DescOk;
    var d := Named(a.b, a.data, a.newId);
    if !Has(m.stg, a.b.blobID) {
      if WrongSize(a.b, a.data) {
        StoreRefusedOk(m, h, a);
      } else {
        var m1, g := m.(stg := Stored(m.stg, a.b, a.data, a.newId).0), h[d.blobID := a.data];
        NewBlobOk(m, h, a.b, a.data, a.newId);
        BackedUpOk(m1, d, d.blobID, g);
        TaskIs(d, m.tenant, g);
        SpawnOk(m1, Backup(d, d.blobID), g);
        StoreSteps(m, a);
        SpawnOk(if m.bck.None? then m1 else if m.sync then BackedUp(m1, d, d.blobID) else Spawned(m1, Backup(d, d.blobID)),
                CacheFile(d), g);
      }
    }
  }

  lemma StoreRefusedOk(m: Main, h: History, a: Action)
    requires MainOk(m, h) && a.Store? && Legal(m, h, a) && !Has(m.stg, a.b.blobID) && WrongSize(a.b, a.data)
    ensures MainOk(m.(stg := Stored(m.stg, a.b, a.data, a.newId).0), h)
  {
    StoredOk(m.stg, a.b, a.data, a.newId, m.tenant, h);
    hide FilesOk, Stored;
  }

  lemma TaskIs(d: Desc, t: Tenant, h: History)
    requires DescOk(d, d.blobID, t, h)
    ensures TaskOk(CacheFile(d), t, h) && TaskOk(Backup(d, d.blobID), t, h)
  {
  }

  lemma StoreSteps(m: Main, a: Action)
    requires a.Store? && !Has(m.stg, a.b.blobID) && !WrongSize(a.b, a.data)
    ensures var d := Named(a.b, a.data, a.newId); var m1 := m.(stg := Stored(m.stg, a.b, a.data, a.newId).0);
            d.blobID == StoreId(a)
            && StoredMain(m, a.b, a.data, a.newId).1 == Ok(d.blobID)
            && Acted(m, a) == Spawned(if m.bck.None? then m1 else if m.sync then BackedUp(m1, d, d.blobID)
                                      else Spawned(m1, Backup(d, d.blobID)), CacheFile(d))
  {
  }

  lemma DeletedMainOk(m: Main, h: History, id: Id, bckFails: bool)
    requires MainOk(m, h)
    ensures MainOk(DeletedMain(m, id, bckFails).0, h)
  {
    RemovedOk(m.stg, id, m.tenant, h);
    if m.bck.Some? { RemovedOk(m.bck.value, id, m.tenant, h); }
    hide FilesOk, Deleted, TaskOk;
  }

  lemma UpdatedMainOk(m: Main, h: History, b: Desc)
    requires MainOk(m, h) && DescOk(b, b.blobID, m.tenant, h)
    ensures MainOk(UpdatedMain(m, b), h)
  {
    UpdatedOk(m.stg, b, m.tenant, h);
    if m.bck.Some? { UpdatedOk(m.bck.value, b, m.tenant, h); }
    hide FilesOk, Updated;
  }

  /** A read changes nothing but the pending tasks. */
  lemma ReadSteps(m: Main, id: Id)
    ensures Checked(m, id).0 == m
            || (m.bck.Some? && SimpleFile.Describe(m.bck.value, id).Ok?
                && Checked(m, id).0 == Spawned(m, Restore(SimpleFile.Describe(m.bck.value, id).value)))
    ensures Retrieved(m, id).0 == m
            || (id in m.stg.bin && Retrieved(m, id).0 == Spawned(m, CacheById(id)))
            || (m.bck.Some? && SimpleFile.Describe(m.bck.value, id).Ok?
                && Retrieved(m, id).0 == Spawned(m, Restore(SimpleFile.Describe(m.bck.value, id).value)))
  {
  }

  lemma ReadOk(m: Main, h: History, id: Id)
    requires MainOk(m, h)
    ensures MainOk(Checked(m, id).0, h) && MainOk(Retrieved(m, id).0, h)
  {
    ReadSteps(m, id);
    if m.bck.Some? {
      DescribeOk(m.bck.value, id, m.tenant, h);
      if SimpleFile.Describe(m.bck.value, id).Ok? {
        SpawnOk(m, Restore(SimpleFile.Describe(m.bck.value, id).value), h);
      }
    }
    if id in m.stg.bin { SpawnOk(m, CacheById(id), h); }
    hide MainOk, Checked, Retrieved, FilesOk;
  }

  /** Every action of a tenant keeps all copies in its two stores as first
      stored, in whatever order the tasks run and whatever the primary loses. */
  lemma ActedOk(m: Main, h: History, a: Action)
    requires MainOk(m, h) && Legal(m, h, a)
    ensures MainOk(Acted(m, a), Recorded(m, h, a)) && Acted(m, a).tenant == m.tenant
  {
    hide FilesOk, MainOk, StoredMain, Checked, Described, Retrieved, DeletedMain, UpdatedMain, TaskRun;
    match a
    case Store(_, _, _) => StoredMainOk(m, h, a);
    case Check(id) => ReadOk(m, h, id);
    case Describe(id) => DescribedOk(m, id, h);
    case Retrieve(id) => ReadOk(m, h, id);
    case Delete(id, bckFails) => DeletedMainOk(m, h, id, bckFails);
    case Update(b) => UpdatedMainOk(m, h, b);
    case Run(task) => TaskRunOk(m, task, h);
    case Lose(_, _, _, _) => LostOk(m, h, a);
    case Evict(id) => EvictedOk(m, h, id);
  }

  lemma LostOk(m: Main, h: History, a: Action)
    requires MainOk(m, h) && a.Lose?
    ensures MainOk(Acted(m, a), h)
  {
  }

  lemma EvictedOk(m: Main, h: History, id: Id)
    requires MainOk(m, h)
    ensures MainOk(Acted(m, Evict(id)), h)
  {
    hide FilesOk;
  }
}
