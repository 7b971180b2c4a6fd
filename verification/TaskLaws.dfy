/** What background tasks achieve and cannot undo: a deleted blob stays
    deleted, a stored one reaches every tier, and a lost one comes back. */
module TaskLaws {
  import opened Wrappers
  import opened Blobs
  import opened SimpleFile
  import opened MainModel
  import opened MainInv
  import opened MainRuns
  import opened MainLaws

  /** A delete that succeeds, with the copy in the backup deleted too. */
  lemma DeleteGone(m: Main, id: Id, bckFails: bool)
    requires DeletedMain(m, id, bckFails).1.Ok?
    ensures Gone(DeletedMain(m, id, bckFails).0, id) <==> !(bckFails && m.bck.Some? && id in m.bck.value.bin)
    ensures !Cached(DeletedMain(m, id, bckFails).0, id)
  {
  }

  lemma GoneTask(m: Main, h: History, k: Task, id: Id)
    requires MainOk(m, h) && TaskOk(k, m.tenant, h) && Gone(m, id) && id in h && h[id] != ""
    ensures Gone(Executed(m, k), id)
  {
    match k
    case Backup(b, x) => GoneBackup(m, h, b, x, id);
    case CacheFile(b) =>
    case CacheById(x) => DescribedCache(m, x); DescribedBackup(m, x);
    case Restore(b) =>
    case UpdateBackup(b) =>
  }

  lemma DescribedBackup(m: Main, id: Id)
    ensures Described(m, id).0.bck == m.bck
  {
  }

  /** A backup of a deleted blob is refused by its length. */
  lemma GoneBackup(m: Main, h: History, b: Desc, x: Id, id: Id)
    requires MainOk(m, h) && DescOk(b, x, m.tenant, h) && Gone(m, id) && id in h && h[id] != ""
    ensures Gone(BackedUp(m, b, x), id)
  {
    if x == id && m.bck.Some? && !Has(m.bck.value, id) {
      assert WrongSize(b, Piped(m.stg, id));
    }
  }

  lemma GoneActed(m: Main, h: History, a: Action, id: Id)
    requires MainOk(m, h) && Legal(m, h, a) && Gone(m, id) && id in h && h[id] != ""
    ensures Gone(Acted(m, a), id)
  {
    hide MainOk, Described, Executed, StoredMain, DeletedMain, UpdatedMain, Checked, Retrieved;
    match a
    case Store(b, data, newId) => GoneStore(m, h, a, id);
    case Check(x) => ReadSteps(m, x);
    case Describe(x) => DescribedCache(m, x); DescribedBackup(m, x);
    case Retrieve(x) => ReadSteps(m, x);
    case Delete(x, bckFails) => PrimaryDelete(m, x, bckFails);
    case Update(b) => PrimaryUpdate(m, b);
    case Run(k) => GoneRun(m, h, k, id);
    case Lose(_, _, _, _) =>
    case Evict(x) =>
  }

  lemma GoneRun(m: Main, h: History, k: Task, id: Id)
    requires MainOk(m, h) && k in m.tasks && Gone(m, id) && id in h && h[id] != ""
    ensures Gone(TaskRun(m, k), id)
  {
    Taken(m, k, h);
    GoneTask(m.(tasks := m.tasks - multiset{k}), h, k, id);
  }

  lemma GoneStore(m: Main, h: History, a: Action, id: Id)
    requires MainOk(m, h) && a.Store? && Legal(m, h, a) && Gone(m, id) && id in h && h[id] != ""
    ensures Gone(Acted(m, a), id)
  {
    if !Has(m.stg, a.b.blobID) && !WrongSize(a.b, a.data) { StoreSteps(m, a); }
  }

  /** Once a non-empty blob is gone from primary and backup, no interleaving of
      calls and of the tasks still pending brings it back to either. */
  lemma {:induction false} RunStaysGone(s: System, steps: seq<Step>, t: Tenant, id: Id)
    requires TenantsOk(s) && LegalRun(s, steps) && t in s.mains && Gone(s.mains[t], id)
    requires id in s.hist[t] && s.hist[t][id] != ""
    ensures t in End(s, steps).mains && Gone(End(s, steps).mains[t], id)
    decreases |steps|
  {
    hide MainOk, Acted, Legal, Recorded;
    if steps != [] {
      var u, a := steps[0].0, steps[0].1;
      TenantsKept(s, u, a);
      LegalView(s, u);
      RecordedKeeps(View(s, u), s.hist[u], a);
      if u == t { GoneActed(View(s, t), s.hist[t], a, id); }
      RunStaysGone(Stepped(s, u, a), steps[1..], t, id);
    }
  }

  /** The empty blob is different: a backup that runs after the delete puts it
      into the backup again, exactly when no length was promised. */
  lemma LateBackup(m: Main, b: Desc, id: Id)
    requires m.bck.Some? && b.blobID == id != "" && Gone(m, id)
    ensures Has(BackedUp(m, b, id).bck.value, id) <==> b.contentLength <= 0
  {
  }

  /** A cache task that runs after the delete makes every later read of the
      blob succeed with no bytes. */
  lemma LateFill(m: Main, h: History, b: Desc)
    requires MainOk(m, h) && m.cch.Some? && CacheFile(b) in m.tasks && h[b.blobID] != ""
    requires DeletedMain(m, b.blobID, false).1.Ok?
    ensures b.blobID in h
    ensures var m1 := TaskRun(DeletedMain(m, b.blobID, false).0, CacheFile(b));
            Retrieved(m1, b.blobID).1 == Ok("") && Checked(m1, b.blobID).1
  {
    hide FilesOk;
    assert TaskOk(CacheFile(b), m.tenant, h);
  }

  predicate InBackup(m: Main, d: Desc, data: Bytes) {
    && m.bck.Some? && Has(m.bck.value, d.blobID)
    && Contents(m.bck.value, d.blobID) == Ok(data) && SimpleFile.Describe(m.bck.value, d.blobID) == Ok(d)
  }

  predicate InCache(m: Main, d: Desc, data: Bytes) {
    m.cch.Some? && d.blobID in m.cch.value && m.cch.value[d.blobID] == (d, data)
  }

  /** A store reaches every tier: the backup at once or when its task runs, the
      cache when its task runs. */
  lemma StoreSpreads(m: Main, h: History, a: Action)
    requires MainOk(m, h) && a.Store? && Legal(m, h, a) && StoredMain(m, a.b, a.data, a.newId).1.Ok?
    ensures var r, d, id := Acted(m, a), Named(a.b, a.data, a.newId), StoreId(a);
            && Has(r.stg, id) && Contents(r.stg, id) == Ok(a.data)
            && (m.bck.Some? ==> if m.sync then InBackup(r, d, a.data)
                                else Backup(d, id) in r.tasks && InBackup(TaskRun(r, Backup(d, id)), d, a.data))
            && CacheFile(d) in r.tasks
            && (m.cch.Some? && !Cached(m, id) ==> InCache(TaskRun(r, CacheFile(d)), d, a.data))
  {
    hide MainOk, Has, Stored, BackedUp, TaskRun, Filled, Acted;
    NewIdAbsent(m, h, StoreId(a));
    StoreTakes(m, a);
    StoreSteps(m, a);
    var d := Named(a.b, a.data, a.newId);
    var m1 := m.(stg := Stored(m.stg, a.b, a.data, a.newId).0);
    StoreEffect(m.stg, a.b, a.data, a.newId);
    BackupTakes(m1, d, a.data);
    var r := Acted(m, a);
    if m.bck.Some? && !m.sync {
      BackupTakes(TaskLess(r, Backup(d, d.blobID)), d, a.data);
      TaskRunIs(r, Backup(d, d.blobID));
    }
    FillTakes(r, d, a.data);
  }

  lemma StoreTakes(m: Main, a: Action)
    requires a.Store? && StoredMain(m, a.b, a.data, a.newId).1.Ok?
    ensures !Has(m.stg, a.b.blobID) && !WrongSize(a.b, a.data)
  {
  }

  lemma NewIdAbsent(m: Main, h: History, id: Id)
    requires MainOk(m, h) && id !in h
    ensures m.bck.Some? ==> !Has(m.bck.value, id)
  {
  }

  function TaskLess(m: Main, k: Task): Main {
    m.(tasks := m.tasks - multiset{k})
  }

  lemma TaskRunIs(m: Main, k: Task)
    ensures k.Backup? ==> TaskRun(m, k) == BackedUp(TaskLess(m, k), k.b, k.id)
    ensures k.CacheFile? ==> TaskRun(m, k) == Filled(TaskLess(m, k), k.b)
  {
  }

  /** A backup of a blob that the primary has succeeds. */
  lemma BackupTakes(m: Main, d: Desc, data: Bytes)
    requires Contents(m.stg, d.blobID) == Ok(data) && d.contentLength == |data| && d.blobID != ""
    requires m.bck.Some? ==> !Has(m.bck.value, d.blobID)
    ensures m.bck.Some? ==> InBackup(BackedUp(m, d, d.blobID), d, data)
    ensures BackedUp(m, d, d.blobID) == m.(bck := BackedUp(m, d, d.blobID).bck)
  {
  }

  lemma FillTakes(m: Main, d: Desc, data: Bytes)
    requires Contents(m.stg, d.blobID) == Ok(data) && d.blobID != ""
    ensures m.cch.Some? && !Cached(m, d.blobID) ==> InCache(TaskRun(m, CacheFile(d)), d, data)
  {
  }

  /** A blob whose binary the primary has lost comes back: asking whether it is
      there and reading it start a restore, and so does asking for its description
      when that is lost, too; when the restore runs the primary has the blob again
      with the bytes first stored. */
  lemma ReadHeals(m: Main, h: History, id: Id)
    requires MainOk(m, h) && m.bck.Some? && Has(m.bck.value, id) && !Cached(m, id) && id !in m.stg.bin
    ensures SimpleFile.Describe(m.bck.value, id).Ok? && id in h
    ensures var k := Restore(SimpleFile.Describe(m.bck.value, id).value);
            && Checked(m, id) == (Spawned(m, k), true)
            && Retrieved(m, id) == (Spawned(m, k), Ok(h[id]))
            && (Described(m, id) == if SimpleFile.Describe(m.stg, id).Err?
                                    then (Spawned(m, k), SimpleFile.Describe(m.bck.value, id))
                                    else (m, SimpleFile.Describe(m.stg, id)))
            && Has(TaskRun(Spawned(m, k), k).stg, id) && Contents(TaskRun(Spawned(m, k), k).stg, id) == Ok(h[id])
            && CacheById(id) in TaskRun(Spawned(m, k), k).tasks
  {
    DescribeOk(m.bck.value, id, m.tenant, h);
    RestoreHeals(m, h, id);
    hide MainOk, TaskRun;
  }

  lemma RestoreHeals(m: Main, h: History, id: Id)
    requires MainOk(m, h) && m.bck.Some? && Has(m.bck.value, id) && SimpleFile.Describe(m.bck.value, id).Ok?
    ensures id in h && Contents(m.bck.value, id) == Ok(h[id])
    ensures var k := Restore(SimpleFile.Describe(m.bck.value, id).value);
            && Has(TaskRun(Spawned(m, k), k).stg, id) && Contents(TaskRun(Spawned(m, k), k).stg, id) == Ok(h[id])
            && CacheById(id) in TaskRun(Spawned(m, k), k).tasks
  {
    DescribeOk(m.bck.value, id, m.tenant, h);
    var b := SimpleFile.Describe(m.bck.value, id).value;
    assert m.tasks + multiset{Restore(b)} - multiset{Restore(b)} == m.tasks;
    CopiedOk(m.bck.value, m.stg, b, m.tenant, h);
    hide FilesOk, TaskOk;
    StoreEffect(m.stg, b, Piped(m.bck.value, id), "");
  }
}
