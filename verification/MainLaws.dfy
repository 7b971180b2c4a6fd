/** What the storages promise over whole runs: all copies agree, reads give
    what was stored, and tenants do not see each other's blobs. */
module MainLaws {
  import opened Wrappers
  import opened Blobs
  import opened SimpleFile
  import opened MainModel
  import opened MainInv
  import opened MainRuns

  type Step = (Tenant, Action)

  predicate LegalStep(s: System, t: Tenant, a: Action) {
    t in s.mains && t in s.hist && Legal(View(s, t), s.hist[t], a)
  }

  predicate LegalRun(s: System, steps: seq<Step>)
    decreases |steps|
  {
    steps == [] || (LegalStep(s, steps[0].0, steps[0].1) && LegalRun(Stepped(s, steps[0].0, steps[0].1), steps[1..]))
  }

  function End(s: System, steps: seq<Step>): System
    requires LegalRun(s, steps)
    decreases |steps|
  {
    if steps == [] then s else End(Stepped(s, steps[0].0, steps[0].1), steps[1..])
  }

  predicate CachesBlob(k: Task, id: Id) {
    (k.CacheFile? && k.b.blobID == id) || (k.CacheById? && k.id == id)
  }

  /** While a cache task for a blob is pending, the blob is neither deleted nor
      lost by the primary. */
  ghost predicate Calm(m: Main, a: Action) {
    a.Delete? || (a.Lose? && a.bin) ==> forall k | k in m.tasks :: !CachesBlob(k, a.id)
  }

  /** No description is written over the cached one of another tenant. */
  predicate OwnUpdate(m: Main, a: Action) {
    a.Update? && Cached(m, a.b.blobID) ==> m.cch.value[a.b.blobID].0.tenantID == m.tenant
  }

  ghost predicate CalmRun(s: System, steps: seq<Step>)
    requires LegalRun(s, steps)
    decreases |steps|
  {
    steps == []
    || (Calm(View(s, steps[0].0), steps[0].1) && OwnUpdate(View(s, steps[0].0), steps[0].1)
        && CalmRun(Stepped(s, steps[0].0, steps[0].1), steps[1..]))
  }

  /** What a pending cache task is to read is still there. */
  ghost predicate Backed(m: Main, h: History) {
    forall k, id | k in m.tasks && CachesBlob(k, id) :: id in m.stg.bin || (id in h && h[id] == "")
  }

  ghost predicate AllBacked(s: System) {
    forall t | t in s.mains && t in s.hist :: Backed(s.mains[t], s.hist[t])
  }

  lemma BackedFills(m: Main, h: History, a: Action)
    requires MainOk(m, h) && Backed(m, h) && Legal(m, h, a)
    ensures !BadFill(m, a)
  {
    if a.Run? && Fills(m, a.task).Some? {
      if a.task.CacheById? { DescribedOk(m, a.task.id, h); }
      assert CachesBlob(a.task, Fills(m, a.task).value.blobID);
    }
  }

  /** Only a delete and a loss take bytes from the primary. */
  lemma PrimaryEffect(m: Main, h: History, a: Action, id: Id)
    requires MainOk(m, h) && Legal(m, h, a) && id in h && id in m.stg.bin
    requires !(a.Delete? && a.id == id) && !(a.Lose? && a.bin && a.id == id)
    ensures id in Acted(m, a).stg.bin
  {
    hide MainOk, StoredMain, Described, Executed, DeletedMain, UpdatedMain, Checked, Retrieved;
    match a
    case Store(b, data, newId) => PrimaryStore(m, h, a, id);
    case Check(x) => ReadSteps(m, x);
    case Describe(x) => DescribedCache(m, x);
    case Retrieve(x) => ReadSteps(m, x);
    case Delete(x, bckFails) => PrimaryDelete(m, x, bckFails);
    case Update(b) => PrimaryUpdate(m, b);
    case Run(k) =>
      Taken(m, k, h);
      RunPrimary(m.(tasks := m.tasks - multiset{k}), h, k, id);
    case Lose(_, _, _, _) =>
    case Evict(x) =>
  }

  lemma PrimaryStore(m: Main, h: History, a: Action, id: Id)
    requires a.Store? && Legal(m, h, a) && id in h
    ensures id in m.stg.bin ==> id in Acted(m, a).stg.bin
  {
  }

  lemma PrimaryDelete(m: Main, x: Id, bckFails: bool)
    ensures forall id | id in m.stg.bin && id != x :: id in DeletedMain(m, x, bckFails).0.stg.bin
    ensures forall id | Gone(m, id) :: Gone(DeletedMain(m, x, bckFails).0, id)
  {
  }

  lemma PrimaryUpdate(m: Main, b: Desc)
    ensures UpdatedMain(m, b).stg.bin == m.stg.bin
    ensures forall id | Gone(m, id) :: Gone(UpdatedMain(m, b), id)
  {
  }

  lemma RunPrimary(m: Main, h: History, k: Task, id: Id)
    requires MainOk(m, h) && TaskOk(k, m.tenant, h)
    ensures id in m.stg.bin ==> id in Executed(m, k).stg.bin
    ensures forall j, x | j in Executed(m, k).tasks && CachesBlob(j, x) :: j in m.tasks || x in Executed(m, k).stg.bin
  {
    hide MainOk, Described, Restored;
    match k
    case Backup(b, x) =>
    case CacheFile(b) =>
    case CacheById(x) => DescribedCache(m, x); DescribedTasks(m, x);
    case Restore(b) => RestoredPrimary(m, h, b, id);
    case UpdateBackup(b) =>
  }

  lemma RestoredPrimary(m: Main, h: History, b: Desc, id: Id)
    requires MainOk(m, h) && DescOk(b, b.blobID, m.tenant, h)
    ensures id in m.stg.bin ==> id in Restored(m, b).stg.bin
    ensures forall j, x | j in Restored(m, b).tasks && CachesBlob(j, x) :: j in m.tasks || x in Restored(m, b).stg.bin
  {
    if m.bck.Some? && Has(m.bck.value, b.blobID) { CopiedOk(m.bck.value, m.stg, b, m.tenant, h); }
    hide MainOk, FilesOk;
  }

  lemma NewTasks(m: Main, h: History, a: Action)
    requires MainOk(m, h) && Legal(m, h, a)
    ensures forall k, id | k in Acted(m, a).tasks && CachesBlob(k, id) :: k in m.tasks || id in Acted(m, a).stg.bin
  {
    hide Legal, MainOk, Described, Checked, Retrieved, TaskRun, StoredMain;
    match a
    case Store(_, _, _) => StoreTasks(m, a);
    case Check(x) => ReadSteps(m, x);
    case Describe(x) => DescribedTasks(m, x);
    case Retrieve(x) => ReadSteps(m, x);
    case Delete(x, bckFails) =>
    case Update(b) =>
    case Run(k) => RunTasks(m, h, k);
    case Lose(_, _, _, _) =>
    case Evict(x) =>
  }

  lemma StoreTasks(m: Main, a: Action)
    requires a.Store?
    ensures forall k, id | k in Acted(m, a).tasks && CachesBlob(k, id) :: k in m.tasks || id in Acted(m, a).stg.bin
  {
    if !Has(m.stg, a.b.blobID) && !WrongSize(a.b, a.data) {
      StoreSteps(m, a);
      hide StoredMain, Has;
    }
  }

  lemma DescribedTasks(m: Main, id: Id)
    ensures forall k, x | k in Described(m, id).0.tasks && CachesBlob(k, x) :: k in m.tasks
  {
  }

  lemma RunTasks(m: Main, h: History, k: Task)
    requires MainOk(m, h) && Legal(m, h, Run(k))
    ensures forall j, x | j in TaskRun(m, k).tasks && CachesBlob(j, x) :: j in m.tasks || x in TaskRun(m, k).stg.bin
  {
    RunPrimary(m.(tasks := m.tasks - multiset{k}), h, k, "");
  }

  lemma ActedBacked(m: Main, h: History, a: Action)
    requires MainOk(m, h) && Backed(m, h) && Legal(m, h, a) && Calm(m, a)
    ensures Backed(Acted(m, a), Recorded(m, h, a))
  {
    NewTasks(m, h, a);
    RecordedKeeps(m, h, a);
    forall k, id | k in Acted(m, a).tasks && CachesBlob(k, id)
      ensures id in Acted(m, a).stg.bin || (id in Recorded(m, h, a) && Recorded(m, h, a)[id] == "")
    {
      if k in m.tasks {
        TaskId(m, h, k, id);
        if id in m.stg.bin { PrimaryEffect(m, h, a, id); }
      }
    }
  }

  lemma TaskId(m: Main, h: History, k: Task, id: Id)
    requires MainOk(m, h) && k in m.tasks && CachesBlob(k, id)
    ensures id in h
  {
    assert TaskOk(k, m.tenant, h);
  }

  lemma OwnUpdateGood(s: System, t: Tenant, a: Action)
    requires Inv(s) && LegalStep(s, t, a) && OwnUpdate(View(s, t), a)
    ensures !BadUpdate(View(s, t), s.hist[t], a)
  {
    if a.Update? && Cached(View(s, t), a.b.blobID) { assert EntryOk(a.b.blobID, s.cache[a.b.blobID], s.hist); }
  }

  lemma StepCalm(s: System, t: Tenant, a: Action)
    requires Inv(s) && AllBacked(s) && LegalStep(s, t, a) && Calm(View(s, t), a) && OwnUpdate(View(s, t), a)
    ensures Inv(Stepped(s, t, a)) && AllBacked(Stepped(s, t, a))
  {
    hide Acted, Recorded, BadFill, BadUpdate, Calm, MainOk;
    var m, h := View(s, t), s.hist[t];
    LegalView(s, t);
    assert Backed(m, h) by { assert Backed(s.mains[t], h); }
    BackedFills(m, h, a);
    OwnUpdateGood(s, t, a);
    StepExact(s, t, a);
    ActedBacked(m, h, a);
    hide Backed, Inv, MainOk, Acted, Recorded, BadFill, BadUpdate, Legal, Calm;
  }

  /** All tenants, all interleavings of calls, background tasks, evictions and
      losses: in the end every copy in every primary, backup and in the cache
      holds the bytes first stored. */
  lemma {:induction false} RunKeepsCopies(s: System, steps: seq<Step>)
    requires Inv(s) && AllBacked(s) && LegalRun(s, steps) && CalmRun(s, steps)
    ensures Inv(End(s, steps)) && AllBacked(End(s, steps))
    decreases |steps|
  {
    if steps != [] {
      StepCalm(s, steps[0].0, steps[0].1);
      RunKeepsCopies(Stepped(s, steps[0].0, steps[0].1), steps[1..]);
    }
  }

  /** Nothing stored yet. */
  lemma StartOk(setups: map<Tenant, Main>)
    requires forall t | t in setups :: setups[t].tenant == t && setups[t].stg == EMPTY && setups[t].tasks == multiset{}
                                       && (setups[t].bck.Some? ==> setups[t].bck.value == EMPTY)
    ensures var s := System(setups, map[], map t | t in setups :: map[]); Inv(s) && AllBacked(s)
  {
  }

  /** A read gives the bytes first stored whenever some tier holds the blob. A
      blob in no tier is an error with a backup, but none without. */
  lemma RetrieveExact(s: System, t: Tenant, id: Id)
    requires Inv(s) && t in s.mains && id != ""
    ensures var m, h, r := View(s, t), s.hist[t], Retrieved(View(s, t), id).1;
            if OwnHit(m, id) || id in m.stg.bin || (m.bck.Some? && id in m.bck.value.bin) then id in h && r == Ok(h[id])
            else r == if m.bck.Some? then Err(NotExist) else Ok("")
  {
    LegalView(s, t);
    if OwnHit(View(s, t), id) { assert EntryOk(id, s.cache[id], s.hist); }
  }

  /** No tenant is shown the description of another's blob. */
  lemma DescribeOwn(s: System, t: Tenant, id: Id)
    requires Inv(s) && t in s.mains && id != ""
    ensures var r := Described(View(s, t), id).1; r.Ok? ==> DescOk(r.value, id, t, s.hist[t])
  {
    LegalView(s, t);
    DescribedOk(View(s, t), id, s.hist[t]);
    if OwnHit(View(s, t), id) { assert EntryOk(id, s.cache[id], s.hist); }
  }

  /** HasBlob does tell a tenant about ids it has never stored: exactly those
      that the cache holds for another tenant. */
  lemma CheckForeign(s: System, t: Tenant, id: Id)
    requires Inv(s) && t in s.mains && id !in s.hist[t] && id != ""
    ensures Checked(View(s, t), id).1 <==>
            Cached(View(s, t), id) && s.cache[id].0.tenantID != t
  {
    LegalView(s, t);
    if Cached(View(s, t), id) { assert EntryOk(id, s.cache[id], s.hist); }
  }
}
