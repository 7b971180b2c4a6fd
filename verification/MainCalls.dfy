/** What each call of a tenant's storage answers, and what it leaves alone. */
module MainCalls {
  import opened Wrappers
  import opened Blobs
  import opened SimpleFile
  import opened MainModel

  /** Nothing about the ids other than `id` differs between two stores. */
  ghost predicate SameElse(s: Files, t: Files, id: Id) {
    forall x | x != id ::
      Has(t, x) == Has(s, x) && Contents(t, x) == Contents(s, x) && SimpleFile.Describe(t, x) == SimpleFile.Describe(s, x)
  }

  ghost predicate SameBackup(m: Main, r: Main, id: Id) {
    r.bck.Some? == m.bck.Some? && (m.bck.Some? ==> SameElse(m.bck.value, r.bck.value, id))
  }

  /** A store is refused as a duplicate exactly when the primary has the id, and
      then changes nothing at all. */
  lemma StoreExists(m: Main, b: Desc, data: Bytes, newId: Id)
    ensures StoredMain(m, b, data, newId).1 == Err(Exist) <==> Has(m.stg, b.blobID)
    ensures Has(m.stg, b.blobID) ==> StoredMain(m, b, data, newId).0 == m
  {
  }

  /** Otherwise it is refused exactly for a promised length that the contents do
      not have, and then only the id itself is touched, which stays absent. */
  lemma StoreRefused(m: Main, b: Desc, data: Bytes, newId: Id)
    requires !Has(m.stg, b.blobID) && (b.blobID != "" || newId != "")
    ensures var (r, a) := StoredMain(m, b, data, newId); var id := if b.blobID == "" then newId else b.blobID;
            && (a.Err? <==> b.contentLength > 0 && b.contentLength != |data|)
            && (a.Err? ==> a.error == WrongLength && r == m.(stg := r.stg) && !Has(r.stg, id) && id !in r.stg.bin)
            && SameElse(m.stg, r.stg, id)
  {
    hide Stored, SameElse, Has;
    StoredElse(m.stg, b, data, newId);
    StoredAt(m.stg, b, data, newId);
  }

  lemma StoredElse(s: Files, b: Desc, data: Bytes, newId: Id)
    ensures SameElse(s, Stored(s, b, data, newId).0, if b.blobID == "" then newId else b.blobID)
  {
  }

  lemma StoredAt(s: Files, b: Desc, data: Bytes, newId: Id)
    requires b.blobID != "" || newId != ""
    ensures var (t, r) := Stored(s, b, data, newId); var id := if b.blobID == "" then newId else b.blobID;
            && (r.Err? <==> b.contentLength > 0 && b.contentLength != |data|)
            && (r.Err? ==> r.error == WrongLength && !Has(t, id) && id !in t.bin)
  {
    StoreEffect(s, b, data, newId);
    hide Stored;
  }

  /** And else it is taken: the primary has exactly these bytes under the
      description with the id and the length filled in. */
  lemma StoreTaken(m: Main, b: Desc, data: Bytes, newId: Id)
    requires !Has(m.stg, b.blobID) && (b.blobID != "" || newId != "") && (b.contentLength > 0 ==> b.contentLength == |data|)
    ensures var (r, a) := StoredMain(m, b, data, newId); var id := if b.blobID == "" then newId else b.blobID;
            && a == Ok(id) && Has(r.stg, id) && Contents(r.stg, id) == Ok(data)
            && SimpleFile.Describe(r.stg, id) == Ok(b.(blobID := id, contentLength := |data|))
            && r.cch == m.cch && SameBackup(m, r, id)
  {
    StoreEffect(m.stg, b, data, newId);
    var d := Named(b, data, newId);
    var m1 := m.(stg := Stored(m.stg, b, data, newId).0);
    BackedUpElse(m1, d, d.blobID);
    hide Stored, BackedUp, SameElse;
  }

  lemma BackedUpElse(m: Main, b: Desc, id: Id)
    ensures BackedUp(m, b, id).cch == m.cch && BackedUp(m, b, id).stg == m.stg
    ensures b.blobID != "" ==> SameBackup(m, BackedUp(m, b, id), b.blobID)
    ensures SameBackup(m, m, b.blobID)
  {
    if m.bck.Some? && b.blobID != "" { StoreEffect(m.bck.value, b, Piped(m.stg, id), ""); }
    hide Stored;
  }

  /** After an update everybody is told the new description: by the tenant's own
      cache hit or else by the primary, and by the backup at once or when its
      task runs. No bytes and no other descriptions change. */
  lemma UpdateShows(m: Main, b: Desc)
    ensures var r := UpdatedMain(m, b);
            && Described(r, b.blobID).1 == Ok(b) && SimpleFile.Describe(r.stg, b.blobID) == Ok(b)
            && r.stg.bin == m.stg.bin && SameElse(m.stg, r.stg, b.blobID)
            && (r.cch.Some? ==> r.cch.value.Keys == m.cch.value.Keys
                                && forall x | x in r.cch.value :: r.cch.value[x].1 == m.cch.value[x].1
                                                                  && (x != b.blobID ==> r.cch.value[x] == m.cch.value[x]))
  {
    UpdateEffect(m.stg, b);
    hide Updated, Has;
  }

  lemma UpdateReaches(m: Main, b: Desc)
    requires m.bck.Some?
    ensures var r := UpdatedMain(m, b); var r1 := if m.sync then r else TaskRun(r, UpdateBackup(b));
            && (m.sync || UpdateBackup(b) in r.tasks)
            && SimpleFile.Describe(r1.bck.value, b.blobID) == Ok(b) && r1.bck.value.bin == m.bck.value.bin
            && SameElse(m.bck.value, r1.bck.value, b.blobID)
  {
    UpdateEffect(m.bck.value, b);
    UpdatedBackup(m, b);
    hide Updated, Has, UpdatedMain, TaskRun, Describe, Contents;
  }

  lemma UpdatedBackup(m: Main, b: Desc)
    requires m.bck.Some?
    ensures var r := UpdatedMain(m, b);
            if m.sync then r.bck == Some(Updated(m.bck.value, b))
            else UpdateBackup(b) in r.tasks && TaskRun(r, UpdateBackup(b)).bck == Some(Updated(m.bck.value, b))
  {
    hide Updated;
  }

  /** A blob is reported exactly when cache, primary or backup has it; what only
      the backup has is restored. */
  lemma CheckExact(m: Main, id: Id)
    ensures Checked(m, id).1 <==> (id != "" && Cached(m, id)) || Has(m.stg, id) || (m.bck.Some? && Has(m.bck.value, id))
    ensures (id != "" && Cached(m, id)) || Has(m.stg, id) ==> Checked(m, id).0 == m
    ensures !Checked(m, "").1
  {
  }

  /** The primary's description comes before the backup's, and there is an error
      exactly when neither has one and the tenant has no hit of its own. */
  lemma DescribeExact(m: Main, id: Id)
    requires id == "" || !OwnHit(m, id)
    ensures SimpleFile.Describe(m.stg, id).Ok? ==> Described(m, id) == (m, SimpleFile.Describe(m.stg, id))
    ensures Described(m, id).1.Err? <==>
              SimpleFile.Describe(m.stg, id).Err? && (m.bck.Some? ==> SimpleFile.Describe(m.bck.value, id).Err?)
  {
  }

  /** The empty id is never looked up in the cache. */
  lemma EmptyId(m: Main)
    ensures Retrieved(m, "").1 == Retrieved(m.(cch := None), "").1 && Described(m, "").1 == Described(m.(cch := None), "").1
  {
  }

  /** A delete succeeds exactly when the primary has both files of the blob, or
      would describe it and has them; then primary and cache have nothing of it,
      the backup has no bytes of it unless deleting the copy failed, and all
      other ids are as before. */
  lemma DeleteExact(m: Main, id: Id, bckFails: bool)
    ensures var (r, a) := DeletedMain(m, id, bckFails);
            && (a.Ok? <==> id in m.stg.bin && id in m.stg.desc)
            && SameElse(m.stg, r.stg, id) && SameBackup(m, r, id) && r.tasks == m.tasks
            && (a.Err? ==> r == m.(stg := r.stg)) && (SimpleFile.Describe(m.stg, id).Err? ==> r == m)
            && (a.Ok? ==> && !Has(r.stg, id) && Contents(r.stg, id).Err? && SimpleFile.Describe(r.stg, id).Err?
                          && (m.cch.Some? ==> r.cch.value == m.cch.value - {id})
                          && (m.bck.Some? && !bckFails ==> Contents(r.bck.value, id).Err?))
  {
    DeleteEffect(m.stg, id);
    DeleteAnswers(m.stg, id);
    if m.bck.Some? { DeleteEffect(m.bck.value, id); }
    hide Deleted, Has;
  }

  lemma DeleteAnswers(s: Files, id: Id)
    ensures Deleted(s, id).1.Err? ==> id !in s.bin || id !in s.desc
    ensures id in s.bin && id in s.desc ==> SimpleFile.Describe(s, id).Ok?
    ensures Deleted(s, id).1.Ok? ==> !Has(Deleted(s, id).0, id) && Contents(Deleted(s, id).0, id).Err?
    ensures Contents(Deleted(s, id).0, id).Err?
  {
  }

  /** Reading a blob from the primary puts it into the cache, as soon as the task
      that the read starts has run. */
  lemma ReadCaches(m: Main, id: Id)
    requires m.cch.Some? && id != "" && !Cached(m, id) && id in m.stg.bin && SimpleFile.Describe(m.stg, id).Ok?
    requires SimpleFile.Describe(m.stg, id).value.blobID == id
    ensures var r := Retrieved(m, id).0;
            && r == m.(tasks := m.tasks + multiset{CacheById(id)})
            && TaskRun(r, CacheById(id)) == m.(cch := Some(m.cch.value[id := (SimpleFile.Describe(m.stg, id).value, m.stg.bin[id])]))
  {
    assert m.tasks + multiset{CacheById(id)} - multiset{CacheById(id)} == m.tasks;
  }

  /** No task takes or changes what the backup already has, but for the
      description that an update task is to write. */
  lemma TasksKeep(m: Main, k: Task, x: Id)
    requires (k.Backup? ==> k.b.blobID == k.id) && m.bck.Some? && Has(m.bck.value, x)
    ensures TaskRun(m, k).bck.Some?
    ensures var t := TaskRun(m, k).bck.value;
            && Has(t, x) && Contents(t, x) == Contents(m.bck.value, x)
            && (!(k.UpdateBackup? && k.b.blobID == x) ==> SimpleFile.Describe(t, x) == SimpleFile.Describe(m.bck.value, x))
  {
    hide Has, Contents, SimpleFile.Describe, BackedUp, Filled, FilledById, Restored, Updated;
    var m1 := m.(tasks := m.tasks - multiset{k});
    match k
    case Backup(b, id) => BackupKeeps(m1, b, x);
    case CacheFile(b) => FilledElse(m1, b);
    case CacheById(id) => FilledIdElse(m1, id);
    case Restore(b) => RestoredElse(m1, b);
    case UpdateBackup(b) => UpdateEffect(m.bck.value, b); UpdateHas(m.bck.value, b, x);
  }

  lemma FilledElse(m: Main, b: Desc)
    ensures Filled(m, b).bck == m.bck
  {
  }

  lemma FilledIdElse(m: Main, id: Id)
    ensures FilledById(m, id).bck == m.bck
  {
  }

  lemma RestoredElse(m: Main, b: Desc)
    ensures Restored(m, b).cch == m.cch && Restored(m, b).bck == m.bck
  {
  }

  lemma UpdateHas(s: Files, b: Desc, x: Id)
    ensures Has(s, x) ==> Has(Updated(s, b), x)
    ensures Contents(Updated(s, b), x) == Contents(s, x)
  {
  }

  lemma BackupKeeps(m: Main, b: Desc, x: Id)
    ensures m.bck.Some? && Has(m.bck.value, x) ==>
              var t := BackedUp(m, b, b.blobID).bck.value;
              && Has(t, x) && Contents(t, x) == Contents(m.bck.value, x)
              && SimpleFile.Describe(t, x) == SimpleFile.Describe(m.bck.value, x)
  {
    if m.bck.Some? && b.blobID != "" { StoreEffect(m.bck.value, b, Piped(m.stg, b.blobID), ""); }
    hide Stored;
  }

  /** No task changes what is cached. */
  lemma CacheKeeps(m: Main, k: Task, x: Id)
    requires Cached(m, x)
    ensures Cached(TaskRun(m, k), x) && TaskRun(m, k).cch.value[x] == m.cch.value[x]
  {
    hide Described, Piped, BackedUp, Restored;
    var m1 := m.(tasks := m.tasks - multiset{k});
    match k
    case Backup(b, id) => BackedUpElse(m1, b, id);
    case CacheFile(b) =>
    case CacheById(id) => DescribedElse(m1, id);
    case Restore(b) => RestoredElse(m1, b);
    case UpdateBackup(b) =>
  }

  lemma DescribedElse(m: Main, id: Id)
    ensures Described(m, id).0.cch == m.cch
  {
  }
}
