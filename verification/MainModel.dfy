/** The storage of one tenant as a state: primary, backup, the cache it shares
    with all tenants, and the background tasks it has started. */
module MainModel {
  import opened Wrappers
  import opened Blobs
  import opened SimpleFile

  /** Blob id to description and contents. */
  type Cache = map<Id, (Desc, Bytes)>

  datatype Task =
    | Backup(b: Desc, id: Id)
    | CacheFile(b: Desc)
    | CacheById(id: Id)
    | Restore(b: Desc)
    | UpdateBackup(b: Desc)

  datatype Main = Main(tenant: Tenant, sync: bool, stg: Files, bck: Option<Files>, cch: Option<Cache>,
                       tasks: multiset<Task>)

  /** No step changes who the tenant is and which stores are configured. */
  predicate SameSetup(m: Main, r: Main) {
    r.tenant == m.tenant && r.sync == m.sync && r.bck.Some? == m.bck.Some? && r.cch.Some? == m.cch.Some?
  }

  predicate Cached(m: Main, id: Id) {
    m.cch.Some? && id in m.cch.value
  }

  /** A cache hit that the tenant may see. */
  predicate OwnHit(m: Main, id: Id) {
    Cached(m, id) && m.cch.value[id].0.tenantID == m.tenant
  }

  function Spawned(m: Main, t: Task): (r: Main)
    ensures SameSetup(m, r)
  {
    m.(tasks := m.tasks + multiset{t})
  }

  /** Copies a blob that the backup does not have. */
  function BackedUp(m: Main, b: Desc, id: Id): (r: Main)
    ensures SameSetup(m, r)
  {
    if m.bck.None? || Has(m.bck.value, b.blobID) then m
    else m.(bck := Some(Stored(m.bck.value, b, Piped(m.stg, id), "").0))
  }

  /** Puts what a read from the primary yields into the cache. */
  function Filled(m: Main, b: Desc): (r: Main)
    ensures SameSetup(m, r)
  {
    if m.cch.None? || b.blobID == "" || Cached(m, b.blobID) then m
    else m.(cch := Some(m.cch.value[b.blobID := (b, Piped(m.stg, b.blobID))]))
  }

  function FilledById(m: Main, id: Id): (r: Main)
    ensures SameSetup(m, r)
  {
    if m.cch.None? || id == "" || Cached(m, id) then m
    else
      var (m1, b) := Described(m, id);
      if b.Err? then m1 else Filled(m1, b.value)
  }

  function Restored(m: Main, b: Desc): (r: Main)
    ensures SameSetup(m, r)
  {
    if m.bck.None? || !Has(m.bck.value, b.blobID) then m
    else Spawned(m.(stg := Stored(m.stg, b, Piped(m.bck.value, b.blobID), "").0), CacheById(b.blobID))
  }

  function BackupUpdated(m: Main, b: Desc): (r: Main)
    ensures SameSetup(m, r)
  {
    if m.bck.None? then m else m.(bck := Some(Updated(m.bck.value, b)))
  }

  function Executed(m: Main, t: Task): (r: Main)
    ensures SameSetup(m, r)
  {
    match t
    case Backup(b, id) => BackedUp(m, b, id)
    case CacheFile(b) => Filled(m, b)
    case CacheById(id) => FilledById(m, id)
    case Restore(b) => Restored(m, b)
    case UpdateBackup(b) => BackupUpdated(m, b)
  }

  /** One pending task runs. */
  function TaskRun(m: Main, t: Task): (r: Main)
    ensures SameSetup(m, r)
  {
    Executed(m.(tasks := m.tasks - multiset{t}), t)
  }

  function StoredMain(m: Main, b: Desc, data: Bytes, newId: Id): (r: (Main, Result<Id, StoreError>))
    ensures SameSetup(m, r.0)
  {
    if Has(m.stg, b.blobID) then (m, Err(Exist))
    else
      var (s, e) := Stored(m.stg, b, data, newId);
      var m1 := m.(stg := s);
      if e.Err? then (m1, Err(e.error))
      else
        var d := e.value;
        var m2 := if m.bck.None? then m1 else if m.sync then BackedUp(m1, d, d.blobID) else Spawned(m1, Backup(d, d.blobID));
        (Spawned(m2, CacheFile(d)), Ok(d.blobID))
  }

  /** The backup is asked only when the primary does not have the blob. */
  function Checked(m: Main, id: Id): (r: (Main, bool))
    ensures SameSetup(m, r.0)
  {
    if id != "" && Cached(m, id) then (m, true)
    else if !Has(m.stg, id) && m.bck.Some? && Has(m.bck.value, id) then
      var bb := Describe(m.bck.value, id);
      (if bb.Ok? then Spawned(m, Restore(bb.value)) else m, true)
    else (m, Has(m.stg, id))
  }

  function Described(m: Main, id: Id): (r: (Main, Result<Desc, StoreError>))
    ensures SameSetup(m, r.0)
  {
    if id != "" && OwnHit(m, id) then (m, Ok(m.cch.value[id].0))
    else
      var b := Describe(m.stg, id);
      if b.Err? && m.bck.Some? && Describe(m.bck.value, id).Ok? then
        var bb := Describe(m.bck.value, id);
        (Spawned(m, Restore(bb.value)), bb)
      else (m, b)
  }

  /** What a caller's writer gets; without a backup a missing blob is no error
      and gives no bytes. */
  function Retrieved(m: Main, id: Id): (r: (Main, Result<Bytes, StoreError>))
    ensures SameSetup(m, r.0)
  {
    if id != "" && OwnHit(m, id) then (m, Ok(m.cch.value[id].1))
    else
      var pr := Contents(m.stg, id);
      if pr.Ok? then (Spawned(m, CacheById(id)), pr)
      else if m.bck.Some? then
        var br := Contents(m.bck.value, id);
        if br.Ok? then
          var bb := Describe(m.bck.value, id);
          (if bb.Ok? then Spawned(m, Restore(bb.value)) else m, br)
        else (m, pr)
      else (m, Ok(""))
  }

  /** `bckFails`: deleting the copy in the backup fails and changes nothing. */
  function DeletedMain(m: Main, id: Id, bckFails: bool): (r: (Main, Result<(), StoreError>))
    ensures SameSetup(m, r.0)
  {
    var bd := Describe(m.stg, id);
    if bd.Err? then (m, Err(bd.error))
    else
      var (s, e) := Deleted(m.stg, id);
      if e.Err? then (m.(stg := s), e)
      else
        var m1 := m.(stg := s, bck := if m.bck.None? || bckFails then m.bck else Some(Deleted(m.bck.value, id).0));
        (m1.(cch := if m.cch.None? then None else Some(m.cch.value - {id})), Ok(()))
  }

  /** The description `b` replaces that of the blob with the same id. */
  function UpdatedMain(m: Main, b: Desc): (r: Main)
    ensures SameSetup(m, r)
  {
    var m1 := m.(stg := Updated(m.stg, b));
    var m2 := if m.bck.None? then m1 else if m.sync then BackupUpdated(m1, b) else Spawned(m1, UpdateBackup(b));
    if b.blobID != "" && Cached(m, b.blobID) then m2.(cch := Some(m.cch.value[b.blobID := (b, m.cch.value[b.blobID].1)]))
    else m2
  }
}
