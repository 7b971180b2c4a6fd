/** The storage object of one tenant: its methods and background tasks do to
    the stores what the state model says. */
module MainStorages {
  import opened Wrappers
  import opened Blobs
  import opened SimpleFile
  import opened MainModel

  /** The cache as its callers see it: a map that may forget entries. */
  class SharedCache {
    var held: Cache

    constructor ()
      ensures held == map[]
    {
      held := map[];
    }

    method HasBlob(id: Id) returns (r: Result<bool, StoreError>)
      ensures r == if id == "" then Err(EmptyId) else Ok(id in held)
    {
      if id == "" { return Err(EmptyId); }
      return Ok(id in held);
    }

    method StoreBlob(b: Desc, data: Bytes) returns (r: Result<Id, StoreError>)
      modifies this
      ensures b.blobID == "" ==> r == Err(EmptyId)
      ensures b.blobID != "" && b.blobID in old(held) ==> r == Err(Exist)
      ensures r.Ok? <==> b.blobID != "" && b.blobID !in old(held)
      ensures held == if r.Ok? then old(held)[b.blobID := (b, data)] else old(held)
    {
      if b.blobID == "" { return Err(EmptyId); }
      if b.blobID in held { return Err(Exist); }
      held := held[b.blobID := (b, data)];
      return Ok(b.blobID);
    }

    method UpdateBlobDescription(b: Desc)
      modifies this
      ensures held == if b.blobID != "" && b.blobID in old(held) then old(held)[b.blobID := (b, old(held)[b.blobID].1)]
                      else old(held)
    {
      if b.blobID != "" && b.blobID in held { held := held[b.blobID := (b, held[b.blobID].1)]; }
    }

    method GetBlobDescription(id: Id) returns (r: Result<Desc, StoreError>)
      ensures r == if id == "" then Err(EmptyId) else if id in held then Ok(held[id].0) else Err(NotExist)
    {
      if id == "" { return Err(EmptyId); }
      if id in held { return Ok(held[id].0); }
      return Err(NotExist);
    }

    method RetrieveBlob(id: Id) returns (r: Result<Bytes, StoreError>)
      ensures r == if id == "" then Err(EmptyId) else if id in held then Ok(held[id].1) else Err(NotExist)
    {
      if id == "" { return Err(EmptyId); }
      if id in held { return Ok(held[id].1); }
      return Err(NotExist);
    }

    method DeleteBlob(id: Id)
      modifies this
      ensures held == old(held) - {id}
    {
      held := held - {id};
    }
  }

  class MainStorage {
    const StgSrv: BlobStorage
    const BckSrv: BlobStorage?
    const CchSrv: SharedCache?
    const Bcksyncmode: bool
    const Tenant: Tenant
    var tasks: multiset<Task>

    constructor (tenant: Tenant, stg: BlobStorage, bck: BlobStorage?, cch: SharedCache?, sync: bool)
      requires stg != bck
      ensures Valid() && tasks == multiset{}
      ensures Tenant == tenant && StgSrv == stg && BckSrv == bck && CchSrv == cch && Bcksyncmode == sync
    {
      Tenant, StgSrv, BckSrv, CchSrv, Bcksyncmode, tasks := tenant, stg, bck, cch, sync, multiset{};
    }

    ghost predicate Valid() {
      StgSrv != BckSrv
    }

    ghost function Stores(): set<object> {
      {this, StgSrv} + (if BckSrv == null then {} else {BckSrv}) + (if CchSrv == null then {} else {CchSrv})
    }

    ghost function State(): Main
      reads Stores()
    {
      Main(Tenant, Bcksyncmode, StgSrv.State(), if BckSrv == null then None else Some(BckSrv.State()),
           if CchSrv == null then None else Some(CchSrv.held), tasks)
    }

    /** `newId` is the id generated for a blob that has none. */
    method StoreBlob(b: Desc, data: Bytes, newId: Id) returns (r: Result<Id, StoreError>)
      requires Valid()
      modifies Stores()
      ensures (State(), r) == StoredMain(old(State()), b, data, newId)
    {
      hide SameSetup, BackedUp, Stored, Has;
      var hasBlob := StgSrv.HasBlob(b.blobID);
      if hasBlob { return Err(Exist); }
      var stored := StgSrv.StoreBlob(b, data, newId);
      if stored.Err? { return Err(stored.error); }
      var d := stored.value;
      if BckSrv != null {
        if Bcksyncmode {
          BackupFile(d, d.blobID);
        } else {
          tasks := tasks + multiset{Task.Backup(d, d.blobID)};
        }
      }
      tasks := tasks + multiset{Task.CacheFile(d)};
      return Ok(d.blobID);
    }

    method BackupFile(b: Desc, id: Id)
      requires Valid()
      modifies if BckSrv == null then {} else {BckSrv}
      ensures State() == BackedUp(old(State()), b, id)
    {
      if BckSrv != null {
        var ok := BckSrv.HasBlob(b.blobID);
        if !ok {
          var data := Pipe(StgSrv, id);
          var stored := BckSrv.StoreBlob(b, data, "");
        }
      }
    }

    /** The bytes that reach the reading end of a pipe. */
    method Pipe(from: BlobStorage, id: Id) returns (data: Bytes)
      ensures data == Piped(from.State(), id)
    {
      var r := from.RetrieveBlob(id);
      return if r.Ok? then r.value else "";
    }

    method CacheFile(b: Desc)
      requires Valid()
      modifies if CchSrv == null then {} else {CchSrv}
      ensures State() == Filled(old(State()), b)
    {
      if CchSrv != null {
        var ok := CchSrv.HasBlob(b.blobID);
        if ok.Err? { return; }
        if !ok.value {
          var data := Pipe(StgSrv, b.blobID);
          var stored := CchSrv.StoreBlob(b, data);
        }
      }
    }

    method CacheFileByID(id: Id)
      requires Valid()
      modifies `tasks, if CchSrv == null then {} else {CchSrv}
      ensures State() == FilledById(old(State()), id)
    {
      if CchSrv != null {
        var ok := CchSrv.HasBlob(id);
        if ok.Err? { return; }
        if !ok.value {
          var b := GetBlobDescription(id);
          if b.Err? { return; }
          CacheFile(b.value);
        }
      }
    }

    method RestoreFile(b: Desc)
      requires Valid()
      modifies `tasks, StgSrv
      ensures State() == Restored(old(State()), b)
    {
      if BckSrv != null {
        var id := b.blobID;
        var ok := BckSrv.HasBlob(id);
        if ok {
          var data := Pipe(BckSrv, id);
          var stored := StgSrv.StoreBlob(b, data, "");
          tasks := tasks + multiset{Task.CacheById(id)};
        }
      }
    }

    /** A background task that was started earlier runs. */
    method RunTask(t: Task)
      requires Valid() && t in tasks
      modifies Stores()
      ensures State() == TaskRun(old(State()), t)
    {
      hide Described, BackedUp, Filled, FilledById, Restored, Updated;
      tasks := tasks - multiset{t};
      match t
      case Backup(b, id) => BackupFile(b, id);
      case CacheFile(b) => CacheFile(b);
      case CacheById(id) => CacheFileByID(id);
      case Restore(b) => RestoreFile(b);
      case UpdateBackup(b) =>
        if BckSrv != null { BckSrv.UpdateBlobDescription(b); }
    }

    method HasBlob(id: Id) returns (r: bool)
      requires Valid()
      modifies `tasks
      ensures (State(), r) == Checked(old(State()), id)
    {
      if CchSrv != null {
        var hit := CchSrv.HasBlob(id);
        if hit.Ok? && hit.value { return true; }
      }
      var ok := StgSrv.HasBlob(id);
      if !ok && BckSrv != null {
        var bok := BckSrv.HasBlob(id);
        if bok {
          var bb := BckSrv.GetBlobDescription(id);
          if bb.Ok? { tasks := tasks + multiset{Task.Restore(bb.value)}; }
          return true;
        }
      }
      return ok;
    }

    method GetBlobDescription(id: Id) returns (r: Result<Desc, StoreError>)
      requires Valid()
      modifies `tasks
      ensures (State(), r) == Described(old(State()), id)
    {
      if CchSrv != null {
        var b := CchSrv.GetBlobDescription(id);
        if b.Ok? && b.value.tenantID == Tenant { return b; }
      }
      r := StgSrv.GetBlobDescription(id);
      if r.Err? && BckSrv != null {
        var bb := BckSrv.GetBlobDescription(id);
        if bb.Ok? {
          tasks := tasks + multiset{Task.Restore(bb.value)};
          return bb;
        }
      }
    }

    method RetrieveBlob(id: Id) returns (r: Result<Bytes, StoreError>)
      requires Valid()
      modifies `tasks
      ensures (State(), r) == Retrieved(old(State()), id)
    {
      var hit := RetrieveFromCache(id);
      if hit.Some? { return Ok(hit.value); }
      r := StgSrv.RetrieveBlob(id);
      if r.Ok? {
        tasks := tasks + multiset{Task.CacheById(id)};
        return;
      }
      if BckSrv != null {
        var br := BckSrv.RetrieveBlob(id);
        if br.Ok? {
          var bb := BckSrv.GetBlobDescription(id);
          if bb.Ok? { tasks := tasks + multiset{Task.Restore(bb.value)}; }
          return br;
        }
        return r;
      }
      return Ok("");
    }

    method RetrieveFromCache(id: Id) returns (r: Option<Bytes>)
      ensures r == if id != "" && OwnHit(State(), id) then Some(CchSrv.held[id].1) else None
    {
      if CchSrv != null {
        var ok := CchSrv.HasBlob(id);
        if ok.Ok? && ok.value {
          var b := CchSrv.GetBlobDescription(id);
          if b.Ok? && b.value.tenantID == Tenant {
            var data := CchSrv.RetrieveBlob(id);
            if data.Ok? { return Some(data.value); }
          }
        }
      }
      return None;
    }

    method DeleteBlob(id: Id, bckFails: bool) returns (r: Result<(), StoreError>)
      requires Valid()
      modifies Stores()
      ensures (State(), r) == DeletedMain(old(State()), id, bckFails)
    {
      var bd := StgSrv.GetBlobDescription(id);
      if bd.Err? { return Err(bd.error); }
      r := StgSrv.DeleteBlob(id);
      if r.Err? { return; }
      if BckSrv != null && !bckFails {
        var deleted := BckSrv.DeleteBlob(id);
      }
      if CchSrv != null { CchSrv.DeleteBlob(id); }
    }

    method UpdateBlobDescription(b: Desc)
      requires Valid()
      modifies Stores()
      ensures State() == UpdatedMain(old(State()), b)
    {
      StgSrv.UpdateBlobDescription(b);
      if BckSrv != null {
        if Bcksyncmode {
          BckSrv.UpdateBlobDescription(b);
        } else {
          tasks := tasks + multiset{Task.UpdateBackup(b)};
        }
      }
      if CchSrv != null { CchSrv.UpdateBlobDescription(b); }
    }
  }
}
