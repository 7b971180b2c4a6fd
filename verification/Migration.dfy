/** Copying all blobs of a tenant to its backup, and back. */
module Migration {
  import opened Wrappers
  import opened Blobs
  import opened Retentions
  import opened SimpleFile

  /** The blob a store has under an id. */
  function BlobOf(s: Files, id: Id): Option<(Desc, Bytes)> {
    if Has(s, id) && Describe(s, id).Ok? then Some((Describe(s, id).value, s.bin[id])) else None
  }

  function RetOf(s: Files, id: Id): Option<RetentionEntry> {
    if id in s.ret then Some(s.ret[id]) else None
  }

  /** Backup and restore of one blob are the same copy, source and target
      swapped: contents, description and, if it has one, retention entry. */
  function Copied(src: Files, dst: Files, id: Id): Files {
    if !Has(src, id) || Describe(src, id).Err? then dst
    else
      var b := Describe(src, id).value;
      var dst1 := Stored(dst, b, Piped(src, id), "").0;
      if b.retention > 0 && id in src.ret then RetentionAdded(dst1, src.ret[id]) else dst1
  }

  /** The per-blob tasks in the order in which they run. */
  function CopiedAll(src: Files, dst: Files, ids: seq<Id>): Files
    decreases |ids|
  {
    if ids == [] then dst else CopiedAll(src, Copied(src, dst, ids[0]), ids[1..])
  }

  /** The ids a walk over the source finds missing in the target. */
  function Missing(src: Files, dst: Files): set<Id> {
    set id | id in src.desc && !Has(dst, id)
  }

  /** Descriptions and retention files are filed under their id. */
  ghost predicate Filed(s: Files) {
    && (forall id | id in s.desc :: s.desc[id].blobID == id != "")
    && (forall id | id in s.known :: s.known[id].blobID == id != "")
    && (forall id | id in s.ret :: s.ret[id].blobID == id)
  }

  /** And descriptions tell the right length. */
  ghost predicate Fit(s: Files) {
    Filed(s) && forall id | Has(s, id) && Describe(s, id).Ok? :: Describe(s, id).value.contentLength == |s.bin[id]|
  }

  /** What a copy of `id` leaves as the target's retention entry. */
  function RetCopied(src: Files, dst: Files, id: Id): Option<RetentionEntry> {
    var b := BlobOf(src, id);
    if b.Some? && b.value.0.retention > 0 && id in src.ret then
      Some(FromDesc(b.value.0).(retention := src.ret[id].retention, retentionBase := src.ret[id].retentionBase))
    else RetOf(dst, id)
  }

  /** A store of a description that tells the right length. */
  function Put(dst: Files, b: Desc, data: Bytes): Files {
    dst.(bin := dst.bin[b.blobID := data], desc := dst.desc[b.blobID := b], known := dst.known[b.blobID := b])
  }

  lemma PutOk(dst: Files, b: Desc, data: Bytes)
    requires Fit(dst) && b.blobID != "" && b.contentLength == |data|
    ensures Stored(dst, b, data, "").0 == Put(dst, b, data) && Fit(Put(dst, b, data))
    ensures Describe(Put(dst, b, data), b.blobID) == Ok(b) && BlobOf(Put(dst, b, data), b.blobID) == Some((b, data))
    ensures forall x | x != b.blobID ::
              BlobOf(Put(dst, b, data), x) == BlobOf(dst, x) && Has(Put(dst, b, data), x) == Has(dst, x)
  {
    assert SimpleFile.Named(b, data, "") == b && !WrongSize(b, data);
  }

  lemma RetentionOk(s: Files, r: RetentionEntry, b: Desc)
    requires Fit(s) && Describe(s, r.blobID) == Ok(b) && b.blobID == r.blobID
    ensures var t := RetentionAdded(s, r);
            Fit(t) && t == s.(ret := s.ret[b.blobID := FromDesc(b).(retention := r.retention, retentionBase := r.retentionBase)])
    ensures forall x :: BlobOf(RetentionAdded(s, r), x) == BlobOf(s, x) && Has(RetentionAdded(s, r), x) == Has(s, x)
  {
  }

  lemma CopiedOk(src: Files, dst: Files, id: Id)
    requires Fit(src) && Fit(dst)
    ensures Fit(Copied(src, dst, id))
    ensures BlobOf(src, id).Some? ==> BlobOf(Copied(src, dst, id), id) == BlobOf(src, id)
    ensures RetOf(Copied(src, dst, id), id) == RetCopied(src, dst, id)
    ensures forall x | x != id || BlobOf(src, id).None? ::
              BlobOf(Copied(src, dst, id), x) == BlobOf(dst, x) && RetOf(Copied(src, dst, id), x) == RetOf(dst, x)
              && Has(Copied(src, dst, id), x) == Has(dst, x)
  {
    if Has(src, id) && Describe(src, id).Ok? {
      var b := Describe(src, id).value;
      FiledAt(src, id);
      PutOk(dst, b, src.bin[id]);
      if id in src.ret { RetentionOk(Put(dst, b, src.bin[id]), src.ret[id], b); }
      hide Fit, Stored, RetentionAdded;
    }
  }

  lemma FiledAt(s: Files, id: Id)
    requires Fit(s) && Has(s, id)
    ensures Describe(s, id).Ok? && Describe(s, id).value.blobID == id
    ensures Describe(s, id).value.contentLength == |s.bin[id]|
    ensures id in s.ret ==> s.ret[id].blobID == id
  {
  }

  /** Whatever the order of the tasks: each copied id holds the source's blob,
      every other id is as it was. */
  lemma {:induction false} CopiedAllOk(src: Files, dst: Files, ids: seq<Id>)
    requires Fit(src) && Fit(dst) && forall i, j | 0 <= i < j < |ids| :: ids[i] != ids[j]
    ensures Fit(CopiedAll(src, dst, ids))
    ensures forall x :: var r := CopiedAll(src, dst, ids);
              if x in ids && BlobOf(src, x).Some? then BlobOf(r, x) == BlobOf(src, x) && RetOf(r, x) == RetCopied(src, dst, x)
              else BlobOf(r, x) == BlobOf(dst, x) && RetOf(r, x) == RetOf(dst, x)
    decreases |ids|
  {
    if ids != [] {
      CopiedOk(src, dst, ids[0]);
      CopiedAllOk(src, Copied(src, dst, ids[0]), ids[1..]);
      assert forall x :: x in ids <==> x == ids[0] || x in ids[1..];
      hide BlobOf, Fit, Copied, Has;
    }
  }

  class RestoreContext {
    const Primary: BlobStorage
    const Backup: BlobStorage?
    var Running: bool

    constructor (primary: BlobStorage, backup: BlobStorage?)
      ensures Primary == primary && Backup == backup && !Running
    {
      Primary, Backup, Running := primary, backup, false;
    }

    /** Every blob of the backup that the primary does not have, in the order
        in which the backup lists them. */
    method Restore() returns (ghost order: seq<Id>)
      requires Primary != Backup
      requires Backup != null ==> Filed(Backup.State()) && Filed(Primary.State())
      modifies this, Primary
      ensures !Running
      ensures Backup == null ==> Primary.State() == old(Primary.State())
      ensures Backup != null ==>
                Primary.State() == CopiedAll(Backup.State(), old(Primary.State()), order)
                && Orders(order, Missing(Backup.State(), old(Primary.State())))
    {
      hide Filed, Copied, CopiedAll, Has, Orders;
      Running := true;
      order := [];
      if Backup != null {
        ghost var was, src := Primary.State(), Backup.State();
        var todo := Backup.desc.Keys;
        ghost var found: set<Id> := {};
        NoneCopied(src, was);
        OrdersNone();
        while todo != {}
          invariant Orders(order, found) && todo <= src.desc.Keys
          invariant forall x :: x in found <==> x in src.desc.Keys && x !in todo && !Has(was, x)
          invariant Primary.State() == CopiedAll(src, was, order) && Backup.State() == src
          decreases |todo|
        {
          var id :| id in todo;
          OrdersIn(order, found);
          HasSame(src, was, order, id);
          var ok := Primary.HasBlob(id);
          if !ok {
            CopyBlob(id, Backup, Primary);
            CopiedAllAppend(src, was, order, id);
            OrdersAdd(order, found, id);
            order := order + [id];
            found := found + {id};
          }
          todo := todo - {id};
        }
        FoundAll(src, was, found);
      }
      Running := false;
    }
  }

  /** `order` names each id of `ids` once. */
  ghost predicate Orders(order: seq<Id>, ids: set<Id>) {
    (forall i, j | 0 <= i < j < |order| :: order[i] != order[j]) && (forall x :: x in order <==> x in ids)
  }

  lemma {:induction false} CopiedAllAppend(src: Files, dst: Files, ids: seq<Id>, id: Id)
    ensures CopiedAll(src, dst, ids + [id]) == Copied(src, CopiedAll(src, dst, ids), id)
    decreases |ids|
  {
    if ids == [] {
      assert [] + [id] == [id] && [id][1..] == [];
      assert CopiedAll(src, Copied(src, dst, id), []) == Copied(src, dst, id);
    } else {
      CopiedAllAppend(src, Copied(src, dst, ids[0]), ids[1..], id);
      assert (ids + [id])[1..] == ids[1..] + [id];
    }
  }

  /** A copy touches its own id only, also when the lengths do not fit. */
  lemma CopiedElsewhere(src: Files, dst: Files, id: Id, x: Id)
    requires Filed(src) && Filed(dst) && x != id
    ensures Filed(Copied(src, dst, id)) && Has(Copied(src, dst, id), x) == Has(dst, x)
  {
    if Has(src, id) && Describe(src, id).Ok? {
      var b := Describe(src, id).value;
      StoredElsewhere(dst, b, Piped(src, id), x);
      var dst1 := Stored(dst, b, Piped(src, id), "").0;
      if id in src.ret { AddedElsewhere(dst1, src.ret[id], x); }
      hide Stored, RetentionAdded;
    }
  }

  lemma StoredElsewhere(s: Files, b: Desc, data: Bytes, x: Id)
    requires Filed(s) && b.blobID != "" && x != b.blobID
    ensures Filed(Stored(s, b, data, "").0) && Has(Stored(s, b, data, "").0, x) == Has(s, x)
  {
    assert SimpleFile.Named(b, data, "").blobID == b.blobID;
  }

  lemma AddedElsewhere(s: Files, r: RetentionEntry, x: Id)
    requires Filed(s)
    ensures Filed(RetentionAdded(s, r)) && Has(RetentionAdded(s, r), x) == Has(s, x)
  {
  }

  lemma {:induction false} HasSame(src: Files, dst: Files, ids: seq<Id>, x: Id)
    requires Filed(src) && Filed(dst) && x !in ids
    ensures Has(CopiedAll(src, dst, ids), x) == Has(dst, x)
    decreases |ids|
  {
    hide Filed, Copied, Has;
    if ids != [] {
      CopiedElsewhere(src, dst, ids[0], x);
      HasSame(src, Copied(src, dst, ids[0]), ids[1..], x);
    }
  }

  method CopyBlob(id: Id, src: BlobStorage, dst: BlobStorage)
    requires src != dst
    modifies dst
    ensures dst.State() == Copied(src.State(), old(dst.State()), id)
  {
    var found := src.HasBlob(id);
    if found {
      var b := src.GetBlobDescription(id);
      if b.Err? { return; }
      var r := src.RetrieveBlob(id);
      var stored := dst.StoreBlob(b.value, if r.Ok? then r.value else "", "");
      if b.value.retention > 0 {
        var rt := src.GetRetention(id);
        if rt.Ok? { var added := dst.AddRetention(rt.value); }
      }
    }
  }

  /** The walk over the primary starts a task for each blob that it finds
      missing in the backup; walk and tasks interleave in any way. */
  method MigrateBckTnt(stg: BlobStorage, bck: BlobStorage) returns (ghost order: seq<Id>)
    requires stg != bck && Filed(stg.State()) && Filed(bck.State())
    modifies bck
    ensures bck.State() == CopiedAll(stg.State(), old(bck.State()), order)
    ensures Orders(order, Missing(stg.State(), old(bck.State())))
  {
    hide Filed, Copied, CopiedAll, Has, Orders;
    ghost var was, src := bck.State(), stg.State();
    var todo, tasks: set<Id> := stg.desc.Keys, {};
    ghost var done: set<Id> := {};
    order := [];
    NoneCopied(src, was);
    OrdersNone();
    while todo != {} || tasks != {}
      invariant Orders(order, done) && todo <= src.desc.Keys && forall x | x in tasks :: x !in done
      invariant forall x :: x in done || x in tasks <==> x in src.desc.Keys && x !in todo && !Has(was, x)
      invariant bck.State() == CopiedAll(src, was, order) && stg.State() == src
      decreases |todo|, |tasks|
    {
      var walk := *;
      OrdersIn(order, done);
      if todo != {} && (walk || tasks == {}) {
        var id :| id in todo;
        HasSame(src, was, order, id);
        var has := bck.HasBlob(id);
        if !has { tasks := tasks + {id}; }
        todo := todo - {id};
      } else {
        var id :| id in tasks;
        CopyBlob(id, stg, bck);
        CopiedAllAppend(src, was, order, id);
        OrdersAdd(order, done, id);
        tasks := tasks - {id};
        order := order + [id];
        done := done + {id};
      }
    }
    FoundAll(src, was, done);
  }

  lemma FoundAll(src: Files, was: Files, found: set<Id>)
    requires forall x :: x in found <==> x in src.desc.Keys && !Has(was, x)
    ensures found == Missing(src, was)
  {
  }

  lemma OrdersNone()
    ensures Orders([], {})
  {
  }

  lemma OrdersAdd(order: seq<Id>, ids: set<Id>, id: Id)
    requires Orders(order, ids) && id !in ids
    ensures Orders(order + [id], ids + {id})
  {
  }

  lemma OrdersIn(order: seq<Id>, ids: set<Id>)
    requires Orders(order, ids)
    ensures forall x :: x in order <==> x in ids
  {
  }

  lemma NoneCopied(src: Files, dst: Files)
    ensures CopiedAll(src, dst, []) == dst
  {
  }
}
