/** What a backup migration and a restore achieve, whatever the order of their
    per-blob tasks. */
module MigrationLaws {
  import opened Wrappers
  import opened Blobs
  import opened Retentions
  import opened SimpleFile
  import opened Migration

  lemma HasIsBlob(s: Files, id: Id)
    ensures BlobOf(s, id).Some? <==> Has(s, id)
  {
  }

  /** The backup afterwards: the old backup, plus exactly the blobs of the
      primary that were missing. */
  lemma MigrateUnion(stg: Files, bck: Files, order: seq<Id>)
    requires Fit(stg) && Fit(bck) && Orders(order, Missing(stg, bck))
    ensures Fit(CopiedAll(stg, bck, order))
    ensures forall x :: BlobOf(CopiedAll(stg, bck, order), x) ==
                        if BlobOf(bck, x).Some? then BlobOf(bck, x) else BlobOf(stg, x)
    ensures forall x :: RetOf(CopiedAll(stg, bck, order), x) ==
                        if BlobOf(bck, x).Some? then RetOf(bck, x) else RetCopied(stg, bck, x)
  {
    CopiedAllOk(stg, bck, order);
    var r := CopiedAll(stg, bck, order);
    hide CopiedAll, Fit;
    forall x
      ensures BlobOf(r, x) == (if BlobOf(bck, x).Some? then BlobOf(bck, x) else BlobOf(stg, x))
      ensures RetOf(r, x) == if BlobOf(bck, x).Some? then RetOf(bck, x) else RetCopied(stg, bck, x)
    {
      HasIsBlob(bck, x);
      HasIsBlob(stg, x);
    }
  }

  lemma {:induction false} NothingCopied(src: Files, dst: Files, ids: seq<Id>)
    requires forall k | 0 <= k < |ids| :: !Has(src, ids[k])
    ensures CopiedAll(src, dst, ids) == dst
    decreases |ids|
  {
    if ids != [] { NothingCopied(src, dst, ids[1..]); }
  }

  /** A second migration changes nothing. */
  lemma MigrateIdempotent(stg: Files, bck: Files, order: seq<Id>, again: seq<Id>)
    requires Fit(stg) && Fit(bck) && Orders(order, Missing(stg, bck))
    requires Orders(again, Missing(stg, CopiedAll(stg, bck, order)))
    ensures CopiedAll(stg, CopiedAll(stg, bck, order), again) == CopiedAll(stg, bck, order)
  {
    var r := CopiedAll(stg, bck, order);
    MigrateUnion(stg, bck, order);
    forall k | 0 <= k < |again| ensures !Has(stg, again[k]) {
      assert again[k] in again;
      HasIsBlob(r, again[k]);
      HasIsBlob(stg, again[k]);
      HasIsBlob(bck, again[k]);
    }
    NothingCopied(stg, r, again);
  }

  /** The backup held nothing but blobs of the primary. */
  ghost predicate AgreesWith(bck: Files, stg: Files) {
    forall x :: BlobOf(bck, x).Some? ==> BlobOf(bck, x) == BlobOf(stg, x)
  }

  /** Migrate, lose the whole primary, restore: every blob is back, and so is
      the retention entry of every blob that the migration copied. */
  lemma RestoreRoundTrip(stg: Files, bck: Files, order: seq<Id>, back: seq<Id>)
    requires Fit(stg) && Fit(bck) && AgreesWith(bck, stg) && Orders(order, Missing(stg, bck))
    requires Orders(back, Missing(CopiedAll(stg, bck, order), EMPTY))
    ensures var r := CopiedAll(CopiedAll(stg, bck, order), EMPTY, back);
            forall x :: BlobOf(r, x) == BlobOf(stg, x)
                        && (BlobOf(bck, x).None? && BlobOf(stg, x).Some? && BlobOf(stg, x).value.0.retention > 0 && x in stg.ret ==>
                            RetOf(r, x) == RetCopied(stg, EMPTY, x))
  {
    var mid := CopiedAll(stg, bck, order);
    MigrateUnion(stg, bck, order);
    MigrateUnion(mid, EMPTY, back);
    var r := CopiedAll(mid, EMPTY, back);
    hide CopiedAll, Fit, Orders, Missing;
    forall x
      ensures BlobOf(r, x) == BlobOf(stg, x)
              && (BlobOf(bck, x).None? && BlobOf(stg, x).Some? && BlobOf(stg, x).value.0.retention > 0 && x in stg.ret ==>
                  RetOf(r, x) == RetCopied(stg, EMPTY, x))
    {
      assert BlobOf(EMPTY, x) == None;
      assert BlobOf(mid, x) == BlobOf(stg, x);
    }
  }

  /** A retention entry that was written for the blob's description is copied
      unchanged. */
  lemma RetentionUnchanged(src: Files, dst: Files, id: Id)
    requires BlobOf(src, id).Some? && id in src.ret && BlobOf(src, id).value.0.retention > 0
    requires var e := src.ret[id];
             e == FromDesc(BlobOf(src, id).value.0).(retention := e.retention, retentionBase := e.retentionBase)
    ensures RetCopied(src, dst, id) == RetOf(src, id)
  {
  }

  /** What a copy leaves as the target's retention entry, field by field: the
      names and the creation of the copied description with the times of the
      source's entry. */
  lemma RetentionCopied(src: Files, dst: Files, id: Id)
    requires Fit(src) && Fit(dst) && BlobOf(src, id).Some? && id in src.ret && BlobOf(src, id).value.0.retention > 0
    ensures var b, e := BlobOf(src, id).value.0, src.ret[id];
            RetOf(Copied(src, dst, id), id)
            == Some(RetentionEntry(b.filename, b.tenantID, id, b.creationDate, e.retention, e.retentionBase))
  {
    CopiedOk(src, dst, id);
    FiledAt(src, id);
    hide Copied, Fit;
  }
}
