/** Retention entries of blobs. */
module Retentions {
  import opened Blobs

  datatype RetentionEntry = RetentionEntry(filename: string, tenantID: Tenant, blobID: Id, creationDate: int,
                                           retention: int, retentionBase: int)
  {
    /** When the blob's time is over, in milliseconds. */
    function Deadline(): int {
      (if retentionBase > 0 then retentionBase else creationDate) + retention * 60 * 1000
    }
  }

  function FromDesc(b: Desc): RetentionEntry {
    RetentionEntry(b.filename, b.tenantID, b.blobID, b.creationDate, b.retention, 0)
  }
}
