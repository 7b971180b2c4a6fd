/** Blob contents, blob descriptions and the order of blob ids. */
module Blobs {
  /** One byte per character. */
  type Bytes = string

  type Id = string

  type Tenant = string

  /** The fields of a blob description that the stores look at. */
  datatype Desc = Desc(blobID: Id, tenantID: Tenant, contentLength: int, retention: int,
                       creationDate: int, filename: string, other: string)

  datatype StoreError = EmptyId | NotExist | Exist | WrongLength | Failed

  /** Go's `<` on strings, byte by byte. */
  predicate Less(a: Id, b: Id) {
    b != "" && (a == "" || a[0] < b[0] || (a[0] == b[0] && Less(a[1..], b[1..])))
  }

  lemma LessIrreflexive(a: Id)
    ensures !Less(a, a)
  {
  }

  lemma LessTotal(a: Id, b: Id)
    ensures Less(a, b) || a == b || Less(b, a)
  {
    if a != "" && b != "" {
      if a[0] == b[0] {
        LessTotal(a[1..], b[1..]);
        assert a == [a[0]] + a[1..] && b == [b[0]] + b[1..];
      }
    }
  }

  lemma LessTransitive(a: Id, b: Id, c: Id)
    requires Less(a, b) && Less(b, c)
    ensures Less(a, c)
  {
    if a != "" && a[0] == b[0] && b[0] == c[0] { LessTransitive(a[1..], b[1..], c[1..]); }
  }
}
