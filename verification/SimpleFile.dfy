/** The file store of one tenant: a binary, a description and a retention file
    for each blob, and a map of descriptions in memory. */
module SimpleFile {
  import opened Wrappers
  import opened Blobs
  import opened Retentions

  datatype Files = Files(bin: map<Id, Bytes>, desc: map<Id, Desc>, known: map<Id, Desc>, ret: map<Id, RetentionEntry>)

  const EMPTY := Files(map[], map[], map[], map[])

  predicate Has(s: Files, id: Id) {
    id != "" && id in s.bin && id in s.desc
  }

  function Describe(s: Files, id: Id): Result<Desc, StoreError> {
    if id in s.known then Ok(s.known[id]) else if id in s.desc then Ok(s.desc[id]) else Err(NotExist)
  }

  function Contents(s: Files, id: Id): Result<Bytes, StoreError> {
    if id in s.bin then Ok(s.bin[id]) else Err(NotExist)
  }

  /** What a reader gets from a pipe that a failed read closes at once. */
  function Piped(s: Files, id: Id): Bytes {
    if id in s.bin then s.bin[id] else ""
  }

  /** Removes the three files, but stops at the first that is missing. */
  function Removed(s: Files, id: Id): (Files, Result<(), StoreError>) {
    if id !in s.bin then (s, Err(NotExist))
    else if id !in s.desc then (s.(bin := s.bin - {id}), Err(NotExist))
    else (s.(bin := s.bin - {id}, desc := s.desc - {id}, ret := s.ret - {id}), Ok(()))
  }

  function Deleted(s: Files, id: Id): (Files, Result<(), StoreError>) {
    Removed(s.(known := s.known - {id}), id)
  }

  /** The description as a store of `data` leaves it. */
  function Named(b: Desc, data: Bytes, newId: Id): Desc {
    b.(blobID := if b.blobID == "" then newId else b.blobID, contentLength := |data|)
  }

  predicate WrongSize(b: Desc, data: Bytes) {
    b.contentLength > 0 && b.contentLength != |data|
  }

  function Stored(s: Files, b: Desc, data: Bytes, newId: Id): (Files, Result<Desc, StoreError>) {
    var d := Named(b, data, newId);
    var s1 := s.(bin := s.bin[d.blobID := data]);
    if WrongSize(b, data) then (Removed(s1, d.blobID).0, Err(WrongLength))
    else (s1.(desc := s.desc[d.blobID := d], known := s.known[d.blobID := d]), Ok(d))
  }

  function Updated(s: Files, b: Desc): Files {
    s.(desc := s.desc[b.blobID := b], known := s.known[b.blobID := b])
  }

  /** A retention file is the description with the entry's times. */
  function RetentionAdded(s: Files, r: RetentionEntry): Files {
    var b := Describe(s, r.blobID);
    if b.Err? then s
    else s.(ret := s.ret[b.value.blobID := FromDesc(b.value).(retention := r.retention, retentionBase := r.retentionBase)])
  }

  /** The retention of a blob counts from `now`. */
  function RetentionReset(s: Files, id: Id, now: int): Files {
    if id in s.ret then RetentionAdded(s, s.ret[id].(retentionBase := now)) else s
  }

  class BlobStorage {
    var bin: map<Id, Bytes>
    var desc: map<Id, Desc>
    var bdCch: map<Id, Desc>
    var ret: map<Id, RetentionEntry>

    constructor (s: Files)
      ensures State() == s
    {
      bin, desc, bdCch, ret := s.bin, s.desc, s.known, s.ret;
    }

    function State(): Files
      reads this
    {
      Files(bin, desc, bdCch, ret)
    }

    method HasBlob(id: Id) returns (ok: bool)
      ensures ok == Has(State(), id)
    {
      if id == "" { return false; }
      if id !in bin { return false; }
      if id !in desc { return false; }
      return true;
    }

    method GetBlobDescription(id: Id) returns (r: Result<Desc, StoreError>)
      ensures r == Describe(State(), id)
    {
      if id in bdCch { return Ok(bdCch[id]); }
      if id !in desc { return Err(NotExist); }
      return Ok(desc[id]);
    }

    method RetrieveBlob(id: Id) returns (r: Result<Bytes, StoreError>)
      ensures r == Contents(State(), id)
    {
      if id !in bin { return Err(NotExist); }
      return Ok(bin[id]);
    }

    /** `newId` is the id generated for a blob that has none. */
    method StoreBlob(b: Desc, data: Bytes, newId: Id) returns (r: Result<Desc, StoreError>)
      modifies this
      ensures (State(), r) == Stored(old(State()), b, data, newId)
    {
      var d := if b.blobID == "" then b.(blobID := newId) else b;
      bin := bin[d.blobID := data];
      if d.contentLength > 0 && d.contentLength != |data| {
        var removed := DeleteFiles(d.blobID);
        return Err(WrongLength);
      }
      d := d.(contentLength := |data|);
      desc := desc[d.blobID := d];
      bdCch := bdCch[d.blobID := d];
      return Ok(d);
    }

    method DeleteFiles(id: Id) returns (r: Result<(), StoreError>)
      modifies this
      ensures (State(), r) == Removed(old(State()), id)
    {
      if id !in bin { return Err(NotExist); }
      bin := bin - {id};
      if id !in desc { return Err(NotExist); }
      desc := desc - {id};
      ret := ret - {id};
      return Ok(());
    }

    method DeleteBlob(id: Id) returns (r: Result<(), StoreError>)
      modifies this
      ensures (State(), r) == Deleted(old(State()), id)
    {
      bdCch := bdCch - {id};
      r := DeleteFiles(id);
    }

    method UpdateBlobDescription(b: Desc)
      modifies this
      ensures State() == Updated(old(State()), b)
    {
      desc := desc[b.blobID := b];
      bdCch := bdCch[b.blobID := b];
    }

    method GetRetention(id: Id) returns (r: Result<RetentionEntry, StoreError>)
      ensures r == if id in ret then Ok(ret[id]) else Err(NotExist)
    {
      if id !in ret { return Err(NotExist); }
      return Ok(ret[id]);
    }

    method AddRetention(r: RetentionEntry) returns (e: Result<(), StoreError>)
      modifies this
      ensures State() == RetentionAdded(old(State()), r) && e.Ok? == Describe(old(State()), r.blobID).Ok?
    {
      var b := GetBlobDescription(r.blobID);
      if b.Err? { return Err(b.error); }
      ret := ret[b.value.blobID := FromDesc(b.value).(retention := r.retention, retentionBase := r.retentionBase)];
      return Ok(());
    }

    method ResetRetention(id: Id, now: int) returns (e: Result<(), StoreError>)
      modifies this
      ensures State() == RetentionReset(old(State()), id, now)
      ensures e.Ok? == (id in old(ret) && Describe(old(State()), old(ret)[id].blobID).Ok?)
    {
      var r := GetRetention(id);
      if r.Err? { return Err(r.error); }
      e := AddRetention(r.value.(retentionBase := now));
    }
  }

  /** A reset changes nothing but the base of the blob's retention. */
  lemma ResetEffect(s: Files, id: Id, now: int)
    requires id in s.ret && s.ret[id].blobID == id && Describe(s, id).Ok?
    requires var b := Describe(s, id).value;
             b.blobID == id
             && s.ret[id] == RetentionEntry(b.filename, b.tenantID, id, b.creationDate, s.ret[id].retention, s.ret[id].retentionBase)
    ensures RetentionReset(s, id, now) == s.(ret := s.ret[id := s.ret[id].(retentionBase := now)])
  {
  }

  /** A store either takes the blob, and then has it with exactly these bytes,
      or refuses a wrong length and keeps no bytes under that id. */
  lemma StoreEffect(s: Files, b: Desc, data: Bytes, newId: Id)
    requires b.blobID != "" || newId != ""
    ensures var (t, r) := Stored(s, b, data, newId); var d := Named(b, data, newId);
            if WrongSize(b, data) then r == Err(WrongLength) && d.blobID !in t.bin && !Has(t, d.blobID)
            else r == Ok(d) && Has(t, d.blobID) && Contents(t, d.blobID) == Ok(data) && Describe(t, d.blobID) == Ok(d)
    ensures var t := Stored(s, b, data, newId).0; forall x | x != Named(b, data, newId).blobID ::
              Has(t, x) == Has(s, x) && Contents(t, x) == Contents(s, x) && Describe(t, x) == Describe(s, x)
    ensures var id := if b.blobID == "" then newId else b.blobID;
            Stored(s, b, data, newId).0.ret == if WrongSize(b, data) && id in s.desc then s.ret - {id} else s.ret
  {
  }

  /** Whatever a delete reports, the bytes are gone; it reports success exactly
      when both files were there, and then the retention is gone, too. */
  lemma DeleteEffect(s: Files, id: Id)
    ensures var (t, r) := Deleted(s, id);
            && id !in t.bin && (r.Ok? <==> id in s.bin && id in s.desc) && (r.Ok? ==> Describe(t, id) == Err(NotExist))
            && t.ret == if r.Ok? then s.ret - {id} else s.ret
    ensures var t := Deleted(s, id).0; forall x | x != id ::
              Has(t, x) == Has(s, x) && Contents(t, x) == Contents(s, x) && Describe(t, x) == Describe(s, x)
  {
  }

  /** An update replaces the description of one id, whether it is in memory or
      not, and nothing else. */
  lemma UpdateEffect(s: Files, b: Desc)
    ensures var t := Updated(s, b);
            && Describe(t, b.blobID) == Ok(b) && b.blobID in t.desc && t.desc[b.blobID] == b && t.bin == s.bin && t.ret == s.ret
            && forall x | x != b.blobID :: Has(t, x) == Has(s, x) && Describe(t, x) == Describe(s, x)
  {
  }

  /** A description that was just written outlives the loss of its file as well
      as a restart, which empties the memory. */
  lemma DescriptionStays(s: Files, b: Desc, data: Bytes, newId: Id)
    ensures var t := Updated(s, b);
            Describe(t.(desc := t.desc - {b.blobID}), b.blobID) == Ok(b) && Describe(t.(known := map[]), b.blobID) == Ok(b)
    ensures var (t, r) := Stored(s, b, data, newId);
            r.Ok? ==> var id := r.value.blobID;
                      Describe(t.(desc := t.desc - {id}), id) == r && Describe(t.(known := map[]), id) == r
  {
  }

  /** There is no blob without an id. */
  lemma NoEmptyBlob(s: Files)
    ensures !Has(s, "")
  {
  }

  /** A retention file tells whose blob it is and when it was created, as the
      description does, and the times it was added with. */
  lemma RetentionEffect(s: Files, r: RetentionEntry)
    ensures var t := RetentionAdded(s, r);
            match Describe(s, r.blobID)
            case Err(_) => t == s
            case Ok(b) =>
              && t == s.(ret := t.ret) && t.ret.Keys == s.ret.Keys + {b.blobID}
              && t.ret[b.blobID] == RetentionEntry(b.filename, b.tenantID, b.blobID, b.creationDate, r.retention, r.retentionBase)
              && forall x | x in s.ret && x != b.blobID :: t.ret[x] == s.ret[x]
  {
  }
}
