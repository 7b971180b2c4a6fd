/** Comparing two readers block by block, whatever the sizes of their reads. */
module ReaderComp {
  import opened Wrappers
  import opened Blobs

  datatype ReadError = Eof | Failure(code: int)

  /** A reader of a finite stream. A read gives some of the bytes that are
      left, end-of-file comes with the last bytes or after them and stays, a
      read may give nothing without an error but only `patience` times, and it
      may fail at any time. */
  class Reader {
    var rest: Bytes
    var patience: nat
    var ended: bool
    var failed: bool

    constructor (stream: Bytes, emptyReads: nat)
      ensures Valid() && rest == stream && !failed
    {
      rest, patience, ended, failed := stream, emptyReads, false, false;
    }

    predicate Valid()
      reads this
    {
      ended ==> rest == ""
    }

    function Measure(): nat
      reads this
    {
      |rest| + patience + if ended then 0 else 1
    }

    /** The bytes and the error of the next read, with room for `room` bytes. */
    method Next(room: nat) returns (data: Bytes, err: Option<ReadError>)
      requires Valid()
      modifies this
      ensures Valid() && |data| <= room && old(rest) == data + rest
      ensures err == Some(Eof) ==> ended
      ensures old(ended) ==> data == "" && err == Some(Eof)
      ensures failed <==> old(failed) || (err.Some? && err.value.Failure?)
      ensures Measure() <= old(Measure()) && (room > 0 && !old(ended) && !failed ==> Measure() < old(Measure()))
    {
      if ended { return "", Some(Eof); }
      var most := if room < |rest| then room else |rest|;
      var n: nat :| n <= most && (patience == 0 && most > 0 ==> n > 0);
      data := rest[..n];
      rest := rest[n..];
      var fails, ends := *, *;
      if fails {
        failed := true;
        var code := *;
        err := Some(Failure(code));
      } else if rest == "" && (ends || (n == 0 && patience == 0)) {
        ended := true;
        err := Some(Eof);
      } else {
        if n == 0 && room > 0 { patience := patience - 1; }
        err := None;
      }
    }

    method Read(b: array<char>, lo: nat, hi: nat) returns (n: nat, err: Option<ReadError>)
      requires Valid() && lo <= hi <= b.Length
      modifies this, b
      ensures Valid() && n <= hi - lo && old(rest) == b[lo..lo + n] + rest && b[..lo] == old(b[..lo])
      ensures err == Some(Eof) ==> ended
      ensures old(ended) ==> n == 0 && err == Some(Eof)
      ensures failed <==> old(failed) || (err.Some? && err.value.Failure?)
      ensures Measure() <= old(Measure()) && (lo < hi && !old(ended) && !failed ==> Measure() < old(Measure()))
    {
      var data: Bytes;
      data, err := Next(hi - lo);
      Fill(b, lo, data);
      n := |data|;
    }
  }

  method Fill(b: array<char>, lo: nat, data: Bytes)
    requires lo + |data| <= b.Length
    modifies b
    ensures b[lo..lo + |data|] == data
    ensures b[..lo] == old(b[..lo])
  {
    forall i | 0 <= i < |data| { b[lo + i] := data[i]; }
  }

  /** Reads on until `n` reaches `to`; end-of-file may stop it earlier. */
  method CatchUp(r: Reader, b: array<char>, from: nat, to: nat) returns (n: nat, err: Option<ReadError>)
    requires r.Valid() && from < to <= b.Length && !r.failed
    modifies r, b
    ensures r.Valid() && from <= n <= to && old(b[..from]) + old(r.rest) == b[..n] + r.rest
    ensures r.failed <==> err.Some? && err.value.Failure?
    ensures !r.failed ==> n == to || r.ended
    ensures err == Some(Eof) ==> r.ended
    ensures r.Measure() <= old(r.Measure()) && (err.None? ==> r.Measure() < old(r.Measure()))
  {
    n, err := from, None;
    while n < to
      invariant from <= n <= to && r.Valid() && !r.failed && err.None?
      invariant old(b[..from]) + old(r.rest) == b[..n] + r.rest
      invariant r.Measure() <= old(r.Measure()) && (n > from ==> r.Measure() < old(r.Measure()))
      decreases r.Measure()
    {
      ghost var was, rest := b[..n], r.rest;
      var more: nat;
      more, err := r.Read(b, n, to);
      assert b[..n + more] == was + b[n..n + more];
      n := n + more;
      if err.Some? { return; }
    }
  }

  /** One block of each reader, of the same length unless one stream ends
      within it. The result is an error, or whether both have reported the end. */
  method ReadBlocks(r1: Reader, r2: Reader, b1: array<char>, b2: array<char>) returns (n1: nat, n2: nat, r: Result<bool, ReadError>)
    requires r1 != r2 && b1 != b2 && r1.Valid() && r2.Valid() && !r1.failed && !r2.failed && b1.Length == b2.Length > 0
    modifies r1, r2, b1, b2
    ensures r1.Valid() && r2.Valid() && n1 <= b1.Length && n2 <= b2.Length
    ensures r.Err? <==> r1.failed || r2.failed
    ensures r.Ok? ==> old(r1.rest) == b1[..n1] + r1.rest && old(r2.rest) == b2[..n2] + r2.rest
    ensures r.Ok? ==> (n1 < n2 ==> r1.rest == "") && (n2 < n1 ==> r2.rest == "")
    ensures r.Ok? && r.value ==> r1.rest == "" && r2.rest == ""
    ensures r.Ok? && !r.value ==> r1.Measure() + r2.Measure() < old(r1.Measure() + r2.Measure())
  {
    var err1, err2: Option<ReadError>;
    n1, err1 := r1.Read(b1, 0, b1.Length);
    n2, err2 := r2.Read(b2, 0, b2.Length);
    if err1.Some? && err1 != Some(Eof) { return n1, n2, Err(err1.value); }
    if err2.Some? && err2 != Some(Eof) { return n1, n2, Err(err2.value); }
    if n1 < n2 {
      n1, err1 := CatchUp(r1, b1, n1, n2);
      if err1.Some? && err1 != Some(Eof) { return n1, n2, Err(err1.value); }
    }
    if n2 < n1 {
      n2, err2 := CatchUp(r2, b2, n2, n1);
      if err2.Some? && err2 != Some(Eof) { return n1, n2, Err(err2.value); }
    }
    r := Ok(err1 == Some(Eof) && err2 == Some(Eof));
  }

  /** Without a failing read, the answer is true exactly when the two streams
      are the same; it is an error exactly when a read failed. */
  method Equal(r1: Reader, r2: Reader, bufSize: nat) returns (r: Result<bool, ReadError>)
    requires r1 != r2 && r1.Valid() && r2.Valid() && !r1.failed && !r2.failed && bufSize > 0
    modifies r1, r2
    ensures r.Ok? ==> (r.value <==> old(r1.rest) == old(r2.rest))
    ensures r.Err? <==> r1.failed || r2.failed
  {
    var b1, b2 := new char[bufSize], new char[bufSize];
    ghost var seen: Bytes := "";
    while true
      invariant r1.Valid() && r2.Valid() && !r1.failed && !r2.failed
      invariant old(r1.rest) == seen + r1.rest && old(r2.rest) == seen + r2.rest
      decreases r1.Measure() + r2.Measure()
    {
      var n1, n2, done := ReadBlocks(r1, r2, b1, b2);
      if done.Err? { return Err(done.error); }
      ghost var x, y := b1[..n1], b2[..n2];
      if b1[..n1] != b2[..n2] {
        Differ(seen, x, r1.rest, y, r2.rest);
        return Ok(false);
      }
      Append(seen, x, r1.rest);
      Append(seen, y, r2.rest);
      seen := seen + x;
      if done.value { return Ok(true); }
    }
  }

  /** Streams that differ in a block, the shorter block being the end of its
      stream, are different. */
  lemma Differ(seen: Bytes, x: Bytes, rest1: Bytes, y: Bytes, rest2: Bytes)
    requires x != y && (|x| < |y| ==> rest1 == "") && (|y| < |x| ==> rest2 == "")
    ensures seen + (x + rest1) != seen + (y + rest2)
  {
    assert (seen + (x + rest1))[|seen|..] == x + rest1 && (seen + (y + rest2))[|seen|..] == y + rest2;
    if |x| == |y| { assert (x + rest1)[..|x|] == x && (y + rest2)[..|x|] == y; }
  }

  lemma Append(seen: Bytes, x: Bytes, rest: Bytes)
    ensures seen + (x + rest) == (seen + x) + rest
  {
  }
}
