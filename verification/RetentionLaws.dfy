/** What sequences of pushes, and of process and refresh rounds, achieve. */
module RetentionLaws {
  import opened Blobs
  import opened Retentions
  import opened RetentionList

  /** The push of `rs[k]` found its blob id in the list. */
  predicate Duplicate(l: Entries, rs: Entries, k: nat, max: int)
    requires k < |rs|
  {
    Listed(PushedAll(l, rs[..k], max), rs[k].blobID)
  }

  lemma {:induction false} PushesOk(l: Entries, rs: Entries, max: int)
    requires ListOk(l, max)
    ensures ListOk(PushedAll(l, rs, max), max)
    decreases |rs|
  {
    if rs != [] {
      PushesOk(l, rs[..|rs| - 1], max);
      PushedOk(PushedAll(l, rs[..|rs| - 1], max), rs[|rs| - 1], max);
    }
  }

  /** The entry is in the list, or at least `max - 1` others are due no later. */
  predicate Kept(l: Entries, e: RetentionEntry, max: int) {
    e in l || Late(l, e, max)
  }

  lemma {:induction false} PushKept(l: Entries, rs: Entries, max: int, k: nat)
    requires ListOk(l, max) && k < |rs|
    ensures Kept(PushedAll(l, rs, max), rs[k], max) || Duplicate(l, rs, k, max)
    decreases |rs|
  {
    hide ListOk, Late, Pushed, Listed;
    var n := |rs| - 1;
    PushesOk(l, rs[..n], max);
    PushKeeps(PushedAll(l, rs[..n], max), rs[n], max, rs[k]);
    if k < n {
      PushKept(l, rs[..n], max, k);
      assert rs[..n][..k] == rs[..k] && rs[..n][k] == rs[k];
    }
  }

  /** After any pushes the list is sorted, has no two entries of a blob and is
      within its bound; every entry that was pushed and was no duplicate is in
      it, or at least `max - 1` others are due no later. */
  lemma PushesKeep(rs: Entries, max: int)
    ensures ListOk(PushedAll([], rs, max), max)
    ensures forall k | 0 <= k < |rs| :: Kept(PushedAll([], rs, max), rs[k], max) || Duplicate([], rs, k, max)
  {
    PushesOk([], rs, max);
    forall k | 0 <= k < |rs| ensures Kept(PushedAll([], rs, max), rs[k], max) || Duplicate([], rs, k, max) {
      PushKept([], rs, max, k);
    }
  }

  type Stored = map<Id, RetentionEntry>

  /** The walk over the stored entries meets each once. */
  ghost predicate Walks(order: Entries, stored: Stored) {
    && (forall k | 0 <= k < |order| :: order[k].blobID in stored && order[k] == stored[order[k].blobID])
    && (forall id | id in stored :: stored[id] in order)
  }

  /** Entries are filed under their id, and the list holds only stored ones. */
  ghost predicate Consistent(l: Entries, stored: Stored) {
    && (forall id | id in stored :: stored[id].blobID == id)
    && (forall k | 0 <= k < |l| :: l[k].blobID in stored && l[k] == stored[l[k].blobID])
  }

  function ExpiredIds(stored: Stored, t: int): set<Id> {
    set id | id in stored && stored[id].Deadline() < t
  }

  /** The stored entries after the deletes of a process run, all successful. */
  function Processed(l: Entries, stored: Stored, now: int): Stored {
    stored - set k | 0 <= k < DueCount(l, now) :: l[k].blobID
  }

  /** Process, then refresh. */
  function Round(l: Entries, now: int, order: Entries, max: int): Entries {
    PushedAll(l[DueCount(l, now)..], order, max)
  }

  lemma {:induction false} PushedFrom(l: Entries, rs: Entries, max: int, stored: Stored)
    requires ListOk(l, max) && Consistent(l, stored)
    requires forall k | 0 <= k < |rs| :: rs[k].blobID in stored && rs[k] == stored[rs[k].blobID]
    ensures Consistent(PushedAll(l, rs, max), stored)
    decreases |rs|
  {
    if rs != [] {
      PushedFrom(l, rs[..|rs| - 1], max, stored);
      PushedMembers(PushedAll(l, rs[..|rs| - 1], max), rs[|rs| - 1], max, stored);
    }
  }

  /** A stored entry that is pushed has no duplicate but itself. */
  lemma {:induction false} PushedKept(l: Entries, rs: Entries, max: int, stored: Stored, k: nat)
    requires ListOk(l, max) && Consistent(l, stored) && k < |rs|
    requires forall j | 0 <= j < |rs| :: rs[j].blobID in stored && rs[j] == stored[rs[j].blobID]
    ensures Kept(PushedAll(l, rs, max), rs[k], max)
    decreases |rs|
  {
    hide ListOk, Late, Pushed, Listed;
    var n := |rs| - 1;
    var l1 := PushedAll(l, rs[..n], max);
    PushesOk(l, rs[..n], max);
    PushKeeps(l1, rs[n], max, rs[k]);
    if k < n {
      PushedKept(l, rs[..n], max, stored, k);
      assert rs[..n][k] == rs[k];
    } else if Listed(l1, rs[n].blobID) {
      PushedFrom(l, rs[..n], max, stored);
      ListedStored(l1, rs[n], stored);
    }
  }

  lemma PushedMembers(l: Entries, r: RetentionEntry, max: int, stored: Stored)
    requires Consistent(l, stored) && r.blobID in stored && r == stored[r.blobID]
    ensures Consistent(Pushed(l, r, max), stored)
  {
    var p := Later(l, r.Deadline());
    var m := l[..p] + [r] + l[p..];
    assert forall k | 0 <= k < |m| :: m[k] == r || (if k < p then m[k] == l[k] else m[k] == l[k - 1]);
  }

  lemma ListedStored(l: Entries, r: RetentionEntry, stored: Stored)
    requires Consistent(l, stored) && r.blobID in stored && r == stored[r.blobID] && Listed(l, r.blobID)
    ensures r in l
  {
  }

  /** If anything stored has expired, the first entry of the list has. */
  ghost predicate Reaches(l: Entries, stored: Stored, t: int) {
    ExpiredIds(stored, t) != {} ==> l != [] && l[0].Deadline() < t
  }

  lemma RoundOk(l: Entries, stored: Stored, now: int, order: Entries, max: int, t: int)
    requires ListOk(l, max) && Consistent(l, stored) && max >= 2
    requires Walks(order, Processed(l, stored, now))
    ensures var m, s := Round(l, now, order, max), Processed(l, stored, now);
            ListOk(m, max) && Consistent(m, s) && Reaches(m, s, t)
  {
    var s, rest := Processed(l, stored, now), l[DueCount(l, now)..];
    RestOk(l, stored, now, max);
    PushedFrom(rest, order, max, s);
    PushesOk(rest, order, max);
    var m := PushedAll(rest, order, max);
    if ExpiredIds(s, t) != {} {
      var id :| id in ExpiredIds(s, t);
      var k :| 0 <= k < |order| && order[k] == s[id];
      PushedKept(rest, order, max, s, k);
      ReachesBy(m, order[k], max, t);
    }
  }

  lemma RestOk(l: Entries, stored: Stored, now: int, max: int)
    requires ListOk(l, max) && Consistent(l, stored)
    ensures ListOk(l[DueCount(l, now)..], max) && Consistent(l[DueCount(l, now)..], Processed(l, stored, now))
  {
  }

  lemma ReachesBy(m: Entries, e: RetentionEntry, max: int, t: int)
    requires Sorted(m) && max >= 2 && e.Deadline() < t && Kept(m, e, max)
    ensures m != [] && m[0].Deadline() < t
  {
  }

  /** A run with expired entries in reach takes at least one of them away, and
      takes nothing that is not due. */
  lemma ProcessDrains(l: Entries, stored: Stored, now: int, t: int, max: int)
    requires ListOk(l, max) && Consistent(l, stored) && Reaches(l, stored, t) && t <= now
    ensures var s := Processed(l, stored, now);
            ExpiredIds(s, t) <= ExpiredIds(stored, t)
            && (ExpiredIds(stored, t) != {} ==> |ExpiredIds(s, t)| < |ExpiredIds(stored, t)|)
            && forall id | id in stored && stored[id].Deadline() >= now :: id in s && s[id] == stored[id]
  {
    var s := Processed(l, stored, now);
    if ExpiredIds(stored, t) != {} {
      var id := l[0].blobID;
      assert id in ExpiredIds(stored, t) && id !in s;
      Smaller(ExpiredIds(s, t), ExpiredIds(stored, t), id);
    }
  }

  lemma Smaller(a: set<Id>, b: set<Id>, x: Id)
    requires a <= b && x in b && x !in a
    ensures |a| < |b|
  {
    assert |b| == |a| + |b - a|;
  }

  /** Rounds at the times `nows`, each followed by a refresh in the order
      `orders` gives. */
  function Drained(l: Entries, stored: Stored, nows: seq<int>, orders: seq<Entries>, max: int): (Entries, Stored)
    requires |orders| == |nows|
    decreases |nows|
  {
    if nows == [] then (l, stored)
    else Drained(Round(l, nows[0], orders[0], max), Processed(l, stored, nows[0]), nows[1..], orders[1..], max)
  }

  /** Each refresh walks what is stored at its time. */
  ghost predicate WalksAll(l: Entries, stored: Stored, nows: seq<int>, orders: seq<Entries>, max: int)
    requires |orders| == |nows|
    decreases |nows|
  {
    nows == []
    || (Walks(orders[0], Processed(l, stored, nows[0]))
        && WalksAll(Round(l, nows[0], orders[0], max), Processed(l, stored, nows[0]), nows[1..], orders[1..], max))
  }

  /** After as many rounds as entries had expired at time `t`, plus one to
      bring the list up to date, none of them is stored any more, and nothing
      that was not yet due is gone. */
  lemma DrainEnds(l: Entries, stored: Stored, nows: seq<int>, orders: seq<Entries>, max: int, t: int)
    requires ListOk(l, max) && Consistent(l, stored) && max >= 2 && |orders| == |nows|
    requires WalksAll(l, stored, nows, orders, max) && forall k | 0 <= k < |nows| :: t <= nows[k]
    requires |nows| > |ExpiredIds(stored, t)|
    ensures ExpiredIds(Drained(l, stored, nows, orders, max).1, t) == {}
    ensures forall id | id in stored && (forall k | 0 <= k < |nows| :: nows[k] <= stored[id].Deadline()) ::
              id in Drained(l, stored, nows, orders, max).1 && Drained(l, stored, nows, orders, max).1[id] == stored[id]
  {
    RoundOk(l, stored, nows[0], orders[0], max, t);
    FewerLeft(l, stored, nows[0], t);
    DrainFrom(Round(l, nows[0], orders[0], max), Processed(l, stored, nows[0]), nows[1..], orders[1..], max, t);
  }

  lemma FewerLeft(l: Entries, stored: Stored, now: int, t: int)
    requires Consistent(l, stored)
    ensures var s := Processed(l, stored, now);
            |ExpiredIds(s, t)| <= |ExpiredIds(stored, t)|
            && forall id | id in stored && now <= stored[id].Deadline() :: id in s && s[id] == stored[id]
  {
    var s := Processed(l, stored, now);
    assert ExpiredIds(s, t) <= ExpiredIds(stored, t);
    assert |ExpiredIds(stored, t)| == |ExpiredIds(s, t)| + |ExpiredIds(stored, t) - ExpiredIds(s, t)|;
  }

  lemma {:induction false} DrainFrom(l: Entries, stored: Stored, nows: seq<int>, orders: seq<Entries>, max: int, t: int)
    requires ListOk(l, max) && Consistent(l, stored) && Reaches(l, stored, t) && max >= 2 && |orders| == |nows|
    requires WalksAll(l, stored, nows, orders, max) && forall k | 0 <= k < |nows| :: t <= nows[k]
    requires |nows| >= |ExpiredIds(stored, t)|
    ensures ExpiredIds(Drained(l, stored, nows, orders, max).1, t) == {}
    ensures forall id | id in stored && (forall k | 0 <= k < |nows| :: nows[k] <= stored[id].Deadline()) ::
              id in Drained(l, stored, nows, orders, max).1 && Drained(l, stored, nows, orders, max).1[id] == stored[id]
    decreases |nows|
  {
    if nows != [] {
      ProcessDrains(l, stored, nows[0], t, max);
      RoundOk(l, stored, nows[0], orders[0], max, t);
      FewerLeft(l, stored, nows[0], t);
      DrainFrom(Round(l, nows[0], orders[0], max), Processed(l, stored, nows[0]), nows[1..], orders[1..], max, t);
    }
  }

  // ---- resets ----

  /** A process run at `now` asks for the blob. */
  predicate Asked(l: Entries, id: Id, now: int) {
    exists k :: 0 <= k < DueCount(l, now) && l[k].blobID == id
  }

  lemma AskedOverdue(l: Entries, max: int, e: RetentionEntry, now: int)
    requires ListOk(l, max) && forall k | 0 <= k < |l| && l[k].blobID == e.blobID :: l[k] == e
    ensures Asked(l, e.blobID, now) <==> e in l && Overdue(e, now)
  {
    ListParts(l, max);
    DueExact(l, now);
    hide Sorted, DueCount, Overdue, Distinct;
    if e in l {
      var k :| 0 <= k < |l| && l[k] == e;
      if Overdue(e, now) { assert k < DueCount(l, now) && l[k].blobID == e.blobID; }
    }
  }

  /** A reset at time `t` moves the time of a request to `t` plus the retention. */
  lemma ResetNumbers(e: RetentionEntry, t: int, now: int)
    requires t > 0
    ensures Overdue(e.(retentionBase := t), now) <==> now > t + e.retention * 60000
  {
  }

  /** The next refresh takes the new times over only for an entry that is not in
      the list: after a reset to a later time no request comes too early exactly
      when the old entry is not listed. */
  lemma ResetExact(l: Entries, max: int, e: RetentionEntry, t: int)
    requires ListOk(l, max) && forall k | 0 <= k < |l| && l[k].blobID == e.blobID :: l[k] == e
    requires t > 0 && t > if e.retentionBase > 0 then e.retentionBase else e.creationDate
    ensures var m := Pushed(l, e.(retentionBase := t), max);
            (forall now | Asked(m, e.blobID, now) :: now > t + e.retention * 60000) <==> e !in l
  {
    var r := e.(retentionBase := t);
    var m := Pushed(l, r, max);
    PushedOk(l, r, max);
    if e in l {
      assert m == l;
      var now := t + e.retention * 60000;
      AskedOverdue(l, max, e, now);
      assert Overdue(e, now);
    } else {
      NewPushed(l, r, max);
      forall now | Asked(m, e.blobID, now) ensures now > t + e.retention * 60000 {
        AskedOverdue(m, max, r, now);
        ResetNumbers(e, t, now);
      }
    }
  }

  lemma NewPushed(l: Entries, r: RetentionEntry, max: int)
    requires forall k | 0 <= k < |l| :: l[k].blobID != r.blobID
    ensures forall k | 0 <= k < |Pushed(l, r, max)| && Pushed(l, r, max)[k].blobID == r.blobID :: Pushed(l, r, max)[k] == r
  {
  }

  // ---- bounds that are too small ----

  /** A round that pushes nothing into the empty list leaves everything. */
  lemma {:induction false} StuckFrom(order: Entries, stored: Stored, nows: seq<int>, orders: seq<Entries>, max: int)
    requires PushedAll([], order, max) == [] && Walks(order, stored)
    requires |orders| == |nows| && forall k | 0 <= k < |orders| :: orders[k] == order
    ensures WalksAll([], stored, nows, orders, max) && Drained([], stored, nows, orders, max) == ([], stored)
    decreases |nows|
  {
    hide PushedAll;
    if nows != [] {
      var none: Entries := [];
      assert none[DueCount(none, nows[0])..] == none;
      assert Processed([], stored, nows[0]) == stored;
      StuckFrom(order, stored, nows[1..], orders[1..], max);
    }
  }

  /** A bound of one: two stored entries that are walked the later one first
      leave the list empty for ever, and nothing is ever deleted. */
  lemma OneNeverDrains(a: RetentionEntry, b: RetentionEntry, nows: seq<int>, orders: seq<Entries>)
    requires a.blobID != b.blobID && b.Deadline() < a.Deadline()
    requires |orders| == |nows| && forall k | 0 <= k < |orders| :: orders[k] == [a, b]
    ensures var stored := map[a.blobID := a, b.blobID := b];
            WalksAll([], stored, nows, orders, 1) && Drained([], stored, nows, orders, 1) == ([], stored)
  {
    PushOne(a);
    PushTwo(a, b);
    PushedPair(a, b, 1);
    hide Pushed;
    PairWalk(a, b);
    StuckFrom([a, b], map[a.blobID := a, b.blobID := b], nows, orders, 1);
  }

  lemma PushedPair(a: RetentionEntry, b: RetentionEntry, max: int)
    ensures PushedAll([], [a], max) == Pushed([], a, max)
    ensures PushedAll([], [a, b], max) == Pushed(Pushed([], a, max), b, max)
  {
    var none: Entries := [];
    assert [a][..0] == none && [a, b][..1] == [a];
    assert PushedAll(none, none, max) == none;
  }

  lemma PairWalk(a: RetentionEntry, b: RetentionEntry)
    requires a.blobID != b.blobID
    ensures Walks([a, b], map[a.blobID := a, b.blobID := b])
  {
    assert [a, b][0] == a && [a, b][1] == b;
  }

  lemma PushOne(a: RetentionEntry)
    ensures Pushed([], a, 1) == [a]
  {
  }

  lemma PushTwo(a: RetentionEntry, b: RetentionEntry)
    requires a.blobID != b.blobID && b.Deadline() < a.Deadline()
    ensures Pushed([a], b, 1) == []
  {
    assert !Listed([a], b.blobID) && Later([a], b.Deadline()) == 0;
  }

  /** A bound of zero or less: no entry is ever listed. */
  lemma ZeroNeverDrains(a: RetentionEntry, nows: seq<int>, orders: seq<Entries>, max: int)
    requires max <= 0 && |orders| == |nows| && forall k | 0 <= k < |orders| :: orders[k] == [a]
    ensures var stored := map[a.blobID := a];
            WalksAll([], stored, nows, orders, max) && Drained([], stored, nows, orders, max) == ([], stored)
  {
    PushedPair(a, a, max);
    assert [a][0] == a;
    StuckFrom([a], map[a.blobID := a], nows, orders, max);
  }

  /** Rounds, each refresh walking what is stored, at times from `t` on, and more
      of them than entries have expired at `t`. */
  ghost predicate EnoughRounds(l: Entries, stored: Stored, nows: seq<int>, orders: seq<Entries>, max: int, t: int) {
    && ListOk(l, max) && Consistent(l, stored) && |orders| == |nows| && WalksAll(l, stored, nows, orders, max)
    && (forall k | 0 <= k < |nows| :: t <= nows[k]) && |nows| > |ExpiredIds(stored, t)|
  }

  /** Whatever is stored and listed, enough rounds delete what has expired. */
  ghost predicate AlwaysDrains(max: int) {
    forall l, stored, nows, orders, t | EnoughRounds(l, stored, nows, orders, max, t) ::
      ExpiredIds(Drained(l, stored, nows, orders, max).1, t) == {}
  }

  /** Deleting what has expired always comes to its end exactly when the list may
      hold two entries. */
  lemma DrainsExact(max: int)
    ensures AlwaysDrains(max) <==> max >= 2
  {
    hide WalksAll, Drained;
    if max >= 2 {
      forall l, stored, nows, orders, t | EnoughRounds(l, stored, nows, orders, max, t)
        ensures ExpiredIds(Drained(l, stored, nows, orders, max).1, t) == {}
      {
        DrainEnds(l, stored, nows, orders, max, t);
      }
    } else {
      SomeStay(max);
    }
  }

  lemma SomeStay(max: int)
    requires max < 2
    ensures !AlwaysDrains(max)
  {
    hide WalksAll, Drained, PushedAll;
    var a, b := RetentionEntry("", "", "a", 1, 0, 0), RetentionEntry("", "", "b", 0, 0, 0);
    var stored: Stored := if max == 1 then map["a" := a, "b" := b] else map["a" := a];
    var order := if max == 1 then [a, b] else [a];
    var t := a.Deadline() + 1;
    var nows, orders := [t, t, t], [order, order, order];
    if max == 1 { OneNeverDrains(a, b, nows, orders); } else { ZeroNeverDrains(a, nows, orders, max); }
    assert "a" in ExpiredIds(stored, t);
    FewIds(ExpiredIds(stored, t), "a", "b");
    assert EnoughRounds([], stored, nows, orders, max, t);
  }

  lemma FewIds(s: set<Id>, x: Id, y: Id)
    requires s <= {x, y}
    ensures |s| <= 2
  {
    assert |{x, y}| == |s| + |{x, y} - s|;
    assert |{x, y}| <= 2;
  }
}
