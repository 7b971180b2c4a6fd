/** Tenants stay apart over all runs, also when the primary loses blobs or they
    are deleted while cache tasks are pending. */
module Isolation {
  import opened Blobs
  import opened SimpleFile
  import opened MainModel
  import opened MainInv
  import opened MainRuns
  import opened MainLaws

  /** A cache entry holds what the tenant it names has stored under the id, or
      no bytes at all. */
  predicate EntryApart(id: Id, e: (Desc, Bytes), hist: Histories) {
    var t := e.0.tenantID;
    t in hist && DescOk(e.0, id, t, hist[t]) && (e.1 == hist[t][id] || e.1 == "")
  }

  ghost predicate CacheApart(c: Cache, hist: Histories) {
    forall id | id in c :: EntryApart(id, c[id], hist)
  }

  ghost predicate Apart(s: System) {
    TenantsOk(s) && CacheApart(s.cache, s.hist)
  }

  /** The description of a cached blob is replaced although its bytes are not
      those that the tenant has stored under the id. */
  predicate Mixes(m: Main, h: History, a: Action)
    requires Legal(m, h, a)
  {
    a.Update? && Cached(m, a.b.blobID) && m.cch.value[a.b.blobID].1 !in {h[a.b.blobID], ""}
  }

  lemma WiderApart(c: Cache, hist: Histories, t: Tenant, h: History)
    requires CacheApart(c, hist) && t in hist && forall id | id in hist[t] :: id in h && h[id] == hist[t][id]
    ensures CacheApart(c, hist[t := h])
  {
  }

  lemma ReplacedApart(c: Cache, id: Id, e: (Desc, Bytes), hist: Histories)
    requires CacheApart(c, hist)
    ensures CacheApart(c[id := e], hist) <==> EntryApart(id, e, hist)
  {
    assert id in c[id := e];
  }

  lemma FillApart(s: System, t: Tenant, k: Task)
    requires TenantsOk(s) && t in s.mains && k in View(s, t).tasks && Fills(View(s, t), k).Some?
    ensures var b := Fills(View(s, t), k).value; EntryApart(b.blobID, (b, Piped(View(s, t).stg, b.blobID)), s.hist)
  {
    LegalView(s, t);
    FillDesc(s, t, k);
    hide Fills, DescOk;
  }

  /** An entry stays right when histories only grow. */
  lemma EntryWider(id: Id, e: (Desc, Bytes), hist: Histories, t: Tenant, h: History)
    requires EntryApart(id, e, hist) && t in hist && forall x | x in hist[t] :: x in h && h[x] == hist[t][x]
    ensures EntryApart(id, e, hist[t := h])
  {
  }

  /** One step of any tenant keeps the tenants apart exactly when it does not mix
      the description of one with the bytes of another. */
  lemma StepApart(s: System, t: Tenant, a: Action)
    requires Apart(s) && LegalStep(s, t, a)
    ensures Apart(Stepped(s, t, a)) <==> !Mixes(View(s, t), s.hist[t], a)
  {
    hide Acted, MainOk, EntryApart, Fills;
    var m, h := View(s, t), s.hist[t];
    var g := Stepped(s, t, a).hist;
    TenantsKept(s, t, a);
    LegalView(s, t);
    NoEmptyId(m, h);
    RecordedKeeps(m, h, a);
    WiderApart(s.cache, s.hist, t, Recorded(m, h, a));
    if m.cch.Some? {
      CacheEffect(m, a);
      var c := s.cache;
      if a.Run? && Fills(m, a.task).Some? {
        var b := Fills(m, a.task).value;
        FillApart(s, t, a.task);
        EntryWider(b.blobID, (b, Piped(m.stg, b.blobID)), s.hist, t, Recorded(m, h, a));
        ReplacedApart(c, b.blobID, (b, Piped(m.stg, b.blobID)), g);
      } else if a.Update? && a.b.blobID != "" && Cached(m, a.b.blobID) {
        UpdateApart(s, t, a);
        ReplacedApart(c, a.b.blobID, (a.b, c[a.b.blobID].1), g);
      }
    } else {
      assert Stepped(s, t, a).cache == s.cache;
    }
  }

  lemma UpdateApart(s: System, t: Tenant, a: Action)
    requires TenantsOk(s) && LegalStep(s, t, a) && a.Update? && Cached(View(s, t), a.b.blobID)
    ensures EntryApart(a.b.blobID, (a.b, View(s, t).cch.value[a.b.blobID].1), Stepped(s, t, a).hist)
            <==> !Mixes(View(s, t), s.hist[t], a)
  {
    hide Acted, MainOk;
    LegalView(s, t);
  }

  /** No step replaces the cached description of another tenant's blob. */
  ghost predicate OwnRun(s: System, steps: seq<Step>)
    requires LegalRun(s, steps)
    decreases |steps|
  {
    steps == []
    || (OwnUpdate(View(s, steps[0].0), steps[0].1) && OwnRun(Stepped(s, steps[0].0, steps[0].1), steps[1..]))
  }

  lemma OwnNeverMixes(s: System, t: Tenant, a: Action)
    requires Apart(s) && LegalStep(s, t, a) && OwnUpdate(View(s, t), a)
    ensures !Mixes(View(s, t), s.hist[t], a)
  {
    hide MainOk;
    LegalView(s, t);
    if a.Update? && Cached(View(s, t), a.b.blobID) { assert EntryApart(a.b.blobID, s.cache[a.b.blobID], s.hist); }
  }

  /** Any number of tenants and any interleaving of calls, background tasks,
      evictions, deletes and losses keeps the tenants apart. */
  lemma {:induction false} RunApart(s: System, steps: seq<Step>)
    requires Apart(s) && LegalRun(s, steps) && OwnRun(s, steps)
    ensures Apart(End(s, steps))
    decreases |steps|
  {
    hide Apart, OwnUpdate, Stepped, Legal, View;
    if steps != [] {
      OwnNeverMixes(s, steps[0].0, steps[0].1);
      StepApart(s, steps[0].0, steps[0].1);
      RunApart(Stepped(s, steps[0].0, steps[0].1), steps[1..]);
    }
  }

  /** After any such run no tenant is given other bytes than its own, and no
      other description. */
  lemma RunIsolated(s: System, steps: seq<Step>, t: Tenant, id: Id)
    requires Apart(s) && LegalRun(s, steps) && OwnRun(s, steps) && t in End(s, steps).mains && id != ""
    ensures var r := End(s, steps);
            && t in r.hist
            && (var bytes := Retrieved(View(r, t), id).1;
                bytes.Ok? && bytes.value != "" ==> id in r.hist[t] && bytes.value == r.hist[t][id])
            && (var d := Described(View(r, t), id).1; d.Ok? ==> DescOk(d.value, id, t, r.hist[t]))
  {
    hide Retrieved, Described, DescOk, View;
    RunApart(s, steps);
    OwnReads(End(s, steps), t, id);
  }

  lemma OwnReads(s: System, t: Tenant, id: Id)
    requires Apart(s) && t in s.mains && id != ""
    ensures t in s.hist
    ensures var bytes := Retrieved(View(s, t), id).1;
            bytes.Ok? && bytes.value != "" ==> id in s.hist[t] && bytes.value == s.hist[t][id]
    ensures var d := Described(View(s, t), id).1; d.Ok? ==> DescOk(d.value, id, t, s.hist[t])
  {
    LegalView(s, t);
    DescribedOk(View(s, t), id, s.hist[t]);
    if !OwnHit(View(s, t), id) { TierBytes(View(s, t), s.hist[t], id); }
    hide MainOk, Described;
    if OwnHit(View(s, t), id) { assert EntryApart(id, s.cache[id], s.hist); }
  }

  /** Without a hit, bytes come from primary or backup. */
  lemma TierBytes(m: Main, h: History, id: Id)
    requires MainOk(m, h) && !OwnHit(m, id)
    ensures var bytes := Retrieved(m, id).1; bytes.Ok? && bytes.value != "" ==> id in h && bytes.value == h[id]
  {
  }

  /** Nothing stored yet. */
  lemma StartApart(setups: map<Tenant, Main>)
    requires forall t | t in setups :: setups[t].tenant == t && setups[t].stg == EMPTY && setups[t].tasks == multiset{}
                                       && (setups[t].bck.Some? ==> setups[t].bck.value == EMPTY)
    ensures Apart(System(setups, map[], map t | t in setups :: map[]))
  {
    StartOk(setups);
  }
}
