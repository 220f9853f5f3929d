/**
  Retirement over the life of a deployment. One run loads the state, observes what it wrote,
  retires what has vanished if the guard lets it, and saves; it can die at any point, PATCHes
  can fail, saves can fail. The results below are about every sequence of such runs.
 */
module Retirement {
  import opened Sequences
  import opened SyncState
  import opened Wrappers
  import opened Writers

  /** The guard's fraction is the rational p/q. */
  datatype Policy = Policy(retireMissing: bool, deviceLimit: Option<nat>, dryRun: bool, p: nat, q: nat)

  /** One PATCH: the class table it goes through and the record it addresses. */
  datatype Patch = Patch(table: string, sysId: string)

  function PatchOf(e: Entry): Patch { Patch(if e.className != "" then e.className else "cmdb_ci_computer", e.sysId) }

  datatype PatchAnswer = Patched | Refused | Lost   // Lost: retries exhausted, the run ends

  predicate OverGuard(policy: Policy, missing: nat, known: nat) {
    missing * policy.q > policy.p * (if known == 0 then 1 else known)
  }

  /** The ids a run will PATCH, given the state after its writes and what Intune reports. */
  function Decision(policy: Policy, ds: Devices, current: set<string>): set<string> {
    var missing := Missing(ds, current);
    if !policy.retireMissing || policy.deviceLimit.Some? || |missing| == 0
       || OverGuard(policy, |missing|, |ds|) || policy.dryRun
    then {} else missing.Keys
  }

  // ---- One run, with its possible deaths ----------------------------------------

  /** How far the run got. Retiring(ids): it died with only these PATCHes sent. */
  datatype Fate = DiedBeforeRetiring | Retiring(sent: set<string>) | DiedBeforeSaving | SaveFailed | Saved

  datatype RunInput = RunInput(policy: Policy, readable: bool, emptyFetch: bool, current: set<string>,
                               results: seq<WriteResult>, sightings: seq<Sighting>,
                               answers: string -> PatchAnswer, fate: Fate)

  /** The results that are not errors and carry a sys_id. */
  function Telling(results: seq<WriteResult>): seq<WriteResult> {
    Filter(results, (w: WriteResult) => w.sysId != "" && !Reported(w.action).Error?)
  }

  /** The state learns exactly those, in their order. */
  ghost predicate Told(sightings: seq<Sighting>, results: seq<WriteResult>) {
    && |sightings| == |Telling(results)|
    && forall i | 0 <= i < |sightings| :: sightings[i].id == Telling(results)[i].intuneId && sightings[i].sysId == Telling(results)[i].sysId
  }

  lemma ToldMeans(sightings: seq<Sighting>, results: seq<WriteResult>)
    requires Told(sightings, results)
    ensures forall s | s in sightings :: exists w | w in results :: Tells(w, s.id, s.sysId)
    ensures forall w | w in results && Tells(w, w.intuneId, w.sysId) :: exists s | s in sightings :: s.id == w.intuneId && s.sysId == w.sysId
  {
    var p, told := (w: WriteResult) => w.sysId != "" && !Reported(w.action).Error?, Telling(results);
    forall s | s in sightings ensures exists w | w in results :: Tells(w, s.id, s.sysId) {
      var i :| 0 <= i < |sightings| && sightings[i] == s;
      FilterMember(results, p, told[i]);
      assert Tells(told[i], s.id, s.sysId);
    }
    forall w | w in results && Tells(w, w.intuneId, w.sysId) ensures exists s | s in sightings :: s.id == w.intuneId && s.sysId == w.sysId {
      FilterMember(results, p, w);
      var i :| 0 <= i < |told| && told[i] == w;
      assert sightings[i] in sightings;
    }
  }

  /** What SyncRun.Run guarantees of its own writes: fetched ids, and nothing remembered but what a writer reported. */
  ghost predicate WellFormed(r: RunInput) {
    && r.policy.p <= r.policy.q && r.policy.q > 0
    && Told(r.sightings, r.results) && forall s | s in r.sightings :: s.id in r.current
  }

  function Loaded(disk: Devices, r: RunInput): Devices { if r.readable then disk else map[] }

  function Known(disk: Devices, r: RunInput): Devices { ObservedAll(Loaded(disk, r), r.sightings) }

  /** The PATCHes the run sends, by id. An empty fetch ends the run first. */
  function Patches(disk: Devices, r: RunInput): map<string, Patch> {
    var known := Known(disk, r);
    if r.emptyFetch || r.fate.DiedBeforeRetiring? then map[]
    else
      var decision := Decision(r.policy, known, r.current);
      var sent := if r.fate.Retiring? then decision * r.fate.sent else decision;
      map id | id in sent && id in known :: PatchOf(known[id])
  }

  function Retired(disk: Devices, r: RunInput): set<string> {
    set id | id in Patches(disk, r) && r.answers(id).Patched?
  }

  /** The state file after the run. */
  function DiskAfterRun(disk: Devices, r: RunInput): Devices {
    if r.emptyFetch || r.policy.dryRun || !r.fate.Saved? then disk else Known(disk, r) - Retired(disk, r)
  }

  function DiskAfter(disk: Devices, rs: seq<RunInput>): Devices {
    if rs == [] then disk else DiskAfterRun(DiskAfter(disk, rs[..|rs| - 1]), rs[|rs| - 1])
  }

  // ---- What one run may retire -----------------------------------------------------

  /**
    Every PATCH is for an id the state file held, through the class and under the sys_id it
    held, absent from this fetch; and a run retires at most p/q of the devices it knows.
   */
  lemma PatchesAreJustified(disk: Devices, r: RunInput)
    requires WellFormed(r)
    ensures forall id | id in Patches(disk, r) ::
              && r.readable && id in disk && id !in r.current
              && Patches(disk, r)[id] == PatchOf(disk[id]) && disk[id].sysId != ""
    ensures |Patches(disk, r)| * r.policy.q <= r.policy.p * |Known(disk, r)|
  {
    forall id | id in Patches(disk, r)
      ensures r.readable && id in disk && id !in r.current && Patches(disk, r)[id] == PatchOf(disk[id]) && disk[id].sysId != ""
    {
      PatchIsJustified(disk, r, id);
    }
    PatchesAreFew(disk, r);
  }

  lemma PatchIsJustified(disk: Devices, r: RunInput, id: string)
    requires (forall s | s in r.sightings :: s.id in r.current) && id in Patches(disk, r)
    ensures r.readable && id in disk && id !in r.current && Patches(disk, r)[id] == PatchOf(disk[id]) && disk[id].sysId != ""
  {
    SightingsAreLocal(Loaded(disk, r), r.sightings, id);
  }

  lemma PatchesAreFew(disk: Devices, r: RunInput)
    ensures |Patches(disk, r)| * r.policy.q <= r.policy.p * |Known(disk, r)|
  {
    var patches, decision := Patches(disk, r), Decision(r.policy, Known(disk, r), r.current);
    assert patches.Keys <= decision;
    SubsetSize(patches.Keys, decision);
    assert |patches| == |patches.Keys|;
    DecisionIsSmall(r.policy, Known(disk, r), r.current);
    MulMonotone(|patches|, |decision|, r.policy.q);
  }

  lemma DecisionIsSmall(policy: Policy, ds: Devices, current: set<string>)
    ensures |Decision(policy, ds, current)| * policy.q <= policy.p * |ds|
  {
    var missing := Missing(ds, current);
    assert |missing| == |missing.Keys|;
    if Decision(policy, ds, current) != {} {
      var id :| id in missing;
      assert id in ds && ds != map[];
    }
  }

  lemma SubsetSize<T>(a: set<T>, b: set<T>)
    requires a <= b
    ensures |a| <= |b|
  {
    assert b == a + (b - a);
  }

  lemma MulMonotone(a: nat, b: nat, c: nat)
    requires a <= b
    ensures a * c <= b * c
  {}

  /** A corollary of the definitions: dry runs, limited runs, empty fetches and runs over the guard send nothing. */
  lemma QuietRuns(disk: Devices, r: RunInput)
    requires var known := Known(disk, r);
             r.policy.dryRun || r.policy.deviceLimit.Some? || !r.policy.retireMissing || r.emptyFetch
             || OverGuard(r.policy, |Missing(known, r.current)|, |known|)
    ensures Patches(disk, r) == map[]
    ensures r.policy.dryRun || r.emptyFetch ==> DiskAfterRun(disk, r) == disk
  {
    assert Patches(disk, r).Keys == {};
  }

  /** A PATCH that fails leaves its entry exactly as it was, for the next run to retry. */
  lemma FailedPatchKeepsEntry(disk: Devices, r: RunInput, id: string)
    requires WellFormed(r) && id in Patches(disk, r) && !r.answers(id).Patched?
    ensures id in disk && id in DiskAfterRun(disk, r) && DiskAfterRun(disk, r)[id] == disk[id]
  {
    PatchesAreJustified(disk, r);
    SightingsAreLocal(Loaded(disk, r), r.sightings, id);
  }

  /** A run forgets exactly what it retired, and nothing it did not PATCH. */
  lemma ForgetsOnlyRetired(disk: Devices, r: RunInput, id: string)
    requires WellFormed(r) && r.readable && id in disk
    ensures id !in DiskAfterRun(disk, r) ==> id in Patches(disk, r) && r.answers(id).Patched? && id !in r.current
  {
    PatchesAreJustified(disk, r);
    SightingsAreLocal(disk, r.sightings, id);
  }

  // ---- Draining over a history -------------------------------------------------------

  function Power(b: nat, e: nat): nat { if e == 0 then 1 else b * Power(b, e - 1) }

  /** The run read the state file, or leaves it alone. */
  predicate BuildsOnDisk(r: RunInput) { r.readable || r.emptyFetch || r.policy.dryRun || !r.fate.Saved? }

  ghost predicate SameFraction(rs: seq<RunInput>, p: nat, q: nat) {
    forall r | r in rs :: WellFormed(r) && BuildsOnDisk(r) && r.policy.p == p && r.policy.q == q
  }

  predicate Drains(disk: Devices, r: RunInput) {
    r.policy.q * |DiskAfterRun(disk, r)| >= (r.policy.q - r.policy.p) * |disk|
  }

  lemma OneRunDrain(disk: Devices, r: RunInput)
    requires WellFormed(r) && BuildsOnDisk(r)
    ensures Drains(disk, r)
  {
    if DiskAfterRun(disk, r) == disk {
      DrainArithmetic(r.policy.p, r.policy.q, |disk|, |disk|, 0);
    } else {
      SavedRunDrain(disk, r);
    }
  }

  /** n remembered devices. */
  function Fleet(n: nat): (ds: Devices)
    ensures |ds| == n && forall id | id in ds :: |id| < n
  {
    if n == 0 then map[] else Fleet(n - 1)[seq(n - 1, _ => 'x') := Entry("", "", "")]
  }

  /**
    A run keeps (q - p)/q of every state file iff it read the file or leaves it alone, or the
    fraction allows everything: a run that could not read it starts from nothing and its save
    replaces the file.
   */
  lemma DrainsIff(r: RunInput)
    requires WellFormed(r)
    ensures (forall disk :: Drains(disk, r)) <==> BuildsOnDisk(r) || r.policy.p == r.policy.q
  {
    if BuildsOnDisk(r) {
      forall disk ensures Drains(disk, r) { OneRunDrain(disk, r); }
    } else if r.policy.p == r.policy.q {
      forall disk ensures Drains(disk, r) { NothingToKeep(r.policy.q, |DiskAfterRun(disk, r)|, |disk|); }
    } else {
      var disk := UnreadableRunDrops(r);
    }
  }

  lemma UnreadableRunDrops(r: RunInput) returns (disk: Devices)
    requires !BuildsOnDisk(r) && r.policy.p < r.policy.q
    ensures !Drains(disk, r)
  {
    var left := |DiskAfterRun(map[], r)|;
    disk := SomeFleet(TooMany(r.policy.q, left));
    StartsFromNothing(disk, r);
    TooFewLeft(r.policy.q, r.policy.q - r.policy.p, |DiskAfterRun(disk, r)|, |disk|);
  }

  lemma SomeFleet(n: nat) returns (ds: Devices)
    ensures |ds| == n
  {
    ds := Fleet(n);
  }

  lemma StartsFromNothing(disk: Devices, r: RunInput)
    requires !BuildsOnDisk(r)
    ensures DiskAfterRun(disk, r) == DiskAfterRun(map[], r)
  {
    assert Known(disk, r) == Known(map[], r);
    assert Patches(disk, r) == Patches(map[], r);
  }

  lemma NothingToKeep(q: nat, m: nat, n: nat)
    ensures q * m >= 0 * n
  {}

  function TooMany(q: nat, left: nat): nat { q * left + 1 }

  lemma TooFewLeft(q: nat, d: nat, left: nat, n: nat)
    requires d >= 1 && n == TooMany(q, left)
    ensures q * left < d * n
  {
    assert d * n >= 1 * n by { MulMonotone(1, d, n); }
  }

  lemma SavedRunDrain(disk: Devices, r: RunInput)
    requires WellFormed(r) && r.readable
    ensures r.policy.q * |Known(disk, r) - Retired(disk, r)| >= (r.policy.q - r.policy.p) * |disk|
  {
    KnownGrows(disk, r);
    RetiredIsSmall(disk, r);
    MapMinus(Known(disk, r), Retired(disk, r));
    DrainArithmetic(r.policy.p, r.policy.q, |disk|, |Known(disk, r)|, |Retired(disk, r)|);
  }

  lemma KnownGrows(disk: Devices, r: RunInput)
    requires r.readable
    ensures |disk| <= |Known(disk, r)|
  {
    SightingsAreLocal(disk, r.sightings, "");
    SubsetSize(disk.Keys, Known(disk, r).Keys);
    assert |disk.Keys| == |disk| && |Known(disk, r).Keys| == |Known(disk, r)|;
  }

  lemma RetiredIsSmall(disk: Devices, r: RunInput)
    requires WellFormed(r)
    ensures Retired(disk, r) <= Known(disk, r).Keys && |Retired(disk, r)| * r.policy.q <= r.policy.p * |Known(disk, r)|
  {
    PatchesAreJustified(disk, r);
    SubsetSize(Retired(disk, r), Patches(disk, r).Keys);
    assert |Patches(disk, r).Keys| == |Patches(disk, r)|;
    MulMonotone(|Retired(disk, r)|, |Patches(disk, r)|, r.policy.q);
  }

  lemma MapMinus(m: Devices, ids: set<string>)
    requires ids <= m.Keys
    ensures |ids| <= |m| && |m - ids| == |m| - |ids|
  {
    assert m.Keys == (m - ids).Keys + ids && (m - ids).Keys !! ids;
    assert |m.Keys| == |m| && |(m - ids).Keys| == |m - ids|;
  }

  lemma DrainArithmetic(p: nat, q: nat, m: nat, n: nat, k: nat)
    requires p <= q && m <= n && k <= n && k * q <= p * n
    ensures q * (n - k) >= (q - p) * m
  {
    assert q * (n - k) == q * n - k * q;
    assert q * n - p * n == (q - p) * n;
    MulMonotone(m, n, q - p);
    assert (q - p) * m <= (q - p) * n by { assert m * (q - p) == (q - p) * m; assert n * (q - p) == (q - p) * n; }
  }

  /**
    However often it runs, and whatever fails on the way, k runs leave at least
    ((q - p) / q)^k of the devices the state file started with.
   */
  lemma {:induction false} DrainBound(disk: Devices, rs: seq<RunInput>, p: nat, q: nat)
    requires p <= q && q > 0 && SameFraction(rs, p, q)
    ensures Power(q, |rs|) * |DiskAfter(disk, rs)| >= Power(q - p, |rs|) * |disk|
  {
    if rs != [] {
      var front, r := rs[..|rs| - 1], rs[|rs| - 1];
      assert r in rs;
      DrainBound(disk, front, p, q);
      OneRunDrain(DiskAfter(disk, front), r);
      PowerStep(Power(q, |front|), Power(q - p, |front|), q, q - p, |disk|, |DiskAfter(disk, front)|, |DiskAfter(disk, rs)|);
    }
  }

  lemma PowerStep(a: nat, b: nat, q: nat, d: nat, m: nat, n: nat, n': nat)
    requires a * n >= b * m && q * n' >= d * n
    ensures (q * a) * n' >= (d * b) * m
  {
    assert (q * a) * n' == a * (q * n');
    MulMonotone(d * n, q * n', a);
    assert a * (q * n') >= a * (d * n) by { assert (q * n') * a == a * (q * n') && (d * n) * a == a * (d * n); }
    assert a * (d * n) == d * (a * n);
    MulMonotone(b * m, a * n, d);
    assert d * (a * n) >= d * (b * m) by { assert (a * n) * d == d * (a * n) && (b * m) * d == d * (b * m); }
    assert d * (b * m) == (d * b) * m;
  }

  // ---- Provenance ---------------------------------------------------------------------

  /** In these results id is told last under this sys_id. */
  ghost predicate LastTold(results: seq<WriteResult>, n: nat, id: string, sysId: string) {
    && n < |results| && Tells(results[n], id, sysId)
    && forall m | n < m < |results| :: !Tells(results[m], id, results[m].sysId)
  }

  /**
    Run j is the latest to have told the state file of id: it was not dry and saved, a writer
    answered it for id with this sys_id and no error, the last time it did; and whichever run
    saved since had read the file and was told nothing of id.
   */
  ghost predicate LatestTold(rs: seq<RunInput>, j: nat, id: string, sysId: string) {
    && j < |rs| && !rs[j].policy.dryRun && rs[j].fate.Saved? && !rs[j].emptyFetch
    && (exists n: nat :: LastTold(rs[j].results, n, id, sysId))
    && forall i | j < i < |rs| && !rs[i].policy.dryRun && rs[i].fate.Saved? && !rs[i].emptyFetch ::
         rs[i].readable && forall w | w in rs[i].results :: !Tells(w, id, w.sysId)
  }

  lemma StillLatest(rs: seq<RunInput>, r: RunInput, j: nat, id: string, sysId: string)
    requires LatestTold(rs, j, id, sysId)
    requires !r.policy.dryRun && r.fate.Saved? && !r.emptyFetch ==> r.readable && forall w | w in r.results :: !Tells(w, id, w.sysId)
    ensures LatestTold(rs + [r], j, id, sysId)
  {
    assert forall i | 0 <= i < |rs| :: (rs + [r])[i] == rs[i];
  }

  /** The last of the results that tell of an id is the last telling result of that id. */
  lemma {:induction false} LastTelling(results: seq<WriteResult>, i: nat, id: string) returns (n: nat)
    requires i < |Telling(results)| && Telling(results)[i].intuneId == id
    requires forall j | i < j < |Telling(results)| :: Telling(results)[j].intuneId != id
    ensures LastTold(results, n, id, Telling(results)[i].sysId)
  {
    var last := |results| - 1;
    var front, w := results[..last], results[last];
    assert results == front + [w];
    TellingSnoc(front, w);
    assert forall j | 0 <= j < |Telling(front)| :: Telling(results)[j] == Telling(front)[j];
    if i < |Telling(front)| {
      assert w.sysId != "" && !Reported(w.action).Error? ==> Telling(results)[|Telling(front)|] == w;
      n := LastTelling(front, i, id);
      StillLast(front, w, n, id, Telling(front)[i].sysId);
    } else {
      n := last;
    }
  }

  lemma StillLast(front: seq<WriteResult>, w: WriteResult, n: nat, id: string, sysId: string)
    requires LastTold(front, n, id, sysId) && !Tells(w, id, w.sysId)
    ensures LastTold(front + [w], n, id, sysId)
  {
    assert forall m | 0 <= m < |front| :: (front + [w])[m] == front[m];
  }

  lemma TellingSnoc(front: seq<WriteResult>, w: WriteResult)
    ensures Telling(front + [w]) == if w.sysId != "" && !Reported(w.action).Error? then Telling(front) + [w] else Telling(front)
  {
    var p := (w: WriteResult) => w.sysId != "" && !Reported(w.action).Error?;
    FilterConcat(front, [w], p);
    assert [w][1..] == [] && Filter([w], p) == (if p(w) then [w] else []) + [];
  }

  lemma ToldMore(ss: seq<Sighting>, s: Sighting, results: seq<WriteResult>, w: WriteResult)
    requires Told(ss, results)
    ensures w.sysId == "" || Reported(w.action).Error? ==> Told(ss, results + [w])
    ensures w.sysId != "" && !Reported(w.action).Error? && s.id == w.intuneId && s.sysId == w.sysId ==> Told(ss + [s], results + [w])
  {
    TellingSnoc(results, w);
  }

  /** What a run has seen of an id is what it was told of it last. */
  lemma SeenLast(ds: Devices, sightings: seq<Sighting>, results: seq<WriteResult>, id: string) returns (n: nat)
    requires Told(sightings, results) && exists s | s in sightings :: s.id == id
    ensures id in ObservedAll(ds, sightings) && LastTold(results, n, id, ObservedAll(ds, sightings)[id].sysId)
  {
    var i := LastSighting(sightings, id);
    var told, brings := Telling(results), (s: Sighting) => s.sysId != "";
    SightingsAreLocal(ds, sightings, id);
    FilterMember(results, (w: WriteResult) => w.sysId != "" && !Reported(w.action).Error?, told[i]);
    assert LastOf(sightings, i, id, brings);
    LastSightingWins(ds, sightings, id, i);
    n := LastTelling(results, i, id);
  }

  lemma {:induction false} LastSighting(ss: seq<Sighting>, id: string) returns (i: nat)
    requires exists s | s in ss :: s.id == id
    ensures i < |ss| && ss[i].id == id && forall j | i < j < |ss| :: ss[j].id != id
  {
    var last := |ss| - 1;
    if ss[last].id == id {
      i := last;
    } else {
      assert ss == ss[..last] + [ss[last]];
      i := LastSighting(ss[..last], id);
      assert forall j | 0 <= j < last :: ss[..last][j] == ss[j];
    }
  }

  lemma {:induction false} StateIsLatest(rs: seq<RunInput>, id: string) returns (j: nat)
    requires forall r | r in rs :: WellFormed(r)
    requires id in DiskAfter(map[], rs) && DiskAfter(map[], rs)[id].sysId != ""
    ensures LatestTold(rs, j, id, DiskAfter(map[], rs)[id].sysId)
  {
    var front, r := rs[..|rs| - 1], rs[|rs| - 1];
    assert rs == front + [r] && r in rs;
    var disk := DiskAfter(map[], front);
    if r.policy.dryRun || !r.fate.Saved? || r.emptyFetch {
      j := StateIsLatest(front, id);
      StillLatest(front, r, j, id, disk[id].sysId);
    } else {
      if s :| s in r.sightings && s.id == id {
        var n := SeenLast(Loaded(disk, r), r.sightings, r.results, id);
        j := |front|;
      } else {
        NotSeen(disk, r, id);
        j := StateIsLatest(front, id);
        StillLatest(front, r, j, id, disk[id].sysId);
      }
    }
  }

  lemma NotSeen(disk: Devices, r: RunInput, id: string)
    requires WellFormed(r) && (forall s | s in r.sightings :: s.id != id) && id in Known(disk, r) && Known(disk, r)[id].sysId != ""
    ensures r.readable && id in disk && disk[id] == Known(disk, r)[id]
    ensures forall w | w in r.results :: !Tells(w, id, w.sysId)
  {
    SightingsAreLocal(Loaded(disk, r), r.sightings, id);
    ToldMeans(r.sightings, r.results);
  }

  /**
    From an empty state file, over any history of crashes, failed PATCHes, failed saves and
    unreadable files: whatever run k PATCHes, it PATCHes under the sys_id that a writer reported
    last, without error, for that very id in the latest earlier run that was told of it, was not
    dry and saved; and the file has been read by whoever rewrote it since.
   */
  lemma {:induction false} Provenance(rs: seq<RunInput>, k: nat, id: string)
    requires k < |rs| && (forall r | r in rs :: WellFormed(r)) && id in Patches(DiskAfter(map[], rs[..k]), rs[k])
    ensures exists j: nat :: LatestTold(rs[..k], j, id, Patches(DiskAfter(map[], rs[..k]), rs[k])[id].sysId)
  {
    assert rs[k] in rs;
    PatchesAreJustified(DiskAfter(map[], rs[..k]), rs[k]);
    var j := StateIsLatest(rs[..k], id);
  }

  // ---- Exactly which PATCHes, and what is left --------------------------------------------

  /**
    A run that gets to retire, is neither dry nor limited and is to retire, PATCHes exactly the
    remembered devices with a sys_id that the fetch does not report, provided they are at most
    p/q of those known; each through its own class table, under its own sys_id.
   */
  lemma PatchesIff(disk: Devices, r: RunInput, id: string)
    requires !r.emptyFetch && (r.fate.DiedBeforeSaving? || r.fate.SaveFailed? || r.fate.Saved?)
    ensures var known := Known(disk, r);
            var gone := map i | i in known && i !in r.current && known[i].sysId != "" :: known[i];
            && (id in Patches(disk, r) <==>
                  && r.policy.retireMissing && r.policy.deviceLimit.None? && !r.policy.dryRun
                  && id in known && id !in r.current && known[id].sysId != ""
                  && |gone| * r.policy.q <= r.policy.p * |known|)
            && (id in Patches(disk, r) ==>
                  && Patches(disk, r)[id].sysId == known[id].sysId
                  && Patches(disk, r)[id].table == if known[id].className == "" then "cmdb_ci_computer" else known[id].className)
  {
    var known := Known(disk, r);
    var gone := map i | i in known && i !in r.current && known[i].sysId != "" :: known[i];
    assert gone == Missing(known, r.current);
    if id in gone {
      assert id in known.Keys && id in gone.Keys;
      assert |known| != 0 && |gone| != 0;
    }
  }

  /** What a run that saved leaves: what it knew, but for the devices whose PATCH was answered with success. */
  lemma LeavesIff(disk: Devices, r: RunInput, id: string)
    requires !r.emptyFetch && !r.policy.dryRun && r.fate.Saved?
    ensures id in DiskAfterRun(disk, r) <==> id in Known(disk, r) && !(id in Patches(disk, r) && r.answers(id) == Patched)
    ensures id in DiskAfterRun(disk, r) ==> DiskAfterRun(disk, r)[id] == Known(disk, r)[id]
  {}

  // ---- What the guard does not promise ---------------------------------------------------

  /** The run PATCHes, as vanished, a CI that it has just written under another id. */
  ghost predicate RetiresOwnWrite(disk: Devices, r: RunInput) {
    exists id, s | id in Patches(disk, r) && s in r.sightings :: Patches(disk, r)[id].sysId == s.sysId
  }

  /** A remembered id outside this run's writes that shares its CI with one of them. */
  ghost predicate Shares(disk: Devices, sightings: seq<Sighting>, id: string, s: Sighting) {
    id in disk && s in sightings && disk[id].sysId == s.sysId && forall t | t in sightings :: t.id != id
  }

  /** Checkable before retirement. */
  ghost predicate NoSharedCi(disk: Devices, sightings: seq<Sighting>) {
    forall id, s :: !Shares(disk, sightings, id, s)
  }

  /** Results that tell exactly these sightings. */
  function Writes(sightings: seq<Sighting>): seq<WriteResult> {
    seq(|sightings|, i requires 0 <= i < |sightings| => WriteResult(sightings[i].id, Wrote(Updated), sightings[i].sysId, false))
  }

  lemma {:induction false} WritesTell(sightings: seq<Sighting>)
    requires forall s | s in sightings :: s.sysId != ""
    ensures Told(sightings, Writes(sightings)) && Telling(Writes(sightings)) == Writes(sightings)
  {
    if sightings != [] {
      var n := |sightings| - 1;
      WritesTell(sightings[..n]);
      assert Writes(sightings) == Writes(sightings[..n]) + [Writes(sightings)[n]];
      TellingSnoc(Writes(sightings[..n]), Writes(sightings)[n]);
      assert sightings[n] in sightings;
    }
  }

  /**
    Retirement compares Intune ids only. So for a given state and set of writes, no fetch,
    fraction or fate makes a run retire a CI it has written exactly when no remembered id
    outside the writes shares its CI with one of them.
   */
  lemma OwnWritesSurviveIff(disk: Devices, sightings: seq<Sighting>)
    requires forall s | s in sightings :: s.sysId != ""
    ensures (forall r: RunInput | WellFormed(r) && r.sightings == sightings :: !RetiresOwnWrite(disk, r)) <==> NoSharedCi(disk, sightings)
  {
    if NoSharedCi(disk, sightings) {
      forall r: RunInput | WellFormed(r) && r.sightings == sightings ensures !RetiresOwnWrite(disk, r) {
        UnsharedIsSafe(disk, r);
      }
    } else {
      var id, s :| Shares(disk, sightings, id, s);
      RecklessIsWellFormed(sightings);
      SharedIsRetired(disk, sightings, id, s);
    }
  }

  lemma UnsharedIsSafe(disk: Devices, r: RunInput)
    requires WellFormed(r) && NoSharedCi(disk, r.sightings)
    ensures !RetiresOwnWrite(disk, r)
  {
    forall id, s | id in Patches(disk, r) && s in r.sightings ensures Patches(disk, r)[id].sysId != s.sysId {
      PatchIsJustified(disk, r, id);
      assert !Shares(disk, r.sightings, id, s);
    }
  }

  /** A run that writes these and retires whatever it may. */
  function Reckless(sightings: seq<Sighting>): RunInput {
    RunInput(Policy(true, None, false, 1, 1), true, false, set t | t in sightings :: t.id, Writes(sightings), sightings, _ => Patched, Saved)
  }

  lemma RecklessIsWellFormed(sightings: seq<Sighting>)
    requires forall s | s in sightings :: s.sysId != ""
    ensures WellFormed(Reckless(sightings)) && Reckless(sightings).sightings == sightings
  {
    WritesTell(sightings);
  }

  lemma SharedIsRetired(disk: Devices, sightings: seq<Sighting>, id: string, s: Sighting)
    requires Shares(disk, sightings, id, s) && s.sysId != ""
    ensures RetiresOwnWrite(disk, Reckless(sightings))
  {
    var r := Reckless(sightings);
    var known := Known(disk, r);
    SightingsAreLocal(disk, sightings, id);
    var missing := Missing(known, r.current);
    assert id in missing.Keys && missing.Keys <= known.Keys;
    SubsetSize(missing.Keys, known.Keys);
    SubsetSize({id}, missing.Keys);
    assert |missing| == |missing.Keys| && |known| == |known.Keys|;
    assert Decision(r.policy, known, r.current) == missing.Keys;
    assert id in Patches(disk, r) && Patches(disk, r)[id].sysId == s.sysId;
  }
}
