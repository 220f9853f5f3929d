/**
  One run of the connector: build a payload per kept device, hand the payloads to a writer in
  batches, account for every device, retire what has vanished, and save the state. What is
  proved of a run is that it loses no device on the way to its report, and that it is one of
  the runs whose histories Retirement reasons about.
 */
module SyncRun {
  import opened Sequences
  import opened SyncState
  import opened Wrappers
  import opened Writers
  import AbortGuard
  import DryRunPreview
  import IdentifyReconcile
  import Json
  import Retry
  import R = Retirement

  /** A kept device with what the mapper makes of it; "" where Python has None. */
  datatype Device = Device(id: string, name: string, serial: string, className: string, values: map<string, string>)

  // ---- The report --------------------------------------------------------------------

  class DeviceOutcome {
    const intuneId: string
    const deviceName: string
    const serialNumber: string
    const className: string
    var action: Action
    var ciSysId: string
    var message: bool
    var sentValues: Option<map<string, string>>

    constructor (intuneId: string, deviceName: string, serialNumber: string, className: string)
      ensures this.intuneId == intuneId && this.deviceName == deviceName && this.serialNumber == serialNumber
      ensures this.className == className && action == Pending && ciSysId == "" && !message && sentValues == None
    {
      this.intuneId, this.deviceName, this.serialNumber, this.className := intuneId, deviceName, serialNumber, className;
      action, ciSysId, message, sentValues := Pending, "", false, None;
    }
  }

  /** The action an outcome was last recorded with. */
  ghost function LastLogged<T>(keys: seq<T>, log: seq<Action>, k: T): Action
    requires |keys| == |log|
  {
    if keys == [] then Pending
    else if keys[|keys| - 1] == k then log[|log| - 1]
    else LastLogged(keys[..|keys| - 1], log[..|log| - 1], k)
  }

  ghost function Finals<T>(keys: seq<T>, log: seq<Action>): seq<Action>
    requires |keys| == |log|
  {
    seq(|keys|, i requires 0 <= i < |keys| => LastLogged(keys, log, keys[i]))
  }

  /** How often an action occurs. */
  ghost function Tally(log: seq<Action>, a: Action): nat {
    if log == [] then 0 else Tally(log[..|log| - 1], a) + if log[|log| - 1] == a then 1 else 0
  }

  class RunReport {
    var skippedNoClass: nat
    var skippedNoIdentifier: nat
    var inserted: nat
    var updated: nat
    var notChanged: nat
    var errors: nat
    var retired: nat
    var outcomes: seq<DeviceOutcome>
    /** How many times the run was declared degraded. */
    var degraded: nat
    /** The action each outcome had when it was recorded. */
    ghost var log: seq<Action>

    /** The counters count what was recorded, and nothing is recorded undecided. */
    ghost predicate Valid()
      reads `outcomes, `log, `inserted, `updated, `notChanged, `errors
    {
      && |log| == |outcomes| && Pending !in log
      && inserted == Tally(log, Inserted) && updated == Tally(log, Updated)
      && notChanged == Tally(log, Unchanged) && errors == Tally(log, Error)
    }

    /** Every recorded outcome still says what it said when it was last recorded. */
    ghost predicate Current()
      reads `outcomes, `log, outcomes
    {
      |log| == |outcomes| && forall o | o in outcomes :: o.action == LastLogged(outcomes, log, o)
    }

    constructor ()
      ensures Valid() && Current() && outcomes == [] && log == [] && degraded == 0 && retired == 0
      ensures skippedNoClass == 0 && skippedNoIdentifier == 0
    {
      skippedNoClass, skippedNoIdentifier, inserted, updated, notChanged, errors, retired := 0, 0, 0, 0, 0, 0, 0;
      outcomes, degraded, log := [], 0, [];
    }

    method Record(outcome: DeviceOutcome)
      requires Valid() && !outcome.action.Pending?
      modifies `inserted, `updated, `notChanged, `errors, `outcomes, `log
      ensures Valid() && outcomes == old(outcomes) + [outcome] && log == old(log) + [outcome.action]
    {
      outcomes := outcomes + [outcome];
      assert (log + [outcome.action])[..|log|] == log;
      log := log + [outcome.action];
      match outcome.action
      case Inserted => inserted := inserted + 1;
      case Updated => updated := updated + 1;
      case Unchanged => notChanged := notChanged + 1;
      case Error => errors := errors + 1;
      case _ =>
    }

    method Degrade()
      modifies `degraded
      ensures degraded == old(degraded) + 1
    {
      degraded := degraded + 1;
    }
  }

  /** Whatever was recorded: the four counters and the skips add up to the number of records. */
  lemma {:induction false} CountersPartition(log: seq<Action>)
    requires Pending !in log
    ensures Tally(log, Inserted) + Tally(log, Updated) + Tally(log, Unchanged) + Tally(log, Error) + Tally(log, Skipped) == |log|
  {
    if log != [] {
      var n := |log| - 1;
      assert log == log[..n] + [log[n]] && log[n] in log;
      CountersPartition(log[..n]);
    }
  }

  lemma {:induction false} DistinctFinals<T>(keys: seq<T>, log: seq<Action>, i: nat)
    requires |keys| == |log| && Distinct(keys) && i < |keys|
    ensures LastLogged(keys, log, keys[i]) == log[i]
  {
    if i < |keys| - 1 {
      DistinctFinals(keys[..|keys| - 1], log[..|log| - 1], i);
    }
  }

  /** One record marked Updated among Inserted ones: the witness that a shared key skews the count. */
  function OneUpdated(n: nat, j: nat): seq<Action> { seq(n, i => if i == j then Updated else Inserted) }

  lemma {:induction false} LastLoggedIs<T>(keys: seq<T>, log: seq<Action>, k: T, j: nat)
    requires |keys| == |log| && j < |keys| && keys[j] == k && forall n | j < n < |keys| :: keys[n] != k
    ensures LastLogged(keys, log, k) == log[j]
  {
    if j < |keys| - 1 {
      LastLoggedIs(keys[..|keys| - 1], log[..|log| - 1], k, j);
    }
  }

  lemma {:induction false} LastIndex<T>(keys: seq<T>, k: T, i: nat) returns (j: nat)
    requires i < |keys| && keys[i] == k
    ensures i <= j < |keys| && keys[j] == k && forall n | j < n < |keys| :: keys[n] != k
    decreases |keys| - i
  {
    if n: nat :| i < n < |keys| && keys[n] == k { j := LastIndex(keys, k, n); } else { j := i; }
  }

  lemma {:induction false} UpdatedOnce(n: nat, j: nat)
    ensures Tally(OneUpdated(n, j), Updated) == if j < n then 1 else 0
  {
    if n > 0 {
      assert OneUpdated(n, j)[..n - 1] == OneUpdated(n - 1, j);
      UpdatedOnce(n - 1, j);
    }
  }

  lemma {:induction false} TalliedAtLeast(log: seq<Action>, a: Action, at: set<nat>)
    requires forall i | i in at :: i < |log| && log[i] == a
    ensures Tally(log, a) >= |at|
  {
    if log == [] {
      assert at == {};
    } else {
      var n := |log| - 1;
      assert forall i | i in at - {n} :: i < n && log[..n][i] == a;
      TalliedAtLeast(log[..n], a, at - {n});
    }
  }

  ghost predicate SameTallies(a: seq<Action>, b: seq<Action>) { forall x :: Tally(a, x) == Tally(b, x) }

  /**
    The counters are the histogram of the final outcomes whatever the writer answers, exactly
    when no two of the devices sent share an id: a shared id is one outcome recorded twice.
   */
  lemma CountersExactIff<T>(keys: seq<T>)
    ensures (forall log: seq<Action> | |log| == |keys| :: SameTallies(log, Finals(keys, log))) <==> Distinct(keys)
  {
    if Distinct(keys) {
      forall log: seq<Action> | |log| == |keys| ensures SameTallies(log, Finals(keys, log)) {
        forall i: nat | i < |keys| ensures Finals(keys, log)[i] == log[i] { DistinctFinals(keys, log, i); }
        assert Finals(keys, log) == log;
      }
    } else {
      var i: nat, first: nat :| i < first < |keys| && keys[i] == keys[first];
      var j := LastIndex(keys, keys[i], first);
      var log := OneUpdated(|keys|, j);
      UpdatedOnce(|keys|, j);
      LastLoggedIs(keys, log, keys[i], j);
      TalliedAtLeast(Finals(keys, log), Updated, {i, j});
      assert Tally(log, Updated) != Tally(Finals(keys, log), Updated);
    }
  }

  // ---- Building the payloads -----------------------------------------------------------

  function Get(values: map<string, string>, k: string): string { if k in values then values[k] else "" }

  predicate Identifiable(values: map<string, string>) { Get(values, "serial_number") != "" || Get(values, "name") != "" }

  datatype Verdict = NoId | NoClass | NoIdentifier | Sent

  function VerdictOf(d: Device): Verdict {
    if d.id == "" then NoId else if d.className == "" then NoClass
    else if !Identifiable(d.values) then NoIdentifier else Sent
  }

  function Payload(d: Device): CiPayload { CiPayload(d.id, d.className, d.values, d.name, d.serial) }

  function Payloads(ds: seq<Device>): seq<CiPayload> {
    if ds == [] then []
    else Payloads(ds[..|ds| - 1]) + (if VerdictOf(ds[|ds| - 1]).Sent? then [Payload(ds[|ds| - 1])] else [])
  }

  function Ids(ds: seq<Device>): seq<string> { Map(ds, (d: Device) => d.id) }
  function PayloadIds(ps: seq<CiPayload>): seq<string> { Map(ps, (p: CiPayload) => p.intuneId) }
  function OutcomeIds(os: seq<DeviceOutcome>): seq<string> { Map(os, (o: DeviceOutcome) => o.intuneId) }

  /** The ids of the devices that are not sent. */
  function SkippedIds(ds: seq<Device>): seq<string> {
    if ds == [] then []
    else SkippedIds(ds[..|ds| - 1]) + (if VerdictOf(ds[|ds| - 1]).Sent? then [] else [ds[|ds| - 1].id])
  }

  function CountOf(ds: seq<Device>, v: Verdict): nat {
    if ds == [] then 0 else CountOf(ds[..|ds| - 1], v) + if VerdictOf(ds[|ds| - 1]) == v then 1 else 0
  }

  /** Nothing is sent that IRE could only create a duplicate for, or under a blank class or id. */
  lemma {:induction false} PayloadsAreIdentifiable(ds: seq<Device>)
    ensures forall p | p in Payloads(ds) ::
              Identifiable(p.values) && p.className != "" && p.intuneId != "" && exists d | d in ds ::
                p.intuneId == d.id && p.className == d.className && p.values == d.values && p.deviceName == d.name && p.serialNumber == d.serial
  {
    if ds != [] {
      var front, d := ds[..|ds| - 1], ds[|ds| - 1];
      assert ds == front + [d];
      PayloadsAreIdentifiable(front);
    }
  }

  /** The kept devices that are sent: those with an id, a class, and a serial number or a name among their values. */
  lemma {:induction false} SentAre(ds: seq<Device>)
    ensures Payloads(ds)
            == Map(Filter(ds, (d: Device) => d.id != "" && d.className != ""
                                             && (("serial_number" in d.values && d.values["serial_number"] != "")
                                                 || ("name" in d.values && d.values["name"] != ""))),
                   (d: Device) => CiPayload(d.id, d.className, d.values, d.name, d.serial))
  {
    var p := (d: Device) => d.id != "" && d.className != "" && (("serial_number" in d.values && d.values["serial_number"] != "")
                                                                || ("name" in d.values && d.values["name"] != ""));
    var f := (d: Device) => CiPayload(d.id, d.className, d.values, d.name, d.serial);
    if ds != [] {
      var front, d := ds[..|ds| - 1], ds[|ds| - 1];
      assert ds == front + [d];
      SentAre(front);
      assert Payloads(front) == Map(Filter(front, p), f);
      MapFilterSnoc(front, d, p, f);
    }
  }

  lemma MapFilterSnoc<T, U>(xs: seq<T>, x: T, p: T -> bool, f: T -> U)
    ensures Map(Filter(xs + [x], p), f) == Map(Filter(xs, p), f) + (if p(x) then [f(x)] else [])
  {
    FilterSnoc(xs, x, p);
    if p(x) { MapAppend(Filter(xs, p), x, f); }
  }

  lemma FilterSnoc<T>(xs: seq<T>, x: T, p: T -> bool)
    ensures Filter(xs + [x], p) == if p(x) then Filter(xs, p) + [x] else Filter(xs, p)
  {
    FilterConcat(xs, [x], p);
    assert [x][1..] == [] && Filter([x], p) == (if p(x) then [x] else []) + [];
  }

  /**
    The reasons, in their order: no class is for devices that have an id; no identifier is for
    devices without an id, and for those with an id and a class that have neither a serial
    number nor a name.
   */
  lemma {:induction false} SkipsAre(ds: seq<Device>)
    ensures CountOf(ds, NoClass) == |Filter(ds, (d: Device) => d.id != "" && d.className == "")|
    ensures CountOf(ds, NoId) + CountOf(ds, NoIdentifier)
            == |Filter(ds, (d: Device) => d.id == "" || (d.className != ""
                                                         && ("serial_number" in d.values ==> d.values["serial_number"] == "")
                                                         && ("name" in d.values ==> d.values["name"] == "")))|
  {
    var p := (d: Device) => d.id != "" && d.className == "";
    var q := (d: Device) => d.id == "" || (d.className != "" && ("serial_number" in d.values ==> d.values["serial_number"] == "")
                                           && ("name" in d.values ==> d.values["name"] == ""));
    if ds != [] {
      var front, d := ds[..|ds| - 1], ds[|ds| - 1];
      assert ds == front + [d];
      SkipsAre(front);
      FilterSnoc(front, d, p);
      FilterSnoc(front, d, q);
      assert CountOf(front, NoClass) == |Filter(front, p)| && CountOf(front, NoId) + CountOf(front, NoIdentifier) == |Filter(front, q)|;
    }
  }

  /** The index built beside the payloads: each id sent leads to an outcome of that id. */
  ghost predicate IndexOf(index: map<string, DeviceOutcome>, ps: seq<CiPayload>) {
    && (forall p | p in ps :: p.intuneId in index)
    && (forall id | id in index :: index[id].intuneId == id && exists p | p in ps :: p.intuneId == id)
  }

  /** Each outcome of the index has the name and class of a payload of its id. */
  ghost predicate Labelled(index: map<string, DeviceOutcome>, ps: seq<CiPayload>)
  {
    forall id | id in index :: Labels(index[id], id, ps)
  }

  ghost predicate Labels(o: DeviceOutcome, id: string, ps: seq<CiPayload>)
  {
    exists p | p in ps :: p.intuneId == id && p.deviceName == o.deviceName && p.className == o.className
  }

  lemma MapAppend<T, U>(xs: seq<T>, x: T, f: T -> U)
    ensures Map(xs + [x], f) == Map(xs, f) + [f(x)]
  {}

  /** Every device seen is either sent or skipped for the first reason that applies to it. */
  ghost predicate Tallied(ds: seq<Device>, ps: seq<CiPayload>, skipped: seq<string>, noClass: nat, noIdentifier: nat) {
    && ps == Payloads(ds) && skipped == SkippedIds(ds)
    && noClass == CountOf(ds, NoClass) && noIdentifier == CountOf(ds, NoId) + CountOf(ds, NoIdentifier)
  }

  lemma AppendCounts(xs: seq<string>, x: string)
    ensures multiset(xs + [x]) == multiset(xs) + multiset{x}
  {}

  lemma SkippedGrows(front: seq<Device>, d: Device)
    ensures multiset(SkippedIds(front + [d])) == multiset(SkippedIds(front)) + if VerdictOf(d).Sent? then multiset{} else multiset{d.id}
    ensures |SkippedIds(front + [d])| == |SkippedIds(front)| + if VerdictOf(d).Sent? then 0 else 1
    ensures forall v :: CountOf(front + [d], v) == CountOf(front, v) + if VerdictOf(d) == v then 1 else 0
  {
    assert (front + [d])[..|front|] == front;
    AppendCounts(SkippedIds(front), d.id);
    assert SkippedIds(front) + [] == SkippedIds(front);
  }

  lemma SentGrows(front: seq<Device>, d: Device)
    ensures multiset(PayloadIds(Payloads(front + [d])))
            == multiset(PayloadIds(Payloads(front))) + if VerdictOf(d).Sent? then multiset{d.id} else multiset{}
  {
    assert (front + [d])[..|front|] == front;
    assert Payloads(front) + [] == Payloads(front);
    MapAppend(Payloads(front), Payload(d), (p: CiPayload) => p.intuneId);
    AppendCounts(PayloadIds(Payloads(front)), d.id);
  }

  /** No device falls between being sent and being skipped, and none is both. */
  lemma {:induction false} SentOrSkipped(ds: seq<Device>)
    ensures multiset(SkippedIds(ds)) + multiset(PayloadIds(Payloads(ds))) == multiset(Ids(ds))
    ensures |SkippedIds(ds)| == CountOf(ds, NoId) + CountOf(ds, NoClass) + CountOf(ds, NoIdentifier)
  {
    if ds != [] {
      var front, d := ds[..|ds| - 1], ds[|ds| - 1];
      assert ds == front + [d];
      SentOrSkipped(front);
      SkippedGrows(front, d);
      SentGrows(front, d);
      MapAppend(front, d, (d: Device) => d.id);
      AppendCounts(Ids(front), d.id);
    }
  }

  /** So far only skips are recorded, each once, and none of them is waiting for a writer. */
  ghost predicate OnlySkips(report: RunReport, index: map<string, DeviceOutcome>)
    reads report, report.outcomes
  {
    && report.Valid() && report.degraded == 0 && Distinct(report.outcomes)
    && (forall a | a in report.log :: a == Skipped)
    && (forall o | o in report.outcomes :: o.action == Skipped && o !in index.Values)
  }

  lemma OneMoreDevice(ds: seq<Device>, d: Device, ps: seq<CiPayload>, skipped: seq<string>, noClass: nat, noIdentifier: nat)
    requires Tallied(ds, ps, skipped, noClass, noIdentifier)
    ensures match VerdictOf(d)
            case NoId => Tallied(ds + [d], ps, skipped + [d.id], noClass, noIdentifier + 1)
            case NoClass => Tallied(ds + [d], ps, skipped + [d.id], noClass + 1, noIdentifier)
            case NoIdentifier => Tallied(ds + [d], ps, skipped + [d.id], noClass, noIdentifier + 1)
            case Sent => Tallied(ds + [d], ps + [Payload(d)], skipped, noClass, noIdentifier)
  {
    assert (ds + [d])[..|ds|] == ds && (ds + [d])[|ds|] == d;
    assert ps + [] == ps && skipped + [] == skipped;
  }

  /** Account for a device that is not sent. */
  method Skip(device: Device, outcome: DeviceOutcome, ghost index: map<string, DeviceOutcome>, report: RunReport)
    requires OnlySkips(report, index) && !VerdictOf(device).Sent?
    requires outcome.intuneId == device.id && outcome !in index.Values && outcome !in report.outcomes
    modifies report, outcome
    ensures OnlySkips(report, index) && OutcomeIds(report.outcomes) == OutcomeIds(old(report.outcomes)) + [device.id]
    ensures report.outcomes == old(report.outcomes) + [outcome]
    ensures report.skippedNoClass == old(report.skippedNoClass) + if VerdictOf(device).NoClass? then 1 else 0
    ensures report.skippedNoIdentifier == old(report.skippedNoIdentifier) + if VerdictOf(device).NoClass? then 0 else 1
  {
    outcome.action, outcome.message := Skipped, true;
    if device.id != "" && device.className == "" {
      report.skippedNoClass := report.skippedNoClass + 1;
    } else {
      report.skippedNoIdentifier := report.skippedNoIdentifier + 1;
    }
    report.Record(outcome);
    MapAppend(old(report.outcomes), outcome, (o: DeviceOutcome) => o.intuneId);
  }

  lemma IndexGrows(index: map<string, DeviceOutcome>, ps: seq<CiPayload>, p: CiPayload, outcome: DeviceOutcome)
    requires IndexOf(index, ps) && outcome.intuneId == p.intuneId
    ensures IndexOf(index[p.intuneId := outcome], ps + [p])
  {
    assert (ps + [p])[|ps|] == p;
    assert forall x | x in ps :: x in ps + [p];
  }

  lemma LabelsGrow(index: map<string, DeviceOutcome>, ps: seq<CiPayload>, p: CiPayload, outcome: DeviceOutcome)
    requires Labelled(index, ps) && outcome.deviceName == p.deviceName && outcome.className == p.className
    ensures Labelled(index[p.intuneId := outcome], ps + [p])
  {
    var grown := index[p.intuneId := outcome];
    forall id | id in grown ensures Labels(grown[id], id, ps + [p]) {
      if id == p.intuneId {
        assert p in ps + [p];
      } else {
        assert Labels(index[id], id, ps);
      }
    }
  }

  lemma SentOneMore(before: seq<Device>, device: Device, ps: seq<CiPayload>, index: map<string, DeviceOutcome>,
                    outcome: DeviceOutcome, report: RunReport)
    requires Tallied(before, ps, OutcomeIds(report.outcomes), report.skippedNoClass, report.skippedNoIdentifier)
    requires OnlySkips(report, index) && IndexOf(index, ps) && VerdictOf(device).Sent?
    requires outcome.intuneId == device.id && outcome !in report.outcomes
    ensures Tallied(before + [device], ps + [Payload(device)], OutcomeIds(report.outcomes), report.skippedNoClass, report.skippedNoIdentifier)
    ensures OnlySkips(report, index[device.id := outcome]) && IndexOf(index[device.id := outcome], ps + [Payload(device)])
    ensures forall o | o in index[device.id := outcome].Values :: o in index.Values || o == outcome
  {
    OneMoreDevice(before, device, ps, OutcomeIds(report.outcomes), report.skippedNoClass, report.skippedNoIdentifier);
    IndexGrows(index, ps, Payload(device), outcome);
    NotYetRecorded(report, index, device.id, outcome);
  }

  /** One turn of the loop over the kept devices. */
  method BuildPayload(ghost before: seq<Device>, device: Device, payloads0: seq<CiPayload>, index0: map<string, DeviceOutcome>, report: RunReport)
    returns (payloads: seq<CiPayload>, index: map<string, DeviceOutcome>)
    requires Tallied(before, payloads0, OutcomeIds(report.outcomes), report.skippedNoClass, report.skippedNoIdentifier)
    requires OnlySkips(report, index0) && IndexOf(index0, payloads0) && Labelled(index0, payloads0)
    modifies report
    ensures Tallied(before + [device], payloads, OutcomeIds(report.outcomes), report.skippedNoClass, report.skippedNoIdentifier)
    ensures OnlySkips(report, index) && IndexOf(index, payloads) && Labelled(index, payloads)
    ensures forall o | o in report.outcomes :: o in old(report.outcomes) || fresh(o)
    ensures forall o | o in index.Values :: o in index0.Values || fresh(o)
  {
    if device.id == "" || device.className == "" || !Identifiable(device.values) {
      SkipDevice(before, device, payloads0, index0, report);
      payloads, index := payloads0, index0;
    } else {
      var outcome := new DeviceOutcome(device.id, device.name, device.serial, device.className);
      outcome.sentValues := Some(device.values);
      SentOneMore(before, device, payloads0, index0, outcome, report);
      LabelsGrow(index0, payloads0, Payload(device), outcome);
      payloads, index := payloads0 + [Payload(device)], index0[device.id := outcome];
    }
  }

  method SkipDevice(ghost before: seq<Device>, device: Device, ghost ps: seq<CiPayload>, ghost index: map<string, DeviceOutcome>, report: RunReport)
    requires Tallied(before, ps, OutcomeIds(report.outcomes), report.skippedNoClass, report.skippedNoIdentifier)
    requires OnlySkips(report, index) && !VerdictOf(device).Sent?
    modifies report
    ensures Tallied(before + [device], ps, OutcomeIds(report.outcomes), report.skippedNoClass, report.skippedNoIdentifier)
    ensures OnlySkips(report, index)
    ensures forall o | o in report.outcomes :: o in old(report.outcomes) || fresh(o)
  {
    var outcome := new DeviceOutcome(device.id, device.name, device.serial, if device.id == "" then "" else device.className);
    OneMoreDevice(before, device, ps, OutcomeIds(report.outcomes), report.skippedNoClass, report.skippedNoIdentifier);
    Skip(device, outcome, index, report);
  }

  lemma NotYetRecorded(report: RunReport, index: map<string, DeviceOutcome>, id: string, outcome: DeviceOutcome)
    requires OnlySkips(report, index) && outcome !in report.outcomes
    ensures OnlySkips(report, index[id := outcome])
    ensures index[id := outcome].Values <= index.Values + {outcome}
  {}

  method BuildPayloads(devices: seq<Device>, report: RunReport)
    returns (payloads: seq<CiPayload>, index: map<string, DeviceOutcome>)
    requires OnlySkips(report, map[]) && report.outcomes == []
    requires report.skippedNoClass == 0 && report.skippedNoIdentifier == 0
    modifies report
    ensures Tallied(devices, payloads, OutcomeIds(report.outcomes), report.skippedNoClass, report.skippedNoIdentifier)
    ensures OnlySkips(report, index) && IndexOf(index, payloads) && Labelled(index, payloads)
    ensures (forall o | o in report.outcomes :: fresh(o)) && forall o | o in index.Values :: fresh(o)
  {
    payloads, index := [], map[];
    for n := 0 to |devices|
      invariant Tallied(devices[..n], payloads, OutcomeIds(report.outcomes), report.skippedNoClass, report.skippedNoIdentifier)
      invariant OnlySkips(report, index) && IndexOf(index, payloads) && Labelled(index, payloads)
      invariant (forall o | o in report.outcomes :: fresh(o)) && forall o | o in index.Values :: fresh(o)
    {
      assert devices[..n + 1] == devices[..n] + [devices[n]];
      payloads, index := BuildPayload(devices[..n], devices[n], payloads, index, report);
    }
    assert devices[..|devices|] == devices;
  }

  // ---- Writing -----------------------------------------------------------------------------

  /** The outcomes a list of results is recorded on, in order; results for ids not sent land nowhere. */
  ghost function Landed(rs: seq<WriteResult>, index: map<string, DeviceOutcome>): seq<DeviceOutcome> {
    if rs == [] then []
    else
      var before, r := Landed(rs[..|rs| - 1], index), rs[|rs| - 1];
      if r.intuneId in index then before + [index[r.intuneId]] else before
  }

  ghost function Logged(rs: seq<WriteResult>, index: map<string, DeviceOutcome>): seq<Action> {
    if rs == [] then []
    else
      var before, r := Logged(rs[..|rs| - 1], index), rs[|rs| - 1];
      if r.intuneId in index then before + [Reported(r.action)] else before
  }

  /** What the state learns: every device that has a sys_id and is not an error. */
  ghost function Seen(rs: seq<WriteResult>, index: map<string, DeviceOutcome>): seq<Sighting>
  {
    if rs == [] then []
    else
      var before, r := Seen(rs[..|rs| - 1], index), rs[|rs| - 1];
      if r.intuneId in index && r.sysId != "" && !Reported(r.action).Error?
      then before + [Sighting(r.intuneId, r.sysId, index[r.intuneId].deviceName, index[r.intuneId].className)]
      else before
  }

  /** A batch that fails as a whole counts as a failure of each of its items. */
  function Effective(batch: seq<CiPayload>, reply: Option<seq<WriteResult>>): seq<WriteResult> {
    if reply.Some? then reply.value else seq(|batch|, i requires 0 <= i < |batch| => Failure(batch[i]))
  }

  lemma FailuresSeen(batch: seq<CiPayload>, index: map<string, DeviceOutcome>, n: nat)
    requires n <= |batch|
    ensures Seen(Effective(batch, None)[..n], index) == []
  {
    if n > 0 {
      assert Effective(batch, None)[..n][..n - 1] == Effective(batch, None)[..n - 1];
      FailuresSeen(batch, index, n - 1);
    }
  }

  /** outcomes and log after some results: those of before, then where the results land. */
  ghost predicate TookIn(report: RunReport, os: seq<DeviceOutcome>, log: seq<Action>, rs: seq<WriteResult>, index: map<string, DeviceOutcome>)
    reads report, report.outcomes
  {
    report.Valid() && report.Current()
    && report.outcomes == os + Landed(rs, index) && report.log == log + Logged(rs, index)
  }

  lemma LandedOneMore(rs: seq<WriteResult>, r: WriteResult, index: map<string, DeviceOutcome>)
    ensures Landed(rs + [r], index) == Landed(rs, index) + if r.intuneId in index then [index[r.intuneId]] else []
    ensures Logged(rs + [r], index) == Logged(rs, index) + if r.intuneId in index then [Reported(r.action)] else []
  {
    assert (rs + [r])[..|rs|] == rs;
  }

  lemma SeenOneMore(rs: seq<WriteResult>, r: WriteResult, index: map<string, DeviceOutcome>)
    ensures Seen(rs + [r], index) == Seen(rs, index) + if r.intuneId in index && r.sysId != "" && !Reported(r.action).Error?
                 then [Sighting(r.intuneId, r.sysId, index[r.intuneId].deviceName, index[r.intuneId].className)] else []
  {
    assert (rs + [r])[..|rs|] == rs;
  }

  lemma LandedNext(os: seq<DeviceOutcome>, log: seq<Action>, rs: seq<WriteResult>, r: WriteResult, index: map<string, DeviceOutcome>)
    requires r.intuneId in index
    ensures (os + Landed(rs, index)) + [index[r.intuneId]] == os + Landed(rs + [r], index)
    ensures (log + Logged(rs, index)) + [Reported(r.action)] == log + Logged(rs + [r], index)
  {
    LandedOneMore(rs, r, index);
    ConcatAssociates(os, Landed(rs, index), [index[r.intuneId]]);
    ConcatAssociates(log, Logged(rs, index), [Reported(r.action)]);
  }

  /** The state after one more result: it remembers a device only once it is in the CMDB under a sys_id. */
  function Learned(ds: Devices, r: WriteResult, name: string, className: string): Devices {
    if r.sysId == "" || Reported(r.action).Error? then ds else Observed(ds, Sighting(r.intuneId, r.sysId, name, className))
  }

  lemma SeenNext(ds: Devices, rs: seq<WriteResult>, r: WriteResult, index: map<string, DeviceOutcome>)
    requires r.intuneId in index
    ensures ObservedAll(ds, Seen(rs + [r], index))
            == Learned(ObservedAll(ds, Seen(rs, index)), r, index[r.intuneId].deviceName, index[r.intuneId].className)
  {
    SeenOneMore(rs, r, index);
    if r.sysId == "" || Reported(r.action).Error? {
      assert Seen(rs, index) + [] == Seen(rs, index);
    } else {
      ObservedNext(ds, Seen(rs, index), Sighting(r.intuneId, r.sysId, index[r.intuneId].deviceName, index[r.intuneId].className));
    }
  }

  lemma ObservedNext(ds: Devices, seen: seq<Sighting>, s: Sighting)
    ensures ObservedAll(ds, seen + [s]) == Observed(ObservedAll(ds, seen), s)
  {
    assert (seen + [s])[..|seen|] == seen;
  }

  method RecordAs(outcome: DeviceOutcome, action: Action, report: RunReport)
    requires report.Valid() && report.Current() && !action.Pending?
    modifies report`inserted, report`updated, report`notChanged, report`errors, report`outcomes, report`log, outcome`action
    ensures report.Valid() && report.Current() && outcome.action == action
    ensures report.outcomes == old(report.outcomes) + [outcome] && report.log == old(report.log) + [action]
  {
    outcome.action := action;
    report.Record(outcome);
    CurrentKept(report, old(report.outcomes), old(report.log), outcome, action);
  }

  lemma CurrentKept(report: RunReport, os: seq<DeviceOutcome>, log: seq<Action>, outcome: DeviceOutcome, action: Action)
    requires |os| == |log| && report.outcomes == os + [outcome] && report.log == log + [action] && outcome.action == action
    requires forall o | o in os && o != outcome :: o.action == LastLogged(os, log, o)
    ensures report.Current()
  {
    assert (os + [outcome])[..|os|] == os && (log + [action])[..|log|] == log;
  }

  method RecordFailures(batch: seq<CiPayload>, index: map<string, DeviceOutcome>, report: RunReport)
    requires report.Valid() && report.Current() && forall p | p in batch :: p.intuneId in index
    modifies report`inserted, report`updated, report`notChanged, report`errors, report`outcomes, report`log
    modifies index.Values`action, index.Values`message
    ensures TookIn(report, old(report.outcomes), old(report.log), Effective(batch, None), index)
  {
    ghost var all := Effective(batch, None);
    ghost var os, log := report.outcomes, report.log;
    assert os + [] == os && log + [] == log;
    for n := 0 to |batch|
      invariant TookIn(report, os, log, all[..n], index)
    {
      TakeOneMore(all, n);
      LandedNext(os, log, all[..n], all[n], index);
      var failed := index[batch[n].intuneId];
      failed.message := true;
      RecordAs(failed, Error, report);
    }
    assert all[..|batch|] == all;
  }

  /** One result onto the outcome it is for. */
  method RecordResult(result: WriteResult, outcome: DeviceOutcome, report: RunReport, state: State)
    requires report.Valid() && report.Current() && InVocabulary(result.action)
    modifies report`inserted, report`updated, report`notChanged, report`errors, report`outcomes, report`log, state
    modifies outcome`action, outcome`message, outcome`ciSysId
    ensures report.Valid() && report.Current()
    ensures report.outcomes == old(report.outcomes) + [outcome] && report.log == old(report.log) + [Reported(result.action)]
    ensures state.devices == Learned(old(state.devices), result, outcome.deviceName, outcome.className)
    ensures outcome.ciSysId == result.sysId && outcome.action == Reported(result.action)
  {
    outcome.ciSysId := result.sysId;
    outcome.message := outcome.message || result.message || result.action.DryRun?;
    RecordAs(outcome, Reported(result.action), report);
    if result.sysId != "" && outcome.action != Error {
      state.Observe(Sighting(result.intuneId, result.sysId, outcome.deviceName, outcome.className));
    }
  }

  /** The CI an outcome points at: that of the last result for its id. */
  function SysIdAfter(rs: seq<WriteResult>, id: string, was: string): string {
    if rs == [] then was
    else if rs[|rs| - 1].intuneId == id then rs[|rs| - 1].sysId
    else SysIdAfter(rs[..|rs| - 1], id, was)
  }

  /** Every outcome points at the CI of the last result for its id. */
  ghost predicate PointsTo(index: map<string, DeviceOutcome>, rs: seq<WriteResult>, was: map<string, string>)
    reads index.Values`ciSysId
  {
    forall id | id in index && id in was :: index[id].ciSysId == SysIdAfter(rs, id, was[id])
  }

  lemma PointsToNext(index: map<string, DeviceOutcome>, rs: seq<WriteResult>, r: WriteResult, was: map<string, string>, id: string)
    ensures SysIdAfter(rs + [r], id, if id in was then was[id] else "")
            == if r.intuneId == id then r.sysId else SysIdAfter(rs, id, if id in was then was[id] else "")
  {
    assert (rs + [r])[..|rs|] == rs;
  }

  lemma ResultIgnored(report: RunReport, os: seq<DeviceOutcome>, log: seq<Action>, rs: seq<WriteResult>, r: WriteResult,
                      index: map<string, DeviceOutcome>)
    requires r.intuneId !in index && TookIn(report, os, log, rs, index)
    ensures TookIn(report, os, log, rs + [r], index) && Seen(rs + [r], index) == Seen(rs, index)
  {
    LandedOneMore(rs, r, index);
    SeenOneMore(rs, r, index);
    assert Landed(rs, index) + [] == Landed(rs, index) && Logged(rs, index) + [] == Logged(rs, index);
  }

  /** Results for ids that were not sent are ignored. */
  method RecordNext(result: WriteResult, index: map<string, DeviceOutcome>, report: RunReport, state: State, ghost os: seq<DeviceOutcome>,
                    ghost log: seq<Action>, ghost ds: Devices, ghost rs: seq<WriteResult>, ghost was: map<string, string>)
    requires TookIn(report, os, log, rs, index) && InVocabulary(result.action) && PointsTo(index, rs, was)
    requires state.devices == ObservedAll(ds, Seen(rs, index)) && forall id | id in index :: index[id].intuneId == id
    modifies report`inserted, report`updated, report`notChanged, report`errors, report`outcomes, report`log
    modifies state, index.Values`action, index.Values`message, index.Values`ciSysId
    ensures TookIn(report, os, log, rs + [result], index) && PointsTo(index, rs + [result], was)
    ensures state.devices == ObservedAll(ds, Seen(rs + [result], index))
  {
    forall id ensures SysIdAfter(rs + [result], id, if id in was then was[id] else "")
                      == if result.intuneId == id then result.sysId else SysIdAfter(rs, id, if id in was then was[id] else "")
    {
      PointsToNext(index, rs, result, was, id);
    }
    if result.intuneId in index {
      RecordKnown(result, index[result.intuneId], index, report, state, os, log, ds, rs);
    } else {
      ResultIgnored(report, os, log, rs, result, index);
    }
  }

  method RecordKnown(result: WriteResult, outcome: DeviceOutcome, ghost index: map<string, DeviceOutcome>, report: RunReport, state: State,
                     ghost os: seq<DeviceOutcome>, ghost log: seq<Action>, ghost ds: Devices, ghost rs: seq<WriteResult>)
    requires TookIn(report, os, log, rs, index) && InVocabulary(result.action)
    requires result.intuneId in index && outcome == index[result.intuneId]
    requires state.devices == ObservedAll(ds, Seen(rs, index))
    modifies report`inserted, report`updated, report`notChanged, report`errors, report`outcomes, report`log, state
    modifies outcome`action, outcome`message, outcome`ciSysId
    ensures TookIn(report, os, log, rs + [result], index)
    ensures state.devices == ObservedAll(ds, Seen(rs + [result], index))
    ensures outcome.ciSysId == result.sysId
  {
    LandedNext(os, log, rs, result, index);
    SeenNext(ds, rs, result, index);
    RecordResult(result, outcome, report, state);
  }

  method RecordResults(results: seq<WriteResult>, index: map<string, DeviceOutcome>, report: RunReport, state: State,
                       ghost was: map<string, string>)
    requires report.Valid() && report.Current() && forall r | r in results :: InVocabulary(r.action)
    requires PointsTo(index, [], was) && forall id | id in index :: index[id].intuneId == id
    modifies report`inserted, report`updated, report`notChanged, report`errors, report`outcomes, report`log
    modifies state, index.Values`action, index.Values`message, index.Values`ciSysId
    ensures TookIn(report, old(report.outcomes), old(report.log), results, index) && PointsTo(index, results, was)
    ensures state.devices == ObservedAll(old(state.devices), Seen(results, index))
  {
    ghost var os, log, ds := report.outcomes, report.log, state.devices;
    assert os + [] == os && log + [] == log && results[..0] == [];
    for n := 0 to |results|
      invariant TookIn(report, os, log, results[..n], index) && PointsTo(index, results[..n], was)
      invariant state.devices == ObservedAll(ds, Seen(results[..n], index))
    {
      TakeOneMore(results, n);
      RecordNext(results[n], index, report, state, os, log, ds, results[..n], was);
    }
    assert results[..|results|] == results;
  }

  ghost function SysIds(index: map<string, DeviceOutcome>): map<string, string>
    reads index.Values`ciSysId
  {
    map id | id in index :: index[id].ciSysId
  }

  method WriteBatch(batch: seq<CiPayload>, reply: Option<seq<WriteResult>>, index: map<string, DeviceOutcome>,
                    report: RunReport, state: State)
    requires report.Valid() && report.Current() && forall p | p in batch :: p.intuneId in index
    requires forall id | id in index :: index[id].intuneId == id
    requires reply.Some? ==> forall r | r in reply.value :: InVocabulary(r.action)
    modifies report`inserted, report`updated, report`notChanged, report`errors, report`outcomes, report`log
    modifies state, index.Values`action, index.Values`message, index.Values`ciSysId
    ensures TookIn(report, old(report.outcomes), old(report.log), Effective(batch, reply), index)
    ensures state.devices == ObservedAll(old(state.devices), Seen(Effective(batch, reply), index))
    ensures reply.Some? ==> PointsTo(index, reply.value, old(SysIds(index)))
  {
    if reply.None? {
      RecordFailures(batch, index, report);
      FailuresSeen(batch, index, |batch|);
      assert Effective(batch, None)[..|batch|] == Effective(batch, None);
    } else {
      RecordResults(reply.value, index, report, state, SysIds(index));
    }
  }

  // ---- All the batches ---------------------------------------------------------------------

  datatype Mode = Bulk | PerCi

  predicate AnyServer(s: DryRunPreview.Server) { true }
  predicate AnyCasing(f: string -> string) { true }

  /** One `write` of the configured writer, whatever the remote side answers. A dry run POSTs nothing. */
  method Ask(mode: Mode, dryRun: bool, lower: string -> string, writer: AbortGuard.CmdbInstanceWriter, batch: seq<CiPayload>)
    returns (reply: Reply)
    requires writer.Valid() && AbortGuard.Idle(writer.now)
    modifies writer
    ensures writer.Valid() && old(writer.moves) <= writer.moves
    ensures !reply.Ended? ==> AbortGuard.Idle(writer.now)
    ensures reply.Answered? ==> Answers(batch, reply.results)
    ensures dryRun || mode.Bulk? ==> writer.moves == old(writer.moves) && writer.aborted == old(writer.aborted)
  {
    if mode.PerCi? && !dryRun {
      var results := writer.Write(batch);
      return if results.Some? then Answered(results.value) else Ended;
    }
    if mode.PerCi? {
      var ended: bool := *;
      if ended {
        return Ended;
      }
      assert AnyServer((table, query) => None);
      var server :| AnyServer(server);
      var results := DryRunPreview.Preview(lower, server, batch);
      reply := Answered(results);
    } else {
      assert AnyCasing(s => s);
      var upper :| AnyCasing(upper);
      var outcome: Retry.Outcome<Json.Body> := *;
      reply := IdentifyReconcile.Write(upper, batch, outcome, dryRun);
    }
  }

  lemma {:induction false} ResultsConcat(a: seq<WriteResult>, b: seq<WriteResult>, index: map<string, DeviceOutcome>)
    ensures Landed(a + b, index) == Landed(a, index) + Landed(b, index)
    ensures Logged(a + b, index) == Logged(a, index) + Logged(b, index)
    ensures Seen(a + b, index) == Seen(a, index) + Seen(b, index)
  {
    if b == [] {
      assert a + b == a;
    } else {
      var front, r := b[..|b| - 1], b[|b| - 1];
      assert a + b == (a + front) + [r] && b == front + [r];
      ResultsConcat(a, front, index);
      LandedOneMore(a + front, r, index);
      LandedOneMore(front, r, index);
      SeenOneMore(a + front, r, index);
      SeenOneMore(front, r, index);
    }
  }

  lemma {:induction false} ObservedConcat(ds: Devices, a: seq<Sighting>, b: seq<Sighting>)
    ensures ObservedAll(ds, a + b) == ObservedAll(ObservedAll(ds, a), b)
  {
    if b == [] {
      assert a + b == a;
    } else {
      var front := b[..|b| - 1];
      assert (a + b)[..|a + b| - 1] == a + front;
      ObservedConcat(ds, a, front);
    }
  }

  lemma AnswersConcat(a: seq<CiPayload>, ra: seq<WriteResult>, b: seq<CiPayload>, rb: seq<WriteResult>)
    requires Answers(a, ra) && Answers(b, rb)
    ensures Answers(a + b, ra + rb)
  {}

  /** Every device sent is recorded, in order, on its own outcome, with what its own result says. */
  lemma {:induction false} AllLand(ps: seq<CiPayload>, rs: seq<WriteResult>, index: map<string, DeviceOutcome>)
    requires Answers(ps, rs) && forall p | p in ps :: p.intuneId in index && index[p.intuneId].intuneId == p.intuneId
    ensures |Landed(rs, index)| == |Logged(rs, index)| == |ps|
    ensures forall i | 0 <= i < |ps| :: ps[i] in ps && Landed(rs, index)[i] == index[ps[i].intuneId]
    ensures forall i | 0 <= i < |ps| :: Logged(rs, index)[i] == Reported(rs[i].action)
  {
    if ps != [] {
      var n := |ps| - 1;
      assert ps == ps[..n] + [ps[n]] && rs == rs[..n] + [rs[n]];
      assert rs[n].intuneId == ps[n].intuneId && ps[n] in ps;
      AllLand(ps[..n], rs[..n], index);
    }
  }

  lemma LandedApart(ps: seq<CiPayload>, os: seq<DeviceOutcome>, index: map<string, DeviceOutcome>)
    requires |os| == |ps| && forall p | p in ps :: p.intuneId in index && index[p.intuneId].intuneId == p.intuneId
    requires forall i | 0 <= i < |ps| :: ps[i] in ps && os[i] == index[ps[i].intuneId]
    ensures OutcomeIds(os) == PayloadIds(ps)
    ensures Distinct(PayloadIds(ps)) ==> Distinct(os)
  {
    if Distinct(PayloadIds(ps)) {
      forall i, j | 0 <= i < j < |ps| ensures os[i] != os[j] {
        assert PayloadIds(ps)[i] != PayloadIds(ps)[j];
      }
    }
  }

  lemma BatchesAddUp(report: RunReport, os: seq<DeviceOutcome>, log: seq<Action>, a: seq<WriteResult>, b: seq<WriteResult>,
                     index: map<string, DeviceOutcome>)
    requires TookIn(report, os + Landed(a, index), log + Logged(a, index), b, index)
    ensures TookIn(report, os, log, a + b, index)
  {
    ResultsConcat(a, b, index);
    ConcatAssociates(os, Landed(a, index), Landed(b, index));
    ConcatAssociates(log, Logged(a, index), Logged(b, index));
  }

  /** Enter one batch in the books after those before it. */
  method BookBatch(batch: seq<CiPayload>, reply: Option<seq<WriteResult>>, index: map<string, DeviceOutcome>, report: RunReport, state: State,
                   ghost os: seq<DeviceOutcome>, ghost log: seq<Action>, ghost ds: Devices, ghost before: seq<WriteResult>)
    requires forall p | p in batch :: p.intuneId in index
    requires forall id | id in index :: index[id].intuneId == id
    requires reply.Some? ==> forall r | r in reply.value :: InVocabulary(r.action)
    requires TookIn(report, os, log, before, index) && state.devices == ObservedAll(ds, Seen(before, index))
    modifies report`inserted, report`updated, report`notChanged, report`errors, report`outcomes, report`log
    modifies state, index.Values`action, index.Values`message, index.Values`ciSysId
    ensures TookIn(report, os, log, before + Effective(batch, reply), index)
    ensures state.devices == ObservedAll(ds, Seen(before + Effective(batch, reply), index))
  {
    WriteBatch(batch, reply, index, report, state);
    BatchesAddUp(report, os, log, before, Effective(batch, reply), index);
    ResultsConcat(before, Effective(batch, reply), index);
    ObservedConcat(ds, Seen(before, index), Seen(Effective(batch, reply), index));
  }

  /** The writer's answer to a batch, with an error for every item where it has none. */
  method Consult(mode: Mode, dryRun: bool, lower: string -> string, writer: AbortGuard.CmdbInstanceWriter, batch: seq<CiPayload>)
    returns (ended: bool, reply: Option<seq<WriteResult>>)
    requires writer.Valid() && AbortGuard.Idle(writer.now)
    modifies writer
    ensures writer.Valid() && (!ended ==> AbortGuard.Idle(writer.now))
    ensures dryRun || mode.Bulk? ==> writer.moves == old(writer.moves) && writer.aborted == old(writer.aborted)
    ensures Answers(batch, Effective(batch, reply))
    ensures reply.Some? ==> forall r | r in reply.value :: InVocabulary(r.action)
  {
    var answer := Ask(mode, dryRun, lower, writer, batch);
    ended, reply := answer.Ended?, if answer.Answered? then Some(answer.results) else None;
  }

  method WriteOne(mode: Mode, dryRun: bool, lower: string -> string, writer: AbortGuard.CmdbInstanceWriter,
                  batch: seq<CiPayload>, index: map<string, DeviceOutcome>, report: RunReport, state: State,
                  ghost os: seq<DeviceOutcome>, ghost log: seq<Action>, ghost ds: Devices, ghost before: seq<WriteResult>)
    returns (ended: bool, ghost after: seq<WriteResult>)
    requires writer.Valid() && AbortGuard.Idle(writer.now)
    requires forall p | p in batch :: p.intuneId in index
    requires forall id | id in index :: index[id].intuneId == id
    requires TookIn(report, os, log, before, index) && state.devices == ObservedAll(ds, Seen(before, index))
    modifies writer, report`inserted, report`updated, report`notChanged, report`errors, report`outcomes, report`log
    modifies state, index.Values`action, index.Values`message, index.Values`ciSysId
    ensures dryRun || mode.Bulk? ==> writer.moves == old(writer.moves) && writer.aborted == old(writer.aborted)
    ensures writer.Valid() && (!ended ==> AbortGuard.Idle(writer.now))
    ensures !ended ==> exists results :: Answers(batch, results) && after == before + results
    ensures !ended ==> TookIn(report, os, log, after, index) && state.devices == ObservedAll(ds, Seen(after, index))
  {
    var reply;
    ended, reply := Consult(mode, dryRun, lower, writer, batch);
    after := before + Effective(batch, reply);
    if !ended {
      BookBatch(batch, reply, index, report, state, os, log, ds, before);
    }
  }

  method WriteAll(mode: Mode, dryRun: bool, lower: string -> string, writer: AbortGuard.CmdbInstanceWriter,
                  payloads: seq<CiPayload>, batchSize: nat, index: map<string, DeviceOutcome>, report: RunReport, state: State)
    returns (ended: bool, ghost results: seq<WriteResult>)
    requires batchSize > 0 && writer.Valid() && AbortGuard.Idle(writer.now)
    requires IndexOf(index, payloads) && report.Valid() && report.Current()
    modifies writer, report`inserted, report`updated, report`notChanged, report`errors, report`outcomes, report`log
    modifies state, index.Values`action, index.Values`message, index.Values`ciSysId
    ensures dryRun || mode.Bulk? ==> writer.moves == old(writer.moves) && writer.aborted == old(writer.aborted)
    ensures writer.Valid()
    ensures !ended ==> Answers(payloads, results) && TookIn(report, old(report.outcomes), old(report.log), results, index)
    ensures !ended ==> state.devices == ObservedAll(old(state.devices), Seen(results, index))
  {
    var batches := Chunks(payloads, batchSize);
    ghost var os, log, ds := report.outcomes, report.log, state.devices;
    assert os + [] == os && log + [] == log;
    ended, results := false, [];
    ChunksCover(payloads, batchSize);
    for n := 0 to |batches|
      invariant !ended && writer.Valid() && AbortGuard.Idle(writer.now)
      invariant dryRun || mode.Bulk? ==> writer.moves == old(writer.moves) && writer.aborted == old(writer.aborted)
      invariant Answers(Flatten(batches[..n]), results) && TookIn(report, os, log, results, index)
      invariant state.devices == ObservedAll(ds, Seen(results, index))
    {
      BatchOf(payloads, batches, n);
      ghost var before := results;
      ended, results := WriteOne(mode, dryRun, lower, writer, batches[n], index, report, state, os, log, ds, results);
      if ended {
        return;
      }
      ghost var part :| Answers(batches[n], part) && results == before + part;
      AnswersConcat(Flatten(batches[..n]), before, batches[n], part);
    }
    assert batches[..|batches|] == batches;
  }

  lemma BatchOf(payloads: seq<CiPayload>, batches: seq<seq<CiPayload>>, n: nat)
    requires n < |batches| && Flatten(batches) == payloads
    ensures forall p | p in batches[n] :: p in payloads
    ensures Flatten(batches[..n + 1]) == Flatten(batches[..n]) + batches[n]
  {
    TakeOneMore(batches, n);
    FlattenOneMore(batches[..n], batches[n]);
    forall p | p in batches[n] ensures p in payloads {
      assert batches[n] in batches;
      FlattenMember(batches, p);
    }
  }

  // ---- Retiring -----------------------------------------------------------------------------

  /**
    PATCH every device that has vanished, if nothing forbids it, each through its own class
    table, and forget the ones whose PATCH succeeded. A lost PATCH or a kill ends the run with
    the PATCHes sent so far.
   */
  method RetireMissing(policy: R.Policy, current: set<string>, state: State, report: RunReport)
    returns (ended: bool, ghost sent: map<string, R.Patch>, ghost answers: map<string, R.PatchAnswer>)
    modifies state, report`retired, report`degraded
    ensures sent.Keys == answers.Keys && sent.Keys <= R.Decision(policy, old(state.devices), current)
    ensures forall id | id in sent :: id in old(state.devices) && sent[id] == R.PatchOf(old(state.devices)[id])
    ensures !ended ==> sent.Keys == R.Decision(policy, old(state.devices), current)
    ensures !ended ==> state.devices == old(state.devices) - PatchedIn(answers)
    ensures !ended && sent != map[] ==> report.retired == |PatchedIn(answers)|
    ensures report.degraded == old(report.degraded) + One(GuardTrips(policy, old(state.devices), current))
  {
    sent, answers := map[], map[];
    assert PatchedIn(answers) == {} && state.devices - {} == state.devices;
    ended := false;
    var missing := ToRetire(policy, current, state.devices, report);
    if missing == map[] {
      assert sent.Keys == missing.Keys;
      return;
    }
    var retired;
    ended, retired, sent, answers := PatchAll(missing);
    if !ended {
      state.Forget(retired);
      report.retired := |retired|;
    }
  }

  /** Whom the guards let it retire. */
  method ToRetire(policy: R.Policy, current: set<string>, known: Devices, report: RunReport) returns (missing: Devices)
    modifies report`degraded
    ensures missing.Keys == R.Decision(policy, known, current) && forall id | id in missing :: id in known && missing[id] == known[id]
    ensures report.degraded == old(report.degraded) + One(GuardTrips(policy, known, current))
  {
    if !policy.retireMissing || policy.deviceLimit.Some? {
      return map[];
    }
    missing := Missing(known, current);
    if |missing| == 0 {
      return;
    }
    if R.OverGuard(policy, |missing|, |known|) {
      report.Degrade();
      return map[];
    }
    if policy.dryRun {
      return map[];
    }
  }

  predicate GuardTrips(policy: R.Policy, ds: Devices, current: set<string>) {
    && policy.retireMissing && policy.deviceLimit.None? && |Missing(ds, current)| > 0
    && R.OverGuard(policy, |Missing(ds, current)|, |ds|)
  }

  ghost function PatchedIn(answers: map<string, R.PatchAnswer>): set<string> {
    set id | id in answers && answers[id].Patched?
  }

  method PatchAll(missing: Devices)
    returns (ended: bool, retired: set<string>, ghost sent: map<string, R.Patch>, ghost answers: map<string, R.PatchAnswer>)
    ensures sent.Keys == answers.Keys && sent.Keys <= missing.Keys && (!ended ==> sent.Keys == missing.Keys)
    ensures forall id | id in sent :: sent[id] == R.PatchOf(missing[id])
    ensures retired == PatchedIn(answers)
  {
    var rest := missing.Keys;
    retired, sent, answers := {}, map[], map[];
    while rest != {}
      invariant rest <= missing.Keys && sent.Keys == answers.Keys == missing.Keys - rest
      invariant forall id | id in sent :: sent[id] == R.PatchOf(missing[id])
      invariant retired == PatchedIn(answers)
      decreases rest
    {
      var killed: bool := *;
      if killed {
        return true, retired, sent, answers;
      }
      var id :| id in rest;
      var answer: R.PatchAnswer := *;
      sent, answers := sent[id := R.PatchOf(missing[id])], answers[id := answer];
      rest := rest - {id};
      match answer
      case Lost => return true, retired, sent, answers;
      case Refused =>
      case Patched => retired := retired + {id};
    }
    ended := false;
  }

  // ---- The run -------------------------------------------------------------------------------

  function FinalActions(os: seq<DeviceOutcome>): seq<Action>
    reads os
  {
    seq(|os|, i requires 0 <= i < |os| reads os => os[i].action)
  }

  /** What a report says: the ids and last actions of its outcomes, its log and its counters. */
  datatype Books = Books(valid: bool, distinct: bool, ids: seq<string>, finals: seq<Action>, log: seq<Action>,
                         written: nat, errors: nat, skippedNoClass: nat, skippedNoIdentifier: nat)

  ghost function BooksOf(report: RunReport): Books
    reads report`outcomes, report`log, report`inserted, report`updated, report`notChanged, report`errors
    reads report`skippedNoClass, report`skippedNoIdentifier, report.outcomes
  {
    Books(report.Valid() && report.Current(), Distinct(report.outcomes), OutcomeIds(report.outcomes), FinalActions(report.outcomes),
          report.log, report.inserted + report.updated + report.notChanged, report.errors,
          report.skippedNoClass, report.skippedNoIdentifier)
  }

  /**
    The books of a run over these devices: each is recorded exactly once, the skips for their
    own reasons; the counters count the records; and they are the histogram of the final
    outcomes when no two devices sent share an id.
   */
  ghost predicate Accounted(books: Books, devices: seq<Device>) {
    && books.valid
    && multiset(books.ids) == multiset(Ids(devices))
    && books.written + books.errors + Tally(books.log, Skipped) == |devices|
    && books.skippedNoClass == CountOf(devices, NoClass)
    && books.skippedNoIdentifier == CountOf(devices, NoId) + CountOf(devices, NoIdentifier)
    && (Distinct(PayloadIds(Payloads(devices))) ==> books.distinct && books.finals == books.log)
  }

  /** The writer's results are the tail of the books, each under the id of its own device. */
  ghost predicate Posted(books: Books, payloads: seq<CiPayload>, results: seq<WriteResult>) {
    && Answers(payloads, results) && |books.ids| == |books.log| >= |payloads|
    && var k := |books.ids| - |payloads|;
       && (forall a | a in books.log[..k] :: a == Skipped)
       && books.ids[k..] == PayloadIds(payloads)
       && books.log[k..] == Map(results, (r: WriteResult) => Reported(r.action))
  }

  /** Results recorded as this action. */
  lemma {:induction false} TallyOfResults(log: seq<Action>, results: seq<WriteResult>, a: Action, p: WriteResult -> bool)
    requires log == Map(results, (r: WriteResult) => Reported(r.action)) && forall r :: p(r) <==> Reported(r.action) == a
    ensures Tally(log, a) == |Filter(results, p)|
  {
    if results != [] {
      var n := |results| - 1;
      assert results == results[..n] + [results[n]];
      TallyOfResults(log[..n], results[..n], a, p);
      FilterSnoc(results[..n], results[n], p);
    }
  }

  lemma {:induction false} TallyAfterSkips(skips: seq<Action>, log: seq<Action>, a: Action)
    requires forall x | x in skips :: x == Skipped
    ensures Tally(skips + log, a) == Tally(log, a) + if a == Skipped then |skips| else 0
  {
    if log != [] {
      var n := |log| - 1;
      assert (skips + log)[..|skips + log| - 1] == skips + log[..n];
      TallyAfterSkips(skips, log[..n], a);
    } else {
      assert skips + log == skips;
      SkipsTallied(skips, a);
    }
  }

  lemma {:induction false} SkipsTallied(log: seq<Action>, a: Action)
    requires forall x | x in log :: x == Skipped
    ensures Tally(log, a) == if a == Skipped then |log| else 0
  {
    if log != [] {
      var n := |log| - 1;
      assert log == log[..n] + [log[n]] && log[n] in log;
      forall x | x in log[..n] ensures x == Skipped { assert x in log; }
      SkipsTallied(log[..n], a);
    }
  }

  lemma CountOfResults(report: RunReport, payloads: seq<CiPayload>, results: seq<WriteResult>, a: Action, p: WriteResult -> bool)
    requires Posted(BooksOf(report), payloads, results) && forall r :: p(r) <==> Reported(r.action) == a
    ensures Tally(report.log, a) == |Filter(results, p)| + if a == Skipped then |report.log| - |payloads| else 0
  {
    var k := |report.log| - |payloads|;
    assert report.log == report.log[..k] + report.log[k..];
    TallyAfterSkips(report.log[..k], report.log[k..], a);
    TallyOfResults(report.log[k..], results, a, p);
  }

  /** The counters, in what the writer said: real writes and predictions count alike, and a prediction it could not make counts as none. */
  lemma CountersOfResults(report: RunReport, payloads: seq<CiPayload>, results: seq<WriteResult>)
    requires report.Valid() && Posted(BooksOf(report), payloads, results)
    ensures report.inserted == |Filter(results, (r: WriteResult) => r.action == Wrote(Inserted) || r.action == DryRun(Inserted))|
    ensures report.updated == |Filter(results, (r: WriteResult) => r.action == Wrote(Updated) || r.action == DryRun(Updated))|
    ensures report.notChanged == |Filter(results, (r: WriteResult) => r.action == Wrote(Unchanged) || r.action == DryRun(Unchanged))|
    ensures report.errors == |Filter(results, (r: WriteResult) => r.action == Wrote(Error) || r.action == DryRun(Error))|
    ensures Tally(report.log, Skipped)
            == |report.log| - |payloads|
               + |Filter(results, (r: WriteResult) => r.action == DryRun(Pending) || r.action == Wrote(Skipped) || r.action == DryRun(Skipped))|
  {
    CountOfResults(report, payloads, results, Skipped,
                   (r: WriteResult) => r.action == DryRun(Pending) || r.action == Wrote(Skipped) || r.action == DryRun(Skipped));
    CountOfResults(report, payloads, results, Inserted, (r: WriteResult) => r.action == Wrote(Inserted) || r.action == DryRun(Inserted));
    CountOfResults(report, payloads, results, Updated, (r: WriteResult) => r.action == Wrote(Updated) || r.action == DryRun(Updated));
    CountOfResults(report, payloads, results, Unchanged, (r: WriteResult) => r.action == Wrote(Unchanged) || r.action == DryRun(Unchanged));
    CountOfResults(report, payloads, results, Error, (r: WriteResult) => r.action == Wrote(Error) || r.action == DryRun(Error));
  }

  lemma FinalIsLogged(report: RunReport)
    requires report.Current() && Distinct(report.outcomes)
    ensures FinalActions(report.outcomes) == report.log
  {
    forall i: nat | i < |report.outcomes| ensures FinalActions(report.outcomes)[i] == report.log[i] {
      assert report.outcomes[i] in report.outcomes;
      DistinctFinals(report.outcomes, report.log, i);
    }
  }

  lemma DistinctTogether(a: seq<DeviceOutcome>, b: seq<DeviceOutcome>)
    requires Distinct(a) && Distinct(b) && forall o | o in a :: o !in b
    ensures Distinct(a + b)
  {
    forall i, j | 0 <= i < j < |a + b| ensures (a + b)[i] != (a + b)[j] {
      if i < |a| <= j { assert a[i] in a && b[j - |a|] in b; }
    }
  }

  lemma {:induction false} LandedInIndex(rs: seq<WriteResult>, index: map<string, DeviceOutcome>)
    ensures forall o | o in Landed(rs, index) :: o in index.Values
  {
    if rs != [] { LandedInIndex(rs[..|rs| - 1], index); }
  }

  /** With all ids known, the sightings are the telling results, one by one. */
  lemma {:induction false} SeenAreTelling(rs: seq<WriteResult>, index: map<string, DeviceOutcome>)
    requires forall w | w in rs :: w.intuneId in index
    ensures R.Told(Seen(rs, index), rs)
  {
    if rs != [] {
      var front, r := rs[..|rs| - 1], rs[|rs| - 1];
      assert rs == front + [r] && r in rs;
      SeenAreTelling(front, index);
      SeenOneMore(front, r, index);
      R.ToldMore(Seen(front, index), Sighting(r.intuneId, r.sysId, index[r.intuneId].deviceName, index[r.intuneId].className), front, r);
    }
  }

 lemma SkipsAreCurrent(report: RunReport, index: map<string, DeviceOutcome>)
    requires OnlySkips(report, index)
    ensures report.Current()
  {
    forall o | o in report.outcomes ensures LastLogged(report.outcomes, report.log, o) == Skipped {
      LastLoggedSkipped(report.outcomes, report.log, o);
    }
  }

  lemma OnlySkipped(log: seq<Action>, n: nat)
    requires n <= |log| && forall a | a in log :: a == Skipped
    ensures forall a | a in log[..n] :: a == Skipped
  {
    assert forall i | 0 <= i < n :: log[i] in log;
  }

  lemma {:induction false} LastLoggedSkipped<T>(keys: seq<T>, log: seq<Action>, k: T)
    requires |keys| == |log| && k in keys && forall a | a in log :: a == Skipped
    ensures LastLogged(keys, log, k) == Skipped
  {
    if keys[|keys| - 1] == k {
      assert log[|log| - 1] in log;
    } else {
      var i :| 0 <= i < |keys| && keys[i] == k;
      assert keys[..|keys| - 1][i] == k;
      OnlySkipped(log, |log| - 1);
      LastLoggedSkipped(keys[..|keys| - 1], log[..|log| - 1], k);
    }
  }

  /** Skips first, then results: from there to the books of the whole run. */
  lemma BooksClose(report: RunReport, devices: seq<Device>, payloads: seq<CiPayload>, results: seq<WriteResult>,
                   skipped: seq<DeviceOutcome>, log: seq<Action>, index: map<string, DeviceOutcome>)
    requires Tallied(devices, payloads, OutcomeIds(skipped), report.skippedNoClass, report.skippedNoIdentifier)
    requires IndexOf(index, payloads) && Answers(payloads, results) && TookIn(report, skipped, log, results, index)
    requires |skipped| == |log| && Distinct(skipped) && (forall a | a in log :: a == Skipped)
    requires forall o | o in skipped :: o !in index.Values
    ensures Accounted(BooksOf(report), devices) && Posted(BooksOf(report), payloads, results)
  {
    AllLand(payloads, results, index);
    LandedInIndex(results, index);
    var landed := Landed(results, index);
    LandedApart(payloads, landed, index);
    IdsAddUp(skipped, landed);
    SentOrSkipped(devices);
    assert multiset(OutcomeIds(report.outcomes)) == multiset(Ids(devices)) by {
      assert multiset(OutcomeIds(skipped) + PayloadIds(payloads)) == multiset(OutcomeIds(skipped)) + multiset(PayloadIds(payloads));
    }
    SameSize(OutcomeIds(report.outcomes), Ids(devices));
    CountersPartition(report.log);
    if Distinct(PayloadIds(payloads)) {
      DistinctTogether(skipped, landed);
      FinalIsLogged(report);
    }
    TailIsPosted(report, payloads, results, skipped, log, index);
  }

  lemma LoggedIsReported(logged: seq<Action>, results: seq<WriteResult>)
    requires |logged| == |results| && forall i | 0 <= i < |results| :: logged[i] == Reported(results[i].action)
    ensures logged == Map(results, (r: WriteResult) => Reported(r.action))
  {}

  lemma TailIsPosted(report: RunReport, payloads: seq<CiPayload>, results: seq<WriteResult>,
                     skipped: seq<DeviceOutcome>, log: seq<Action>, index: map<string, DeviceOutcome>)
    requires IndexOf(index, payloads) && Answers(payloads, results) && |skipped| == |log| && (forall a | a in log :: a == Skipped)
    requires report.outcomes == skipped + Landed(results, index) && report.log == log + Logged(results, index)
    ensures Posted(BooksOf(report), payloads, results)
  {
    AllLand(payloads, results, index);
    var landed, logged := Landed(results, index), Logged(results, index);
    LandedApart(payloads, landed, index);
    IdsAddUp(skipped, landed);
    SplitBack(OutcomeIds(skipped), OutcomeIds(landed));
    SplitBack(log, logged);
    LoggedIsReported(logged, results);
  }

  lemma IdsAddUp(a: seq<DeviceOutcome>, b: seq<DeviceOutcome>)
    ensures OutcomeIds(a + b) == OutcomeIds(a) + OutcomeIds(b)
  {}

  lemma SameSize<T>(a: seq<T>, b: seq<T>)
    requires multiset(a) == multiset(b)
    ensures |a| == |b|
  {
    assert |multiset(a)| == |a| && |multiset(b)| == |b|;
  }

  /** The persistent state: a load may find nothing it can read, a save may fail and leaves what was there. */
  class StateStore {
    var devices: Devices

    method Load() returns (readable: bool, ds: Devices)
      ensures ds == if readable then devices else map[]
    {
      readable := *;
      ds := if readable then devices else map[];
    }

    method Save(ds: Devices) returns (saved: bool)
      modifies this
      ensures devices == if saved then ds else old(devices)
    {
      saved := *;
      if saved { devices := ds; }
    }
  }

  function CurrentIds(devices: seq<Device>): set<string> { set d | d in devices && d.id != "" :: d.id }

  ghost predicate Sightable(sightings: seq<Sighting>, devices: seq<Device>) {
    forall s | s in sightings :: exists d | d in devices :: SightingOf(s, d)
  }

  /** A sighting remembers the id, the name and the class of a device that was sent. */
  ghost predicate SightingOf(s: Sighting, d: Device) {
    s.id == d.id != "" && s.name == d.name && s.className == d.className != ""
  }

  lemma SeenAreTold(devices: seq<Device>, index: map<string, DeviceOutcome>, results: seq<WriteResult>)
    requires IndexOf(index, Payloads(devices)) && Labelled(index, Payloads(devices)) && Answers(Payloads(devices), results)
    ensures Sightable(Seen(results, index), devices) && R.Told(Seen(results, index), results)
  {
    PayloadsAreIdentifiable(devices);
    forall w | w in results ensures w.intuneId in index {
      var i :| 0 <= i < |results| && results[i] == w;
      assert Payloads(devices)[i] in Payloads(devices);
    }
    SeenAreTelling(results, index);
    forall s | s in Seen(results, index) ensures exists d | d in devices :: SightingOf(s, d) {
      SeenHasLabel(results, index, s);
      var p :| p in Payloads(devices) && p.intuneId == s.id && p.deviceName == s.name && p.className == s.className;
      var d :| d in devices && p.intuneId == d.id && p.className == d.className && p.values == d.values && p.deviceName == d.name;
      assert SightingOf(s, d);
    }
  }

  lemma {:induction false} SeenHasLabel(rs: seq<WriteResult>, index: map<string, DeviceOutcome>, s: Sighting)
    requires s in Seen(rs, index)
    ensures s.id in index && s.name == index[s.id].deviceName && s.className == index[s.id].className
  {
    var front, r := rs[..|rs| - 1], rs[|rs| - 1];
    assert rs == front + [r];
    SeenOneMore(front, r, index);
    if s in Seen(front, index) { SeenHasLabel(front, index, s); }
  }

  /** From the devices to closed books, or the death of the run. */
  method WriteDevices(mode: Mode, dryRun: bool, lower: string -> string, writer: AbortGuard.CmdbInstanceWriter,
                      devices: seq<Device>, batchSize: nat, report: RunReport, state: State)
    returns (ended: bool, sent: nat, ghost results: seq<WriteResult>, ghost sightings: seq<Sighting>)
    requires batchSize > 0 && writer.Valid() && AbortGuard.Idle(writer.now)
    requires OnlySkips(report, map[]) && report.outcomes == [] && report.skippedNoClass == 0 && report.skippedNoIdentifier == 0
    modifies report, writer, state
    ensures writer.Valid() && (dryRun || mode.Bulk? ==> writer.moves == old(writer.moves) && writer.aborted == old(writer.aborted))
    ensures sent == |Payloads(devices)|
    ensures !ended ==> Sightable(sightings, devices) && R.Told(sightings, results)
    ensures !ended ==> state.devices == ObservedAll(old(state.devices), sightings)
    ensures !ended ==> Accounted(BooksOf(report), devices) && Posted(BooksOf(report), Payloads(devices), results)
    ensures !ended ==> report.degraded == 0
  {
    var payloads, index := BuildPayloads(devices, report);
    SkipsAreCurrent(report, index);
    sent := |payloads|;
    ghost var skipped, log := report.outcomes, report.log;
    var killed: bool := *;
    if killed {
      return true, sent, [], [];
    }
    ended, results := WriteAll(mode, dryRun, lower, writer, payloads, batchSize, index, report, state);
    sightings := Seen(results, index);
    if !ended {
      SeenAreTold(devices, index, results);
      BooksClose(report, devices, payloads, results, skipped, log, index);
    }
  }

  predicate NothingWritten(report: RunReport)
    reads report`inserted, report`updated, report`notChanged
  {
    report.inserted == 0 && report.updated == 0 && report.notChanged == 0
  }

  /** Every way a run that returns can be declared degraded, each counted once. */
  ghost function Degradations(books: Books, sent: nat, aborted: bool, guard: bool, unsaved: bool): nat {
    One(sent > 0 && books.written == 0) + One(aborted) + One(guard) + One(unsaved)
  }

  /**
    The reasons, spelled out: something was sent and nothing was inserted, updated or found
    unchanged; the writer aborted; retirement was on and unlimited, and the vanished devices
    were more than p/q of those known; or the state could not be saved.
   */
  lemma DegradedMeans(report: RunReport, sent: nat, aborted: bool, policy: R.Policy, known: Devices, current: set<string>, unsaved: bool)
    ensures var gone := map id | id in known && id !in current && known[id].sysId != "" :: known[id];
            Degradations(BooksOf(report), sent, aborted, GuardTrips(policy, known, current), unsaved)
            == One(sent > 0 && report.inserted == 0 && report.updated == 0 && report.notChanged == 0)
               + One(aborted)
               + One(policy.retireMissing && policy.deviceLimit.None? && gone != map[] && |gone| * policy.q > policy.p * |known|)
               + One(unsaved)
  {
    var gone := map id | id in known && id !in current && known[id].sysId != "" :: known[id];
    assert gone == Missing(known, current);
    if gone != map[] {
      var id :| id in gone.Keys;
      assert id in known.Keys && |gone| != 0 && |known| != 0;
    }
  }

  function AnswerOf(answers: map<string, R.PatchAnswer>): string -> R.PatchAnswer {
    id => if id in answers then answers[id] else R.Refused
  }

  /** PATCHes that follow the decision, up to where the run got, are the PATCHes of the run. */
  lemma SentIsPatches(disk: Devices, run: R.RunInput, sent: map<string, R.Patch>, answers: map<string, R.PatchAnswer>)
    requires !run.emptyFetch && run.answers == AnswerOf(answers) && sent.Keys == answers.Keys
    requires Decided(R.Known(disk, run), R.Decision(run.policy, R.Known(disk, run), run.current), run.fate, sent)
    ensures sent == R.Patches(disk, run) && R.Retired(disk, run) == PatchedIn(answers)
  {
    var decision := R.Decision(run.policy, R.Known(disk, run), run.current);
    assert decision * sent.Keys == sent.Keys;
    assert R.Patches(disk, run).Keys == sent.Keys;
    RetiredIsPatched(disk, run, answers);
  }

  lemma RetiredIsPatched(disk: Devices, run: R.RunInput, answers: map<string, R.PatchAnswer>)
    requires run.answers == AnswerOf(answers) && R.Patches(disk, run).Keys == answers.Keys
    ensures R.Retired(disk, run) == PatchedIn(answers)
  {}

  /** What was sent for a decision, up to where the run died. */
  ghost predicate Decided(known: Devices, decision: set<string>, fate: R.Fate, sent: map<string, R.Patch>) {
    && sent.Keys <= decision && (forall id | id in sent :: id in known && sent[id] == R.PatchOf(known[id]))
    && (fate == R.Retiring(sent.Keys) || ((fate.Saved? || fate.SaveFailed? || fate.DiedBeforeSaving?) && sent.Keys == decision))
  }

  /** Two runs that differ at most in how PATCHes were answered and how far they got. */
  ghost predicate SameInputs(a: R.RunInput, b: R.RunInput) {
    && a.policy == b.policy && a.readable == b.readable && a.emptyFetch == b.emptyFetch
    && a.current == b.current && a.results == b.results && a.sightings == b.sightings
  }

  /** Retire, then save: the part of the run after the writes. */
  method Finish(store: StateStore, state: State, report: RunReport, ghost run0: R.RunInput, policy: R.Policy, current: set<string>)
    returns (returned: bool, ghost run: R.RunInput, ghost sent: map<string, R.Patch>)
    requires run0.policy == policy && run0.current == current && !run0.emptyFetch
    requires state.devices == R.Known(store.devices, run0)
    modifies store, state, report`retired, report`degraded
    ensures SameInputs(run, run0)
    ensures sent == R.Patches(old(store.devices), run) && store.devices == R.DiskAfterRun(old(store.devices), run)
    ensures returned ==> run.fate.Saved? || run.fate.SaveFailed?
    ensures returned ==> report.degraded == old(report.degraded) + One(GuardTrips(policy, old(state.devices), current)) + One(run.fate.SaveFailed?)
  {
    ghost var disk := store.devices;
    ghost var answers;
    var ended;
    ended, sent, answers := RetireMissing(policy, current, state, report);
    returned := false;
    ghost var fate := R.Retiring(sent.Keys);
    if !ended {
      returned, fate := SaveState(store, state.devices, policy.dryRun, report);
    }
    run := run0.(answers := AnswerOf(answers), fate := fate);
    SentIsPatches(disk, run, sent, answers);
  }

  /** The end of a run: save, unless it is a dry run. It can die before and after. */
  method SaveState(store: StateStore, devices: Devices, dryRun: bool, report: RunReport) returns (returned: bool, ghost fate: R.Fate)
    modifies store, report`degraded
    ensures fate.DiedBeforeSaving? || fate.SaveFailed? || fate.Saved?
    ensures store.devices == if fate.Saved? && !dryRun then devices else old(store.devices)
    ensures report.degraded == old(report.degraded) + One(fate.SaveFailed?)
    ensures returned ==> !fate.DiedBeforeSaving?
  {
    var killed: bool := *;
    if killed {
      return false, R.DiedBeforeSaving;
    }
    var saved := true;
    if !dryRun {
      saved := store.Save(devices);
      if !saved {
        report.Degrade();
      }
    }
    returned, fate := *, if saved then R.Saved else R.SaveFailed;
  }

  /** Declare a run degraded that wrote nothing it meant to write, and one that stopped early. */
  method Judge(report: RunReport, sent: nat, aborted: bool)
    modifies report`degraded
    ensures report.degraded == old(report.degraded) + One(sent > 0 && NothingWritten(report)) + One(aborted)
  {
    if sent > 0 && NothingWritten(report) {
      report.Degrade();
    }
    if aborted {
      report.Degrade();
    }
  }

  /** After the writes: judge them, retire, save. The books stay as they are. */
  method Conclude(store: StateStore, state: State, report: RunReport, ghost run0: R.RunInput, policy: R.Policy, current: set<string>,
                  sent: nat, aborted: bool)
    returns (returned: bool, ghost run: R.RunInput, ghost patched: map<string, R.Patch>)
    requires run0.policy == policy && run0.current == current && !run0.emptyFetch
    requires state.devices == R.Known(store.devices, run0)
    requires report.degraded == 0
    modifies store, state, report`retired, report`degraded
    ensures BooksOf(report) == old(BooksOf(report))
    ensures SameInputs(run, run0)
    ensures patched == R.Patches(old(store.devices), run) && store.devices == R.DiskAfterRun(old(store.devices), run)
    ensures returned ==> run.fate.Saved? || run.fate.SaveFailed?
    ensures returned ==> report.degraded == Degradations(BooksOf(report), sent, aborted, GuardTrips(policy, old(state.devices), current),
                                                           run.fate.SaveFailed?)
  {
    Judge(report, sent, aborted);
    returned, run, patched := Finish(store, state, report, run0, policy, current);
  }

  /** The run from a fetch that found devices. */
  method RunDevices(policy: R.Policy, mode: Mode, lower: string -> string, writer: AbortGuard.CmdbInstanceWriter,
                    devices: seq<Device>, batchSize: nat, store: StateStore, state: State, report: RunReport, ghost run0: R.RunInput)
    returns (returned: bool, ghost run: R.RunInput, ghost sent: map<string, R.Patch>)
    requires batchSize > 0 && writer.Valid() && AbortGuard.Idle(writer.now)
    requires OnlySkips(report, map[]) && report.outcomes == [] && report.skippedNoClass == 0 && report.skippedNoIdentifier == 0
    requires run0.policy == policy && run0.current == CurrentIds(devices) && !run0.emptyFetch
    requires run0.fate.DiedBeforeRetiring? && run0.results == [] && run0.sightings == []
    requires state.devices == R.Loaded(store.devices, run0)
    modifies report, writer, store, state
    ensures writer.Valid() && (policy.dryRun || mode.Bulk? ==> writer.moves == old(writer.moves))
    ensures Sightable(run.sightings, devices) && R.Told(run.sightings, run.results)
    ensures SameInputs(run, run0.(results := run.results, sightings := run.sightings))
    ensures sent == R.Patches(old(store.devices), run) && store.devices == R.DiskAfterRun(old(store.devices), run)
    ensures returned ==> (run.fate.Saved? || run.fate.SaveFailed?)
    ensures returned ==> Accounted(BooksOf(report), devices)
    ensures !run.fate.DiedBeforeRetiring? ==> Posted(BooksOf(report), Payloads(devices), run.results)
    ensures returned ==>
              report.degraded == Degradations(BooksOf(report), |Payloads(devices)|, mode.PerCi? && writer.aborted.Some?,
                                              GuardTrips(policy, R.Known(old(store.devices), run), run.current), run.fate.SaveFailed?)
  {
    var ended, count;
    ghost var results, sightings;
    ended, count, results, sightings := WriteDevices(mode, policy.dryRun, lower, writer, devices, batchSize, report, state);
    if ended {
      return false, run0, map[];
    }
    run := run0.(results := results, sightings := sightings);
    ghost var books := BooksOf(report);
    assert Accounted(books, devices) && Posted(books, Payloads(devices), results);
    returned, run, sent := Conclude(store, state, report, run, policy, CurrentIds(devices), count,
                                    mode.PerCi? && writer.aborted.Some?);
  }

  /**
    One run. Whatever the remote systems answer, and wherever an exception or a kill ends it,
    the PATCHes it sent and the state it leaves are those of a run of Retirement, which
    remembers exactly what the writer reported without error; if it returns, its books account
    for every kept device, and it is degraded exactly for the reasons it should be.
   */
  method Run(policy: R.Policy, mode: Mode, lower: string -> string, writer: AbortGuard.CmdbInstanceWriter,
             devices: seq<Device>, batchSize: nat, store: StateStore, report: RunReport)
    returns (returned: bool, ghost run: R.RunInput, ghost sent: map<string, R.Patch>)
    requires policy.p <= policy.q && policy.q > 0 && batchSize > 0
    requires writer.Valid() && AbortGuard.Idle(writer.now)
    requires OnlySkips(report, map[]) && report.outcomes == [] && report.skippedNoClass == 0 && report.skippedNoIdentifier == 0
    modifies report, writer, store
    ensures writer.Valid() && (policy.dryRun || mode.Bulk? ==> writer.moves == old(writer.moves))
    ensures run.policy == policy && run.current == CurrentIds(devices) && R.WellFormed(run) && Sightable(run.sightings, devices)
    ensures sent == R.Patches(old(store.devices), run) && store.devices == R.DiskAfterRun(old(store.devices), run)
    ensures returned ==> run.fate.Saved? || run.fate.SaveFailed?
    ensures returned ==> Accounted(BooksOf(report), devices)
    ensures !run.fate.DiedBeforeRetiring? && devices != [] ==> Posted(BooksOf(report), Payloads(devices), run.results)
    ensures returned && devices != [] ==>
              report.degraded == Degradations(BooksOf(report), |Payloads(devices)|, mode.PerCi? && writer.aborted.Some?,
                                              GuardTrips(policy, R.Known(old(store.devices), run), run.current), run.fate.SaveFailed?)
  {
    var readable, loaded := store.Load();
    run := R.RunInput(policy, readable, devices == [], CurrentIds(devices), [], [], _ => R.Refused, R.DiedBeforeRetiring);
    var killed: bool := *;
    if killed {
      return false, run, map[];
    }
    if devices == [] {
      return true, run.(fate := R.Saved), map[];
    }
    var state := new State(loaded);
    returned, run, sent := RunDevices(policy, mode, lower, writer, devices, batchSize, store, state, report, run);
  }
}
