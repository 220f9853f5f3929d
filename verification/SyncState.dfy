/** Run-to-run state: Intune device id to the CI it was written to. */
module SyncState {
  /** "" stands for a missing field. */
  datatype Entry = Entry(sysId: string, name: string, className: string)

  type Devices = map<string, Entry>

  /** One device as a write reported it. */
  datatype Sighting = Sighting(id: string, sysId: string, name: string, className: string)

  /** A sighting refreshes the name, and keeps a sys_id or class it does not bring. */
  function Observed(ds: Devices, s: Sighting): Devices {
    var e := if s.id in ds then ds[s.id] else Entry("", "", "");
    ds[s.id := Entry(if s.sysId != "" then s.sysId else e.sysId, s.name, if s.className != "" then s.className else e.className)]
  }

  function ObservedAll(ds: Devices, ss: seq<Sighting>): Devices {
    if ss == [] then ds else Observed(ObservedAll(ds, ss[..|ss| - 1]), ss[|ss| - 1])
  }

  /** Devices written before that the current fetch does not report. */
  function Missing(ds: Devices, current: set<string>): Devices {
    map id | id in ds && id !in current && ds[id].sysId != "" :: ds[id]
  }

  /** Sightings only add ids, touch no other id, and leave the last sys_id an id was seen with. */
  lemma {:induction false} SightingsAreLocal(ds: Devices, ss: seq<Sighting>, id: string)
    ensures ds.Keys <= ObservedAll(ds, ss).Keys
    ensures id in ObservedAll(ds, ss) <==> id in ds || exists s | s in ss :: s.id == id
    ensures (forall s | s in ss :: s.id != id) && id in ds ==> ObservedAll(ds, ss)[id] == ds[id]
    ensures id in ObservedAll(ds, ss) && ObservedAll(ds, ss)[id].sysId != "" ==>
              (id in ds && ds[id].sysId == ObservedAll(ds, ss)[id].sysId)
              || exists s | s in ss :: s.id == id && s.sysId == ObservedAll(ds, ss)[id].sysId
  {
    if ss != [] {
      var front, last := ss[..|ss| - 1], ss[|ss| - 1];
      assert ss == front + [last];
      SightingsAreLocal(ds, front, id);
      assert last in ss;
    }
  }

  /** Sighting i is the last of these of its id that brings what `brings` asks for. */
  ghost predicate LastOf(ss: seq<Sighting>, i: nat, id: string, brings: Sighting -> bool) {
    && i < |ss| && ss[i].id == id && brings(ss[i])
    && forall j | i < j < |ss| :: ss[j].id != id || !brings(ss[j])
  }

  ghost predicate NoneOf(ss: seq<Sighting>, id: string, brings: Sighting -> bool) {
    forall i | 0 <= i < |ss| :: ss[i].id != id || !brings(ss[i])
  }

  /**
    After any sightings, an id's sys_id is that of its last sighting with one, its class that of
    its last sighting with one, and its name that of its last sighting; what no sighting brings
    stays as it was, which for a new id is blank.
   */
  lemma {:induction false} LastSightingWins(ds: Devices, ss: seq<Sighting>, id: string, i: nat)
    requires id in ObservedAll(ds, ss)
    ensures var e, was := ObservedAll(ds, ss)[id], if id in ds then ds[id] else Entry("", "", "");
            && (LastOf(ss, i, id, (s: Sighting) => s.sysId != "") ==> e.sysId == ss[i].sysId)
            && (NoneOf(ss, id, (s: Sighting) => s.sysId != "") ==> e.sysId == was.sysId)
            && (LastOf(ss, i, id, (s: Sighting) => s.className != "") ==> e.className == ss[i].className)
            && (NoneOf(ss, id, (s: Sighting) => s.className != "") ==> e.className == was.className)
            && (LastOf(ss, i, id, (s: Sighting) => true) ==> e.name == ss[i].name)
            && (NoneOf(ss, id, (s: Sighting) => true) ==> e.name == was.name)
  {
    if ss != [] {
      var n := |ss| - 1;
      var front := ss[..n];
      assert forall j | 0 <= j < n :: front[j] == ss[j];
      if id in ObservedAll(ds, front) { LastSightingWins(ds, front, id, i); } else { UnseenBefore(ds, front, id); }
    }
  }

  lemma UnseenBefore(ds: Devices, ss: seq<Sighting>, id: string)
    requires id !in ObservedAll(ds, ss)
    ensures id !in ds && forall i | 0 <= i < |ss| :: ss[i].id != id
  {
    SightingsAreLocal(ds, ss, id);
  }

  class State {
    var devices: Devices

    constructor (devices: Devices)
      ensures this.devices == devices
    {
      this.devices := devices;
    }

    method Observe(s: Sighting)
      modifies this
      ensures devices == Observed(old(devices), s)
    {
      var entry := if s.id in devices then devices[s.id] else Entry("", "", "");
      entry := entry.(name := s.name);
      if s.sysId != "" { entry := entry.(sysId := s.sysId); }
      if s.className != "" { entry := entry.(className := s.className); }
      devices := devices[s.id := entry];
    }

    method Forget(ids: set<string>)
      modifies this
      ensures devices == old(devices) - ids
    {
      var rest := ids;
      while rest != {}
        invariant rest <= ids && devices == old(devices) - (ids - rest)
        decreases rest
      {
        var id :| id in rest;
        devices := devices - {id};
        rest := rest - {id};
      }
      assert ids - rest == ids;
    }
  }
}
