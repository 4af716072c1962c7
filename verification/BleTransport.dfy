/** The one radio that every BLE session shares (src/service/ble/transport.rs). */
module BleTransport {
  import opened Protocol

  /** What a scan hit shows of a device; `resolves` says whether its peripheral and properties could be read. */
  datatype Advert = Advert(id: string, services: seq<string>, name: Option<string>, resolves: bool)

  datatype Filter = Filter(services: seq<string>, namePrefix: Option<string>)

  /** An empty service filter matches everything, else at least one service must overlap. */
  predicate MatchesServices(advertised: seq<string>, filter: seq<string>) {
    filter == [] || exists i :: 0 <= i < |filter| && filter[i] in advertised
  }

  predicate MatchesName(name: Option<string>, prefix: Option<string>) {
    prefix.None? || (name.Some? && prefix.value <= name.value)
  }

  predicate IsHit(advert: Advert, filter: Filter) {
    advert.resolves && MatchesServices(advert.services, filter.services) && MatchesName(advert.name, filter.namePrefix)
  }

  /** A hit shares a service with the filter, if that names any, and its name starts as the filter asks, if it does. */
  lemma HitsFitTheFilter(advert: Advert, filter: Filter)
    ensures IsHit(advert, filter) <==>
      && advert.resolves
      && (filter.services == [] || exists service :: service in advert.services && service in filter.services)
      && (filter.namePrefix.Some? ==> exists rest :: advert.name == Some(filter.namePrefix.value + rest))
  {
    if filter.namePrefix.Some? && advert.name.Some? {
      var prefix, name := filter.namePrefix.value, advert.name.value;
      if prefix <= name { assert name == prefix + name[|prefix|..]; }
    }
    if service :| service in advert.services && service in filter.services {
      var i :| 0 <= i < |filter.services| && filter.services[i] == service;
      assert filter.services[i] in advert.services;
    }
  }

  /** `scanning` is the generation whose `start_scan` is in effect, if the adapter scans at all. */
  datatype Radio = Radio(generation: nat, scanning: Option<nat>, discovered: set<string>)

  /** The locked part of `scan`, by how the adapter's stop and start come out. */
  function Started(r: Radio, stopOk: bool, startOk: bool): Radio {
    r.(generation := r.generation + 1,
       scanning := if startOk then Some(r.generation + 1) else if stopOk then None else r.scanning)
  }

  function Released(r: Radio, generation: nat, stopOk: bool): Radio {
    if r.generation == generation && stopOk then r.(scanning := None) else r
  }

  /** An event of the scan's stream. */
  function Noticed(r: Radio, advert: Advert, filter: Filter): Radio {
    if IsHit(advert, filter) then r.(discovered := r.discovered + {advert.id}) else r
  }

  class Ble {
    var generation: nat
    var scanning: Option<nat>
    var discovered: set<string>

    function View(): Radio
      reads this
    {
      Radio(generation, scanning, discovered)
    }

    constructor ()
      ensures View() == Radio(0, None, {})
    {
      generation, scanning, discovered := 0, None, {};
    }

    /** Stops whatever scan runs, then starts the new one, all under the lock; a failed stop is ignored. */
    method StartScan(stopOk: bool, startOk: bool) returns (mine: Option<nat>)
      modifies this
      ensures View() == Started(old(View()), stopOk, startOk)
      ensures mine == if startOk then Some(generation) else None
      ensures mine.Some? ==> scanning == mine
    {
      generation := generation + 1;
      if stopOk { scanning := None; }
      if !startOk { return None; }
      scanning := Some(generation);
      mine := Some(generation);
    }

    method ReleaseScan(mine: nat, stopOk: bool) returns (ok: bool)
      modifies this
      ensures View() == Released(old(View()), mine, stopOk)
      ensures ok <==> stopOk || old(generation) != mine
    {
      ok := true;
      if generation == mine {
        if stopOk { scanning := None; } else { ok := false; }
      }
    }

    /** The stream's filter step; a hit is remembered for `connect` before it is shown. */
    method Notice(advert: Advert, filter: Filter) returns (hit: bool)
      modifies this
      ensures View() == Noticed(old(View()), advert, filter)
      ensures hit <==> IsHit(advert, filter)
    {
      if !advert.resolves { return false; }
      var overlaps := filter.services == [];
      var i := 0;
      while i < |filter.services| && !overlaps
        invariant 0 <= i <= |filter.services|
        invariant overlaps <==> filter.services == [] || exists j :: 0 <= j < i && filter.services[j] in advert.services
      {
        overlaps := filter.services[i] in advert.services;
        i := i + 1;
      }
      if !overlaps { return false; }
      if filter.namePrefix.Some? && !(advert.name.Some? && filter.namePrefix.value <= advert.name.value) { return false; }
      discovered := discovered + {advert.id};
      hit := true;
    }

    /** `connect` finds only what some scan has seen. */
    method Lookup(id: string) returns (known: bool)
      ensures known <==> id in discovered
    {
      known := id in discovered;
    }
  }
}
