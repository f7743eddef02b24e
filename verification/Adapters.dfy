/**
 * Two monitoring adapters over two surfaces of one simulator engine, and exactly when the agent
 * cannot tell them apart.
 */
module Adapters {
  import opened Basics
  import opened Text
  import opened Packs
  import opened Simulator

  datatype MonitorAsset = MonitorAsset(id: string, kind: string, state: string)

  datatype MonitorEvent = MonitorEvent(asset: string, severity: string, message: string, messageId: string, ts: string)

  type Faults = map<string, Option<InjectedFault>>

  function FaultAt(faults: Faults, id: string): Option<InjectedFault> {
    if id in faults then faults[id] else None
  }

  function StateOf(fault: Option<InjectedFault>): string {
    if fault.Some? then "faulted" else "healthy"
  }

  // ---------------------------------------------------------------- assets

  const SYSTEMS := "/redfish/v1/Systems/"

  /** The `@odata.id` that the Redfish surface prints for an asset. */
  function SystemPath(id: string): string {
    SYSTEMS + id
  }

  predicate IsSlash(c: char) {
    c == '/'
  }

  /** The asset id that the adapter reads back: `url.rstrip("/").split("/")[-1]`. */
  function IdOfPath(path: string): string {
    FileName(TrimRight(path, IsSlash))
  }

  /** An id that makes one path segment. */
  predicate OneSegment(id: string) {
    id != "" && '/' !in id
  }

  lemma LastIndexIs(s: string, i: int)
    requires 0 <= i < |s| && s[i] == '/' && forall k :: i < k < |s| ==> s[k] != '/'
    ensures LastIndexOf(s, '/') == i
  {
  }

  /** An id survives being printed into a path and parsed back exactly when it is one segment. */
  lemma PathRoundTrip(id: string)
    ensures IdOfPath(SystemPath(id)) == id <==> OneSegment(id)
  {
    var path := SystemPath(id);
    var n := |SYSTEMS|;
    assert path[n - 1] == '/' && path[n..] == id;
    if OneSegment(id) {
      assert path[|path| - 1] == id[|id| - 1];
      assert forall k :: n <= k < |path| ==> path[k] == id[k - n];
      assert TrimRight(path, IsSlash) == path;
      LastIndexIs(path, n - 1);
    } else if id == "" {
      assert path == SYSTEMS;
      assert KeptUpTo(path, IsSlash, n) == KeptUpTo(path, IsSlash, n - 1) == n - 1;
      assert path[..n - 1][11] == '/';
      LastIndexIs(path[..n - 1], 11);
    } else {
      assert '/' !in IdOfPath(path);
    }
  }

  /** What the Redfish adapter reads of one system resource. */
  datatype System = System(kind: string, health: string)

  /** What the Redfish surface says of it; the adapter takes anything but "OK" for a fault. */
  function HealthOf(fault: Option<InjectedFault>): string {
    if fault.Some? then "Critical" else "OK"
  }

  /** An id that a URL carries as it is: one segment, nothing that ends, escapes or climbs out of the path. */
  predicate UrlPlain(id: string) {
    OneSegment(id) && id != "." && id != ".." && forall i :: 0 <= i < |id| ==> PathChar(id[i])
  }

  predicate PathChar(c: char) {
    c >= ' ' && c != '?' && c != '#' && c != '%' && c != '\U{7F}'
  }

  /** One fetched resource: such an id reaches its system, other URLs answer as they may. */
  function Fetch(
    faults: Faults, types: map<string, string>, elsewhere: string -> Option<System>, id: string): Option<System>
  {
    if UrlPlain(id) then
      if id in faults then Some(System(TypeOf(types, id), HealthOf(faults[id]))) else None
    else elsewhere(SystemPath(id))
  }

  function Fetched(id: string, system: System): MonitorAsset {
    MonitorAsset(IdOfPath(SystemPath(id)), system.kind, if system.health != "OK" then "faulted" else "healthy")
  }

  function Prepended<T>(xs: seq<T>, rest: Option<seq<T>>): Option<seq<T>> {
    if rest.None? then None else Some(xs + rest.value)
  }

  lemma PrependedTwice<T>(xs: seq<T>, ys: seq<T>, rest: Option<seq<T>>)
    ensures Prepended(xs, Prepended(ys, rest)) == Prepended(xs + ys, rest)
    ensures Prepended([], rest) == rest && Prepended(xs, Some([])) == Some(xs)
  {
    if rest.Some? {
      Associates(xs, ys, rest.value);
      assert [] + rest.value == rest.value;
    }
    assert xs + [] == xs;
  }

  /** `None` when a fetch answers with an error status, which the adapter raises. */
  function RedfishAssets(
    ids: seq<string>, faults: Faults, types: map<string, string>, elsewhere: string -> Option<System>)
    : Option<seq<MonitorAsset>>
  {
    if ids == [] then Some([])
    else
      var system := Fetch(faults, types, elsewhere, ids[0]);
      if system.None? then None
      else Prepended([Fetched(ids[0], system.value)], RedfishAssets(ids[1..], faults, types, elsewhere))
  }

  function GenericAssets(ids: seq<string>, faults: Faults, types: map<string, string>): (assets: seq<MonitorAsset>)
    ensures |assets| == |ids|
    ensures forall i :: 0 <= i < |ids| ==> assets[i] == MonitorAsset(ids[i], TypeOf(types, ids[i]), StateOf(FaultAt(faults, ids[i])))
  {
    seq(|ids|, i requires 0 <= i < |ids| => MonitorAsset(ids[i], TypeOf(types, ids[i]), StateOf(FaultAt(faults, ids[i]))))
  }

  lemma SameLists<T>(x: T, xs: seq<T>, y: T, ys: seq<T>)
    ensures [x] + xs == [y] + ys <==> x == y && xs == ys
  {
    if [x] + xs == [y] + ys {
      assert ([x] + xs)[0] == ([y] + ys)[0];
      assert ([x] + xs)[1..] == ([y] + ys)[1..];
    }
  }

  lemma FirstGenericAsset(ids: seq<string>, faults: Faults, types: map<string, string>)
    requires ids != []
    ensures GenericAssets(ids, faults, types)
         == [MonitorAsset(ids[0], TypeOf(types, ids[0]), StateOf(FaultAt(faults, ids[0])))] + GenericAssets(ids[1..], faults, types)
  {
  }

  /** A resource of the right kind whose health is "OK" exactly when the asset carries no fault. */
  predicate AnswersFor(faults: Faults, types: map<string, string>, id: string, system: Option<System>) {
    system.Some? && system.value.kind == TypeOf(types, id) && (system.value.health == "OK" <==> FaultAt(faults, id).None?)
  }

  /** The id is parsed back, and its URL reaches its system or something that answers just like it. */
  predicate ReadsRight(faults: Faults, types: map<string, string>, elsewhere: string -> Option<System>, id: string) {
    UrlPlain(id) || (OneSegment(id) && AnswersFor(faults, types, id, elsewhere(SystemPath(id))))
  }

  predicate AllReadRight(
    ids: seq<string>, faults: Faults, types: map<string, string>, elsewhere: string -> Option<System>)
  {
    forall id :: id in ids ==> ReadsRight(faults, types, elsewhere, id)
  }

  lemma AllReads(ids: seq<string>, faults: Faults, types: map<string, string>, elsewhere: string -> Option<System>)
    requires ids != []
    ensures AllReadRight(ids, faults, types, elsewhere)
      <==> ReadsRight(faults, types, elsewhere, ids[0]) && AllReadRight(ids[1..], faults, types, elsewhere)
  {
    assert ids == [ids[0]] + ids[1..];
  }

  lemma FetchAgrees(faults: Faults, types: map<string, string>, elsewhere: string -> Option<System>, id: string)
    requires id in faults
    ensures var system := Fetch(faults, types, elsewhere, id);
      (system.Some? && Fetched(id, system.value) == MonitorAsset(id, TypeOf(types, id), StateOf(FaultAt(faults, id))))
      <==> ReadsRight(faults, types, elsewhere, id)
  {
    PathRoundTrip(id);
  }

  /** The two adapters list the same assets exactly when every asset id reads right. */
  lemma {:induction false} AssetListsAgree(
    ids: seq<string>, faults: Faults, types: map<string, string>, elsewhere: string -> Option<System>)
    requires forall id :: id in ids ==> id in faults
    ensures RedfishAssets(ids, faults, types, elsewhere) == Some(GenericAssets(ids, faults, types))
      <==> AllReadRight(ids, faults, types, elsewhere)
  {
    if ids != [] {
      var id, rest := ids[0], ids[1..];
      AssetListsAgree(rest, faults, types, elsewhere);
      AllReads(ids, faults, types, elsewhere);
      FetchAgrees(faults, types, elsewhere, id);
      FirstGenericAsset(ids, faults, types);
      var system := Fetch(faults, types, elsewhere, id);
      var others := RedfishAssets(rest, faults, types, elsewhere);
      if system.Some? && others.Some? {
        SameLists(
          Fetched(id, system.value), others.value,
          MonitorAsset(id, TypeOf(types, id), StateOf(FaultAt(faults, id))), GenericAssets(rest, faults, types));
      }
    }
  }

  /** Plain ids always do; an id that is empty or holds a slash never does, whatever other URLs answer. */
  lemma PlainIdsAgree(
    ids: seq<string>, faults: Faults, types: map<string, string>, elsewhere: string -> Option<System>)
    requires forall id :: id in ids ==> id in faults
    ensures var agree := RedfishAssets(ids, faults, types, elsewhere) == Some(GenericAssets(ids, faults, types));
      && ((forall id :: id in ids ==> UrlPlain(id)) ==> agree)
      && (agree ==> forall id :: id in ids ==> OneSegment(id))
  {
    AssetListsAgree(ids, faults, types, elsewhere);
    if AllReadRight(ids, faults, types, elsewhere) {
      forall id | id in ids
        ensures OneSegment(id)
      {
        assert ReadsRight(faults, types, elsewhere, id);
      }
    }
  }

  /** Each asset under its own id, as "faulted" exactly while it carries a fault: what the agent is to see. */
  ghost predicate ShowsFleet(
    ids: seq<string>, faults: Faults, types: map<string, string>, assets: seq<MonitorAsset>)
  {
    && |assets| == |ids|
    && forall i :: 0 <= i < |ids| ==>
      && assets[i].id == ids[i]
      && assets[i].kind == (if ids[i] in types then types[ids[i]] else "unknown")
      && assets[i].state == (if ids[i] in faults && faults[ids[i]].Some? then "faulted" else "healthy")
  }

  /** The generic surface always shows it, the Redfish adapter whenever all ids are plain. */
  lemma FleetIsShown(
    ids: seq<string>, faults: Faults, types: map<string, string>, elsewhere: string -> Option<System>)
    requires forall id :: id in ids ==> id in faults
    ensures ShowsFleet(ids, faults, types, GenericAssets(ids, faults, types))
    ensures (forall id :: id in ids ==> UrlPlain(id)) ==>
      && RedfishAssets(ids, faults, types, elsewhere).Some?
      && ShowsFleet(ids, faults, types, RedfishAssets(ids, faults, types, elsewhere).value)
  {
    PlainIdsAgree(ids, faults, types, elsewhere);
  }

  // ---------------------------------------------------------------- events

  datatype Alert = Alert(severity: string, message: string, messageId: string, ts: string)

  /** One member of the Redfish event collection. */
  datatype EventMember = EventMember(id: string, alerts: seq<Alert>)

  function FirstMessage(fault: InjectedFault, fallback: string): string {
    if fault.logEntries == [] then fallback else fault.logEntries[0].message
  }

  function BuildEvent(id: string, fault: InjectedFault): EventMember {
    EventMember(id, [Alert(fault.severity, FirstMessage(fault, ""), fault.messageId, fault.injectedAt)])
  }

  function RedfishMembers(ids: seq<string>, faults: Faults): seq<EventMember> {
    if ids == [] then []
    else
      var fault := FaultAt(faults, ids[0]);
      (if fault.Some? then [BuildEvent(ids[0], fault.value)] else []) + RedfishMembers(ids[1..], faults)
  }

  function EventsOf(id: string, alerts: seq<Alert>): (events: seq<MonitorEvent>)
    ensures |events| == |alerts|
    ensures forall i :: 0 <= i < |alerts| ==>
      events[i] == MonitorEvent(id, alerts[i].severity, alerts[i].message, alerts[i].messageId, alerts[i].ts)
  {
    seq(|alerts|, i requires 0 <= i < |alerts| =>
      MonitorEvent(id, alerts[i].severity, alerts[i].message, alerts[i].messageId, alerts[i].ts))
  }

  /** The Redfish adapter reads every alert of every member. */
  function Flatten(members: seq<EventMember>): seq<MonitorEvent> {
    if members == [] then [] else EventsOf(members[0].id, members[0].alerts) + Flatten(members[1..])
  }

  function GenericEvent(id: string, fault: InjectedFault): MonitorEvent {
    MonitorEvent(id, fault.severity, FirstMessage(fault, "Fault on " + id), fault.messageId, fault.injectedAt)
  }

  function GenericEvents(ids: seq<string>, faults: Faults): seq<MonitorEvent> {
    if ids == [] then []
    else
      var fault := FaultAt(faults, ids[0]);
      (if fault.Some? then [GenericEvent(ids[0], fault.value)] else []) + GenericEvents(ids[1..], faults)
  }

  predicate HasMessage(faults: Faults, id: string) {
    FaultAt(faults, id).Some? ==> FaultAt(faults, id).value.logEntries != []
  }

  /** The two adapters report the same events exactly when every active fault has a log entry. */
  lemma {:induction false} EventListsAgree(ids: seq<string>, faults: Faults)
    ensures Flatten(RedfishMembers(ids, faults)) == GenericEvents(ids, faults)
      <==> forall id :: id in ids ==> HasMessage(faults, id)
  {
    if ids != [] {
      var id, rest := ids[0], ids[1..];
      assert ids == [id] + rest;
      EventListsAgree(rest, faults);
      assert (forall x :: x in ids ==> HasMessage(faults, x))
        <==> HasMessage(faults, id) && forall x :: x in rest ==> HasMessage(faults, x);
      var fault := FaultAt(faults, id);
      if fault.Some? {
        var members := RedfishMembers(rest, faults);
        var first := BuildEvent(id, fault.value);
        assert ([first] + members)[1..] == members;
        var seen := EventsOf(id, first.alerts)[0];
        assert EventsOf(id, first.alerts) == [seen];
        SameMessage(id, fault.value);
        SameLists(seen, Flatten(members), GenericEvent(id, fault.value), GenericEvents(rest, faults));
      } else {
        assert RedfishMembers(ids, faults) == RedfishMembers(rest, faults);
      }
    }
  }

  lemma SameMessage(id: string, fault: InjectedFault)
    ensures FirstMessage(fault, "") == FirstMessage(fault, "Fault on " + id) <==> fault.logEntries != []
  {
  }

  /** The event that shows this fault: its own severity, message id and time, and its first log message. */
  ghost predicate ShowsFault(e: MonitorEvent, id: string, fault: InjectedFault) {
    && e.asset == id && e.severity == fault.severity && e.messageId == fault.messageId && e.ts == fault.injectedAt
    && e.message == if fault.logEntries != [] then fault.logEntries[0].message else "Fault on " + id
  }

  ghost predicate ShowsSome(e: MonitorEvent, ids: seq<string>, faults: Faults) {
    exists id :: id in ids && FaultAt(faults, id).Some? && ShowsFault(e, id, FaultAt(faults, id).value)
  }

  /** The events are those that show a fault of a listed asset. */
  lemma {:induction false} EventsShowFaults(ids: seq<string>, faults: Faults, e: MonitorEvent)
    ensures e in GenericEvents(ids, faults) <==> ShowsSome(e, ids, faults)
  {
    if ids != [] {
      var id, rest := ids[0], ids[1..];
      var fault := FaultAt(faults, id);
      EventsShowFaults(rest, faults, e);
      assert forall x :: x in ids <==> x == id || x in rest;
      assert fault.Some? ==> (e == GenericEvent(id, fault.value) <==> ShowsFault(e, id, fault.value));
    }
  }

  /** An injected scenario is seen, with its own severity, message id and first log message, by both adapters. */
  lemma InjectionIsSeen(ids: seq<string>, faults: Faults, scenario: Scenario, asset: string, now: string)
    requires asset in ids && asset in faults && scenario.logEntries != []
    ensures var after := faults[asset := Some(FaultOf(scenario, asset, now))];
      var e := MonitorEvent(asset, scenario.severity, scenario.logEntries[0].message, scenario.messageId, now);
      e in GenericEvents(ids, after)
      && ((forall id :: id in ids ==> HasMessage(faults, id)) ==> e in Flatten(RedfishMembers(ids, after)))
  {
    var fault := FaultOf(scenario, asset, now);
    var after := faults[asset := Some(fault)];
    var e := MonitorEvent(asset, scenario.severity, scenario.logEntries[0].message, scenario.messageId, now);
    EventsShowFaults(ids, after, e);
    assert FaultAt(after, asset) == Some(fault) && ShowsFault(e, asset, fault);
    if forall id :: id in ids ==> HasMessage(faults, id) {
      assert forall id :: id in ids ==> HasMessage(after, id);
      EventListsAgree(ids, after);
    }
  }

  // ---------------------------------------------------------------- as the services compute them

  /** The Redfish adapter fetches the listed systems one by one and gives up at the first error. */
  method ListRedfishAssets(
    ids: seq<string>, faults: Faults, types: map<string, string>, elsewhere: string -> Option<System>)
    returns (r: Option<seq<MonitorAsset>>)
    ensures r == RedfishAssets(ids, faults, types, elsewhere)
  {
    var assets := [];
    var i := 0;
    assert ids[0..] == ids;
    PrependedTwice([], [], RedfishAssets(ids, faults, types, elsewhere));
    while i < |ids|
      invariant 0 <= i <= |ids|
      invariant RedfishAssets(ids, faults, types, elsewhere)
             == Prepended(assets, RedfishAssets(ids[i..], faults, types, elsewhere))
    {
      assert ids[i..][1..] == ids[i + 1..];
      var system := Fetch(faults, types, elsewhere, ids[i]);
      if system.None? {
        return None;
      }
      PrependedTwice(assets, [Fetched(ids[i], system.value)], RedfishAssets(ids[i + 1..], faults, types, elsewhere));
      assets := assets + [Fetched(ids[i], system.value)];
      i := i + 1;
    }
    PrependedTwice(assets, [], None);
    return Some(assets);
  }

  lemma NextGenericEvent(ids: seq<string>, faults: Faults, i: nat)
    requires i < |ids|
    ensures var fault := FaultAt(faults, ids[i]);
      GenericEvents(ids[i..], faults)
      == if fault.Some? then [GenericEvent(ids[i], fault.value)] + GenericEvents(ids[i + 1..], faults)
         else GenericEvents(ids[i + 1..], faults)
  {
    assert ids[i..][1..] == ids[i + 1..];
  }

  lemma NextMember(ids: seq<string>, faults: Faults, i: nat)
    requires i < |ids|
    ensures var fault := FaultAt(faults, ids[i]);
      RedfishMembers(ids[i..], faults)
      == if fault.Some? then [BuildEvent(ids[i], fault.value)] + RedfishMembers(ids[i + 1..], faults)
         else RedfishMembers(ids[i + 1..], faults)
  {
    assert ids[i..][1..] == ids[i + 1..];
  }

  method ListRedfishMembers(engine: SimulatorEngine) returns (members: seq<EventMember>)
    ensures members == RedfishMembers(engine.assetIds, engine.faults)
  {
    var ids := engine.assetIds;
    members := [];
    var i := 0;
    while i < |ids|
      invariant 0 <= i <= |ids|
      invariant members + RedfishMembers(ids[i..], engine.faults) == RedfishMembers(ids, engine.faults)
    {
      NextMember(ids, engine.faults, i);
      var fault := engine.GetFault(ids[i]);
      if fault.Some? {
        var event := BuildEvent(ids[i], fault.value);
        Associates(members, [event], RedfishMembers(ids[i + 1..], engine.faults));
        members := members + [event];
      }
      i := i + 1;
    }
  }

  method ListGenericEvents(engine: SimulatorEngine) returns (events: seq<MonitorEvent>)
    ensures events == GenericEvents(engine.assetIds, engine.faults)
  {
    var ids := engine.assetIds;
    events := [];
    var i := 0;
    while i < |ids|
      invariant 0 <= i <= |ids|
      invariant events + GenericEvents(ids[i..], engine.faults) == GenericEvents(ids, engine.faults)
    {
      NextGenericEvent(ids, engine.faults, i);
      var fault := engine.GetFault(ids[i]);
      if fault.Some? {
        var event := GenericEvent(ids[i], fault.value);
        Associates(events, [event], GenericEvents(ids[i + 1..], engine.faults));
        events := events + [event];
      }
      i := i + 1;
    }
  }

  method RedfishAdapterEvents(members: seq<EventMember>) returns (events: seq<MonitorEvent>)
    ensures events == Flatten(members)
  {
    events := [];
    var i := 0;
    while i < |members|
      invariant 0 <= i <= |members|
      invariant events + Flatten(members[i..]) == Flatten(members)
    {
      assert members[i..][1..] == members[i + 1..];
      ghost var before := events;
      ghost var wanted := EventsOf(members[i].id, members[i].alerts);
      var j := 0;
      while j < |members[i].alerts|
        invariant 0 <= j <= |members[i].alerts|
        invariant events == before + wanted[..j]
      {
        var evt := members[i].alerts[j];
        events := events + [MonitorEvent(members[i].id, evt.severity, evt.message, evt.messageId, evt.ts)];
        assert wanted[..j + 1] == wanted[..j] + [wanted[j]];
        j := j + 1;
      }
      assert wanted[..j] == wanted;
      Associates(before, wanted, Flatten(members[i + 1..]));
      i := i + 1;
    }
  }
}
