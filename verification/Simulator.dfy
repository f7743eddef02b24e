/** The simulator's engine: which asset carries which injected fault. */
module Simulator {
  import opened Basics
  import opened Packs

  datatype InjectedFault = InjectedFault(
    scenarioId: string,
    assetId: string,
    faultType: string,
    injectedAt: string,
    severity: string,
    messageId: string,
    logEntries: seq<LogEntry>)

  datatype UnknownId = UnknownAsset(asset: string) | UnknownScenario(scenario: string)

  function FaultOf(s: Scenario, asset: string, now: string): InjectedFault {
    InjectedFault(s.id, asset, s.faultType, now, s.severity, s.messageId, s.logEntries)
  }

  function InjectError(
    scenarios: map<string, Scenario>, faults: map<string, Option<InjectedFault>>, asset: string, scenario: string)
    : Option<UnknownId>
  {
    if asset !in faults then Some(UnknownAsset(asset))
    else if scenario !in scenarios then Some(UnknownScenario(scenario))
    else None
  }

  function TypeOf(types: map<string, string>, asset: string): string {
    if asset in types then types[asset] else "unknown"
  }

  class SimulatorEngine {
    const scenarios: map<string, Scenario>
    const assetIds: seq<string>
    const assetTypes: map<string, string>
    var faults: map<string, Option<InjectedFault>>

    ghost predicate Valid()
      reads this
    {
      forall a :: a in faults <==> a in assetIds
    }

    /** Starts with every asset healthy. */
    constructor (pack: LoadedPack, types: map<string, string>)
      ensures Valid() && scenarios == pack.scenariosById && assetIds == pack.assets && assetTypes == types
      ensures forall a :: a in faults ==> faults[a].None?
    {
      scenarios, assetIds, assetTypes := pack.scenariosById, pack.assets, types;
      faults := map a | a in pack.assets :: None;
    }

    function GetFault(asset: string): (r: Option<InjectedFault>)
      reads this
      ensures r.Some? <==> asset in faults && faults[asset].Some?
      ensures r.Some? ==> r == faults[asset]
    {
      if asset in faults then faults[asset] else None
    }

    method Inject(asset: string, scenario: string, now: string) returns (r: Result<InjectedFault, UnknownId>)
      requires Valid()
      modifies this
      ensures Valid()
      ensures var error := InjectError(scenarios, old(faults), asset, scenario);
        if error.Some? then r == Err(error.value) && faults == old(faults)
        else r == Ok(FaultOf(scenarios[scenario], asset, now)) && faults == old(faults)[asset := Some(r.value)]
    {
      if asset !in faults {
        return Err(UnknownAsset(asset));
      }
      if scenario !in scenarios {
        return Err(UnknownScenario(scenario));
      }
      var s := scenarios[scenario];
      var fault := InjectedFault(s.id, asset, s.faultType, now, s.severity, s.messageId, s.logEntries);
      faults := faults[asset := Some(fault)];
      return Ok(fault);
    }

    method Clear(asset: string) returns (r: Result<(), UnknownId>)
      requires Valid()
      modifies this
      ensures Valid()
      ensures if asset in old(faults) then r == Ok(()) && faults == old(faults)[asset := None]
              else r == Err(UnknownAsset(asset)) && faults == old(faults)
    {
      if asset !in faults {
        return Err(UnknownAsset(asset));
      }
      faults := faults[asset := None];
      return Ok(());
    }
  }
}
