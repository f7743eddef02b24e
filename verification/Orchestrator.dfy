/**
 * The orchestrator: rotation, its own record of what is active, and the simulator it drives over a
 * network that may lose a request or its answer. Remediation clears the simulator behind its back.
 */
module Orchestrator {
  import opened Basics
  import opened Packs
  import opened Simulator

  // ---------------------------------------------------------------- rotation

  function Candidates(ids: seq<string>, last: Option<string>): seq<string> {
    var fresher := Others(ids, last);
    if fresher == [] then ids else fresher
  }

  function Others(ids: seq<string>, last: Option<string>): seq<string> {
    if ids == [] then []
    else (if last == Some(ids[0]) then [] else [ids[0]]) + Others(ids[1..], last)
  }

  lemma {:induction false} OthersAre(ids: seq<string>, last: Option<string>, id: string)
    ensures id in Others(ids, last) <==> id in ids && last != Some(id)
  {
    if ids != [] {
      OthersAre(ids[1..], last, id);
      assert ids == [ids[0]] + ids[1..];
    }
  }

  /** Any id but the last may come next; the last one only if there is no other. */
  lemma CandidatesAre(ids: seq<string>, last: Option<string>, id: string)
    ensures id in Candidates(ids, last)
      <==> id in ids && (last != Some(id) || forall other :: other in ids ==> other == id)
  {
    forall other: string
      ensures other in Others(ids, last) <==> other in ids && last != Some(other)
    {
      OthersAre(ids, last, other);
    }
    var fresher := Others(ids, last);
    if fresher != [] { assert fresher[0] in fresher; }
    if last != Some(id) && id in ids { assert id in fresher; }
  }

  class RotationPolicy {
    const ids: seq<string>
    var last: Option<string>

    constructor (ids: seq<string>)
      requires ids != []
      ensures this.ids == ids && last == None
    {
      this.ids := ids;
      last := None;
    }

    /** `pick` is the random choice among the candidates. No repeat unless there is nothing else. */
    method Next(pick: nat) returns (chosen: string)
      requires ids != [] && pick < |Candidates(ids, last)|
      modifies this
      ensures chosen == Candidates(ids, old(last))[pick] && last == Some(chosen)
      ensures chosen in ids
      ensures (exists id :: id in ids && old(last) != Some(id)) ==> old(last) != Some(chosen)
    {
      ghost var before := last;
      var candidates := Candidates(ids, last);
      chosen := candidates[pick];
      last := Some(chosen);
      assert chosen in candidates;
      forall id: string
        ensures id in Others(ids, before) <==> id in ids && before != Some(id)
      {
        OthersAre(ids, before, id);
      }
    }

    method Force(id: string) returns (known: bool)
      modifies this
      ensures known <==> id in ids
      ensures last == if known then Some(id) else old(last)
    {
      known := id in ids;
      if known {
        last := Some(id);
      }
    }

    method Reset()
      modifies this
      ensures last == None
    {
      last := None;
    }
  }

  // ---------------------------------------------------------------- remote calls

  /** What became of a call: answered, never arrived, or took effect but its answer was lost. */
  datatype Fate = Delivered | Lost | AnswerLost

  datatype Reply = Done | Unreachable | Rejected(error: UnknownId)

  type Faults = map<string, Option<InjectedFault>>

  type Active = map<string, Option<string>>

  function ClearCall(sim: Faults, asset: string, fate: Fate): (Faults, Reply) {
    match fate
    case Lost => (sim, Unreachable)
    case AnswerLost => (if asset in sim then sim[asset := None] else sim, Unreachable)
    case Delivered => if asset in sim then (sim[asset := None], Done) else (sim, Rejected(UnknownAsset(asset)))
  }

  function InjectCall(
    scenarios: map<string, Scenario>, sim: Faults, asset: string, scenario: string, fate: Fate, now: string)
    : (Faults, Reply)
  {
    var error := InjectError(scenarios, sim, asset, scenario);
    if fate.Lost? then (sim, Unreachable)
    else if error.Some? then (sim, if fate.Delivered? then Rejected(error.value) else Unreachable)
    else (sim[asset := Some(FaultOf(scenarios[scenario], asset, now))], if fate.Delivered? then Done else Unreachable)
  }

  // ---------------------------------------------------------------- requests

  /** Clears what is active, asset by asset, and stops at the first call that does not come back well. */
  function ClearActive(order: seq<string>, active: Active, sim: Faults, fates: seq<Fate>): (Active, Faults, Reply)
    requires |fates| == |order| && forall a :: a in order ==> a in active
  {
    if order == [] then (active, sim, Done)
    else if active[order[0]].None? then ClearActive(order[1..], active, sim, fates[1..])
    else
      var (sim1, reply) := ClearCall(sim, order[0], fates[0]);
      if !reply.Done? then (active, sim1, reply)
      else ClearActive(order[1..], active[order[0] := None], sim1, fates[1..])
  }

  /** `refused` remembers whether the engine ever turned the orchestrator down for an unknown id. */
  datatype State = State(active: Active, sim: Faults, last: Option<string>, refused: bool)

  datatype Request =
    | RunNext(chosen: string, fates: seq<Fate>, fate: Fate, now: string)
    | RunSpecific(scenario: string, fates: seq<Fate>, fate: Fate, now: string)
    | Reset(fates: seq<Fate>)

  function InjectScenario(pack: LoadedPack, s: State, id: string, fates: seq<Fate>, fate: Fate, now: string)
    : (State, Reply)
    requires |fates| == |pack.assets| && (forall a :: a in pack.assets ==> a in s.active) && id in pack.scenariosById
  {
    var (active1, sim1, reply1) := ClearActive(pack.assets, s.active, s.sim, fates);
    if !reply1.Done? then (Noted(s.(active := active1, sim := sim1), reply1), reply1)
    else
      var target := pack.scenariosById[id].targetAsset;
      var (sim2, reply2) := InjectCall(pack.scenariosById, sim1, target, id, fate, now);
      (Noted(s.(active := if reply2.Done? then active1[target := Some(id)] else active1, sim := sim2), reply2), reply2)
  }

  function Noted(s: State, reply: Reply): State {
    s.(refused := s.refused || reply.Rejected?)
  }

  ghost predicate RequestFits(pack: LoadedPack, s: State, r: Request) {
    match r
    case RunNext(chosen, fates, _, _) =>
      |fates| == |pack.assets| && chosen in Candidates(ScenarioIds(pack.scenarios), s.last)
    case RunSpecific(_, fates, _, _) => |fates| == |pack.assets|
    case Reset(fates) => |fates| == |pack.assets|
  }

  lemma CandidatesKnown(pack: LoadedPack, last: Option<string>, id: string)
    requires TargetsKnown(pack) && id in Candidates(ScenarioIds(pack.scenarios), last)
    ensures id in pack.scenariosById
  {
    OthersAre(ScenarioIds(pack.scenarios), last, id);
  }

  /** One request, start to finish with nothing in between. The reply is the first remote call that failed, if any. */
  ghost function Handle(pack: LoadedPack, s: State, r: Request): (State, Reply)
    requires TargetsKnown(pack) && RequestFits(pack, s, r) && forall a :: a in pack.assets ==> a in s.active
  {
    match r
    case RunNext(chosen, fates, fate, now) =>
      CandidatesKnown(pack, s.last, chosen);
      InjectScenario(pack, s.(last := Some(chosen)), chosen, fates, fate, now)
    case RunSpecific(id, fates, fate, now) =>
      if id in pack.scenariosById then InjectScenario(pack, s.(last := Some(id)), id, fates, fate, now)
      else (s, Done)
    case Reset(fates) =>
      var (active1, sim1, reply) := ClearActive(pack.assets, s.active, s.sim, fates);
      (Noted(State(active1, sim1, if reply.Done? then None else s.last, s.refused), reply), reply)
  }

  // ---------------------------------------------------------------- one fault at a time

  /** The orchestrator knows of at most one fault, and the simulator has none it does not know of. */
  ghost predicate OneFault(pack: LoadedPack, active: Active, sim: Faults) {
    && (forall a :: a in active <==> a in pack.assets)
    && (forall a :: a in sim <==> a in pack.assets)
    && (forall a :: a in sim && sim[a].Some? ==> active[a] == Some(sim[a].value.scenarioId))
    && (forall a, b :: a in active && b in active && active[a].Some? && active[b].Some? ==> a == b)
  }

  /** Clearing keeps the pair in step; if it finishes, nothing in `order` is active. */
  lemma {:induction false} ClearingKeepsOne(
    pack: LoadedPack, order: seq<string>, active: Active, sim: Faults, fates: seq<Fate>)
    requires OneFault(pack, active, sim) && |fates| == |order| && forall a :: a in order ==> a in active
    ensures var (active1, sim1, reply) := ClearActive(order, active, sim, fates);
      && OneFault(pack, active1, sim1)
      && !reply.Rejected?
      && (forall a :: a in active && active[a].None? ==> active1[a].None?)
      && (reply.Done? ==> forall a :: a in order ==> active1[a].None?)
    decreases |order|
  {
    if order != [] {
      assert order == [order[0]] + order[1..];
      if active[order[0]].None? {
        ClearingKeepsOne(pack, order[1..], active, sim, fates[1..]);
      } else {
        var (sim1, reply) := ClearCall(sim, order[0], fates[0]);
        if reply.Done? {
          ClearingKeepsOne(pack, order[1..], active[order[0] := None], sim1, fates[1..]);
        }
      }
    }
  }

  /** With nothing active, an inject that answers leaves exactly its own fault. */
  lemma InjectAlone(pack: LoadedPack, active: Active, sim: Faults, id: string, fate: Fate, now: string)
    requires TargetsKnown(pack) && OneFault(pack, active, sim) && id in pack.scenariosById && fate != AnswerLost
    requires forall a :: a in pack.assets ==> active[a].None?
    ensures var target := pack.scenariosById[id].targetAsset;
      var (sim1, reply) := InjectCall(pack.scenariosById, sim, target, id, fate, now);
      && target in pack.assets && !reply.Rejected?
      && (if reply.Done?
          then OneFault(pack, active[target := Some(id)], sim1)
            && (forall a :: a in pack.assets ==>
                  sim1[a] == if a == target then Some(FaultOf(pack.scenariosById[id], a, now)) else None)
          else sim1 == sim)
  {
    assert forall a :: a in sim ==> sim[a].None?;
  }

  lemma InjectKeepsOne(pack: LoadedPack, s: State, id: string, fates: seq<Fate>, fate: Fate, now: string)
    requires TargetsKnown(pack) && OneFault(pack, s.active, s.sim)
    requires |fates| == |pack.assets| && id in pack.scenariosById && fate != AnswerLost
    ensures var (t, reply) := InjectScenario(pack, s, id, fates, fate, now);
      && OneFault(pack, t.active, t.sim)
      && !reply.Rejected?
      && (reply.Done? ==> forall a :: a in pack.assets ==>
            t.sim[a] == if a == pack.scenariosById[id].targetAsset
              then Some(FaultOf(pack.scenariosById[id], a, now)) else None)
  {
    ClearingKeepsOne(pack, pack.assets, s.active, s.sim, fates);
    var (active1, sim1, reply1) := ClearActive(pack.assets, s.active, s.sim, fates);
    if reply1.Done? {
      InjectAlone(pack, active1, sim1, id, fate, now);
    }
  }

  lemma {:induction false} NothingToClear(order: seq<string>, active: Active, sim: Faults, fates: seq<Fate>)
    requires |fates| == |order| && (forall a :: a in order ==> a in active)
    requires forall a :: a in active ==> active[a].None?
    ensures ClearActive(order, active, sim, fates) == (active, sim, Done)
    decreases |order|
  {
    if order != [] {
      NothingToClear(order[1..], active, sim, fates[1..]);
    }
  }

  /** The position of the first active asset, or the number of assets. */
  function FirstActive(order: seq<string>, active: Active): (i: nat)
    requires forall a :: a in order ==> a in active
    ensures i <= |order|
  {
    if order == [] || active[order[0]].Some? then 0 else 1 + FirstActive(order[1..], active)
  }

  /** The clear of the one active asset, if there is one, is answered. */
  predicate ClearsThrough(order: seq<string>, active: Active, fates: seq<Fate>)
    requires |fates| == |order| && forall a :: a in order ==> a in active
  {
    FirstActive(order, active) < |order| ==> fates[FirstActive(order, active)].Delivered?
  }

  lemma {:induction false} ClearingFinishes(
    pack: LoadedPack, order: seq<string>, active: Active, sim: Faults, fates: seq<Fate>)
    requires OneFault(pack, active, sim) && |fates| == |order| && forall a :: a in order ==> a in active
    ensures ClearActive(order, active, sim, fates).2.Done? <==> ClearsThrough(order, active, fates)
    decreases |order|
  {
    if order != [] {
      if active[order[0]].None? {
        ClearingFinishes(pack, order[1..], active, sim, fates[1..]);
      } else if fates[0].Delivered? {
        NothingToClear(order[1..], active[order[0] := None], sim[order[0] := None], fates[1..]);
      }
    }
  }

  /**
   * Exactly what breaks it: the inject took effect and only its answer was lost, the clear of the one
   * active asset before it, if any, having been answered.
   */
  lemma InjectKeepsOneExactly(pack: LoadedPack, s: State, id: string, fates: seq<Fate>, fate: Fate, now: string)
    requires TargetsKnown(pack) && OneFault(pack, s.active, s.sim)
    requires |fates| == |pack.assets| && id in pack.scenariosById
    ensures var (t, reply) := InjectScenario(pack, s, id, fates, fate, now);
      && !reply.Rejected?
      && (OneFault(pack, t.active, t.sim) <==> fate != AnswerLost || !ClearsThrough(pack.assets, s.active, fates))
  {
    ClearingFinishes(pack, pack.assets, s.active, s.sim, fates);
    if fate != AnswerLost {
      InjectKeepsOne(pack, s, id, fates, fate, now);
    } else {
      ClearingKeepsOne(pack, pack.assets, s.active, s.sim, fates);
      var target := pack.scenariosById[id].targetAsset;
      assert target in pack.assets;
    }
  }

  /** The request gets as far as an inject, which takes effect while its answer is lost. */
  predicate LosesInject(pack: LoadedPack, s: State, r: Request)
    requires forall a :: a in pack.assets ==> a in s.active
  {
    match r
    case RunNext(_, fates, fate, _) =>
      fate == AnswerLost && |fates| == |pack.assets| && ClearsThrough(pack.assets, s.active, fates)
    case RunSpecific(id, fates, fate, _) =>
      id in pack.scenariosById && fate == AnswerLost
      && |fates| == |pack.assets| && ClearsThrough(pack.assets, s.active, fates)
    case Reset(_) => false
  }

  /** A request that nothing interrupts keeps the two records in step exactly unless it loses an inject. */
  lemma RequestKeepsOneExactly(pack: LoadedPack, s: State, r: Request)
    requires TargetsKnown(pack) && OneFault(pack, s.active, s.sim) && RequestFits(pack, s, r)
    ensures var (t, reply) := Handle(pack, s, r);
      && t.refused == s.refused
      && (OneFault(pack, t.active, t.sim) <==> !LosesInject(pack, s, r))
  {
    match r
    case RunNext(chosen, fates, fate, now) =>
      CandidatesKnown(pack, s.last, chosen);
      InjectKeepsOneExactly(pack, s.(last := Some(chosen)), chosen, fates, fate, now);
    case RunSpecific(id, fates, fate, now) =>
      if id in pack.scenariosById { InjectKeepsOneExactly(pack, s.(last := Some(id)), id, fates, fate, now); }
    case Reset(fates) => ClearingKeepsOne(pack, pack.assets, s.active, s.sim, fates);
  }

  /**
   * What it leads to: if an inject takes effect and only its answer is lost, the orchestrator does
   * not know of the fault, and the next scenario leaves two assets faulted.
   */
  lemma LostInjectAnswerBreaksIt(pack: LoadedPack, s: State, one: string, two: string, now: string)
    requires TargetsKnown(pack) && OneFault(pack, s.active, s.sim)
    requires forall a :: a in s.active ==> s.active[a].None?
    requires one in pack.scenariosById && two in pack.scenariosById
    requires pack.scenariosById[one].targetAsset != pack.scenariosById[two].targetAsset
    ensures var fates := seq(|pack.assets|, _ => Delivered);
      var s1 := InjectScenario(pack, s, one, fates, AnswerLost, now).0;
      && (forall a :: a in pack.assets ==> a in s1.active)
      && var s2 := InjectScenario(pack, s1, two, fates, Delivered, now).0;
      && !OneFault(pack, s2.active, s2.sim)
      && pack.scenariosById[one].targetAsset in s2.sim && pack.scenariosById[two].targetAsset in s2.sim
      && s2.sim[pack.scenariosById[one].targetAsset].Some? && s2.sim[pack.scenariosById[two].targetAsset].Some?
  {
    var fates := seq(|pack.assets|, _ => Delivered);
    NothingToClear(pack.assets, s.active, s.sim, fates);
    var s1 := InjectScenario(pack, s, one, fates, AnswerLost, now).0;
    NothingToClear(pack.assets, s1.active, s1.sim, fates);
  }

  /** Exactly this scenario is on: known as active, and its own fault in the simulator, on its target alone. */
  ghost predicate OnlyOn(pack: LoadedPack, t: State, id: string, now: string)
    requires id in pack.scenariosById
  {
    var s := pack.scenariosById[id];
    forall a :: a in pack.assets ==>
      && a in t.active && a in t.sim
      && (if a == s.targetAsset
          then t.active[a] == Some(id)
            && t.sim[a] == Some(InjectedFault(id, a, s.faultType, now, s.severity, s.messageId, s.logEntries))
          else t.active[a].None? && t.sim[a].None?)
  }

  /** Nothing is on: nothing active, nothing faulted, and no scenario remembered as the last. */
  ghost predicate Idle(pack: LoadedPack, t: State) {
    t.last.None? && forall a :: a in pack.assets ==> a in t.active && a in t.sim && t.active[a].None? && t.sim[a].None?
  }

  lemma InjectDone(pack: LoadedPack, s: State, id: string, fates: seq<Fate>, fate: Fate, now: string)
    requires TargetsKnown(pack) && OneFault(pack, s.active, s.sim)
    requires |fates| == |pack.assets| && id in pack.scenariosById
    ensures var (t, reply) := InjectScenario(pack, s, id, fates, fate, now);
      t.last == s.last && (reply.Done? ==> OnlyOn(pack, t, id, now))
  {
    var (t, reply) := InjectScenario(pack, s, id, fates, fate, now);
    if reply.Done? {
      ClearingKeepsOne(pack, pack.assets, s.active, s.sim, fates);
      InjectKeepsOne(pack, s, id, fates, fate, now);
      assert t.active[pack.scenariosById[id].targetAsset] == Some(id);
    }
  }

  /**
   * What an uninterrupted request leaves. The rotation remembers the chosen or forced scenario even when a
   * call fails, and forgets it only by a reset whose every call came back; when all came back, exactly the
   * requested scenario is on, after a reset none.
   */
  lemma RequestLeaves(pack: LoadedPack, s: State, r: Request)
    requires TargetsKnown(pack) && OneFault(pack, s.active, s.sim) && RequestFits(pack, s, r)
    ensures var (t, reply) := Handle(pack, s, r);
      match r
      case RunNext(chosen, _, _, now) =>
        chosen in pack.scenariosById && t.last == Some(chosen) && (reply.Done? ==> OnlyOn(pack, t, chosen, now))
      case RunSpecific(id, _, _, now) =>
        if id in pack.scenariosById then t.last == Some(id) && (reply.Done? ==> OnlyOn(pack, t, id, now)) else t == s
      case Reset(_) => if reply.Done? then Idle(pack, t) else t.last == s.last
  {
    match r
    case RunNext(chosen, fates, fate, now) =>
      CandidatesKnown(pack, s.last, chosen);
      InjectDone(pack, s.(last := Some(chosen)), chosen, fates, fate, now);
    case RunSpecific(id, fates, fate, now) =>
      if id in pack.scenariosById { InjectDone(pack, s.(last := Some(id)), id, fates, fate, now); }
    case Reset(fates) => ClearingKeepsOne(pack, pack.assets, s.active, s.sim, fates);
  }

  // ---------------------------------------------------------------- the service

  /** The orchestrator's handlers, driving the engine through calls that may fail. */
  class OrchestratorService {
    const pack: LoadedPack
    const rotation: RotationPolicy
    const engine: SimulatorEngine
    var active: Active
    ghost var refused: bool

    /** The parts belong together; this is all a request needs, and every request keeps it. */
    ghost predicate Wired()
      reads this, rotation, engine
    {
      && TargetsKnown(pack) && pack.scenarios != []
      && rotation.ids == ScenarioIds(pack.scenarios)
      && engine.Valid() && engine.scenarios == pack.scenariosById && engine.assetIds == pack.assets
      && (forall a :: a in active <==> a in pack.assets)
    }

    ghost predicate Valid()
      reads this, rotation, engine
    {
      Wired() && OneFault(pack, active, engine.faults)
    }

    ghost function Model(): State
      reads this, rotation, engine
    {
      State(active, engine.faults, rotation.last, refused)
    }

    constructor (pack: LoadedPack, engine: SimulatorEngine)
      requires TargetsKnown(pack) && pack.scenarios != []
      requires engine.Valid() && engine.scenarios == pack.scenariosById && engine.assetIds == pack.assets
      requires forall a :: a in engine.faults ==> engine.faults[a].None?
      ensures Valid() && fresh(rotation) && this.engine == engine && this.pack == pack
      ensures forall a :: a in active ==> active[a].None?
    {
      this.pack, this.engine := pack, engine;
      rotation := new RotationPolicy(ScenarioIds(pack.scenarios));
      active := map a | a in pack.assets :: None;
      refused := false;
    }

    method CallClear(asset: string, fate: Fate) returns (reply: Reply)
      requires engine.Valid()
      modifies engine
      ensures engine.Valid()
      ensures (engine.faults, reply) == ClearCall(old(engine.faults), asset, fate)
    {
      if fate.Lost? {
        return Unreachable;
      }
      var r := engine.Clear(asset);
      reply := if fate.AnswerLost? then Unreachable else if r.Ok? then Done else Rejected(r.error);
    }

    method CallInject(asset: string, scenario: string, fate: Fate, now: string) returns (reply: Reply)
      requires engine.Valid()
      modifies engine
      ensures engine.Valid()
      ensures (engine.faults, reply) == InjectCall(engine.scenarios, old(engine.faults), asset, scenario, fate, now)
    {
      if fate.Lost? {
        return Unreachable;
      }
      var r := engine.Inject(asset, scenario, now);
      reply := if fate.AnswerLost? then Unreachable else if r.Ok? then Done else Rejected(r.error);
    }

    method ClearAll(fates: seq<Fate>) returns (reply: Reply)
      requires engine.Valid() && |fates| == |pack.assets| && forall a :: a in pack.assets ==> a in active
      modifies this`active, engine
      ensures engine.Valid() && active.Keys == old(active).Keys
      ensures (active, engine.faults, reply) == ClearActive(pack.assets, old(active), old(engine.faults), fates)
    {
      var order := pack.assets;
      ghost var whole := ClearActive(order, active, engine.faults, fates);
      var i := 0;
      while i < |order|
        invariant 0 <= i <= |order| && engine.Valid()
        invariant active.Keys == old(active).Keys
        invariant ClearActive(order[i..], active, engine.faults, fates[i..]) == whole
      {
        assert order[i..][1..] == order[i + 1..] && fates[i..][1..] == fates[i + 1..];
        if active[order[i]].Some? {
          reply := CallClear(order[i], fates[i]);
          if !reply.Done? {
            return;
          }
          active := active[order[i] := None];
        }
        i := i + 1;
      }
      return Done;
    }

    method Inject(id: string, fates: seq<Fate>, fate: Fate, now: string) returns (reply: Reply)
      requires Wired() && |fates| == |pack.assets| && id in pack.scenariosById
      modifies this, engine
      ensures Wired() && (Model(), reply) == InjectScenario(pack, old(Model()), id, fates, fate, now)
    {
      reply := ClearAll(fates);
      if !reply.Done? {
        refused := refused || reply.Rejected?;
        return;
      }
      reply := Activate(id, fate, now);
    }

    /** The scenario's own inject; only an answered one is remembered as active. */
    method Activate(id: string, fate: Fate, now: string) returns (reply: Reply)
      requires engine.Valid() && engine.scenarios == pack.scenariosById && id in pack.scenariosById
      modifies this, engine
      ensures engine.Valid() && active.Keys <= old(active).Keys + {pack.scenariosById[id].targetAsset}
      ensures old(active).Keys <= active.Keys
      ensures var target := pack.scenariosById[id].targetAsset;
        && (engine.faults, reply) == InjectCall(pack.scenariosById, old(engine.faults), target, id, fate, now)
        && active == if reply.Done? then old(active)[target := Some(id)] else old(active)
      ensures refused == (old(refused) || reply.Rejected?)
    {
      var target := pack.scenariosById[id].targetAsset;
      reply := CallInject(target, id, fate, now);
      if reply.Done? {
        active := active[target := Some(id)];
      }
      refused := refused || reply.Rejected?;
    }

    /** `pick` is the rotation's random choice. */
    method RunNextScenario(pick: nat, fates: seq<Fate>, fate: Fate, now: string) returns (chosen: string, reply: Reply)
      requires Wired() && |fates| == |pack.assets|
      requires pick < |Candidates(rotation.ids, rotation.last)|
      modifies this, rotation, engine
      ensures Wired() && RequestFits(pack, old(Model()), RunNext(chosen, fates, fate, now))
      ensures (Model(), reply) == Handle(pack, old(Model()), RunNext(chosen, fates, fate, now))
      ensures old(Valid()) ==> (Valid() <==> !LosesInject(pack, old(Model()), RunNext(chosen, fates, fate, now)))
    {
      ghost var before := Model();
      chosen := rotation.Next(pick);
      CandidatesKnown(pack, before.last, chosen);
      reply := Inject(chosen, fates, fate, now);
      if old(Valid()) { RequestKeepsOneExactly(pack, before, RunNext(chosen, fates, fate, now)); }
    }

    /** An unknown scenario id is answered 404 and changes nothing. */
    method RunSpecificScenario(id: string, fates: seq<Fate>, fate: Fate, now: string)
      returns (known: bool, reply: Reply)
      requires Wired() && |fates| == |pack.assets|
      modifies this, rotation, engine
      ensures Wired() && (known <==> id in rotation.ids)
      ensures (Model(), reply) == Handle(pack, old(Model()), RunSpecific(id, fates, fate, now))
      ensures old(Valid()) ==> (Valid() <==> !LosesInject(pack, old(Model()), RunSpecific(id, fates, fate, now)))
    {
      ghost var before := Model();
      known := rotation.Force(id);
      if !known {
        return false, Done;
      }
      reply := Inject(id, fates, fate, now);
      if old(Valid()) { RequestKeepsOneExactly(pack, before, RunSpecific(id, fates, fate, now)); }
    }

    method ResetAll(fates: seq<Fate>) returns (reply: Reply)
      requires Wired() && |fates| == |pack.assets|
      modifies this, rotation, engine
      ensures Wired() && (Model(), reply) == Handle(pack, old(Model()), Reset(fates))
      ensures old(Valid()) ==> Valid()
    {
      ghost var before := Model();
      reply := ClearAll(fates);
      if reply.Done? {
        rotation.Reset();
      }
      refused := refused || reply.Rejected?;
      if old(Valid()) { RequestKeepsOneExactly(pack, before, Reset(fates)); }
    }
  }
}
