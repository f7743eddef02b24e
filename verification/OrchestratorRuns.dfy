/**
 * The orchestrator's requests as coroutines: a program counter over the awaits of one request at a
 * time, with remediation clearing the simulator directly between any two steps.
 */
module OrchestratorRuns {
  import opened Basics
  import opened Packs
  import opened Simulator
  import opened Orchestrator

  /** What the clearing loop is for. */
  datatype Goal = ThenInject(id: string, now: string) | ThenForget

  /**
   * Where the open request stands. A call is first sent; it takes effect or not; then its answer is
   * received. Between any two of these the simulator may change.
   */
  datatype Pc =
    | Idle
    | ClearSent(k: nat, goal: Goal)
    | ClearAnswered(k: nat, goal: Goal, reply: Reply)
    | InjectSent(id: string, now: string)
    | InjectAnswered(id: string, reply: Reply)

  datatype World = World(s: State, pc: Pc)

  datatype Step =
    | StartNext(chosen: string, now: string)
    | StartSpecific(id: string, now: string)
    | StartReset
    | TakeEffect(fate: Fate)
    | Receive
    | Remediate(asset: string)

  // ---------------------------------------------------------------- steps

  /** The loop over the assets, up to its next await or past its end. */
  function Proceed(order: seq<string>, s: State, k: nat, goal: Goal): World
    requires k <= |order| && forall a :: a in order ==> a in s.active
    decreases |order| - k
  {
    if k == |order| then
      match goal
      case ThenInject(id, now) => World(s, InjectSent(id, now))
      case ThenForget => World(s.(last := None), Idle)
    else if s.active[order[k]].None? then Proceed(order, s, k + 1, goal)
    else World(s, ClearSent(k, goal))
  }

  /** The state speaks of the pack's assets, and the program counter of its scenarios. */
  ghost predicate Fits(pack: LoadedPack, w: World) {
    && (forall a :: a in w.s.active <==> a in pack.assets)
    && match w.pc
      case Idle => true
      case ClearSent(k, goal) => k < |pack.assets| && GoalKnown(pack, goal)
      case ClearAnswered(k, goal, _) => k < |pack.assets| && GoalKnown(pack, goal)
      case InjectSent(id, _) => id in pack.scenariosById
      case InjectAnswered(id, _) => id in pack.scenariosById
  }

  predicate GoalKnown(pack: LoadedPack, goal: Goal) {
    goal.ThenInject? ==> goal.id in pack.scenariosById
  }

  /** Requests are handled one at a time; remediation asks nobody. */
  ghost predicate Enabled(pack: LoadedPack, w: World, step: Step) {
    match step
    case StartNext(chosen, _) => w.pc.Idle? && chosen in Candidates(ScenarioIds(pack.scenarios), w.s.last)
    case StartSpecific(_, _) => w.pc.Idle?
    case StartReset => w.pc.Idle?
    case TakeEffect(_) => w.pc.ClearSent? || w.pc.InjectSent?
    case Receive => w.pc.ClearAnswered? || w.pc.InjectAnswered?
    case Remediate(_) => true
  }

  ghost function Next(pack: LoadedPack, w: World, step: Step): World
    requires TargetsKnown(pack) && Fits(pack, w) && Enabled(pack, w, step)
  {
    match step
    case StartNext(chosen, now) => Proceed(pack.assets, w.s.(last := Some(chosen)), 0, ThenInject(chosen, now))
    case StartSpecific(id, now) =>
      if id in pack.scenariosById then Proceed(pack.assets, w.s.(last := Some(id)), 0, ThenInject(id, now)) else w
    case StartReset => Proceed(pack.assets, w.s, 0, ThenForget)
    case TakeEffect(fate) => Effect(pack, w, fate)
    case Receive => Received(pack, w)
    case Remediate(asset) => w.(s := w.s.(sim := ClearCall(w.s.sim, asset, Delivered).0))
  }

  ghost function Effect(pack: LoadedPack, w: World, fate: Fate): World
    requires Fits(pack, w) && (w.pc.ClearSent? || w.pc.InjectSent?)
  {
    match w.pc
    case ClearSent(k, goal) =>
      var (sim, reply) := ClearCall(w.s.sim, pack.assets[k], fate);
      World(w.s.(sim := sim), ClearAnswered(k, goal, reply))
    case InjectSent(id, now) =>
      var target := pack.scenariosById[id].targetAsset;
      var (sim, reply) := InjectCall(pack.scenariosById, w.s.sim, target, id, fate, now);
      World(w.s.(sim := sim), InjectAnswered(id, reply))
  }

  /** A call that does not come back well ends the request. */
  ghost function Received(pack: LoadedPack, w: World): World
    requires TargetsKnown(pack) && Fits(pack, w) && (w.pc.ClearAnswered? || w.pc.InjectAnswered?)
  {
    if !w.pc.reply.Done? then World(Noted(w.s, w.pc.reply), Idle)
    else
      match w.pc
      case ClearAnswered(k, goal, _) =>
        Proceed(pack.assets, w.s.(active := w.s.active[pack.assets[k] := None]), k + 1, goal)
      case InjectAnswered(id, _) =>
        World(w.s.(active := w.s.active[pack.scenariosById[id].targetAsset := Some(id)]), Idle)
  }

  // ---------------------------------------------------------------- what every run keeps

  ghost predicate NoneActive(w: World) {
    forall a :: a in w.s.active ==> w.s.active[a].None?
  }

  /**
   * While the loop runs the two records agree; once the inject is out, nothing is active and at most
   * the inject's own target is faulted.
   */
  ghost predicate InStep(pack: LoadedPack, w: World) {
    && Fits(pack, w)
    && match w.pc
      case Idle => OneFault(pack, w.s.active, w.s.sim)
      case ClearSent(k, _) => OneFault(pack, w.s.active, w.s.sim) && w.s.active[pack.assets[k]].Some?
      case ClearAnswered(k, _, reply) =>
        && OneFault(pack, w.s.active, w.s.sim) && w.s.active[pack.assets[k]].Some?
        && !reply.Rejected? && (reply.Done? ==> w.s.sim[pack.assets[k]].None?)
      case InjectSent(_, _) => OneFault(pack, w.s.active, w.s.sim) && NoneActive(w)
      case InjectAnswered(id, reply) =>
        && (forall a :: a in w.s.sim <==> a in pack.assets)
        && NoneActive(w) && !reply.Rejected?
        && (forall a :: a in w.s.sim && w.s.sim[a].Some?
              ==> a == pack.scenariosById[id].targetAsset && w.s.sim[a].value.scenarioId == id)
  }

  /** At most one asset is faulted, whoever looks, whenever. */
  ghost predicate AtMostOneFaulted(sim: Faults) {
    forall a, b :: a in sim && b in sim && sim[a].Some? && sim[b].Some? ==> a == b
  }

  lemma InStepMeansOne(pack: LoadedPack, w: World)
    requires InStep(pack, w)
    ensures AtMostOneFaulted(w.s.sim)
    ensures w.pc.Idle? ==> OneFault(pack, w.s.active, w.s.sim)
  {
  }

  /** The answer to the inject is a failure although its target is faulted by then. */
  ghost predicate LosesFault(pack: LoadedPack, w: World, step: Step) {
    && step.Receive? && w.pc.InjectAnswered? && !w.pc.reply.Done?
    && w.pc.id in pack.scenariosById
    && var target := pack.scenariosById[w.pc.id].targetAsset;
      target in w.s.sim && w.s.sim[target].Some?
  }

  /** Where the loop stops next: nothing it passes over is active. */
  lemma {:induction false} ProceedKeepsStep(pack: LoadedPack, s: State, k: nat, goal: Goal)
    requires TargetsKnown(pack) && OneFault(pack, s.active, s.sim) && k <= |pack.assets| && GoalKnown(pack, goal)
    requires forall j :: 0 <= j < k ==> s.active[pack.assets[j]].None?
    ensures InStep(pack, Proceed(pack.assets, s, k, goal))
    ensures Proceed(pack.assets, s, k, goal).s.refused == s.refused
    decreases |pack.assets| - k
  {
    if k < |pack.assets| && s.active[pack.assets[k]].None? {
      ProceedKeepsStep(pack, s, k + 1, goal);
    }
  }

  lemma EffectKeepsStep(pack: LoadedPack, w: World, fate: Fate)
    requires TargetsKnown(pack) && InStep(pack, w) && (w.pc.ClearSent? || w.pc.InjectSent?)
    ensures InStep(pack, Effect(pack, w, fate)) && Effect(pack, w, fate).s.refused == w.s.refused
  {
    if w.pc.InjectSent? {
      assert pack.scenariosById[w.pc.id].targetAsset in pack.assets;
      assert forall a :: a in w.s.sim ==> w.s.sim[a].None?;
    }
  }

  /** Forgetting an asset that is no longer faulted; it was the only active one. */
  lemma ForgetKeepsOne(pack: LoadedPack, active: Active, sim: Faults, asset: string)
    requires OneFault(pack, active, sim) && asset in pack.assets && active[asset].Some? && sim[asset].None?
    ensures OneFault(pack, active[asset := None], sim)
    ensures forall a :: a in active ==> active[asset := None][a].None?
  {
  }

  lemma ReceiveKeepsStep(pack: LoadedPack, w: World)
    requires TargetsKnown(pack) && InStep(pack, w) && (w.pc.ClearAnswered? || w.pc.InjectAnswered?)
    requires !LosesFault(pack, w, Receive)
    ensures InStep(pack, Received(pack, w)) && Received(pack, w).s.refused == w.s.refused
  {
    if w.pc.ClearAnswered? && w.pc.reply.Done? {
      var asset := pack.assets[w.pc.k];
      ForgetKeepsOne(pack, w.s.active, w.s.sim, asset);
      ProceedKeepsStep(pack, w.s.(active := w.s.active[asset := None]), w.pc.k + 1, w.pc.goal);
    }
  }

  lemma StepKeepsStep(pack: LoadedPack, w: World, step: Step)
    requires TargetsKnown(pack) && InStep(pack, w) && Enabled(pack, w, step) && !LosesFault(pack, w, step)
    ensures InStep(pack, Next(pack, w, step)) && Next(pack, w, step).s.refused == w.s.refused
  {
    match step
    case StartNext(chosen, now) =>
      CandidatesKnown(pack, w.s.last, chosen);
      ProceedKeepsStep(pack, w.s.(last := Some(chosen)), 0, ThenInject(chosen, now));
    case StartSpecific(id, now) =>
      if id in pack.scenariosById { ProceedKeepsStep(pack, w.s.(last := Some(id)), 0, ThenInject(id, now)); }
    case StartReset => ProceedKeepsStep(pack, w.s, 0, ThenForget);
    case TakeEffect(fate) => EffectKeepsStep(pack, w, fate);
    case Receive => ReceiveKeepsStep(pack, w);
    case Remediate(_) =>
  }

  /** A fault lost that way leaves the boundary with a fault the orchestrator does not know of. */
  lemma LosingBreaksStep(pack: LoadedPack, w: World)
    requires TargetsKnown(pack) && InStep(pack, w) && w.pc.InjectAnswered? && LosesFault(pack, w, Receive)
    ensures var v := Received(pack, w); v.pc.Idle? && !OneFault(pack, v.s.active, v.s.sim)
  {
  }

  // ---------------------------------------------------------------- every run

  lemma {:induction false} ProceedFits(pack: LoadedPack, s: State, k: nat, goal: Goal)
    requires (forall a :: a in s.active <==> a in pack.assets) && k <= |pack.assets| && GoalKnown(pack, goal)
    ensures Fits(pack, Proceed(pack.assets, s, k, goal))
    decreases |pack.assets| - k
  {
    if k < |pack.assets| && s.active[pack.assets[k]].None? {
      ProceedFits(pack, s, k + 1, goal);
    }
  }

  lemma NextFits(pack: LoadedPack, w: World, step: Step)
    requires TargetsKnown(pack) && Fits(pack, w) && Enabled(pack, w, step)
    ensures Fits(pack, Next(pack, w, step))
  {
    match step
    case StartNext(chosen, now) =>
      CandidatesKnown(pack, w.s.last, chosen);
      ProceedFits(pack, w.s.(last := Some(chosen)), 0, ThenInject(chosen, now));
    case StartSpecific(id, now) =>
      if id in pack.scenariosById { ProceedFits(pack, w.s.(last := Some(id)), 0, ThenInject(id, now)); }
    case StartReset => ProceedFits(pack, w.s, 0, ThenForget);
    case Receive =>
      if w.pc.ClearAnswered? && w.pc.reply.Done? {
        ProceedFits(pack, w.s.(active := w.s.active[pack.assets[w.pc.k] := None]), w.pc.k + 1, w.pc.goal);
      }
    case _ =>
  }

  ghost predicate Runs(pack: LoadedPack, w: World, steps: seq<Step>)
    requires TargetsKnown(pack) && Fits(pack, w)
    decreases |steps|
  {
    steps != [] ==>
      && Enabled(pack, w, steps[0])
      && (NextFits(pack, w, steps[0]); Runs(pack, Next(pack, w, steps[0]), steps[1..]))
  }

  /** At every point at most one asset is faulted, and at every request boundary the records agree. */
  ghost predicate OneFaultThroughout(pack: LoadedPack, w: World, steps: seq<Step>)
    requires TargetsKnown(pack) && Fits(pack, w) && Runs(pack, w, steps)
    decreases |steps|
  {
    && AtMostOneFaulted(w.s.sim)
    && (w.pc.Idle? ==> OneFault(pack, w.s.active, w.s.sim))
    && (steps != [] ==>
          (NextFits(pack, w, steps[0]); OneFaultThroughout(pack, Next(pack, w, steps[0]), steps[1..])))
  }

  /** No step of the run loses a fault. */
  ghost predicate NothingLost(pack: LoadedPack, w: World, steps: seq<Step>)
    requires TargetsKnown(pack) && Fits(pack, w) && Runs(pack, w, steps)
    decreases |steps|
  {
    steps != [] ==>
      && !LosesFault(pack, w, steps[0])
      && (NextFits(pack, w, steps[0]); NothingLost(pack, Next(pack, w, steps[0]), steps[1..]))
  }

  ghost function AfterSteps(pack: LoadedPack, w: World, steps: seq<Step>): World
    requires TargetsKnown(pack) && Fits(pack, w) && Runs(pack, w, steps)
    decreases |steps|
  {
    if steps == [] then w
    else
      NextFits(pack, w, steps[0]);
      AfterSteps(pack, Next(pack, w, steps[0]), steps[1..])
  }

  /**
   * Over every run of requests handled one at a time, whatever calls fail and wherever remediation
   * clears in between: at every point at most one asset is faulted, and at every request boundary each
   * faulted asset's scenario is the one active there, exactly when no inject is given up on while its
   * target is faulted.
   */
  lemma {:induction false} OneFaultExactly(pack: LoadedPack, w: World, steps: seq<Step>)
    requires TargetsKnown(pack) && InStep(pack, w) && Runs(pack, w, steps)
    ensures OneFaultThroughout(pack, w, steps) <==> NothingLost(pack, w, steps)
    decreases |steps|
  {
    InStepMeansOne(pack, w);
    if steps != [] {
      NextFits(pack, w, steps[0]);
      if LosesFault(pack, w, steps[0]) {
        LosingBreaksStep(pack, w);
      } else {
        StepKeepsStep(pack, w, steps[0]);
        OneFaultExactly(pack, Next(pack, w, steps[0]), steps[1..]);
      }
    }
  }

  /** Such a run keeps the two records in step, and the engine never turns down an unknown id. */
  lemma {:induction false} AtMostOneFault(pack: LoadedPack, w: World, steps: seq<Step>)
    requires TargetsKnown(pack) && InStep(pack, w) && Runs(pack, w, steps) && NothingLost(pack, w, steps)
    ensures var v := AfterSteps(pack, w, steps);
      && InStep(pack, v) && AtMostOneFaulted(v.s.sim)
      && (v.pc.Idle? ==> OneFault(pack, v.s.active, v.s.sim))
      && v.s.refused == w.s.refused
    decreases |steps|
  {
    InStepMeansOne(pack, w);
    if steps != [] {
      NextFits(pack, w, steps[0]);
      StepKeepsStep(pack, w, steps[0]);
      AtMostOneFault(pack, Next(pack, w, steps[0]), steps[1..]);
    }
  }

  // ---------------------------------------------------------------- a request that nothing interrupts

  /** How far the open request is from its end. */
  ghost function Distance(pack: LoadedPack, w: World): nat
    requires Fits(pack, w)
  {
    match w.pc
    case Idle => 0
    case InjectAnswered(_, _) => 1
    case InjectSent(_, _) => 2
    case ClearAnswered(k, _, _) => 1 + 2 * (|pack.assets| - k)
    case ClearSent(k, _) => 2 + 2 * (|pack.assets| - k)
  }

  lemma {:induction false} ProceedIsCloser(pack: LoadedPack, s: State, k: nat, goal: Goal)
    requires (forall a :: a in s.active <==> a in pack.assets) && k <= |pack.assets| && GoalKnown(pack, goal)
    ensures Fits(pack, Proceed(pack.assets, s, k, goal))
    ensures Distance(pack, Proceed(pack.assets, s, k, goal)) <= 2 + 2 * (|pack.assets| - k)
    decreases |pack.assets| - k
  {
    if k < |pack.assets| && s.active[pack.assets[k]].None? {
      ProceedIsCloser(pack, s, k + 1, goal);
    }
  }

  /** Runs the open request to its end, each call with its fate and nothing in between. */
  ghost function Alone(pack: LoadedPack, w: World, fates: seq<Fate>, fate: Fate): World
    requires TargetsKnown(pack) && Fits(pack, w) && |fates| == |pack.assets|
    decreases Distance(pack, w)
  {
    match w.pc
    case Idle => w
    case ClearSent(k, goal) => Alone(pack, Effect(pack, w, fates[k]), fates, fate)
    case InjectSent(_, _) => Alone(pack, Effect(pack, w, fate), fates, fate)
    case InjectAnswered(_, _) => Received(pack, w)
    case ClearAnswered(k, goal, reply) =>
      if !reply.Done? then Received(pack, w)
      else
        ProceedIsCloser(pack, w.s.(active := w.s.active[pack.assets[k] := None]), k + 1, goal);
        Alone(pack, Received(pack, w), fates, fate)
  }

  /** What the big-step account makes of a loop that has cleared. */
  ghost function Finish(pack: LoadedPack, s: State, goal: Goal, fate: Fate): State
    requires TargetsKnown(pack) && GoalKnown(pack, goal)
  {
    match goal
    case ThenForget => s.(last := None)
    case ThenInject(id, now) =>
      var target := pack.scenariosById[id].targetAsset;
      var (sim, reply) := InjectCall(pack.scenariosById, s.sim, target, id, fate, now);
      Noted(s.(active := if reply.Done? then s.active[target := Some(id)] else s.active, sim := sim), reply)
  }

  lemma AloneInjects(pack: LoadedPack, s: State, goal: Goal, fates: seq<Fate>, fate: Fate)
    requires TargetsKnown(pack) && (forall a :: a in s.active <==> a in pack.assets)
    requires |pack.assets| == |fates| && GoalKnown(pack, goal)
    ensures Fits(pack, Proceed(pack.assets, s, |pack.assets|, goal))
    ensures Alone(pack, Proceed(pack.assets, s, |pack.assets|, goal), fates, fate) == World(Finish(pack, s, goal, fate), Idle)
  {
    if goal.ThenInject? {
      var w := World(s, InjectSent(goal.id, goal.now));
      assert Alone(pack, w, fates, fate) == Received(pack, Effect(pack, w, fate));
    }
  }

  lemma AloneClears(pack: LoadedPack, s: State, k: nat, goal: Goal, fates: seq<Fate>, fate: Fate)
    requires TargetsKnown(pack) && (forall a :: a in s.active <==> a in pack.assets)
    requires k < |pack.assets| == |fates| && GoalKnown(pack, goal)
    ensures var w := World(s, ClearSent(k, goal));
      var (sim, reply) := ClearCall(s.sim, pack.assets[k], fates[k]);
      var cleared := s.(active := s.active[pack.assets[k] := None], sim := sim);
      && Fits(pack, Proceed(pack.assets, cleared, k + 1, goal))
      && Alone(pack, w, fates, fate)
         == if reply.Done? then Alone(pack, Proceed(pack.assets, cleared, k + 1, goal), fates, fate)
            else World(Noted(s.(sim := sim), reply), Idle)
  {
    var w := World(s, ClearSent(k, goal));
    var (sim, reply) := ClearCall(s.sim, pack.assets[k], fates[k]);
    var cleared := s.(active := s.active[pack.assets[k] := None], sim := sim);
    ProceedFits(pack, cleared, k + 1, goal);
    var answered := Effect(pack, w, fates[k]);
    assert answered == World(s.(sim := sim), ClearAnswered(k, goal, reply));
    assert reply.Done? ==> Received(pack, answered) == Proceed(pack.assets, cleared, k + 1, goal);
  }

  /** From position `k` on, the uninterrupted loop is the clearing of the rest of the list. */
  lemma {:induction false} AloneIsClearing(
    pack: LoadedPack, s: State, k: nat, goal: Goal, fates: seq<Fate>, fate: Fate)
    requires TargetsKnown(pack) && (forall a :: a in s.active <==> a in pack.assets)
    requires k <= |pack.assets| == |fates| && GoalKnown(pack, goal)
    ensures Fits(pack, Proceed(pack.assets, s, k, goal))
    ensures var (active, sim, reply) := ClearActive(pack.assets[k..], s.active, s.sim, fates[k..]);
      var t := s.(active := active, sim := sim);
      Alone(pack, Proceed(pack.assets, s, k, goal), fates, fate)
      == World(if reply.Done? then Finish(pack, t, goal, fate) else Noted(t, reply), Idle)
    decreases |pack.assets| - k
  {
    ProceedFits(pack, s, k, goal);
    if k == |pack.assets| {
      AloneInjects(pack, s, goal, fates, fate);
    } else {
      assert pack.assets[k..][1..] == pack.assets[k + 1..] && fates[k..][1..] == fates[k + 1..];
      if s.active[pack.assets[k]].None? {
        AloneIsClearing(pack, s, k + 1, goal, fates, fate);
      } else {
        AloneClears(pack, s, k, goal, fates, fate);
        var (sim, reply) := ClearCall(s.sim, pack.assets[k], fates[k]);
        if reply.Done? {
          AloneIsClearing(pack, s.(active := s.active[pack.assets[k] := None], sim := sim), k + 1, goal, fates, fate);
        }
      }
    }
  }

  /** The handlers' specification is the run of one request that nothing interrupts. */
  lemma HandleIsAlone(pack: LoadedPack, s: State, r: Request)
    requires TargetsKnown(pack) && (forall a :: a in s.active <==> a in pack.assets) && RequestFits(pack, s, r)
    ensures var step := match r {
        case RunNext(chosen, _, _, now) => StartNext(chosen, now)
        case RunSpecific(id, _, _, now) => StartSpecific(id, now)
        case Reset(_) => StartReset };
      var fate := match r {
        case RunNext(_, _, f, _) => f
        case RunSpecific(_, _, f, _) => f
        case Reset(_) => Delivered };
      && Fits(pack, Next(pack, World(s, Idle), step))
      && Alone(pack, Next(pack, World(s, Idle), step), r.fates, fate) == World(Handle(pack, s, r).0, Idle)
  {
    assert pack.assets[0..] == pack.assets && r.fates[0..] == r.fates;
    match r
    case RunNext(chosen, fates, fate, now) =>
      CandidatesKnown(pack, s.last, chosen);
      AloneIsClearing(pack, s.(last := Some(chosen)), 0, ThenInject(chosen, now), fates, fate);
    case RunSpecific(id, fates, fate, now) =>
      if id in pack.scenariosById {
        AloneIsClearing(pack, s.(last := Some(id)), 0, ThenInject(id, now), fates, fate);
      }
    case Reset(fates) => AloneIsClearing(pack, s, 0, ThenForget, fates, Delivered);
  }
}
