/** What the approval protocol does to the simulator: each asset is what last happened to it there. */
module SimulatorHistory {
  import opened Basics
  import opened GatewayState
  import opened Approval
  import opened ApprovalSafety

  /** What a step puts on an asset in the simulator, told from the step alone: a scenario, or nothing. */
  function Puts(s: Sys, step: Step, asset: string): Option<Option<string>> {
    match step
    case UseSimulator(a, scenario) => if a == asset then Some(scenario) else None
    case OfExecutor(e, SimulatorClear(true, _)) =>
      if e < |s.executors| && s.executors[e].call == Clearing(asset) then Some(None) else None
    case _ => None
  }

  /**
   * A simulator entry changes only at a use of that asset, to its scenario, or at a clear that takes
   * effect on it, to healthy.
   */
  lemma SimulatorChangesOnlySo(s: Sys, step: Step, asset: string)
    requires Enabled(s, step)
    ensures Next(s, step).simulator.Keys == s.simulator.Keys
    ensures asset in s.simulator ==>
      Next(s, step).simulator[asset] == if Puts(s, step, asset).Some? then Puts(s, step, asset).value else s.simulator[asset]
  {
    match step
    case OfExecutor(e, move) => ClearOnlySo(s, e, move, asset);
    case OfDecision(d, move) => DecideLeavesSimulator(s, d, move);
    case _ =>
  }

  lemma DecideLeavesSimulator(s: Sys, d: nat, move: DecisionMove)
    requires d < |s.decisions| && DecisionEnabled(s, s.decisions[d], move)
    ensures Decide(s, d, move).simulator == s.simulator
  {
  }

  lemma ClearOnlySo(s: Sys, e: nat, move: ExecutorMove, asset: string)
    requires e < |s.executors| && ExecutorEnabled(s, s.executors[e], move)
    ensures Effect(s, e, move).simulator
         == if move.SimulatorClear? && move.took then s.simulator[s.executors[e].call.asset := None] else s.simulator
  {
    match move
    case SimulatorClear(_, _) =>
    case BeginRun =>
    case MarkResolved =>
    case Narrate(_, _) =>
    case NarrateVerifying(_, _) =>
    case NarrateClosing(_, _) =>
    case NarrateFailure(_, _) =>
    case CheckCall =>
    case _ =>
  }

  /** Right after a step that notes a confirmed clear, the simulator has that asset healthy. */
  lemma ConfirmedMeansCleared(s: Sys, step: Step, e: nat, asset: string)
    requires Enabled(s, step)
    requires exists i :: |s.trace| <= i < |Next(s, step).trace| && Next(s, step).trace[i] == ClearConfirmed(e, asset)
    ensures asset in Next(s, step).simulator && Next(s, step).simulator[asset] == None
  {
    var i :| |s.trace| <= i < |Next(s, step).trace| && Next(s, step).trace[i] == ClearConfirmed(e, asset);
    AddedEntry(s, step, i);
    assert Next(s, step).trace[i] in [Next(s, step).trace[i]];
    ConfirmationIsNoted(s, step, e, asset);
  }

  lemma ConfirmationIsNoted(s: Sys, step: Step, e: nat, asset: string)
    requires Enabled(s, step) && ClearConfirmed(e, asset) in Notes(s, step)
    ensures asset in Next(s, step).simulator && Next(s, step).simulator[asset] == None
  {
    SimulatorChangesOnlySo(s, step, asset);
  }

  /** What a whole run last put on the asset. */
  ghost function LastPut(s: Sys, steps: seq<Step>, asset: string): Option<Option<string>>
    requires ValidRun(s, steps)
    decreases |steps|
  {
    if steps == [] then None
    else
      var later := LastPut(Next(s, steps[0]), steps[1..], asset);
      if later.Some? then later else Puts(s, steps[0], asset)
  }

  /** In every run the simulator shows for each asset what was last put on it, or what it started with. */
  lemma {:induction false} SimulatorIsItsHistory(s: Sys, steps: seq<Step>, asset: string)
    requires ValidRun(s, steps) && asset in s.simulator
    ensures After(s, steps).simulator.Keys == s.simulator.Keys
    ensures After(s, steps).simulator[asset]
         == if LastPut(s, steps, asset).Some? then LastPut(s, steps, asset).value else s.simulator[asset]
    decreases |steps|
  {
    if steps != [] {
      SimulatorChangesOnlySo(s, steps[0], asset);
      SimulatorIsItsHistory(Next(s, steps[0]), steps[1..], asset);
    }
  }

  /** Once confirmed clear, an asset stays healthy in the simulator until somebody uses it again. */
  lemma {:induction false} ClearStaysUntilUsed(s: Sys, steps: seq<Step>, asset: string)
    requires ValidRun(s, steps) && asset in s.simulator && s.simulator[asset] == None
    requires forall scenario: Option<string> :: UseSimulator(asset, scenario) !in steps
    ensures After(s, steps).simulator.Keys == s.simulator.Keys && After(s, steps).simulator[asset] == None
    decreases |steps|
  {
    if steps != [] {
      SimulatorChangesOnlySo(s, steps[0], asset);
      assert steps[0] in steps;
      ClearStaysUntilUsed(Next(s, steps[0]), steps[1..], asset);
    }
  }
}
