/**
 * The approval protocol as a transition system over the joint state of the Gateway, MCP Tools and
 * the simulator.
 *
 * Approvals and executors are coroutines: each is a record with a program counter, and one step
 * takes it from one await to the next. Any number of them interleave freely with agent writes,
 * resets of either store and other uses of the simulator. A remote call may fail with or without
 * having had its effect.
 */
module Approval {
  import opened Basics
  import opened GatewayState
  import opened McpTools

  // ---------------------------------------------------------------- coroutines

  /** Where an approving `post_decision` stands. */
  datatype DecisionPc =
    | Fetching
    | Registering(steps: seq<string>)
    | Minting(steps: seq<string>)
    | Starting(steps: seq<string>, token: string)
    | Started(token: string)
    | Abandoned(lost: Option<string>)  // answered 502; a token may have been minted all the same

  /** `at` is the position in the trace of the human's decision. */
  datatype Decision = Decision(fault: string, asset: string, scenario: string, at: nat, pc: DecisionPc)

  /** Where an executor's `_run` stands. */
  datatype ExecutorPc =
    | Ready
    | Narrating(told: nat)
    | Awaiting
    | Confirmed
    | Verified
    | Closing
    | Failing
    | Finished(resolved: bool)

  /** Where the executor's one `remediation.execute` call stands at MCP Tools. */
  datatype Call =
    | NotMade
    | Sent
    | Refused(error: ExecuteError)
    | Clearing(asset: string)
    | ClearReturned(asset: string, ok: bool)
    | Settled(ok: bool)

  datatype Executor = Executor(
    fault: string, asset: string, steps: seq<string>, token: string, pc: ExecutorPc, call: Call)

  // ---------------------------------------------------------------- joint state

  /** What happened, for the record: no step reads the trace. */
  datatype Entry =
    | Approved(decision: nat, fault: string, asset: string)
    | ClearAttempt(executor: nat, fault: string, asset: string)
    | ClearConfirmed(executor: nat, asset: string)
    | StatusByExecutor(executor: nat, status: Status)
    | FaultCreated(fault: string, asset: string)
    | FaultPatched(fault: string, asset: string, status: Status)
    | FaultDenied(fault: string)
    | FaultWritten(fault: string, asset: string, status: Status)  // by an executor
    | AllReset

  /**
   * `owners` remembers which decision a token was minted for and `assetOf` which asset a fault was
   * created on, past resets; steps use them only to draw fresh tokens and fault ids.
   */
  datatype Sys = Sys(
    store: Store,
    log: seq<Event>,
    tokens: map<string, Token>,
    registry: map<string, Record>,
    simulator: map<string, Option<string>>,
    decisions: seq<Decision>,
    executors: seq<Executor>,
    trace: seq<Entry>,
    owners: map<string, nat>,
    assetOf: map<string, string>)

  ghost predicate Initial(s: Sys) {
    && s.store.Valid()
    && s.store.faults == map[] && s.store.activity == []
    && (forall a :: a in s.store.assets ==> s.store.assets[a].state == Healthy && s.store.assets[a].link == None)
    && s.log == [] && s.tokens == map[] && s.registry == map[]
    && s.decisions == [] && s.executors == [] && s.trace == []
    && s.owners == map[] && s.assetOf == map[]
  }

  // ---------------------------------------------------------------- steps

  /** One await to the next in an approving `post_decision`. `took`: the call had its effect. */
  datatype DecisionMove =
    | FetchScenario(steps: seq<string>)  // [] when the Orchestrator does not answer
    | RegisterFault(took: bool, answered: bool)
    | MintToken(token: string, took: bool, answered: bool)
    | StartExecutor

  /** One await to the next in an executor, or in the `remediation.execute` call it made. */
  datatype ExecutorMove =
    | BeginRun
    | Narrate(id: string, message: string)
    | CallExecute
    | CheckCall
    | SimulatorClear(took: bool, ok: bool)
    | SettleCall
    | LoseCall  // the executor sees an exception instead of an answer
    | ReceiveAnswer
    | NarrateVerifying(id: string, message: string)
    | MarkResolved
    | NarrateClosing(id: string, message: string)
    | NarrateFailure(id: string, message: string)

  datatype Step =
    | Write(op: Op)  // a request by the agent or the operator, or the Gateway part of a reset
    | Approve(faultId: string)
    | OfDecision(d: nat, decisionMove: DecisionMove)
    | OfExecutor(e: nat, executorMove: ExecutorMove)
    | ResetMcpTools
    | UseSimulator(asset: string, scenario: Option<string>)

  predicate IsRequest(op: Op) {
    op.Create? || op.Patch? || op.Diagnose? || op.Deny? || op.Post? || op.ResetAll?
  }

  /** Narration lines before the call: approval, announcement, and two for each step. */
  function ScriptLength(x: Executor): nat {
    2 + 2 * |x.steps|
  }

  predicate Enabled(s: Sys, step: Step) {
    match step
    case Write(op) => IsRequest(op) && (op.Create? ==> op.id !in s.assetOf)
    case Approve(f) => f in s.store.faults
    case OfDecision(d, move) => d < |s.decisions| && DecisionEnabled(s, s.decisions[d], move)
    case OfExecutor(e, move) => e < |s.executors| && ExecutorEnabled(s, s.executors[e], move)
    case ResetMcpTools => true
    case UseSimulator(asset, _) => asset in s.simulator
  }

  predicate DecisionEnabled(s: Sys, x: Decision, move: DecisionMove) {
    match move
    case FetchScenario(_) => x.pc.Fetching?
    case RegisterFault(_, _) => x.pc.Registering?
    case MintToken(token, took, answered) => x.pc.Minting? && token !in s.owners && (answered ==> took)
    case StartExecutor => x.pc.Starting?
  }

  predicate ExecutorEnabled(s: Sys, x: Executor, move: ExecutorMove) {
    match move
    case BeginRun => x.pc.Ready?
    case Narrate(_, _) => x.pc.Narrating? && x.pc.told < ScriptLength(x)
    case CallExecute => x.pc == Narrating(ScriptLength(x))
    case CheckCall => x.call.Sent?
    case SimulatorClear(took, ok) => x.call.Clearing? && (took ==> x.call.asset in s.simulator) && (ok ==> took)
    case SettleCall => x.call.ClearReturned?
    case LoseCall => x.pc.Awaiting?
    case ReceiveAnswer => x.pc.Awaiting? && (x.call.Settled? || x.call.Refused?)
    case NarrateVerifying(_, _) => x.pc.Confirmed?
    case MarkResolved => x.pc.Verified?
    case NarrateClosing(_, _) => x.pc.Closing?
    case NarrateFailure(_, _) => x.pc.Failing?
  }

  /** What a Gateway section means for the history of the faults and their assets. */
  function History(s: Store, op: Op): seq<Entry> {
    match op
    case Create(id, _, request, _) => [FaultCreated(id, request.asset)]
    case Patch(f, status) => if f in s.faults then [FaultPatched(f, s.faults[f].asset, status)] else []
    case Deny(f) => if f in s.faults then [FaultDenied(f)] else []
    case ExecutorStatus(f, asset, status) => if f in s.faults then [FaultWritten(f, asset, status)] else []
    case ResetAll => [AllReset]
    case _ => []
  }

  /** A Gateway section: run it, publish its events. */
  function Emit(s: Sys, op: Op): Sys {
    s.(store := Run(s.store, op).0,
       log := s.log + Run(s.store, op).1,
       trace := s.trace + History(s.store, op),
       assetOf := if op.Create? then s.assetOf[op.id := op.request.asset] else s.assetOf)
  }

  function Next(s: Sys, step: Step): Sys
    requires Enabled(s, step)
  {
    match step
    case Write(op) => Emit(s, op)
    case Approve(f) =>
      var fault := s.store.faults[f];
      s.(decisions := s.decisions + [Decision(f, fault.asset, fault.scenario, |s.trace|, Fetching)],
         trace := s.trace + [Approved(|s.decisions|, f, fault.asset)])
    case OfDecision(d, move) => Decide(s, d, move)
    case OfExecutor(e, move) => Execute(s, e, move)
    case ResetMcpTools => s.(tokens := map[], registry := map[])
    case UseSimulator(asset, scenario) => s.(simulator := s.simulator[asset := scenario])
  }

  function MoveDecision(s: Sys, d: nat, pc: DecisionPc): Sys
    requires d < |s.decisions|
  {
    s.(decisions := s.decisions[d := s.decisions[d].(pc := pc)])
  }

  function Decide(s: Sys, d: nat, move: DecisionMove): Sys
    requires d < |s.decisions| && DecisionEnabled(s, s.decisions[d], move)
  {
    var x := s.decisions[d];
    match move
    case FetchScenario(steps) => MoveDecision(s, d, Registering(steps))
    case RegisterFault(took, answered) =>
      var s1 :=
        if took then s.(registry := s.registry[x.fault := Record(x.fault, x.asset, x.scenario, x.pc.steps)]) else s;
      MoveDecision(s1, d, if answered then Minting(x.pc.steps) else Abandoned(None))
    case MintToken(token, took, answered) =>
      var s1 :=
        if took then
          s.(tokens := s.tokens[token := Token(token, x.fault, Approval, "human", false)],
             owners := s.owners[token := d])
        else s;
      MoveDecision(s1, d,
        if answered then Starting(x.pc.steps, token) else Abandoned(if took then Some(token) else None))
    case StartExecutor =>
      var s1 := MoveDecision(Emit(s, Grant(x.fault, x.pc.token)), d, Started(x.pc.token));
      s1.(executors := s1.executors + [Executor(x.fault, x.asset, x.pc.steps, x.pc.token, Ready, NotMade)])
  }

  function Tell(s: Sys, x: Executor, id: string, step: string, message: string): Sys {
    Emit(s, Post(Activity(id, x.fault, step, message)))
  }

  /** The executor's status write; on a fault that a reset has removed it changes nothing. */
  function SetStatus(s: Sys, e: nat, status: Status): Sys
    requires e < |s.executors|
  {
    var s1 := Emit(s, ExecutorStatus(s.executors[e].fault, s.executors[e].asset, status));
    s1.(trace := s1.trace + [StatusByExecutor(e, status)])
  }

  /** The executor's own counters after a move. */
  function Advance(s: Sys, x: Executor, move: ExecutorMove): Executor
    requires ExecutorEnabled(s, x, move)
  {
    match move
    case BeginRun => x.(pc := Narrating(0))
    case Narrate(_, _) => x.(pc := Narrating(x.pc.told + 1))
    case CallExecute => x.(pc := Awaiting, call := Sent)
    case CheckCall =>
      (match Check(x.fault, x.token, x.steps, s.tokens, s.registry)
       case Err(error) => x.(call := Refused(error))
       case Ok(asset) => x.(call := Clearing(asset)))
    case SimulatorClear(_, ok) => x.(call := ClearReturned(x.call.asset, ok))
    case SettleCall => x.(call := Settled(x.call.ok))
    case LoseCall => x.(pc := Failing)
    case ReceiveAnswer => x.(pc := if x.call == Settled(true) then Confirmed else Failing)
    case NarrateVerifying(_, _) => x.(pc := Verified)
    case MarkResolved => x.(pc := Closing)
    case NarrateClosing(_, _) => x.(pc := Finished(true))
    case NarrateFailure(_, _) => x.(pc := Finished(false))
  }

  /** What the move does to everything else. */
  function Effect(s: Sys, e: nat, move: ExecutorMove): Sys
    requires e < |s.executors| && ExecutorEnabled(s, s.executors[e], move)
  {
    var x := s.executors[e];
    match move
    case BeginRun => SetStatus(s, e, Remediating)
    case Narrate(id, message) => Tell(s, x, id, "remediate", message)
    case CheckCall =>
      (match Check(x.fault, x.token, x.steps, s.tokens, s.registry)
       case Err(_) => s
       case Ok(asset) => s.(trace := s.trace + [ClearAttempt(e, x.fault, asset)]))
    case SimulatorClear(took, ok) =>
      var s1 := if took then s.(simulator := s.simulator[x.call.asset := None]) else s;
      if ok then s1.(trace := s1.trace + [ClearConfirmed(e, x.call.asset)]) else s1
    case SettleCall => if x.call.ok then s.(tokens := Consumed(s.tokens, x.token)) else s
    case NarrateVerifying(id, message) => Tell(s, x, id, "remediate", message)
    case MarkResolved => SetStatus(s, e, Resolved)
    case NarrateClosing(id, message) => Tell(s, x, id, "resolved", message)
    case NarrateFailure(id, message) => Tell(s, x, id, "remediate", message)
    case _ => s
  }

  function Execute(s: Sys, e: nat, move: ExecutorMove): Sys
    requires e < |s.executors| && ExecutorEnabled(s, s.executors[e], move)
  {
    Effect(s, e, move).(executors := s.executors[e := Advance(s, s.executors[e], move)])
  }

  // ---------------------------------------------------------------- runs

  ghost predicate ValidRun(s: Sys, steps: seq<Step>)
    decreases |steps|
  {
    steps != [] ==> Enabled(s, steps[0]) && ValidRun(Next(s, steps[0]), steps[1..])
  }

  ghost function After(s: Sys, steps: seq<Step>): Sys
    requires ValidRun(s, steps)
    decreases |steps|
  {
    if steps == [] then s else After(Next(s, steps[0]), steps[1..])
  }
}
