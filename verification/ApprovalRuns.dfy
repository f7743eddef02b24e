/** Putting runs of the approval protocol together: one that completes, one that clears without any approved step. */
module ApprovalRuns {
  import opened Basics
  import opened GatewayState
  import opened McpTools
  import opened Approval
  import opened ApprovalSafety
  import opened SimulatorHistory

  lemma FirstStep(s: Sys, steps: seq<Step>)
    requires steps != [] && Enabled(s, steps[0]) && ValidRun(Next(s, steps[0]), steps[1..])
    ensures ValidRun(s, steps) && After(s, steps) == After(Next(s, steps[0]), steps[1..])
  {
  }

  lemma {:induction false} Compose(s: Sys, a: seq<Step>, b: seq<Step>)
    requires ValidRun(s, a) && ValidRun(After(s, a), b)
    ensures ValidRun(s, a + b) && After(s, a + b) == After(After(s, a), b)
    decreases |a|
  {
    if a == [] {
      assert a + b == b;
    } else {
      assert (a + b)[0] == a[0] && (a + b)[1..] == a[1..] + b;
      Compose(Next(s, a[0]), a[1..], b);
      FirstStep(s, a + b);
    }
  }

  lemma Last(s: Sys, step: Step)
    requires Enabled(s, step)
    ensures ValidRun(s, [step]) && After(s, [step]) == Next(s, step)
  {
    var run := [step];
    assert run[1..] == [];
    assert ValidRun(Next(s, step), run[1..]) && After(Next(s, step), run[1..]) == Next(s, step);
    FirstStep(s, run);
  }

  lemma Then(s: Sys, steps: seq<Step>, t: Sys, step: Step)
    requires ValidRun(s, steps) && After(s, steps) == t && Enabled(t, step)
    ensures ValidRun(s, steps + [step]) && After(s, steps + [step]) == Next(t, step)
  {
    Last(t, step);
    Compose(s, steps, [step]);
  }

  // ---------------------------------------------------------------- an approval that goes well

  /** The approval of `f` with the allowed steps the Orchestrator names ([] when it does not answer). */
  function ApproveWith(s: Sys, f: string, ids: seq<string>, token: string): seq<Step> {
    var d := |s.decisions|;
    [Approve(f)] + [OfDecision(d, FetchScenario(ids))] + [OfDecision(d, RegisterFault(true, true))]
      + [OfDecision(d, MintToken(token, true, true))] + [OfDecision(d, StartExecutor)]
  }

  lemma Registered(s: Sys, f: string, ids: seq<string>)
    requires f in s.store.faults
    ensures var d := |s.decisions|;
      var asset, scenario := s.store.faults[f].asset, s.store.faults[f].scenario;
      var run := [Approve(f)] + [OfDecision(d, FetchScenario(ids))] + [OfDecision(d, RegisterFault(true, true))];
      && ValidRun(s, run)
      && var t := After(s, run);
      && t.decisions == s.decisions + [Decision(f, asset, scenario, |s.trace|, Minting(ids))]
      && t.executors == s.executors && t.owners == s.owners && t.store == s.store && t.simulator == s.simulator
      && f in t.registry && t.registry[f] == Record(f, asset, scenario, ids)
  {
    var d := |s.decisions|;
    var x := Decision(f, s.store.faults[f].asset, s.store.faults[f].scenario, |s.trace|, Fetching);
    var s1 := s.(decisions := s.decisions + [x], trace := s.trace + [Approved(d, f, x.asset)]);
    Last(s, Approve(f));
    FetchedSteps(s1, s.decisions, x, ids);
    var s2 := s1.(decisions := s.decisions + [x.(pc := Registering(ids))]);
    Then(s, [Approve(f)], s1, OfDecision(d, FetchScenario(ids)));
    RegisteredSteps(s2, s.decisions, x.(pc := Registering(ids)), ids);
    Then(s, [Approve(f)] + [OfDecision(d, FetchScenario(ids))], s2, OfDecision(d, RegisterFault(true, true)));
  }

  lemma FetchedSteps(s: Sys, others: seq<Decision>, x: Decision, ids: seq<string>)
    requires s.decisions == others + [x] && x.pc.Fetching?
    ensures Next(s, OfDecision(|others|, FetchScenario(ids))) == s.(decisions := others + [x.(pc := Registering(ids))])
  {
  }

  lemma RegisteredSteps(s: Sys, others: seq<Decision>, x: Decision, ids: seq<string>)
    requires s.decisions == others + [x] && x.pc == Registering(ids)
    ensures Next(s, OfDecision(|others|, RegisterFault(true, true)))
         == s.(decisions := others + [x.(pc := Minting(ids))],
               registry := s.registry[x.fault := Record(x.fault, x.asset, x.scenario, ids)])
  {
  }

  /** After the approval there is a new executor with a token of its own and the allowed steps. */
  lemma ApprovedWith(s: Sys, f: string, ids: seq<string>, token: string)
    requires f in s.store.faults && token !in s.owners
    ensures var run := ApproveWith(s, f, ids, token);
      var asset := s.store.faults[f].asset;
      && ValidRun(s, run)
      && var t := After(s, run);
      && t.executors == s.executors + [Executor(f, asset, ids, token, Ready, NotMade)]
      && token in t.tokens && t.tokens[token] == Token(token, f, Approval, "human", false)
      && f in t.registry && t.registry[f] == Record(f, asset, s.store.faults[f].scenario, ids)
      && t.simulator == s.simulator && t.store == s.store.(pending := s.store.pending[f := token])
  {
    var d := |s.decisions|;
    Registered(s, f, ids);
    var run := [Approve(f)] + [OfDecision(d, FetchScenario(ids))] + [OfDecision(d, RegisterFault(true, true))];
    var s3 := After(s, run);
    var s4 := Next(s3, OfDecision(d, MintToken(token, true, true)));
    Then(s, run, s3, OfDecision(d, MintToken(token, true, true)));
    run := run + [OfDecision(d, MintToken(token, true, true))];
    Then(s, run, s4, OfDecision(d, StartExecutor));
  }

  // ---------------------------------------------------------------- an executor that goes well

  /** What an executor leaves alone until its call: tokens, registry, simulator, assets, and who is stored. */
  ghost predicate SameBut(s: Sys, t: Sys, e: nat, x: Executor) {
    && e < |s.executors| && t.executors == s.executors[e := x]
    && t.tokens == s.tokens && t.registry == s.registry && t.simulator == s.simulator
    && t.store.assets == s.store.assets && t.store.faults.Keys == s.store.faults.Keys
  }

  /** A move before the call: no token, no simulator, no asset, no fault comes or goes. */
  lemma MoveBeforeCall(s: Sys, e: nat, move: ExecutorMove)
    requires e < |s.executors| && ExecutorEnabled(s, s.executors[e], move) && s.store.Valid()
    requires move.BeginRun? || move.Narrate? || move.CallExecute?
    ensures SameBut(s, Next(s, OfExecutor(e, move)), e, Advance(s, s.executors[e], move))
    ensures Next(s, OfExecutor(e, move)).store.Valid()
  {
    MoveFrame(s, e, move);
    MoveParts(s, e, move);
    ClearOnlySo(s, e, move, "");
    var op := SectionOfMove(s.executors[e], move);
    if op.Some? { RunKeepsStore(s.store, op.value); }
  }

  /** One more move on a run that has only moved this executor so far. */
  lemma Ran(s: Sys, steps: seq<Step>, e: nat, x: Executor, move: ExecutorMove)
    requires ValidRun(s, steps) && SameBut(s, After(s, steps), e, x) && After(s, steps).store.Valid()
    requires ExecutorEnabled(After(s, steps), x, move)
    requires move.BeginRun? || move.Narrate? || move.CallExecute?
    ensures ValidRun(s, steps + [OfExecutor(e, move)])
    ensures SameBut(s, After(s, steps + [OfExecutor(e, move)]), e, Advance(After(s, steps), x, move))
    ensures After(s, steps + [OfExecutor(e, move)]).store.Valid()
  {
    var t := After(s, steps);
    MoveBeforeCall(t, e, move);
    Then(s, steps, t, OfExecutor(e, move));
  }

  /** The start and `n` lines of narration. */
  function Narrations(e: nat, n: nat): seq<Step> {
    if n == 0 then [OfExecutor(e, BeginRun)] else Narrations(e, n - 1) + [OfExecutor(e, Narrate("id", "line"))]
  }

  lemma Begun(s: Sys, e: nat)
    requires e < |s.executors| && s.executors[e].pc.Ready? && s.store.Valid()
    ensures var run := [OfExecutor(e, BeginRun)];
      && ValidRun(s, run) && After(s, run).store.Valid()
      && SameBut(s, After(s, run), e, s.executors[e].(pc := Narrating(0)))
  {
    Last(s, OfExecutor(e, BeginRun));
    MoveBeforeCall(s, e, BeginRun);
  }

  lemma {:induction false} Narrated(s: Sys, e: nat, n: nat)
    requires e < |s.executors| && s.executors[e].pc.Ready? && s.store.Valid() && n <= ScriptLength(s.executors[e])
    ensures ValidRun(s, Narrations(e, n)) && After(s, Narrations(e, n)).store.Valid()
    ensures SameBut(s, After(s, Narrations(e, n)), e, s.executors[e].(pc := Narrating(n)))
  {
    if n == 0 {
      Begun(s, e);
    } else {
      Narrated(s, e, n - 1);
      NarratedOnce(s, Narrations(e, n - 1), e, s.executors[e].(pc := Narrating(n - 1)));
    }
  }

  lemma NarratedOnce(s: Sys, run: seq<Step>, e: nat, x: Executor)
    requires ValidRun(s, run) && SameBut(s, After(s, run), e, x) && After(s, run).store.Valid()
    requires x.pc.Narrating? && x.pc.told < ScriptLength(x)
    ensures ValidRun(s, run + [OfExecutor(e, Narrate("id", "line"))])
    ensures SameBut(s, After(s, run + [OfExecutor(e, Narrate("id", "line"))]), e, x.(pc := Narrating(x.pc.told + 1)))
    ensures After(s, run + [OfExecutor(e, Narrate("id", "line"))]).store.Valid()
  {
    Ran(s, run, e, x, Narrate("id", "line"));
  }

  /** `n` lines of narration, then the executor's one call. */
  function RunToCall(e: nat, n: nat): seq<Step> {
    Narrations(e, n) + [OfExecutor(e, CallExecute)]
  }

  lemma RanToCall(s: Sys, e: nat, n: nat)
    requires e < |s.executors| && s.executors[e].pc.Ready? && s.store.Valid() && n == ScriptLength(s.executors[e])
    ensures ValidRun(s, RunToCall(e, n)) && After(s, RunToCall(e, n)).store.Valid()
    ensures SameBut(s, After(s, RunToCall(e, n)), e, s.executors[e].(pc := Awaiting, call := Sent))
  {
    var x := s.executors[e].(pc := Narrating(n));
    Narrated(s, e, n);
    CallReady(After(s, Narrations(e, n)), x, n);
    Ran(s, Narrations(e, n), e, x, CallExecute);
  }

  lemma CallReady(s: Sys, x: Executor, n: nat)
    requires x.pc == Narrating(n) && n == ScriptLength(x)
    ensures ExecutorEnabled(s, x, CallExecute) && Advance(s, x, CallExecute) == x.(pc := Awaiting, call := Sent)
  {
  }

  /** Two lines to open, two for each step. */
  function ScriptFor(ids: seq<string>): nat {
    2 + 2 * |ids|
  }

  // ---------------------------------------------------------------- without steps

  /**
   * From any state with a fault, an approval whose allowlist could not be fetched still leads to a clear
   * of the fault's asset: no step is asked for, so none is outside the empty allowlist.
   */
  lemma EmptyAllowlistStillClears(s: Sys, f: string, token: string)
    requires s.store.Valid() && f in s.store.faults && token !in s.owners && token != ""
    ensures var e := |s.executors|;
      var none: seq<string> := [];
      var run := ApproveWith(s, f, none, token) + RunToCall(e, ScriptFor(none)) + [OfExecutor(e, CheckCall)];
      && ValidRun(s, run)
      && var t := After(s, run);
      && f in t.registry && t.registry[f].allowed == []
      && t.trace != [] && t.trace[|t.trace| - 1] == ClearAttempt(e, f, s.store.faults[f].asset)
  {
    CheckedAfterApproval(s, f, [], token);
  }

  /** Approved and narrated: the call is out, and what it will be checked against is in place. */
  ghost predicate CallIsOut(s: Sys, t: Sys, f: string, asset: string, ids: seq<string>, token: string) {
    && t.executors == s.executors + [Executor(f, asset, ids, token, Awaiting, Sent)]
    && token in t.tokens && t.tokens[token] == Token(token, f, Approval, "human", false)
    && f in t.registry && t.registry[f].asset == asset && t.registry[f].allowed == ids
    && t.simulator == s.simulator && t.store.assets == s.store.assets && f in t.store.faults && t.store.Valid()
  }

  lemma OutAfterApproval(s: Sys, f: string, ids: seq<string>, token: string)
    requires s.store.Valid() && f in s.store.faults && token !in s.owners
    ensures var run := ApproveWith(s, f, ids, token) + RunToCall(|s.executors|, ScriptFor(ids));
      ValidRun(s, run) && CallIsOut(s, After(s, run), f, s.store.faults[f].asset, ids, token)
  {
    var e := |s.executors|;
    ApprovedWith(s, f, ids, token);
    var s1 := After(s, ApproveWith(s, f, ids, token));
    RanToCall(s1, e, ScriptFor(ids));
    Compose(s, ApproveWith(s, f, ids, token), RunToCall(e, ScriptFor(ids)));
  }

  /** The check finds nothing wrong, whatever the allowed steps are: they are the very ones asked for. */
  lemma CheckMove(s: Sys, t: Sys, f: string, asset: string, ids: seq<string>, token: string)
    requires CallIsOut(s, t, f, asset, ids, token) && token != ""
    ensures var e := |s.executors|;
      var u := Next(t, OfExecutor(e, CheckCall));
      && Enabled(t, OfExecutor(e, CheckCall))
      && u.executors == s.executors + [Executor(f, asset, ids, token, Awaiting, Clearing(asset))]
      && u.tokens == t.tokens && u.registry == t.registry && u.simulator == t.simulator && u.store == t.store
      && u.trace == t.trace + [ClearAttempt(e, f, asset)]
  {
    CheckPasses(f, token, ids, t.tokens, t.registry);
  }

  /** So the call passes its checks and goes on to the simulator. */
  lemma CheckedAfterApproval(s: Sys, f: string, ids: seq<string>, token: string)
    requires s.store.Valid() && f in s.store.faults && token !in s.owners && token != ""
    ensures var e := |s.executors|;
      var asset := s.store.faults[f].asset;
      var run := ApproveWith(s, f, ids, token) + RunToCall(e, ScriptFor(ids)) + [OfExecutor(e, CheckCall)];
      && ValidRun(s, run)
      && var t := After(s, run);
      && t.executors == s.executors + [Executor(f, asset, ids, token, Awaiting, Clearing(asset))]
      && token in t.tokens && t.tokens[token] == Token(token, f, Approval, "human", false)
      && f in t.registry && t.registry[f].allowed == ids
      && t.simulator == s.simulator && t.store.assets == s.store.assets && f in t.store.faults && t.store.Valid()
      && t.trace != [] && t.trace[|t.trace| - 1] == ClearAttempt(e, f, asset)
  {
    var e := |s.executors|;
    var run := ApproveWith(s, f, ids, token) + RunToCall(e, ScriptFor(ids));
    OutAfterApproval(s, f, ids, token);
    CheckMove(s, After(s, run), f, s.store.faults[f].asset, ids, token);
    Then(s, run, After(s, run), OfExecutor(e, CheckCall));
  }

  // ---------------------------------------------------------------- to the end

  /** The run, carried on to the executor's end. */
  function ToTheEnd(run: seq<Step>, e: nat): seq<Step> {
    run + [OfExecutor(e, SimulatorClear(true, true))] + [OfExecutor(e, SettleCall)] + [OfExecutor(e, ReceiveAnswer)]
      + [OfExecutor(e, NarrateVerifying("id", "line"))] + [OfExecutor(e, MarkResolved)] + [OfExecutor(e, NarrateClosing("id", "line"))]
  }

  /** The simulator clears the asset and says so. */
  lemma Cleared(s: Sys, run: seq<Step>, e: nat, x: Executor)
    requires ValidRun(s, run) && e < |After(s, run).executors| && After(s, run).executors[e] == x
    requires x.pc.Awaiting? && x.call == Clearing(x.asset) && x.asset in After(s, run).simulator
    ensures ValidRun(s, run + [OfExecutor(e, SimulatorClear(true, true))])
    ensures var t, u := After(s, run), After(s, run + [OfExecutor(e, SimulatorClear(true, true))]);
      && u.executors == t.executors[e := x.(call := ClearReturned(x.asset, true))]
      && u.store == t.store && u.simulator == t.simulator[x.asset := None] && u.tokens == t.tokens
  {
    var t := After(s, run);
    Then(s, run, t, OfExecutor(e, SimulatorClear(true, true)));
    ClearMove(t, e);
  }

  /** The call spends the token. */
  lemma Spent(s: Sys, run: seq<Step>, e: nat, x: Executor)
    requires ValidRun(s, run) && e < |After(s, run).executors| && After(s, run).executors[e] == x
    requires x.call == ClearReturned(x.asset, true)
    ensures ValidRun(s, run + [OfExecutor(e, SettleCall)])
    ensures var t, u := After(s, run), After(s, run + [OfExecutor(e, SettleCall)]);
      && u.executors == t.executors[e := x.(call := Settled(true))]
      && u.store == t.store && u.simulator == t.simulator && u.tokens == Consumed(t.tokens, x.token)
  {
    var t := After(s, run);
    Then(s, run, t, OfExecutor(e, SettleCall));
    SettleMove(t, e);
  }

  /** The executor hears of it. */
  lemma Heard(s: Sys, run: seq<Step>, e: nat, x: Executor)
    requires ValidRun(s, run) && e < |After(s, run).executors| && After(s, run).executors[e] == x
    requires x.pc.Awaiting? && x.call == Settled(true)
    ensures ValidRun(s, run + [OfExecutor(e, ReceiveAnswer)])
    ensures var t, u := After(s, run), After(s, run + [OfExecutor(e, ReceiveAnswer)]);
      && u.executors == t.executors[e := x.(pc := Confirmed)]
      && u.store == t.store && u.simulator == t.simulator && u.tokens == t.tokens
  {
    var t := After(s, run);
    Then(s, run, t, OfExecutor(e, ReceiveAnswer));
    ReceiveMove(t, e);
  }

  /** The simulator is clear, the token spent, and the answer back. */
  lemma Answered(s: Sys, run: seq<Step>, e: nat, x: Executor)
    requires ValidRun(s, run) && e < |After(s, run).executors| && After(s, run).executors[e] == x
    requires x.pc.Awaiting? && x.call == Clearing(x.asset) && x.asset in After(s, run).simulator
    ensures var end := run + [OfExecutor(e, SimulatorClear(true, true))] + [OfExecutor(e, SettleCall)] + [OfExecutor(e, ReceiveAnswer)];
      && ValidRun(s, end)
      && var t, u := After(s, run), After(s, end);
      && u.executors == t.executors[e := x.(pc := Confirmed, call := Settled(true))]
      && u.store == t.store && u.simulator == t.simulator[x.asset := None] && u.tokens == Consumed(t.tokens, x.token)
  {
    Cleared(s, run, e, x);
    var run1 := run + [OfExecutor(e, SimulatorClear(true, true))];
    Spent(s, run1, e, x.(call := ClearReturned(x.asset, true)));
    Heard(s, run1 + [OfExecutor(e, SettleCall)], e, x.(call := Settled(true)));
  }

  lemma ClearMove(s: Sys, e: nat)
    requires e < |s.executors| && s.executors[e].call.Clearing? && s.executors[e].call.asset in s.simulator
    ensures var x := s.executors[e];
      var t := Next(s, OfExecutor(e, SimulatorClear(true, true)));
      && t.executors == s.executors[e := x.(call := ClearReturned(x.call.asset, true))] && t.store == s.store
      && t.simulator == s.simulator[x.call.asset := None] && t.tokens == s.tokens
  {
  }

  lemma SettleMove(s: Sys, e: nat)
    requires e < |s.executors| && s.executors[e].call.ClearReturned? && s.executors[e].call.ok
    ensures var x := s.executors[e];
      var t := Next(s, OfExecutor(e, SettleCall));
      && t.executors == s.executors[e := x.(call := Settled(true))] && t.store == s.store
      && t.simulator == s.simulator && t.tokens == Consumed(s.tokens, x.token)
  {
  }

  lemma ReceiveMove(s: Sys, e: nat)
    requires e < |s.executors| && s.executors[e].pc.Awaiting? && s.executors[e].call == Settled(true)
    ensures var t := Next(s, OfExecutor(e, ReceiveAnswer));
      && t.executors == s.executors[e := s.executors[e].(pc := Confirmed)] && t.store == s.store
      && t.simulator == s.simulator && t.tokens == s.tokens
  {
  }

  /** Fault resolved, asset healthy and unlinked. */
  ghost predicate Over(t: Sys, x: Executor) {
    && x.fault in t.store.faults && t.store.faults[x.fault].status == Resolved
    && x.asset in t.store.assets && t.store.assets[x.asset].state == Healthy && t.store.assets[x.asset].link == None
  }

  lemma Verifying(s: Sys, run: seq<Step>, e: nat, x: Executor)
    requires ValidRun(s, run) && e < |After(s, run).executors| && After(s, run).executors[e] == x && x.pc.Confirmed?
    requires After(s, run).store.Valid()
    ensures ValidRun(s, run + [OfExecutor(e, NarrateVerifying("id", "line"))])
    ensures var t, u := After(s, run), After(s, run + [OfExecutor(e, NarrateVerifying("id", "line"))]);
      && u.executors == t.executors[e := x.(pc := Verified)] && u.simulator == t.simulator && u.tokens == t.tokens
      && u.store.faults == t.store.faults && u.store.assets == t.store.assets && u.store.Valid()
  {
    var t := After(s, run);
    Then(s, run, t, OfExecutor(e, NarrateVerifying("id", "line")));
    Told(t, e, NarrateVerifying("id", "line"));
  }

  /** The executor writes its fault resolved, and with it the asset healthy. */
  lemma WrittenOver(s: Sys, run: seq<Step>, e: nat, x: Executor)
    requires ValidRun(s, run) && e < |After(s, run).executors| && After(s, run).executors[e] == x && x.pc.Verified?
    requires var t := After(s, run).store;
      t.Valid() && x.fault in t.faults && x.asset in t.assets && x.asset != ""
    ensures ValidRun(s, run + [OfExecutor(e, MarkResolved)])
    ensures var t, u := After(s, run), After(s, run + [OfExecutor(e, MarkResolved)]);
      && u.executors == t.executors[e := x.(pc := Closing)] && u.simulator == t.simulator && u.tokens == t.tokens
      && Over(u, x)
  {
    var t := After(s, run);
    Then(s, run, t, OfExecutor(e, MarkResolved));
    Marked(t, e);
  }

  lemma Closed(s: Sys, run: seq<Step>, e: nat, x: Executor)
    requires ValidRun(s, run) && e < |After(s, run).executors| && After(s, run).executors[e] == x && x.pc.Closing?
    ensures ValidRun(s, run + [OfExecutor(e, NarrateClosing("id", "line"))])
    ensures var t, u := After(s, run), After(s, run + [OfExecutor(e, NarrateClosing("id", "line"))]);
      && u.executors == t.executors[e := x.(pc := ExecutorPc.Finished(true))]
      && u.simulator == t.simulator && u.tokens == t.tokens
      && u.store.faults == t.store.faults && u.store.assets == t.store.assets
  {
    var t := After(s, run);
    Then(s, run, t, OfExecutor(e, NarrateClosing("id", "line")));
    Told(t, e, NarrateClosing("id", "line"));
  }

  /** Narration touches neither faults nor assets. */
  lemma Told(s: Sys, e: nat, move: ExecutorMove)
    requires e < |s.executors| && ExecutorEnabled(s, s.executors[e], move)
    requires move.NarrateVerifying? || move.NarrateClosing?
    ensures var t := Next(s, OfExecutor(e, move));
      && t.executors == s.executors[e := Advance(s, s.executors[e], move)]
      && t.simulator == s.simulator && t.tokens == s.tokens
      && t.store.faults == s.store.faults && t.store.assets == s.store.assets
      && (s.store.Valid() ==> t.store.Valid())
  {
  }

  lemma Marked(s: Sys, e: nat)
    requires e < |s.executors| && s.executors[e].pc.Verified? && s.store.Valid()
    requires var x := s.executors[e]; x.fault in s.store.faults && x.asset in s.store.assets && x.asset != ""
    ensures var x := s.executors[e];
      var t := Next(s, OfExecutor(e, MarkResolved));
      && t.executors == s.executors[e := x.(pc := Closing)] && t.simulator == s.simulator && t.tokens == s.tokens
      && Over(t, x)
  {
  }

  /** What is resolved and then told stays resolved. */
  lemma WrittenAndClosed(s: Sys, run: seq<Step>, e: nat, x: Executor)
    requires ValidRun(s, run) && e < |After(s, run).executors| && After(s, run).executors[e] == x && x.pc.Verified?
    requires var t := After(s, run).store;
      t.Valid() && x.fault in t.faults && x.asset in t.assets && x.asset != ""
    ensures var end := run + [OfExecutor(e, MarkResolved)] + [OfExecutor(e, NarrateClosing("id", "line"))];
      && ValidRun(s, end)
      && var t, u := After(s, run), After(s, end);
      && u.executors == t.executors[e := x.(pc := ExecutorPc.Finished(true))]
      && u.simulator == t.simulator && u.tokens == t.tokens && Over(u, x)
  {
    WrittenOver(s, run, e, x);
    Closed(s, run + [OfExecutor(e, MarkResolved)], e, x.(pc := Closing));
  }

  lemma WrittenUp(s: Sys, run: seq<Step>, e: nat, x: Executor)
    requires ValidRun(s, run) && e < |After(s, run).executors| && After(s, run).executors[e] == x && x.pc.Confirmed?
    requires var t := After(s, run).store;
      t.Valid() && x.fault in t.faults && x.asset in t.assets && x.asset != ""
    ensures var end := run + [OfExecutor(e, NarrateVerifying("id", "line"))] + [OfExecutor(e, MarkResolved)]
              + [OfExecutor(e, NarrateClosing("id", "line"))];
      && ValidRun(s, end)
      && var t, u := After(s, run), After(s, end);
      && u.executors == t.executors[e := x.(pc := ExecutorPc.Finished(true))]
      && u.simulator == t.simulator && u.tokens == t.tokens && Over(u, x)
  {
    Verifying(s, run, e, x);
    WrittenAndClosed(s, run + [OfExecutor(e, NarrateVerifying("id", "line"))], e, x.(pc := Verified));
  }

  /**
   * From any state with a fault on a named asset that the Gateway and the simulator know, with a fresh
   * token and every call answered, the approval completes: the simulator has the asset healthy, the fault
   * is resolved, the asset is healthy and unlinked, and the token is spent.
   */
  lemma ApprovalCompletes(s: Sys, f: string, ids: seq<string>, token: string)
    requires s.store.Valid() && f in s.store.faults && token !in s.owners && token != ""
    requires var asset := s.store.faults[f].asset; asset != "" && asset in s.store.assets && asset in s.simulator
    ensures var e := |s.executors|;
      var asset := s.store.faults[f].asset;
      var run := ToTheEnd(ApproveWith(s, f, ids, token) + RunToCall(e, ScriptFor(ids)) + [OfExecutor(e, CheckCall)], e);
      && ValidRun(s, run)
      && var t := After(s, run);
      && asset in t.simulator && t.simulator[asset] == None
      && f in t.store.faults && t.store.faults[f].status == Resolved
      && asset in t.store.assets && t.store.assets[asset].state == Healthy && t.store.assets[asset].link == None
      && token in t.tokens && t.tokens[token].consumed
      && |t.executors| == e + 1 && t.executors[e].pc == ExecutorPc.Finished(true)
  {
    var e := |s.executors|;
    var run := ApproveWith(s, f, ids, token) + RunToCall(e, ScriptFor(ids)) + [OfExecutor(e, CheckCall)];
    CheckedAfterApproval(s, f, ids, token);
    CallCompletes(s, run, e, After(s, run).executors[e]);
  }

  lemma CallCompletes(s: Sys, run: seq<Step>, e: nat, x: Executor)
    requires ValidRun(s, run) && e < |After(s, run).executors| && After(s, run).executors[e] == x
    requires x.pc.Awaiting? && x.call == Clearing(x.asset) && x.asset in After(s, run).simulator
    requires var t := After(s, run).store;
      t.Valid() && x.fault in t.faults && x.asset in t.assets && x.asset != ""
    ensures ValidRun(s, ToTheEnd(run, e))
    ensures var t, u := After(s, run), After(s, ToTheEnd(run, e));
      && u.executors == t.executors[e := x.(pc := ExecutorPc.Finished(true), call := Settled(true))]
      && u.simulator == t.simulator[x.asset := None] && u.tokens == Consumed(t.tokens, x.token) && Over(u, x)
  {
    Answered(s, run, e, x);
    var run1 := run + [OfExecutor(e, SimulatorClear(true, true))] + [OfExecutor(e, SettleCall)] + [OfExecutor(e, ReceiveAnswer)];
    WrittenUp(s, run1, e, x.(pc := Confirmed, call := Settled(true)));
  }
}
