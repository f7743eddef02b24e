/**
 * What every run of the approval protocol keeps, and what follows for clears, tokens and statuses.
 */
module ApprovalSafety {
  import opened Basics
  import opened GatewayState
  import opened McpTools
  import opened Approval

  // ---------------------------------------------------------------- what a step touches

  /** The Gateway section a step runs, if any. */
  function SectionOf(s: Sys, step: Step): Option<Op>
    requires Enabled(s, step)
  {
    match step
    case Write(op) => Some(op)
    case OfDecision(d, StartExecutor) => Some(Grant(s.decisions[d].fault, s.decisions[d].pc.token))
    case OfExecutor(e, move) => SectionOfMove(s.executors[e], move)
    case _ => None
  }

  function SectionOfMove(x: Executor, move: ExecutorMove): Option<Op> {
    match move
    case BeginRun => Some(ExecutorStatus(x.fault, x.asset, Remediating))
    case MarkResolved => Some(ExecutorStatus(x.fault, x.asset, Resolved))
    case Narrate(id, message) => Some(Post(Activity(id, x.fault, "remediate", message)))
    case NarrateVerifying(id, message) => Some(Post(Activity(id, x.fault, "remediate", message)))
    case NarrateClosing(id, message) => Some(Post(Activity(id, x.fault, "resolved", message)))
    case NarrateFailure(id, message) => Some(Post(Activity(id, x.fault, "remediate", message)))
    case _ => None
  }

  /** The entries a step adds besides the fault history of its Gateway section. */
  function Notes(s: Sys, step: Step): seq<Entry>
    requires Enabled(s, step)
  {
    match step
    case Approve(f) => [Approved(|s.decisions|, f, s.store.faults[f].asset)]
    case OfExecutor(e, move) => NotesOfMove(s, e, move)
    case _ => []
  }

  function NotesOfMove(s: Sys, e: nat, move: ExecutorMove): seq<Entry>
    requires e < |s.executors| && ExecutorEnabled(s, s.executors[e], move)
  {
    var x := s.executors[e];
    match move
    case BeginRun => [StatusByExecutor(e, Remediating)]
    case MarkResolved => [StatusByExecutor(e, Resolved)]
    case CheckCall =>
      var r := Check(x.fault, x.token, x.steps, s.tokens, s.registry);
      if r.Ok? then [ClearAttempt(e, x.fault, r.value)] else []
    case SimulatorClear(_, ok) => if ok then [ClearConfirmed(e, x.call.asset)] else []
    case _ => []
  }

  function SectionHistory(s: Sys, step: Step): seq<Entry>
    requires Enabled(s, step)
  {
    var op := SectionOf(s, step);
    if op.Some? then History(s.store, op.value) else []
  }

  lemma StepParts(s: Sys, step: Step)
    requires Enabled(s, step)
    ensures var t := Next(s, step);
      var op := SectionOf(s, step);
      && t.trace == s.trace + (SectionHistory(s, step) + Notes(s, step))
      && (op.None? ==> t.store == s.store && t.log == s.log && t.assetOf == s.assetOf)
      && (op.Some? ==> t.store == Run(s.store, op.value).0 && t.log == s.log + Run(s.store, op.value).1
                       && t.assetOf == Emit(s, op.value).assetOf)
  {
    match step
    case OfDecision(d, move) => DecisionParts(s, d, move);
    case OfExecutor(e, move) => MoveParts(s, e, move);
    case _ =>
  }

  lemma NextTrace(s: Sys, step: Step)
    requires Enabled(s, step)
    ensures Next(s, step).trace == s.trace + SectionHistory(s, step) + Notes(s, step)
  {
    StepParts(s, step);
    Associates(s.trace, SectionHistory(s, step), Notes(s, step));
  }

  lemma DecisionParts(s: Sys, d: nat, move: DecisionMove)
    requires d < |s.decisions| && DecisionEnabled(s, s.decisions[d], move)
    ensures var t := Decide(s, d, move);
      && t.trace == s.trace && t.assetOf == s.assetOf
      && (!move.StartExecutor? ==> t.store == s.store && t.log == s.log)
      && (move.StartExecutor? ==>
            var op := Grant(s.decisions[d].fault, s.decisions[d].pc.token);
            t.store == Run(s.store, op).0 && t.log == s.log + Run(s.store, op).1)
  {
  }

  lemma MoveParts(s: Sys, e: nat, move: ExecutorMove)
    requires e < |s.executors| && ExecutorEnabled(s, s.executors[e], move)
    ensures var t := Effect(s, e, move);
      var op := SectionOfMove(s.executors[e], move);
      && t.trace == s.trace + ((if op.Some? then History(s.store, op.value) else []) + NotesOfMove(s, e, move))
      && (op.None? ==> t.store == s.store && t.log == s.log && t.assetOf == s.assetOf)
      && (op.Some? ==> t.store == Run(s.store, op.value).0 && t.log == s.log + Run(s.store, op.value).1
                       && t.assetOf == s.assetOf)
  {
    match move
    case BeginRun =>
    case MarkResolved =>
    case Narrate(_, _) =>
    case NarrateVerifying(_, _) =>
    case NarrateClosing(_, _) =>
    case NarrateFailure(_, _) =>
    case CheckCall =>
    case SimulatorClear(_, _) =>
    case SettleCall =>
    case _ =>
  }

  /** Outside the Gateway an executor's move touches at most its own token. */
  lemma MoveFrame(s: Sys, e: nat, move: ExecutorMove)
    requires e < |s.executors| && ExecutorEnabled(s, s.executors[e], move)
    ensures var t := Effect(s, e, move);
      && t.decisions == s.decisions && t.owners == s.owners && t.registry == s.registry
      && t.tokens == if move.SettleCall? && s.executors[e].call.ok then Consumed(s.tokens, s.executors[e].token)
                     else s.tokens
  {
    match move
    case BeginRun =>
    case MarkResolved =>
    case Narrate(_, _) =>
    case NarrateVerifying(_, _) =>
    case NarrateClosing(_, _) =>
    case NarrateFailure(_, _) =>
    case CheckCall =>
    case SimulatorClear(_, _) =>
    case SettleCall =>
    case _ =>
  }

  /** An executor keeps what it was started with. */
  lemma AdvanceFrame(s: Sys, x: Executor, move: ExecutorMove)
    requires ExecutorEnabled(s, x, move)
    ensures var y := Advance(s, x, move);
      y.fault == x.fault && y.asset == x.asset && y.token == x.token && y.steps == x.steps
  {
  }

  /** A decision's move changes its own counter; it may mint one token and start one executor. */
  lemma DecisionFrame(s: Sys, d: nat, move: DecisionMove)
    requires d < |s.decisions| && DecisionEnabled(s, s.decisions[d], move)
    ensures var t := Decide(s, d, move);
      && s.executors <= t.executors
      && (|t.executors| == |s.executors| || (move.StartExecutor? && |t.executors| == |s.executors| + 1
            && t.executors[|s.executors|].call == NotMade))
      && |t.decisions| == |s.decisions|
      && t.decisions == s.decisions[d := s.decisions[d].(pc := t.decisions[d].pc)]
      && (forall k :: k in s.owners ==> k in t.owners && t.owners[k] == s.owners[k])
  {
  }

  // ---------------------------------------------------------------- fault ids

  ghost predicate KnownFault(s: Sys, f: string, asset: string) {
    f in s.assetOf && s.assetOf[f] == asset
  }

  /** A fault id means the same asset wherever it is written down, even after the fault is gone. */
  ghost predicate IdsAgree(s: Sys) {
    && s.store.Valid()
    && (forall f :: f in s.store.faults ==> KnownFault(s, f, s.store.faults[f].asset))
    && (forall f :: f in s.registry ==> KnownFault(s, f, s.registry[f].asset))
    && (forall d :: 0 <= d < |s.decisions| ==> KnownFault(s, s.decisions[d].fault, s.decisions[d].asset))
    && (forall e :: 0 <= e < |s.executors| ==> ExecutorAgrees(s, s.executors[e]))
  }

  ghost predicate ExecutorAgrees(s: Sys, x: Executor) {
    && KnownFault(s, x.fault, x.asset)
    && (x.call.Clearing? || x.call.ClearReturned? ==> x.call.asset == x.asset)
  }

  lemma RunFaults(s: Store, op: Op, f: string)
    requires s.Valid() && f in Run(s, op).0.faults
    ensures (f in s.faults && Run(s, op).0.faults[f].asset == s.faults[f].asset)
         || (op.Create? && f == op.id && Run(s, op).0.faults[f].asset == op.request.asset)
  {
  }

  /** The Gateway part of a step keeps every old fault id's asset. */
  lemma SectionKeepsIds(s: Sys, op: Op)
    requires IdsAgree(s) && (op.Create? ==> op.id !in s.assetOf)
    ensures IdsAgree(Emit(s, op))
  {
    RunKeepsStore(s.store, op);
    var t := Emit(s, op);
    forall f | f in t.store.faults
      ensures KnownFault(t, f, t.store.faults[f].asset)
    {
      RunFaults(s.store, op, f);
    }
    forall e | 0 <= e < |s.executors|
      ensures ExecutorAgrees(t, t.executors[e])
    {
      assert ExecutorAgrees(s, s.executors[e]);
    }
  }

  lemma DecisionKeepsIds(s: Sys, d: nat, move: DecisionMove)
    requires IdsAgree(s) && d < |s.decisions| && DecisionEnabled(s, s.decisions[d], move)
    ensures IdsAgree(Decide(s, d, move))
  {
    var t := Decide(s, d, move);
    if move.StartExecutor? {
      SectionKeepsIds(s, Grant(s.decisions[d].fault, s.decisions[d].pc.token));
    }
    forall e | 0 <= e < |t.executors|
      ensures ExecutorAgrees(t, t.executors[e])
    {
      if e < |s.executors| { assert ExecutorAgrees(s, s.executors[e]); }
    }
  }

  lemma MoveKeepsIds(s: Sys, e: nat, move: ExecutorMove)
    requires IdsAgree(s) && e < |s.executors| && ExecutorEnabled(s, s.executors[e], move)
    ensures IdsAgree(Execute(s, e, move))
  {
    var x := s.executors[e];
    var t := Execute(s, e, move);
    MoveFrame(s, e, move);
    MoveParts(s, e, move);
    var op := SectionOfMove(x, move);
    if op.Some? { SectionKeepsIds(s, op.value); }
    assert ExecutorAgrees(t, t.executors[e]) by {
      assert ExecutorAgrees(s, x);
      CheckPasses(x.fault, x.token, x.steps, s.tokens, s.registry);
    }
    forall g | 0 <= g < |t.executors|
      ensures ExecutorAgrees(t, t.executors[g])
    {
      if g != e { assert ExecutorAgrees(s, s.executors[g]); }
    }
  }

  lemma NextKeepsIds(s: Sys, step: Step)
    requires IdsAgree(s) && Enabled(s, step)
    ensures IdsAgree(Next(s, step))
  {
    match step
    case Write(op) => SectionKeepsIds(s, op);
    case OfDecision(d, move) => DecisionKeepsIds(s, d, move);
    case OfExecutor(e, move) => MoveKeepsIds(s, e, move);
    case _ =>
      forall e | 0 <= e < |s.executors|
        ensures ExecutorAgrees(Next(s, step), s.executors[e])
      {
        assert ExecutorAgrees(s, s.executors[e]);
      }
  }

  // ---------------------------------------------------------------- tokens

  function TokenOf(pc: DecisionPc): Option<string> {
    match pc
    case Starting(_, token) => Some(token)
    case Started(token) => Some(token)
    case Abandoned(lost) => lost
    case _ => None
  }

  /** Each token was minted by one decision, each decision minted at most one, each executor has its own. */
  ghost predicate TokensOwned(s: Sys) {
    && (forall t :: t in s.owners ==> s.owners[t] < |s.decisions| && TokenOf(s.decisions[s.owners[t]].pc) == Some(t))
    && (forall d :: 0 <= d < |s.decisions| ==> Minted(s, d, s.decisions[d].pc))
    && (forall t :: t in s.tokens ==> t in s.owners)
    && (forall e :: 0 <= e < |s.executors| ==> Holds(s, s.executors[e]))
    && (forall e, g :: 0 <= e < g < |s.executors| ==> s.executors[e].token != s.executors[g].token)
  }

  ghost predicate Minted(s: Sys, d: nat, pc: DecisionPc) {
    var token := TokenOf(pc);
    token.Some? ==> token.value in s.owners && s.owners[token.value] == d
  }

  ghost predicate Holds(s: Sys, x: Executor) {
    && x.token in s.owners && s.owners[x.token] < |s.decisions|
    && var d := s.decisions[s.owners[x.token]];
      d.pc == Started(x.token) && d.fault == x.fault && d.asset == x.asset
  }

  /** A decision that keeps its fault, its asset and its token. */
  ghost predicate KeepsToken(x: Decision, y: Decision) {
    && x.fault == y.fault && x.asset == y.asset && TokenOf(x.pc) == TokenOf(y.pc)
    && (x.pc.Started? ==> y.pc == x.pc)
  }

  /** Steps that mint nothing and start nobody leave ownership alone. */
  lemma OwnershipStays(s: Sys, t: Sys)
    requires TokensOwned(s) && t.owners == s.owners && t.tokens.Keys <= s.owners.Keys
    requires |s.decisions| <= |t.decisions|
    requires forall d :: 0 <= d < |s.decisions| ==> KeepsToken(s.decisions[d], t.decisions[d])
    requires forall d :: |s.decisions| <= d < |t.decisions| ==> TokenOf(t.decisions[d].pc).None?
    requires |t.executors| == |s.executors|
    requires forall e :: 0 <= e < |s.executors| ==> SameHolder(s.executors[e], t.executors[e])
    ensures TokensOwned(t)
  {
    forall e | 0 <= e < |t.executors|
      ensures Holds(t, t.executors[e])
    {
      assert Holds(s, s.executors[e]) && SameHolder(s.executors[e], t.executors[e]);
      assert KeepsToken(s.decisions[s.owners[s.executors[e].token]], t.decisions[s.owners[s.executors[e].token]]);
    }
    forall d | 0 <= d < |t.decisions|
      ensures Minted(t, d, t.decisions[d].pc)
    {
      if d < |s.decisions| {
        assert Minted(s, d, s.decisions[d].pc) && KeepsToken(s.decisions[d], t.decisions[d]);
      }
    }
    forall k | k in t.owners
      ensures TokenOf(t.decisions[t.owners[k]].pc) == Some(k)
    {
      assert KeepsToken(s.decisions[s.owners[k]], t.decisions[s.owners[k]]);
    }
  }

  ghost predicate SameHolder(x: Executor, y: Executor) {
    x.fault == y.fault && x.asset == y.asset && x.token == y.token
  }

  /** A fresh token goes to the one decision that mints it. */
  lemma OwnershipGrows(s: Sys, t: Sys, d: nat, token: string)
    requires TokensOwned(s) && d < |s.decisions| && TokenOf(s.decisions[d].pc).None? && token !in s.owners
    requires t.owners == s.owners[token := d] && t.tokens.Keys <= s.owners.Keys + {token}
    requires |t.decisions| == |s.decisions| && TokenOf(t.decisions[d].pc) == Some(token)
    requires forall g :: 0 <= g < |s.decisions| && g != d ==> t.decisions[g] == s.decisions[g]
    requires t.executors == s.executors
    ensures TokensOwned(t)
  {
    forall e | 0 <= e < |t.executors|
      ensures Holds(t, t.executors[e])
    {
      assert Holds(s, s.executors[e]);
    }
    forall g | 0 <= g < |t.decisions|
      ensures Minted(t, g, t.decisions[g].pc)
    {
      assert Minted(s, g, s.decisions[g].pc);
    }
  }

  /** The decision that starts an executor hands over the token only it ever had. */
  lemma OwnershipPasses(s: Sys, t: Sys, d: nat, x: Executor)
    requires TokensOwned(s) && d < |s.decisions| && s.decisions[d].pc.Starting?
    requires t.owners == s.owners && t.tokens == s.tokens
    requires t.decisions == s.decisions[d := s.decisions[d].(pc := Started(s.decisions[d].pc.token))]
    requires t.executors == s.executors + [x] && x.token == s.decisions[d].pc.token
    requires x.fault == s.decisions[d].fault && x.asset == s.decisions[d].asset
    ensures TokensOwned(t)
  {
    assert Minted(s, d, s.decisions[d].pc);
    forall e | 0 <= e < |s.executors|
      ensures Holds(t, t.executors[e]) && t.executors[e].token != x.token
    {
      assert Holds(s, s.executors[e]);
    }
    forall g | 0 <= g < |t.decisions|
      ensures Minted(t, g, t.decisions[g].pc)
    {
      assert Minted(s, g, s.decisions[g].pc);
    }
  }

  lemma MintKeepsTokens(s: Sys, d: nat, token: string, took: bool, answered: bool)
    requires TokensOwned(s) && d < |s.decisions| && DecisionEnabled(s, s.decisions[d], MintToken(token, took, answered))
    ensures TokensOwned(Decide(s, d, MintToken(token, took, answered)))
  {
    var t := Decide(s, d, MintToken(token, took, answered));
    if took { OwnershipGrows(s, t, d, token); } else { OwnershipStays(s, t); }
  }

  lemma StartKeepsTokens(s: Sys, d: nat)
    requires TokensOwned(s) && d < |s.decisions| && s.decisions[d].pc.Starting?
    ensures TokensOwned(Decide(s, d, StartExecutor))
  {
    var t := Decide(s, d, StartExecutor);
    OwnershipPasses(s, t, d, t.executors[|s.executors|]);
  }

  lemma DecisionKeepsTokens(s: Sys, d: nat, move: DecisionMove)
    requires TokensOwned(s) && d < |s.decisions| && DecisionEnabled(s, s.decisions[d], move)
    ensures TokensOwned(Decide(s, d, move))
  {
    match move
    case MintToken(token, took, answered) => MintKeepsTokens(s, d, token, took, answered);
    case StartExecutor => StartKeepsTokens(s, d);
    case _ => OwnershipStays(s, Decide(s, d, move));
  }

  lemma NextKeepsTokens(s: Sys, step: Step)
    requires TokensOwned(s) && Enabled(s, step)
    ensures TokensOwned(Next(s, step))
  {
    match step
    case OfDecision(d, move) => DecisionKeepsTokens(s, d, move);
    case OfExecutor(e, move) =>
      MoveFrame(s, e, move);
      AdvanceFrame(s, s.executors[e], move);
      OwnershipStays(s, Next(s, step));
    case _ => OwnershipStays(s, Next(s, step));
  }

  // ---------------------------------------------------------------- spending

  ghost predicate Spending(s: Sys, x: Executor) {
    && (x.token in s.tokens ==> (s.tokens[x.token].consumed <==> x.call == Settled(true)))
    && (x.pc.Ready? || x.pc.Narrating? <==> x.call.NotMade?)
    && (x.pc.Confirmed? || x.pc.Verified? || x.pc.Closing? || x.pc == Finished(true) ==> x.call == Settled(true))
  }

  /** A stored token is spent exactly when the call of the executor that owns it settled on a confirmed clear. */
  ghost predicate SpentRight(s: Sys) {
    && (forall e :: 0 <= e < |s.executors| ==> Spending(s, s.executors[e]))
    && (forall t :: t in s.tokens && s.tokens[t].consumed
          ==> t in s.owners && s.owners[t] < |s.decisions| && s.decisions[s.owners[t]].pc == Started(t))
  }

  lemma AdvanceSpends(s: Sys, t: Sys, x: Executor, move: ExecutorMove)
    requires ExecutorEnabled(s, x, move) && Spending(s, x)
    requires t.tokens == if move.SettleCall? && x.call.ok then Consumed(s.tokens, x.token) else s.tokens
    ensures Spending(t, Advance(s, x, move))
  {
  }

  /** One call advances; only the token of the executor that made it may become spent. */
  lemma AdvanceKeepsSpent(s: Sys, t: Sys, e: nat, move: ExecutorMove)
    requires TokensOwned(s) && SpentRight(s) && e < |s.executors| && ExecutorEnabled(s, s.executors[e], move)
    requires t.executors == s.executors[e := Advance(s, s.executors[e], move)]
    requires t.decisions == s.decisions && t.owners == s.owners
    requires t.tokens == if move.SettleCall? && s.executors[e].call.ok then Consumed(s.tokens, s.executors[e].token)
                         else s.tokens
    ensures SpentRight(t)
  {
    var x := s.executors[e];
    assert Spending(s, x) && Holds(s, x);
    AdvanceSpends(s, t, x, move);
    forall g | 0 <= g < |t.executors| && g != e
      ensures Spending(t, t.executors[g])
    {
      assert Spending(s, s.executors[g]);
      assert s.executors[g].token != x.token;
    }
  }

  lemma MoveKeepsSpent(s: Sys, e: nat, move: ExecutorMove)
    requires TokensOwned(s) && SpentRight(s) && e < |s.executors| && ExecutorEnabled(s, s.executors[e], move)
    ensures SpentRight(Execute(s, e, move))
  {
    MoveFrame(s, e, move);
    AdvanceKeepsSpent(s, Execute(s, e, move), e, move);
  }

  /** A minted token starts unspent, and nobody holds it yet. */
  lemma MintedUnspent(s: Sys, t: Sys, d: nat)
    requires TokensOwned(s) && SpentRight(s) && d < |s.decisions| && TokenOf(s.decisions[d].pc).None?
    requires |t.decisions| == |s.decisions| && forall g :: 0 <= g < |s.decisions| && g != d ==> t.decisions[g] == s.decisions[g]
    requires forall k :: k in s.owners ==> k in t.owners && t.owners[k] == s.owners[k]
    requires t.executors == s.executors
    requires forall k :: k in t.tokens ==> if k in s.owners then k in s.tokens && t.tokens[k] == s.tokens[k] else !t.tokens[k].consumed
    ensures SpentRight(t)
  {
    forall g | 0 <= g < |t.executors|
      ensures Spending(t, t.executors[g])
    {
      assert Spending(s, s.executors[g]) && Holds(s, s.executors[g]);
    }
  }

  lemma StartKeepsSpent(s: Sys, d: nat)
    requires TokensOwned(s) && SpentRight(s) && d < |s.decisions| && s.decisions[d].pc.Starting?
    ensures SpentRight(Decide(s, d, StartExecutor))
  {
    var t := Decide(s, d, StartExecutor);
    assert Minted(s, d, s.decisions[d].pc);
    forall g | 0 <= g < |t.executors|
      ensures Spending(t, t.executors[g])
    {
      if g < |s.executors| {
        assert Spending(s, s.executors[g]);
      }
    }
  }

  lemma DecisionKeepsSpent(s: Sys, d: nat, move: DecisionMove)
    requires TokensOwned(s) && SpentRight(s) && d < |s.decisions| && DecisionEnabled(s, s.decisions[d], move)
    ensures SpentRight(Decide(s, d, move))
  {
    match move
    case StartExecutor => StartKeepsSpent(s, d);
    case _ => MintedUnspent(s, Decide(s, d, move), d);
  }

  lemma NextKeepsSpent(s: Sys, step: Step)
    requires TokensOwned(s) && SpentRight(s) && Enabled(s, step)
    ensures SpentRight(Next(s, step))
  {
    match step
    case OfDecision(d, move) => DecisionKeepsSpent(s, d, move);
    case OfExecutor(e, move) => MoveKeepsSpent(s, e, move);
    case _ =>
      var t := Next(s, step);
      forall g | 0 <= g < |t.executors|
        ensures Spending(t, t.executors[g])
      {
        assert Spending(s, s.executors[g]);
      }
  }

  // ---------------------------------------------------------------- the trace

  predicate PastCheck(call: Call) {
    call.Clearing? || call.ClearReturned? || call.Settled?
  }

  predicate ClearOk(call: Call) {
    call == Settled(true) || (call.ClearReturned? && call.ok)
  }

  /** Where in the trace the approval stands that a clear attempt is charged to. */
  ghost function ChargedTo(s: Sys, i: nat): nat
    requires TokensOwned(s) && i < |s.trace| && s.trace[i].ClearAttempt? && s.trace[i].executor < |s.executors|
  {
    assert Holds(s, s.executors[s.trace[i].executor]);
    s.decisions[s.owners[s.executors[s.trace[i].executor].token]].at
  }

  ghost predicate DecisionTraced(s: Sys, d: nat)
    requires d < |s.decisions|
  {
    var x := s.decisions[d];
    x.at < |s.trace| && s.trace[x.at] == Approved(d, x.fault, x.asset)
  }

  ghost predicate ExecutorTraced(s: Sys, e: nat)
    requires e < |s.executors|
  {
    var x := s.executors[e];
    && (PastCheck(x.call) <==> ClearAttempt(e, x.fault, x.asset) in s.trace)
    && (ClearOk(x.call) ==> ClearConfirmed(e, x.asset) in s.trace)
  }

  ghost predicate EntryRight(s: Sys, i: nat)
    requires TokensOwned(s) && i < |s.trace|
  {
    match s.trace[i]
    case ClearAttempt(e, fault, asset) =>
      && e < |s.executors| && s.executors[e].fault == fault && s.executors[e].asset == asset
      && ClearAttempt(e, fault, asset) !in s.trace[..i]
      && ChargedTo(s, i) < i
    case ClearConfirmed(e, asset) =>
      e < |s.executors| && ClearAttempt(e, s.executors[e].fault, s.executors[e].asset) in s.trace[..i]
    case StatusByExecutor(e, status) =>
      && e < |s.executors|
      && (status == Remediating || status == Resolved)
      && (status == Resolved ==>
            s.executors[e].call == Settled(true) && ClearConfirmed(e, s.executors[e].asset) in s.trace[..i])
    case _ => true
  }

  ghost predicate TraceRight(s: Sys)
    requires TokensOwned(s)
  {
    && (forall d :: 0 <= d < |s.decisions| ==> DecisionTraced(s, d))
    && (forall e :: 0 <= e < |s.executors| ==> ExecutorTraced(s, e))
    && (forall i :: 0 <= i < |s.trace| ==> EntryRight(s, i))
  }

  lemma HistoryIsQuiet(s: Store, op: Op)
    ensures Quiet(History(s, op))
  {
  }

  /** Coroutines keep who they are, and a settled call stays settled. */
  ghost predicate Extends(s: Sys, t: Sys) {
    && s.trace <= t.trace
    && (forall k :: k in s.owners ==> k in t.owners && t.owners[k] == s.owners[k])
    && |s.decisions| <= |t.decisions|
    && (forall d :: 0 <= d < |s.decisions| ==> SameDecision(s.decisions[d], t.decisions[d]))
    && |s.executors| <= |t.executors|
    && (forall e :: 0 <= e < |s.executors| ==> SameExecutor(s.executors[e], t.executors[e]))
  }

  ghost predicate SameDecision(x: Decision, y: Decision) {
    x.fault == y.fault && x.asset == y.asset && x.at == y.at
  }

  ghost predicate SameExecutor(x: Executor, y: Executor) {
    && x.fault == y.fault && x.asset == y.asset && x.token == y.token
    && (x.call == Settled(true) ==> y.call == Settled(true))
    && (PastCheck(x.call) ==> PastCheck(y.call))
    && (ClearOk(x.call) ==> ClearOk(y.call))
  }

  lemma AdvanceProgress(s: Sys, x: Executor, move: ExecutorMove)
    requires ExecutorEnabled(s, x, move) && Spending(s, x)
    ensures SameExecutor(x, Advance(s, x, move))
  {
  }

  lemma MoveExtends(s: Sys, e: nat, move: ExecutorMove)
    requires SpentRight(s) && e < |s.executors| && ExecutorEnabled(s, s.executors[e], move)
    ensures Extends(s, Execute(s, e, move))
  {
    assert Spending(s, s.executors[e]);
    MoveParts(s, e, move);
    MoveFrame(s, e, move);
    AdvanceProgress(s, s.executors[e], move);
  }

  lemma DecisionExtends(s: Sys, d: nat, move: DecisionMove)
    requires d < |s.decisions| && DecisionEnabled(s, s.decisions[d], move)
    ensures Extends(s, Decide(s, d, move))
  {
    DecisionFrame(s, d, move);
    DecisionParts(s, d, move);
  }

  lemma NextExtends(s: Sys, step: Step)
    requires SpentRight(s) && Enabled(s, step)
    ensures Extends(s, Next(s, step))
  {
    match step
    case OfExecutor(e, move) => MoveExtends(s, e, move);
    case OfDecision(d, move) => DecisionExtends(s, d, move);
    case Write(_) =>
    case _ =>
  }

  lemma OldEntriesStay(s: Sys, t: Sys, i: nat)
    requires TokensOwned(s) && TokensOwned(t) && Extends(s, t) && i < |s.trace| && EntryRight(s, i)
    ensures i < |t.trace| && EntryRight(t, i)
  {
    assert t.trace[i] == s.trace[i] && t.trace[..i] == s.trace[..i];
    if s.trace[i].ClearAttempt? {
      var e := s.trace[i].executor;
      assert SameExecutor(s.executors[e], t.executors[e]);
      assert Holds(s, s.executors[e]) && Holds(t, t.executors[e]);
      assert SameDecision(s.decisions[s.owners[s.executors[e].token]], t.decisions[s.owners[s.executors[e].token]]);
    }
  }

  lemma DecisionsTraced(s: Sys, step: Step, d: nat)
    requires TokensOwned(s) && SpentRight(s) && TraceRight(s) && Enabled(s, step)
    requires d < |Next(s, step).decisions|
    ensures DecisionTraced(Next(s, step), d)
  {
    NextExtends(s, step);
    if d < |s.decisions| {
      assert DecisionTraced(s, d) && SameDecision(s.decisions[d], Next(s, step).decisions[d]);
    } else {
      match step
      case Approve(f) =>
      case OfDecision(g, move) => DecisionFrame(s, g, move);
      case OfExecutor(g, move) => MoveFrame(s, g, move);
      case _ =>
    }
  }

  /** A move that takes a call past its checks notes an attempt, one that confirms a clear notes that. */
  lemma MoveNotes(s: Sys, e: nat, move: ExecutorMove)
    requires IdsAgree(s) && e < |s.executors| && ExecutorEnabled(s, s.executors[e], move) && Spending(s, s.executors[e])
    ensures var x := s.executors[e];
      var y := Advance(s, x, move);
      && (ClearAttempt(e, x.fault, x.asset) in NotesOfMove(s, e, move) <==> PastCheck(y.call) && !PastCheck(x.call))
      && (ClearOk(y.call) && !ClearOk(x.call) ==> ClearConfirmed(e, x.asset) in NotesOfMove(s, e, move))
      && (forall z :: z in NotesOfMove(s, e, move) && z.ClearAttempt? ==> z == ClearAttempt(e, x.fault, x.asset))
  {
    var x := s.executors[e];
    assert ExecutorAgrees(s, x);
    CheckPasses(x.fault, x.token, x.steps, s.tokens, s.registry);
  }

  /** The history of a Gateway section speaks of no executor. */
  ghost predicate Quiet(history: seq<Entry>) {
    forall x :: x in history ==>
      x.FaultCreated? || x.FaultPatched? || x.FaultDenied? || x.FaultWritten? || x.AllReset?
  }

  lemma AdvanceTraced(s: Sys, t: Sys, history: seq<Entry>, e: nat, move: ExecutorMove, g: nat)
    requires SpentRight(s) && IdsAgree(s) && e < |s.executors| && ExecutorEnabled(s, s.executors[e], move)
    requires t.executors == s.executors[e := Advance(s, s.executors[e], move)]
    requires Quiet(history) && t.trace == s.trace + (history + NotesOfMove(s, e, move))
    requires g < |s.executors| && ExecutorTraced(s, g)
    ensures ExecutorTraced(t, g)
  {
    assert Spending(s, s.executors[e]);
    AdvanceProgress(s, s.executors[e], move);
    MoveNotes(s, e, move);
  }

  lemma MoveTraced(s: Sys, e: nat, move: ExecutorMove, g: nat)
    requires TokensOwned(s) && SpentRight(s) && TraceRight(s) && IdsAgree(s)
    requires e < |s.executors| && ExecutorEnabled(s, s.executors[e], move)
    requires g < |s.executors|
    ensures |Execute(s, e, move).executors| == |s.executors| && ExecutorTraced(Execute(s, e, move), g)
  {
    var op := SectionOfMove(s.executors[e], move);
    var history := if op.Some? then History(s.store, op.value) else [];
    if op.Some? { HistoryIsQuiet(s.store, op.value); }
    MoveParts(s, e, move);
    AdvanceTraced(s, Execute(s, e, move), history, e, move, g);
  }

  lemma ExecutorsTraced(s: Sys, step: Step, e: nat)
    requires TokensOwned(s) && SpentRight(s) && TraceRight(s) && IdsAgree(s) && Enabled(s, step)
    requires e < |Next(s, step).executors|
    ensures ExecutorTraced(Next(s, step), e)
  {
    match step
    case OfExecutor(g, move) =>
      MoveFrame(s, g, move);
      MoveTraced(s, g, move, e);
    case _ => OthersTraced(s, step, e);
  }

  /** The trace never speaks of an executor that does not exist yet. */
  lemma NoneAhead(s: Sys, entry: Entry)
    requires TokensOwned(s) && TraceRight(s) && entry.ClearAttempt? && entry.executor >= |s.executors|
    ensures entry !in s.trace
  {
    forall i | 0 <= i < |s.trace|
      ensures s.trace[i] != entry
    {
      assert EntryRight(s, i);
    }
  }

  lemma OthersTraced(s: Sys, step: Step, e: nat)
    requires TokensOwned(s) && TraceRight(s) && Enabled(s, step) && !step.OfExecutor?
    requires e < |Next(s, step).executors|
    ensures ExecutorTraced(Next(s, step), e)
  {
    StepParts(s, step);
    if SectionOf(s, step).Some? { HistoryIsQuiet(s.store, SectionOf(s, step).value); }
    if step.OfDecision? { DecisionFrame(s, step.d, step.decisionMove); }
    if e < |s.executors| {
      assert ExecutorTraced(s, e);
    } else {
      var x := Next(s, step).executors[e];
      NoneAhead(s, ClearAttempt(e, x.fault, x.asset));
    }
  }

  lemma AddedEntry(s: Sys, step: Step, i: nat)
    requires Enabled(s, step) && |s.trace| <= i < |Next(s, step).trace|
    ensures Quiet([Next(s, step).trace[i]]) || Next(s, step).trace[i] in Notes(s, step)
  {
    StepParts(s, step);
    var history := SectionHistory(s, step);
    if SectionOf(s, step).Some? { HistoryIsQuiet(s.store, SectionOf(s, step).value); }
    if i < |s.trace| + |history| {
      assert Next(s, step).trace[i] == history[i - |s.trace|];
    } else {
      assert Next(s, step).trace[i] == Notes(s, step)[i - |s.trace| - |history|];
    }
  }

  lemma NewEntryRight(s: Sys, step: Step, i: nat)
    requires IdsAgree(s) && TokensOwned(s) && SpentRight(s) && TraceRight(s) && Enabled(s, step)
    requires TokensOwned(Next(s, step))
    requires |s.trace| <= i < |Next(s, step).trace|
    ensures EntryRight(Next(s, step), i)
  {
    AddedEntry(s, step, i);
    if Quiet([Next(s, step).trace[i]]) {
      QuietEntryRight(Next(s, step), i);
    } else if step.OfExecutor? {
      MoveEntryRight(s, step.e, step.executorMove, i);
    }
  }

  lemma QuietEntryRight(t: Sys, i: nat)
    requires TokensOwned(t) && i < |t.trace| && Quiet([t.trace[i]])
    ensures EntryRight(t, i)
  {
    assert t.trace[i] in [t.trace[i]];
  }

  lemma AttemptRight(s: Sys, e: nat)
    requires IdsAgree(s) && TokensOwned(s) && SpentRight(s) && TraceRight(s)
    requires e < |s.executors| && ExecutorEnabled(s, s.executors[e], CheckCall)
    requires TokensOwned(Execute(s, e, CheckCall))
    requires |Execute(s, e, CheckCall).trace| > |s.trace|
    ensures EntryRight(Execute(s, e, CheckCall), |s.trace|)
  {
    var x := s.executors[e];
    var t := Execute(s, e, CheckCall);
    assert ExecutorTraced(s, e) && Holds(s, x) && ExecutorAgrees(s, x);
    assert DecisionTraced(s, s.owners[x.token]);
    CheckPasses(x.fault, x.token, x.steps, s.tokens, s.registry);
    assert t.trace[..|s.trace|] == s.trace;
  }

  lemma ConfirmationRight(s: Sys, e: nat, took: bool)
    requires IdsAgree(s) && TokensOwned(s) && TraceRight(s)
    requires e < |s.executors| && ExecutorEnabled(s, s.executors[e], SimulatorClear(took, true))
    requires TokensOwned(Execute(s, e, SimulatorClear(took, true)))
    ensures EntryRight(Execute(s, e, SimulatorClear(took, true)), |s.trace|)
  {
    var t := Execute(s, e, SimulatorClear(took, true));
    assert ExecutorTraced(s, e) && ExecutorAgrees(s, s.executors[e]);
    assert t.trace[..|s.trace|] == s.trace;
  }

  lemma ResolvedRight(s: Sys, e: nat, i: nat)
    requires TokensOwned(s) && SpentRight(s) && TraceRight(s)
    requires e < |s.executors| && ExecutorEnabled(s, s.executors[e], MarkResolved)
    requires TokensOwned(Execute(s, e, MarkResolved))
    requires |s.trace| <= i < |Execute(s, e, MarkResolved).trace|
    requires Execute(s, e, MarkResolved).trace[i] == StatusByExecutor(e, Resolved)
    ensures EntryRight(Execute(s, e, MarkResolved), i)
  {
    var t := Execute(s, e, MarkResolved);
    MoveParts(s, e, MarkResolved);
    assert ExecutorTraced(s, e) && Spending(s, s.executors[e]);
    assert t.trace[..i][..|s.trace|] == s.trace;
  }

  /** An executor adds at most one note, and it holds up. */
  lemma MoveEntryRight(s: Sys, e: nat, move: ExecutorMove, i: nat)
    requires IdsAgree(s) && TokensOwned(s) && SpentRight(s) && TraceRight(s)
    requires e < |s.executors| && ExecutorEnabled(s, s.executors[e], move)
    requires TokensOwned(Execute(s, e, move))
    requires |s.trace| <= i < |Execute(s, e, move).trace|
    requires Execute(s, e, move).trace[i] in NotesOfMove(s, e, move)
    ensures EntryRight(Execute(s, e, move), i)
  {
    match move
    case CheckCall => AttemptRight(s, e);
    case SimulatorClear(took, ok) => ConfirmationRight(s, e, took);
    case MarkResolved => ResolvedRight(s, e, i);
    case BeginRun =>
    case _ => assert false;
  }

  lemma NextKeepsTrace(s: Sys, step: Step)
    requires IdsAgree(s) && TokensOwned(s) && SpentRight(s) && TraceRight(s) && Enabled(s, step)
    ensures TokensOwned(Next(s, step)) && TraceRight(Next(s, step))
  {
    var t := Next(s, step);
    NextKeepsTokens(s, step);
    forall d | 0 <= d < |t.decisions|
      ensures DecisionTraced(t, d)
    {
      DecisionsTraced(s, step, d);
    }
    forall e | 0 <= e < |t.executors|
      ensures ExecutorTraced(t, e)
    {
      ExecutorsTraced(s, step, e);
    }
    NextExtends(s, step);
    forall i | 0 <= i < |t.trace|
      ensures EntryRight(t, i)
    {
      if i < |s.trace| {
        assert EntryRight(s, i);
        OldEntriesStay(s, t, i);
      } else {
        NewEntryRight(s, step, i);
      }
    }
  }

  // ---------------------------------------------------------------- every run

  ghost predicate Safe(s: Sys) {
    IdsAgree(s) && TokensOwned(s) && SpentRight(s) && TraceRight(s)
  }

  lemma {:induction false} RunIsSafe(s: Sys, steps: seq<Step>)
    requires Safe(s) && ValidRun(s, steps)
    ensures Safe(After(s, steps))
    decreases |steps|
  {
    if steps != [] {
      NextKeepsIds(s, steps[0]);
      NextKeepsSpent(s, steps[0]);
      NextKeepsTrace(s, steps[0]);
      RunIsSafe(Next(s, steps[0]), steps[1..]);
    }
  }

  predicate IsAttempt(s: Sys, i: nat) {
    0 <= i < |s.trace| && s.trace[i].ClearAttempt?
  }

  /**
   * In every run, each clear that `remediation.execute` attempts is charged to an earlier approval
   * of a fault of that very asset, and no two attempts to the same approval.
   */
  lemma EveryClearWasApproved(init: Sys, steps: seq<Step>)
    requires Initial(init) && ValidRun(init, steps)
    ensures var s := After(init, steps);
      && Safe(s)
      && (forall i: nat :: IsAttempt(s, i) ==>
            && s.trace[i].executor < |s.executors|
            && ChargedTo(s, i) < i
            && s.trace[ChargedTo(s, i)].Approved?
            && s.trace[ChargedTo(s, i)].fault == s.trace[i].fault
            && s.trace[ChargedTo(s, i)].asset == s.trace[i].asset)
      && (forall i: nat, j: nat :: IsAttempt(s, i) && IsAttempt(s, j) && i != j ==> ChargedTo(s, i) != ChargedTo(s, j))
  {
    RunIsSafe(init, steps);
    var s := After(init, steps);
    forall i: nat | IsAttempt(s, i)
      ensures EntryRight(s, i) && Holds(s, s.executors[s.trace[i].executor])
      ensures DecisionTraced(s, s.owners[s.executors[s.trace[i].executor].token])
    {
      assert EntryRight(s, i);
      assert Holds(s, s.executors[s.trace[i].executor]);
    }
    forall i: nat, j: nat | IsAttempt(s, i) && IsAttempt(s, j) && i < j
      ensures ChargedTo(s, i) != ChargedTo(s, j)
    {
      AttemptsDiffer(s, i, j);
    }
  }

  lemma AttemptsDiffer(s: Sys, i: nat, j: nat)
    requires Safe(s) && IsAttempt(s, i) && IsAttempt(s, j) && i < j
    ensures s.trace[i].executor < |s.executors| && s.trace[j].executor < |s.executors|
    ensures ChargedTo(s, i) != ChargedTo(s, j)
  {
    assert EntryRight(s, i) && EntryRight(s, j);
    var x := s.executors[s.trace[i].executor];
    var y := s.executors[s.trace[j].executor];
    assert s.trace[..j][i] == s.trace[i];
    assert s.trace[i].executor != s.trace[j].executor;
    assert Holds(s, x) && Holds(s, y) && x.token != y.token;
    assert DecisionTraced(s, s.owners[x.token]) && DecisionTraced(s, s.owners[y.token]);
  }

  function Attempts(s: Sys): set<nat> {
    set i: nat | 0 <= i < |s.trace| && s.trace[i].ClearAttempt?
  }

  function Approvals(s: Sys): set<nat> {
    set i: nat | 0 <= i < |s.trace| && s.trace[i].Approved?
  }

  /** So clear attempts never outnumber approvals. */
  lemma AttemptsWithinApprovals(init: Sys, steps: seq<Step>)
    requires Initial(init) && ValidRun(init, steps)
    ensures |Attempts(After(init, steps))| <= |Approvals(After(init, steps))|
  {
    EveryClearWasApproved(init, steps);
    var s := After(init, steps);
    assert forall i: nat :: i in Attempts(s) <==> IsAttempt(s, i);
    var charge := map i | i in Attempts(s) :: ChargedTo(s, i);
    InjectionCount(Attempts(s), Approvals(s), charge);
  }

  /**
   * An executor marks its fault resolved only after the simulator confirmed clearing that fault's
   * asset, and its token is then spent wherever it is still stored (a reset may have dropped it).
   */
  lemma ResolvedOnlyAfterClear(init: Sys, steps: seq<Step>, i: nat)
    requires Initial(init) && ValidRun(init, steps)
    requires i < |After(init, steps).trace|
    requires After(init, steps).trace[i].StatusByExecutor? && After(init, steps).trace[i].status == Resolved
    ensures var s := After(init, steps);
      var e := s.trace[i].executor;
      && e < |s.executors|
      && KnownFault(s, s.executors[e].fault, s.executors[e].asset)
      && ClearConfirmed(e, s.executors[e].asset) in s.trace[..i]
      && (s.executors[e].token in s.tokens ==> s.tokens[s.executors[e].token].consumed)
  {
    RunIsSafe(init, steps);
    var s := After(init, steps);
    assert EntryRight(s, i);
    assert Spending(s, s.executors[s.trace[i].executor]) && ExecutorAgrees(s, s.executors[s.trace[i].executor]);
  }

  /**
   * Unless its call settled on a confirmed clear, an executor's token is unspent while stored, and
   * the executor has never written "resolved".
   */
  lemma RefusedClearLeavesToken(init: Sys, steps: seq<Step>, e: nat)
    requires Initial(init) && ValidRun(init, steps)
    requires e < |After(init, steps).executors| && After(init, steps).executors[e].call != Settled(true)
    ensures var s := After(init, steps);
      && (s.executors[e].token in s.tokens ==> !s.tokens[s.executors[e].token].consumed)
      && StatusByExecutor(e, Resolved) !in s.trace
  {
    RunIsSafe(init, steps);
    var s := After(init, steps);
    assert Spending(s, s.executors[e]);
    forall i | 0 <= i < |s.trace|
      ensures s.trace[i] != StatusByExecutor(e, Resolved)
    {
      assert EntryRight(s, i);
    }
  }

  /** What an executor's moves do to the store's faults and assets: nothing, but for its two status writes. */
  lemma ExecutorWrites(s: Sys, e: nat, move: ExecutorMove)
    requires IdsAgree(s) && e < |s.executors| && ExecutorEnabled(s, s.executors[e], move)
    ensures var x := s.executors[e];
      var t := Execute(s, e, move).store;
      && (!move.MarkResolved? ==> t.assets == s.store.assets)
      && (!move.MarkResolved? && !move.BeginRun? ==> t.faults == s.store.faults)
      && (move.BeginRun? ==> t.faults == if x.fault in s.store.faults
            then s.store.faults[x.fault := s.store.faults[x.fault].(status := Remediating)] else s.store.faults)
  {
    MoveParts(s, e, move);
  }

  ghost predicate SpentOrGone(s: Sys, token: string) {
    token in s.owners && (token in s.tokens ==> s.tokens[token].consumed)
  }

  lemma StaysSpent(s: Sys, step: Step, token: string)
    requires Enabled(s, step) && SpentOrGone(s, token)
    ensures SpentOrGone(Next(s, step), token)
  {
    match step
    case OfDecision(d, move) => DecisionFrame(s, d, move); SpentThroughDecision(s, d, move, token);
    case OfExecutor(e, move) => MoveFrame(s, e, move);
    case _ =>
  }

  lemma SpentThroughDecision(s: Sys, d: nat, move: DecisionMove, token: string)
    requires d < |s.decisions| && DecisionEnabled(s, s.decisions[d], move) && SpentOrGone(s, token)
    ensures SpentOrGone(Decide(s, d, move), token)
  {
  }

  /** A spent token never reads as unspent again, across resets and any further steps. */
  lemma {:induction false} SpentForever(s: Sys, steps: seq<Step>, token: string)
    requires ValidRun(s, steps) && SpentOrGone(s, token)
    ensures token in After(s, steps).tokens ==> After(s, steps).tokens[token].consumed
    decreases |steps|
  {
    if steps != [] {
      StaysSpent(s, steps[0], token);
      SpentForever(Next(s, steps[0]), steps[1..], token);
    }
  }
}
