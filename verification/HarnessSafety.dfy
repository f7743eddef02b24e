/** What the harness keeps over every sequence of tool calls, and what follows at the Gateway. */
module HarnessSafety {
  import opened Basics
  import opened GatewayState
  import opened Harness

  // ---------------------------------------------------------------- reading the log

  /** The fault under investigation after these entries. */
  function CurrentAt(log: seq<Entry>): Option<string> {
    if log == [] then None
    else
      match log[|log| - 1]
      case Registered(f) => Some(f)
      case Dropped(_, _) => None
      case _ => CurrentAt(log[..|log| - 1])
  }

  function Rank(stage: Stage): nat {
    match stage
    case StageNew => 0
    case StageDiagnosed => 1
    case StageAwaitingDecision => 2
  }

  /** What the log holds about one fault; `ordered` says its reported stages never went back. */
  datatype Tally = Tally(signatures: nat, kbRecords: nat, proposals: nat, stage: nat, ordered: bool)

  function Bump(t: Tally, e: Entry, f: string): Tally {
    if e.fault != f then t
    else
      match e
      case DiagnosisSent(_, Some(_), _, Acknowledged) => t.(signatures := t.signatures + 1)
      case KbRecorded(_, _, _) => t.(kbRecords := t.kbRecords + 1)
      case ProposeSent(_, ProposeOk) => t.(proposals := t.proposals + 1)
      case Reported(_, stage) => t.(stage := Rank(stage), ordered := t.ordered && t.stage <= Rank(stage))
      case _ => t
  }

  function Count(log: seq<Entry>, f: string): Tally {
    if log == [] then Tally(0, 0, 0, 0, true) else Bump(Count(log[..|log| - 1], f), log[|log| - 1], f)
  }

  predicate AtMostOnce(t: Tally) {
    t.signatures <= 1 && t.kbRecords <= 1 && t.proposals <= 1 && t.ordered
  }

  function StageShown(t: Tally): Stage {
    if t.proposals > 0 then StageAwaitingDecision else if t.kbRecords > 0 then StageDiagnosed else StageNew
  }

  /**
   * A registration happens only with no fault current, a fault is dropped only on seeing it over, everything
   * else names the current fault, and the stage told to the model is the one the entries before it show.
   */
  ghost predicate EntryRight(log: seq<Entry>, i: nat)
    requires i < |log|
  {
    match log[i]
    case Registered(_) => CurrentAt(log[..i]).None?
    case Dropped(f, seen) => CurrentAt(log[..i]) == Some(f) && IsTerminal(seen)
    case Reported(f, stage) => CurrentAt(log[..i]) == Some(f) && stage == StageShown(Count(log[..i], f))
    case _ => CurrentAt(log[..i]) == Some(log[i].fault)
  }

  /** The flags of the current investigation claim what the log shows, no less and no more. */
  predicate Fits(t: Tally, inv: Investigation) {
    && AtMostOnce(t)
    && (inv.signatureRecorded ==> t.signatures == 1)
    && (!inv.diagnosed && t.signatures == 1 ==> inv.signatureRecorded)
    && (inv.diagnosed <==> t.kbRecords == 1)
    && (inv.proposed <==> t.proposals == 1)
    && t.stage <= Rank(StageOf(inv))
  }

  ghost predicate Sound(s: State) {
    && (forall i :: 0 <= i < |s.log| ==> EntryRight(s.log, i))
    && CurrentAt(s.log) == (if s.current.Some? then Some(s.current.value.faultId) else None)
    && (forall f :: AtMostOnce(Count(s.log, f)))
    && (s.current.Some? ==> Fits(Count(s.log, s.current.value.faultId), s.current.value))
  }

  // ---------------------------------------------------------------- one entry at a time

  lemma Push(log: seq<Entry>, e: Entry)
    ensures (log + [e])[..|log|] == log && (log + [e])[|log|] == e
    ensures forall f :: Count(log + [e], f) == Bump(Count(log, f), e, f)
    ensures forall i :: 0 <= i < |log| && EntryRight(log, i) ==> EntryRight(log + [e], i)
  {
    assert (log + [e])[..|log|] == log;
    forall i | 0 <= i < |log| && EntryRight(log, i)
      ensures EntryRight(log + [e], i)
    {
      assert (log + [e])[..i] == log[..i];
    }
  }

  /** An entry about the current fault keeps things sound if the new flags own up to it. */
  lemma SendSound(s: State, e: Entry, inv: Investigation)
    requires Sound(s) && s.current.Some? && !e.Registered? && !e.Dropped?
    requires e.fault == s.current.value.faultId == inv.faultId
    requires e.Reported? ==> e.stage == StageShown(Count(s.log, e.fault))
    requires Fits(Bump(Count(s.log, e.fault), e, e.fault), inv)
    ensures Sound(State(Some(inv), s.log + [e]))
  {
    Push(s.log, e);
    assert EntryRight(s.log + [e], |s.log|);
  }

  lemma TellSound(s: State)
    requires Sound(s) && s.current.Some?
    ensures Sound(Noted(s, [ActivitySent(s.current.value.faultId)]))
  {
    SendSound(s, ActivitySent(s.current.value.faultId), s.current.value);
  }

  lemma ReportSound(s: State)
    requires Sound(s) && s.current.Some?
    ensures Sound(Report(s).0)
  {
    SendSound(s, Reported(s.current.value.faultId, StageOf(s.current.value)), s.current.value);
  }

  lemma ClearSound(s: State, seen: Lookup)
    requires Sound(s)
    ensures Sound(ClearedStale(s, seen))
  {
    if s.current.Some? && IsTerminal(seen) {
      var e := Dropped(s.current.value.faultId, seen);
      Push(s.log, e);
      assert EntryRight(s.log + [e], |s.log|);
    }
  }

  /** Nothing in the log is about `f` yet: the Gateway's ids are fresh. */
  ghost predicate Unheard(log: seq<Entry>, f: string) {
    forall i :: 0 <= i < |log| ==> log[i].fault != f
  }

  lemma {:induction false} UnheardCountsNothing(log: seq<Entry>, f: string)
    requires Unheard(log, f)
    ensures Count(log, f) == Tally(0, 0, 0, 0, true)
  {
    if log != [] {
      UnheardCountsNothing(log[..|log| - 1], f);
    }
  }

  lemma RegisterSound(s: State, inv: Investigation)
    requires Sound(s) && s.current.None? && Unheard(s.log, inv.faultId)
    requires !inv.signatureRecorded && !inv.diagnosed && !inv.proposed
    ensures Sound(State(Some(inv), s.log + [Registered(inv.faultId)]))
  {
    UnheardCountsNothing(s.log, inv.faultId);
    Push(s.log, Registered(inv.faultId));
    assert EntryRight(s.log + [Registered(inv.faultId)], |s.log|);
  }

  lemma OpeningSound(s: State)
    requires Sound(s) && s.current.Some?
    ensures Sound(Noted(s, Opening(s.current.value.faultId)))
  {
    var f := s.current.value.faultId;
    var told := ActivitySent(f);
    TellSound(s);
    TellSound(Noted(s, [told]));
    assert s.log + [told] + [told] == s.log + [told, told];
    TellSound(Noted(s, [told, told]));
    assert s.log + [told, told] + [told] == s.log + [told, told, told];
    TellSound(Noted(s, [told, told, told]));
    assert s.log + [told, told, told] + [told] == s.log + Opening(f);
  }

  // ---------------------------------------------------------------- tool calls

  lemma NewInvestigationSound(s: State, inv: Investigation, patch: Delivery)
    requires Sound(s) && s.current.None? && Unheard(s.log, inv.faultId)
    requires !inv.signatureRecorded && !inv.diagnosed && !inv.proposed
    ensures Sound(State(Some(inv), s.log + [Registered(inv.faultId), StatusSent(inv.faultId, patch)]))
  {
    var f := inv.faultId;
    RegisterSound(s, inv);
    SendSound(State(Some(inv), s.log + [Registered(f)]), StatusSent(f, patch), inv);
    assert s.log + [Registered(f)] + [StatusSent(f, patch)] == s.log + [Registered(f), StatusSent(f, patch)];
  }

  lemma LogsSound(s: State, bundle: Option<Bundle>, seen: Lookup, created: CreateAnswer, patch: Delivery)
    requires Sound(s) && (created.CreateOk? ==> Unheard(s.log, created.id))
    ensures Sound(AfterLogs(s, bundle, seen, created, patch).0)
  {
    if bundle.Some? {
      ClearSound(s, seen);
      var s1 := ClearedStale(s, seen);
      if s1.current.Some? {
        TellSound(s1);
        ReportSound(if s1.current.value.proposed then Noted(s1, [ActivitySent(s1.current.value.faultId)]) else s1);
      } else if created.CreateOk? {
        var f := created.id;
        if s.current.Some? { CurrentIsHeard(s); }
        var inv := Investigation(f, bundle.value.scenarioId, bundle.value.assetId, false, false, false);
        NewInvestigationSound(s1, inv, patch);
        var s2 := State(Some(inv), s1.log + [Registered(f), StatusSent(f, patch)]);
        OpeningSound(s2);
        ReportSound(Noted(s2, Opening(f)));
      }
    }
  }

  /** The current fault is in the log, so a fresh id differs from it. */
  lemma CurrentIsHeard(s: State)
    requires Sound(s) && s.current.Some?
    ensures !Unheard(s.log, s.current.value.faultId)
  {
    HeardInLog(s.log);
  }

  lemma {:induction false} HeardInLog(log: seq<Entry>)
    ensures CurrentAt(log).Some? ==> !Unheard(log, CurrentAt(log).value)
  {
    if log != [] {
      HeardInLog(log[..|log| - 1]);
      assert forall f :: Unheard(log, f) ==> Unheard(log[..|log| - 1], f);
    }
  }

  lemma SignatureSound(s: State, signature: string, patch: Delivery)
    requires Sound(s)
    ensures Sound(AfterSignature(s, signature, patch))
  {
    if s.current.Some? && !s.current.value.diagnosed && !s.current.value.signatureRecorded && signature != "" {
      var inv := s.current.value;
      var told := ActivitySent(inv.faultId);
      var sent := DiagnosisSent(inv.faultId, Some(signature), None, patch);
      TellSound(s);
      Push(s.log, told);
      SendSound(Noted(s, [told]), sent, inv.(signatureRecorded := patch.Acknowledged?));
      assert s.log + [told] + [sent] == s.log + [told, sent];
    }
  }

  /** The search outcome is narrated and recorded; that settles the diagnosis and adds no signature yet. */
  lemma KbRecordedSound(s: State, kept: Entry)
    requires Sound(s) && s.current.Some? && !s.current.value.diagnosed
    requires kept.KbRecorded? && kept.fault == s.current.value.faultId
    ensures var inv := s.current.value;
      var t := State(Some(inv.(diagnosed := true)), s.log + [ActivitySent(inv.faultId), kept]);
      Sound(t) && Count(t.log, inv.faultId).signatures == Count(s.log, inv.faultId).signatures
  {
    var inv := s.current.value;
    var told := ActivitySent(inv.faultId);
    TellSound(s);
    Push(s.log, told);
    SendSound(Noted(s, [told]), kept, inv.(diagnosed := true));
    assert s.log + [told] + [kept] == s.log + [told, kept];
    Push(s.log + [told], kept);
  }

  /** One patch after the outcome; it may carry a signature if none was acknowledged before. */
  lemma KbPatchSound(t: State, sent: Entry)
    requires Sound(t) && t.current.Some? && t.current.value.diagnosed
    requires sent.DiagnosisSent? && sent.fault == t.current.value.faultId
    requires sent.signature.Some? ==> Count(t.log, sent.fault).signatures == 0
    ensures Sound(Noted(t, [sent]))
  {
    SendSound(t, sent, t.current.value);
  }

  lemma KbSound(s: State, signature: string, kbId: Option<string>, patch: Delivery)
    requires Sound(s)
    ensures Sound(AfterKbResult(s, signature, kbId, patch))
  {
    if s.current.Some? && !s.current.value.diagnosed {
      var inv := s.current.value;
      var kept := KbRecorded(inv.faultId, signature, kbId);
      var noted := [ActivitySent(inv.faultId), kept];
      var sig := if signature != "" && !inv.signatureRecorded then Some(signature) else None;
      var sent := DiagnosisSent(inv.faultId, sig, kbId, patch);
      KbRecordedSound(s, kept);
      if kbId.Some? || sig.Some? {
        KbPatchSound(State(Some(inv.(diagnosed := true)), s.log + noted), sent);
        Associates(s.log, noted, [sent]);
      } else {
        assert noted + [] == noted;
      }
    }
  }

  lemma ProposeSound(s: State, propose: ProposeAnswer)
    requires Sound(s) && s.current.Some? && !s.current.value.proposed
    ensures var f := s.current.value.faultId;
      Sound(State(Some(s.current.value.(proposed := propose.ProposeOk?)), s.log + [ActivitySent(f), ProposeSent(f, propose)]))
  {
    var inv := s.current.value;
    var told, sent := ActivitySent(inv.faultId), ProposeSent(inv.faultId, propose);
    TellSound(s);
    Push(s.log, told);
    SendSound(Noted(s, [told]), sent, inv.(proposed := propose.ProposeOk?));
    assert s.log + [told] + [sent] == s.log + [told, sent];
  }

  ghost predicate CallFits(s: State, call: ToolCall) {
    call.LogsGetBundle? && call.created.CreateOk? ==> Unheard(s.log, call.created.id)
  }

  lemma CallSound(s: State, call: ToolCall)
    requires Sound(s) && CallFits(s, call)
    ensures Sound(Call(s, call).0)
  {
    match call
    case MonitorListEvents(seen) => ClearSound(s, seen);
    case MonitorGetAsset =>
    case MonitorListAssets =>
    case LogsGetBundle(bundle, seen, created, patch) => LogsSound(s, bundle, seen, created, patch);
    case KbSearch(signature, first, answer, second) =>
      SignatureSound(s, signature, first);
      var s1 := AfterSignature(s, signature, first);
      if s1.current.Some? { TellSound(s1); }
      var s2 := if s1.current.Some? && !s1.current.value.diagnosed
                then Noted(s1, [ActivitySent(s1.current.value.faultId)]) else s1;
      KbSound(s2, signature, if answer.Matched? then Some(answer.kbId) else None, second);
    case NotifyPostActivity(_) =>
      if s.current.Some? { SendSound(s, NotifySent(s.current.value.faultId), s.current.value); }
    case RemediationPropose(_, propose) =>
      if s.current.Some? && !s.current.value.proposed { ProposeSound(s, propose); }
  }

  // ---------------------------------------------------------------- every sequence of calls

  ghost predicate CallRun(s: State, calls: seq<ToolCall>)
    decreases |calls|
  {
    calls != [] ==> CallFits(s, calls[0]) && CallRun(Call(s, calls[0]).0, calls[1..])
  }

  ghost function AfterCalls(s: State, calls: seq<ToolCall>): State
    requires CallRun(s, calls)
    decreases |calls|
  {
    if calls == [] then s else AfterCalls(Call(s, calls[0]).0, calls[1..])
  }

  lemma {:induction false} RunSound(s: State, calls: seq<ToolCall>)
    requires Sound(s) && CallRun(s, calls)
    ensures Sound(AfterCalls(s, calls))
    decreases |calls|
  {
    if calls != [] {
      CallSound(s, calls[0]);
      RunSound(Call(s, calls[0]).0, calls[1..]);
    }
  }

  /**
   * Over every sequence of tool calls: a fault is registered only when none is current, a current
   * fault is let go only after the Gateway showed it resolved, denied or missing, and everything
   * sent names the fault that is current, whatever id the model supplied.
   */
  lemma OneFaultAtATime(calls: seq<ToolCall>)
    requires CallRun(State(None, []), calls)
    ensures var s := AfterCalls(State(None, []), calls);
      && (forall i :: 0 <= i < |s.log| ==> EntryRight(s.log, i))
      && CurrentAt(s.log) == (if s.current.Some? then Some(s.current.value.faultId) else None)
  {
    RunSound(State(None, []), calls);
  }

  predicate ReportsOn(e: Entry, f: string) {
    e.Reported? && e.fault == f
  }

  lemma {:induction false} StagesOrdered(log: seq<Entry>, f: string)
    requires Count(log, f).ordered
    ensures forall i :: 0 <= i < |log| && ReportsOn(log[i], f)
              ==> Rank(log[i].stage) <= Count(log, f).stage
    ensures forall i, j :: 0 <= i < j < |log| && ReportsOn(log[i], f) && ReportsOn(log[j], f)
              ==> Rank(log[i].stage) <= Rank(log[j].stage)
  {
    if log != [] {
      var front := log[..|log| - 1];
      StagesOrdered(front, f);
      assert forall i :: 0 <= i < |front| ==> front[i] == log[i];
    }
  }

  /**
   * For each fault, over any repeats of log fetch, search and propose with any failures: at most one
   * acknowledged patch carries a signature, the knowledge-base outcome is recorded at most once, at
   * most one proposal succeeds, and the stages reported to the model never go back.
   */
  lemma IdempotentPerInvestigation(calls: seq<ToolCall>, f: string)
    requires CallRun(State(None, []), calls)
    ensures var log := AfterCalls(State(None, []), calls).log;
      && Count(log, f).signatures <= 1
      && Count(log, f).kbRecords <= 1
      && Count(log, f).proposals <= 1
      && forall i, j :: 0 <= i < j < |log| && ReportsOn(log[i], f) && ReportsOn(log[j], f)
           ==> Rank(log[i].stage) <= Rank(log[j].stage)
  {
    RunSound(State(None, []), calls);
    StagesOrdered(AfterCalls(State(None, []), calls).log, f);
  }

  // ---------------------------------------------------------------- open faults at the Gateway

  type Gateway = map<string, Status>

  predicate IsOpen(gateway: Gateway, f: string) {
    f in gateway && gateway[f] != Resolved && gateway[f] != Denied
  }

  /**
   * The harness, the Gateway's faults, and the ids of all faults the harness ever created there, the
   * answered creations and the others. Between calls the Gateway moves on its own.
   */
  datatype World = World(state: State, gateway: Gateway, created: set<string>)

  /** `between` is what the Gateway became between the lookup and the registration. */
  datatype WorldStep = ToolStep(call: ToolCall, between: Gateway) | GatewayMoves(next: Gateway)

  predicate Tracks(s: State, f: string) {
    s.current.Some? && s.current.value.faultId == f
  }

  /** Of the faults the harness created, only the one it tracks may be open. */
  ghost predicate OnlyTrackedOpen(s: State, gateway: Gateway, created: set<string>) {
    forall f :: f in created && IsOpen(gateway, f) ==> Tracks(s, f)
  }

  /** Created faults the harness no longer tracks, once over, stay over. */
  ghost predicate StayOver(s: State, created: set<string>, before: Gateway, next: Gateway) {
    forall f :: f in created && !Tracks(s, f) && !IsOpen(before, f) ==> !IsOpen(next, f)
  }

  /** The two tools that ask after the current fault, and may let go of it. */
  predicate LooksUp(call: ToolCall) {
    call.MonitorListEvents? || (call.LogsGetBundle? && call.bundle.Some?)
  }

  function AfterLookup(s: State, call: ToolCall): State {
    if LooksUp(call) then ClearedStale(s, call.seen) else s
  }

  /** The id of the fault that this call makes the Gateway create, whether or not the harness hears of it. */
  function Creates(s: State, call: ToolCall): Option<string> {
    if call.LogsGetBundle? && call.bundle.Some? && AfterLookup(s, call).current.None? && !call.created.CreateFailed?
    then Some(call.created.id) else None
  }

  /** The harness's words and the Gateway's ids fit together. */
  ghost predicate Matched(w: World) {
    && Sound(w.state)
    && (w.state.current.Some? ==> w.state.current.value.faultId in w.created)
    && forall i :: 0 <= i < |w.state.log| ==> w.state.log[i].fault in w.created
  }

  /** Fresh ids, and nothing but the tracked fault reopens; lookups may answer anything. */
  ghost predicate StepFits(w: World, step: WorldStep) {
    match step
    case GatewayMoves(next) => StayOver(w.state, w.created, w.gateway, next)
    case ToolStep(call, between) =>
      && (call.LogsGetBundle? && !call.created.CreateFailed? ==> call.created.id !in w.created)
      && (call.LogsGetBundle? ==> StayOver(AfterLookup(w.state, call), w.created, w.gateway, between))
  }

  ghost function WorldNext(w: World, step: WorldStep): World {
    match step
    case GatewayMoves(next) => w.(gateway := next)
    case ToolStep(call, between) =>
      var t := Call(w.state, call).0;
      var made := Creates(w.state, call);
      if made.Some? then World(t, between[made.value := Detected], w.created + {made.value})
      else w.(state := t, gateway := if call.LogsGetBundle? then between else w.gateway)
  }

  ghost predicate WorldRun(w: World, steps: seq<WorldStep>)
    decreases |steps|
  {
    steps != [] ==> StepFits(w, steps[0]) && WorldRun(WorldNext(w, steps[0]), steps[1..])
  }

  ghost function WorldAfter(w: World, steps: seq<WorldStep>): World
    requires WorldRun(w, steps)
    decreases |steps|
  {
    if steps == [] then w else WorldAfter(WorldNext(w, steps[0]), steps[1..])
  }

  // ---------------------------------------------------------------- what a call does to tracking

  lemma CallsTrack(s: State, call: ToolCall)
    ensures var t := Call(s, call).0;
      var made := Creates(s, call);
      (if made.Some? && call.created.CreateOk? then t.current.Some? && t.current.value.faultId == made.value
       else forall f :: Tracks(t, f) <==> Tracks(AfterLookup(s, call), f))
  {
  }

  /** What a call adds to the log names the fault it found current or the one it created. */
  lemma CallsName(s: State, call: ToolCall, e: Entry)
    requires e in Call(s, call).0.log && e !in s.log
    ensures Tracks(s, e.fault) || Creates(s, call) == Some(e.fault)
  {
    match call
    case MonitorListEvents(_) =>
    case MonitorGetAsset =>
    case MonitorListAssets =>
    case LogsGetBundle(bundle, seen, created, patch) => FetchNames(s, bundle, seen, created, patch, e);
    case KbSearch(signature, first, answer, second) =>
      if e in AfterSignature(s, signature, first).log { SignatureNames(s, signature, first, e); }
    case NotifyPostActivity(_) =>
    case RemediationPropose(_, _) =>
  }

  lemma SignatureNames(s: State, signature: string, patch: Delivery, e: Entry)
    requires e in AfterSignature(s, signature, patch).log && e !in s.log
    ensures Tracks(s, e.fault)
  {
  }

  lemma FetchNames(
    s: State, bundle: Option<Bundle>, seen: Lookup, created: CreateAnswer, patch: Delivery, e: Entry)
    requires e in AfterLogs(s, bundle, seen, created, patch).0.log && e !in s.log
    ensures Tracks(s, e.fault) || Creates(s, LogsGetBundle(bundle, seen, created, patch)) == Some(e.fault)
  {
    var s1 := ClearedStale(s, seen);
    if e !in s1.log && s1.current.None? && created.CreateOk? {
      assert forall x :: x in Opening(created.id) ==> x.fault == created.id;
    }
  }

  lemma StepKeepsMatched(w: World, step: WorldStep)
    requires Matched(w) && StepFits(w, step)
    ensures Matched(WorldNext(w, step))
  {
    match step
    case GatewayMoves(_) =>
    case ToolStep(call, between) =>
      var v := WorldNext(w, step);
      assert CallFits(w.state, call);
      CallSound(w.state, call);
      CallsTrack(w.state, call);
      forall i | 0 <= i < |v.state.log|
        ensures v.state.log[i].fault in v.created
      {
        var e := v.state.log[i];
        if e !in w.state.log { CallsName(w.state, call, e); }
      }
  }

  // ---------------------------------------------------------------- exactly when one fault is open

  /** The lookup lets go of a fault that is still open. */
  ghost predicate DropsOpen(w: World, call: ToolCall) {
    LooksUp(call) && w.state.current.Some? && IsTerminal(call.seen) && IsOpen(w.gateway, w.state.current.value.faultId)
  }

  /** The call creates a fault and does not hear of it. */
  predicate LosesCreation(s: State, call: ToolCall) {
    Creates(s, call).Some? && call.created.CreateLost?
  }

  ghost predicate StepRight(w: World, step: WorldStep) {
    step.ToolStep? ==> !DropsOpen(w, step.call) && !LosesCreation(w.state, step.call)
  }

  /** Only the tracked fault is open right after the call's lookup. */
  ghost predicate RightAfterLookup(w: World, step: WorldStep) {
    step.ToolStep? ==> OnlyTrackedOpen(AfterLookup(w.state, step.call), w.gateway, w.created)
  }

  /** Letting go of a fault, in either tool, is right exactly when that fault is over. */
  lemma LettingGoIsRight(w: World, call: ToolCall)
    requires Matched(w) && OnlyTrackedOpen(w.state, w.gateway, w.created)
    ensures OnlyTrackedOpen(AfterLookup(w.state, call), w.gateway, w.created) <==> !DropsOpen(w, call)
  {
    if DropsOpen(w, call) {
      var f := w.state.current.value.faultId;
      assert f in w.created && IsOpen(w.gateway, f) && !Tracks(AfterLookup(w.state, call), f);
    }
  }

  lemma RightStepStaysRight(w: World, step: WorldStep)
    requires Matched(w) && OnlyTrackedOpen(w.state, w.gateway, w.created) && StepFits(w, step)
    requires RightAfterLookup(w, step) && StepRight(w, step)
    ensures var v := WorldNext(w, step); OnlyTrackedOpen(v.state, v.gateway, v.created)
  {
    match step
    case GatewayMoves(_) =>
    case ToolStep(call, between) =>
      CallsTrack(w.state, call);
      var v := WorldNext(w, step);
      forall f | f in v.created && IsOpen(v.gateway, f)
        ensures Tracks(v.state, f)
      {
        if Creates(w.state, call) != Some(f) {
          assert f in w.created;
        }
      }
  }

  /** A creation nobody hears of leaves an open fault untracked. */
  lemma LostCreationIsOpen(w: World, call: ToolCall, between: Gateway)
    requires LosesCreation(w.state, call)
    ensures var v := WorldNext(w, ToolStep(call, between)); !OnlyTrackedOpen(v.state, v.gateway, v.created)
  {
    var v := WorldNext(w, ToolStep(call, between));
    var f := call.created.id;
    assert f in v.created && IsOpen(v.gateway, f) && !Tracks(v.state, f);
  }

  /** One step keeps only the tracked fault open, throughout, exactly when it is right. */
  lemma StepRightExactly(w: World, step: WorldStep)
    requires Matched(w) && OnlyTrackedOpen(w.state, w.gateway, w.created) && StepFits(w, step)
    ensures var v := WorldNext(w, step);
      RightAfterLookup(w, step) && OnlyTrackedOpen(v.state, v.gateway, v.created) <==> StepRight(w, step)
  {
    if step.ToolStep? {
      LettingGoIsRight(w, step.call);
      if LosesCreation(w.state, step.call) { LostCreationIsOpen(w, step.call, step.between); }
    }
    if RightAfterLookup(w, step) && StepRight(w, step) { RightStepStaysRight(w, step); }
  }

  /** At every point of the run, the ones inside a call included, only the tracked fault is open. */
  ghost predicate OnlyTrackedThroughout(w: World, steps: seq<WorldStep>)
    requires WorldRun(w, steps)
    decreases |steps|
  {
    && OnlyTrackedOpen(w.state, w.gateway, w.created)
    && (steps != [] ==> RightAfterLookup(w, steps[0]) && OnlyTrackedThroughout(WorldNext(w, steps[0]), steps[1..]))
  }

  /** No open fault is let go of, and no creation goes unheard. */
  ghost predicate AllRight(w: World, steps: seq<WorldStep>)
    requires WorldRun(w, steps)
    decreases |steps|
  {
    steps != [] ==> StepRight(w, steps[0]) && AllRight(WorldNext(w, steps[0]), steps[1..])
  }

  /**
   * Over every run, whatever the lookups answer: of the faults the harness created only the tracked one
   * is ever open, exactly when every fault it let go of was over at that moment and every creation that
   * took effect was answered.
   */
  lemma {:induction false} OnlyTrackedExactly(w: World, steps: seq<WorldStep>)
    requires Matched(w) && OnlyTrackedOpen(w.state, w.gateway, w.created) && WorldRun(w, steps)
    ensures OnlyTrackedThroughout(w, steps) <==> AllRight(w, steps)
    decreases |steps|
  {
    if steps != [] {
      StepRightExactly(w, steps[0]);
      StepKeepsMatched(w, steps[0]);
      var v := WorldNext(w, steps[0]);
      if OnlyTrackedOpen(v.state, v.gateway, v.created) {
        OnlyTrackedExactly(v, steps[1..]);
      }
    }
  }

  /** In such a run at most one fault the harness created is open, and it is the one under investigation. */
  lemma {:induction false} AtMostOneOpen(w: World, steps: seq<WorldStep>)
    requires Matched(w) && OnlyTrackedOpen(w.state, w.gateway, w.created) && WorldRun(w, steps) && AllRight(w, steps)
    ensures var v := WorldAfter(w, steps);
      && OnlyTrackedOpen(v.state, v.gateway, v.created)
      && forall f, g :: f in v.created && g in v.created && IsOpen(v.gateway, f) && IsOpen(v.gateway, g) ==> f == g
    decreases |steps|
  {
    if steps != [] {
      StepRightExactly(w, steps[0]);
      StepKeepsMatched(w, steps[0]);
      AtMostOneOpen(WorldNext(w, steps[0]), steps[1..]);
    }
  }

  /** A lookup that tells the truth: in particular "not ok" means there is no such fault. */
  predicate Truthful(gateway: Gateway, f: string, seen: Lookup) {
    match seen
    case NoAnswer => true
    case NotOk => f !in gateway
    case Found(status) => f in gateway && gateway[f] == status
  }

  /** After a truthful lookup nothing open is let go of, and after an answered one only what is open is kept. */
  lemma TruthfulIsRight(w: World, call: ToolCall)
    requires LooksUp(call) && w.state.current.Some?
    requires Truthful(w.gateway, w.state.current.value.faultId, call.seen)
    ensures !DropsOpen(w, call)
    ensures var f := w.state.current.value.faultId;
      Tracks(AfterLookup(w.state, call), f) <==> call.seen.NoAnswer? || IsOpen(w.gateway, f)
  {
  }

  // ---------------------------------------------------------------- what goes wrong otherwise

  const FRESH := World(State(None, []), map[], {})

  function Fetch(bundle: Bundle, seen: Lookup, created: CreateAnswer): ToolCall {
    LogsGetBundle(Some(bundle), seen, created, Acknowledged)
  }

  ghost function Stepped(w: World, call: ToolCall): World {
    WorldNext(w, ToolStep(call, w.gateway))
  }

  ghost predicate TwoOpen(w: World) {
    "a" in w.created && "b" in w.created && IsOpen(w.gateway, "a") && IsOpen(w.gateway, "b")
  }

  /** A server error on an open fault, seen by the log fetch: a second fault is registered at once. */
  lemma ServerErrorReadAsMissing(bundle: Bundle)
    ensures var w1 := Stepped(FRESH, Fetch(bundle, NoAnswer, CreateOk("a")));
      var again := Fetch(bundle, NotOk, CreateOk("b"));
      DropsOpen(w1, again) && TwoOpen(Stepped(w1, again))
  {
    var w1 := Stepped(FRESH, Fetch(bundle, NoAnswer, CreateOk("a")));
    assert Tracks(w1.state, "a") && w1.created == {"a"} && w1.gateway == map["a" := Detected];
  }

  /** The same error seen on an ordinary wake-up: the fault is let go of, the next fetch registers another. */
  lemma ServerErrorOnWakeUp(bundle: Bundle)
    ensures var w1 := Stepped(FRESH, Fetch(bundle, NoAnswer, CreateOk("a")));
      var w2 := Stepped(w1, MonitorListEvents(NotOk));
      DropsOpen(w1, MonitorListEvents(NotOk)) && TwoOpen(Stepped(w2, Fetch(bundle, NoAnswer, CreateOk("b"))))
  {
    var w1 := Stepped(FRESH, Fetch(bundle, NoAnswer, CreateOk("a")));
    assert Tracks(w1.state, "a") && w1.created == {"a"} && w1.gateway == map["a" := Detected];
    var w2 := Stepped(w1, MonitorListEvents(NotOk));
    assert w2.state.current.None? && w2.created == {"a"} && w2.gateway == map["a" := Detected];
  }

  /** A creation whose answer is lost, and the next fetch: the first fault is open and nobody tracks it. */
  lemma LostCreationOpensTwo(bundle: Bundle)
    ensures var w1 := Stepped(FRESH, Fetch(bundle, NoAnswer, CreateLost("a")));
      LosesCreation(FRESH.state, Fetch(bundle, NoAnswer, CreateLost("a")))
      && TwoOpen(Stepped(w1, Fetch(bundle, NoAnswer, CreateOk("b"))))
  {
    var w1 := Stepped(FRESH, Fetch(bundle, NoAnswer, CreateLost("a")));
    assert w1.state.current.None? && w1.created == {"a"} && w1.gateway == map["a" := Detected];
  }
}
