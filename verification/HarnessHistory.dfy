/**
 * The plugin's variable holds nothing the log does not: what a tool call sends and answers is decided by the
 * entries before it. What follows for the diagnosis that reaches the Gateway.
 */
module HarnessHistory {
  import opened Basics
  import opened GatewayState
  import opened Harness
  import opened HarnessSafety

  // ---------------------------------------------------------------- what the flags stand for

  /** An acknowledged patch of this fault that carries a signature. */
  predicate CarriesSignature(e: Entry, f: string) {
    e.DiagnosisSent? && e.fault == f && e.signature.Some? && e.delivery.Acknowledged?
  }

  predicate IsOutcome(e: Entry, f: string) {
    e.KbRecorded? && e.fault == f
  }

  ghost predicate HasSignature(log: seq<Entry>, f: string) {
    exists e :: e in log && CarriesSignature(e, f)
  }

  ghost predicate HasOutcome(log: seq<Entry>, f: string) {
    exists e :: e in log && IsOutcome(e, f)
  }

  predicate HasProposal(log: seq<Entry>, f: string) {
    ProposeSent(f, ProposeOk) in log
  }

  /** One more entry. */
  lemma HasPush(log: seq<Entry>, e: Entry, f: string)
    ensures HasSignature(log + [e], f) <==> HasSignature(log, f) || CarriesSignature(e, f)
    ensures HasOutcome(log + [e], f) <==> HasOutcome(log, f) || IsOutcome(e, f)
    ensures HasProposal(log + [e], f) <==> HasProposal(log, f) || e == ProposeSent(f, ProposeOk)
  {
    assert forall x :: x in log + [e] <==> x in log || x == e;
    assert e in log + [e];
  }

  lemma {:induction false} TalliesMean(log: seq<Entry>, f: string)
    ensures Count(log, f).signatures > 0 <==> HasSignature(log, f)
    ensures Count(log, f).kbRecords > 0 <==> HasOutcome(log, f)
    ensures Count(log, f).proposals > 0 <==> HasProposal(log, f)
  {
    if log != [] {
      var front, e := log[..|log| - 1], log[|log| - 1];
      TalliesMean(front, f);
      assert log == front + [e];
      HasPush(front, e, f);
    }
  }

  /** Diagnosed and proposed are in the log; so is a recorded signature, and until the diagnosis the flag is exact. */
  ghost predicate FlagsAreTheLog(s: State) {
    s.current.Some? ==>
      var inv := s.current.value;
      && (inv.diagnosed <==> HasOutcome(s.log, inv.faultId))
      && (inv.proposed <==> HasProposal(s.log, inv.faultId))
      && (inv.signatureRecorded ==> HasSignature(s.log, inv.faultId))
      && (!inv.diagnosed ==> (inv.signatureRecorded <==> HasSignature(s.log, inv.faultId)))
  }

  lemma SoundFlags(s: State)
    requires Sound(s)
    ensures FlagsAreTheLog(s)
  {
    if s.current.Some? { TalliesMean(s.log, s.current.value.faultId); }
  }

  /** So it is over every sequence of tool calls, whatever fails. */
  lemma FlagsOverRuns(calls: seq<ToolCall>)
    requires CallRun(State(None, []), calls)
    ensures FlagsAreTheLog(AfterCalls(State(None, []), calls))
  {
    RunSound(State(None, []), calls);
    SoundFlags(AfterCalls(State(None, []), calls));
  }

  // ---------------------------------------------------------------- a harness without flags

  ghost function StageAfter(log: seq<Entry>, f: string): Stage {
    if HasProposal(log, f) then StageAwaitingDecision else if HasOutcome(log, f) then StageDiagnosed else StageNew
  }

  function LettingGo(log: seq<Entry>, seen: Lookup): seq<Entry> {
    if CurrentAt(log).Some? && IsTerminal(seen) then [Dropped(CurrentAt(log).value, seen)] else []
  }

  /** A new fault: registered, marked, and, if that was acknowledged, narrated in four lines and reported. */
  function NewFault(created: CreateAnswer, patch: Delivery): seq<Entry> {
    if !created.CreateOk? then []
    else
      var f := created.id;
      [Registered(f), StatusSent(f, patch)] + (if patch.Threw? then [] else Opening(f) + [Reported(f, StageNew)])
  }

  ghost function FetchSays(log: seq<Entry>, seen: Lookup, created: CreateAnswer, patch: Delivery): seq<Entry> {
    if CurrentAt(log).None? || IsTerminal(seen) then LettingGo(log, seen) + NewFault(created, patch)
    else
      var f := CurrentAt(log).value;
      (if HasProposal(log, f) then [ActivitySent(f)] else []) + [Reported(f, StageAfter(log, f))]
  }

  /** The signature goes out ahead of the search, unless an acknowledged patch carried one. */
  ghost function SignatureFirst(log: seq<Entry>, f: string, signature: string, patch: Delivery): seq<Entry> {
    if signature == "" || HasSignature(log, f) then []
    else [ActivitySent(f), DiagnosisSent(f, Some(signature), None, patch)]
  }

  /** The outcome is told, and patched together with a signature that has not arrived yet. */
  ghost function OutcomeSays(
    log: seq<Entry>, f: string, signature: string, kbId: Option<string>, patch: Delivery): seq<Entry>
  {
    var late := if signature != "" && !HasSignature(log, f) then Some(signature) else None;
    [ActivitySent(f), KbRecorded(f, signature, kbId)]
    + (if kbId.Some? || late.Some? then [DiagnosisSent(f, late, kbId, patch)] else [])
  }

  function Article(answer: KbAnswer): Option<string> {
    if answer.Matched? then Some(answer.kbId) else None
  }

  ghost function SearchSays(
    log: seq<Entry>, f: string, signature: string, first: Delivery, answer: KbAnswer, second: Delivery): seq<Entry>
  {
    if HasOutcome(log, f) then []
    else
      var early := SignatureFirst(log, f, signature, first) + [ActivitySent(f)];
      if answer.KbThrew? then early else early + OutcomeSays(log + early, f, signature, Article(answer), second)
  }

  /** What a call adds to the log, read off the log alone. */
  ghost function Says(log: seq<Entry>, call: ToolCall): seq<Entry> {
    var current := CurrentAt(log);
    match call
    case MonitorListEvents(seen) => LettingGo(log, seen)
    case MonitorGetAsset => []
    case MonitorListAssets => []
    case LogsGetBundle(bundle, seen, created, patch) =>
      if bundle.None? then [] else FetchSays(log, seen, created, patch)
    case KbSearch(signature, first, answer, second) =>
      if current.None? then [] else SearchSays(log, current.value, signature, first, answer, second)
    case NotifyPostActivity(_) => if current.None? then [] else [NotifySent(current.value)]
    case RemediationPropose(_, propose) =>
      if current.None? || HasProposal(log, current.value) then []
      else [ActivitySent(current.value), ProposeSent(current.value, propose)]
  }

  /** What it answers to the model. */
  ghost function Answers(log: seq<Entry>, call: ToolCall): ToolResult {
    var current := CurrentAt(log);
    match call
    case LogsGetBundle(bundle, seen, created, patch) =>
      if bundle.None? then PassedThrough
      else if current.Some? && !IsTerminal(seen) then Stamped(current.value, StageAfter(log, current.value))
      else if created.CreateOk? && patch.Acknowledged? then Stamped(created.id, StageNew)
      else Failed
    case KbSearch(_, _, answer, _) => if answer.KbThrew? then Failed else PassedThrough
    case NotifyPostActivity(_) => if current.None? then NoRegisteredFault else PassedThrough
    case RemediationPropose(_, propose) =>
      if current.None? then NoRegisteredFault
      else if HasProposal(log, current.value) then AlreadyProposed
      else if propose.ProposeThrew? then Failed else PassedThrough
    case _ => PassedThrough
  }

  lemma FetchFollows(s: State, bundle: Bundle, seen: Lookup, created: CreateAnswer, patch: Delivery)
    requires Sound(s)
    ensures AfterLogs(s, Some(bundle), seen, created, patch).0.log == s.log + FetchSays(s.log, seen, created, patch)
  {
    SoundFlags(s);
  }

  lemma SignatureFollows(s: State, signature: string, patch: Delivery)
    requires Sound(s) && s.current.Some? && !s.current.value.diagnosed
    ensures var t := AfterSignature(s, signature, patch);
      && t.log == s.log + SignatureFirst(s.log, s.current.value.faultId, signature, patch)
      && t.current.Some? && !t.current.value.diagnosed && t.current.value.faultId == s.current.value.faultId
  {
    SoundFlags(s);
  }

  lemma OutcomeFollows(s: State, signature: string, kbId: Option<string>, patch: Delivery)
    requires Sound(s) && s.current.Some? && !s.current.value.diagnosed
    ensures AfterKbResult(s, signature, kbId, patch).log
         == s.log + OutcomeSays(s.log, s.current.value.faultId, signature, kbId, patch)
  {
    SoundFlags(s);
  }

  lemma SearchFollows(s: State, call: ToolCall)
    requires Sound(s) && s.current.Some? && !s.current.value.diagnosed && call.KbSearch?
    ensures Call(s, call).0.log
         == s.log + SearchSays(s.log, s.current.value.faultId, call.signature, call.first, call.answer, call.second)
  {
    var f := s.current.value.faultId;
    SoundFlags(s);
    SignatureFollows(s, call.signature, call.first);
    SignatureSound(s, call.signature, call.first);
    var s1 := AfterSignature(s, call.signature, call.first);
    TellSound(s1);
    OutcomeFollows(Noted(s1, [ActivitySent(f)]), call.signature, Article(call.answer), call.second);
    Associates(s.log, SignatureFirst(s.log, f, call.signature, call.first), [ActivitySent(f)]);
  }

  /** The flags decide as the history does: what is sent, and what is answered. */
  lemma CallsFollowTheLog(s: State, call: ToolCall)
    requires Sound(s)
    ensures Call(s, call).0.log == s.log + Says(s.log, call)
    ensures Call(s, call).1 == Answers(s.log, call)
  {
    SoundFlags(s);
    match call
    case LogsGetBundle(bundle, seen, created, patch) =>
      if bundle.Some? { FetchFollows(s, bundle.value, seen, created, patch); }
    case KbSearch(_, _, _, _) =>
      if s.current.Some? && !s.current.value.diagnosed { SearchFollows(s, call); }
    case _ =>
  }

  ghost function LogAfter(log: seq<Entry>, calls: seq<ToolCall>): seq<Entry>
    decreases |calls|
  {
    if calls == [] then log else LogAfter(log + Says(log, calls[0]), calls[1..])
  }

  /** So a whole run of the plugin is a run of a harness that keeps no state but reads its history. */
  lemma {:induction false} RunFollowsTheLog(s: State, calls: seq<ToolCall>)
    requires Sound(s) && CallRun(s, calls)
    ensures AfterCalls(s, calls).log == LogAfter(s.log, calls)
    decreases |calls|
  {
    if calls != [] {
      CallsFollowTheLog(s, calls[0]);
      CallSound(s, calls[0]);
      RunFollowsTheLog(Call(s, calls[0]).0, calls[1..]);
    }
  }

  // ---------------------------------------------------------------- the diagnosis reaches the Gateway

  /** The entry after `i` is a patch of this fault with these fields. */
  predicate PatchFollows(log: seq<Entry>, i: nat, f: string, signature: Option<string>, kbId: Option<string>) {
    i + 1 < |log| && log[i + 1].DiagnosisSent? && log[i + 1].fault == f
    && log[i + 1].signature == signature && log[i + 1].kbId == kbId
  }

  /** A recorded outcome is followed by a patch with its article and a signature that never arrived, if either is there. */
  ghost predicate OutcomeReaches(log: seq<Entry>, i: nat)
    requires i < |log|
  {
    match log[i]
    case KbRecorded(f, searched, kbId) =>
      var late := if searched != "" && !HasSignature(log[..i], f) then Some(searched) else None;
      if kbId.Some? || late.Some? then PatchFollows(log, i, f, late, kbId)
      else i + 1 < |log| ==> !log[i + 1].DiagnosisSent?
    case _ => true
  }

  ghost predicate OutcomesReach(log: seq<Entry>) {
    forall i :: 0 <= i < |log| ==> OutcomeReaches(log, i)
  }

  lemma PlainEntriesReach(log: seq<Entry>, more: seq<Entry>)
    requires OutcomesReach(log) && forall i :: 0 <= i < |more| ==> !more[i].KbRecorded?
    requires more != [] ==> !more[0].DiagnosisSent?
    ensures OutcomesReach(log + more)
  {
    forall i | 0 <= i < |log + more|
      ensures OutcomeReaches(log + more, i)
    {
      if i < |log| {
        assert OutcomeReaches(log, i);
        assert (log + more)[..i] == log[..i];
      }
    }
  }

  lemma RecordReaches(log: seq<Entry>, kept: Entry, sent: seq<Entry>)
    requires OutcomesReach(log) && kept.KbRecorded?
    requires var late := if kept.searched != "" && !HasSignature(log, kept.fault) then Some(kept.searched) else None;
      if kept.kbId.Some? || late.Some?
      then exists d :: sent == [DiagnosisSent(kept.fault, late, kept.kbId, d)]
      else sent == []
    ensures OutcomesReach(log + [kept] + sent)
  {
    var all := log + [kept] + sent;
    forall i | 0 <= i < |all|
      ensures OutcomeReaches(all, i)
    {
      if i <= |log| {
        assert all[..i] == log[..i];
        if i < |log| { assert OutcomeReaches(log, i); } else { assert log[..i] == log; }
      }
    }
  }

  lemma OutcomeSaysReaches(log: seq<Entry>, f: string, signature: string, kbId: Option<string>, patch: Delivery)
    requires OutcomesReach(log)
    ensures OutcomesReach(log + OutcomeSays(log, f, signature, kbId, patch))
  {
    var told, kept := ActivitySent(f), KbRecorded(f, signature, kbId);
    var late := if signature != "" && !HasSignature(log, f) then Some(signature) else None;
    var sent := if kbId.Some? || late.Some? then [DiagnosisSent(f, late, kbId, patch)] else [];
    PlainEntriesReach(log, [told]);
    HasPush(log, told, f);
    RecordReaches(log + [told], kept, sent);
    assert log + ([told, kept] + sent) == log + [told] + [kept] + sent;
  }

  lemma SaysReaches(log: seq<Entry>, call: ToolCall)
    requires OutcomesReach(log)
    ensures OutcomesReach(log + Says(log, call))
  {
    match call
    case KbSearch(signature, first, answer, second) =>
      if CurrentAt(log).Some? && !HasOutcome(log, CurrentAt(log).value) {
        var f := CurrentAt(log).value;
        var early := SignatureFirst(log, f, signature, first) + [ActivitySent(f)];
        PlainEntriesReach(log, early);
        if !answer.KbThrew? {
          OutcomeSaysReaches(log + early, f, signature, Article(answer), second);
          Associates(log, early, OutcomeSays(log + early, f, signature, Article(answer), second));
        }
      } else {
        PlainEntriesReach(log, []);
      }
    case _ => PlainEntriesReach(log, Says(log, call));
  }

  lemma {:induction false} LogReaches(log: seq<Entry>, calls: seq<ToolCall>)
    requires OutcomesReach(log)
    ensures OutcomesReach(LogAfter(log, calls))
    decreases |calls|
  {
    if calls != [] {
      SaysReaches(log, calls[0]);
      LogReaches(log + Says(log, calls[0]), calls[1..]);
    }
  }

  lemma EmptySound()
    ensures Sound(State(None, []))
  {
  }

  /**
   * Over every sequence of tool calls: an outcome with an article is patched with it at once, and when the
   * search had a signature, an acknowledged patch carried one before or that patch carries this one.
   */
  lemma DiagnosisReaches(calls: seq<ToolCall>, i: nat)
    requires CallRun(State(None, []), calls)
    requires var log := AfterCalls(State(None, []), calls).log; i < |log| && log[i].KbRecorded?
    ensures var log := AfterCalls(State(None, []), calls).log;
      var f, searched, kbId := log[i].fault, log[i].searched, log[i].kbId;
      && (kbId.Some? ==> i + 1 < |log| && log[i + 1].DiagnosisSent? && log[i + 1].fault == f && log[i + 1].kbId == kbId)
      && (searched != "" ==>
            || HasSignature(log[..i], f)
            || (i + 1 < |log| && log[i + 1].DiagnosisSent? && log[i + 1].fault == f
                && log[i + 1].signature == Some(searched)))
  {
    var start := State(None, []);
    EmptySound();
    RunFollowsTheLog(start, calls);
    LogReaches([], calls);
    assert OutcomeReaches(AfterCalls(start, calls).log, i);
  }

  /** A fault becomes diagnosed only by a search, which records its own signature and the article it found. */
  lemma DiagnosedBySearch(s: State, call: ToolCall)
    requires Sound(s) && s.current.Some? && !s.current.value.diagnosed
    requires Call(s, call).0.current.Some? && Call(s, call).0.current.value.diagnosed
    ensures call.KbSearch?
    ensures KbRecorded(s.current.value.faultId, call.signature, Article(call.answer)) in Call(s, call).0.log[|s.log|..]
  {
    if call.KbSearch? {
      SearchFollows(s, call);
      SoundFlags(s);
      SearchRecords(s.log, s.current.value.faultId, call);
    }
  }

  lemma SearchRecords(log: seq<Entry>, f: string, call: ToolCall)
    requires call.KbSearch? && !call.answer.KbThrew? && !HasOutcome(log, f)
    ensures KbRecorded(f, call.signature, Article(call.answer))
         in SearchSays(log, f, call.signature, call.first, call.answer, call.second)
  {
    var kept := KbRecorded(f, call.signature, Article(call.answer));
    var early := SignatureFirst(log, f, call.signature, call.first) + [ActivitySent(f)];
    var outcome := OutcomeSays(log + early, f, call.signature, Article(call.answer), call.second);
    assert outcome[1] == kept;
    assert (early + outcome)[|early| + 1] == kept;
  }
}
