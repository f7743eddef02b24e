/**
 * The plugin's harness around the agent's tool calls: one investigation at a time, pinned to one
 * fault, idempotent over repeated wake-ups.
 *
 * Every remote call is given the answer it gets. `log` keeps what was sent and observed, in order.
 */
module Harness {
  import opened Basics
  import opened GatewayState

  datatype Investigation = Investigation(
    faultId: string,
    scenarioId: string,
    assetId: string,
    signatureRecorded: bool,
    diagnosed: bool,
    proposed: bool)

  /** What asking the Gateway for a fault came to. */
  datatype Lookup = NoAnswer | NotOk | Found(status: Status)

  /** How registering a fault ended: not at all, answered, or done with its answer lost. */
  datatype CreateAnswer = CreateFailed | CreateOk(id: string) | CreateLost(id: string)

  datatype Delivery = Acknowledged | Threw

  datatype Bundle = Bundle(scenarioId: string, assetId: string)

  /** How `remediation.propose` ended: the call threw, or returned an error result, or anything else. */
  datatype ProposeAnswer = ProposeThrew | ProposeError | ProposeOk

  /** The search answer: the call threw, found no article, or found one. */
  datatype KbAnswer = KbThrew | NoArticle | Matched(kbId: string)

  datatype Stage = StageNew | StageDiagnosed | StageAwaitingDecision

  datatype Entry =
    | Registered(fault: string)
    | Dropped(fault: string, seen: Lookup)
    | StatusSent(fault: string, delivery: Delivery)
    | ActivitySent(fault: string)
    | DiagnosisSent(fault: string, signature: Option<string>, kbId: Option<string>, delivery: Delivery)
    | KbRecorded(fault: string, searched: string, kbId: Option<string>)
    | NotifySent(fault: string)
    | ProposeSent(fault: string, answer: ProposeAnswer)
    | Reported(fault: string, stage: Stage)

  datatype State = State(current: Option<Investigation>, log: seq<Entry>)

  datatype ToolResult = Failed | PassedThrough | NoRegisteredFault | AlreadyProposed | Stamped(fault: string, stage: Stage)

  function IsTerminal(seen: Lookup): bool {
    match seen
    case NoAnswer => false
    case NotOk => true
    case Found(status) => status == Resolved || status == Denied
  }

  function StageOf(inv: Investigation): Stage {
    if inv.proposed then StageAwaitingDecision else if inv.diagnosed then StageDiagnosed else StageNew
  }

  function Noted(s: State, entries: seq<Entry>): State {
    s.(log := s.log + entries)
  }

  // ---------------------------------------------------------------- harness calls, on values

  function ClearedStale(s: State, seen: Lookup): State {
    if s.current.Some? && IsTerminal(seen)
    then State(None, s.log + [Dropped(s.current.value.faultId, seen)])
    else s
  }

  /** The four lines that narrate a new investigation. */
  function Opening(fault: string): seq<Entry> {
    [ActivitySent(fault), ActivitySent(fault), ActivitySent(fault), ActivitySent(fault)]
  }

  function Report(s: State): (State, ToolResult)
    requires s.current.Some?
  {
    var inv := s.current.value;
    (Noted(s, [Reported(inv.faultId, StageOf(inv))]), Stamped(inv.faultId, StageOf(inv)))
  }

  function AfterLogs(s: State, bundle: Option<Bundle>, seen: Lookup, created: CreateAnswer, patch: Delivery)
    : (State, ToolResult)
  {
    if bundle.None? then (s, PassedThrough)
    else
      var s1 := ClearedStale(s, seen);
      if s1.current.Some? then
        Report(if s1.current.value.proposed then Noted(s1, [ActivitySent(s1.current.value.faultId)]) else s1)
      else if !created.CreateOk? then (s1, Failed)
      else
        var f := created.id;
        var inv := Investigation(f, bundle.value.scenarioId, bundle.value.assetId, false, false, false);
        var s2 := State(Some(inv), s1.log + [Registered(f), StatusSent(f, patch)]);
        if patch.Threw? then (s2, Failed) else Report(Noted(s2, Opening(f)))
  }

  function AfterSignature(s: State, signature: string, patch: Delivery): State {
    if s.current.None? || s.current.value.diagnosed || s.current.value.signatureRecorded || signature == "" then s
    else
      var inv := s.current.value;
      State(
        Some(inv.(signatureRecorded := patch.Acknowledged?)),
        s.log + [ActivitySent(inv.faultId), DiagnosisSent(inv.faultId, Some(signature), None, patch)])
  }

  function AfterKbResult(s: State, signature: string, kbId: Option<string>, patch: Delivery): State {
    if s.current.None? || s.current.value.diagnosed then s
    else
      var inv := s.current.value;
      var sig := if signature != "" && !inv.signatureRecorded then Some(signature) else None;
      var sent := if kbId.Some? || sig.Some? then [DiagnosisSent(inv.faultId, sig, kbId, patch)] else [];
      var noted := [ActivitySent(inv.faultId), KbRecorded(inv.faultId, signature, kbId)];
      State(Some(inv.(diagnosed := true)), s.log + (noted + sent))
  }

  // ---------------------------------------------------------------- tool calls, on values

  datatype ToolCall =
    | MonitorListEvents(seen: Lookup)
    | MonitorGetAsset
    | MonitorListAssets
    | LogsGetBundle(bundle: Option<Bundle>, seen: Lookup, created: CreateAnswer, patch: Delivery)
    | KbSearch(signature: string, first: Delivery, answer: KbAnswer, second: Delivery)
    | NotifyPostActivity(modelFaultId: string)
    | RemediationPropose(modelFaultId: string, propose: ProposeAnswer)

  function Call(s: State, call: ToolCall): (State, ToolResult) {
    match call
    case MonitorListEvents(seen) => (ClearedStale(s, seen), PassedThrough)
    case MonitorGetAsset => (s, PassedThrough)
    case MonitorListAssets => (s, PassedThrough)
    case LogsGetBundle(bundle, seen, created, patch) => AfterLogs(s, bundle, seen, created, patch)
    case KbSearch(signature, first, answer, second) =>
      var s1 := AfterSignature(s, signature, first);
      var s2 :=
        if s1.current.Some? && !s1.current.value.diagnosed
        then Noted(s1, [ActivitySent(s1.current.value.faultId)]) else s1;
      if answer.KbThrew? then (s2, Failed)
      else (AfterKbResult(s2, signature, if answer.Matched? then Some(answer.kbId) else None, second), PassedThrough)
    case NotifyPostActivity(_) =>
      if s.current.None? then (s, NoRegisteredFault)
      else (Noted(s, [NotifySent(s.current.value.faultId)]), PassedThrough)
    case RemediationPropose(_, propose) =>
      if s.current.None? then (s, NoRegisteredFault)
      else if s.current.value.proposed then (s, AlreadyProposed)
      else
        var f := s.current.value.faultId;
        (State(
           Some(s.current.value.(proposed := propose.ProposeOk?)),
           s.log + [ActivitySent(f), ProposeSent(f, propose)]),
         if propose.ProposeThrew? then Failed else PassedThrough)
  }

  // ---------------------------------------------------------------- the plugin object

  /** The module's one variable, and the handlers that sequence the harness around it. */
  class Plugin {
    var current: Option<Investigation>
    ghost var log: seq<Entry>

    ghost function Model(): State
      reads this
    {
      State(current, log)
    }

    constructor ()
      ensures Model() == State(None, [])
    {
      current := None;
      log := [];
    }

    method Send(entry: Entry)
      modifies this`log
      ensures log == old(log) + [entry]
    {
      log := log + [entry];
    }

    method ClearStaleInvestigation(seen: Lookup)
      modifies this
      ensures Model() == ClearedStale(old(Model()), seen)
    {
      if current.Some? && IsTerminal(seen) {
        Send(Dropped(current.value.faultId, seen));
        current := None;
      }
    }

    method RegisterFaultFromLogs(bundle: Bundle, seen: Lookup, created: CreateAnswer, patch: Delivery)
      returns (r: ToolResult)
      modifies this
      ensures (Model(), r) == AfterLogs(old(Model()), Some(bundle), seen, created, patch)
    {
      ClearStaleInvestigation(seen);
      if current.None? {
        if !created.CreateOk? {
          return Failed;
        }
        current := Some(Investigation(created.id, bundle.scenarioId, bundle.assetId, false, false, false));
        Send(Registered(created.id));
        Send(StatusSent(created.id, patch));
        assert log == ClearedStale(old(Model()), seen).log + [Registered(created.id), StatusSent(created.id, patch)];
        if patch.Threw? {
          return Failed;
        }
        Send(ActivitySent(created.id));
        Send(ActivitySent(created.id));
        Send(ActivitySent(created.id));
        Send(ActivitySent(created.id));
        assert log == ClearedStale(old(Model()), seen).log
          + [Registered(created.id), StatusSent(created.id, patch)] + Opening(created.id);
      } else if current.value.proposed {
        Send(ActivitySent(current.value.faultId));
      }
      Send(Reported(current.value.faultId, StageOf(current.value)));
      r := Stamped(current.value.faultId, StageOf(current.value));
    }

    method RecordSignature(signature: string, patch: Delivery)
      modifies this
      ensures Model() == AfterSignature(old(Model()), signature, patch)
    {
      if current.None? || current.value.diagnosed || current.value.signatureRecorded || signature == "" {
        return;
      }
      Send(ActivitySent(current.value.faultId));
      Send(DiagnosisSent(current.value.faultId, Some(signature), None, patch));
      if patch.Acknowledged? {
        current := Some(current.value.(signatureRecorded := true));
      }
    }

    method RecordKbResult(signature: string, kbId: Option<string>, patch: Delivery)
      modifies this
      ensures Model() == AfterKbResult(old(Model()), signature, kbId, patch)
    {
      if current.None? || current.value.diagnosed {
        return;
      }
      Send(ActivitySent(current.value.faultId));
      Send(KbRecorded(current.value.faultId, signature, kbId));
      var sig: Option<string> := None;
      if signature != "" && !current.value.signatureRecorded {
        sig := Some(signature);
      }
      if kbId.Some? || sig.Some? {
        Send(DiagnosisSent(current.value.faultId, sig, kbId, patch));
      }
      current := Some(current.value.(diagnosed := true));
    }

    /** A tool handler, whichever it is; the fault id the model supplies is never used. */
    method Execute(call: ToolCall) returns (r: ToolResult)
      modifies this
      ensures (Model(), r) == Call(old(Model()), call)
    {
      match call
      case MonitorListEvents(seen) =>
        ClearStaleInvestigation(seen);
        r := PassedThrough;
      case MonitorGetAsset => r := PassedThrough;
      case MonitorListAssets => r := PassedThrough;
      case LogsGetBundle(bundle, seen, created, patch) =>
        if bundle.None? {
          return PassedThrough;
        }
        r := RegisterFaultFromLogs(bundle.value, seen, created, patch);
      case KbSearch(signature, first, answer, second) =>
        RecordSignature(signature, first);
        if current.Some? && !current.value.diagnosed {
          Send(ActivitySent(current.value.faultId));
        }
        if answer.KbThrew? {
          return Failed;
        }
        RecordKbResult(signature, if answer.Matched? then Some(answer.kbId) else None, second);
        r := PassedThrough;
      case NotifyPostActivity(_) =>
        if current.None? {
          return NoRegisteredFault;
        }
        Send(NotifySent(current.value.faultId));
        r := PassedThrough;
      case RemediationPropose(_, propose) =>
        if current.None? {
          return NoRegisteredFault;
        }
        if current.value.proposed {
          return AlreadyProposed;
        }
        Send(ActivitySent(current.value.faultId));
        Send(ProposeSent(current.value.faultId, propose));
        assert log == old(log) + [ActivitySent(current.value.faultId), ProposeSent(current.value.faultId, propose)];
        if propose.ProposeOk? {
          current := Some(current.value.(proposed := true));
        }
        r := if propose.ProposeThrew? then Failed else PassedThrough;
    }
  }
}
