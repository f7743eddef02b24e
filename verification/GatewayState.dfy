/**
 * The Gateway's in-memory state as a value, and each handler section as one step on it.
 *
 * A section runs from one outside call to the next without suspending, so it is atomic:
 * `Run` gives the store it leaves and the events it publishes, in order.
 */
module GatewayState {
  import opened Basics

  datatype Status = Detected | Diagnosing | AwaitingApproval | Remediating | Resolved | Denied

  datatype Health = Healthy | Faulted

  /** The fields the agent fills in later; a missing field in a patch leaves the old one. */
  datatype Diagnosis = Diagnosis(
    signature: Option<string>,
    analysis: Option<string>,
    kbId: Option<string>,
    kbTitle: Option<string>,
    kbScore: Option<real>)
  {
    function Overlay(patch: Diagnosis): Diagnosis {
      Diagnosis(
        if patch.signature.Some? then patch.signature else signature,
        if patch.analysis.Some? then patch.analysis else analysis,
        if patch.kbId.Some? then patch.kbId else kbId,
        if patch.kbTitle.Some? then patch.kbTitle else kbTitle,
        if patch.kbScore.Some? then patch.kbScore else kbScore)
    }
  }

  datatype Fault = Fault(
    id: string,
    scenario: string,
    asset: string,
    status: Status,
    extract: Option<string>,
    labels: seq<string>,
    diagnosis: Diagnosis)

  datatype AssetRecord = AssetRecord(id: string, kind: string, state: Health, link: Option<string>)

  datatype Activity = Activity(id: string, fault: string, step: string, message: string)

  datatype Notification = Notification(id: string, fault: string, title: string, body: string, read: bool)

  /** One payload on the event stream. An asset event is partial: it carries no `kind`. */
  datatype Event =
    | FaultEvent(fault: Fault)
    | AssetEvent(id: string, state: Health, link: Option<string>)
    | ActivityEvent(activity: Activity)
    | NotificationEvent(notification: Notification)
    | DecisionEvent(faultId: string, approved: bool)
    | ResetEvent

  /** `order` lists the keys of `assets` in insertion order, as a dictionary would. */
  datatype Store = Store(
    faults: map<string, Fault>,
    order: seq<string>,
    assets: map<string, AssetRecord>,
    activity: seq<Activity>,
    notifications: map<string, Notification>,
    pending: map<string, string>)
  {
    ghost predicate Valid() {
      && (forall a :: a in order <==> a in assets)
      && (forall a :: a in assets ==> assets[a].id == a)
      && (forall f :: f in faults ==> faults[f].id == f)
    }
  }

  datatype CreateRequest = CreateRequest(
    scenario: string,
    asset: string,
    kbId: Option<string>,
    extract: Option<string>,
    labels: seq<string>)

  /** The atomic sections of the Gateway, whoever runs them. */
  datatype Op =
    | Create(id: string, notificationId: string, request: CreateRequest, defaultLabels: seq<string>)
    | Patch(faultId: string, status: Status)
    | Diagnose(faultId: string, patch: Diagnosis)
    | Deny(faultId: string)
    | Grant(faultId: string, token: string)
    | ExecutorStatus(faultId: string, asset: string, status: Status)
    | Post(activity: Activity)
    | ResetAll

  function SetAsset(s: Store, rec: AssetRecord): Store {
    s.(assets := s.assets[rec.id := rec],
       order := if rec.id in s.assets then s.order else s.order + [rec.id])
  }

  function SetFault(s: Store, f: Fault): Store {
    s.(faults := s.faults[f.id := f])
  }

  function Run(s: Store, op: Op): (Store, seq<Event>) {
    match op
    case Create(id, notificationId, request, defaultLabels) =>
      RunCreate(s, id, notificationId, request, defaultLabels)
    case Patch(f, status) =>
      if f in s.faults then RunTransition(s, s.faults[f], s.faults[f].asset, status) else (s, [])
    case Diagnose(f, patch) =>
      if f in s.faults then
        var updated := s.faults[f].(diagnosis := s.faults[f].diagnosis.Overlay(patch));
        (s.(faults := s.faults[f := updated]), [FaultEvent(updated)])
      else (s, [])
    case Deny(f) =>
      if f in s.faults then
        var updated := s.faults[f].(status := Denied);
        (s.(faults := s.faults[f := updated]), [FaultEvent(updated), DecisionEvent(f, false)])
      else (s, [])
    case Grant(f, token) => (s.(pending := s.pending[f := token]), [DecisionEvent(f, true)])
    case ExecutorStatus(f, asset, status) =>
      if f in s.faults then RunTransition(s, s.faults[f], asset, status) else (s, [])
    case Post(activity) => (s.(activity := s.activity + [activity]), [ActivityEvent(activity)])
    case ResetAll => (Wiped(s), [ResetEvent] + HealthyEvents(s.order))
  }

  function RunCreate(
    s: Store, id: string, notificationId: string, request: CreateRequest, defaultLabels: seq<string>)
    : (Store, seq<Event>)
  {
    var fault := NewFault(id, request, defaultLabels);
    var note := NewNotification(notificationId, id, request);
    var s1 := SetFault(s, fault);
    var s2 :=
      if request.asset in s1.assets then
        SetAsset(s1, s1.assets[request.asset].(state := Faulted, link := Some(id)))
      else s1;
    (s2.(notifications := s2.notifications[note.id := note]),
     [FaultEvent(fault), NotificationEvent(note), AssetEvent(request.asset, Faulted, Some(id))])
  }

  function NewFault(id: string, request: CreateRequest, defaultLabels: seq<string>): Fault {
    Fault(id, request.scenario, request.asset, Detected, request.extract,
          if request.labels == [] then defaultLabels else request.labels,
          Diagnosis(None, None, request.kbId, None, None))
  }

  function NewNotification(notificationId: string, id: string, request: CreateRequest): Notification {
    Notification(
      notificationId, id, "Fault detected on " + request.asset,
      if request.extract.Some? && request.extract.value != "" then request.extract.value
      else "Scenario " + request.scenario + " triggered.",
      false)
  }

  /** A status write. Only "resolved" reaches the asset, and only a named, known asset. */
  function RunTransition(s: Store, fault: Fault, asset: string, status: Status): (Store, seq<Event>) {
    var updated := fault.(status := status);
    var s1 := SetFault(s, updated);
    if status == Resolved && asset != "" && asset in s1.assets then
      (SetAsset(s1, s1.assets[asset].(state := Healthy, link := None)),
       [AssetEvent(asset, Healthy, None), FaultEvent(updated)])
    else
      (s1, [FaultEvent(updated)])
  }

  /** The store after a reset: nothing but the assets, all healthy and unlinked. */
  function Wiped(s: Store): Store {
    Store(map[], s.order,
          map a | a in s.assets :: s.assets[a].(state := Healthy, link := None),
          [], map[], map[])
  }

  function HealthyEvents(order: seq<string>): (events: seq<Event>)
    ensures |events| == |order|
    ensures forall i :: 0 <= i < |order| ==> events[i] == AssetEvent(order[i], Healthy, None)
  {
    seq(|order|, i requires 0 <= i < |order| => AssetEvent(order[i], Healthy, None))
  }

  /** The assets a store knows never change; only their health and link do. */
  ghost predicate SameFleet(s: Store, t: Store) {
    && t.order == s.order
    && t.assets.Keys == s.assets.Keys
    && forall a :: a in s.assets ==> t.assets[a].kind == s.assets[a].kind
  }

  lemma SetAssetKeepsStore(s: Store, a: string, state: Health, link: Option<string>)
    requires s.Valid() && a in s.assets
    ensures var t := SetAsset(s, s.assets[a].(state := state, link := link));
      t.Valid() && SameFleet(s, t)
  {
  }

  lemma SetFaultKeepsStore(s: Store, f: Fault)
    requires s.Valid()
    ensures SetFault(s, f).Valid() && SameFleet(s, SetFault(s, f))
  {
  }

  lemma TransitionKeepsStore(s: Store, fault: Fault, asset: string, status: Status)
    requires s.Valid()
    ensures RunTransition(s, fault, asset, status).0.Valid()
    ensures SameFleet(s, RunTransition(s, fault, asset, status).0)
  {
    var s1 := SetFault(s, fault.(status := status));
    SetFaultKeepsStore(s, fault.(status := status));
    if asset in s1.assets {
      SetAssetKeepsStore(s1, asset, Healthy, None);
    }
  }

  lemma CreateKeepsStore(
    s: Store, id: string, notificationId: string, request: CreateRequest, defaultLabels: seq<string>)
    requires s.Valid()
    ensures RunCreate(s, id, notificationId, request, defaultLabels).0.Valid()
    ensures SameFleet(s, RunCreate(s, id, notificationId, request, defaultLabels).0)
  {
    var s1 := SetFault(s, NewFault(id, request, defaultLabels));
    SetFaultKeepsStore(s, NewFault(id, request, defaultLabels));
    if request.asset in s1.assets {
      SetAssetKeepsStore(s1, request.asset, Faulted, Some(id));
    }
  }

  /** Every section keeps the store well formed and the fleet the same. */
  lemma RunKeepsStore(s: Store, op: Op)
    requires s.Valid()
    ensures Run(s, op).0.Valid() && SameFleet(s, Run(s, op).0)
  {
    match op
    case Create(id, notificationId, request, labels) => CreateKeepsStore(s, id, notificationId, request, labels);
    case Patch(f, status) =>
      if f in s.faults { TransitionKeepsStore(s, s.faults[f], s.faults[f].asset, status); }
    case ExecutorStatus(f, asset, status) =>
      if f in s.faults { TransitionKeepsStore(s, s.faults[f], asset, status); }
    case Diagnose(f, patch) =>
      if f in s.faults {
        SetFaultKeepsStore(s, s.faults[f].(diagnosis := s.faults[f].diagnosis.Overlay(patch)));
      }
    case Deny(f) =>
      if f in s.faults { SetFaultKeepsStore(s, s.faults[f].(status := Denied)); }
    case Grant(_, _) =>
    case Post(_) =>
    case ResetAll =>
  }
}
