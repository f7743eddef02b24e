/** What each Gateway section leaves and publishes, said of the section as a whole. */
module SectionEffects {
  import opened Basics
  import opened GatewayState

  /** The fault that a section is about, if it is about one. */
  function Subject(op: Op): Option<string> {
    match op
    case Create(id, _, _, _) => Some(id)
    case Patch(f, _) => Some(f)
    case Diagnose(f, _) => Some(f)
    case Deny(f) => Some(f)
    case ExecutorStatus(f, _, _) => Some(f)
    case _ => None
  }

  /** Short of a reset, a section leaves every other fault as it was, and no fault ever goes. */
  lemma OtherFaultsStay(s: Store, op: Op, other: string)
    requires s.Valid() && !op.ResetAll? && Subject(op) != Some(other)
    ensures var t := Run(s, op).0;
      (other in t.faults <==> other in s.faults) && (other in s.faults ==> t.faults[other] == s.faults[other])
  {
  }

  /** A status write changes nothing of the fault but its status. */
  lemma StatusWritesKeepTheRest(s: Store, op: Op, f: string)
    requires s.Valid() && f in s.faults && Subject(op) == Some(f) && (op.Patch? || op.Deny? || op.ExecutorStatus?)
    ensures var t := Run(s, op).0;
      f in t.faults && t.faults[f].(status := s.faults[f].status) == s.faults[f]
  {
  }

  /** A diagnosis patch writes the fields it carries, keeps the others, and touches nothing else. */
  lemma DiagnosisIsPartial(s: Store, f: string, patch: Diagnosis)
    requires s.Valid() && f in s.faults
    ensures var t := Run(s, Diagnose(f, patch)).0;
      && f in t.faults
      && var (before, after) := (s.faults[f].diagnosis, t.faults[f].diagnosis);
      && t.faults[f].(diagnosis := before) == s.faults[f]
      && after.signature == (if patch.signature == None then before.signature else patch.signature)
      && after.analysis == (if patch.analysis == None then before.analysis else patch.analysis)
      && after.kbId == (if patch.kbId == None then before.kbId else patch.kbId)
      && after.kbTitle == (if patch.kbTitle == None then before.kbTitle else patch.kbTitle)
      && after.kbScore == (if patch.kbScore == None then before.kbScore else patch.kbScore)
  {
  }

  /** A registration keeps what the agent reported, and falls back on defaults only where it said nothing. */
  lemma RegistrationKeepsTheReport(s: Store, op: Op)
    requires s.Valid() && op.Create?
    ensures var (t, events) := Run(s, op);
      var r := op.request;
      && op.id in t.faults && op.notificationId in t.notifications
      && var (f, n) := (t.faults[op.id], t.notifications[op.notificationId]);
      && f.scenario == r.scenario && f.asset == r.asset && f.extract == r.extract && f.status == Detected
      && f.labels == (if r.labels != [] then r.labels else op.defaultLabels)
      && f.diagnosis == Diagnosis(None, None, r.kbId, None, None)
      && n.fault == op.id && !n.read && n.title == "Fault detected on " + r.asset
      && n.body == (match r.extract
                    case Some(e) => if e == "" then "Scenario " + r.scenario + " triggered." else e
                    case None => "Scenario " + r.scenario + " triggered.")
      && events == [FaultEvent(f), NotificationEvent(n), AssetEvent(r.asset, Faulted, Some(op.id))]
  {
  }

  /** Either decision is announced as what it was; only an approval leaves a token to fetch. */
  lemma DecisionsAnnounced(s: Store, f: string, token: string)
    requires s.Valid() && f in s.faults
    ensures var (denied, no) := Run(s, Deny(f));
      && f in denied.faults && denied.faults[f].status == Denied && denied.pending == s.pending
      && denied.assets == s.assets
      && no == [FaultEvent(denied.faults[f]), DecisionEvent(f, false)]
    ensures var (granted, yes) := Run(s, Grant(f, token));
      && granted == s.(pending := s.pending[f := token])
      && yes == [DecisionEvent(f, true)]
  {
  }

  /** A reset leaves nothing but the fleet: same assets, same kinds, same order, all healthy and unlinked. */
  lemma ResetLeavesTheFleet(s: Store)
    requires s.Valid()
    ensures var t := Run(s, ResetAll).0;
      && t.faults == map[] && t.notifications == map[] && t.pending == map[] && t.activity == []
      && t.order == s.order && t.assets.Keys == s.assets.Keys
      && forall a :: a in s.assets ==> t.assets[a] == AssetRecord(a, s.assets[a].kind, Healthy, None)
  {
  }
}
