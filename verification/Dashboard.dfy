/**
 * Dashboards over every run of the Gateway: each reads the three lists with separate requests,
 * installs them, subscribes, and applies the events it has taken from its queue.
 *
 * A dashboard's queue is the log from `taken` on: `EventBroker.SSEBroker.QueueIsLogTail`, with `taken`
 * for where it subscribed plus how much it has consumed.
 */
module Dashboard {
  import opened Basics
  import opened GatewayState
  import opened Approval
  import opened ApprovalSafety
  import opened Replica

  /** A list the Gateway answered with, and how long the log was when it did. */
  datatype Answer<T> = Answer(list: seq<T>, at: nat)

  /**
   * `base` tells where the view comes from: the log position each list was read at, and the position
   * from which events have been applied on top.
   */
  datatype Base = Base(faultsAt: nat, assetsAt: nat, activityAt: nat, from: nat)

  datatype Client = Client(
    view: View,
    live: bool,
    taken: nat,
    faults: Option<Answer<Fault>>,
    assets: Option<Answer<AssetRecord>>,
    activity: Option<Answer<Activity>>,
    base: Option<Base>)

  datatype Desk = Desk(sys: Sys, clients: seq<Client>)

  datatype DeskStep =
    | System(step: Step)
    | Open(view: View)
    | Subscribe(c: nat)
    | Disconnect(c: nat)
    | ReadFaults(c: nat, faultList: seq<Fault>)
    | ReadAssets(c: nat, assetList: seq<AssetRecord>)
    | ReadActivity(c: nat)
    | Install(c: nat)
    | Deliver(c: nat)

  ghost predicate DeskEnabled(d: Desk, step: DeskStep) {
    match step
    case System(st) => Enabled(d.sys, st)
    case Open(_) => true
    case Subscribe(c) => c < |d.clients| && !d.clients[c].live
    case Disconnect(c) => c < |d.clients| && d.clients[c].live
    case ReadFaults(c, list) => c < |d.clients| && FaultMap(list) == d.sys.store.faults
    case ReadAssets(c, list) => c < |d.clients| && AssetMap(list) == d.sys.store.assets
    case ReadActivity(c) => c < |d.clients|
    case Install(c) =>
      c < |d.clients| && d.clients[c].faults.Some? && d.clients[c].assets.Some? && d.clients[c].activity.Some?
    case Deliver(c) => c < |d.clients| && d.clients[c].live && d.clients[c].taken < |d.sys.log|
  }

  function Change(x: Client, log: seq<Event>, activity: seq<Activity>, step: DeskStep): Client
  {
    match step
    case Subscribe(_) =>
      x.(live := true, taken := |log|,
         base := if x.base.Some? then Some(x.base.value.(from := |log|)) else None)
    case Disconnect(_) => x.(live := false, base := None)
    case ReadFaults(_, list) => x.(faults := Some(Answer(list, |log|)))
    case ReadAssets(_, list) => x.(assets := Some(Answer(list, |log|)))
    case ReadActivity(_) => x.(activity := Some(Answer(activity, |log|)))
    case Install(_) =>
      if x.faults.Some? && x.assets.Some? && x.activity.Some? then
        x.(view := View(x.faults.value.list, x.assets.value.list, x.activity.value.list),
           base := Some(Base(x.faults.value.at, x.assets.value.at, x.activity.value.at, x.taken)))
      else x
    case Deliver(_) =>
      if x.taken < |log| then x.(view := HandleSSE(x.view, log[x.taken]), taken := x.taken + 1) else x
    case _ => x
  }

  ghost function DeskNext(d: Desk, step: DeskStep): Desk
    requires DeskEnabled(d, step)
  {
    match step
    case System(st) => d.(sys := Next(d.sys, st))
    case Open(view) => d.(clients := d.clients + [Client(view, false, 0, None, None, None, None)])
    case _ => d.(clients := d.clients[step.c := Change(d.clients[step.c], d.sys.log, d.sys.store.activity, step)])
  }

  ghost predicate DeskRun(d: Desk, steps: seq<DeskStep>)
    decreases |steps|
  {
    steps != [] ==> DeskEnabled(d, steps[0]) && DeskRun(DeskNext(d, steps[0]), steps[1..])
  }

  ghost function DeskAfter(d: Desk, steps: seq<DeskStep>): Desk
    requires DeskRun(d, steps)
    decreases |steps|
  {
    if steps == [] then d else DeskAfter(DeskNext(d, steps[0]), steps[1..])
  }

  // ---------------------------------------------------------------- what every run keeps

  ghost predicate FaultsRead(init: Store, log: seq<Event>, list: seq<Fault>, at: nat) {
    at <= |log| && FaultMap(list) == FaultsAfter(init.faults, log[..at])
  }

  ghost predicate AssetsRead(init: Store, log: seq<Event>, list: seq<AssetRecord>, at: nat) {
    at <= |log| && AssetMap(list) == AssetsAfter(init.assets, log[..at])
  }

  ghost predicate ActivityRead(init: Store, log: seq<Event>, list: seq<Activity>, at: nat) {
    at <= |log| && list == ActivityAfter(init.activity, log[..at])
  }

  ghost predicate ViewRight(init: Store, log: seq<Event>, view: View, b: Base, taken: nat) {
    && b.from <= taken <= |log|
    && b.faultsAt <= |log| && b.assetsAt <= |log| && b.activityAt <= |log|
    && FaultMap(view.faults) == FaultsAfter(FaultsAfter(init.faults, log[..b.faultsAt]), log[b.from..taken])
    && AssetMap(view.assets) == AssetsAfter(AssetsAfter(init.assets, log[..b.assetsAt]), log[b.from..taken])
    && view.activity == ActivityAfter(ActivityAfter(init.activity, log[..b.activityAt]), log[b.from..taken])
  }

  ghost predicate ClientRight(init: Store, log: seq<Event>, x: Client) {
    && x.taken <= |log|
    && (x.faults.Some? ==> FaultsRead(init, log, x.faults.value.list, x.faults.value.at))
    && (x.assets.Some? ==> AssetsRead(init, log, x.assets.value.list, x.assets.value.at))
    && (x.activity.Some? ==> ActivityRead(init, log, x.activity.value.list, x.activity.value.at))
    && (x.base.Some? ==> ViewRight(init, log, x.view, x.base.value, x.taken))
    && (x.base.Some? && !x.live ==> x.base.value.from == x.taken)
  }

  ghost predicate DeskRight(init: Store, d: Desk) {
    && IdsAgree(d.sys)
    && Follows(init, d.sys.log, d.sys.store)
    && forall c :: 0 <= c < |d.clients| ==> ClientRight(init, d.sys.log, d.clients[c])
  }

  lemma LogExtends(init: Store, log: seq<Event>, more: seq<Event>, x: Client)
    requires ClientRight(init, log, x)
    ensures ClientRight(init, log + more, x)
  {
    assert forall i :: 0 <= i <= |log| ==> (log + more)[..i] == log[..i];
    if x.base.Some? {
      assert (log + more)[x.base.value.from..x.taken] == log[x.base.value.from..x.taken];
    }
  }

  lemma SystemStepRight(init: Store, d: Desk, step: Step)
    requires DeskRight(init, d) && Enabled(d.sys, step)
    ensures DeskRight(init, d.(sys := Next(d.sys, step)))
  {
    StepParts(d.sys, step);
    NextKeepsIds(d.sys, step);
    var op := SectionOf(d.sys, step);
    if op.Some? {
      var events := Run(d.sys.store, op.value).1;
      RunFollows(d.sys.store, op.value);
      FollowsThen(init, d.sys.log, d.sys.store, events, Run(d.sys.store, op.value).0);
      forall c | 0 <= c < |d.clients|
        ensures ClientRight(init, d.sys.log + events, d.clients[c])
      {
        LogExtends(init, d.sys.log, events, d.clients[c]);
      }
    }
  }

  lemma DeliverRight(init: Store, log: seq<Event>, x: Client)
    requires ClientRight(init, log, x) && x.live && x.taken < |log|
    ensures ClientRight(init, log, x.(view := HandleSSE(x.view, log[x.taken]), taken := x.taken + 1))
  {
    if x.base.Some? {
      var b := x.base.value;
      var e := log[x.taken];
      HandleSSEAsMaps(x.view, e);
      assert log[b.from..x.taken + 1] == log[b.from..x.taken] + [e];
      var m := FaultsAfter(init.faults, log[..b.faultsAt]);
      var n := AssetsAfter(init.assets, log[..b.assetsAt]);
      var q := ActivityAfter(init.activity, log[..b.activityAt]);
      FaultsSplit(m, log[b.from..x.taken], [e]);
      AssetsSplit(n, log[b.from..x.taken], [e]);
      ActivitySplit(q, log[b.from..x.taken], [e]);
      var reached := init.(faults := FaultsAfter(m, log[b.from..x.taken]),
                           assets := AssetsAfter(n, log[b.from..x.taken]),
                           activity := ActivityAfter(q, log[b.from..x.taken]));
      OneEvent(reached, e);
    }
  }

  lemma ClientStepRight(init: Store, d: Desk, step: DeskStep)
    requires DeskRight(init, d) && DeskEnabled(d, step) && !step.System? && !step.Open?
    ensures ClientRight(init, d.sys.log, Change(d.clients[step.c], d.sys.log, d.sys.store.activity, step))
  {
    var log := d.sys.log;
    var x := d.clients[step.c];
    assert ClientRight(init, log, x);
    assert log[..|log|] == log && log[|log|..|log|] == [] && log[x.taken..x.taken] == [];
    if step.Subscribe? && x.base.Some? {
      assert log[x.base.value.from..x.taken] == [];
    }
    if step.Deliver? { DeliverRight(init, log, x); }
  }

  lemma DeskStepRight(init: Store, d: Desk, step: DeskStep)
    requires DeskRight(init, d) && DeskEnabled(d, step)
    ensures DeskRight(init, DeskNext(d, step))
  {
    match step
    case System(st) => SystemStepRight(init, d, st);
    case Open(_) =>
    case _ => ClientStepRight(init, d, step);
  }

  lemma {:induction false} DeskRunRight(init: Store, d: Desk, steps: seq<DeskStep>)
    requires DeskRight(init, d) && DeskRun(d, steps)
    ensures DeskRight(init, DeskAfter(d, steps))
    decreases |steps|
  {
    if steps != [] {
      DeskStepRight(init, d, steps[0]);
      DeskRunRight(init, DeskNext(d, steps[0]), steps[1..]);
    }
  }

  ghost predicate DeskStart(d: Desk) {
    Initial(d.sys) && d.clients == []
  }

  lemma StartIsRight(d: Desk)
    requires DeskStart(d)
    ensures DeskRight(d.sys.store, d)
  {
  }

  /** What a dashboard shows once it has taken everything queued for it. */
  ghost function Settled(x: Client, log: seq<Event>): View
    requires x.taken <= |log|
  {
    Fold(x.view, log[x.taken..])
  }

  /** The log from where events were first applied, split at a position. */
  lemma SettledViews(init: Store, log: seq<Event>, x: Client)
    requires ClientRight(init, log, x) && x.base.Some?
    ensures var b := x.base.value;
      && FaultMap(Settled(x, log).faults) == FaultsAfter(FaultsAfter(init.faults, log[..b.faultsAt]), log[b.from..])
      && AssetMap(Settled(x, log).assets) == AssetsAfter(AssetsAfter(init.assets, log[..b.assetsAt]), log[b.from..])
      && Settled(x, log).activity == ActivityAfter(ActivityAfter(init.activity, log[..b.activityAt]), log[b.from..])
  {
    var b := x.base.value;
    FoldAsMaps(x.view, log[x.taken..]);
    assert log[b.from..] == log[b.from..x.taken] + log[x.taken..];
    FaultsSplit(FaultsAfter(init.faults, log[..b.faultsAt]), log[b.from..x.taken], log[x.taken..]);
    AssetsSplit(AssetsAfter(init.assets, log[..b.assetsAt]), log[b.from..x.taken], log[x.taken..]);
    ActivitySplit(ActivityAfter(init.activity, log[..b.activityAt]), log[b.from..x.taken], log[x.taken..]);
  }

  lemma FaultsCatchUp(m: map<string, Fault>, log: seq<Event>, at: nat, from: nat)
    requires from <= at <= |log|
    ensures FaultsAfter(FaultsAfter(m, log[..at]), log[from..]) == FaultsAfter(m, log)
  {
    assert log[..at] == log[..from] + log[from..at];
    assert log[from..] == log[from..at] + log[at..];
    assert log == log[..at] + log[at..];
    FaultsSplit(m, log[..from], log[from..at]);
    FaultReplay(FaultsAfter(m, log[..from]), log[from..at]);
    FaultsSplit(FaultsAfter(m, log[..at]), log[from..at], log[at..]);
    FaultsSplit(m, log[..at], log[at..]);
  }

  lemma AssetsCatchUp(m: map<string, AssetRecord>, log: seq<Event>, at: nat, from: nat)
    requires from <= at <= |log|
    ensures AssetsAfter(AssetsAfter(m, log[..at]), log[from..]) == AssetsAfter(m, log)
  {
    assert log[..at] == log[..from] + log[from..at];
    assert log[from..] == log[from..at] + log[at..];
    assert log == log[..at] + log[at..];
    AssetsSplit(m, log[..from], log[from..at]);
    AssetReplay(AssetsAfter(m, log[..from]), log[from..at]);
    AssetsSplit(AssetsAfter(m, log[..at]), log[from..at], log[at..]);
    AssetsSplit(m, log[..at], log[at..]);
  }

  /**
   * Replayed stale activity shows up twice unless a reset, stale or later, wiped the feed.
   */
  lemma ActivityCatchUp(q: seq<Activity>, log: seq<Event>, at: nat, from: nat)
    requires from <= at <= |log|
    ensures ActivityAfter(ActivityAfter(q, log[..at]), log[from..]) == ActivityAfter(q, log)
      <==> HasReset(log[from..]) || !HasActivity(log[from..at])
  {
    var stale, later := log[from..at], log[at..];
    assert log[..at] == log[..from] + stale && log[from..] == stale + later && log == log[..at] + later;
    var seen := ActivityAfter(q, log[..at]);
    ActivitySplit(q, log[..from], stale);
    ActivityReplay(ActivityAfter(q, log[..from]), stale);
    ActivitySplit(seen, stale, later);
    ActivitySplit(q, log[..at], later);
    assert HasReset(log[from..]) <==> HasReset(stale) || HasReset(later);
    if HasReset(later) {
      ActivityForgets(ActivityAfter(seen, stale), seen, later);
    } else {
      SameFeedTail(ActivityAfter(seen, stale), seen, later);
    }
  }

  lemma {:induction false} ActivityAppends(q: seq<Activity>, events: seq<Event>)
    requires !HasReset(events)
    ensures ActivityAfter(q, events) == q + ActivityAfter([], events)
    decreases |events|
  {
    if events != [] {
      FirstOrRest(events, "");
      ActivityAppends(PutActivity(q, events[0]), events[1..]);
      ActivityAppends(PutActivity([], events[0]), events[1..]);
    }
  }

  /** Without a reset two feeds stay apart exactly as far as they were. */
  lemma SameFeedTail(n: seq<Activity>, p: seq<Activity>, events: seq<Event>)
    requires !HasReset(events)
    ensures ActivityAfter(n, events) == ActivityAfter(p, events) <==> n == p
  {
    var tail := ActivityAfter([], events);
    ActivityAppends(n, events);
    ActivityAppends(p, events);
    assert (n + tail)[..|n|] == n && (p + tail)[..|p|] == p;
    assert |n + tail| == |p + tail| <==> |n| == |p|;
  }

  /** A list read before events were applied leaves a gap; it heals fault by fault. */
  lemma FaultsAfterGap(m: map<string, Fault>, log: seq<Event>, at: nat, from: nat)
    requires at <= from <= |log|
    ensures FaultsAfter(FaultsAfter(m, log[..at]), log[from..]) == FaultsAfter(m, log)
      <==> forall k :: TouchesFault(log[from..], k)
                       || At(FaultsAfter(m, log[..at]), k) == At(FaultsAfter(m, log[..from]), k)
  {
    var n, p := FaultsAfter(m, log[..at]), FaultsAfter(m, log[..from]);
    var rest := log[from..];
    assert log == log[..from] + rest;
    FaultsSplit(m, log[..from], rest);
    forall k: string
      ensures At(FaultsAfter(n, rest), k) == At(FaultsAfter(p, rest), k)
         <==> TouchesFault(rest, k) || At(n, k) == At(p, k)
    {
      FaultDecided(n, p, rest, k);
      FaultDecided(p, n, rest, k);
    }
    if forall k :: TouchesFault(rest, k) || At(n, k) == At(p, k) {
      MapsByLookup(FaultsAfter(n, rest), FaultsAfter(p, rest));
    }
  }

  /** Likewise for assets, asset by asset. */
  lemma AssetsAfterGap(m: map<string, AssetRecord>, log: seq<Event>, at: nat, from: nat)
    requires at <= from <= |log|
    ensures AssetsAfter(AssetsAfter(m, log[..at]), log[from..]) == AssetsAfter(m, log)
      <==> forall k :: TouchesAsset(log[from..], k)
                       || At(AssetsAfter(m, log[..at]), k) == At(AssetsAfter(m, log[..from]), k)
  {
    var n, p := AssetsAfter(m, log[..at]), AssetsAfter(m, log[..from]);
    var rest := log[from..];
    assert log == log[..from] + rest;
    AssetsSplit(m, log[..from], rest);
    AssetDecided(m, m, log[..at], "");
    AssetDecided(m, m, log[..from], "");
    forall k: string
      ensures At(AssetsAfter(n, rest), k) == At(AssetsAfter(p, rest), k)
         <==> TouchesAsset(rest, k) || At(n, k) == At(p, k)
    {
      AssetDecided(n, p, rest, k);
      AssetDecided(p, n, rest, k);
    }
    if forall k :: TouchesAsset(rest, k) || At(n, k) == At(p, k) {
      MapsByLookup(AssetsAfter(n, rest), AssetsAfter(p, rest));
    }
  }

  /** The feed heals only by a reset. */
  lemma ActivityAfterGap(q: seq<Activity>, log: seq<Event>, at: nat, from: nat)
    requires at <= from <= |log|
    ensures ActivityAfter(ActivityAfter(q, log[..at]), log[from..]) == ActivityAfter(q, log)
      <==> HasReset(log[from..]) || ActivityAfter(q, log[..at]) == ActivityAfter(q, log[..from])
  {
    var n, p := ActivityAfter(q, log[..at]), ActivityAfter(q, log[..from]);
    var rest := log[from..];
    assert log == log[..from] + rest;
    ActivitySplit(q, log[..from], rest);
    if HasReset(rest) {
      ActivityForgets(n, p, rest);
    } else {
      SameFeedTail(n, p, rest);
    }
  }

  /**
   * In every run, whatever interleaves: a dashboard whose fault list was read no earlier than the
   * first event it applied on top ends, once its queue is drained, with exactly the Gateway's faults,
   * stale events and resets included. Likewise for assets. Its feed is exact if and only if no stale
   * activity was replayed, or a reset was among the events applied.
   */
  lemma DashboardConverges(start: Desk, steps: seq<DeskStep>, c: nat)
    requires DeskStart(start) && DeskRun(start, steps)
    requires c < |DeskAfter(start, steps).clients| && DeskAfter(start, steps).clients[c].base.Some?
    ensures var d := DeskAfter(start, steps);
      var x, log, store := d.clients[c], d.sys.log, d.sys.store;
      var b := x.base.value;
      && x.taken <= |log| && b.from <= |log|
      && (b.from <= b.faultsAt ==> FaultMap(Settled(x, log).faults) == store.faults)
      && (b.from <= b.assetsAt ==> AssetMap(Settled(x, log).assets) == store.assets)
      && b.activityAt <= |log|
      && (b.from <= b.activityAt ==>
            (Settled(x, log).activity == store.activity
             <==> HasReset(log[b.from..]) || !HasActivity(log[b.from..b.activityAt])))
  {
    var init := start.sys.store;
    StartIsRight(start);
    DeskRunRight(init, start, steps);
    var d := DeskAfter(start, steps);
    var x, log := d.clients[c], d.sys.log;
    assert ClientRight(init, log, x);
    var b := x.base.value;
    SettledViews(init, log, x);
    if b.from <= b.faultsAt { FaultsCatchUp(init.faults, log, b.faultsAt, b.from); }
    if b.from <= b.assetsAt { AssetsCatchUp(init.assets, log, b.assetsAt, b.from); }
    if b.from <= b.activityAt { ActivityCatchUp(init.activity, log, b.activityAt, b.from); }
  }

  /** A snapshot read exactly as the dashboard subscribed agrees on all three at every boundary. */
  lemma SnapshotAtSubscribe(start: Desk, steps: seq<DeskStep>, c: nat)
    requires DeskStart(start) && DeskRun(start, steps)
    requires c < |DeskAfter(start, steps).clients|
    requires var base := DeskAfter(start, steps).clients[c].base;
      base.Some? && base.value.from == base.value.faultsAt == base.value.assetsAt == base.value.activityAt
    ensures var d := DeskAfter(start, steps);
      var x := d.clients[c];
      && x.taken <= |d.sys.log|
      && FaultMap(Settled(x, d.sys.log).faults) == d.sys.store.faults
      && AssetMap(Settled(x, d.sys.log).assets) == d.sys.store.assets
      && Settled(x, d.sys.log).activity == d.sys.store.activity
  {
    DashboardConverges(start, steps, c);
  }

  /**
   * A list read before the subscription (as on first load, where both start at once) misses the events
   * in between. Faults and assets stay wrong exactly on the ids those events changed and no later one
   * mentions; the feed stays wrong exactly if it changed and no reset followed.
   */
  lemma LateSubscription(start: Desk, steps: seq<DeskStep>, c: nat)
    requires DeskStart(start) && DeskRun(start, steps)
    requires c < |DeskAfter(start, steps).clients| && DeskAfter(start, steps).clients[c].base.Some?
    ensures var d := DeskAfter(start, steps);
      var x, log, init := d.clients[c], d.sys.log, start.sys.store;
      var b := x.base.value;
      && x.taken <= |log| && b.from <= |log|
      && (b.faultsAt <= b.from ==>
            (FaultMap(Settled(x, log).faults) == d.sys.store.faults
             <==> forall k :: TouchesFault(log[b.from..], k)
                    || At(FaultsAfter(init.faults, log[..b.faultsAt]), k) == At(FaultsAfter(init.faults, log[..b.from]), k)))
      && (b.assetsAt <= b.from ==>
            (AssetMap(Settled(x, log).assets) == d.sys.store.assets
             <==> forall k :: TouchesAsset(log[b.from..], k)
                    || At(AssetsAfter(init.assets, log[..b.assetsAt]), k) == At(AssetsAfter(init.assets, log[..b.from]), k)))
      && (b.activityAt <= b.from ==>
            (Settled(x, log).activity == d.sys.store.activity
             <==> HasReset(log[b.from..])
                  || ActivityAfter(init.activity, log[..b.activityAt]) == ActivityAfter(init.activity, log[..b.from])))
  {
    var init := start.sys.store;
    StartIsRight(start);
    DeskRunRight(init, start, steps);
    var d := DeskAfter(start, steps);
    var x, log := d.clients[c], d.sys.log;
    assert ClientRight(init, log, x);
    SettledViews(init, log, x);
    var b := x.base.value;
    if b.faultsAt <= b.from { FaultsAfterGap(init.faults, log, b.faultsAt, b.from); }
    if b.assetsAt <= b.from { AssetsAfterGap(init.assets, log, b.assetsAt, b.from); }
    if b.activityAt <= b.from { ActivityAfterGap(init.activity, log, b.activityAt, b.from); }
  }
}
