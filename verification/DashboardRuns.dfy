/** Two short runs in which a dashboard ends up wrong. */
module DashboardRuns {
  import opened Basics
  import opened GatewayState
  import opened Approval
  import opened Replica
  import opened Dashboard

  lemma FirstStep(d: Desk, steps: seq<DeskStep>)
    requires steps != [] && DeskEnabled(d, steps[0]) && DeskRun(DeskNext(d, steps[0]), steps[1..])
    ensures DeskRun(d, steps) && DeskAfter(d, steps) == DeskAfter(DeskNext(d, steps[0]), steps[1..])
  {
  }

  lemma {:induction false} Compose(d: Desk, a: seq<DeskStep>, b: seq<DeskStep>)
    requires DeskRun(d, a) && DeskRun(DeskAfter(d, a), b)
    ensures DeskRun(d, a + b) && DeskAfter(d, a + b) == DeskAfter(DeskAfter(d, a), b)
    decreases |a|
  {
    if a == [] {
      assert a + b == b;
    } else {
      assert (a + b)[0] == a[0] && (a + b)[1..] == a[1..] + b;
      Compose(DeskNext(d, a[0]), a[1..], b);
      FirstStep(d, a + b);
    }
  }

  lemma Last(d: Desk, step: DeskStep)
    requires DeskEnabled(d, step)
    ensures DeskRun(d, [step]) && DeskAfter(d, [step]) == DeskNext(d, step)
  {
    var run := [step];
    assert run[1..] == [];
    assert DeskRun(DeskNext(d, step), run[1..]) && DeskAfter(DeskNext(d, step), run[1..]) == DeskNext(d, step);
    FirstStep(d, run);
  }

  lemma Then(d: Desk, steps: seq<DeskStep>, e: Desk, step: DeskStep)
    requires DeskRun(d, steps) && DeskAfter(d, steps) == e && DeskEnabled(e, step)
    ensures DeskRun(d, steps + [step]) && DeskAfter(d, steps + [step]) == DeskNext(e, step)
  {
    Last(e, step);
    Compose(d, steps, [step]);
  }

  // ---------------------------------------------------------------- reading

  /** The three reads on a Gateway without faults. */
  function Reads(list: seq<AssetRecord>): seq<DeskStep> {
    [ReadFaults(0, [])] + [ReadAssets(0, list)] + [ReadActivity(0)]
  }

  lemma ReadAll(d: Desk, x: Client, list: seq<AssetRecord>)
    requires d.clients == [x] && d.sys.store.faults == map[] && AssetMap(list) == d.sys.store.assets
    ensures var y := x.(faults := Some(Answer([], |d.sys.log|)), assets := Some(Answer(list, |d.sys.log|)),
                        activity := Some(Answer(d.sys.store.activity, |d.sys.log|)));
      DeskRun(d, Reads(list)) && DeskAfter(d, Reads(list)) == Desk(d.sys, [y])
  {
    var n := |d.sys.log|;
    var x1 := x.(faults := Some(Answer([], n)));
    var x2 := x1.(assets := Some(Answer(list, n)));
    Last(d, ReadFaults(0, []));
    assert DeskNext(d, ReadFaults(0, [])) == Desk(d.sys, [x1]);
    Then(d, [ReadFaults(0, [])], Desk(d.sys, [x1]), ReadAssets(0, list));
    assert DeskNext(Desk(d.sys, [x1]), ReadAssets(0, list)) == Desk(d.sys, [x2]);
    Then(d, [ReadFaults(0, [])] + [ReadAssets(0, list)], Desk(d.sys, [x2]), ReadActivity(0));
  }

  function NewClient(): Client {
    Client(View([], [], []), false, 0, None, None, None, None)
  }

  lemma Opened(d: Desk)
    requires d.clients == []
    ensures var run := [Open(View([], [], []))];
      DeskRun(d, run) && DeskAfter(d, run) == Desk(d.sys, [NewClient()])
  {
    Last(d, Open(View([], [], [])));
    assert [] + [NewClient()] == [NewClient()];
  }

  // ---------------------------------------------------------------- a stale first load

  function Happening(request: CreateRequest, activity: Activity): seq<DeskStep> {
    [System(Write(Create("f", "n", request, [])))] + [System(Write(Post(activity)))]
  }

  function LateRun(list: seq<AssetRecord>, request: CreateRequest, activity: Activity): seq<DeskStep> {
    [Open(View([], [], []))] + Reads(list) + Happening(request, activity) + [Subscribe(0)] + [Install(0)]
  }

  /** A fault and a line of narration, after which the store differs from an empty one in all three parts. */
  lemma Happens(d: Desk, request: CreateRequest, activity: Activity)
    requires d.sys.assetOf == map[] && d.sys.store.Valid() && request.asset in d.sys.store.assets
    requires d.sys.store.assets[request.asset].state == Healthy
    ensures var run := Happening(request, activity);
      && DeskRun(d, run)
      && var e := DeskAfter(d, run);
      && e.clients == d.clients && e.sys.store.faults != map[] && e.sys.store.assets != d.sys.store.assets
      && e.sys.store.activity == d.sys.store.activity + [activity]
  {
    var create, post := System(Write(Create("f", "n", request, []))), System(Write(Post(activity)));
    var d1 := DeskNext(d, create);
    Last(d, create);
    assert "f" in d1.sys.store.faults;
    assert d1.sys.store.assets[request.asset].state == Faulted;
    Then(d, [create], d1, post);
  }

  /**
   * A dashboard that reads its three lists before it subscribes: with everything queued for it taken, it
   * shows no fault, an asset that is not as it is, and a feed without its last line.
   */
  lemma LateDashboardStaysWrong(start: Desk, list: seq<AssetRecord>, request: CreateRequest, activity: Activity)
    requires DeskStart(start) && AssetMap(list) == start.sys.store.assets && request.asset in start.sys.store.assets
    ensures var run := LateRun(list, request, activity);
      && DeskRun(start, run)
      && var d := DeskAfter(start, run);
      && |d.clients| == 1 && d.clients[0].live && d.clients[0].taken == |d.sys.log|
      && FaultMap(Dashboard.Settled(d.clients[0], d.sys.log).faults) != d.sys.store.faults
      && AssetMap(Dashboard.Settled(d.clients[0], d.sys.log).assets) != d.sys.store.assets
      && Dashboard.Settled(d.clients[0], d.sys.log).activity != d.sys.store.activity
  {
    var run1 := [Open(View([], [], []))];
    Opened(start);
    var d1 := Desk(start.sys, [NewClient()]);
    ReadAll(d1, NewClient(), list);
    Compose(start, run1, Reads(list));
    var d2 := DeskAfter(d1, Reads(list));
    Happens(d2, request, activity);
    Compose(start, run1 + Reads(list), Happening(request, activity));
    var d3 := DeskAfter(d2, Happening(request, activity));
    var run3 := run1 + Reads(list) + Happening(request, activity);
    Then(start, run3, d3, Subscribe(0));
    var d4 := DeskNext(d3, Subscribe(0));
    Then(start, run3 + [Subscribe(0)], d4, Install(0));
    InstalledShows(d4);
  }

  /** With nothing queued, a dashboard shows the lists it installed. */
  lemma InstalledShows(d: Desk)
    requires |d.clients| == 1 && DeskEnabled(d, Install(0)) && d.clients[0].taken == |d.sys.log|
    ensures var e := DeskNext(d, Install(0));
      var x := d.clients[0];
      && e.sys == d.sys && |e.clients| == 1 && e.clients[0].taken == x.taken && e.clients[0].live == x.live
      && Dashboard.Settled(e.clients[0], d.sys.log) == View(x.faults.value.list, x.assets.value.list, x.activity.value.list)
  {
    assert d.sys.log[|d.sys.log|..] == [];
  }

  // ---------------------------------------------------------------- a line shown twice

  function TwiceRun(list: seq<AssetRecord>, activity: Activity): seq<DeskStep> {
    [Open(View([], [], []))] + [Subscribe(0)] + [System(Write(Post(activity)))] + Reads(list) + ([Install(0)] + [Deliver(0)])
  }

  /** Subscribed first, then a line is posted: it waits in the dashboard's queue. */
  lemma PostedWhileSubscribed(start: Desk, activity: Activity)
    requires DeskStart(start)
    ensures var run := [Open(View([], [], []))] + [Subscribe(0)] + [System(Write(Post(activity)))];
      && DeskRun(start, run)
      && var d := DeskAfter(start, run);
      && d.sys.log == [ActivityEvent(activity)] && d.clients == [NewClient().(live := true)]
      && d.sys.store == start.sys.store.(activity := [activity])
  {
    var run1 := [Open(View([], [], []))];
    Opened(start);
    var d1 := Desk(start.sys, [NewClient()]);
    Then(start, run1, d1, Subscribe(0));
    var d2 := Desk(start.sys, [NewClient().(live := true)]);
    assert DeskNext(d1, Subscribe(0)) == d2;
    Then(start, run1 + [Subscribe(0)], d2, System(Write(Post(activity))));
  }

  /** Installing a snapshot that has the line, then taking the line from the queue. */
  lemma InstalledThenDelivered(d: Desk, x: Client, activity: Activity)
    requires d.clients == [x] && x.live && x.taken == 0 && d.sys.log == [ActivityEvent(activity)]
    requires x.faults.Some? && x.assets.Some? && x.activity.Some? && x.activity.value.list == [activity]
    ensures var run := [Install(0)] + [Deliver(0)];
      && DeskRun(d, run)
      && var e := DeskAfter(d, run);
      && e.sys == d.sys && |e.clients| == 1 && e.clients[0].taken == 1
      && e.clients[0].view.activity == [activity, activity]
  {
    Last(d, Install(0));
    var e := DeskNext(d, Install(0));
    assert e.clients[0].view.activity == [activity] && e.clients[0].taken == 0 && e.clients[0].live;
    Then(d, [Install(0)], e, Deliver(0));
  }

  /** A line posted after the subscription and before the read is in the snapshot and in the queue. */
  lemma LineShownTwice(start: Desk, list: seq<AssetRecord>, activity: Activity)
    requires DeskStart(start) && AssetMap(list) == start.sys.store.assets
    ensures var run := TwiceRun(list, activity);
      && DeskRun(start, run)
      && var d := DeskAfter(start, run);
      && |d.clients| == 1 && d.clients[0].taken == |d.sys.log|
      && d.sys.store.activity == [activity] && d.clients[0].view.activity == [activity, activity]
  {
    var run := [Open(View([], [], []))] + [Subscribe(0)] + [System(Write(Post(activity)))];
    PostedWhileSubscribed(start, activity);
    var d := DeskAfter(start, run);
    ReadAll(d, d.clients[0], list);
    Compose(start, run, Reads(list));
    var e := DeskAfter(d, Reads(list));
    InstalledThenDelivered(e, e.clients[0], activity);
    Compose(start, run + Reads(list), [Install(0)] + [Deliver(0)]);
  }
}
