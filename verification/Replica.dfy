/**
 * The dashboard's copy of the Gateway state: a snapshot, then a fold over the event stream.
 *
 * The lists the dashboard holds are read as maps by id. On maps the fold splits into three
 * independent ones (faults, assets, activity), and replaying events turns out to be idempotent
 * for the first two.
 */
module Replica {
  import opened Basics
  import opened GatewayState

  datatype View = View(faults: seq<Fault>, assets: seq<AssetRecord>, activity: seq<Activity>)

  // ---------------------------------------------------------------- the dashboard's handlers

  /** One incoming event. A reset leaves the assets alone: asset events follow it. */
  function HandleSSE(v: View, e: Event): View {
    match e
    case AssetEvent(id, state, link) => v.(assets := MergeAsset(v.assets, id, state, link))
    case FaultEvent(f) =>
      if exists i :: 0 <= i < |v.faults| && v.faults[i].id == f.id
      then v.(faults := ReplaceFault(v.faults, f))
      else v.(faults := [f] + v.faults)
    case ActivityEvent(a) => v.(activity := v.activity + [a])
    case ResetEvent => v.(faults := [], activity := [])
    case NotificationEvent(_) => v
    case DecisionEvent(_, _) => v
  }

  function MergeAsset(list: seq<AssetRecord>, id: string, state: Health, link: Option<string>): seq<AssetRecord> {
    if list == [] then []
    else [if list[0].id == id then list[0].(state := state, link := link) else list[0]]
         + MergeAsset(list[1..], id, state, link)
  }

  function ReplaceFault(list: seq<Fault>, f: Fault): seq<Fault> {
    if list == [] then [] else [if list[0].id == f.id then f else list[0]] + ReplaceFault(list[1..], f)
  }

  function Fold(v: View, events: seq<Event>): View
    decreases |events|
  {
    if events == [] then v else Fold(HandleSSE(v, events[0]), events[1..])
  }

  // ---------------------------------------------------------------- lists read as maps

  /** The first entry with an id is the one the dashboard finds. */
  function FaultMap(list: seq<Fault>): map<string, Fault> {
    if list == [] then map[] else FaultMap(list[1..])[list[0].id := list[0]]
  }

  function AssetMap(list: seq<AssetRecord>): map<string, AssetRecord> {
    if list == [] then map[] else AssetMap(list[1..])[list[0].id := list[0]]
  }

  function PutFault(m: map<string, Fault>, e: Event): map<string, Fault> {
    match e
    case FaultEvent(f) => m[f.id := f]
    case ResetEvent => map[]
    case _ => m
  }

  function PutAsset(m: map<string, AssetRecord>, e: Event): map<string, AssetRecord> {
    match e
    case AssetEvent(id, state, link) => if id in m then m[id := m[id].(state := state, link := link)] else m
    case _ => m
  }

  function PutActivity(q: seq<Activity>, e: Event): seq<Activity> {
    match e
    case ActivityEvent(a) => q + [a]
    case ResetEvent => []
    case _ => q
  }

  function FaultsAfter(m: map<string, Fault>, events: seq<Event>): map<string, Fault>
    decreases |events|
  {
    if events == [] then m else FaultsAfter(PutFault(m, events[0]), events[1..])
  }

  function AssetsAfter(m: map<string, AssetRecord>, events: seq<Event>): map<string, AssetRecord>
    decreases |events|
  {
    if events == [] then m else AssetsAfter(PutAsset(m, events[0]), events[1..])
  }

  function ActivityAfter(q: seq<Activity>, events: seq<Event>): seq<Activity>
    decreases |events|
  {
    if events == [] then q else ActivityAfter(PutActivity(q, events[0]), events[1..])
  }

  lemma {:induction false} ReplaceFaultAsMap(list: seq<Fault>, f: Fault)
    ensures FaultMap(ReplaceFault(list, f))
         == if f.id in FaultMap(list) then FaultMap(list)[f.id := f] else FaultMap(list)
    ensures f.id in FaultMap(list) <==> exists i :: 0 <= i < |list| && list[i].id == f.id
  {
    if list != [] {
      ReplaceFaultAsMap(list[1..], f);
      if i :| 0 <= i < |list| && list[i].id == f.id {
        assert i > 0 ==> list[1..][i - 1].id == f.id;
      }
      if i :| 0 <= i < |list[1..]| && list[1..][i].id == f.id {
        assert list[i + 1].id == f.id;
      }
    }
  }

  lemma {:induction false} MergeAssetAsMap(list: seq<AssetRecord>, id: string, state: Health, link: Option<string>)
    ensures AssetMap(MergeAsset(list, id, state, link)) == PutAsset(AssetMap(list), AssetEvent(id, state, link))
  {
    if list != [] {
      MergeAssetAsMap(list[1..], id, state, link);
    }
  }

  /** The handlers on lists are the map handlers, whatever the list holds (even repeated ids). */
  lemma HandleSSEAsMaps(v: View, e: Event)
    ensures FaultMap(HandleSSE(v, e).faults) == PutFault(FaultMap(v.faults), e)
    ensures AssetMap(HandleSSE(v, e).assets) == PutAsset(AssetMap(v.assets), e)
    ensures HandleSSE(v, e).activity == PutActivity(v.activity, e)
  {
    match e
    case FaultEvent(f) =>
      ReplaceFaultAsMap(v.faults, f);
      assert ([f] + v.faults)[1..] == v.faults;
    case AssetEvent(id, state, link) => MergeAssetAsMap(v.assets, id, state, link);
    case _ =>
  }

  lemma {:induction false} FoldAsMaps(v: View, events: seq<Event>)
    ensures FaultMap(Fold(v, events).faults) == FaultsAfter(FaultMap(v.faults), events)
    ensures AssetMap(Fold(v, events).assets) == AssetsAfter(AssetMap(v.assets), events)
    ensures Fold(v, events).activity == ActivityAfter(v.activity, events)
    decreases |events|
  {
    if events != [] {
      HandleSSEAsMaps(v, events[0]);
      FoldAsMaps(HandleSSE(v, events[0]), events[1..]);
    }
  }

  // ---------------------------------------------------------------- the order of the lists

  lemma {:induction false} ReplacedInPlace(list: seq<Fault>, f: Fault)
    ensures |ReplaceFault(list, f)| == |list|
    ensures forall i :: 0 <= i < |list| ==> ReplaceFault(list, f)[i] == if list[i].id == f.id then f else list[i]
  {
    if list != [] { ReplacedInPlace(list[1..], f); }
  }

  lemma {:induction false} MergedInPlace(list: seq<AssetRecord>, id: string, state: Health, link: Option<string>)
    ensures |MergeAsset(list, id, state, link)| == |list|
    ensures forall i :: 0 <= i < |list| ==>
      MergeAsset(list, id, state, link)[i]
      == if list[i].id == id then AssetRecord(id, list[i].kind, state, link) else list[i]
  {
    if list != [] { MergedInPlace(list[1..], id, state, link); }
  }

  /** The fault list with one more word on `f`: replaced where it stands, or put first if it is new. */
  ghost predicate FaultPlaced(before: seq<Fault>, f: Fault, after: seq<Fault>) {
    if exists i :: 0 <= i < |before| && before[i].id == f.id
    then |after| == |before| && forall i :: 0 <= i < |before| ==> after[i] == if before[i].id == f.id then f else before[i]
    else |after| == |before| + 1 && after[0] == f && forall i :: 0 <= i < |before| ==> after[i + 1] == before[i]
  }

  /** What one event does to each list, position by position. */
  lemma HandleSSEKeepsOrder(v: View, e: Event)
    ensures var w := HandleSSE(v, e);
      && (if e.FaultEvent? then FaultPlaced(v.faults, e.fault, w.faults)
          else w.faults == if e.ResetEvent? then [] else v.faults)
      && |w.assets| == |v.assets|
      && (forall i :: 0 <= i < |v.assets| ==>
            w.assets[i] == if e.AssetEvent? && v.assets[i].id == e.id
              then AssetRecord(e.id, v.assets[i].kind, e.state, e.link) else v.assets[i])
      && (w.activity == if e.ResetEvent? then [] else if e.ActivityEvent? then v.activity + [e.activity] else v.activity)
  {
    match e
    case FaultEvent(f) => ReplacedInPlace(v.faults, f);
    case AssetEvent(id, state, link) => MergedInPlace(v.assets, id, state, link);
    case _ =>
  }

  function FaultIds(list: seq<Fault>): (ids: seq<string>)
    ensures |ids| == |list| && forall i :: 0 <= i < |list| ==> ids[i] == list[i].id
  {
    seq(|list|, i requires 0 <= i < |list| => list[i].id)
  }

  predicate Distinct(ids: seq<string>) {
    forall i, j :: 0 <= i < j < |ids| ==> ids[i] != ids[j]
  }

  lemma IdsKnown(list: seq<Fault>, id: string)
    ensures id in FaultIds(list) <==> exists i :: 0 <= i < |list| && list[i].id == id
  {
    if i :| 0 <= i < |list| && list[i].id == id { assert FaultIds(list)[i] == id; }
  }

  lemma IdsPlaced(before: seq<Fault>, f: Fault, after: seq<Fault>)
    requires FaultPlaced(before, f, after)
    ensures FaultIds(after) == if f.id in FaultIds(before) then FaultIds(before) else [f.id] + FaultIds(before)
  {
    IdsKnown(before, f.id);
  }

  /** The ids that one event leaves, given those before it. */
  lemma IdsAfterOne(v: View, e: Event)
    requires !e.ResetEvent?
    ensures var before, after := FaultIds(v.faults), FaultIds(HandleSSE(v, e).faults);
      if e.FaultEvent? && e.fault.id !in before then after == [e.fault.id] + before else after == before
  {
    HandleSSEKeepsOrder(v, e);
    if e.FaultEvent? { IdsPlaced(v.faults, e.fault, HandleSSE(v, e).faults); }
  }

  /** Faults heard of later stand before those known earlier, which keep their order; none is listed twice. */
  lemma {:induction false} NewestFirst(v: View, events: seq<Event>)
    requires !HasReset(events)
    ensures exists newer :: FaultIds(Fold(v, events).faults) == newer + FaultIds(v.faults)
    ensures Distinct(FaultIds(v.faults)) ==> Distinct(FaultIds(Fold(v, events).faults))
    decreases |events|
  {
    if events == [] {
      assert FaultIds(v.faults) == [] + FaultIds(v.faults);
    } else {
      var w := HandleSSE(v, events[0]);
      var before, after := FaultIds(v.faults), FaultIds(w.faults);
      FirstOrRest(events, "");
      IdsAfterOne(v, events[0]);
      NewestFirst(w, events[1..]);
      var newer :| FaultIds(Fold(w, events[1..]).faults) == newer + after;
      if after != before {
        assert newer + after == (newer + [after[0]]) + before;
      }
    }
  }

  // ---------------------------------------------------------------- folding in pieces

  lemma {:induction false} FaultsSplit(m: map<string, Fault>, a: seq<Event>, b: seq<Event>)
    ensures FaultsAfter(m, a + b) == FaultsAfter(FaultsAfter(m, a), b)
    decreases |a|
  {
    if a == [] {
      assert a + b == b;
    } else {
      assert (a + b)[1..] == a[1..] + b;
      FaultsSplit(PutFault(m, a[0]), a[1..], b);
    }
  }

  lemma {:induction false} AssetsSplit(m: map<string, AssetRecord>, a: seq<Event>, b: seq<Event>)
    ensures AssetsAfter(m, a + b) == AssetsAfter(AssetsAfter(m, a), b)
    decreases |a|
  {
    if a == [] {
      assert a + b == b;
    } else {
      assert (a + b)[1..] == a[1..] + b;
      AssetsSplit(PutAsset(m, a[0]), a[1..], b);
    }
  }

  lemma {:induction false} ActivitySplit(q: seq<Activity>, a: seq<Event>, b: seq<Event>)
    ensures ActivityAfter(q, a + b) == ActivityAfter(ActivityAfter(q, a), b)
    decreases |a|
  {
    if a == [] {
      assert a + b == b;
    } else {
      assert (a + b)[1..] == a[1..] + b;
      ActivitySplit(PutActivity(q, a[0]), a[1..], b);
    }
  }

  // ---------------------------------------------------------------- replaying stale events

  /** Whether some event decides what a fault map says about `k`. */
  predicate TouchesFault(events: seq<Event>, k: string) {
    exists e :: e in events && (e.ResetEvent? || (e.FaultEvent? && e.fault.id == k))
  }

  predicate TouchesAsset(events: seq<Event>, k: string) {
    exists e :: e in events && e.AssetEvent? && e.id == k
  }

  predicate HasReset(events: seq<Event>) {
    exists e :: e in events && e.ResetEvent?
  }

  predicate HasActivity(events: seq<Event>) {
    exists e :: e in events && e.ActivityEvent?
  }

  /** Each of the four looks at the first event, then at the rest. */
  lemma FirstOrRest(events: seq<Event>, k: string)
    requires events != []
    ensures TouchesFault(events, k) <==> TouchesFault([events[0]], k) || TouchesFault(events[1..], k)
    ensures TouchesAsset(events, k) <==> TouchesAsset([events[0]], k) || TouchesAsset(events[1..], k)
    ensures HasReset(events) <==> events[0].ResetEvent? || HasReset(events[1..])
    ensures HasActivity(events) <==> events[0].ActivityEvent? || HasActivity(events[1..])
  {
    assert events == [events[0]] + events[1..];
    assert events[0] in events;
  }

  ghost function At<V>(m: map<string, V>, k: string): Option<V> {
    if k in m then Some(m[k]) else None
  }

  lemma {:induction false} FaultDecided(m: map<string, Fault>, n: map<string, Fault>, events: seq<Event>, k: string)
    ensures TouchesFault(events, k) ==> At(FaultsAfter(m, events), k) == At(FaultsAfter(n, events), k)
    ensures !TouchesFault(events, k) ==> At(FaultsAfter(m, events), k) == At(m, k)
    ensures At(m, k) == At(n, k) ==> At(FaultsAfter(m, events), k) == At(FaultsAfter(n, events), k)
    decreases |events|
  {
    if events != [] {
      FaultDecided(PutFault(m, events[0]), PutFault(n, events[0]), events[1..], k);
      FirstOrRest(events, k);
    }
  }

  /** Replaying events already reflected in a fault map changes nothing, resets included. */
  lemma FaultReplay(m: map<string, Fault>, events: seq<Event>)
    ensures FaultsAfter(FaultsAfter(m, events), events) == FaultsAfter(m, events)
  {
    var once := FaultsAfter(m, events);
    var twice := FaultsAfter(once, events);
    forall k: string
      ensures At(twice, k) == At(once, k)
    {
      FaultDecided(once, m, events, k);
    }
    MapsByLookup(twice, once);
  }

  lemma MapsByLookup<V>(m: map<string, V>, n: map<string, V>)
    requires forall k: string :: At(m, k) == At(n, k)
    ensures m == n
  {
    forall k: string
      ensures k in m <==> k in n
      ensures k in m ==> m[k] == n[k]
    {
      assert At(m, k) == At(n, k);
    }
  }

  /** Same assets, of the same kind; they may differ in health and link. */
  ghost predicate SameAssets(m: map<string, AssetRecord>, n: map<string, AssetRecord>) {
    && m.Keys == n.Keys
    && forall k :: k in m ==> m[k].id == n[k].id && m[k].kind == n[k].kind
  }

  lemma AssetDecidedOnce(m: map<string, AssetRecord>, n: map<string, AssetRecord>, e: Event, k: string)
    requires SameAssets(m, n)
    ensures SameAssets(PutAsset(m, e), m) && SameAssets(PutAsset(m, e), PutAsset(n, e))
    ensures TouchesAsset([e], k) ==> At(PutAsset(m, e), k) == At(PutAsset(n, e), k)
    ensures !TouchesAsset([e], k) ==> At(PutAsset(m, e), k) == At(m, k)
    ensures At(m, k) == At(n, k) ==> At(PutAsset(m, e), k) == At(PutAsset(n, e), k)
  {
    assert [e][0] == e;
  }

  lemma {:induction false} AssetDecided(
    m: map<string, AssetRecord>, n: map<string, AssetRecord>, events: seq<Event>, k: string)
    requires SameAssets(m, n)
    ensures SameAssets(AssetsAfter(m, events), m)
    ensures TouchesAsset(events, k) ==> At(AssetsAfter(m, events), k) == At(AssetsAfter(n, events), k)
    ensures !TouchesAsset(events, k) ==> At(AssetsAfter(m, events), k) == At(m, k)
    ensures At(m, k) == At(n, k) ==> At(AssetsAfter(m, events), k) == At(AssetsAfter(n, events), k)
    decreases |events|
  {
    if events != [] {
      AssetDecidedOnce(m, n, events[0], k);
      AssetDecided(PutAsset(m, events[0]), PutAsset(n, events[0]), events[1..], k);
      FirstOrRest(events, k);
    }
  }

  /** Likewise for assets. */
  lemma AssetReplay(m: map<string, AssetRecord>, events: seq<Event>)
    ensures AssetsAfter(AssetsAfter(m, events), events) == AssetsAfter(m, events)
  {
    var once := AssetsAfter(m, events);
    var twice := AssetsAfter(once, events);
    AssetDecided(m, m, events, "");
    forall k: string
      ensures At(twice, k) == At(once, k)
    {
      AssetDecided(once, m, events, k);
    }
    MapsByLookup(twice, once);
  }

  /**
   * Activity is not idempotent. A replay of `stale` onto the feed it led to is harmless exactly
   * when `stale` holds no activity, or holds a reset and so rebuilds the feed from nothing.
   */
  lemma {:induction false} ActivityReplay(q: seq<Activity>, stale: seq<Event>)
    ensures var once := ActivityAfter(q, stale);
      ActivityAfter(once, stale) == once
      <==> HasReset(stale) || !HasActivity(stale)
  {
    var once := ActivityAfter(q, stale);
    if HasReset(stale) {
      ActivityForgets(q, once, stale);
    } else {
      ActivityGrows(once, stale);
    }
  }

  lemma {:induction false} ActivityForgets(p: seq<Activity>, q: seq<Activity>, events: seq<Event>)
    requires p == q || HasReset(events)
    ensures ActivityAfter(p, events) == ActivityAfter(q, events)
    decreases |events|
  {
    if events != [] {
      FirstOrRest(events, "");
      ActivityForgets(PutActivity(p, events[0]), PutActivity(q, events[0]), events[1..]);
    }
  }

  lemma {:induction false} ActivityGrows(q: seq<Activity>, events: seq<Event>)
    requires !HasReset(events)
    ensures |ActivityAfter(q, events)| >= |q|
    ensures |ActivityAfter(q, events)| == |q| <==> !HasActivity(events)
    ensures |ActivityAfter(q, events)| == |q| ==> ActivityAfter(q, events) == q
    decreases |events|
  {
    if events != [] {
      FirstOrRest(events, "");
      ActivityGrows(PutActivity(q, events[0]), events[1..]);
    }
  }

  // ---------------------------------------------------------------- the Gateway's events

  /** The three parts of a store that the dashboard copies. */
  ghost predicate Follows(s: Store, events: seq<Event>, t: Store) {
    && FaultsAfter(s.faults, events) == t.faults
    && AssetsAfter(s.assets, events) == t.assets
    && ActivityAfter(s.activity, events) == t.activity
  }

  lemma OneEvent(s: Store, e: Event)
    ensures FaultsAfter(s.faults, [e]) == PutFault(s.faults, e)
    ensures AssetsAfter(s.assets, [e]) == PutAsset(s.assets, e)
    ensures ActivityAfter(s.activity, [e]) == PutActivity(s.activity, e)
  {
    assert [e][1..] == [];
  }

  lemma FollowsThen(s: Store, a: seq<Event>, t: Store, b: seq<Event>, u: Store)
    requires Follows(s, a, t) && Follows(t, b, u)
    ensures Follows(s, a + b, u)
  {
    FaultsSplit(s.faults, a, b);
    AssetsSplit(s.assets, a, b);
    ActivitySplit(s.activity, a, b);
  }

  lemma FaultWriteFollows(s: Store, f: Fault)
    ensures Follows(s, [FaultEvent(f)], SetFault(s, f))
  {
    OneEvent(s, FaultEvent(f));
  }

  lemma AssetWriteFollows(s: Store, a: string, state: Health, link: Option<string>)
    requires s.Valid() && a in s.assets
    ensures Follows(s, [AssetEvent(a, state, link)], SetAsset(s, s.assets[a].(state := state, link := link)))
  {
    OneEvent(s, AssetEvent(a, state, link));
  }

  lemma QuietEventFollows(s: Store, e: Event)
    requires e.NotificationEvent? || e.DecisionEvent? || (e.AssetEvent? && e.id !in s.assets)
    ensures Follows(s, [e], s)
  {
    OneEvent(s, e);
  }

  lemma TransitionFollows(s: Store, fault: Fault, asset: string, status: Status)
    requires s.Valid()
    ensures var (t, events) := RunTransition(s, fault, asset, status); Follows(s, events, t)
  {
    var updated := fault.(status := status);
    FaultWriteFollows(s, updated);
    var s1 := SetFault(s, updated);
    if status == Resolved && asset != "" && asset in s1.assets {
      AssetWriteFollows(s, asset, Healthy, None);
      var healed := SetAsset(s, s.assets[asset].(state := Healthy, link := None));
      FaultWriteFollows(healed, updated);
      FollowsThen(s, [AssetEvent(asset, Healthy, None)], healed, [FaultEvent(updated)], SetFault(healed, updated));
    }
  }

  lemma CreateFollows(
    s: Store, id: string, notificationId: string, request: CreateRequest, defaultLabels: seq<string>)
    requires s.Valid()
    ensures var (t, events) := RunCreate(s, id, notificationId, request, defaultLabels); Follows(s, events, t)
  {
    var fault := NewFault(id, request, defaultLabels);
    var note := NotificationEvent(NewNotification(notificationId, id, request));
    var assetEvent := AssetEvent(request.asset, Faulted, Some(id));
    var s1 := SetFault(s, fault);
    FaultWriteFollows(s, fault);
    QuietEventFollows(s1, note);
    FollowsThen(s, [FaultEvent(fault)], s1, [note], s1);
    SetFaultKeepsStore(s, fault);
    if request.asset in s1.assets {
      AssetWriteFollows(s1, request.asset, Faulted, Some(id));
      var s2 := SetAsset(s1, s1.assets[request.asset].(state := Faulted, link := Some(id)));
      FollowsThen(s, [FaultEvent(fault)] + [note], s1, [assetEvent], s2);
    } else {
      QuietEventFollows(s1, assetEvent);
      FollowsThen(s, [FaultEvent(fault)] + [note], s1, [assetEvent], s1);
    }
  }

  /** After the healthy events for `order`, exactly the listed assets are healthy and unlinked. */
  lemma {:induction false} HealthyEventsHeal(s: Store, order: seq<string>)
    ensures FaultsAfter(s.faults, HealthyEvents(order)) == s.faults
    ensures ActivityAfter(s.activity, HealthyEvents(order)) == s.activity
    ensures AssetsAfter(s.assets, HealthyEvents(order))
         == map a | a in s.assets :: if a in order then s.assets[a].(state := Healthy, link := None) else s.assets[a]
    decreases |order|
  {
    if order != [] {
      var events := HealthyEvents(order);
      assert events[1..] == HealthyEvents(order[1..]);
      assert order == [order[0]] + order[1..];
      HealthyEventsHeal(s.(assets := PutAsset(s.assets, events[0])), order[1..]);
    }
  }

  lemma ResetFollows(s: Store)
    requires s.Valid()
    ensures Follows(s, [ResetEvent] + HealthyEvents(s.order), Wiped(s))
  {
    var emptied := s.(faults := map[], activity := []);
    OneEvent(s, ResetEvent);
    HealthyEventsHeal(emptied, s.order);
    assert Wiped(s).assets
        == map a | a in s.assets :: if a in s.order then s.assets[a].(state := Healthy, link := None) else s.assets[a];
    FollowsThen(s, [ResetEvent], emptied, HealthyEvents(s.order), Wiped(s));
  }

  /** Every Gateway section publishes exactly the deltas of what it did to faults, assets and activity. */
  lemma RunFollows(s: Store, op: Op)
    requires s.Valid()
    ensures var (t, events) := Run(s, op); Follows(s, events, t)
  {
    match op
    case Create(id, notificationId, request, labels) => CreateFollows(s, id, notificationId, request, labels);
    case Patch(f, status) =>
      if f in s.faults { TransitionFollows(s, s.faults[f], s.faults[f].asset, status); }
    case ExecutorStatus(f, asset, status) =>
      if f in s.faults { TransitionFollows(s, s.faults[f], asset, status); }
    case Diagnose(f, patch) =>
      if f in s.faults {
        FaultWriteFollows(s, s.faults[f].(diagnosis := s.faults[f].diagnosis.Overlay(patch)));
      }
    case Deny(f) =>
      if f in s.faults {
        var denied := s.faults[f].(status := Denied);
        FaultWriteFollows(s, denied);
        QuietEventFollows(SetFault(s, denied), DecisionEvent(f, false));
        FollowsThen(s, [FaultEvent(denied)], SetFault(s, denied), [DecisionEvent(f, false)], SetFault(s, denied));
      }
    case Grant(f, token) => QuietEventFollows(s, DecisionEvent(f, true));
    case Post(activity) => OneEvent(s, ActivityEvent(activity));
    case ResetAll => ResetFollows(s);
  }
}
