/**
 * The Gateway's handlers and the executor's two helpers as methods on the store, each proved to run
 * the section of the same name. Ids, tokens and default labels come in as parameters.
 */
module GatewayRouter {
  import opened Basics
  import opened GatewayState
  import opened EventBroker
  import opened GatewayStores

  datatype HttpError = FaultNotFound

  /** Publishing leaves the store itself alone. */
  method Publish(store: GatewayStore, event: Event)
    requires store.Valid()
    modifies store.sse`log, store.sse.queues`items
    ensures store.Valid() && store.Model() == old(store.Model())
    ensures store.sse.log == old(store.sse.log) + [event]
  {
    store.sse.Publish(event);
  }

  /** A new fault takes over its asset, if the store knows the asset. */
  method MarkFaulted(store: GatewayStore, assetId: string, id: string)
    requires store.Valid()
    modifies store`assets, store`assetOrder
    ensures store.Valid()
    ensures store.Model() == (if assetId in old(store.assets)
      then SetAsset(old(store.Model()), old(store.assets)[assetId].(state := Faulted, link := Some(id)))
      else old(store.Model()))
  {
    if assetId in store.assets {
      var asset := store.assets[assetId];
      SetAssetKeepsStore(store.Model(), assetId, Faulted, Some(id));
      store.SetAsset(AssetRecord(asset.id, asset.kind, Faulted, Some(id)));
    }
  }

  method CreateFault(
    store: GatewayStore, id: string, notificationId: string, body: CreateRequest, defaultLabels: seq<string>)
    returns (evt: Fault)
    requires store.Valid()
    modifies store, store.sse`log, store.sse.queues`items
    ensures store.Ran(Create(id, notificationId, body, defaultLabels))
    ensures evt == NewFault(id, body, defaultLabels)
  {
    var labels := if body.labels == [] then defaultLabels else body.labels;
    evt := Fault(id, body.scenario, body.asset, Detected, body.extract, labels,
                 Diagnosis(None, None, body.kbId, None, None));
    SetFaultKeepsStore(store.Model(), evt);
    store.CreateFaultEvent(evt);
    MarkFaulted(store, body.asset, id);
    var note := NewNotification(notificationId, id, body);
    store.CreateNotification(note);
    AnnounceFault(store, evt, note);
  }

  /** A new fault is announced, then its notification, then the asset it was found on. */
  method AnnounceFault(store: GatewayStore, evt: Fault, note: Notification)
    requires store.Valid()
    modifies store.sse`log, store.sse.queues`items
    ensures store.Valid() && store.Model() == old(store.Model())
    ensures store.sse.log
         == old(store.sse.log) + [FaultEvent(evt), NotificationEvent(note), AssetEvent(evt.asset, Faulted, Some(evt.id))]
  {
    Publish(store, FaultEvent(evt));
    Publish(store, NotificationEvent(note));
    Publish(store, AssetEvent(evt.asset, Faulted, Some(evt.id)));
  }

  method UpdateFaultStatus(store: GatewayStore, faultId: string, status: Status)
    returns (r: Result<Fault, HttpError>)
    requires store.Valid()
    modifies store, store.sse`log, store.sse.queues`items
    ensures store.Ran(Patch(faultId, status))
    ensures r == if faultId in old(store.faultEvents)
      then Ok(old(store.faultEvents)[faultId].(status := status)) else Err(FaultNotFound)
  {
    var updated := store.UpdateFaultStatus(faultId, status);
    if updated.None? {
      return Err(FaultNotFound);
    }
    TransitionKeepsStore(old(store.Model()), old(store.faultEvents)[faultId], updated.value.asset, status);
    HealIfResolved(store, updated.value.asset, status);
    Publish(store, FaultEvent(updated.value));
    return Ok(updated.value);
  }

  /** A resolved fault returns its asset to healthy, if the asset is named and known. */
  method HealIfResolved(store: GatewayStore, assetId: string, status: Status)
    requires store.Valid()
    modifies store`assets, store`assetOrder, store.sse`log, store.sse.queues`items
    ensures store.Valid()
    ensures var heals := status == Resolved && assetId != "" && assetId in old(store.assets);
      && store.Model() == (if heals
           then SetAsset(old(store.Model()), old(store.assets)[assetId].(state := Healthy, link := None))
           else old(store.Model()))
      && store.sse.log == old(store.sse.log) + (if heals then [AssetEvent(assetId, Healthy, None)] else [])
  {
    if status == Resolved && assetId != "" && assetId in store.assets {
      var asset := store.assets[assetId];
      SetAssetKeepsStore(store.Model(), assetId, Healthy, None);
      store.SetAsset(AssetRecord(asset.id, asset.kind, Healthy, None));
      Publish(store, AssetEvent(assetId, Healthy, None));
    }
  }

  method UpdateFaultDiagnosis(store: GatewayStore, faultId: string, patch: Diagnosis)
    returns (r: Result<Fault, HttpError>)
    requires store.Valid()
    modifies store, store.sse`log, store.sse.queues`items
    ensures store.Ran(Diagnose(faultId, patch))
    ensures r.Ok? <==> faultId in old(store.faultEvents)
  {
    var updated := store.UpdateFaultFields(faultId, patch);
    if updated.None? {
      return Err(FaultNotFound);
    }
    SetFaultKeepsStore(old(store.Model()), updated.value);
    Publish(store, FaultEvent(updated.value));
    return Ok(updated.value);
  }

  /** The denying half of `post_decision`; it ends without touching the asset. */
  method DenyFault(store: GatewayStore, faultId: string) returns (r: Result<(), HttpError>)
    requires store.Valid()
    modifies store, store.sse`log, store.sse.queues`items
    ensures store.Ran(Deny(faultId))
    ensures r.Ok? <==> faultId in old(store.faultEvents)
  {
    var updated := store.UpdateFaultStatus(faultId, Denied);
    if updated.None? {
      return Err(FaultNotFound);
    }
    SetFaultKeepsStore(old(store.Model()), updated.value);
    Publish(store, FaultEvent(updated.value));
    Publish(store, DecisionEvent(faultId, false));
    return Ok(());
  }

  /** The last section of the approving half, once the token has come back. */
  method GrantApproval(store: GatewayStore, faultId: string, token: string)
    requires store.Valid()
    modifies store, store.sse`log, store.sse.queues`items
    ensures store.Ran(Grant(faultId, token))
  {
    store.SetPendingToken(faultId, token);
    Publish(store, DecisionEvent(faultId, true));
  }

  /** One line on the activity feed, by the agent or by the executor's narration. */
  method PostActivity(store: GatewayStore, activity: Activity)
    requires store.Valid()
    modifies store, store.sse`log, store.sse.queues`items
    ensures store.Ran(Post(activity))
  {
    store.CreateActivity(activity);
    Publish(store, ActivityEvent(activity));
  }

  /** The executor's status write, for the fault and asset it was started with. */
  method SetStatus(store: GatewayStore, faultId: string, assetId: string, status: Status)
    requires store.Valid()
    modifies store, store.sse`log, store.sse.queues`items
    ensures store.Ran(ExecutorStatus(faultId, assetId, status))
  {
    var updated := store.UpdateFaultStatus(faultId, status);
    if updated.None? {
      return;
    }
    TransitionKeepsStore(old(store.Model()), old(store.faultEvents)[faultId], assetId, status);
    HealIfResolved(store, assetId, status);
    Publish(store, FaultEvent(updated.value));
  }

  /** One asset event per asset of a healed fleet, in the store's order. */
  method AnnounceFleet(store: GatewayStore)
    requires store.Valid()
    requires forall a :: a in store.assets ==> store.assets[a].state == Healthy
    modifies store.sse`log, store.sse.queues`items
    ensures store.Valid() && store.Model() == old(store.Model())
    ensures store.sse.log == old(store.sse.log) + HealthyEvents(store.assetOrder)
  {
    ghost var events := HealthyEvents(store.assetOrder);
    var i := 0;
    while i < |store.assetOrder|
      invariant 0 <= i <= |store.assetOrder|
      invariant store.Valid()
      invariant store.sse.log == old(store.sse.log) + events[..i]
    {
      var asset := store.assets[store.assetOrder[i]];
      assert events[..i + 1] == events[..i] + [AssetEvent(asset.id, asset.state, None)];
      Publish(store, AssetEvent(asset.id, asset.state, None));
      i := i + 1;
    }
    assert events[..i] == events;
  }

  /** The Gateway part of a presenter reset: wipe the store, then announce every asset as healthy. */
  method PresenterReset(store: GatewayStore)
    requires store.Valid()
    modifies store, store.sse`log, store.sse.queues`items
    ensures store.Ran(ResetAll)
  {
    store.Reset();
    AnnounceFleet(store);
  }
}
