/** The in-memory store: the object whose methods the Gateway's handlers call. */
module GatewayStores {
  import opened Basics
  import opened GatewayState
  import opened EventBroker

  class GatewayStore {
    var faultEvents: map<string, Fault>
    var notifications: map<string, Notification>
    var activityEvents: seq<Activity>
    var assets: map<string, AssetRecord>
    var assetOrder: seq<string>
    var pendingTokens: map<string, string>
    const sse: SSEBroker<Event>

    ghost function Model(): Store
      reads this
    {
      Store(faultEvents, assetOrder, assets, activityEvents, notifications, pendingTokens)
    }

    ghost predicate Valid()
      reads this, sse, sse.queues
    {
      Model().Valid() && sse.Valid()
    }

    /** From the old state to this one the store ran exactly the section `op` and published its events. */
    twostate predicate Ran(op: Op)
      reads this, sse, sse.queues
    {
      && Valid()
      && Model() == Run(old(Model()), op).0
      && sse.log == old(sse.log) + Run(old(Model()), op).1
      && sse.queues == old(sse.queues) && sse.since == old(sse.since)
    }

    constructor ()
      ensures Valid() && fresh(sse)
      ensures Model() == Store(map[], [], map[], [], map[], map[]) && sse.log == []
    {
      faultEvents, notifications, activityEvents := map[], map[], [];
      assets, assetOrder, pendingTokens := map[], [], map[];
      sse := new SSEBroker();
    }

    method CreateFaultEvent(fault: Fault)
      modifies this`faultEvents
      ensures faultEvents == old(faultEvents)[fault.id := fault]
    {
      faultEvents := faultEvents[fault.id := fault];
    }

    method UpdateFaultStatus(faultId: string, status: Status) returns (updated: Option<Fault>)
      modifies this`faultEvents
      ensures updated == if faultId in old(faultEvents) then Some(old(faultEvents)[faultId].(status := status)) else None
      ensures faultEvents == if updated.Some? then old(faultEvents)[faultId := updated.value] else old(faultEvents)
    {
      if faultId !in faultEvents {
        return None;
      }
      updated := Some(faultEvents[faultId].(status := status));
      faultEvents := faultEvents[faultId := updated.value];
    }

    method UpdateFaultFields(faultId: string, patch: Diagnosis) returns (updated: Option<Fault>)
      modifies this`faultEvents
      ensures updated == if faultId in old(faultEvents)
        then Some(old(faultEvents)[faultId].(diagnosis := old(faultEvents)[faultId].diagnosis.Overlay(patch))) else None
      ensures faultEvents == if updated.Some? then old(faultEvents)[faultId := updated.value] else old(faultEvents)
    {
      if faultId !in faultEvents {
        return None;
      }
      var fault := faultEvents[faultId];
      updated := Some(fault.(diagnosis := fault.diagnosis.Overlay(patch)));
      faultEvents := faultEvents[faultId := updated.value];
    }

    /** A dictionary keeps a key's place when its value is replaced. */
    method SetAsset(rec: AssetRecord)
      modifies this`assets, this`assetOrder
      ensures assets == old(assets)[rec.id := rec]
      ensures assetOrder == if rec.id in old(assets) then old(assetOrder) else old(assetOrder) + [rec.id]
    {
      if rec.id !in assets {
        assetOrder := assetOrder + [rec.id];
      }
      assets := assets[rec.id := rec];
    }

    method CreateNotification(note: Notification)
      modifies this`notifications
      ensures notifications == old(notifications)[note.id := note]
    {
      notifications := notifications[note.id := note];
    }

    method CreateActivity(activity: Activity)
      modifies this`activityEvents
      ensures activityEvents == old(activityEvents) + [activity]
    {
      activityEvents := activityEvents + [activity];
    }

    method SetPendingToken(faultId: string, token: string)
      modifies this`pendingTokens
      ensures pendingTokens == old(pendingTokens)[faultId := token]
    {
      pendingTokens := pendingTokens[faultId := token];
    }

    /** Clears everything transient, heals the assets one by one, then announces the reset. */
    method Reset()
      requires Valid()
      modifies this`faultEvents, this`notifications, this`activityEvents, this`pendingTokens, this`assets
      modifies sse`log, sse.queues`items
      ensures Valid() && Model() == Wiped(old(Model()))
      ensures sse.log == old(sse.log) + [ResetEvent]
    {
      faultEvents := map[];
      notifications := map[];
      activityEvents := [];
      pendingTokens := map[];
      HealAssets();
      sse.Publish(ResetEvent);
    }

    method HealAssets()
      requires Model().Valid()
      modifies this`assets
      ensures assets == Wiped(old(Model())).assets
    {
      ghost var before := assets;
      var i := 0;
      while i < |assetOrder|
        invariant 0 <= i <= |assetOrder|
        invariant assets.Keys == before.Keys
        invariant forall a :: a in before ==>
          assets[a] == if a in assetOrder[..i] then before[a].(state := Healthy, link := None) else before[a]
      {
        var rec := assets[assetOrder[i]];
        assert assetOrder[..i + 1] == assetOrder[..i] + [assetOrder[i]];
        assets := assets[assetOrder[i] := AssetRecord(rec.id, rec.kind, Healthy, None)];
        i := i + 1;
      }
      assert assetOrder[..i] == assetOrder;
    }
  }
}
