/**
 * What an asset record says, in every run, is a function of what happened to the asset's faults.
 */
module AssetHistory {
  import opened Basics
  import opened GatewayState
  import opened Approval
  import opened ApprovalSafety
  import opened ApprovalRuns

  /** Entries that settle what `asset` looks like from there on. */
  predicate Decides(entry: Entry, asset: string) {
    match entry
    case FaultCreated(_, x) => x == asset
    case FaultPatched(_, x, Resolved) => x == asset
    case FaultWritten(_, x, Resolved) => x == asset
    case AllReset => true
    case _ => false
  }

  /** The last deciding entry for the asset created `fault`: nothing has resolved or reset it since. */
  ghost predicate LastWasCreation(trace: seq<Entry>, asset: string, fault: string) {
    exists i :: 0 <= i < |trace| && trace[i] == FaultCreated(fault, asset)
      && forall j :: i < j < |trace| ==> !Decides(trace[j], asset)
  }

  function LinkFrom(trace: seq<Entry>, asset: string): Option<string> {
    if trace == [] then None
    else
      var last := trace[|trace| - 1];
      if !Decides(last, asset) then LinkFrom(trace[..|trace| - 1], asset)
      else if last.FaultCreated? then Some(last.fault)
      else None
  }

  lemma {:induction false} LinkMeans(trace: seq<Entry>, asset: string, fault: string)
    ensures LinkFrom(trace, asset) == Some(fault) <==> LastWasCreation(trace, asset, fault)
  {
    if trace != [] {
      var n := |trace| - 1;
      var front := trace[..n];
      LinkMeans(front, asset, fault);
      if Decides(trace[n], asset) {
        if LastWasCreation(trace, asset, fault) {
          var i :| 0 <= i < |trace| && trace[i] == FaultCreated(fault, asset)
            && forall j :: i < j < |trace| ==> !Decides(trace[j], asset);
          assert i == n;
        }
      } else {
        if LastWasCreation(trace, asset, fault) {
          var i :| 0 <= i < |trace| && trace[i] == FaultCreated(fault, asset)
            && forall j :: i < j < |trace| ==> !Decides(trace[j], asset);
          assert front[i] == FaultCreated(fault, asset);
        }
        if LastWasCreation(front, asset, fault) {
          var i :| 0 <= i < |front| && front[i] == FaultCreated(fault, asset)
            && forall j :: i < j < |front| ==> !Decides(front[j], asset);
          assert trace[i] == FaultCreated(fault, asset);
          assert forall j :: i < j < n ==> trace[j] == front[j];
        }
      }
    }
  }

  /** The record of a named asset says what the trace says last about it. */
  ghost predicate Told(store: Store, trace: seq<Entry>, asset: string)
    requires asset in store.assets
  {
    var rec := store.assets[asset];
    && rec.link == LinkFrom(trace, asset)
    && (rec.state == Faulted <==> rec.link.Some?)
    && (rec.link.Some? ==> rec.link.value in store.faults && store.faults[rec.link.value].asset == asset)
  }

  lemma {:induction false} NotesDoNotDecide(trace: seq<Entry>, notes: seq<Entry>, asset: string)
    requires forall x :: x in notes ==> !Decides(x, asset)
    ensures LinkFrom(trace + notes, asset) == LinkFrom(trace, asset)
    decreases |notes|
  {
    if notes == [] {
      assert trace + notes == trace;
    } else {
      var n := |notes| - 1;
      assert (trace + notes)[..|trace + notes| - 1] == trace + notes[..n];
      assert (trace + notes)[|trace + notes| - 1] == notes[n];
      NotesDoNotDecide(trace, notes[..n], asset);
    }
  }

  lemma OneEntry(trace: seq<Entry>, entry: Entry, asset: string)
    ensures LinkFrom(trace + [entry], asset)
         == if !Decides(entry, asset) then LinkFrom(trace, asset)
            else if entry.FaultCreated? then Some(entry.fault) else None
  {
    assert (trace + [entry])[..|trace|] == trace;
  }

  lemma TransitionTold(store: Store, trace: seq<Entry>, f: string, status: Status, entry: Entry, asset: string)
    requires f in store.faults
    requires entry in {FaultPatched(f, store.faults[f].asset, status), FaultWritten(f, store.faults[f].asset, status)}
    requires store.Valid() && asset != "" && asset in store.assets && f in store.faults && Told(store, trace, asset)
    ensures var target := store.faults[f].asset;
      var t := RunTransition(store, store.faults[f], target, status).0;
      asset in t.assets
      && Told(t, trace + [entry], asset)
  {
    OneEntry(trace, entry, asset);
  }

  lemma CreateTold(store: Store, trace: seq<Entry>, op: Op, asset: string)
    requires store.Valid() && asset in store.assets && Told(store, trace, asset)
    requires op.Create? && op.id !in store.faults
    ensures asset in Run(store, op).0.assets
    ensures Told(Run(store, op).0, trace + [FaultCreated(op.id, op.request.asset)], asset)
  {
    OneEntry(trace, FaultCreated(op.id, op.request.asset), asset);
  }

  lemma PatchTold(store: Store, trace: seq<Entry>, f: string, status: Status, asset: string)
    requires store.Valid() && asset != "" && asset in store.assets && Told(store, trace, asset) && f in store.faults
    ensures asset in Run(store, Patch(f, status)).0.assets
    ensures Told(Run(store, Patch(f, status)).0, trace + History(store, Patch(f, status)), asset)
  {
    TransitionTold(store, trace, f, status, FaultPatched(f, store.faults[f].asset, status), asset);
  }

  lemma WriteTold(store: Store, trace: seq<Entry>, f: string, target: string, status: Status, asset: string)
    requires store.Valid() && asset != "" && asset in store.assets && Told(store, trace, asset)
    requires f in store.faults && target == store.faults[f].asset
    ensures asset in Run(store, ExecutorStatus(f, target, status)).0.assets
    ensures Told(
      Run(store, ExecutorStatus(f, target, status)).0, trace + History(store, ExecutorStatus(f, target, status)), asset)
  {
    TransitionTold(store, trace, f, status, FaultWritten(f, target, status), asset);
  }

  lemma ResetTold(store: Store, trace: seq<Entry>, asset: string)
    requires store.Valid() && asset in store.assets
    ensures asset in Wiped(store).assets && Told(Wiped(store), trace + [AllReset], asset)
  {
    OneEntry(trace, AllReset, asset);
  }

  lemma DenyTold(store: Store, trace: seq<Entry>, f: string, asset: string)
    requires store.Valid() && asset in store.assets && Told(store, trace, asset) && f in store.faults
    ensures asset in Run(store, Deny(f)).0.assets
    ensures Told(Run(store, Deny(f)).0, trace + [FaultDenied(f)], asset)
  {
    OneEntry(trace, FaultDenied(f), asset);
  }

  lemma SectionTold(store: Store, trace: seq<Entry>, op: Op, asset: string)
    requires store.Valid() && asset != "" && asset in store.assets && Told(store, trace, asset)
    requires op.Create? ==> op.id !in store.faults
    requires op.ExecutorStatus? && op.faultId in store.faults ==> op.asset == store.faults[op.faultId].asset
    ensures asset in Run(store, op).0.assets
    ensures Told(Run(store, op).0, trace + History(store, op), asset)
  {
    assert trace + [] == trace;
    match op
    case Create(_, _, _, _) => CreateTold(store, trace, op, asset);
    case Patch(f, status) =>
      if f in store.faults { PatchTold(store, trace, f, status, asset); }
    case Deny(f) =>
      if f in store.faults { DenyTold(store, trace, f, asset); }
    case ExecutorStatus(f, target, status) =>
      if f in store.faults { WriteTold(store, trace, f, target, status, asset); }
    case ResetAll => ResetTold(store, trace, asset);
    case _ =>
  }

  lemma NotesAreNeutral(s: Sys, step: Step, asset: string)
    requires Enabled(s, step)
    ensures forall x :: x in Notes(s, step) ==> !Decides(x, asset)
  {
  }

  /** The Gateway section of a step, on its own. */
  lemma PartTold(s: Sys, step: Step, asset: string)
    requires IdsAgree(s) && Enabled(s, step)
    requires asset != "" && asset in s.store.assets && Told(s.store, s.trace, asset)
    ensures asset in Next(s, step).store.assets
    ensures Told(Next(s, step).store, s.trace + SectionHistory(s, step), asset)
  {
    StepParts(s, step);
    var op := SectionOf(s, step);
    if op.Some? {
      FreshIds(s, step);
      SectionTold(s.store, s.trace, op.value, asset);
    } else {
      assert s.trace + [] == s.trace;
    }
  }

  lemma ToldThroughNotes(store: Store, trace: seq<Entry>, notes: seq<Entry>, asset: string)
    requires asset in store.assets && Told(store, trace, asset)
    requires forall x :: x in notes ==> !Decides(x, asset)
    ensures Told(store, trace + notes, asset)
  {
    NotesDoNotDecide(trace, notes, asset);
  }

  lemma NextTold(s: Sys, step: Step, asset: string)
    requires IdsAgree(s) && Enabled(s, step)
    requires asset != "" && asset in s.store.assets && Told(s.store, s.trace, asset)
    ensures asset in Next(s, step).store.assets && Told(Next(s, step).store, Next(s, step).trace, asset)
  {
    PartTold(s, step, asset);
    NotesAreNeutral(s, step, asset);
    ToldThroughNotes(Next(s, step).store, s.trace + SectionHistory(s, step), Notes(s, step), asset);
    NextTrace(s, step);
  }

  lemma FreshIds(s: Sys, step: Step)
    requires IdsAgree(s) && Enabled(s, step) && SectionOf(s, step).Some?
    ensures var op := SectionOf(s, step).value;
      && (op.Create? ==> op.id !in s.store.faults)
      && (op.ExecutorStatus? && op.faultId in s.store.faults ==> op.asset == s.store.faults[op.faultId].asset)
  {
    var op := SectionOf(s, step).value;
    if op.Create? {
      assert op.id in s.store.faults ==> KnownFault(s, op.id, s.store.faults[op.id].asset);
    }
    if op.ExecutorStatus? {
      assert ExecutorAgrees(s, s.executors[step.e]);
    }
  }

  lemma {:induction false} RunTold(s: Sys, steps: seq<Step>, asset: string)
    requires IdsAgree(s) && ValidRun(s, steps)
    requires asset != "" && asset in s.store.assets && Told(s.store, s.trace, asset)
    ensures asset in After(s, steps).store.assets && Told(After(s, steps).store, After(s, steps).trace, asset)
    decreases |steps|
  {
    if steps != [] {
      NextKeepsIds(s, steps[0]);
      NextTold(s, steps[0], asset);
      RunTold(Next(s, steps[0]), steps[1..], asset);
    }
  }

  /**
   * In every run a named asset is faulted exactly when it carries a fault link, and it links `fault`
   * exactly when that fault's creation is the newest creation on the asset and nothing on the asset
   * was resolved, and nothing reset, since. The linked fault exists and is the asset's own.
   */
  lemma AssetIsItsHistory(init: Sys, steps: seq<Step>, asset: string)
    requires Initial(init) && ValidRun(init, steps) && asset in init.store.assets && asset != ""
    ensures var s := After(init, steps);
      && asset in s.store.assets
      && var rec := s.store.assets[asset];
      && (rec.state == Faulted <==> rec.link.Some?)
      && (forall f :: rec.link == Some(f) <==> LastWasCreation(s.trace, asset, f))
      && (rec.link.Some? ==> rec.link.value in s.store.faults && s.store.faults[rec.link.value].asset == asset)
  {
    RunTold(init, steps, asset);
    var s := After(init, steps);
    forall f: string
      ensures LinkFrom(s.trace, asset) == Some(f) <==> LastWasCreation(s.trace, asset, f)
    {
      LinkMeans(s.trace, asset, f);
    }
  }

  /** The guard on the asset id is why the empty id is left out: there, a resolve never reaches the record. */
  lemma EmptyIdStaysFaulted(init: Sys, request: CreateRequest)
    requires Initial(init) && "" in init.store.assets && request.asset == ""
    ensures var steps := [Write(Create("f", "n", request, [])), Write(Patch("f", Resolved))];
      && ValidRun(init, steps)
      && "" in After(init, steps).store.assets
      && After(init, steps).store.assets[""].state == Faulted
      && !LastWasCreation(After(init, steps).trace, "", "f")
  {
    var create := Write(Create("f", "n", request, []));
    var resolve := Write(Patch("f", Resolved));
    var s1 := Next(init, create);
    var s2 := Next(s1, resolve);
    Last(init, create);
    Then(init, [create], s1, resolve);
    assert [create] + [resolve] == [create, resolve];
    assert s2.trace == [FaultCreated("f", ""), FaultPatched("f", "", Resolved)];
    assert Decides(s2.trace[1], "");
  }
}
