/** What a fault's status says, in every run, is the last thing that was written about the fault. */
module StatusHistory {
  import opened Basics
  import opened GatewayState
  import opened Approval
  import opened ApprovalSafety

  /** What an entry says about the status of `fault`: nothing, a status, or that the fault is gone. */
  datatype Word = Silent | Says(status: Status) | Gone

  function WordOf(entry: Entry, fault: string): Word {
    match entry
    case AllReset => Gone
    case FaultCreated(f, _) => if f == fault then Says(Detected) else Silent
    case FaultDenied(f) => if f == fault then Says(Denied) else Silent
    case FaultPatched(f, _, status) => if f == fault then Says(status) else Silent
    case FaultWritten(f, _, status) => if f == fault then Says(status) else Silent
    case _ => Silent
  }

  function LastWord(trace: seq<Entry>, fault: string): Word {
    if trace == [] then Gone
    else
      var last := WordOf(trace[|trace| - 1], fault);
      if last.Silent? then LastWord(trace[..|trace| - 1], fault) else last
  }

  /** Entry `i` says so, and nothing later speaks of the fault or resets. */
  ghost predicate LastSaidAt(trace: seq<Entry>, fault: string, status: Status, i: nat) {
    i < |trace| && WordOf(trace[i], fault) == Says(status)
    && forall j :: i < j < |trace| ==> WordOf(trace[j], fault).Silent?
  }

  lemma {:induction false} LastWordMeans(trace: seq<Entry>, fault: string, status: Status)
    ensures LastWord(trace, fault) == Says(status) <==> exists i: nat :: LastSaidAt(trace, fault, status, i)
  {
    if trace != [] {
      var n := |trace| - 1;
      var front := trace[..n];
      if WordOf(trace[n], fault).Silent? {
        LastWordMeans(front, fault, status);
        if i: nat :| LastSaidAt(front, fault, status, i) {
          assert LastSaidAt(trace, fault, status, i);
        }
        if i: nat :| LastSaidAt(trace, fault, status, i) {
          assert LastSaidAt(front, fault, status, i);
        }
      } else {
        if i: nat :| LastSaidAt(trace, fault, status, i) {
          assert i == n;
        }
        if WordOf(trace[n], fault) == Says(status) {
          assert LastSaidAt(trace, fault, status, n);
        }
      }
    }
  }

  ghost predicate Told(store: Store, trace: seq<Entry>, fault: string) {
    if fault in store.faults then LastWord(trace, fault) == Says(store.faults[fault].status)
    else LastWord(trace, fault) == Gone
  }

  lemma OneEntry(trace: seq<Entry>, entry: Entry, fault: string)
    ensures LastWord(trace + [entry], fault)
         == if WordOf(entry, fault).Silent? then LastWord(trace, fault) else WordOf(entry, fault)
  {
    assert (trace + [entry])[..|trace|] == trace;
  }

  lemma {:induction false} SilentNotes(trace: seq<Entry>, notes: seq<Entry>, fault: string)
    requires forall x :: x in notes ==> WordOf(x, fault).Silent?
    ensures LastWord(trace + notes, fault) == LastWord(trace, fault)
    decreases |notes|
  {
    if notes == [] {
      assert trace + notes == trace;
    } else {
      var n := |notes| - 1;
      assert (trace + notes)[..|trace + notes| - 1] == trace + notes[..n];
      assert (trace + notes)[|trace + notes| - 1] == notes[n];
      SilentNotes(trace, notes[..n], fault);
    }
  }

  lemma TransitionTold(store: Store, trace: seq<Entry>, f: string, asset: string, status: Status, fault: string)
    requires store.Valid() && f in store.faults && Told(store, trace, fault)
    ensures var t := RunTransition(store, store.faults[f], asset, status).0;
      Told(t, trace + [FaultPatched(f, store.faults[f].asset, status)], fault)
      && Told(t, trace + [FaultWritten(f, asset, status)], fault)
  {
    OneEntry(trace, FaultPatched(f, store.faults[f].asset, status), fault);
    OneEntry(trace, FaultWritten(f, asset, status), fault);
  }

  /** Every section writes down exactly what it did to the fault's status. */
  lemma SectionTold(store: Store, trace: seq<Entry>, op: Op, fault: string)
    requires store.Valid() && Told(store, trace, fault)
    ensures Told(Run(store, op).0, trace + History(store, op), fault)
  {
    assert trace + [] == trace;
    match op
    case Create(id, _, request, _) => OneEntry(trace, FaultCreated(id, request.asset), fault);
    case Patch(f, status) =>
      if f in store.faults { TransitionTold(store, trace, f, store.faults[f].asset, status, fault); }
    case ExecutorStatus(f, asset, status) =>
      if f in store.faults { TransitionTold(store, trace, f, asset, status, fault); }
    case Deny(f) => if f in store.faults { OneEntry(trace, FaultDenied(f), fault); }
    case ResetAll => OneEntry(trace, AllReset, fault);
    case _ =>
  }

  lemma NotesAreSilent(s: Sys, step: Step, fault: string)
    requires Enabled(s, step)
    ensures forall x :: x in Notes(s, step) ==> WordOf(x, fault).Silent?
  {
  }

  /** The Gateway section of a step, on its own. */
  lemma PartTold(s: Sys, step: Step, fault: string)
    requires s.store.Valid() && Enabled(s, step) && Told(s.store, s.trace, fault)
    ensures Told(Next(s, step).store, s.trace + SectionHistory(s, step), fault)
  {
    StepParts(s, step);
    if SectionOf(s, step).Some? {
      SectionTold(s.store, s.trace, SectionOf(s, step).value, fault);
    } else {
      assert s.trace + [] == s.trace;
    }
  }

  lemma NextTold(s: Sys, step: Step, fault: string)
    requires s.store.Valid() && Enabled(s, step) && Told(s.store, s.trace, fault)
    ensures Told(Next(s, step).store, Next(s, step).trace, fault)
  {
    PartTold(s, step, fault);
    NotesAreSilent(s, step, fault);
    SilentNotes(s.trace + SectionHistory(s, step), Notes(s, step), fault);
    NextTrace(s, step);
  }

  lemma {:induction false} RunTold(s: Sys, steps: seq<Step>, fault: string)
    requires IdsAgree(s) && ValidRun(s, steps) && Told(s.store, s.trace, fault)
    ensures Told(After(s, steps).store, After(s, steps).trace, fault)
    decreases |steps|
  {
    if steps != [] {
      NextKeepsIds(s, steps[0]);
      NextTold(s, steps[0], fault);
      RunTold(Next(s, steps[0]), steps[1..], fault);
    }
  }

  /**
   * In every run a fault is stored with a status exactly when the last thing written about it since the
   * last reset is that status: "detected" at its creation, "denied" at a denial, and what a patch or an
   * executor wrote otherwise.
   */
  lemma StatusIsItsHistory(init: Sys, steps: seq<Step>, fault: string, status: Status)
    requires Initial(init) && ValidRun(init, steps)
    ensures var s := After(init, steps);
      fault in s.store.faults && s.store.faults[fault].status == status
      <==> exists i: nat :: LastSaidAt(s.trace, fault, status, i)
  {
    RunTold(init, steps, fault);
    LastWordMeans(After(init, steps).trace, fault, status);
  }

  // ---------------------------------------------------------------- one step

  /** The status that a step gives to a stored fault, told from the step alone. */
  function StatusGiven(s: Sys, step: Step, fault: string): Option<Status> {
    match step
    case Write(Create(id, _, _, _)) => if id == fault then Some(Detected) else None
    case Write(Patch(f, status)) => if f == fault then Some(status) else None
    case Write(Deny(f)) => if f == fault then Some(Denied) else None
    case OfExecutor(e, BeginRun) => if e < |s.executors| && s.executors[e].fault == fault then Some(Remediating) else None
    case OfExecutor(e, MarkResolved) => if e < |s.executors| && s.executors[e].fault == fault then Some(Resolved) else None
    case _ => None
  }

  /**
   * A fault becomes resolved only by a patch that says so or by an executor's last write, and denied only
   * by a denial or a patch that says so; no other step touches a status.
   */
  lemma StatusChangesOnlySo(s: Sys, step: Step, fault: string)
    requires IdsAgree(s) && Enabled(s, step) && fault in Next(s, step).store.faults
    ensures var given := StatusGiven(s, step, fault);
      && (given.Some? ==> Next(s, step).store.faults[fault].status == given.value)
      && (given.None? ==> fault in s.store.faults && Next(s, step).store.faults[fault].status == s.store.faults[fault].status)
  {
    StepParts(s, step);
    GivenBySection(s, step, fault);
    if SectionOf(s, step).Some? {
      SectionGives(s.store, SectionOf(s, step).value, fault);
    }
  }

  lemma GivenBySection(s: Sys, step: Step, fault: string)
    requires Enabled(s, step)
    ensures StatusGiven(s, step, fault)
         == if SectionOf(s, step).Some? then StatusOf(SectionOf(s, step).value, fault) else None
  {
  }

  function StatusOf(op: Op, fault: string): Option<Status> {
    match op
    case Create(id, _, _, _) => if id == fault then Some(Detected) else None
    case Patch(f, status) => if f == fault then Some(status) else None
    case Deny(f) => if f == fault then Some(Denied) else None
    case ExecutorStatus(f, _, status) => if f == fault then Some(status) else None
    case _ => None
  }

  lemma SectionGives(store: Store, op: Op, fault: string)
    requires store.Valid() && fault in Run(store, op).0.faults
    ensures var t := Run(store, op).0;
      && (StatusOf(op, fault).Some? ==> t.faults[fault].status == StatusOf(op, fault).value)
      && (StatusOf(op, fault).None? ==> fault in store.faults && t.faults[fault].status == store.faults[fault].status)
  {
  }
}
