/** The hardened coordinator: recover or refuse, journal, run the required steps on their routes, and
    restore on every path that got as far as beginning. */
module WorkflowCoordinator {
  import opened Common
  import opened RunOutcome
  import opened MachinePolicy

  /** How the adapter behaves when asked for a step. */
  datatype Behaviour = Returns(status: OutcomeStatus, code: string) | BreaksContract(code: string) | Throws

  /** What `prepare_run` yields: the index of the next required step, an unsupported step, or an error. */
  datatype Preparation = Ready(next: nat) | Unsupported | PrepareError(code: string)

  datatype Execution = Execution(step: StepName, machine: Machine)

  /** Why the step loop ended. `RouteFailed`: the machine could not be put on the step's route. */
  datatype Ending = Completed | StepStopped | Cancellation | Contract(code: string) | Failure | RouteFailed

  /** `returned`: how many outcomes came from the adapter; `startedFrom`: the machine when the
      transaction began. */
  datatype Report = Report(began: bool, startedFrom: Machine, required: seq<StepName>, executed: seq<Execution>,
                           outcomes: seq<StepOutcome>, returned: nat, ending: Ending,
                           restoration: Option<StepOutcome>) {
    predicate Restored() { restoration.Some? && restoration.value.status.SUCCEEDED? }
  }

  const REQUIRED: seq<StepName> := [VPN_SNAPSHOT, LOCAL_SNAPSHOT, COMPARE, VERIFY]

  const TARGET := Target(true, true)

  /** Everything outside the coordinator's control in one run. */
  datatype Script = Script(mirror: SyncStatus, workspaceBusy: bool, preparation: Preparation,
                           behaviours: seq<Behaviour>, cancels: seq<bool>)

  predicate Cancelled(script: Script, gate: nat) {
    gate < |script.cancels| && script.cancels[gate]
  }

  function BehaviourOf(script: Script, i: nat): Behaviour {
    if i < |script.behaviours| then script.behaviours[i] else Throws
  }

  predicate ValidPreparation(p: Preparation) {
    p.Ready? ==> p.next < |REQUIRED|
  }

  /** The recorded outcomes of the required steps from `start` on: position by position, all but
      perhaps the last successful, and the first `returned` of them exactly what the adapter said. */
  ghost predicate Recorded(script: Script, start: nat, outcomes: seq<StepOutcome>, returned: nat) {
    && start + |outcomes| <= |REQUIRED| && returned <= |outcomes|
    && (forall j :: 0 <= j < |outcomes| ==> outcomes[j].step == REQUIRED[start + j])
    && (forall j :: 0 <= j < |outcomes| - 1 ==> outcomes[j].status.SUCCEEDED?)
    && (forall j :: 0 <= j < returned ==>
      BehaviourOf(script, start + j) == Returns(outcomes[j].status, outcomes[j].code))
  }

  /** The steps that ran: the required ones in order, each on its route. */
  ghost predicate Routed(start: nat, executed: seq<Execution>) {
    && start + |executed| <= |REQUIRED|
    && (forall j :: 0 <= j < |executed| ==>
      executed[j].step == REQUIRED[start + j] && OnRoute(executed[j].step, executed[j].machine))
  }

  ghost predicate AllSucceeded(outcomes: seq<StepOutcome>) {
    forall j :: 0 <= j < |outcomes| ==> outcomes[j].status.SUCCEEDED?
  }

  /** Neither gate around the step's route change finds the run cancelled. */
  predicate GatesOpen(script: Script, i: nat) {
    !Cancelled(script, 2 * i) && !Cancelled(script, 2 * i + 1)
  }

  ghost predicate AllOpen(script: Script, start: nat, n: nat) {
    forall i :: start <= i < start + n ==> GatesOpen(script, i)
  }

  lemma {:induction false} OpenSnoc(script: Script, start: nat, n: nat)
    ensures AllOpen(script, start, 0)
    ensures AllOpen(script, start, n) && GatesOpen(script, start + n) ==> AllOpen(script, start, n + 1)
  {
  }

  /** Why the loop ended where it did, after `recorded` outcomes and `executed` steps. A step runs only
      through open gates; a closed gate that is reached ends the loop, and only that is a cancellation. */
  ghost predicate Explained(script: Script, start: nat, recorded: nat, executed: nat, ending: Ending) {
    var next := start + recorded;
    && AllOpen(script, start, executed)
    && match ending
       case Completed => executed == recorded
       case StepStopped => executed == recorded
       case Cancellation => executed == recorded && !GatesOpen(script, next)
       case Contract(code) => executed == recorded + 1 && BehaviourOf(script, next) == BreaksContract(code)
       case Failure => executed == recorded + 1 && BehaviourOf(script, next).Throws?
       case RouteFailed => executed == recorded && ((start > 0 && recorded == 0) || !Cancelled(script, 2 * next))
  }

  /** How the step loop can end: through all steps, on a step that did not succeed, or before the
      outcome of the current step. */
  ghost predicate Ended(start: nat, outcomes: seq<StepOutcome>, current: StepName, ending: Ending) {
    match ending
    case Completed => AllSucceeded(outcomes) && outcomes != [] && start + |outcomes| == |REQUIRED|
    case StepStopped => outcomes != [] && !outcomes[|outcomes| - 1].status.SUCCEEDED?
    case _ => AllSucceeded(outcomes) && start + |outcomes| < |REQUIRED| && current == REQUIRED[start + |outcomes|]
  }

  lemma {:induction false} RoutedSnoc(start: nat, executed: seq<Execution>, e: Execution)
    requires Routed(start, executed) && start + |executed| < |REQUIRED|
    requires e.step == REQUIRED[start + |executed|] && OnRoute(e.step, e.machine)
    ensures Routed(start, executed + [e])
  {
  }

  lemma {:induction false} RecordedSnoc(script: Script, start: nat, outcomes: seq<StepOutcome>, o: StepOutcome)
    requires Recorded(script, start, outcomes, |outcomes|) && AllSucceeded(outcomes) && start + |outcomes| < |REQUIRED|
    requires o.step == REQUIRED[start + |outcomes|]
    requires BehaviourOf(script, start + |outcomes|) == Returns(o.status, o.code)
    ensures Recorded(script, start, outcomes + [o], |outcomes| + 1)
    ensures o.status.SUCCEEDED? ==> AllSucceeded(outcomes + [o])
  {
  }

  lemma {:induction false} EndedBefore(start: nat, outcomes: seq<StepOutcome>, current: StepName)
    requires AllSucceeded(outcomes) && start + |outcomes| < |REQUIRED| && current == REQUIRED[start + |outcomes|]
    ensures forall ending: Ending :: !ending.Completed? && !ending.StepStopped? ==>
                                       Ended(start, outcomes, current, ending)
  {
  }

  lemma {:induction false} EndedAfter(start: nat, outcomes: seq<StepOutcome>, current: StepName)
    requires outcomes != []
    ensures !outcomes[|outcomes| - 1].status.SUCCEEDED? ==> Ended(start, outcomes, current, StepStopped)
    ensures AllSucceeded(outcomes) && start + |outcomes| == |REQUIRED| ==> Ended(start, outcomes, current, Completed)
  {
  }

  lemma {:induction false} NothingRecorded(script: Script, start: nat)
    requires start < |REQUIRED|
    ensures Recorded(script, start, [], 0) && Routed(start, []) && AllSucceeded([])
  {
  }

  /** Nobody cancels around this step and it succeeds. */
  ghost predicate Passes(script: Script, i: nat) {
    GatesOpen(script, i) && BehaviourOf(script, i).Returns? && BehaviourOf(script, i).status.SUCCEEDED?
  }

  /** `_synthesize`, as the exception handlers use it: at most one outcome is added, at the end. */
  function Synthesized(ending: Ending, current: StepName): seq<StepOutcome> {
    match ending
    case Completed => []
    case StepStopped => []
    case Cancellation => [StepOutcome(current, CANCELLED, "cancelled_by_user")]
    case Contract(code) => [StepOutcome(current, FAILED, code)]
    case Failure => [StepOutcome(current, FAILED, "workflow_step_failed")]
    case RouteFailed => [StepOutcome(current, FAILED, "workflow_step_failed")]
  }

  lemma {:induction false} SynthesizedKeepsRecord(script: Script, start: nat, outcomes: seq<StepOutcome>,
      current: StepName, ending: Ending)
    requires Recorded(script, start, outcomes, |outcomes|) && Ended(start, outcomes, current, ending)
    ensures var all := outcomes + Synthesized(ending, current);
            Recorded(script, start, all, |outcomes|) && all != []
            && (AllSucceeded(all) && start + |all| == |REQUIRED| <==> ending.Completed?)
  {
    var all := outcomes + Synthesized(ending, current);
    if ending.StepStopped? {
      assert all == outcomes && !all[|outcomes| - 1].status.SUCCEEDED?;
    } else if !ending.Completed? {
      assert !all[|outcomes|].status.SUCCEEDED?;
    }
  }

  lemma {:induction false} RecordedSuccess(script: Script, start: nat, outcomes: seq<StepOutcome>, returned: nat,
      restoration: StepOutcome)
    requires Recorded(script, start, outcomes, returned) && start < |REQUIRED|
    ensures Calculate(outcomes, Some(restoration), Some(REQUIRED[start..])).status.SUCCEEDED? <==>
            restoration.status.SUCCEEDED? && AllSucceeded(outcomes) && start + |outcomes| == |REQUIRED|
  {
    PositionalSuccess(outcomes, restoration, REQUIRED[start..]);
    assert AllSucceeded(outcomes) <==> forall o :: o in outcomes ==> o.status.SUCCEEDED?;
  }

  lemma {:induction false} UnsupportedFails(restoration: Option<StepOutcome>)
    ensures var run := Calculate([StepOutcome(RESTORE, FAILED, "invalid_request")], restoration, Some(REQUIRED));
            run.status.FAILED?
            && run.code == if restoration.Some? && !restoration.value.status.SUCCEEDED?
                           then (if restoration.value.code == "" then "restoration_failed" else restoration.value.code)
                           else "invalid_request"
  {
    CalculateMeans([StepOutcome(RESTORE, FAILED, "invalid_request")], restoration, Some(REQUIRED));
    LastFails([StepOutcome(RESTORE, FAILED, "invalid_request")], FAILED);
  }

  class HardenedWorkflowCoordinator {
    const workspace: nat
    const controller: Controller

    constructor (workspace: nat, controller: Controller)
      ensures this.workspace == workspace && this.controller == controller
    {
      this.workspace, this.controller := workspace, controller;
    }

    ghost predicate Held(id: nat)
      reads controller
    {
      controller.Safe() && controller.Pending(id) && controller.transactions[id].owner == workspace
    }

    /** The two cancellation gates around a step's route change. */
    method EnterStep(script: Script, id: nat, start: nat, i: nat) returns (cancelled: bool)
      requires Held(id) && controller.status.Going? && start <= i < |REQUIRED|
      requires start > 0 || i >= 2 ==> controller.machine.vpn == Disconnected
      modifies controller`machine, controller`transactions, controller`plan, controller`status
      ensures Held(id)
      ensures SameTargets(old(controller.transactions), controller.transactions)
      ensures controller.status.Going? && !cancelled ==> OnRoute(REQUIRED[i], controller.machine)
      ensures cancelled ==> controller.status.Going? && !GatesOpen(script, i)
      ensures controller.status.Going? && !cancelled ==> GatesOpen(script, i)
      ensures Cancelled(script, 2 * i) ==>
        cancelled && controller.machine == old(controller.machine) && controller.plan == old(controller.plan)
        && controller.transactions == old(controller.transactions)
      // only a VPN snapshot, and a local one that follows it in this run, touch the machine
      ensures !(REQUIRED[i] == VPN_SNAPSHOT || (REQUIRED[i] == LOCAL_SNAPSHOT && start == 0)) ==>
        controller.machine == old(controller.machine) && controller.plan == old(controller.plan)
        && controller.transactions == old(controller.transactions) && controller.status.Going?
      ensures old(controller.plan) == [] ==> controller.status.Going? && controller.plan == []
    {
      if Cancelled(script, 2 * i) { return true; }
      if REQUIRED[i] == VPN_SNAPSHOT {
        controller.ApplyVpnRouteForSnapshot(workspace, id);
      } else if REQUIRED[i] == LOCAL_SNAPSHOT && start == 0 {
        controller.DisconnectForLocal(workspace, id);
      }
      return controller.status.Going? && Cancelled(script, 2 * i + 1);
    }

    /** A run that starts later than the snapshot disconnects first. */
    method EnterLoop(id: nat, start: nat)
      requires Held(id) && controller.status.Going?
      modifies controller`machine, controller`transactions, controller`plan, controller`status
      ensures Held(id)
      ensures SameTargets(old(controller.transactions), controller.transactions)
      ensures controller.status.Going? && start > 0 ==> controller.machine.vpn == Disconnected
      ensures start == 0 ==> controller.status.Going?
      ensures old(controller.plan) == [] ==> controller.status.Going? && controller.plan == []
    {
      if start > 0 { controller.DisconnectForLocal(workspace, id); }
    }

    /** The step loop inside the try block. */
    method RunSteps(script: Script, id: nat, start: nat)
      returns (outcomes: seq<StepOutcome>, executed: seq<Execution>, current: StepName, ending: Ending)
      requires Held(id) && controller.status.Going? && start < |REQUIRED|
      modifies controller`machine, controller`transactions, controller`plan, controller`status
      ensures Held(id)
      ensures SameTargets(old(controller.transactions), controller.transactions)
      ensures Recorded(script, start, outcomes, |outcomes|) && Routed(start, executed)
      ensures |outcomes| <= |executed| <= |outcomes| + 1
      ensures Ended(start, outcomes, current, ending)
      ensures Explained(script, start, |outcomes|, |executed|, ending)
      ensures ending.RouteFailed? <==> !controller.status.Going?
      ensures old(controller.plan) == [] ==> controller.status.Going? && controller.plan == []
    {
      hide Recorded, Routed, AllSucceeded, Ended, Held, AllOpen, GatesOpen;
      OpenSnoc(script, start, 0);
      outcomes, executed, current, ending := [], [], REQUIRED[start], RouteFailed;
      NothingRecorded(script, start);
      EndedBefore(start, outcomes, current);
      EnterLoop(id, start);
      if !controller.status.Going? { return; }
      for i := start to |REQUIRED|
        invariant Held(id) && controller.status.Going?
        invariant SameTargets(old(controller.transactions), controller.transactions)
        invariant |outcomes| == i - start == |executed|
        invariant Recorded(script, start, outcomes, |outcomes|) && Routed(start, executed)
        invariant AllSucceeded(outcomes)
        invariant start > 0 || i >= 2 ==> controller.machine.vpn == Disconnected
        invariant AllOpen(script, start, i - start)
        invariant ending == RouteFailed && (i == |REQUIRED| ==> Ended(start, outcomes, current, Completed))
        invariant old(controller.plan) == [] ==> controller.plan == []
      {
        current := REQUIRED[i];
        EndedBefore(start, outcomes, current);
        var cancelled := EnterStep(script, id, start, i);
        if cancelled { return outcomes, executed, current, Cancellation; }
        if !controller.status.Going? { return; }
        OpenSnoc(script, start, i - start);
        RoutedSnoc(start, executed, Execution(current, controller.machine));
        executed := executed + [Execution(current, controller.machine)];
        var behaviour := BehaviourOf(script, i);
        if behaviour.BreaksContract? { return outcomes, executed, current, Contract(behaviour.code); }
        if behaviour.Throws? { return outcomes, executed, current, Failure; }
        var outcome := StepOutcome(current, behaviour.status, behaviour.code);
        RecordedSnoc(script, start, outcomes, outcome);
        outcomes := outcomes + [outcome];
        EndedAfter(start, outcomes, current);
        if !behaviour.status.SUCCEEDED? { return outcomes, executed, current, StepStopped; }
      }
      ending := Completed;
    }

    /** The finally block. */
    method Finish(id: nat) returns (ok: bool, code: string)
      requires Held(id) && controller.status.Going?
      modifies controller`machine, controller`transactions, controller`active, controller`plan, controller`status,
        controller`baseline
      ensures controller.Safe()
      ensures controller.status.Going? && ok ==> controller.machine == Wanted(TARGET) && controller.active.None?
      ensures controller.status.Going? && ok ==>
        id in controller.transactions && controller.transactions[id].status.RESTORED?
        && controller.transactions[id].sync == SYNCED
      ensures controller.status.Going? && !ok ==> controller.active == Some(id) && controller.Pending(id) && code != ""
      ensures SameTargets(old(controller.transactions), controller.transactions)
      ensures controller.baseline == old(controller.baseline) || controller.baseline == Wanted(TARGET)
      ensures old(controller.plan) == [] ==> controller.status.Going? && ok && controller.plan == []
    {
      ok, code := controller.Restore(workspace, id, TARGET);
      if ok {
        controller.Update(workspace, id, controller.transactions[id].(sync := SYNCED));
        controller.ClearActive(workspace, id);
      }
    }

    /** `run`. `report` says what happened; `run` is None when the run never began, or when an exception
        or a death cut it. */
    method Run(script: Script) returns (report: Report, run: Option<RunStatus>)
      requires controller.Safe() && controller.status.Going? && ValidPreparation(script.preparation)
      modifies controller
      ensures controller.Safe()
      // the last verified state is the previous one, or one that some transaction aims at
      ensures Verified(old(controller.baseline), old(controller.Aims()), controller.baseline)
      ensures controller.Aims() <= old(controller.Aims()) + {Wanted(TARGET)}
      // nothing runs before the machine is repaired; a foreign or failed repair refuses
      ensures !report.began ==> report == Report(false, old(controller.machine), REQUIRED, [], [], 0, RouteFailed, None)
                                && run.None?
      ensures report.began ==>
                report.startedFrom == if old(controller.active).Some?
                  && !old(controller.transactions)[old(controller.active).value].status.Settled()
                                      then Wanted(old(controller.transactions)[old(controller.active).value].target)
                                      else old(controller.machine)
      ensures (&& old(controller.active).Some?
               && old(controller.transactions)[old(controller.active).value].owner != workspace) ==> !report.began
      ensures report.began ==> RunRecord(script, report, run)
      ensures report.began ==> (run.Some? <==> controller.status.Going?)
      // restoration is attempted on every path after begin, and its failure stays on record
      ensures run.Some? && report.Restored() ==>
        controller.machine == Wanted(TARGET) && controller.active.None?
      ensures run.Some? && !report.Restored() ==>
        controller.active.Some? && controller.Pending(controller.active.value)
      // without faults the script alone decides what runs and what is reported
      ensures (old(controller.plan) == [] && !script.workspaceBusy && script.preparation.Ready?
               && (old(controller.active).Some? ==>
                 old(controller.transactions)[old(controller.active).value].owner == workspace)) ==>
                report.began && AsScripted(script, script.preparation.next, |report.executed|, run)
    {
      run := None;
      report := Report(false, controller.machine, REQUIRED, [], [], 0, RouteFailed, None);
      var recovery := controller.RecoverPending(workspace, script.mirror);
      if !controller.status.Going? || recovery.Refused? { return; }
      if script.workspaceBusy || script.preparation.PrepareError? { return; }
      var began := controller.Begin(workspace, TARGET);
      if began.None? { return; }
      report, run := RunTransaction(script, began.value);
    }

    /** Everything after `begin`: the try block, its handlers and the finally block. */
    method RunTransaction(script: Script, id: nat) returns (report: Report, run: Option<RunStatus>)
      requires Held(id) && controller.status.Going? && ValidPreparation(script.preparation)
        && !script.preparation.PrepareError?
      modifies controller`machine, controller`transactions, controller`active, controller`plan, controller`status,
        controller`baseline
      ensures controller.Safe()
      ensures report.began && report.startedFrom == old(controller.machine)
      ensures RunRecord(script, report, run) && (run.Some? <==> controller.status.Going?)
      ensures SameTargets(old(controller.transactions), controller.transactions)
      ensures controller.baseline == old(controller.baseline) || controller.baseline == Wanted(TARGET)
      ensures run.Some? && report.Restored() ==>
        controller.machine == Wanted(TARGET) && controller.active.None?
      ensures run.Some? && !report.Restored() ==> controller.active == Some(id) && controller.Pending(id)
      ensures old(controller.plan) == [] && script.preparation.Ready? ==>
        AsScripted(script, script.preparation.next, |report.executed|, run)
    {
      hide Tried, RunRecord, Calculate, AllSucceeded, AsScripted;
      run := None;
      report := TryRun(script, id);
      NotFinished(script, report);
      if controller.status.Crashed? { return; }
      if controller.status.Raised? { controller.status := Going; }
      var ok, code := Finish(id);
      TriedRestored(script, report, Some(Restoration(ok, code)));
      report := report.(restoration := Some(Restoration(ok, code)));
      NotFinished(script, report);
      if !controller.status.Going? { return; }
      run := Some(Calculate(report.outcomes, report.restoration, Some(report.required)));
      FinishedRun(script, report);
      if script.preparation.Ready? && report.Restored() && !report.ending.RouteFailed? {
        ScriptDecides(script, report, script.preparation.next, run.value);
      }
    }

    /** The try block and its handlers. */
    method TryRun(script: Script, id: nat) returns (report: Report)
      requires Held(id) && controller.status.Going? && ValidPreparation(script.preparation)
        && !script.preparation.PrepareError?
      modifies controller`machine, controller`transactions, controller`plan, controller`status
      ensures Held(id) && Tried(script, report)
      ensures SameTargets(old(controller.transactions), controller.transactions)
      ensures report.began && report.startedFrom == old(controller.machine) && report.restoration.None?
      ensures script.preparation.Ready? ==> (report.ending.RouteFailed? <==> !controller.status.Going?)
      ensures script.preparation.Unsupported? ==> controller.status.Going?
      ensures old(controller.plan) == [] ==> controller.status.Going? && controller.plan == []
    {
      hide Recorded, Routed, Ended, AllSucceeded, Explained;
      report := Report(true, controller.machine, REQUIRED, [], [StepOutcome(RESTORE, FAILED, "invalid_request")], 0,
        Contract("invalid_request"), None);
      if script.preparation.Ready? {
        var start := script.preparation.next;
        var outcomes, executed, current, ending := RunSteps(script, id, start);
        SynthesizedKeepsRecord(script, start, outcomes, current, ending);
        report := Report(true, report.startedFrom, REQUIRED[start..], executed, outcomes + Synthesized(ending, current),
          |outcomes|, ending, None);
        EndedTogether(start, outcomes, current, ending, executed, report);
      }
    }

    /** Any sequence of runs, by any workspaces, each with its own faults: the machine never differs from
        its last verified state without a pending transaction on record. */
    method Sessions(runs: seq<(nat, seq<Fate>, Script)>) returns (reports: seq<(Report, Option<RunStatus>)>)
      requires controller.Safe() && forall i :: 0 <= i < |runs| ==> ValidPreparation(runs[i].2.preparation)
      modifies controller
      ensures controller.Safe() && |reports| == |runs|
      ensures Verified(old(controller.baseline), old(controller.Aims()), controller.baseline)
      // with nothing pending on record, the machine is as last verified before, or as restored
      ensures controller.active.None? || controller.transactions[controller.active.value].status.Settled() ==>
                Verified(old(controller.baseline), old(controller.Aims()), controller.machine)
      ensures forall i :: 0 <= i < |runs| && reports[i].0.began ==> RunRecord(runs[i].2, reports[i].0, reports[i].1)
      ensures forall i :: 0 <= i < |runs| && !reports[i].0.began ==> reports[i].0.executed == []
    {
      hide RunRecord;
      reports := [];
      for i := 0 to |runs|
        invariant controller.Safe() && |reports| == i
        invariant Verified(old(controller.baseline), old(controller.Aims()), controller.baseline)
        invariant controller.Aims() <= old(controller.Aims()) + {Wanted(TARGET)}
        invariant forall k :: 0 <= k < i && reports[k].0.began ==> RunRecord(runs[k].2, reports[k].0, reports[k].1)
        invariant forall k :: 0 <= k < i && !reports[k].0.began ==> reports[k].0.executed == []
      {
        var process := new HardenedWorkflowCoordinator(runs[i].0, controller);
        controller.status, controller.plan := Going, runs[i].1;
        var report, run := process.Run(runs[i].2);
        reports := reports + [(report, run)];
      }
    }
  }

  /** What the try block leaves behind, whatever ended it. */
  ghost predicate Tried(script: Script, report: Report) {
    && (script.preparation.Ready? ==>
          && script.preparation.next < |REQUIRED|
          && report.required == REQUIRED[script.preparation.next..]
          && Routed(script.preparation.next, report.executed)
          && Recorded(script, script.preparation.next, report.outcomes, report.returned)
          && report.outcomes != [] && |report.outcomes| <= report.returned + 1
          && Explained(script, script.preparation.next, report.returned, |report.executed|, report.ending)
          && EndsIn(script.preparation.next, report)
          && (AllSucceeded(report.outcomes) && script.preparation.next + |report.outcomes| == |REQUIRED| ==>
                |report.executed| == |report.outcomes|))
    && (script.preparation.Unsupported? ==>
          report.executed == [] && report.outcomes == [StepOutcome(RESTORE, FAILED, "invalid_request")]
            && report.required == REQUIRED && report.returned == 0 && report.ending == Contract("invalid_request"))
  }

  lemma {:induction false} EndedTogether(start: nat, outcomes: seq<StepOutcome>, current: StepName, ending: Ending,
      executed: seq<Execution>, report: Report)
    requires report.outcomes == outcomes + Synthesized(ending, current) && report.returned == |outcomes|
    requires report.ending == ending
    requires Ended(start, outcomes, current, ending) && |outcomes| <= |executed| <= |outcomes| + 1
      && Routed(start, executed)
    ensures |Synthesized(ending, current)| <= 1 && EndsIn(start, report)
    ensures ending.Completed? ==> |executed| == |outcomes| && Synthesized(ending, current) == []
    ensures var all := outcomes + Synthesized(ending, current);
            AllSucceeded(all) && start + |all| == |REQUIRED| ==> ending.Completed?
  {
    var all := outcomes + Synthesized(ending, current);
    if ending.StepStopped? {
      assert all == outcomes && !all[|outcomes| - 1].status.SUCCEEDED?;
    } else if !ending.Completed? {
      assert !all[|outcomes|].status.SUCCEEDED?;
    }
  }

  /** `_restoration_outcome`. */
  function Restoration(ok: bool, code: string): StepOutcome {
    if ok then StepOutcome(RESTORE, SUCCEEDED, "") else StepOutcome(RESTORE, FAILED, code)
  }

  lemma {:induction false} TriedRestored(script: Script, report: Report, restoration: Option<StepOutcome>)
    requires Tried(script, report)
    ensures Tried(script, report.(restoration := restoration))
  {
  }

  lemma {:induction false} NotFinished(script: Script, report: Report)
    requires Tried(script, report)
    ensures RunRecord(script, report, None)
  {
  }

  lemma {:induction false} FinishedRun(script: Script, report: Report)
    requires Tried(script, report) && report.restoration.Some? && !script.preparation.PrepareError?
    requires !report.Restored() ==> report.restoration.value.status.FAILED? && report.restoration.value.code != ""
    ensures RunRecord(script, report, Some(Calculate(report.outcomes, report.restoration, Some(report.required))))
  {
    hide Calculate, Recorded, Routed, AllSucceeded, Explained, Occurs;
    if script.preparation.Ready? {
      var start := script.preparation.next;
      RecordedSuccess(script, start, report.outcomes, report.returned, report.restoration.value);
      RunEnding(script, report, start);
    } else {
      UnsupportedFails(report.restoration);
    }
  }

  /** What ended the loop is what the run reports, once the machine is restored. */
  lemma {:induction false} RunEnding(script: Script, report: Report, start: nat)
    requires script.preparation == Ready(start) && Tried(script, report) && report.restoration.Some?
    requires !report.Restored() ==> report.restoration.value.status.FAILED? && report.restoration.value.code != ""
    ensures var run := Calculate(report.outcomes, report.restoration, Some(report.required));
            Reported(script, report, start, run)
  {
    var outcomes := report.outcomes;
    if !report.Restored() {
      CalculateMeans(outcomes, report.restoration, Some(report.required));
      hide Calculate, Occurs, Recorded, Explained, Routed;
    } else if report.ending.Completed? {
      RecordedSuccess(script, start, outcomes, report.returned, report.restoration.value);
      SuccessHasNoCode(outcomes, report.restoration, Some(report.required));
      hide Calculate, Recorded, Explained, Routed;
    } else {
      LastDecides(outcomes, report.restoration, Some(report.required));
      hide Calculate, Routed;
    }
  }

  lemma {:induction false} SuccessHasNoCode(steps: seq<StepOutcome>, restoration: Option<StepOutcome>,
      required: Option<seq<StepName>>)
    ensures Calculate(steps, restoration, required).status.SUCCEEDED? ==>
              Calculate(steps, restoration, required).code == ""
  {
    FirstIs(Ordered(steps), FAILED);
    FirstIs(Ordered(steps), CANCELLED);
    FirstIs(Ordered(steps), INCOMPLETE);
    hide First, Ordered, Covers, Occurs, FirstAt;
  }

  /** When all earlier steps succeeded, the last one alone decides. */
  lemma {:induction false} LastDecides(outcomes: seq<StepOutcome>, restoration: Option<StepOutcome>,
      required: Option<seq<StepName>>)
    requires outcomes != [] && (restoration.Some? ==> restoration.value.status.SUCCEEDED?)
    requires forall j :: 0 <= j < |outcomes| - 1 ==> outcomes[j].status.SUCCEEDED?
    requires !outcomes[|outcomes| - 1].status.SUCCEEDED?
    ensures var last := outcomes[|outcomes| - 1];
            Calculate(outcomes, restoration, required) ==
            if last.status.WAITING_FOR_USER? then RunStatus(FAILED, "invalid_waiting_outcome")
            else RunStatus(last.status, last.code)
  {
    CalculateMeans(outcomes, restoration, required);
    LastFails(outcomes, FAILED);
    LastFails(outcomes, WAITING_FOR_USER);
    LastFails(outcomes, CANCELLED);
    LastFails(outcomes, INCOMPLETE);
    hide Calculate, Occurs, FirstAt, RecordedOnce;
  }

  lemma {:induction false} LastFails(outcomes: seq<StepOutcome>, st: OutcomeStatus)
    requires outcomes != [] && st != SUCCEEDED
    requires forall j :: 0 <= j < |outcomes| - 1 ==> outcomes[j].status.SUCCEEDED?
    ensures Occurs(outcomes, st) <==> outcomes[|outcomes| - 1].status == st
    ensures Occurs(outcomes, st) ==> FirstAt(outcomes, st, |outcomes| - 1)
  {
    if outcomes[|outcomes| - 1].status == st { assert FirstAt(outcomes, st, |outcomes| - 1); }
  }

  /** No recorded transaction changes its target. */
  ghost predicate SameTargets(before: map<nat, Transaction>, now: map<nat, Transaction>) {
    before.Keys == now.Keys && forall t :: t in now ==> now[t].target == before[t].target
  }

  /** A verified machine state: the one before, or a target of some transaction. */
  ghost predicate Verified(before: Machine, aims: set<Machine>, now: Machine) {
    now == before || now == Wanted(TARGET) || now in aims
  }

  /** The outcome the loop's end left last: that of the step that stopped it, or the synthesized one. */
  ghost predicate EndsIn(start: nat, report: Report) {
    var n := |report.outcomes|;
    match report.ending
    case Completed => n == report.returned && start + n == |REQUIRED| && AllSucceeded(report.outcomes)
    case StepStopped => n == report.returned > 0 && !report.outcomes[n - 1].status.SUCCEEDED?
    case Cancellation =>
      n == report.returned + 1 && report.outcomes[n - 1].status.CANCELLED?
      && report.outcomes[n - 1].code == "cancelled_by_user"
    case Contract(code) =>
      n == report.returned + 1 && report.outcomes[n - 1].status.FAILED? && report.outcomes[n - 1].code == code
    case Failure =>
      n == report.returned + 1 && report.outcomes[n - 1].status.FAILED?
      && report.outcomes[n - 1].code == "workflow_step_failed"
    case RouteFailed =>
      n == report.returned + 1 && report.outcomes[n - 1].status.FAILED?
      && report.outcomes[n - 1].code == "workflow_step_failed"
  }

  /** The run's status and code, given why its loop ended and whether the machine was restored. */
  ghost predicate Reported(script: Script, report: Report, start: nat, run: RunStatus) {
    if report.restoration.Some? && !report.Restored() then
      run == RunStatus(FAILED, report.restoration.value.code)
    else
      match report.ending
      case Completed => run == RunStatus(SUCCEEDED, "")
      case Cancellation => run == RunStatus(CANCELLED, "cancelled_by_user")
      case Contract(code) => run == RunStatus(FAILED, code)
      case Failure => run == RunStatus(FAILED, "workflow_step_failed")
      case RouteFailed => run == RunStatus(FAILED, "workflow_step_failed")
      case StepStopped =>
        report.returned > 0 && StoppedBy(BehaviourOf(script, start + report.returned - 1), run)
  }

  /** The run's status after a step that came back without success. */
  ghost predicate StoppedBy(b: Behaviour, run: RunStatus) {
    b.Returns? && !b.status.SUCCEEDED?
    && run == if b.status.WAITING_FOR_USER? then RunStatus(FAILED, "invalid_waiting_outcome")
              else RunStatus(b.status, b.code)
  }

  /** The first step from `start` on that a run of this script does not get past. */
  ghost predicate FirstStop(script: Script, start: nat, i: int) {
    start <= i < |REQUIRED| && !Passes(script, i) && forall j :: start <= j < i ==> Passes(script, j)
  }

  /** Without faults the script alone decides: how many steps run, and what the run reports. */
  ghost predicate AsScripted(script: Script, start: nat, executed: nat, run: Option<RunStatus>) {
    && run.Some?
    && ((forall i :: start <= i < |REQUIRED| ==> Passes(script, i)) ==>
          run.value == RunStatus(SUCCEEDED, "") && start + executed == |REQUIRED|)
    && forall i :: FirstStop(script, start, i) ==>
         if !GatesOpen(script, i) then
           run.value == RunStatus(CANCELLED, "cancelled_by_user") && start + executed == i
         else
           && start + executed == i + 1
           && match BehaviourOf(script, i)
              case BreaksContract(code) => run.value == RunStatus(FAILED, code)
              case Throws => run.value == RunStatus(FAILED, "workflow_step_failed")
              case Returns(_, _) => StoppedBy(BehaviourOf(script, i), run.value)
  }

  lemma {:induction false} ScriptDecides(script: Script, report: Report, start: nat, run: RunStatus)
    requires script.preparation == Ready(start) && RunRecord(script, report, Some(run))
    requires report.Restored() && !report.ending.RouteFailed?
    ensures AsScripted(script, start, |report.executed|, Some(run))
  {
    hide Routed, GatesOpen, BehaviourOf, StoppedBy;
    var passed := if report.ending.StepStopped? then report.returned - 1 else report.returned;
    forall j | start <= j < start + passed ensures Passes(script, j) {
      assert report.outcomes[j - start].status.SUCCEEDED?;
    }
    if !report.ending.Completed? {
      assert !Passes(script, start + passed);
      assert FirstStop(script, start, start + passed);
    }
  }

  /** What a run that began reports. Executed steps follow the required ones, each on its route. Outcomes
      follow them position by position, at most one of them synthesized; restoration was attempted; and
      success means every required step ran and succeeded and the machine was restored. */
  ghost predicate RunRecord(script: Script, report: Report, run: Option<RunStatus>) {
    && (script.preparation.Ready? ==>
          && script.preparation.next < |REQUIRED|
          && report.required == REQUIRED[script.preparation.next..]
          && Routed(script.preparation.next, report.executed)
          && Recorded(script, script.preparation.next, report.outcomes, report.returned)
          && report.outcomes != [] && |report.outcomes| <= report.returned + 1
          && Explained(script, script.preparation.next, report.returned, |report.executed|, report.ending)
          && EndsIn(script.preparation.next, report)
          && (run.Some? ==> Reported(script, report, script.preparation.next, run.value)))
    && (script.preparation.Unsupported? ==>
          report.executed == [] && report.outcomes == [StepOutcome(RESTORE, FAILED, "invalid_request")]
          && report.returned == 0 && report.ending == Contract("invalid_request")
          && (run.Some? && report.Restored() ==> run.value == RunStatus(FAILED, "invalid_request")))
    && (run.Some? ==> report.restoration.Some?)
    && (run.Some? && !report.Restored() ==> run.value == RunStatus(FAILED, report.restoration.value.code))
    && (run.Some? && run.value.status.SUCCEEDED? ==>
          script.preparation.Ready? && AllSucceeded(report.outcomes)
          && |report.outcomes| == |report.executed| == |report.required| && report.Restored())
  }
}
