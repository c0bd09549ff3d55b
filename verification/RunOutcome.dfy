/** The status of a whole run, computed from its step outcomes (`RunOutcome.calculate`). */
module RunOutcome {
  import opened Common

  datatype StepName = VPN_SNAPSHOT | LOCAL_SNAPSHOT | COMPARE | VERIFY | RESTORE

  datatype StepOutcome = StepOutcome(step: StepName, status: OutcomeStatus, code: string)

  datatype RunStatus = RunStatus(status: OutcomeStatus, code: string)

  /** `next(item for item in steps if item.status is status)`. */
  function First(steps: seq<StepOutcome>, status: OutcomeStatus): Option<StepOutcome> {
    if steps == [] then None
    else if steps[0].status == status then Some(steps[0])
    else First(steps[1..], status)
  }

  function WithoutWaiting(steps: seq<StepOutcome>): seq<StepOutcome> {
    if steps == [] then []
    else (if steps[0].status.WAITING_FOR_USER? then [] else [steps[0]]) + WithoutWaiting(steps[1..])
  }

  /** A waiting outcome is a contract violation and becomes a failure. */
  function Ordered(steps: seq<StepOutcome>): seq<StepOutcome> {
    match First(steps, WAITING_FOR_USER)
    case None => steps
    case Some(w) => WithoutWaiting(steps) + [StepOutcome(w.step, FAILED, "invalid_waiting_outcome")]
  }

  function CountIn(steps: seq<StepOutcome>, required: seq<StepName>): nat {
    if steps == [] then 0
    else (if steps[0].step in required then 1 else 0) + CountIn(steps[1..], required)
  }

  function Occurrences(steps: seq<StepOutcome>, name: StepName): nat {
    CountIn(steps, [name])
  }

  predicate Covers(steps: seq<StepOutcome>, required: seq<StepName>) {
    var present := set o | o in steps :: o.step;
    (set r | r in required) - present == {} && CountIn(steps, required) == |required|
  }

  function Calculate(steps: seq<StepOutcome>, restoration: Option<StepOutcome>,
      required: Option<seq<StepName>>): RunStatus
  {
    var ordered := Ordered(steps);
    var failed := First(ordered, FAILED);
    var cancelled := First(ordered, CANCELLED);
    var incomplete := First(ordered, INCOMPLETE);
    if restoration.Some? && !restoration.value.status.SUCCEEDED? then
      RunStatus(FAILED, if restoration.value.code == "" then "restoration_failed" else restoration.value.code)
    else if failed.Some? then RunStatus(FAILED, failed.value.code)
    else if cancelled.Some? then RunStatus(CANCELLED, cancelled.value.code)
    else if incomplete.Some? then RunStatus(INCOMPLETE, incomplete.value.code)
    else if ordered != [] && forall o | o in ordered :: o.status.SUCCEEDED? then
      if required.Some? && !Covers(ordered, required.value) then RunStatus(INCOMPLETE, "missing_step_outcome")
      else RunStatus(SUCCEEDED, "")
    else RunStatus(INCOMPLETE, "missing_step_outcome")
  }

  lemma {:induction false} FirstFinds(steps: seq<StepOutcome>, status: OutcomeStatus)
    ensures First(steps, status).None? <==> forall o :: o in steps ==> o.status != status
    ensures First(steps, status).Some? ==>
      First(steps, status).value in steps && First(steps, status).value.status == status
  {
    if steps != [] {
      FirstFinds(steps[1..], status);
      assert steps == [steps[0]] + steps[1..];
    }
  }

  lemma {:induction false} CountSplits(steps: seq<StepOutcome>, r: StepName, rest: seq<StepName>)
    requires r !in rest
    ensures CountIn(steps, [r] + rest) == Occurrences(steps, r) + CountIn(steps, rest)
  {
    if steps != [] { CountSplits(steps[1..], r, rest); }
  }

  lemma {:induction false} OccursIfPresent(steps: seq<StepOutcome>, r: StepName)
    ensures Occurrences(steps, r) > 0 <==> r in set o | o in steps :: o.step
  {
    if steps != [] {
      OccursIfPresent(steps[1..], r);
      assert steps == [steps[0]] + steps[1..];
      assert (set o | o in steps :: o.step) == {steps[0].step} + set o | o in steps[1..] :: o.step;
    }
  }

  lemma {:induction false} CountNone(steps: seq<StepOutcome>)
    ensures CountIn(steps, []) == 0
  {
    if steps != [] { CountNone(steps[1..]); }
  }

  /** Pigeonhole: when every required name occurs, their occurrences are at least as many, and exactly
      as many only if each occurs once. */
  lemma {:induction false} Pigeonhole(steps: seq<StepOutcome>, required: seq<StepName>)
    requires Distinct(required)
    requires forall r :: r in required ==> Occurrences(steps, r) >= 1
    ensures CountIn(steps, required) >= |required|
    ensures CountIn(steps, required) == |required| <==> forall r :: r in required ==> Occurrences(steps, r) == 1
    decreases |required|
  {
    if required == [] {
      CountNone(steps);
    } else {
      var r, rest := required[0], required[1..];
      assert required == [r] + rest;
      CountSplits(steps, r, rest);
      Pigeonhole(steps, rest);
    }
  }

  /** The subset-and-count test means: each required step occurs exactly once. */
  lemma {:induction false} CoversExactlyOnce(steps: seq<StepOutcome>, required: seq<StepName>)
    requires Distinct(required)
    ensures Covers(steps, required) <==> forall r :: r in required ==> Occurrences(steps, r) == 1
  {
    var present := set o | o in steps :: o.step;
    forall r | r in required ensures Occurrences(steps, r) > 0 <==> r in present {
      OccursIfPresent(steps, r);
    }
    if forall r :: r in required ==> Occurrences(steps, r) >= 1 {
      Pigeonhole(steps, required);
      assert (set r | r in required) - present == {};
    } else {
      var r :| r in required && Occurrences(steps, r) < 1;
      assert r in (set r | r in required) - present;
    }
  }

  /** When a run counts as succeeded. */
  lemma {:induction false} SucceedsExactlyWhen(steps: seq<StepOutcome>, restoration: Option<StepOutcome>,
      required: seq<StepName>)
    requires Distinct(required)
    ensures Calculate(steps, restoration, Some(required)).status.SUCCEEDED? <==>
            && (restoration.Some? ==> restoration.value.status.SUCCEEDED?)
            && steps != []
            && (forall o :: o in steps ==> o.status.SUCCEEDED?)
            && (forall r :: r in required ==> Occurrences(steps, r) == 1)
  {
    var ordered := Ordered(steps);
    FirstFinds(steps, WAITING_FOR_USER);
    FirstFinds(ordered, FAILED);
    FirstFinds(ordered, CANCELLED);
    FirstFinds(ordered, INCOMPLETE);
    CoversExactlyOnce(ordered, required);
    if First(steps, WAITING_FOR_USER).Some? {
      assert ordered[|ordered| - 1] in ordered;
    }
  }

  /** A step that reports waiting as its terminal status fails the run, whatever else happened. */
  lemma {:induction false} WaitingForcesFailure(steps: seq<StepOutcome>, restoration: Option<StepOutcome>,
      required: Option<seq<StepName>>)
    requires exists o :: o in steps && o.status.WAITING_FOR_USER?
    ensures Calculate(steps, restoration, required).status.FAILED?
  {
    var ordered := Ordered(steps);
    FirstFinds(steps, WAITING_FOR_USER);
    FirstFinds(ordered, FAILED);
    assert ordered[|ordered| - 1] in ordered;
  }

  /** The step at `i` is the first with this status. */
  ghost predicate FirstAt(steps: seq<StepOutcome>, status: OutcomeStatus, i: int) {
    0 <= i < |steps| && steps[i].status == status && forall j :: 0 <= j < i ==> steps[j].status != status
  }

  ghost predicate Occurs(steps: seq<StepOutcome>, status: OutcomeStatus) {
    exists i :: FirstAt(steps, status, i)
  }

  lemma {:induction false} FirstIs(steps: seq<StepOutcome>, status: OutcomeStatus)
    ensures forall i :: FirstAt(steps, status, i) ==> First(steps, status) == Some(steps[i])
    ensures First(steps, status).Some? <==> Occurs(steps, status)
    ensures Occurs(steps, status) <==> exists o :: o in steps && o.status == status
  {
    if steps != [] && steps[0].status != status {
      var rest := steps[1..];
      FirstIs(rest, status);
      assert forall o :: o in steps <==> o == steps[0] || o in rest;
      forall i | FirstAt(steps, status, i) ensures First(steps, status) == Some(steps[i]) {
        assert forall j :: 0 <= j < i - 1 ==> rest[j] == steps[j + 1];
        assert FirstAt(rest, status, i - 1);
      }
      if i :| FirstAt(rest, status, i) {
        assert forall j :: 0 < j <= i ==> rest[j - 1] == steps[j];
        assert FirstAt(steps, status, i + 1);
      }
    } else if steps != [] {
      assert FirstAt(steps, status, 0) && steps[0] in steps;
    }
  }

  lemma {:induction false} FirstAppend(a: seq<StepOutcome>, b: seq<StepOutcome>, status: OutcomeStatus)
    ensures First(a + b, status) == if First(a, status).Some? then First(a, status) else First(b, status)
  {
    if a == [] {
      assert a + b == b;
    } else {
      assert (a + b)[1..] == a[1..] + b;
      FirstAppend(a[1..], b, status);
    }
  }

  lemma {:induction false} FirstWithoutWaiting(steps: seq<StepOutcome>, status: OutcomeStatus)
    requires !status.WAITING_FOR_USER?
    ensures First(WithoutWaiting(steps), status) == First(steps, status)
  {
    if steps != [] {
      FirstWithoutWaiting(steps[1..], status);
      if steps[0].status.WAITING_FOR_USER? {
        assert WithoutWaiting(steps) == WithoutWaiting(steps[1..]);
      } else {
        assert WithoutWaiting(steps)[1..] == WithoutWaiting(steps[1..]);
      }
    }
  }

  /** The first step of each status survives the treatment of waiting ones, and a waiting one adds a
      failure at the end. */
  lemma {:induction false} FirstOrdered(steps: seq<StepOutcome>, status: OutcomeStatus)
    requires !status.WAITING_FOR_USER?
    ensures First(Ordered(steps), status) ==
            if First(steps, status).Some? then First(steps, status)
            else if status.FAILED? && First(steps, WAITING_FOR_USER).Some? then
              Some(StepOutcome(First(steps, WAITING_FOR_USER).value.step, FAILED, "invalid_waiting_outcome"))
            else None
  {
    FirstWithoutWaiting(steps, status);
    match First(steps, WAITING_FOR_USER)
    case None =>
    case Some(w) =>
      FirstAppend(WithoutWaiting(steps), [StepOutcome(w.step, FAILED, "invalid_waiting_outcome")], status);
  }

  /** The name is recorded at `i` and nowhere else. */
  ghost predicate OnlyAt(steps: seq<StepOutcome>, r: StepName, i: int) {
    0 <= i < |steps| && steps[i].step == r && forall j :: 0 <= j < |steps| && j != i ==> steps[j].step != r
  }

  ghost predicate Absent(steps: seq<StepOutcome>, r: StepName) {
    forall j :: 0 <= j < |steps| ==> steps[j].step != r
  }

  ghost predicate RecordedOnce(steps: seq<StepOutcome>, r: StepName) {
    exists i :: OnlyAt(steps, r, i)
  }

  lemma {:induction false} OneMoreStep(o: StepOutcome, rest: seq<StepOutcome>, r: StepName)
    ensures Absent([o] + rest, r) <==> o.step != r && Absent(rest, r)
    ensures RecordedOnce([o] + rest, r) <==> if o.step == r then Absent(rest, r) else RecordedOnce(rest, r)
  {
    var steps := [o] + rest;
    assert steps[0] == o;
    assert forall j :: 0 <= j < |rest| ==> rest[j] == steps[j + 1];
    assert forall j :: 0 < j < |steps| ==> steps[j] == rest[j - 1];
    if o.step == r {
      if Absent(rest, r) { assert OnlyAt(steps, r, 0); }
      if i :| OnlyAt(steps, r, i) {
        assert i == 0;
        forall j | 0 <= j < |rest| ensures rest[j].step != r { assert steps[j + 1] == rest[j]; }
      }
    } else {
      if i :| OnlyAt(rest, r, i) { assert OnlyAt(steps, r, i + 1); }
      if i :| OnlyAt(steps, r, i) { assert OnlyAt(rest, r, i - 1); }
    }
  }

  lemma {:induction false} OccurrencesMeans(steps: seq<StepOutcome>, r: StepName)
    ensures Occurrences(steps, r) == 0 <==> Absent(steps, r)
    ensures Occurrences(steps, r) == 1 <==> RecordedOnce(steps, r)
  {
    if steps != [] {
      hide Absent, RecordedOnce;
      OccurrencesMeans(steps[1..], r);
      OneMoreStep(steps[0], steps[1..], r);
      assert steps == [steps[0]] + steps[1..];
    }
  }

  /** The status and code of a run, case by case: a failed restoration first, then the first failed step,
      a waiting step, the first cancelled and the first incomplete one; a run whose steps all succeeded
      still lacks something if there are none or a required one is not recorded exactly once. */
  lemma {:induction false} CalculateMeans(steps: seq<StepOutcome>, restoration: Option<StepOutcome>,
      required: Option<seq<StepName>>)
    ensures var r := Calculate(steps, restoration, required);
      if restoration.Some? && !restoration.value.status.SUCCEEDED? then
        && r.status.FAILED?
        && r.code == (if restoration.value.code == "" then "restoration_failed" else restoration.value.code)
      else if Occurs(steps, FAILED) then
        r.status.FAILED? && forall i :: FirstAt(steps, FAILED, i) ==> r.code == steps[i].code
      else if Occurs(steps, WAITING_FOR_USER) then
        r.status.FAILED? && r.code == "invalid_waiting_outcome"
      else if Occurs(steps, CANCELLED) then
        r.status.CANCELLED? && forall i :: FirstAt(steps, CANCELLED, i) ==> r.code == steps[i].code
      else if Occurs(steps, INCOMPLETE) then
        r.status.INCOMPLETE? && forall i :: FirstAt(steps, INCOMPLETE, i) ==> r.code == steps[i].code
      else if steps == [] then r == RunStatus(INCOMPLETE, "missing_step_outcome")
      else if required.None? then r == RunStatus(SUCCEEDED, "")
      else
        Distinct(required.value) ==>
          r == if forall n :: n in required.value ==> RecordedOnce(steps, n) then RunStatus(SUCCEEDED, "")
               else RunStatus(INCOMPLETE, "missing_step_outcome")
  {
    FirstIs(steps, WAITING_FOR_USER);
    FirstIs(steps, FAILED);
    FirstIs(steps, CANCELLED);
    FirstIs(steps, INCOMPLETE);
    FirstOrdered(steps, FAILED);
    FirstOrdered(steps, CANCELLED);
    FirstOrdered(steps, INCOMPLETE);
    if required.Some? && Distinct(required.value) {
      CoversExactlyOnce(steps, required.value);
      forall n | n in required.value { OccurrencesMeans(steps, n); }
    }
    hide First, Covers, Occurrences, WithoutWaiting, FirstAt, RecordedOnce;
    if Occurs(steps, WAITING_FOR_USER) || Occurs(steps, FAILED) || Occurs(steps, CANCELLED)
       || Occurs(steps, INCOMPLETE) {
    } else {
      assert Ordered(steps) == steps;
      forall o | o in steps ensures o.status.SUCCEEDED? {}
    }
  }

  /** Outcomes that follow the required steps position by position. */
  ghost predicate Positional(steps: seq<StepOutcome>, required: seq<StepName>) {
    |steps| <= |required| && forall j :: 0 <= j < |steps| ==> steps[j].step == required[j]
  }

  lemma {:induction false} PositionalOccurrences(steps: seq<StepOutcome>, required: seq<StepName>, k: nat)
    requires Positional(steps, required) && Distinct(required) && k < |required|
    ensures Occurrences(steps, required[k]) == if k < |steps| then 1 else 0
    decreases |steps|
  {
    if steps != [] {
      if k > 0 {
        PositionalOccurrences(steps[1..], required[1..], k - 1);
      } else {
        AbsentAfter(steps[1..], required[1..], required[0]);
      }
    }
  }

  lemma {:induction false} AbsentAfter(steps: seq<StepOutcome>, required: seq<StepName>, r: StepName)
    requires Positional(steps, required) && r !in required
    ensures Occurrences(steps, r) == 0
    decreases |steps|
  {
    if steps != [] { AbsentAfter(steps[1..], required[1..], r); }
  }

  /** A run that records its required steps in order succeeds exactly when it got through all of them,
      each succeeded, and the machine was restored. */
  lemma {:induction false} PositionalSuccess(steps: seq<StepOutcome>, restoration: StepOutcome, required: seq<StepName>)
    requires Positional(steps, required) && Distinct(required) && required != []
    ensures Calculate(steps, Some(restoration), Some(required)).status.SUCCEEDED? <==>
            restoration.status.SUCCEEDED? && |steps| == |required| && forall o :: o in steps ==> o.status.SUCCEEDED?
  {
    SucceedsExactlyWhen(steps, Some(restoration), required);
    forall k | 0 <= k < |required| ensures Occurrences(steps, required[k]) == if k < |steps| then 1 else 0 {
      PositionalOccurrences(steps, required, k);
    }
    if |steps| < |required| {
      assert required[|steps|] in required;
    }
  }
}
