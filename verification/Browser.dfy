/** The verification browser: when pages that cannot be read are blamed on the browser, and how often it
    is restarted before the run gives up. */
module Browser {
  import opened Common

  datatype Error = Cancelled | BrowserLost | SelectorError | PageError

  /** `answers`: the driver could still report the current URL. */
  datatype Observation = Observation(answers: bool, error: Option<Error>)

  datatype Outcome = Seen(observation: Observation) | Lost

  /** A failure that says nothing about the page: not even its URL could be read. */
  predicate Dark(o: Observation) {
    o.error.Some? && !o.error.value.Cancelled? && !o.answers
  }

  predicate Readable(o: Observation) {
    o.error.None? || (o.answers && !o.error.value.Cancelled? && !o.error.value.BrowserLost?)
  }

  /** Unreadable, although the browser itself was not reported lost. */
  predicate Blind(o: Observation) {
    Dark(o) && o.error != Some(BrowserLost)
  }

  /** How many blind observations, from `start` up to `end`, followed the last readable one. */
  ghost function BlindCount(world: nat -> Observation, start: nat, end: nat): nat
    requires start <= end
    decreases end
  {
    if start == end || Readable(world(end - 1)) then 0
    else BlindCount(world, start, end - 1) + if Blind(world(end - 1)) then 1 else 0
  }

  /** What the k-th observation says of a browser that has been observed since `start`: it is lost if it
      says so, on an unnamed failure, or when the allowance of blind observations is used up. */
  ghost predicate Blames(limit: nat, world: nat -> Observation, start: nat, k: nat)
    requires start <= k
  {
    var o := world(k);
    || o.error == Some(BrowserLost)
    || (Dark(o) && (o.error == Some(SelectorError) || BlindCount(world, start, k + 1) >= limit))
  }

  /** The k-th attempt of a call that began with attempt `first` on a browser observed since `begun`; any
      later attempt is made with a new browser. */
  ghost predicate Costs(limit: nat, world: nat -> Observation, begun: nat, first: nat, k: nat)
    requires begun <= first <= k
  {
    Blames(limit, world, if k == first then begun else k, k)
  }

  /** Each of the attempts from `first` up to `end` cost the browser it was made with. */
  ghost predicate Spent(limit: nat, world: nat -> Observation, begun: nat, first: nat, end: nat)
    requires begun <= first
  {
    forall k: nat :: first <= k < end ==> Costs(limit, world, begun, first, k)
  }

  function MaxOf(a: int, b: int): int { if a > b then a else b }

  lemma {:induction false} NothingSpent(limit: nat, world: nat -> Observation, begun: nat, first: nat)
    requires begun <= first
    ensures Spent(limit, world, begun, first, first)
  {
  }

  lemma {:induction false} SpentSnoc(limit: nat, world: nat -> Observation, begun: nat, first: nat, end: nat)
    requires begun <= first <= end && Spent(limit, world, begun, first, end) && Costs(limit, world, begun, first, end)
    ensures Spent(limit, world, begun, first, end + 1)
  {
    hide Costs;
  }

  /** So an ordinary blind page costs the browser only after limit - 1 others with nothing readable between. */
  lemma {:induction false} BlindRun(world: nat -> Observation, start: nat, end: nat) returns (from: nat)
    requires start <= end
    ensures start <= from <= end && forall j :: from <= j < end ==> !Readable(world(j))
    ensures |set j | from <= j < end && Blind(world(j))| == BlindCount(world, start, end)
  {
    hide Readable, Blind;
    if start == end || Readable(world(end - 1)) {
      from := end;
      assert forall j: nat :: from <= j < end ==> !Blind(world(j));
    } else {
      from := BlindRun(world, start, end - 1);
      OneMoreBlind(world, from, end - 1);
    }
  }

  lemma {:induction false} OneMoreBlind(world: nat -> Observation, from: nat, end: nat)
    requires from <= end
    ensures |set j | from <= j < end + 1 && Blind(world(j))| ==
            |set j | from <= j < end && Blind(world(j))| + if Blind(world(end)) then 1 else 0
  {
    hide Blind;
    assert (set j | from <= j < end + 1 && Blind(world(j))) ==
           (set j | from <= j < end && Blind(world(j))) + if Blind(world(end)) then {end} else {};
  }

  /** Nothing but unreadable pages from `i` up to `j`. */
  ghost predicate DarkStretch(reports: seq<Observation>, i: int, j: int) {
    0 <= i <= j <= |reports| && forall k :: i <= k < j ==> Dark(reports[k])
  }

  function Min(a: int, b: int): int { if a < b then a else b }

  class BrowserProvider {
    const maxRestarts: nat
    const blindFailureLimit: nat
    const world: nat -> Observation      // what the k-th attempt observes
    const stops: nat -> bool             // what the k-th cancellation poll answers
    var restarts: nat
    var blindFailures: nat
    var attempts: nat
    var polls: nat
    ghost var dark: nat                  // unreadable pages reported since the last readable one
    ghost var mark: nat                  // restarts spent when that one was seen
    ghost var since: nat                 // attempts made when the present browser was opened

    constructor (maxRestarts: nat, blindFailureLimit: nat, world: nat -> Observation, stops: nat -> bool)
      requires blindFailureLimit >= 1
      ensures this.maxRestarts == maxRestarts && this.blindFailureLimit == blindFailureLimit
      ensures this.world == world && this.stops == stops && restarts == 0 && attempts == 0
      ensures Bounded() && Counted() && dark == 0
    {
      this.maxRestarts, this.blindFailureLimit, this.world, this.stops := maxRestarts, blindFailureLimit, world, stops;
      restarts, blindFailures, attempts, polls, dark, mark, since := 0, 0, 0, 0, 0, 0, 0;
    }

    /** Each browser reports at most limit - 1 unreadable pages in a row. */
    ghost predicate Bounded()
      reads this`mark, this`restarts, this`blindFailures, this`dark
    {
      && blindFailureLimit >= 1 && mark <= restarts <= maxRestarts
      && dark <= (restarts - mark) * (blindFailureLimit - 1) + Min(blindFailures, blindFailureLimit - 1)
    }

    /** The counter is that of the blind observations of the present browser. */
    ghost predicate Counted()
      reads this`since, this`attempts, this`blindFailures
    {
      since <= attempts && blindFailures == BlindCount(world, since, attempts)
    }

    /** The last attempt is what is reported, and those before it, from `first` on, each cost a browser. */
    ghost predicate Reports(begun: nat, first: nat, o: Observation)
      requires begun <= first
      reads this
    {
      && first < attempts && o == world(attempts - 1)
      && Spent(blindFailureLimit, world, begun, first, attempts - 1)
      && !Costs(blindFailureLimit, world, begun, first, attempts - 1)
    }

    method IsCancelled() returns (r: bool)
      modifies this`polls
      ensures r == stops(old(polls)) && polls == old(polls) + 1
    {
      r := stops(polls);
      polls := polls + 1;
    }

    method ObserveOnce() returns (o: Observation)
      modifies this`attempts
      ensures attempts == old(attempts) + 1 && o == world(old(attempts))
    {
      o := world(attempts);
      attempts := attempts + 1;
    }

    /** `_judge_browser`. */
    method JudgeBrowser(o: Observation) returns (r: Observation)
      requires Bounded()
      modifies this`blindFailures, this`dark, this`mark
      ensures Bounded() && mark <= restarts
      ensures blindFailures ==
        if Readable(o) then 0 else if Blind(o) then old(blindFailures) + 1 else old(blindFailures)
      ensures r == o || (Dark(o) && r == o.(error := Some(BrowserLost)))
      ensures Dark(r) && r.error != Some(BrowserLost) ==>
        r.error != Some(SelectorError) && blindFailures < blindFailureLimit && dark == old(dark) + 1
      ensures Readable(r) ==> dark == 0
      ensures !Readable(r) && !(Dark(r) && r.error != Some(BrowserLost)) ==> dark == old(dark)
      // the browser is blamed exactly for its own loss, an unnamed failure, or the last unreadable page allowed
      ensures r.error == Some(BrowserLost) <==>
                o.error == Some(BrowserLost)
                || (Dark(o) && (o.error == Some(SelectorError) || old(blindFailures) + 1 >= blindFailureLimit))
    {
      if o.error.None? || o.error.value.Cancelled? || o.error.value.BrowserLost? {
        if o.error.None? {
          blindFailures := 0;
          dark, mark := 0, restarts;
        }
        return o;
      }
      if o.answers {
        blindFailures := 0;
        dark, mark := 0, restarts;
        return o;
      }
      blindFailures := blindFailures + 1;
      var limit := if o.error.value.SelectorError? then 1 else blindFailureLimit;
      if blindFailures < limit {
        dark := dark + 1;
        return o;
      }
      r := o.(error := Some(BrowserLost));
    }

    /** Opening a fresh browser gives the next pages a new allowance. */
    method Restart()
      requires Bounded() && restarts < maxRestarts
      modifies this`restarts, this`blindFailures, this`since
      ensures Bounded() && restarts == old(restarts) + 1 && blindFailures == 0 && since == attempts && Counted()
    {
      Allowance(restarts - mark, blindFailureLimit - 1);
      restarts := restarts + 1;
      blindFailures := 0;
      since := attempts;
    }

    /** One observation, judged. */
    method JudgedObservation(ghost begun: nat, ghost first: nat) returns (o: Observation)
      requires Bounded() && Counted() && begun <= first <= attempts
      requires since == if attempts == first then begun else attempts
      modifies this`attempts, this`blindFailures, this`dark, this`mark
      ensures Bounded() && Counted() && attempts == old(attempts) + 1
      ensures o.error == Some(BrowserLost) <==> Costs(blindFailureLimit, world, begun, first, attempts - 1)
      ensures o.error != Some(BrowserLost) ==> o == world(attempts - 1)
      ensures Dark(o) && o.error != Some(BrowserLost) ==> o.error != Some(SelectorError) && dark == old(dark) + 1
      ensures Readable(o) ==> dark == 0
      ensures !Readable(o) && !(Dark(o) && o.error != Some(BrowserLost)) ==> dark == old(dark)
      ensures Dark(world(attempts - 1)) ==> Dark(o)
    {
      o := ObserveOnce();
      o := JudgeBrowser(o);
    }

    /** `observe`: it reports a page, or gives up with all restarts spent; what it reports never blames
        the page for a browser that is gone. */
    method Observe() returns (outcome: Outcome)
      requires Bounded() && Counted()
      modifies this
      ensures Bounded() && Counted() && old(restarts) <= restarts
      // what the attempts of this call found: all of them cost a browser, except one that is reported
      ensures polls > old(polls) && attempts >= old(attempts)
      ensures restarts == old(restarts) + MaxOf(attempts - old(attempts) - 1, 0)
      ensures since == if restarts == old(restarts) then old(since) else attempts - 1
      ensures outcome.Lost? ==>
        attempts > old(attempts) && Spent(blindFailureLimit, world, old(since), old(attempts), attempts)
      // a cancellation is asked for before each attempt, and obeyed
      ensures forall k :: old(polls) <= k < polls - 1 ==> !stops(k)
      ensures if stops(polls - 1) then
                && outcome == Seen(Observation(false, Some(Cancelled)))
                && attempts - old(attempts) == polls - old(polls) - 1
                && Spent(blindFailureLimit, world, old(since), old(attempts), attempts)
              else
                && attempts - old(attempts) == polls - old(polls)
                && (outcome.Seen? ==> Reports(old(since), old(attempts), outcome.observation))
      ensures outcome.Lost? ==> restarts == maxRestarts
      ensures outcome.Seen? ==> outcome.observation.error != Some(BrowserLost)
      ensures outcome.Seen? && Dark(outcome.observation) ==> outcome.observation.error != Some(SelectorError)
      ensures outcome.Seen? && Dark(outcome.observation) ==> dark == old(dark) + 1
      ensures outcome.Seen? && Readable(outcome.observation) ==> dark == 0
      ensures outcome.Lost? || !(Dark(outcome.observation) || Readable(outcome.observation)) ==> dark == old(dark)
      ensures (forall k :: Dark(world(k))) && (forall k :: !stops(k)) ==> outcome.Lost? || Dark(outcome.observation)
    {
      hide Spent, Costs, BlindCount;
      NothingSpent(blindFailureLimit, world, since, attempts);
      var stop := IsCancelled();
      if stop { return Seen(Observation(false, Some(Cancelled))); }
      var o := JudgedObservation(since, attempts);
      if o.error != Some(BrowserLost) { return Seen(o); }
      SpentSnoc(blindFailureLimit, world, old(since), old(attempts), attempts - 1);
      while restarts < maxRestarts
        invariant Bounded() && Counted() && old(restarts) <= restarts <= maxRestarts && dark == old(dark)
        invariant polls - old(polls) == attempts - old(attempts) > 0
        invariant forall k :: old(polls) <= k < polls ==> !stops(k)
        invariant restarts == old(restarts) + (attempts - old(attempts) - 1)
        invariant since == if restarts == old(restarts) then old(since) else attempts - 1
        invariant Spent(blindFailureLimit, world, old(since), old(attempts), attempts)
        decreases maxRestarts - restarts
      {
        stop := IsCancelled();
        if stop { return Seen(Observation(false, Some(Cancelled))); }
        Restart();
        o := JudgedObservation(old(since), old(attempts));
        if o.error != Some(BrowserLost) { return Seen(o); }
        SpentSnoc(blindFailureLimit, world, old(since), old(attempts), attempts - 1);
      }
      outcome := Lost;
    }

    /** Observing pages until the browser is given up. Never more than (limit - 1)(restarts + 1) pages in
        a row are reported unreadable; so where nothing can be read, the run ends after at most that
        many reports. */
    method Survey(pages: nat) returns (reports: seq<Observation>, lost: bool)
      requires Bounded() && Counted() && dark == 0
      modifies this
      ensures Bounded()
      ensures forall i, j :: DarkStretch(reports, i, j) ==> j - i <= (blindFailureLimit - 1) * (maxRestarts + 1)
      ensures forall o :: o in reports ==> o.error != Some(BrowserLost) && !(Dark(o) && o.error == Some(SelectorError))
      ensures |reports| == pages || (lost && restarts == maxRestarts)
      ensures (forall k :: Dark(world(k))) && (forall k :: !stops(k)) ==>
                |reports| <= (blindFailureLimit - 1) * (maxRestarts + 1)
                && (pages > (blindFailureLimit - 1) * (maxRestarts + 1) ==> lost)
    {
      reports, lost := [], false;
      ghost var most := (blindFailureLimit - 1) * (maxRestarts + 1);
      AllowanceTotal(restarts - mark, maxRestarts, blindFailureLimit - 1);
      while |reports| < pages && !lost
        invariant Bounded() && Counted() && |reports| <= pages && (lost ==> restarts == maxRestarts)
        invariant forall o :: o in reports ==>
          o.error != Some(BrowserLost) && !(Dark(o) && o.error == Some(SelectorError))
        invariant dark <= most
        invariant forall i :: DarkStretch(reports, i, |reports|) ==> |reports| - i <= dark
        invariant forall i, j :: DarkStretch(reports, i, j) ==> j - i <= most
        invariant (forall k :: Dark(world(k))) && (forall k :: !stops(k)) ==> |reports| == dark
        decreases pages - |reports|, !lost
      {
        ghost var before := dark;
        var outcome := Observe();
        match outcome
        case Seen(o) =>
          AllowanceTotal(restarts - mark, maxRestarts, blindFailureLimit - 1);
          OneMoreReport(reports, o, before, dark, most);
          reports := reports + [o];
        case Lost => lost := true;
      }
    }
  }

  lemma {:induction false} OneMoreReport(reports: seq<Observation>, o: Observation, before: int, dark: int, most: int)
    requires forall i :: DarkStretch(reports, i, |reports|) ==> |reports| - i <= before
    requires forall i, j :: DarkStretch(reports, i, j) ==> j - i <= most
    requires dark <= most && 0 <= dark && (Dark(o) ==> dark == before + 1)
    ensures var more := reports + [o];
            && (forall i :: DarkStretch(more, i, |more|) ==> |more| - i <= dark)
            && (forall i, j :: DarkStretch(more, i, j) ==> j - i <= most)
  {
    var more := reports + [o];
    forall i | DarkStretch(more, i, |more|) ensures |more| - i <= dark {
      if i < |more| {
        assert Dark(more[|reports|]);
        assert forall k :: i <= k < |reports| ==> Dark(more[k]) && more[k] == reports[k];
        assert DarkStretch(reports, i, |reports|);
      }
    }
    forall i, j | DarkStretch(more, i, j) ensures j - i <= most {
      if j <= |reports| {
        assert forall k :: i <= k < j ==> Dark(more[k]) && more[k] == reports[k];
        assert DarkStretch(reports, i, j);
      }
    }
  }

  lemma {:induction false} Allowance(n: nat, each: nat)
    ensures (n + 1) * each == n * each + each
  {
  }

  lemma {:induction false} AllowanceTotal(n: nat, most: nat, each: nat)
    requires n <= most
    ensures n * each + each <= each * (most + 1)
  {
    assert (most - n) * each >= 0;
    assert (most - n) * each == most * each - n * each;
  }
}
