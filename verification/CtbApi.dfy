/** Adaptive snapshot collection: keep taking passes until enough of them agree, then accept what at
    least two passes saw. Ratios are exact. */
module CtbApi {
  import opened Common
  import opened Names
  import opened Windows

  /** One listed room; `details` stands for the fields a snapshot copies from the latest pass. */
  datatype Observation = Observation(url: string, seconds: nat, details: string)

  /** `models` is the per-pass dictionary, keyed by URL. */
  datatype Pass = Pass(index: nat, status: OutcomeStatus, models: map<string, Observation>)

  datatype Adaptive = Adaptive(minPasses: int, maxPasses: int, jaccard: real, countDelta: real, stablePairs: int)

  datatype Code = PassCancelled | SnapshotNotStable | EmptyStableSnapshot

  datatype Snapshot = Snapshot(status: OutcomeStatus, models: seq<Observation>, passes: seq<Pass>,
      quarantined: seq<Observation>,
                               code: Option<Code>)

  // ---------------------------------------------------------------- agreement

  /** The pair test, as the loop computes it: the previous pass may be empty. */
  predicate Agree(v: Adaptive, previous: set<string>, current: set<string>) {
    var union := current + previous;
    var jaccard := if |union| > 0 then Ratio(|current * previous|, |union|) else 0.0;
    var denominator := Max(Max(|previous|, |current|), 1);
    jaccard >= v.jaccard && Ratio(Gap(|previous|, |current|), denominator) <= v.countDelta
  }

  /** How many agreeing pairs the passes end in (`stable_pairs`). */
  function Pairs(v: Adaptive, passes: seq<Pass>): nat {
    if passes == [] then 0
    else
      var n := |passes| - 1;
      var current := passes[n];
      if !current.status.SUCCEEDED? || current.models == map[] then 0
      else if n > 0 && passes[n - 1].status.SUCCEEDED? && Agree(v, passes[n - 1].models.Keys, current.models.Keys)
        then Pairs(v, passes[..n]) + 1
      else 0
  }

  function Completed(passes: seq<Pass>): nat {
    if passes == [] then 0
    else Completed(passes[..|passes| - 1]) + if passes[|passes| - 1].status.SUCCEEDED? then 1 else 0
  }

  /** The pair test without division: what both passes list is at least the demanded share of what either
      lists, and their sizes differ by at most the allowed share of the larger. */
  lemma {:induction false} AgreeMeans(v: Adaptive, a: set<string>, b: set<string>)
    ensures Agree(v, a, b) <==>
            if a == {} && b == {} then v.jaccard <= 0.0 && v.countDelta >= 0.0
            else
              && |a * b| as real >= v.jaccard * |a + b| as real
              && (|a| >= |b| ==> |a| as real - |b| as real <= v.countDelta * |a| as real)
              && (|b| >= |a| ==> |b| as real - |a| as real <= v.countDelta * |b| as real)
  {
    hide Ratio, Gap, Max;
    assert b * a == a * b && b + a == a + b;
    if a == {} && b == {} {
      assert |a + b| == 0;
      NoRatio();
    } else {
      NonEmptyUnion(a, b);
      RatioAtLeast(|a * b|, |a + b|, v.jaccard);
      GapMeans(|a|, |b|, v.countDelta);
    }
  }

  lemma {:induction false} NonEmptyUnion(a: set<string>, b: set<string>)
    requires a != {} || b != {}
    ensures |a + b| > 0 && (|a| > 0 || |b| > 0)
  {
    SubsetSize(a, a + b);
    SubsetSize(b, a + b);
  }

  lemma {:induction false} NoRatio()
    ensures Ratio(Gap(0, 0), Max(Max(0, 0), 1)) == 0.0
  {
  }

  ghost function Successes(passes: seq<Pass>): set<int> {
    set i | 0 <= i < |passes| && passes[i].status.SUCCEEDED?
  }

  /** How many passes succeeded. */
  lemma {:induction false} CompletedMeans(passes: seq<Pass>)
    ensures Completed(passes) == |Successes(passes)|
  {
    if passes == [] {
      assert Successes(passes) == {};
    } else {
      var n := |passes| - 1;
      CompletedMeans(passes[..n]);
      OneMoreSuccess(passes);
      hide Successes;
    }
  }

  lemma {:induction false} OneMoreSuccess(passes: seq<Pass>)
    requires passes != []
    ensures var n := |passes| - 1;
            |Successes(passes)| == |Successes(passes[..n])| + if passes[n].status.SUCCEEDED? then 1 else 0
  {
    var n := |passes| - 1;
    assert Successes(passes) == Successes(passes[..n]) + if passes[n].status.SUCCEEDED? then {n} else {};
  }

  /** The last k + 1 passes all succeeded, were all non-empty, and agree pairwise. */
  ghost predicate EndsStable(v: Adaptive, passes: seq<Pass>, k: nat) {
    && |passes| > k
    && (forall i :: |passes| - 1 - k <= i < |passes| ==> passes[i].status.SUCCEEDED? && passes[i].models != map[])
    && (forall i :: |passes| - 1 - k <= i < |passes| - 1 ==> Agree(v, passes[i].models.Keys, passes[i + 1].models.Keys))
  }

  /** An empty pass agrees with a non-empty one only under thresholds that demand nothing. */
  lemma {:induction false} EmptyAgreement(v: Adaptive, current: set<string>)
    requires current != {}
    ensures Agree(v, {}, current) <==> v.jaccard <= 0.0 && v.countDelta >= 1.0
  {
    assert |current| > 0 && current + {} == current && current * {} == {};
    assert Ratio(|current|, |current|) == 1.0;
    assert Ratio(0, |current|) == 0.0;
  }

  lemma {:induction false} LastPair(v: Adaptive, passes: seq<Pass>)
    requires Pairs(v, passes) >= 1 && (v.jaccard > 0.0 || v.countDelta < 1.0)
    ensures EndsStable(v, passes, 1)
    ensures Pairs(v, passes) == Pairs(v, passes[..|passes| - 1]) + 1
  {
    hide Agree;
    var n := |passes| - 1;
    NonEmptyPair(v, passes[n - 1].models, passes[n].models);
  }

  lemma {:induction false} NonEmptyPair(v: Adaptive, previous: map<string, Observation>,
      current: map<string, Observation>)
    requires Agree(v, previous.Keys, current.Keys) && current != map[]
    requires v.jaccard > 0.0 || v.countDelta < 1.0
    ensures previous != map[]
  {
    assert current.Keys != {};
    EmptyAgreement(v, current.Keys);
  }

  lemma {:induction false} PairsMean(v: Adaptive, passes: seq<Pass>, k: nat)
    requires 0 < k <= Pairs(v, passes)
    requires v.jaccard > 0.0 || v.countDelta < 1.0
    ensures EndsStable(v, passes, k)
  {
    hide Agree, Pairs;
    LastPair(v, passes);
    if k > 1 {
      PairsMean(v, passes[..|passes| - 1], k - 1);
    }
  }

  /** A run of k agreeing pairs means k + 1 successful non-empty agreeing passes, for every history,
      exactly when the thresholds demand something: some overlap, or some bound on the size change.
      Otherwise one empty pass can stand in for the first of them. */
  lemma {:induction false} PairsMeanExactly(v: Adaptive, k: nat)
    requires k > 0
    ensures (forall passes :: Pairs(v, passes) >= k ==> EndsStable(v, passes, k))
      <==> v.jaccard > 0.0 || v.countDelta < 1.0
  {
    if v.jaccard > 0.0 || v.countDelta < 1.0 {
      forall passes | Pairs(v, passes) >= k ensures EndsStable(v, passes, k) { PairsMean(v, passes, k); }
    } else {
      EmptyFirst(v, k);
      assert !EndsStable(v, AfterEmpty(k), k);
    }
  }

  /** An empty pass followed by k identical ones. */
  function AfterEmpty(k: nat): (r: seq<Pass>)
    ensures |r| == k + 1 && r[0].models == map[]
  {
    if k == 0 then [Pass(1, SUCCEEDED, map[])]
    else AfterEmpty(k - 1) + [Pass(k + 1, SUCCEEDED, map["a" := Observation("a", 0, "")])]
  }

  lemma {:induction false} EmptyFirst(v: Adaptive, k: nat)
    requires v.jaccard <= 0.0 && v.countDelta >= 1.0
    ensures Pairs(v, AfterEmpty(k)) == k && AfterEmpty(k)[k].status.SUCCEEDED?
      && (k == 0 ==> AfterEmpty(k)[k].models.Keys == {})
    ensures k > 0 ==> AfterEmpty(k)[k].models.Keys == {"a"}
  {
    if k > 0 {
      EmptyFirst(v, k - 1);
      assert AfterEmpty(k)[..k] == AfterEmpty(k - 1);
      EmptyAgreement(v, {"a"});
      SameAgree(v, {"a"});
      hide Agree;
    }
  }

  lemma {:induction false} SameAgree(v: Adaptive, urls: set<string>)
    requires v.jaccard <= 0.0 && v.countDelta >= 1.0 && urls != {}
    ensures Agree(v, urls, urls)
  {
    assert urls + urls == urls && urls * urls == urls && |urls| > 0;
  }

  // ---------------------------------------------------------------- what the passes saw

  /** The URL sets of the passes that succeeded. */
  function SuccessSets(passes: seq<Pass>): seq<set<string>> {
    if passes == [] then []
    else SuccessSets(passes[..|passes| - 1])
         + if passes[|passes| - 1].status.SUCCEEDED? then [passes[|passes| - 1].models.Keys] else []
  }

  /** All observations of a URL in successful passes, in order. */
  function Observations(passes: seq<Pass>, url: string): seq<Observation> {
    if passes == [] then []
    else
      var last := passes[|passes| - 1];
      Observations(passes[..|passes| - 1], url)
      + if last.status.SUCCEEDED? && url in last.models then [last.models[url]] else []
  }

  lemma {:induction false} ObservedCount(passes: seq<Pass>, url: string)
    ensures |Observations(passes, url)| == Count(SuccessSets(passes), url)
  {
    if passes != [] {
      var n := |passes| - 1;
      ObservedCount(passes[..n], url);
      if passes[n].status.SUCCEEDED? {
        assert SuccessSets(passes)[..|SuccessSets(passes)| - 1] == SuccessSets(passes[..n]);
        assert Count(SuccessSets(passes), url)
          == Count(SuccessSets(passes[..n]), url) + if url in passes[n].models then 1 else 0;
      } else {
        assert SuccessSets(passes) == SuccessSets(passes[..n]);
      }
    }
  }

  /** Two non-empty agreeing passes with a positive overlap threshold share a URL, so something is
      accepted: the empty stable snapshot cannot be reported. */
  lemma {:induction false} AgreementIsRepeated(v: Adaptive, passes: seq<Pass>)
    requires Pairs(v, passes) >= 1 && v.jaccard > 0.0
    ensures Repeated(SuccessSets(passes)) != {}
  {
    hide Agree, Count, Union, Observations, SuccessSets, Repeated;
    var n := |passes| - 1;
    OverlapShared(v, passes[n - 1].models.Keys, passes[n].models.Keys);
    var u :| u in passes[n - 1].models && u in passes[n].models;
    hide Pairs;
    SharedIsRepeated(passes, u);
  }

  lemma {:induction false} SharedIsRepeated(passes: seq<Pass>, url: string)
    requires |passes| >= 2
    requires forall i :: |passes| - 2 <= i < |passes| ==> passes[i].status.SUCCEEDED? && url in passes[i].models
    ensures url in Repeated(SuccessSets(passes))
  {
    hide Count, Union, Observations, SuccessSets;
    SeenTwice(passes, url);
    ObservedCount(passes, url);
    CountsCover(SuccessSets(passes), url);
  }

  lemma {:induction false} OverlapShared(v: Adaptive, a: set<string>, b: set<string>)
    requires Agree(v, a, b) && v.jaccard > 0.0
    ensures a * b != {}
  {
    assert forall n: nat :: n > 0 ==> Ratio(0, n) == 0.0;
    assert b * a == a * b;
  }

  lemma {:induction false} SeenTwice(passes: seq<Pass>, url: string)
    requires |passes| >= 2
    requires forall i :: |passes| - 2 <= i < |passes| ==> passes[i].status.SUCCEEDED? && url in passes[i].models
    ensures |Observations(passes, url)| >= 2
  {
    var n := |passes| - 1;
    var before := passes[..n];
    assert before[n - 1] == passes[n - 1];
    assert |Observations(before, url)| == |Observations(before[..n - 1], url)| + 1;
  }

  function MaxSeconds(items: seq<Observation>): (r: nat)
    requires items != []
    ensures forall o :: o in items ==> o.seconds <= r
    ensures exists o :: o in items && o.seconds == r
  {
    var n := |items| - 1;
    if n == 0 then items[0].seconds
    else
      var rest := MaxSeconds(items[..n]);
      assert items == items[..n] + [items[n]];
      assert items[n] in items;
      if rest < items[n].seconds then items[n].seconds else rest
  }

  // ---------------------------------------------------------------- the collection loop

  /** The dictionary of everything seen so far. */
  ghost predicate Seen(passes: seq<Pass>, seen: map<string, seq<Observation>>) {
    forall url :: Observations(passes, url) == Earlier(seen, url) && (url in seen ==> seen[url] != [])
  }

  function Earlier(seen: map<string, seq<Observation>>, url: string): seq<Observation> {
    if url in seen then seen[url] else []
  }

  /** The condition under which the loop considers stopping. */
  predicate Converged(v: Adaptive, passes: seq<Pass>) {
    && passes != [] && passes[|passes| - 1].status.SUCCEEDED? && passes[|passes| - 1].models != map[]
    && Completed(passes) >= v.minPasses && Pairs(v, passes) >= v.stablePairs
  }

  ghost predicate SnapshotSound(v: Adaptive, s: Snapshot) {
    var sets := SuccessSets(s.passes);
    && 0 < |s.passes| <= Max(1, v.maxPasses)
    && (s.status.SUCCEEDED? ==> s.code.None? && Pairs(v, s.passes) >= v.stablePairs && s.models != []
                                && Reported(s.passes, s.models, Repeated(sets), true)
                                && Reported(s.passes, s.quarantined, Lone(sets), false))
    && (!s.status.SUCCEEDED? ==> s.models == [] && s.code.Some?)
    && (s.code == Some(SnapshotNotStable) ==> Pairs(v, s.passes) < v.stablePairs && s.quarantined == [])
    && (s.code == Some(EmptyStableSnapshot) ==> Pairs(v, s.passes) >= v.stablePairs && Repeated(sets) == {})
    && (s.code == Some(PassCancelled) <==> s.passes[|s.passes| - 1].status.CANCELLED?)
    && (s.status.CANCELLED? <==> s.code == Some(PassCancelled))
    && Ended(v, s.passes)
  }

  /** It stops at the first convergence without lone URLs, or at the second convergence, or cancelled, or
      out of passes. */
  ghost predicate Ended(v: Adaptive, passes: seq<Pass>) {
    && passes != []
    && (forall k :: 0 <= k < |passes| && Converged(v, passes[..k]) ==>
      Lone(SuccessSets(passes[..k])) != {} && k < v.maxPasses)
    && (forall j, k :: 0 <= j < k < |passes| ==> !(Converged(v, passes[..j]) && Converged(v, passes[..k])))
    && (passes[|passes| - 1].status.CANCELLED? || Converged(v, passes) || |passes| == Max(1, v.maxPasses))
  }

  /** One entry per URL of the set, in URL order: the latest observation, with the longest time online
      where the URL is accepted. */
  ghost predicate Reported(passes: seq<Pass>, list: seq<Observation>, urls: set<string>, accepted: bool) {
    && |list| == |urls|
    && forall i :: 0 <= i < |list| ==>
         var items := Observations(passes, SortedNames(urls)[i]);
         items != [] && list[i] == Summary(items, accepted)
  }

  // ---------------------------------------------------------------- the result, pass by pass

  /** The k-th pass succeeded and listed the URL. */
  ghost predicate ListedAt(passes: seq<Pass>, url: string, k: int) {
    0 <= k < |passes| && passes[k].status.SUCCEEDED? && url in passes[k].models
  }

  ghost predicate ListedTwice(passes: seq<Pass>, url: string) {
    exists i, j :: i < j && ListedAt(passes, url, i) && ListedAt(passes, url, j)
  }

  ghost predicate ListedOnce(passes: seq<Pass>, url: string) {
    exists k :: ListedAt(passes, url, k) && forall j :: ListedAt(passes, url, j) ==> j == k
  }

  ghost predicate LastListedAt(passes: seq<Pass>, url: string, k: int) {
    ListedAt(passes, url, k) && forall j :: ListedAt(passes, url, j) ==> j <= k
  }

  ghost predicate ObservedAt(passes: seq<Pass>, url: string, k: int, o: Observation) {
    ListedAt(passes, url, k) && passes[k].models[url] == o
  }

  ghost predicate LastIs(passes: seq<Pass>, url: string, k: int, o: Observation) {
    LastListedAt(passes, url, k) && passes[k].models[url] == o
  }

  /** The longest time online any successful pass reported for the URL. */
  ghost predicate Longest(passes: seq<Pass>, url: string, seconds: nat) {
    && (forall j :: ListedAt(passes, url, j) ==> passes[j].models[url].seconds <= seconds)
    && (exists j :: ListedAt(passes, url, j) && passes[j].models[url].seconds == seconds)
  }

  /** The entry has the details of the last pass listing the URL; its time online is that pass's own, or
      the longest of all where the URL is accepted. */
  ghost predicate EntryFor(passes: seq<Pass>, url: string, e: Observation, accepted: bool) {
    if accepted then
      Longest(passes, url, e.seconds) && exists k, o :: LastIs(passes, url, k, o) && e == o.(seconds := e.seconds)
    else exists k :: LastIs(passes, url, k, e)
  }

  /** The URLs accepted are those of two passes at least; the others are those of one. */
  ghost predicate OfKind(passes: seq<Pass>, url: string, accepted: bool) {
    if accepted then ListedTwice(passes, url) else ListedOnce(passes, url)
  }

  /** Exactly the URLs of a kind have their entry on the list. */
  ghost predicate Covers(passes: seq<Pass>, list: seq<Observation>, accepted: bool) {
    && (forall url :: OfKind(passes, url, accepted) ==> exists e :: e in list && EntryFor(passes, url, e, accepted))
    && (forall e :: e in list ==> exists url :: OfKind(passes, url, accepted) && EntryFor(passes, url, e, accepted))
  }

  lemma {:induction false} ListedBefore(passes: seq<Pass>, url: string)
    requires passes != []
    ensures var n := |passes| - 1;
            forall k :: k != n ==> (ListedAt(passes, url, k) <==> ListedAt(passes[..n], url, k))
  {
  }

  /** How often a URL was observed is in how many passes it is listed. */
  lemma {:induction false} ObservationsMean(passes: seq<Pass>, url: string)
    ensures Observations(passes, url) == [] <==> forall k :: !ListedAt(passes, url, k)
    ensures |Observations(passes, url)| == 1 <==> ListedOnce(passes, url)
    ensures |Observations(passes, url)| >= 2 <==> ListedTwice(passes, url)
  {
    if passes != [] {
      var n := |passes| - 1;
      ListedBefore(passes, url);
      ObservationsMean(passes[..n], url);
      hide Observations;
      ObservationsSnoc(passes, url);
      if ListedAt(passes, url, n) { OneMoreListing(passes, url); } else { SameListings(passes, url); }
    }
  }

  lemma {:induction false} ObservationsSnoc(passes: seq<Pass>, url: string)
    requires passes != []
    ensures var n := |passes| - 1;
            Observations(passes, url) == Observations(passes[..n], url)
              + if ListedAt(passes, url, n) then [passes[n].models[url]] else []
  {
  }

  lemma {:induction false} OneMoreListing(passes: seq<Pass>, url: string)
    requires passes != [] && ListedAt(passes, url, |passes| - 1)
    ensures var before := passes[..|passes| - 1];
            && (ListedOnce(passes, url) <==> forall k :: !ListedAt(before, url, k))
            && (ListedTwice(passes, url) <==> exists k :: ListedAt(before, url, k))
  {
    var n := |passes| - 1;
    ListedBefore(passes, url);
    if k :| ListedAt(passes[..n], url, k) {
      assert k < n && ListedAt(passes, url, k);
    } else {
      forall j | ListedAt(passes, url, j) ensures j == n {}
    }
  }

  lemma {:induction false} SameListings(passes: seq<Pass>, url: string)
    requires passes != [] && !ListedAt(passes, url, |passes| - 1)
    ensures ListedOnce(passes, url) <==> ListedOnce(passes[..|passes| - 1], url)
    ensures ListedTwice(passes, url) <==> ListedTwice(passes[..|passes| - 1], url)
  {
    var n := |passes| - 1;
    ListedBefore(passes, url);
    assert forall k :: ListedAt(passes, url, k) <==> ListedAt(passes[..n], url, k);
    hide ListedAt;
  }

  /** The last observation is that of the last pass listing the URL. */
  lemma {:induction false} LastObservation(passes: seq<Pass>, url: string) returns (k: int)
    requires Observations(passes, url) != []
    ensures var items := Observations(passes, url); LastIs(passes, url, k, items[|items| - 1])
  {
    var n := |passes| - 1;
    ListedBefore(passes, url);
    ObservationsSnoc(passes, url);
    hide Observations;
    if ListedAt(passes, url, n) {
      k := n;
    } else {
      k := LastObservation(passes[..n], url);
      assert ListedAt(passes[..n], url, k);
    }
  }

  /** The observations are those of all passes listing the URL. */
  lemma {:induction false} ObservedIn(passes: seq<Pass>, url: string, o: Observation)
    ensures o in Observations(passes, url) <==> exists k :: ObservedAt(passes, url, k, o)
  {
    if passes != [] {
      var n := |passes| - 1;
      ObservedIn(passes[..n], url, o);
      ObservationsSnoc(passes, url);
      ListedBefore(passes, url);
      hide Observations;
      if k :| ObservedAt(passes[..n], url, k, o) { assert ObservedAt(passes, url, k, o); }
      if k :| ObservedAt(passes, url, k, o) { assert k == n || ObservedAt(passes[..n], url, k, o); }
      if ListedAt(passes, url, n) && o == passes[n].models[url] { assert ObservedAt(passes, url, n, o); }
    }
  }

  lemma {:induction false} LongestIs(passes: seq<Pass>, url: string)
    requires Observations(passes, url) != []
    ensures Longest(passes, url, MaxSeconds(Observations(passes, url)))
  {
    var items := Observations(passes, url);
    var longest := MaxSeconds(items);
    hide Observations, MaxSeconds;
    forall j | ListedAt(passes, url, j) ensures passes[j].models[url].seconds <= longest {
      var o := passes[j].models[url];
      assert ObservedAt(passes, url, j, o);
      ObservedIn(passes, url, o);
    }
    var o :| o in items && o.seconds == longest;
    ObservedIn(passes, url, o);
    var k :| ObservedAt(passes, url, k, o);
    assert ListedAt(passes, url, k);
  }

  lemma {:induction false} SummaryIsEntry(passes: seq<Pass>, url: string, accepted: bool)
    requires Observations(passes, url) != []
    ensures EntryFor(passes, url, Summary(Observations(passes, url), accepted), accepted)
  {
    hide Longest, MaxSeconds, ListedAt, Observations;
    var items := Observations(passes, url);
    var k := LastObservation(passes, url);
    LongestIs(passes, url);
    var o := items[|items| - 1];
    assert LastIs(passes, url, k, o);
    assert Summary(items, accepted) == if accepted then o.(seconds := MaxSeconds(items)) else o;
  }

  ghost function Kind(passes: seq<Pass>, accepted: bool): set<string> {
    if accepted then Repeated(SuccessSets(passes)) else Lone(SuccessSets(passes))
  }

  lemma {:induction false} KindIs(passes: seq<Pass>, url: string, accepted: bool)
    ensures url in Kind(passes, accepted) <==> OfKind(passes, url, accepted)
  {
    ObservedCount(passes, url);
    CountsCover(SuccessSets(passes), url);
    ObservationsMean(passes, url);
    hide SuccessSets, Observations, Count, ListedTwice, ListedOnce;
  }

  lemma {:induction false} ReportedCovers(passes: seq<Pass>, list: seq<Observation>, accepted: bool)
    requires Reported(passes, list, Kind(passes, accepted), accepted)
    ensures Covers(passes, list, accepted)
  {
    hide Kind, OfKind, Observations, Summary, EntryFor;
    var order := SortedNames(Kind(passes, accepted));
    forall url | OfKind(passes, url, accepted) ensures exists e :: e in list && EntryFor(passes, url, e, accepted) {
      KindIs(passes, url, accepted);
      assert url in order;
      var i :| 0 <= i < |order| && order[i] == url;
      SummaryIsEntry(passes, url, accepted);
      assert list[i] in list;
    }
    forall e | e in list ensures exists url :: OfKind(passes, url, accepted) && EntryFor(passes, url, e, accepted) {
      var i :| 0 <= i < |list| && list[i] == e;
      SummaryIsEntry(passes, order[i], accepted);
      assert order[i] in order;
      KindIs(passes, order[i], accepted);
    }
  }

  /** What a successful snapshot guarantees: its last passes were successful, non-empty and agree
      pairwise; accepted and quarantined URLs partition everything the successful passes listed. */
  lemma {:induction false} AdaptiveGuarantees(v: Adaptive, s: Snapshot)
    requires SnapshotSound(v, s)
    ensures s.status.SUCCEEDED? && v.stablePairs >= 1 && (v.jaccard > 0.0 || v.countDelta < 1.0) ==>
      EndsStable(v, s.passes, v.stablePairs)
    ensures s.status.SUCCEEDED? ==> |s.models| + |s.quarantined| == |Union(SuccessSets(s.passes))|
    ensures v.stablePairs >= 1 && v.jaccard > 0.0 ==> s.code != Some(EmptyStableSnapshot)
  {
    var sets := SuccessSets(s.passes);
    Partition(sets);
    if s.status.SUCCEEDED? && v.stablePairs >= 1 && (v.jaccard > 0.0 || v.countDelta < 1.0) {
      PairsMean(v, s.passes, v.stablePairs);
    }
    if v.stablePairs >= 1 && v.jaccard > 0.0 && s.code == Some(EmptyStableSnapshot) {
      AgreementIsRepeated(v, s.passes);
    }
  }

  class ChaturbateApiClient {
    const v: Adaptive
    const world: nat -> (OutcomeStatus, map<string, Observation>)

    constructor (v: Adaptive, world: nat -> (OutcomeStatus, map<string, Observation>))
      ensures this.v == v && this.world == world
    {
      this.v, this.world := v, world;
    }

    /** `fetch_pass`: whatever the world answers. */
    method FetchPass(index: nat) returns (p: Pass)
      ensures p == Pass(index, world(index).0, world(index).1)
    {
      p := Pass(index, world(index).0, world(index).1);
    }

    /** `for item in current.models: seen.setdefault(item.url, []).append(item)`. */
    method Remember(ghost passes: seq<Pass>, p: Pass, seen0: map<string, seq<Observation>>)
      returns (seen: map<string, seq<Observation>>)
      requires Seen(passes, seen0) && p.status.SUCCEEDED?
      ensures Seen(passes + [p], seen)
    {
      var todo := p.models.Keys;
      seen := seen0;
      while todo != {}
        invariant todo <= p.models.Keys
        invariant forall url :: url in todo || url !in p.models ==>
          Earlier(seen, url) == Earlier(seen0, url) && (url in seen <==> url in seen0)
        invariant forall url :: url in p.models && url !in todo ==>
          url in seen && seen[url] == Earlier(seen0, url) + [p.models[url]]
      {
        var url :| url in todo;
        seen, todo := seen[url := Earlier(seen, url) + [p.models[url]]], todo - {url};
      }
      assert (passes + [p])[..|passes|] == passes;
    }

    /** The bookkeeping of one pass. */
    method Absorb(ghost passes: seq<Pass>, current: Pass, pairs0: nat, seen0: map<string, seq<Observation>>,
        previous0: Option<Pass>)
      returns (pairs: nat, seen: map<string, seq<Observation>>, previous: Option<Pass>)
      requires pairs0 == Pairs(v, passes) && Seen(passes, seen0)
      requires previous0 ==
        if passes != [] && passes[|passes| - 1].status.SUCCEEDED? then Some(passes[|passes| - 1]) else None
      ensures pairs == Pairs(v, passes + [current]) && Seen(passes + [current], seen)
      ensures previous == if current.status.SUCCEEDED? then Some(current) else None
    {
      hide Agree, Seen;
      ghost var more := passes + [current];
      assert more[..|passes|] == passes;
      if !current.status.SUCCEEDED? {
        Unseen(passes, current, seen0);
        return 0, seen0, None;
      }
      if current.models == map[] {
        Unseen(passes, current, seen0);
        return 0, seen0, Some(current);
      }
      pairs, previous := pairs0, Some(current);
      seen := Remember(passes, current, seen0);
      if previous0.Some? {
        pairs := if Agree(v, previous0.value.models.Keys, current.models.Keys) then pairs0 + 1 else 0;
      }
    }

    /** `collect_adaptive`. */
    method CollectAdaptive() returns (s: Snapshot)
      ensures SnapshotSound(v, s)
      ensures FromWorld(world, s.passes)
      ensures s.status.SUCCEEDED? ==> Covers(s.passes, s.models, true) && Covers(s.passes, s.quarantined, false)
    {
      hide Agree, Seen, Repeated, Lone, Reported, SuccessSets, Pairs, Ended, Waited, SnapshotSound, Completed,
        Covers, FromWorld;
      var passes: seq<Pass> := [];
      var stablePairs: nat := 0;
      var seen: map<string, seq<Observation>> := map[];
      var previous: Option<Pass> := None;
      var confirmationDue := false;
      NothingSeen(v);
      FromWorldSnoc(world, [], Pass(0, SUCCEEDED, map[]));
      while |passes| < Max(1, v.maxPasses)
        invariant |passes| <= Max(1, v.maxPasses) && FromWorld(world, passes)
        invariant stablePairs == Pairs(v, passes) && Seen(passes, seen) && Waited(v, passes, confirmationDue)
        invariant previous ==
          if passes != [] && passes[|passes| - 1].status.SUCCEEDED? then Some(passes[|passes| - 1]) else None
        invariant passes != [] ==> !passes[|passes| - 1].status.CANCELLED?
      {
        ghost var before := passes;
        var current := FetchPass(|passes| + 1);
        passes := passes + [current];
        assert passes[..|before|] == before;
        FromWorldSnoc(world, before, current);
        Extended(v, before, current, confirmationDue);
        if current.status.CANCELLED? {
          s := Snapshot(CANCELLED, [], passes, [], Some(PassCancelled));
          CancelledIsSound(v, s);
          return;
        }
        stablePairs, seen, previous := Absorb(before, current, stablePairs, seen, previous);
        if !current.status.SUCCEEDED? || current.models == map[] { continue; }
        if Completed(passes) >= v.minPasses && stablePairs >= v.stablePairs {
          assert Converged(v, passes);
          var singletons := Singletons(passes, seen);
          if singletons != {} && |passes| < v.maxPasses && !confirmationDue {
            confirmationDue := true;
            continue;
          }
          s := Publish(passes, seen, stablePairs);
          return;
        }
      }
      WaitedEnds(v, passes, confirmationDue);
      s := Publish(passes, seen, stablePairs);
    }

    /** The URLs seen in one pass only. */
    method Singletons(ghost passes: seq<Pass>, seen: map<string, seq<Observation>>) returns (urls: set<string>)
      requires Seen(passes, seen)
      ensures urls == Lone(SuccessSets(passes))
    {
      LoneAreSingletons(passes, seen);
      urls := set url | url in seen && |seen[url]| == 1;
    }

    /** The result, once no further pass is taken. */
    method Publish(passes: seq<Pass>, seen: map<string, seq<Observation>>, stablePairs: nat) returns (s: Snapshot)
      requires Seen(passes, seen) && stablePairs == Pairs(v, passes)
      requires Ended(v, passes) && |passes| <= Max(1, v.maxPasses) && !passes[|passes| - 1].status.CANCELLED?
      ensures s.passes == passes && SnapshotSound(v, s)
      ensures s.status.SUCCEEDED? ==> Covers(passes, s.models, true) && Covers(passes, s.quarantined, false)
    {
      assert passes != [];
      hide Ended, Seen, Reported, Pairs, Covers, SuccessSets, Repeated, Lone;
      if stablePairs < v.stablePairs {
        return Snapshot(INCOMPLETE, [], passes, [], Some(SnapshotNotStable));
      }
      var stable := ReportOf(passes, seen, true);
      var quarantined := ReportOf(passes, seen, false);
      if stable == [] {
        return Snapshot(INCOMPLETE, [], passes, quarantined, Some(EmptyStableSnapshot));
      }
      ReportedCovers(passes, stable, true);
      ReportedCovers(passes, quarantined, false);
      s := Snapshot(SUCCEEDED, stable, passes, quarantined, None);
    }

    method ReportOf(ghost passes: seq<Pass>, seen: map<string, seq<Observation>>, accepted: bool)
      returns (list: seq<Observation>)
      requires Seen(passes, seen)
      ensures Reported(passes, list,
        if accepted then Repeated(SuccessSets(passes)) else Lone(SuccessSets(passes)), accepted)
      ensures list == [] ==> (if accepted then Repeated(SuccessSets(passes)) else Lone(SuccessSets(passes))) == {}
    {
      hide Seen, SortedNames, Repeated, Lone, SuccessSets, Summary;
      RepeatedAreSeenTwice(passes, seen);
      var urls := set url | url in seen && (if accepted then |seen[url]| >= 2 else |seen[url]| == 1);
      assert urls == if accepted then Repeated(SuccessSets(passes)) else Lone(SuccessSets(passes));
      var order := SortedNames(urls);
      list := [];
      for i := 0 to |order|
        invariant |list| == i
        invariant forall k :: 0 <= k < i ==> order[k] in seen && list[k] == Summary(seen[order[k]], accepted)
      {
        assert order[i] in order;
        list := list + [Summary(seen[order[i]], accepted)];
      }
      forall k | 0 <= k < |order| ensures Observations(passes, order[k]) == seen[order[k]] && seen[order[k]] != [] {
        SeenAt(passes, seen, order[k]);
      }
    }
  }

  /** The latest observation, with the longest time online where the URL is accepted. */
  function Summary(items: seq<Observation>, accepted: bool): Observation {
    if items == [] then Observation("", 0, "")
    else if accepted then items[|items| - 1].(seconds := MaxSeconds(items))
    else items[|items| - 1]
  }

  ghost predicate FromWorld(world: nat -> (OutcomeStatus, map<string, Observation>), passes: seq<Pass>) {
    forall i :: 0 <= i < |passes| ==> passes[i] == Pass(i + 1, world(i + 1).0, world(i + 1).1)
  }

  /** Every convergence so far had lone URLs and room for one more pass, and there was at most one. */
  ghost predicate Waited(v: Adaptive, passes: seq<Pass>, due: bool) {
    && (forall k :: 0 <= k <= |passes| && Converged(v, passes[..k]) ==>
      due && Lone(SuccessSets(passes[..k])) != {} && k < v.maxPasses)
    && (forall j, k :: 0 <= j < k <= |passes| ==> !(Converged(v, passes[..j]) && Converged(v, passes[..k])))
  }

  lemma {:induction false} CancelledIsSound(v: Adaptive, s: Snapshot)
    requires Ended(v, s.passes) && |s.passes| <= Max(1, v.maxPasses) && s.passes[|s.passes| - 1].status.CANCELLED?
    requires s == Snapshot(CANCELLED, [], s.passes, [], Some(PassCancelled))
    ensures SnapshotSound(v, s)
  {
    assert s.passes != [];
    hide Ended, Pairs;
  }

  lemma {:induction false} WaitedEnds(v: Adaptive, passes: seq<Pass>, due: bool)
    requires Waited(v, passes, due) && |passes| == Max(1, v.maxPasses)
    ensures Ended(v, passes)
  {
    hide Converged, Lone;
  }

  lemma {:induction false} NothingSeen(v: Adaptive)
    ensures Seen([], map[]) && Waited(v, [], false) && Pairs(v, []) == 0
  {
  }

  lemma {:induction false} FromWorldSnoc(world: nat -> (OutcomeStatus, map<string, Observation>), passes: seq<Pass>,
      p: Pass)
    ensures FromWorld(world, [])
    ensures FromWorld(world, passes) && p == Pass(|passes| + 1, world(|passes| + 1).0, world(|passes| + 1).1) ==>
      FromWorld(world, passes + [p])
  {
  }

  lemma {:induction false} SeenAt(passes: seq<Pass>, seen: map<string, seq<Observation>>, url: string)
    requires Seen(passes, seen) && url in seen
    ensures Observations(passes, url) == seen[url] && seen[url] != []
  {
  }

  lemma {:induction false} Unseen(passes: seq<Pass>, p: Pass, seen: map<string, seq<Observation>>)
    requires Seen(passes, seen) && (!p.status.SUCCEEDED? || p.models == map[])
    ensures Seen(passes + [p], seen)
  {
    assert (passes + [p])[..|passes|] == passes;
  }

  lemma {:induction false} Extended(v: Adaptive, passes: seq<Pass>, p: Pass, due: bool)
    requires Waited(v, passes, due)
    ensures var more := passes + [p];
            && (p.status.CANCELLED? || Converged(v, more) || |more| == Max(1, v.maxPasses) ==> Ended(v, more))
            && (!Converged(v, more) ==> Waited(v, more, due))
            && (!due && Lone(SuccessSets(more)) != {} && |more| < v.maxPasses ==> Waited(v, more, true))
  {
    hide Converged, Lone;
    var more := passes + [p];
    assert more[..|more|] == more;
    forall k | 0 <= k < |more| ensures more[..k] == passes[..k] {}
  }

  lemma {:induction false} RepeatedAreSeenTwice(passes: seq<Pass>, seen: map<string, seq<Observation>>)
    requires Seen(passes, seen)
    ensures Repeated(SuccessSets(passes)) == set url | url in seen && |seen[url]| >= 2
    ensures Lone(SuccessSets(passes)) == set url | url in seen && |seen[url]| == 1
  {
    hide Count, Union, Observations, SuccessSets, Seen;
    forall url ensures Count(SuccessSets(passes), url) == |Earlier(seen, url)|
      && (url in Union(SuccessSets(passes)) <==> url in seen) {
      SeenCount(passes, seen, url);
    }
  }

  lemma {:induction false} SeenCount(passes: seq<Pass>, seen: map<string, seq<Observation>>, url: string)
    requires Seen(passes, seen)
    ensures Count(SuccessSets(passes), url) == |Earlier(seen, url)|
    ensures url in Union(SuccessSets(passes)) <==> url in seen
  {
    hide Count, Union, Observations, SuccessSets;
    ObservedCount(passes, url);
    CountsCover(SuccessSets(passes), url);
  }

  lemma {:induction false} LoneAreSingletons(passes: seq<Pass>, seen: map<string, seq<Observation>>)
    requires Seen(passes, seen)
    ensures Lone(SuccessSets(passes)) == set url | url in seen && |seen[url]| == 1
  {
    RepeatedAreSeenTwice(passes, seen);
  }
}
