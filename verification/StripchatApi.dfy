/** Multi-pass convergence of the model feed: which windows of passes count as stable, which models they
    accept, and what a reported snapshot guarantees. Ratios are exact. */
module StripchatApi {
  import opened Common
  import opened Names
  import opened StripchatPass
  import opened Windows

  datatype Convergence = Convergence(minPasses: int, maxPasses: int, stablePairs: int,
                                     jaccard: real, countDelta: real, maxQuarantine: real)

  datatype Wait = Rolled | TimedOut | WaitCancelled

  /** One probe of the feed while waiting: a stop request, an error, or the identities on its first page. */
  datatype Probe = Stop | Unreachable | Serves(keys: seq<string>)

  /** `window`: the pass numbers of the convergence window. */
  datatype Snapshot = Snapshot(status: OutcomeStatus, models: seq<string>, quarantined: seq<string>, passes: seq<Pass>,
                               window: seq<nat>, code: Option<Code>)

  // ---------------------------------------------------------------- windows of identity sets

  /** Two passes agree: non-empty, Jaccard index and size difference within bounds. */
  predicate PairStable(v: Convergence, a: set<string>, b: set<string>) {
    && a != {} && b != {}
    && |a + b| > 0 && Ratio(|a * b|, |a + b|) >= v.jaccard
    && Max(|a|, |b|) > 0 && Ratio(Gap(|a|, |b|), Max(|a|, |b|)) <= v.countDelta
  }

  /** The same without division: both are non-empty, what they share is at least the demanded part of
      what either lists, and their sizes differ by at most the allowed part of the larger. */
  lemma {:induction false} PairStableMeans(v: Convergence, a: set<string>, b: set<string>)
    ensures PairStable(v, a, b) <==>
            && a != {} && b != {}
            && |a * b| as real >= v.jaccard * |a + b| as real
            && (|a| >= |b| ==> |a| as real - |b| as real <= v.countDelta * |a| as real)
            && (|b| >= |a| ==> |b| as real - |a| as real <= v.countDelta * |b| as real)
  {
    if a != {} && b != {} {
      NonEmptyUnion(a, b);
      RatioAtLeast(|a * b|, |a + b|, v.jaccard);
      GapMeans(|a|, |b|, v.countDelta);
      hide Ratio, Gap;
    }
  }

  predicate WindowStable(v: Convergence, w: seq<set<string>>) {
    && (forall i :: 0 <= i < |w| - 1 ==> PairStable(v, w[i], w[i + 1]))
    && Max(|w| - 1, 0) >= v.stablePairs
  }

  // ---------------------------------------------------------------- the arithmetic bound

  /** The identities on which neighbouring passes of the window disagree. */
  function Drift(w: seq<set<string>>): set<string> {
    if |w| <= 1 then {} else
      var a, b := w[|w| - 2], w[|w| - 1];
      Drift(w[..|w| - 1]) + ((a + b) - (a * b))
  }

  /** A lone identity is one on which some neighbouring pair disagrees. */
  lemma {:induction false} LoneDrifts(w: seq<set<string>>, k: string)
    requires |w| >= 2 && Count(w, k) == 1
    ensures k in Drift(w)
  {
    var n := |w| - 1;
    var rest := w[..n];
    assert rest[..n - 1] == w[..n - 1] && rest[n - 1] == w[n - 1];
    assert Count(w, k) == Count(rest, k) + if k in w[n] then 1 else 0;
    assert Count(rest, k) == Count(rest[..n - 1], k) + if k in w[n - 1] then 1 else 0;
    if k !in w[n] && k !in w[n - 1] {
      LoneDrifts(rest, k);
    } else {
      assert k in (w[n - 1] + w[n]) - (w[n - 1] * w[n]);
    }
  }

  lemma {:induction false} PairDrift(v: Convergence, a: set<string>, b: set<string>, u: nat)
    requires PairStable(v, a, b) && |a + b| <= u
    ensures v.jaccard <= 1.0
    ensures |(a + b) - (a * b)| as real <= (1.0 - v.jaccard) * u as real
  {
    var both, all := a * b, a + b;
    assert |all - both| == |all| - |both| by { assert all == (all - both) + both; }
    assert both <= all;
    SubsetSize(both, all);
    RatioBound(v.jaccard, |both|, |all|, u);
  }

  lemma {:induction false} RatioBound(j: real, part: nat, whole: nat, u: nat)
    requires 0 < whole <= u && part <= whole && Ratio(part, whole) >= j
    ensures j <= 1.0 && (whole - part) as real <= (1.0 - j) * u as real
  {
    var p, q := part as real, whole as real;
    assert (p / q) * q == p;
    Scale(j, p / q, q);
    PartBound(j, p, q, u as real);
    assert (whole - part) as real == q - p;
  }

  lemma {:induction false} PartBound(j: real, p: real, q: real, u: real)
    requires 0.0 < q <= u && p <= q && j * q <= p
    ensures j <= 1.0 && q - p <= (1.0 - j) * u
  {
    assert j > 1.0 ==> (j - 1.0) * q > 0.0;
    assert (1.0 - j) * q == q - j * q;
    Scale(q, u, 1.0 - j);
  }

  lemma {:induction false} Scale(a: real, b: real, f: real)
    requires a <= b && f >= 0.0
    ensures a * f <= b * f
  {
  }

  lemma {:induction false} DriftStep(w: seq<set<string>>)
    requires |w| >= 2
    ensures var n := |w| - 1;
            |Drift(w)| <= |Drift(w[..n])| + |(w[n - 1] + w[n]) - (w[n - 1] * w[n])|
            && |w[n - 1] + w[n]| <= |Union(w)| && |Union(w[..n])| <= |Union(w)|
  {
    var n := |w| - 1;
    var before, d := Drift(w[..n]), (w[n - 1] + w[n]) - (w[n - 1] * w[n]);
    MemberOfUnion(w, n - 1);
    MemberOfUnion(w, n);
    SubsetSize(w[n - 1] + w[n], Union(w));
    SubsetSize(Union(w[..n]), Union(w));
    SubsetSize(d - before, d);
    assert before + d == before + (d - before);
  }

  lemma {:induction false} DriftBound(v: Convergence, w: seq<set<string>>, u: nat)
    requires |w| >= 2 && (forall i :: 0 <= i < |w| - 1 ==> PairStable(v, w[i], w[i + 1]))
    requires |Union(w)| <= u
    ensures v.jaccard <= 1.0
    ensures |Drift(w)| as real <= (|w| - 1) as real * ((1.0 - v.jaccard) * u as real)
  {
    hide PairStable, Union, Drift;
    var n := |w| - 1;
    DriftStep(w);
    assert PairStable(v, w[n - 1], w[n - 1 + 1]);
    PairDrift(v, w[n - 1], w[n], u);
    var step := (1.0 - v.jaccard) * u as real;
    if n >= 2 {
      DriftBound(v, w[..n], u);
      Distribute(n as real, step);
    } else {
      NoDrift(w[..n]);
    }
  }

  lemma {:induction false} NoDrift(w: seq<set<string>>)
    requires |w| <= 1
    ensures Drift(w) == {}
  {
  }

  lemma {:induction false} Distribute(n: real, step: real)
    ensures n * step == (n - 1.0) * step + step
  {
  }

  /** Independently of the configured quarantine ratio: pairwise agreement alone bounds what can be
      quarantined, and with a positive threshold something is always accepted. */
  lemma {:induction false} StableWindowBound(v: Convergence, w: seq<set<string>>)
    requires WindowStable(v, w) && |w| >= 2
    ensures |Lone(w)| as real <= (|w| - 1) as real * ((1.0 - v.jaccard) * |Union(w)| as real)
    ensures v.jaccard > 0.0 ==> Repeated(w) != {}
  {
    hide PairStable, Union, Drift, Count;
    forall k | k in Lone(w) ensures k in Drift(w) { LoneDrifts(w, k); }
    SubsetSize(Lone(w), Drift(w));
    DriftBound(v, w, |Union(w)|);
    if v.jaccard > 0.0 {
      assert PairStable(v, w[0], w[0 + 1]);
      AgreeingShare(v, w[0], w[1]);
      var k :| k in w[0] * w[1];
      CommonIsRepeated(w, k);
    }
  }

  lemma {:induction false} AgreeingShare(v: Convergence, a: set<string>, b: set<string>)
    requires PairStable(v, a, b) && v.jaccard > 0.0
    ensures a * b != {}
  {
    assert forall n: nat :: n > 0 ==> Ratio(0, n) == 0.0;
  }

  // ---------------------------------------------------------------- reading a window of passes

  predicate DistinctKeys(c: Limits, models: seq<string>) {
    forall i, j :: 0 <= i < j < |models| ==> Key(c, models[i]) != Key(c, models[j])
  }

  function KeySets(c: Limits, lists: seq<seq<string>>): seq<set<string>> {
    seq(|lists|, i requires 0 <= i < |lists| => KeysOf(c, lists[i]))
  }

  function Occurrences(c: Limits, records: seq<string>, k: string): nat {
    if records == [] then 0
    else Occurrences(c, records[..|records| - 1], k) + if Key(c, records[|records| - 1]) == k then 1 else 0
  }

  /** The last spelling under which an identity appears. */
  function LastSpelling(c: Limits, records: seq<string>, k: string): Option<string> {
    if records == [] then None
    else if Key(c, records[|records| - 1]) == k then Some(records[|records| - 1])
    else LastSpelling(c, records[..|records| - 1], k)
  }

  lemma {:induction false} OccurrencesAppend(c: Limits, a: seq<string>, b: seq<string>, k: string)
    ensures Occurrences(c, a + b, k) == Occurrences(c, a, k) + Occurrences(c, b, k)
  {
    if b == [] {
      assert a + b == a;
    } else {
      assert (a + b)[..|a + b| - 1] == a + b[..|b| - 1];
      OccurrencesAppend(c, a, b[..|b| - 1], k);
    }
  }

  lemma {:induction false} OccursOnce(c: Limits, models: seq<string>, k: string)
    requires DistinctKeys(c, models)
    ensures Occurrences(c, models, k) == if k in KeysOf(c, models) then 1 else 0
  {
    if models != [] {
      var n := |models| - 1;
      var rest := models[..n];
      assert models == rest + [models[n]];
      OccursOnce(c, rest, k);
      assert KeysOf(c, models) == KeysOf(c, rest) + {Key(c, models[n])};
      if k in KeysOf(c, rest) {
        var u :| u in rest && Key(c, u) == k;
        var i :| 0 <= i < n && models[i] == u;
        assert Key(c, models[i]) != Key(c, models[n]);
      }
    }
  }

  /** Counting records is counting passes, because a pass lists an identity once. */
  lemma {:induction false} OccurrencesAreCounts(c: Limits, lists: seq<seq<string>>, k: string)
    requires forall list :: list in lists ==> DistinctKeys(c, list)
    ensures Occurrences(c, Flat(lists), k) == Count(KeySets(c, lists), k)
  {
    if lists != [] {
      var n := |lists| - 1;
      assert lists == lists[..n] + [lists[n]];
      OccurrencesAreCounts(c, lists[..n], k);
      OccurrencesAppend(c, Flat(lists[..n]), lists[n], k);
      OccursOnce(c, lists[n], k);
      assert KeySets(c, lists)[..n] == KeySets(c, lists[..n]);
    }
  }

  ghost predicate Tallied(c: Limits, records: seq<string>, counts: map<string, nat>, latest: map<string, string>) {
    && counts.Keys == latest.Keys
    && (forall k :: Occurrences(c, records, k) == if k in counts then counts[k] else 0)
    && (forall k :: k in counts ==> counts[k] > 0)
    && (forall k :: LastSpelling(c, records, k) == if k in latest then Some(latest[k]) else None)
    && (forall k :: k in latest ==> Key(c, latest[k]) == k)
  }

  method Tally(c: Limits, lists: seq<seq<string>>) returns (counts: map<string, nat>, latest: map<string, string>)
    ensures Tallied(c, Flat(lists), counts, latest)
  {
    counts, latest := map[], map[];
    for i := 0 to |lists|
      invariant Tallied(c, Flat(lists[..i]), counts, latest)
    {
      hide Tallied;
      assert lists[..i + 1][..i] == lists[..i];
      counts, latest := TallyPass(c, Flat(lists[..i]), lists[i], counts, latest);
    }
    assert lists[..|lists|] == lists;
  }

  method TallyPass(c: Limits, ghost before: seq<string>, models: seq<string>, counts0: map<string, nat>,
      latest0: map<string, string>)
    returns (counts: map<string, nat>, latest: map<string, string>)
    requires Tallied(c, before, counts0, latest0)
    ensures Tallied(c, before + models, counts, latest)
  {
    hide Tallied;
    counts, latest := counts0, latest0;
    assert before + models[..0] == before;
    for m := 0 to |models|
      invariant Tallied(c, before + models[..m], counts, latest)
    {
      var u := models[m];
      assert before + models[..m + 1] == before + models[..m] + [u];
      TallyOne(c, before + models[..m], counts, latest, u);
      var k := Key(c, u);
      counts, latest := counts[k := (if k in counts then counts[k] else 0) + 1], latest[k := u];
    }
    assert models[..|models|] == models;
  }

  lemma {:induction false} TallyOne(c: Limits, records: seq<string>, counts: map<string, nat>,
      latest: map<string, string>, u: string)
    requires Tallied(c, records, counts, latest)
    ensures var k := Key(c, u);
            Tallied(c, records + [u], counts[k := (if k in counts then counts[k] else 0) + 1], latest[k := u])
  {
    assert (records + [u])[..|records|] == records;
  }

  /** `_accepted_from_window`: the identities seen in at least two passes and those seen in one, each in
      key order and in its latest spelling. */
  method AcceptedFromWindow(c: Limits, lists: seq<seq<string>>)
    returns (accepted: seq<string>, quarantined: seq<string>)
    requires forall list :: list in lists ==> DistinctKeys(c, list)
    ensures PageKeys(c, accepted) == SortedNames(Repeated(KeySets(c, lists)))
    ensures PageKeys(c, quarantined) == SortedNames(Lone(KeySets(c, lists)))
    ensures forall u :: u in accepted || u in quarantined ==> LastSpelling(c, Flat(lists), Key(c, u)) == Some(u)
  {
    var counts, latest := Tally(c, lists);
    ghost var w := KeySets(c, lists);
    CountsAre(c, lists, counts, latest);
    accepted, quarantined := SplitByCount(c, counts, latest);
    hide SortedNames, Repeated, Lone, KeySets, LastSpelling, Tallied, Flat, Ascending, PageKeys, Key, DistinctKeys;
    AscendingUnique(PageKeys(c, accepted), SortedNames(Repeated(w)));
    AscendingUnique(PageKeys(c, quarantined), SortedNames(Lone(w)));
  }

  method SplitByCount(c: Limits, counts: map<string, nat>, latest: map<string, string>)
    returns (accepted: seq<string>, quarantined: seq<string>)
    requires forall k :: k in counts ==> k in latest && Key(c, latest[k]) == k
    ensures Ascending(PageKeys(c, accepted)) && Ascending(PageKeys(c, quarantined))
    ensures forall k :: k in PageKeys(c, accepted) <==> k in counts && counts[k] >= 2
    ensures forall k :: k in PageKeys(c, quarantined) <==> k in counts && counts[k] < 2
    ensures forall u :: u in accepted || u in quarantined ==> Key(c, u) in counts && u == latest[Key(c, u)]
  {
    var keys := SortedNames(counts.Keys);
    hide SortedNames, Ascending, PageKeys, Key;
    accepted, quarantined := [], [];
    NoKeys(c);
    for i := 0 to |keys|
      invariant Ascending(PageKeys(c, accepted)) && Ascending(PageKeys(c, quarantined))
      invariant forall k :: k in PageKeys(c, accepted) <==> k in keys[..i] && counts[k] >= 2
      invariant forall k :: k in PageKeys(c, quarantined) <==> k in keys[..i] && counts[k] < 2
      invariant forall u :: u in accepted || u in quarantined ==> Key(c, u) in counts && u == latest[Key(c, u)]
    {
      var k := keys[i];
      assert k in keys && keys[..i + 1] == keys[..i] + [k];
      if counts[k] >= 2 {
        KeysSnoc(c, accepted, latest[k], keys, i);
        accepted := accepted + [latest[k]];
      } else {
        KeysSnoc(c, quarantined, latest[k], keys, i);
        quarantined := quarantined + [latest[k]];
      }
    }
    assert keys[..|keys|] == keys;
  }

  lemma {:induction false} CountsAre(c: Limits, lists: seq<seq<string>>, counts: map<string, nat>,
      latest: map<string, string>)
    requires forall list :: list in lists ==> DistinctKeys(c, list)
    requires Tallied(c, Flat(lists), counts, latest)
    ensures forall k :: k in counts ==>
      k in latest && Key(c, latest[k]) == k && LastSpelling(c, Flat(lists), k) == Some(latest[k])
    ensures forall k :: k in counts ==>
      (k in Repeated(KeySets(c, lists)) <==> counts[k] >= 2) && (k in Lone(KeySets(c, lists)) <==> counts[k] < 2)
    ensures forall k :: k in Repeated(KeySets(c, lists)) || k in Lone(KeySets(c, lists)) ==> k in counts
  {
    forall k ensures Count(KeySets(c, lists), k) == if k in counts then counts[k] else 0 {
      OccurrencesAreCounts(c, lists, k);
    }
    forall k ensures k in Union(KeySets(c, lists)) <==> Count(KeySets(c, lists), k) >= 1 {
      CountsCover(KeySets(c, lists), k);
    }
  }

  lemma {:induction false} NoKeys(c: Limits)
    ensures PageKeys(c, []) == [] && Ascending([])
  {
  }

  lemma {:induction false} KeysSnoc(c: Limits, models: seq<string>, u: string, keys: seq<string>, i: nat)
    requires Ascending(PageKeys(c, models)) && Ascending(keys) && i < |keys| && Key(c, u) == keys[i]
    requires forall k :: k in PageKeys(c, models) ==> k in keys[..i]
    ensures Ascending(PageKeys(c, models + [u])) && PageKeys(c, models + [u]) == PageKeys(c, models) + [keys[i]]
  {
    var ks := PageKeys(c, models);
    forall m | 0 <= m < |ks| ensures Lt(ks[m], keys[i]) {
      assert ks[m] in ks;
      var j :| 0 <= j < i && keys[j] == ks[m];
    }
    assert PageKeys(c, models + [u]) == ks + [keys[i]];
  }

  /** `_window_is_stable`. */
  method WindowIsStable(c: Limits, v: Convergence, lists: seq<seq<string>>) returns (stable: bool)
    ensures stable <==> WindowStable(v, KeySets(c, lists))
  {
    ghost var w := KeySets(c, lists);
    var pairs := 0;
    for i := 0 to Max(|lists| - 1, 0)
      invariant pairs == i
      invariant forall m :: 0 <= m < i ==> PairStable(v, w[m], w[m + 1])
    {
      var first, second := KeysOf(c, lists[i]), KeysOf(c, lists[i + 1]);
      assert first == w[i] && second == w[i + 1];
      if first == {} || second == {} { return false; }
      NonEmptyUnion(first, second);
      var jaccard := Ratio(|first * second|, |first + second|);
      var delta := Ratio(Gap(|first|, |second|), Max(|first|, |second|));
      if jaccard < v.jaccard || delta > v.countDelta { return false; }
      pairs := pairs + 1;
    }
    stable := pairs >= v.stablePairs;
  }

  lemma {:induction false} NonEmptyUnion(a: set<string>, b: set<string>)
    requires a != {} && b != {}
    ensures |a + b| > 0 && Max(|a|, |b|) > 0
  {
    SubsetSize(a, a + b);
    assert |a| > 0;
  }

  // ---------------------------------------------------------------- what a snapshot may rest on

  /** The passes since the last one that did not succeed. */
  function Trailing(passes: seq<Pass>): seq<Pass> {
    if passes == [] || !passes[|passes| - 1].status.SUCCEEDED? then []
    else Trailing(passes[..|passes| - 1]) + [passes[|passes| - 1]]
  }

  /** `consecutive[-n:]`: the last n, or for n <= 0 all but the first -n. */
  function WindowOf(v: Convergence, consecutive: seq<Pass>): seq<Pass> {
    if v.minPasses > 0 then consecutive[Max(|consecutive| - v.minPasses, 0)..]
    else if -v.minPasses <= |consecutive| then consecutive[-v.minPasses..]
    else []
  }

  function Lists(window: seq<Pass>): seq<seq<string>> {
    seq(|window|, i requires 0 <= i < |window| => window[i].models)
  }

  function Indices(window: seq<Pass>): seq<nat> {
    seq(|window|, i requires 0 <= i < |window| => window[i].index)
  }

  function Sets(c: Limits, passes: seq<Pass>): seq<set<string>> {
    KeySets(c, Lists(passes))
  }

  predicate ExcessQuarantine(v: Convergence, accepted: nat, quarantined: nat) {
    accepted + quarantined > 0 && Ratio(quarantined, accepted + quarantined) > v.maxQuarantine
  }

  lemma {:induction false} ExcessMeans(v: Convergence, accepted: nat, quarantined: nat)
    ensures ExcessQuarantine(v, accepted, quarantined) <==>
            accepted + quarantined > 0 && quarantined as real > v.maxQuarantine * (accepted + quarantined) as real
  {
    if accepted + quarantined > 0 { RatioAtMost(quarantined, accepted + quarantined, v.maxQuarantine); }
  }

  /** The passes so far end in a stable window. */
  predicate Stable(c: Limits, v: Convergence, passes: seq<Pass>) {
    var consecutive := Trailing(passes);
    consecutive != [] && |consecutive| >= v.minPasses && WindowStable(v, Sets(c, WindowOf(v, consecutive)))
  }

  /** ... which also quarantines little enough to be published. */
  predicate Acceptable(c: Limits, v: Convergence, passes: seq<Pass>) {
    var w := Sets(c, WindowOf(v, Trailing(passes)));
    Stable(c, v, passes) && !ExcessQuarantine(v, |Repeated(w)|, |Lone(w)|)
  }

  ghost predicate Genuine(c: Limits, feed: Feed, p: Pass) {
    exists pages :: PassSound(c, feed, p, pages)
  }

  ghost predicate History(c: Limits, v: Convergence, feed: Feed, passes: seq<Pass>) {
    && (forall i :: 0 <= i < |passes| ==> passes[i].index == i + 1 && Genuine(c, feed, passes[i]))
    && |passes| <= Max(v.maxPasses, 0)
  }

  /** The window and the identities only one of its passes saw, each in its latest spelling. */
  ghost predicate Quarantined(c: Limits, v: Convergence, s: Snapshot) {
    var window := WindowOf(v, Trailing(s.passes));
    && s.window == Indices(window)
    && PageKeys(c, s.quarantined) == SortedNames(Lone(Sets(c, window)))
    && forall u :: u in s.quarantined ==> LastSpelling(c, Flat(Lists(window)), Key(c, u)) == Some(u)
  }

  ghost predicate Published(c: Limits, v: Convergence, s: Snapshot) {
    var window := WindowOf(v, Trailing(s.passes));
    && Quarantined(c, v, s)
    && PageKeys(c, s.models) == SortedNames(Repeated(Sets(c, window)))
    && forall u :: u in s.models ==> LastSpelling(c, Flat(Lists(window)), Key(c, u)) == Some(u)
  }

  /** A snapshot is published exactly for the first acceptable run of passes; nothing else exposes models. */
  ghost predicate SnapshotSound(c: Limits, v: Convergence, feed: Feed, s: Snapshot) {
    && History(c, v, feed, s.passes)
    && (forall k :: 0 <= k < |s.passes| ==> !Acceptable(c, v, s.passes[..k]))
    && OneConfirmation(c, v, s.passes)
    && (s.status.SUCCEEDED? <==> Acceptable(c, v, s.passes))
    && (s.status.SUCCEEDED? ==> Published(c, v, s) && s.code.None?)
    && (!s.status.SUCCEEDED? ==> s.models == [])
    && match s.code
       case None => s.status.SUCCEEDED?
       case Some(ApiCancelled) => s.status.CANCELLED? && s.quarantined == [] && s.window == []
       case Some(SnapshotUnstable) => s.status.INCOMPLETE? && s.quarantined == [] && s.window == []
         && |s.passes| == Max(v.maxPasses, 0) && !Stable(c, v, s.passes)
       case Some(ExcessiveQuarantine) =>
         s.status.INCOMPLETE? && Stable(c, v, s.passes) && (|s.passes| >= v.maxPasses || StableBefore(c, v, s.passes))
         && Quarantined(c, v, s)
       case Some(_) => false
  }

  /** Some shorter run of the passes already ended in a stable window. */
  ghost predicate StableBefore(c: Limits, v: Convergence, passes: seq<Pass>) {
    exists k :: 0 <= k < |passes| && Stable(c, v, passes[..k])
  }

  /** A stable window that quarantines too much buys one more pass, once. */
  ghost predicate OneConfirmation(c: Limits, v: Convergence, passes: seq<Pass>) {
    forall j, k :: 0 <= j < k < |passes| ==> !(Stable(c, v, passes[..j]) && Stable(c, v, passes[..k]))
  }

  lemma {:induction false} TrailingIsSuffix(passes: seq<Pass>)
    ensures |Trailing(passes)| <= |passes| && passes[|passes| - |Trailing(passes)|..] == Trailing(passes)
    ensures forall i :: 0 <= i < |Trailing(passes)| ==> Trailing(passes)[i].status.SUCCEEDED?
  {
    if passes != [] && passes[|passes| - 1].status.SUCCEEDED? {
      var n := |passes| - 1;
      TrailingIsSuffix(passes[..n]);
      var k := n - |Trailing(passes[..n])|;
      assert passes[k..] == passes[..n][k..] + [passes[n]];
    }
  }

  /** A published snapshot rests on the last passes taken, consecutively numbered and all successful;
      what it accepts and what it quarantines partition what they saw; the quarantined share is within
      both the configured ratio and the bound that pairwise agreement implies; and with a positive
      threshold it is not empty. */
  lemma {:induction false} SnapshotGuarantees(c: Limits, v: Convergence, feed: Feed, s: Snapshot)
    requires SnapshotSound(c, v, feed, s) && s.status.SUCCEEDED?
    ensures forall i :: 0 <= i < |s.window| ==> s.window[i] == |s.passes| - |s.window| + i + 1
    ensures |s.window| <= |s.passes| && forall p :: p in s.passes[|s.passes| - |s.window|..] ==> p.status.SUCCEEDED?
    ensures v.minPasses > 0 ==> |s.window| == v.minPasses
    ensures var w := Sets(c, s.passes[|s.passes| - |s.window|..]);
            var total := |s.models| + |s.quarantined|;
            && KeysOf(c, s.models) == Repeated(w) && KeysOf(c, s.quarantined) == Lone(w)
            && KeysOf(c, s.models) !! KeysOf(c, s.quarantined) && total == |Union(w)|
            && (total > 0 ==> Ratio(|s.quarantined|, total) <= v.maxQuarantine)
            && (v.stablePairs >= 1 ==>
              |s.quarantined| as real <= (|s.window| - 1) as real * ((1.0 - v.jaccard) * total as real))
            && (v.stablePairs >= 1 && v.jaccard > 0.0 ==> s.models != [])
  {
    hide SortedNames, PairStable, Count, Union, Genuine, LastSpelling, Flat, KeysOf, PageKeys, Trailing, History;
    var window := WindowOf(v, Trailing(s.passes));
    WindowIsRecent(c, v, feed, s.passes);
    assert window == s.passes[|s.passes| - |window|..];
    PublishedSizes(c, s.models, Repeated(Sets(c, window)));
    PublishedSizes(c, s.quarantined, Lone(Sets(c, window)));
    WindowGuarantees(v, Sets(c, window));
  }

  lemma {:induction false} WindowIsRecent(c: Limits, v: Convergence, feed: Feed, passes: seq<Pass>)
    requires History(c, v, feed, passes) && Stable(c, v, passes)
    ensures var window := WindowOf(v, Trailing(passes));
            && |window| <= |passes| && window == passes[|passes| - |window|..]
            && (v.minPasses > 0 ==> |window| == v.minPasses)
            && (forall p :: p in window ==> p.status.SUCCEEDED?)
            && forall i :: 0 <= i < |window| ==> window[i].index == |passes| - |window| + i + 1
  {
    hide Genuine, WindowStable, Trailing;
    TrailingIsSuffix(passes);
  }

  lemma {:induction false} PublishedSizes(c: Limits, models: seq<string>, keys: set<string>)
    requires PageKeys(c, models) == SortedNames(keys)
    ensures KeysOf(c, models) == keys && |models| == |keys|
  {
    PageKeysAre(c, models);
    assert |models| == |PageKeys(c, models)|;
    forall k ensures k in KeysOf(c, models) <==> k in keys {}
  }

  lemma {:induction false} WindowGuarantees(v: Convergence, w: seq<set<string>>)
    requires WindowStable(v, w)
    ensures Repeated(w) !! Lone(w) && |Repeated(w)| + |Lone(w)| == |Union(w)|
    ensures v.stablePairs >= 1 ==> |Lone(w)| as real <= (|w| - 1) as real * ((1.0 - v.jaccard) * |Union(w)| as real)
    ensures v.stablePairs >= 1 && v.jaccard > 0.0 ==> |Repeated(w)| > 0
  {
    Partition(w);
    if v.stablePairs >= 1 { StableWindowBound(v, w); }
  }

  // ---------------------------------------------------------------- waiting for the next generation

  /** The first k probes all still served the known generation. */
  ghost predicate Unchanged(previous: seq<string>, probes: seq<Probe>, k: nat) {
    k <= |probes| && forall i :: 0 <= i < k ==> probes[i] == Serves(previous)
  }

  /** A stop request is met while the feed still serves the known generation. */
  ghost predicate StopsFirst(previous: seq<string>, probes: seq<Probe>) {
    exists k :: 0 <= k < |probes| && Unchanged(previous, probes, k) && probes[k].Stop?
  }

  /** The first page last read, after n passes of a client that had last read `before`. */
  ghost predicate LastRead(c: Limits, feed: Feed, before: Option<seq<string>>, n: nat, last: Option<seq<string>>) {
    if n == 0 then last == before
    else exists first ::
      FirstPage(c, feed, n, first) && if first.Some? then last == first else LastRead(c, feed, before, n - 1, last)
  }

  /** The generation known after n passes: the first page last read, unless it is empty. */
  ghost predicate Generation(c: Limits, feed: Feed, before: Option<seq<string>>, n: nat, g: Option<seq<string>>) {
    if n == 0 then g.None?
    else exists last ::
      && LastRead(c, feed, before, n, last)
      && if last.Some? && last.value != [] then g == last else Generation(c, feed, before, n - 1, g)
  }

  lemma {:induction false} FirstPageUnique(c: Limits, feed: Feed, index: nat, a: Option<seq<string>>,
      b: Option<seq<string>>)
    requires FirstPage(c, feed, index, a) && FirstPage(c, feed, index, b)
    ensures a == b
  {
    if a.Some? && b.Some? {
      var x :| OpensWith(c, feed, index, x) && a.value == PageKeys(c, x);
      var y :| OpensWith(c, feed, index, y) && b.value == PageKeys(c, y);
      var items := feed(index, 0, 0).reply.value.models.value;
      forall i | 0 <= i < |items| ensures x[i] == y[i] { assert items[i] == Object(Some(x[i])); }
      assert x == y;
    }
  }

  lemma {:induction false} LastReadUnique(c: Limits, feed: Feed, before: Option<seq<string>>, n: nat,
      a: Option<seq<string>>, b: Option<seq<string>>)
    requires LastRead(c, feed, before, n, a) && LastRead(c, feed, before, n, b)
    ensures a == b
  {
    if n > 0 {
      hide FirstPage;
      var x :| FirstPage(c, feed, n, x) && if x.Some? then a == x else LastRead(c, feed, before, n - 1, a);
      var y :| FirstPage(c, feed, n, y) && if y.Some? then b == y else LastRead(c, feed, before, n - 1, b);
      FirstPageUnique(c, feed, n, x, y);
      if x.None? { LastReadUnique(c, feed, before, n - 1, a, b); }
    }
  }

  lemma {:induction false} GenerationUnique(c: Limits, feed: Feed, before: Option<seq<string>>, n: nat,
      a: Option<seq<string>>, b: Option<seq<string>>)
    requires Generation(c, feed, before, n, a) && Generation(c, feed, before, n, b)
    ensures a == b
  {
    if n > 0 {
      hide LastRead;
      var x :| LastRead(c, feed, before, n, x)
               && if x.Some? && x.value != [] then a == x else Generation(c, feed, before, n - 1, a);
      var y :| LastRead(c, feed, before, n, y)
               && if y.Some? && y.value != [] then b == y else Generation(c, feed, before, n - 1, b);
      LastReadUnique(c, feed, before, n, x, y);
      if x.None? || x.value == [] { GenerationUnique(c, feed, before, n - 1, a, b); }
    }
  }

  /** Everything outside the passes that decides a wait. */
  datatype Waiting = Waiting(enabled: bool, probes: nat -> seq<Probe>, before: Option<seq<string>>)

  /** The wait before pass n is one that happens, and a stop request cuts it short. */
  ghost predicate WaitStopped(c: Limits, feed: Feed, w: Waiting, n: nat) {
    w.enabled && n > 1
    && exists g :: Generation(c, feed, w.before, n - 1, Some(g)) && StopsFirst(g, w.probes(n))
  }

  lemma {:induction false} WaitStoppedIs(c: Limits, feed: Feed, w: Waiting, n: nat, g: Option<seq<string>>)
    requires n > 0 && Generation(c, feed, w.before, n - 1, g)
    ensures WaitStopped(c, feed, w, n) <==> w.enabled && n > 1 && g.Some? && StopsFirst(g.value, w.probes(n))
  {
    hide Generation, StopsFirst;
    if WaitStopped(c, feed, w, n) {
      var h :| Generation(c, feed, w.before, n - 1, Some(h)) && StopsFirst(h, w.probes(n));
      GenerationUnique(c, feed, w.before, n - 1, g, Some(h));
    }
  }

  lemma {:induction false} NextGeneration(c: Limits, feed: Feed, before: Option<seq<string>>, n: nat,
      first: Option<seq<string>>, last: Option<seq<string>>, last': Option<seq<string>>, g: Option<seq<string>>)
    requires LastRead(c, feed, before, n, last) && Generation(c, feed, before, n, g)
    requires FirstPage(c, feed, n + 1, first) && last' == if first.Some? then first else last
    ensures LastRead(c, feed, before, n + 1, last')
    ensures Generation(c, feed, before, n + 1, if last'.Some? && last'.value != [] then last' else g)
  {
    hide FirstPage;
  }

  /** How a stop request may end a collection: through the last pass, or in the wait for the next one.
      No pass before the last was cancelled, and none was taken after a wait that was. */
  ghost predicate StopsAreObeyed(c: Limits, v: Convergence, feed: Feed, w: Waiting, s: Snapshot) {
    var n := |s.passes|;
    && (forall i :: 0 <= i < n - 1 ==> !s.passes[i].status.CANCELLED?)
    && (forall i :: 1 <= i <= n ==> !WaitStopped(c, feed, w, i))
    && (n > 0 && s.passes[n - 1].status.CANCELLED? ==> s.code == Some(ApiCancelled))
    && (s.code == Some(ApiCancelled) ==>
          (n > 0 && s.passes[n - 1].status.CANCELLED?) || (n < v.maxPasses && WaitStopped(c, feed, w, n + 1)))
  }

  // ---------------------------------------------------------------- the client

  class StripchatApiClient {
    const c: Limits
    const v: Convergence
    const feed: Feed
    const waiting: bool                  // max_generation_wait > 0
    const probes: nat -> seq<Probe>      // what the probes before a pass find until their time is up
    var lastFirstPage: Option<seq<string>>

    constructor (c: Limits, v: Convergence, feed: Feed, waiting: bool, probes: nat -> seq<Probe>)
      ensures this.c == c && this.v == v && this.feed == feed && this.waiting == waiting && this.probes == probes
      ensures lastFirstPage.None?
    {
      this.c, this.v, this.feed, this.waiting, this.probes, lastFirstPage := c, v, feed, waiting, probes, None;
    }

    /** `_await_new_generation`: until the feed serves something else, cannot be read, or time is up. */
    method AwaitNewGeneration(previous: Option<seq<string>>, index: nat) returns (w: Wait)
      ensures w.WaitCancelled? <==> previous.Some? && waiting && StopsFirst(previous.value, probes(index))
      ensures w.TimedOut? <==>
        previous.Some? && waiting && Unchanged(previous.value, probes(index), |probes(index)|)
    {
      if previous.None? || !waiting { return Rolled; }
      var found := probes(index);
      for k := 0 to |found|
        invariant Unchanged(previous.value, found, k)
      {
        match found[k] {
          case Stop => return WaitCancelled;
          case Unreachable => return Rolled;
          case Serves(keys) =>
            if keys != previous.value { return Rolled; }
        }
      }
      return TimedOut;
    }

    /** `fetch_pass`. */
    method FetchPass(index: nat) returns (p: Pass, ghost first: Option<seq<string>>)
      modifies this
      ensures p.index == index && Genuine(c, feed, p)
      ensures p.code != Some(NoProgress)
      ensures FirstPage(c, feed, index, first) && lastFirstPage == if first.Some? then first else old(lastFirstPage)
    {
      ghost var pages;
      var r;
      r, pages := ReadPages(c, feed, index);
      first := r.first;
      if r.first.Some? { lastFirstPage := r.first; }
      p := Concluded(c, index, r);
      ConcludedIsSound(c, feed, index, r, pages);
      assert PassSound(c, feed, p, pages);
    }

    /** `collect_snapshot`. */
    method CollectSnapshot() returns (s: Snapshot)
      modifies this
      ensures SnapshotSound(c, v, feed, s)
      ensures StopsAreObeyed(c, v, feed, Waiting(waiting, probes, old(lastFirstPage)), s)
    {
      hide History, Acceptable, Published, Genuine, ExcessQuarantine, Stable, Spent, OneConfirmation, StableBefore,
        Generation, LastRead, FirstPage, WaitStopped, StopsFirst, Unchanged, Trailing;
      ghost var w := Waiting(waiting, probes, lastFirstPage);
      NothingKnown(c, feed, lastFirstPage);
      var passes: seq<Pass> := [];
      var consecutive: seq<Pass> := [];
      var generation: Option<seq<string>> := None;
      var extraConfirmationUsed := false;
      NothingCollected(c, v, feed);
      while |passes| < v.maxPasses
        invariant History(c, v, feed, passes) && consecutive == Trailing(passes) && |passes| <= Max(v.maxPasses, 0)
        invariant NoneAcceptable(c, v, passes) && Spent(c, v, passes, extraConfirmationUsed)
        invariant Stable(c, v, passes) ==> |passes| < v.maxPasses
        invariant LastRead(c, feed, w.before, |passes|, lastFirstPage)
        invariant Generation(c, feed, w.before, |passes|, generation)
        invariant forall p :: p in passes ==> !p.status.CANCELLED?
        invariant forall i :: 1 <= i <= |passes| ==> !WaitStopped(c, feed, w, i)
      {
        var passIndex := |passes| + 1;
        assert passes[..|passes|] == passes;
        SpentMeans(c, v, passes, extraConfirmationUsed);
        WaitStoppedIs(c, feed, w, passIndex, generation);
        if passIndex > 1 {
          var wait := AwaitNewGeneration(generation, passIndex);
          if wait.WaitCancelled? { return Snapshot(CANCELLED, [], [], passes, [], Some(ApiCancelled)); }
        }
        ghost var last := lastFirstPage;
        var result, first := FetchPass(passIndex);
        NextGeneration(c, feed, w.before, |passes|, first, last, lastFirstPage, generation);
        Extended(c, v, feed, passes, result);
        SpentSnoc(c, v, passes, result, extraConfirmationUsed);
        passes := passes + [result];
        if lastFirstPage.Some? && lastFirstPage.value != [] { generation := lastFirstPage; }
        if result.status.CANCELLED? {
          return Snapshot(CANCELLED, [], [], passes, [], Some(ApiCancelled));
        }
        consecutive := if result.status.SUCCEEDED? then consecutive + [result] else [];
        if !result.status.SUCCEEDED? { continue; }
        var decided;
        decided, extraConfirmationUsed := Consider(passes, consecutive, extraConfirmationUsed);
        if decided.Some? { return decided.value; }
      }
      assert passes[..|passes|] == passes;
      SpentMeans(c, v, passes, extraConfirmationUsed);
      s := Snapshot(INCOMPLETE, [], [], passes, [], Some(SnapshotUnstable));
    }

    /** After a successful pass: publish, refuse, or take another pass. */
    method Consider(passes: seq<Pass>, consecutive: seq<Pass>, used0: bool)
      returns (decided: Option<Snapshot>, used: bool)
      requires History(c, v, feed, passes) && passes != [] && consecutive == Trailing(passes) && consecutive != []
      requires forall k :: 0 <= k < |passes| ==> !Acceptable(c, v, passes[..k])
      requires Acceptable(c, v, passes) ==> Stable(c, v, passes)
      requires OneConfirmation(c, v, passes) && (StableBefore(c, v, passes) <==> used0)
      ensures decided.Some? ==> SnapshotSound(c, v, feed, decided.value) && decided.value.passes == passes
      ensures decided.Some? ==> decided.value.code != Some(ApiCancelled)
      ensures decided.None? ==> !Acceptable(c, v, passes) && (Stable(c, v, passes) ==> |passes| < v.maxPasses)
      ensures decided.None? ==> if Stable(c, v, passes) then !used0 && used else used == used0
    {
      hide History, Acceptable, Published, Genuine, ExcessQuarantine, WindowStable, WindowOf, Trailing, OneConfirmation,
        StableBefore, Quarantined;
      decided, used := None, used0;
      if |consecutive| < v.minPasses { return; }
      var window := WindowOf(v, consecutive);
      var stable := WindowIsStable(c, v, Lists(window));
      if !stable { return; }
      var accepted, quarantined := Split(passes, window);
      if !ExcessQuarantine(v, |accepted|, |quarantined|) {
        decided := Some(Snapshot(SUCCEEDED, accepted, quarantined, passes, Indices(window), None));
      } else if !used && |passes| < v.maxPasses {
        used := true;
      } else {
        decided := Some(Snapshot(INCOMPLETE, [], quarantined, passes, Indices(window), Some(ExcessiveQuarantine)));
      }
    }

    method Split(passes: seq<Pass>, window: seq<Pass>) returns (accepted: seq<string>, quarantined: seq<string>)
      requires History(c, v, feed, passes) && window == WindowOf(v, Trailing(passes)) && Stable(c, v, passes)
      ensures Published(c, v, Snapshot(SUCCEEDED, accepted, quarantined, passes, Indices(window), None))
      ensures ExcessQuarantine(v, |accepted|, |quarantined|) <==> !Acceptable(c, v, passes)
      ensures Quarantined(c, v,
        Snapshot(INCOMPLETE, [], quarantined, passes, Indices(window), Some(ExcessiveQuarantine)))
    {
      hide WindowOf, Trailing, Lists, KeySets, Repeated, Lone, DistinctKeys, WindowStable, LastSpelling, Flat, Count,
        Union, SortedNames, Indices, Genuine, KeysOf;
      WindowHasDistinctKeys(c, v, feed, passes);
      accepted, quarantined := AcceptedFromWindow(c, Lists(window));
      assert |accepted| == |PageKeys(c, accepted)| && |quarantined| == |PageKeys(c, quarantined)|;
    }
  }

  ghost predicate NoneAcceptable(c: Limits, v: Convergence, passes: seq<Pass>) {
    forall k :: 0 <= k <= |passes| ==> !Acceptable(c, v, passes[..k])
  }

  /** `extra_confirmation_used`: there was a stable window so far, and just one. */
  ghost predicate Spent(c: Limits, v: Convergence, passes: seq<Pass>, used: bool) {
    && (used <==> exists k :: 0 <= k <= |passes| && Stable(c, v, passes[..k]))
    && (forall j, k :: 0 <= j < k <= |passes| ==> !(Stable(c, v, passes[..j]) && Stable(c, v, passes[..k])))
  }

  lemma {:induction false} SpentMeans(c: Limits, v: Convergence, passes: seq<Pass>, used: bool)
    requires Spent(c, v, passes, used)
    ensures OneConfirmation(c, v, passes)
  {
    hide Stable;
  }

  lemma {:induction false} SpentSnoc(c: Limits, v: Convergence, passes: seq<Pass>, p: Pass, used: bool)
    requires Spent(c, v, passes, used)
    ensures var more := passes + [p];
            && OneConfirmation(c, v, more) && (StableBefore(c, v, more) <==> used)
            && (!Stable(c, v, more) ==> Spent(c, v, more, used))
            && (Stable(c, v, more) && !used ==> Spent(c, v, more, true))
  {
    hide Stable;
    var more := passes + [p];
    assert more[..|more|] == more;
    forall k | 0 <= k <= |passes| ensures more[..k] == passes[..k] {}
  }

  lemma {:induction false} NothingKnown(c: Limits, feed: Feed, before: Option<seq<string>>)
    ensures LastRead(c, feed, before, 0, before) && Generation(c, feed, before, 0, None)
  {
  }

  lemma {:induction false} NothingCollected(c: Limits, v: Convergence, feed: Feed)
    ensures History(c, v, feed, []) && NoneAcceptable(c, v, []) && Spent(c, v, [], false) && Trailing([]) == []
    ensures !Stable(c, v, [])
  {
  }

  lemma {:induction false} Extended(c: Limits, v: Convergence, feed: Feed, passes: seq<Pass>, p: Pass)
    requires History(c, v, feed, passes) && |passes| < v.maxPasses && NoneAcceptable(c, v, passes)
    requires p.index == |passes| + 1 && Genuine(c, feed, p)
    ensures var more := passes + [p];
            && History(c, v, feed, more)
            && Trailing(more) == (if p.status.SUCCEEDED? then Trailing(passes) + [p] else [])
            && (forall k :: 0 <= k < |more| ==> !Acceptable(c, v, more[..k]))
            && (NoneAcceptable(c, v, more) <==> !Acceptable(c, v, more))
            && (Acceptable(c, v, more) ==> Stable(c, v, more))
            && (Stable(c, v, more) ==> p.status.SUCCEEDED?)
  {
    hide Stable, Genuine, Acceptable, History, NoneAcceptable;
    var more := passes + [p];
    assert more[..|passes|] == passes;
    HistorySnoc(c, v, feed, passes, p);
    AcceptableSnoc(c, v, passes, p);
    if Acceptable(c, v, more) { AcceptableNeedsStable(c, v, more); }
    if Stable(c, v, more) { StableNeedsSuccess(c, v, more); }
  }

  lemma {:induction false} HistorySnoc(c: Limits, v: Convergence, feed: Feed, passes: seq<Pass>, p: Pass)
    requires History(c, v, feed, passes) && |passes| < v.maxPasses
    requires p.index == |passes| + 1 && Genuine(c, feed, p)
    ensures History(c, v, feed, passes + [p])
  {
    hide Genuine;
  }

  lemma {:induction false} AcceptableSnoc(c: Limits, v: Convergence, passes: seq<Pass>, p: Pass)
    requires NoneAcceptable(c, v, passes)
    ensures var more := passes + [p];
            (forall k :: 0 <= k < |more| ==> !Acceptable(c, v, more[..k]))
              && (NoneAcceptable(c, v, more) <==> !Acceptable(c, v, more))
  {
    hide Acceptable;
    var more := passes + [p];
    assert more[..|more|] == more;
    forall k | 0 <= k < |more| ensures !Acceptable(c, v, more[..k]) { assert more[..k] == passes[..k]; }
  }

  lemma {:induction false} AcceptableNeedsStable(c: Limits, v: Convergence, passes: seq<Pass>)
    requires Acceptable(c, v, passes)
    ensures Stable(c, v, passes)
  {
  }

  lemma {:induction false} StableNeedsSuccess(c: Limits, v: Convergence, passes: seq<Pass>)
    requires Stable(c, v, passes)
    ensures passes != [] && passes[|passes| - 1].status.SUCCEEDED?
  {
  }

  /** The verdict on a finished reading. */
  function Concluded(c: Limits, index: nat, r: Read): Pass {
    var code :=
      if r.code.Some? then r.code
      else if r.accepted == map[] then Some(EmptySnapshot)
      else if DuplicatesExceed(c, r.duplicates, r.raw) then Some(DuplicateRatioExceeded)
      else None;
    var status := if code.None? then SUCCEEDED else if code == Some(ApiCancelled) then CANCELLED else INCOMPLETE;
    Pass(index, status, if code.None? then ValuesInOrder(r.accepted) else [], r.pages, r.raw, r.duplicates, r.totals,
         r.code.None?, code)
  }

  lemma {:induction false} ConcludedIsSound(c: Limits, feed: Feed, index: nat, r: Read, pages: seq<seq<string>>)
    requires Trace(c, feed, index, pages, r.totals) && r.pages == |pages| && (c.maxPages >= 0 ==> r.pages <= c.maxPages)
    requires r.code.None? ==> Terminated(c, pages, r.totals) && FullPagesDiffer(c, pages[..|pages| - 1])
                              && Holds(c, Flat(pages), r.accepted, r.duplicates) && r.raw == |Flat(pages)|
                              && (r.accepted != map[] ==> |r.accepted| <= c.maxModels)
    requires r.code.Some? ==> Justified(c, feed, index, pages, r.totals, r.code.value)
    ensures PassSound(c, feed, Concluded(c, index, r), pages)
  {
    hide Trace, Terminated, FullPagesDiffer, Holds, ModelsOf, ValuesInOrder, KeysOf, Flat, OneSpelling, PassComplete,
      Justified;
    if r.code.None? {
      ReadingComplete(c, feed, index, r, pages);
    }
  }

  lemma {:induction false} ReadingComplete(c: Limits, feed: Feed, index: nat, r: Read, pages: seq<seq<string>>)
    requires r.code.None? && Terminated(c, pages, r.totals) && FullPagesDiffer(c, pages[..|pages| - 1])
    requires Holds(c, Flat(pages), r.accepted, r.duplicates) && r.raw == |Flat(pages)|
    requires r.accepted != map[] ==> |r.accepted| <= c.maxModels
    ensures Concluded(c, index, r).code.None? ==> PassComplete(c, Concluded(c, index, r), pages)
    ensures Concluded(c, index, r).code.Some? ==>
      Justified(c, feed, index, pages, r.totals, Concluded(c, index, r).code.value)
  {
    hide Terminated, FullPagesDiffer, Holds, ModelsOf, DuplicatesExceed, KeysOf, Flat, OneSpelling, ValuesInOrder;
    AcceptedModels(c, Flat(pages), r.accepted, r.duplicates);
    assert |ValuesInOrder(r.accepted)| == |r.accepted|;
    var p := Concluded(c, index, r);
    if p.code.None? {
      assert p.models == ValuesInOrder(r.accepted);
      hide Concluded;
    } else if p.code == Some(EmptySnapshot) {
      hide Concluded;
    } else {
      assert p.code == Some(DuplicateRatioExceeded);
      hide Concluded;
      assert Justified(c, feed, index, pages, r.totals, DuplicateRatioExceeded);
    }
  }

  lemma {:induction false} AcceptedModels(c: Limits, records: seq<string>, accepted: map<string, string>,
      duplicates: nat)
    requires Holds(c, records, accepted, duplicates)
    ensures OneSpelling(c, records) && ModelsOf(c, records, ValuesInOrder(accepted))
    ensures |KeysOf(c, records)| == |accepted| && |records| == |accepted| + duplicates
    ensures accepted == map[] ==> records == []
  {
    HoldsMeans(c, records, accepted, duplicates);
    assert |accepted.Keys| == |accepted|;
    if records != [] { assert records[0] in records; }
  }

  lemma {:induction false} WindowHasDistinctKeys(c: Limits, v: Convergence, feed: Feed, passes: seq<Pass>)
    requires History(c, v, feed, passes)
    ensures forall list :: list in Lists(WindowOf(v, Trailing(passes))) ==> DistinctKeys(c, list)
  {
    hide SortedNames, DistinctKeys, Genuine, Trailing;
    TrailingIsSuffix(passes);
    var window := WindowOf(v, Trailing(passes));
    forall p | p in Trailing(passes) ensures p in passes && p.status.SUCCEEDED? {}
    forall list | list in Lists(window) ensures DistinctKeys(c, list) {
      var i :| 0 <= i < |window| && window[i].models == list;
      assert window[i] in Trailing(passes);
      GenuineIsDistinct(c, feed, window[i]);
    }
  }

  lemma {:induction false} GenuineIsDistinct(c: Limits, feed: Feed, p: Pass)
    requires Genuine(c, feed, p) && p.status.SUCCEEDED?
    ensures DistinctKeys(c, p.models)
  {
    var pages :| PassSound(c, feed, p, pages);
    var keys := SortedNames(KeysOf(c, Flat(pages)));
    forall i, j | 0 <= i < j < |p.models| ensures Key(c, p.models[i]) != Key(c, p.models[j]) {
      assert Lt(keys[i], keys[j]);
    }
  }
}
