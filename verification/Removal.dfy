/** Removing master entries on repeated evidence: an entry goes only after enough different runs have
    found it accessible since it was last seen blocked. */
module Removal {
  import opened Common

  datatype Record = Record(url: string, verdict: Verdict, runId: string)

  /** `runIds`: `accessible_run_ids`; `history`: the retained verification records. */
  datatype Entry = Entry(protected: bool, runIds: seq<string>, pending: bool, lastVerdict: Option<Verdict>,
      history: seq<Record>)

  datatype Policy = Policy(canon: string -> Option<string>, confirmations: int, allowRemoval: bool)

  /** `s[-n:]`. */
  function Tail<T>(s: seq<T>, n: int): seq<T> {
    if n > 0 then (if |s| > n then s[|s| - n..] else s)
    else if -n <= |s| then s[-n..]
    else []
  }

  // ---------------------------------------------------------------- the evidence

  /** The different runs that reported ACCESSIBLE since the last BLOCKED. */
  function Since(base: set<string>, records: seq<Record>): set<string> {
    if records == [] then base
    else
      var r := records[|records| - 1];
      var before := Since(base, records[..|records| - 1]);
      match r.verdict
      case BLOCKED => {}
      case UNKNOWN => before
      case ACCESSIBLE => if r.runId == "" then before else before + {r.runId}
  }

  /** At some ACCESSIBLE record, enough different runs agreed. */
  ghost predicate Reaches(n: int, base: set<string>, records: seq<Record>) {
    exists k :: 0 < k <= |records| && Confirmed(n, base, records[..k])
  }

  predicate Confirmed(n: int, base: set<string>, records: seq<Record>) {
    records != [] && records[|records| - 1].verdict.ACCESSIBLE? && |Since(base, records)| >= n
  }

  /** What is kept of the evidence: all of it up to the number needed, then that many of its runs. */
  ghost predicate Tracks(n: int, runIds: seq<string>, since: set<string>) {
    && "" !in runIds && Distinct(runIds) && Elements(runIds) <= since
    && (n > 0 ==> |runIds| == (if |since| < n then |since| else n))
    && (n > 0 && |since| <= n ==> Elements(runIds) == since)
  }

  lemma {:induction false} DistinctSize(s: seq<string>)
    requires Distinct(s)
    ensures |Elements(s)| == |s|
  {
    if s != [] {
      var n := |s| - 1;
      DistinctSize(s[..n]);
      assert Elements(s) == Elements(s[..n]) + {s[n]} by { assert s == s[..n] + [s[n]]; }
      assert s[n] !in s[..n];
    }
  }

  // ---------------------------------------------------------------- one record

  /** The run ids after one record. */
  function Noted(n: int, runIds: seq<string>, r: Record): seq<string> {
    match r.verdict
    case BLOCKED => []
    case UNKNOWN => Tail(runIds, n)
    case ACCESSIBLE =>
      Tail(if r.runId != "" && r.runId !in Tail(runIds, n) then Tail(runIds, n) + [r.runId] else Tail(runIds, n), n)
  }

  /** Remembering at most n run ids never miscounts towards n. */
  lemma {:induction false} NotedTracks(n: int, runIds: seq<string>, base: set<string>, records: seq<Record>, r: Record)
    requires Tracks(n, runIds, Since(base, records))
    ensures Tracks(n, Noted(n, runIds, r), Since(base, records + [r]))
    ensures r.verdict.ACCESSIBLE? ==> (|Noted(n, runIds, r)| >= n <==> Confirmed(n, base, records + [r]))
  {
    var since := Since(base, records);
    assert (records + [r])[..|records|] == records;
    if n > 0 {
      assert Tail(runIds, n) == runIds;
      if r.verdict.ACCESSIBLE? && r.runId != "" && r.runId !in runIds {
        AddRun(n, runIds, since, r.runId);
      } else if r.verdict.ACCESSIBLE? && r.runId != "" {
        assert r.runId in Elements(runIds);
        assert since + {r.runId} == since;
      }
    } else {
      TailTracks(n, runIds, since);
      if r.verdict.ACCESSIBLE? {
        var kept := Tail(runIds, n);
        TailTracks(n, if r.runId != "" && r.runId !in kept then kept + [r.runId] else kept,
                   if r.runId == "" then since else since + {r.runId});
      }
    }
  }

  lemma {:induction false} AddRun(n: int, runIds: seq<string>, since: set<string>, run: string)
    requires n > 0 && Tracks(n, runIds, since) && run != "" && run !in runIds
    ensures Tracks(n, Tail(runIds + [run], n), since + {run})
  {
    var longer := runIds + [run];
    DistinctSize(runIds);
    assert Elements(longer) == Elements(runIds) + {run};
    if |since| >= n {
      var kept := longer[1..];
      assert Tail(longer, n) == kept;
      SubsetSize(since, since + {run});
      assert Elements(kept) <= Elements(longer);
      DistinctSize(kept);
      SubsetSize(Elements(kept), since + {run});
      if |since + {run}| <= n { SubsetSize(Elements(runIds), since); }
    } else {
      assert run !in since;
      assert Tail(longer, n) == longer;
    }
  }

  /** Without a bound to honour, any part of the run ids is as good. */
  lemma {:induction false} TailTracks(n: int, runIds: seq<string>, since: set<string>)
    requires n <= 0 && "" !in runIds && Distinct(runIds) && Elements(runIds) <= since
    ensures Tracks(n, Tail(runIds, n), since)
  {
    forall x | x in Tail(runIds, n) ensures x in runIds {}
    forall x | x in Elements(Tail(runIds, n)) ensures x in since { assert x in Elements(runIds); }
  }

  // ---------------------------------------------------------------- one batch

  /** The records about one URL, in order. */
  function About(p: Policy, records: seq<Record>, url: string): seq<Record> {
    if records == [] then []
    else
      About(p, records[..|records| - 1], url)
      + if p.canon(records[|records| - 1].url) == Some(url) then [records[|records| - 1]] else []
  }

  predicate AllCanonical(p: Policy, records: seq<Record>) {
    forall r :: r in records ==> p.canon(r.url).Some?
  }

  /** What an entry has become after some records about it. */
  ghost predicate Follows(p: Policy, before: Entry, after: Entry, records: seq<Record>) {
    && after.protected == before.protected
    && Tracks(p.confirmations, after.runIds, Since(Elements(before.runIds), records))
    && (if records == [] then after == before
        else
          var r := records[|records| - 1];
          && after.lastVerdict == Some(r.verdict)
          && after.history == Tail(before.history + records, 10)
          && (after.pending <==> match r.verdict
                                 case BLOCKED => false
                                 case UNKNOWN => true
                                 case ACCESSIBLE => !Confirmed(p.confirmations, Elements(before.runIds), records)))
  }

  /** An entry whose stored evidence is as this policy leaves it. */
  ghost predicate WellTracked(p: Policy, e: Entry) {
    Tracks(p.confirmations, e.runIds, Elements(e.runIds)) && |e.history| <= 10
  }

  lemma {:induction false} WellTrackedAfter(p: Policy, runIds: seq<string>, since: set<string>)
    requires Tracks(p.confirmations, runIds, since)
    ensures Tracks(p.confirmations, runIds, Elements(runIds))
  {
    DistinctSize(runIds);
  }

  lemma {:induction false} AboutSnoc(p: Policy, records: seq<Record>, r: Record, url: string)
    ensures About(p, records + [r], url) == About(p, records, url) + if p.canon(r.url) == Some(url) then [r] else []
  {
    assert (records + [r])[..|records|] == records;
  }

  lemma {:induction false} ReachesSnoc(n: int, base: set<string>, records: seq<Record>, r: Record)
    ensures Reaches(n, base, records + [r]) <==> Reaches(n, base, records) || Confirmed(n, base, records + [r])
  {
    var more := records + [r];
    assert more[..|more|] == more;
    if Reaches(n, base, records) {
      var k :| 0 < k <= |records| && Confirmed(n, base, records[..k]);
      assert more[..k] == records[..k];
    }
    if Reaches(n, base, more) && !Confirmed(n, base, more) {
      var k :| 0 < k <= |more| && Confirmed(n, base, more[..k]);
      assert more[..k] == records[..k];
    }
  }

  lemma {:induction false} TailSnoc<T>(s: seq<T>, x: T)
    ensures Tail(Tail(s, 10), 9) + [x] == Tail(s + [x], 10)
  {
  }

  /** One record about an unprotected entry. */
  method Note(p: Policy, ghost before: Entry, ghost records: seq<Record>, item0: Entry, r: Record)
    returns (item: Entry, removed: bool)
    requires Follows(p, before, item0, records) && |before.history| <= 10
    ensures Follows(p, before, item, records + [r])
    ensures removed <==> p.allowRemoval && Confirmed(p.confirmations, Elements(before.runIds), records + [r])
  {
    ghost var base := Elements(before.runIds);
    assert Tail(before.history, 10) == before.history && before.history + [] == before.history;
    TailSnoc(before.history + records, r);
    assert before.history + records + [r] == before.history + (records + [r]);
    NotedTracks(p.confirmations, item0.runIds, base, records, r);
    item := item0.(history := Tail(item0.history, 9) + [r], lastVerdict := Some(r.verdict));
    var runIds := Tail(item.runIds, p.confirmations);
    removed := false;
    match r.verdict {
      case BLOCKED =>
        runIds := [];
        item := item.(pending := false);
      case UNKNOWN =>
        item := item.(pending := true);
      case ACCESSIBLE =>
        if r.runId != "" && r.runId !in runIds { runIds := runIds + [r.runId]; }
        runIds := Tail(runIds, p.confirmations);
        item := item.(pending := |runIds| < p.confirmations);
        removed := p.allowRemoval && |runIds| >= p.confirmations;
    }
    item := item.(runIds := runIds);
  }

  /** The entries a batch removes. */
  ghost function Gone(p: Policy, entries: map<string, Entry>, records: seq<Record>): set<string> {
    set u | u in entries && !entries[u].protected && p.allowRemoval
            && Reaches(p.confirmations, Elements(entries[u].runIds), About(p, records, u))
  }

  ghost predicate Applied(p: Policy, before: map<string, Entry>, after: map<string, Entry>, records: seq<Record>) {
    && after.Keys <= before.Keys
    && forall u :: u in after ==>
         if before[u].protected then after[u] == before[u] else Follows(p, before[u], after[u], About(p, records, u))
  }

  lemma {:induction false} NothingApplied(p: Policy, entries: map<string, Entry>)
    requires forall u :: u in entries ==> WellTracked(p, entries[u])
    ensures Applied(p, entries, entries, []) && Gone(p, entries, []) == {}
  {
  }

  /** A record about one entry leaves the others as they were. */
  lemma {:induction false} AppliedOne(p: Policy, before: map<string, Entry>, after: map<string, Entry>,
      records: seq<Record>, r: Record, url: string, item: Entry)
    requires Applied(p, before, after, records) && p.canon(r.url) == Some(url)
    requires url in after && !before[url].protected && Follows(p, before[url], item, About(p, records, url) + [r])
    ensures Applied(p, before, after[url := item], records + [r])
  {
    hide Follows, About;
    AboutOthers(p, records, r);
  }

  lemma {:induction false} AboutOthers(p: Policy, records: seq<Record>, r: Record)
    ensures forall u :: p.canon(r.url) != Some(u) ==> About(p, records + [r], u) == About(p, records, u)
    ensures forall u :: p.canon(r.url) == Some(u) ==> About(p, records + [r], u) == About(p, records, u) + [r]
  {
    forall u { AboutSnoc(p, records, r, u); }
    assert forall u :: About(p, records, u) + [] == About(p, records, u);
  }

  lemma {:induction false} GoneOne(p: Policy, before: map<string, Entry>, records: seq<Record>, r: Record, url: string)
    requires p.canon(r.url) == Some(url) && url in before && !before[url].protected
    ensures Gone(p, before, records + [r]) == Gone(p, before, records)
              + if p.allowRemoval
                   && Confirmed(p.confirmations, Elements(before[url].runIds), About(p, records, url) + [r])
                then {url}
                else {}
  {
    hide About, Reaches, Confirmed;
    AboutOthers(p, records, r);
    ReachesSnoc(p.confirmations, Elements(before[url].runIds), About(p, records, url), r);
  }

  /** A record about no entry, or about a protected one, changes nothing. */
  lemma {:induction false} AppliedNone(p: Policy, before: map<string, Entry>, after: map<string, Entry>,
      records: seq<Record>, r: Record)
    requires Applied(p, before, after, records) && after.Keys == before.Keys && p.canon(r.url).Some?
    requires p.canon(r.url).value !in after || before[p.canon(r.url).value].protected
    ensures Applied(p, before, after, records + [r]) && Gone(p, before, records + [r]) == Gone(p, before, records)
  {
    hide Follows, Confirmed, Reaches, About;
    AboutOthers(p, records, r);
  }

  datatype Outcome = Failed | Done(removed: set<string>, remaining: nat)

  class MasterRepository {
    const p: Policy
    var entries: map<string, Entry>
    var blacklist: set<string>

    constructor (p: Policy, entries: map<string, Entry>, blacklist: set<string>)
      ensures this.p == p && this.entries == entries && this.blacklist == blacklist
    {
      this.p, this.entries, this.blacklist := p, entries, blacklist;
    }

    ghost predicate Tracked()
      reads this
    {
      forall u :: u in entries ==> WellTracked(p, entries[u])
    }

    /** The body of the loop over the records. */
    method ApplyOne(ghost records: seq<Record>, r: Record, url: string, byName0: map<string, Entry>,
        removed0: set<string>)
      returns (byName: map<string, Entry>, removed: set<string>)
      requires Tracked() && p.canon(r.url) == Some(url)
      requires byName0.Keys == entries.Keys && Applied(p, entries, byName0, records)
        && removed0 == Gone(p, entries, records)
      ensures byName.Keys == entries.Keys && Applied(p, entries, byName, records + [r])
        && removed == Gone(p, entries, records + [r])
    {
      hide Applied, Gone, Follows, Confirmed, About, Tracks;
      byName, removed := byName0, removed0;
      if url in byName { SameProtection(p, entries, byName, records, url); }
      if url !in byName || byName[url].protected {
        AppliedNone(p, entries, byName, records, r);
        return;
      }
      FollowsAt(p, entries, byName, records, url);
      var item, gone := Note(p, entries[url], About(p, records, url), byName[url], r);
      AppliedOne(p, entries, byName, records, r, url, item);
      GoneOne(p, entries, records, r, url);
      if gone { removed := removed + {url}; }
      byName := byName[url := item];
    }

    /** `apply_verification_records`. */
    method ApplyVerificationRecords(records: seq<Record>) returns (outcome: Outcome)
      requires Tracked()
      modifies this
      ensures outcome.Failed? <==> !AllCanonical(p, records)
      ensures outcome.Failed? ==> entries == old(entries) && blacklist == old(blacklist)
      ensures outcome.Done? ==> outcome.removed == Gone(p, old(entries), records)
      ensures outcome.Done? ==>
        entries.Keys == old(entries).Keys - outcome.removed && blacklist == old(blacklist) + outcome.removed
      ensures outcome.Done? ==> Applied(p, old(entries), entries, records)
      ensures outcome.Done? ==>
        outcome.remaining == |entries| && outcome.remaining + |outcome.removed| == |old(entries)|
      ensures Tracked()
    {
      hide Applied, Gone;
      var byName := entries;
      var removed: set<string> := {};
      NothingApplied(p, entries);
      for i := 0 to |records|
        invariant AllCanonical(p, records[..i])
        invariant byName.Keys == entries.Keys && entries == old(entries) && blacklist == old(blacklist)
        invariant Applied(p, entries, byName, records[..i]) && removed == Gone(p, entries, records[..i])
      {
        var r := records[i];
        assert records[..i + 1] == records[..i] + [r] && r in records;
        var url := p.canon(r.url);
        if url.None? { return Failed; }
        byName, removed := ApplyOne(records[..i], r, url.value, byName, removed);
      }
      assert records[..|records|] == records;
      var kept := byName - removed;
      StillTracked(p, entries, byName, records);
      KeptApplied(p, entries, byName, removed, records);
      Conserved(entries, kept, removed);
      entries, blacklist := kept, blacklist + removed;
      outcome := Done(removed, |kept|);
    }

    /** Any sequence of batches: with removal allowed, an entry that was there is gone exactly when it is
        unprotected and some ACCESSIBLE record found enough different runs since its last BLOCKED. Removed
        entries are blacklisted, none is lost otherwise, and protected ones are never touched. */
    method ApplyAll(batches: seq<seq<Record>>)
      requires Tracked() && p.allowRemoval && AllCanonical(p, Joined(batches))
      modifies this
      ensures Tracked() && entries.Keys <= old(entries).Keys
      ensures forall u :: u in old(entries) ==>
                (u !in entries <==> !old(entries)[u].protected
                                    && Reaches(p.confirmations, Elements(old(entries)[u].runIds),
                                      About(p, Joined(batches), u)))
      ensures forall u :: u in entries && old(entries)[u].protected ==> entries[u] == old(entries)[u]
      ensures blacklist == old(blacklist) + (old(entries).Keys - entries.Keys)
      ensures |entries| + |old(entries).Keys - entries.Keys| == |old(entries)|
    {
      ghost var first := entries;
      Batches(batches);
      Conserved(first, entries, first.Keys - entries.Keys);
      AfterAll(p, first, entries, Joined(batches));
    }

    method Batches(batches: seq<seq<Record>>)
      requires Tracked() && p.allowRemoval && AllCanonical(p, Joined(batches))
      modifies this
      ensures Tracked() && AfterBatches(p, old(entries), entries, Joined(batches))
      ensures entries.Keys <= old(entries).Keys && blacklist == old(blacklist) + (old(entries).Keys - entries.Keys)
    {
      ghost var first := entries;
      NoBatches(p, first);
      hide Applied, Gone, AfterBatches, Reaches, About, WellTracked, Joined, AllCanonical;
      for i := 0 to |batches|
        invariant Tracked() && AfterBatches(p, first, entries, Joined(batches[..i]))
        invariant entries.Keys <= first.Keys && blacklist == old(blacklist) + (first.Keys - entries.Keys)
      {
        BatchCanonical(p, batches, i);
        ghost var before, was := entries, blacklist;
        GoneIsListed(p, before, batches[i]);
        var outcome := ApplyVerificationRecords(batches[i]);
        RemovedListed(first.Keys, before.Keys, entries.Keys, outcome.removed, old(blacklist), was, blacklist);
        BatchApplied(p, first, before, entries, Joined(batches[..i]), batches[i]);
      }
      assert batches[..|batches|] == batches;
    }
  }

  // ---------------------------------------------------------------- any sequence of batches

  function Joined(batches: seq<seq<Record>>): seq<Record> {
    if batches == [] then [] else Joined(batches[..|batches| - 1]) + batches[|batches| - 1]
  }

  lemma {:induction false} AboutJoin(p: Policy, a: seq<Record>, b: seq<Record>, url: string)
    ensures About(p, a + b, url) == About(p, a, url) + About(p, b, url)
  {
    if b == [] {
      assert a + b == a;
    } else {
      var n := |b| - 1;
      assert a + b == (a + b[..n]) + [b[n]];
      AboutSnoc(p, a + b[..n], b[n], url);
      AboutSnoc(p, b[..n], b[n], url);
      assert b == b[..n] + [b[n]];
      AboutJoin(p, a, b[..n], url);
    }
  }

  lemma {:induction false} SinceJoin(base: set<string>, a: seq<Record>, b: seq<Record>)
    ensures Since(base, a + b) == Since(Since(base, a), b)
  {
    if b == [] {
      assert a + b == a;
    } else {
      assert (a + b)[..|a + b| - 1] == a + b[..|b| - 1];
      SinceJoin(base, a, b[..|b| - 1]);
    }
  }

  lemma {:induction false} ConfirmedJoin(n: int, base: set<string>, a: seq<Record>, b: seq<Record>)
    requires b != []
    ensures Confirmed(n, base, a + b) <==> Confirmed(n, Since(base, a), b)
  {
    SinceJoin(base, a, b);
  }

  lemma {:induction false} ReachesJoin(n: int, base: set<string>, a: seq<Record>, b: seq<Record>)
    ensures Reaches(n, base, a + b) <==> Reaches(n, base, a) || Reaches(n, Since(base, a), b)
  {
    hide Confirmed, Since;
    if Reaches(n, base, a) {
      var k :| 0 < k <= |a| && Confirmed(n, base, a[..k]);
      assert (a + b)[..k] == a[..k];
    }
    if Reaches(n, Since(base, a), b) {
      var k :| 0 < k <= |b| && Confirmed(n, Since(base, a), b[..k]);
      ConfirmedJoin(n, base, a, b[..k]);
      assert (a + b)[..|a| + k] == a + b[..k];
    }
    if Reaches(n, base, a + b) && !Reaches(n, base, a) {
      var k :| 0 < k <= |a + b| && Confirmed(n, base, (a + b)[..k]);
      if k <= |a| {
        assert (a + b)[..k] == a[..k];
      } else {
        assert (a + b)[..k] == a + b[..k - |a|];
        ConfirmedJoin(n, base, a, b[..k - |a|]);
      }
    }
  }

  /** While nothing has been confirmed, all the evidence fits in what is kept. */
  lemma {:induction false} UnconfirmedFits(n: int, base: set<string>, records: seq<Record>)
    requires n > 0 && |base| <= n && !Reaches(n, base, records)
    ensures |Since(base, records)| <= n
  {
    if records != [] {
      var m := |records| - 1;
      assert records == records[..m] + [records[m]] && records[..|records|] == records;
      ReachesSnoc(n, base, records[..m], records[m]);
      UnconfirmedFits(n, base, records[..m]);
    }
  }

  /** Continuing from the kept run ids decides removal as continuing from the full evidence would. */
  lemma {:induction false} KeptDecides(n: int, base: set<string>, records: seq<Record>, runIds: seq<string>,
      more: seq<Record>)
    requires (n > 0 ==> |base| <= n) && !Reaches(n, base, records) && Tracks(n, runIds, Since(base, records))
    ensures Reaches(n, Elements(runIds), more) <==> Reaches(n, Since(base, records), more)
    ensures n > 0 ==> Elements(runIds) == Since(base, records)
  {
    if n > 0 {
      UnconfirmedFits(n, base, records);
    } else {
      forall k | 0 < k <= |more|
        ensures Confirmed(n, Elements(runIds), more[..k]) <==> Confirmed(n, Since(base, records), more[..k]) {}
    }
  }

  /** An entry after a history of records none of which removed it. */
  ghost predicate Surviving(p: Policy, before: Entry, after: Entry, records: seq<Record>) {
    && after.protected == before.protected
    && (before.protected ==> after == before)
    && (!before.protected ==> !Reaches(p.confirmations, Elements(before.runIds), records)
                              && Tracks(p.confirmations, after.runIds, Since(Elements(before.runIds), records)))
  }

  lemma {:induction false} BatchSurvival(p: Policy, first: Entry, before: Entry, after: Entry, past: seq<Record>,
      batch: seq<Record>)
    requires WellTracked(p, first) && Surviving(p, first, before, past)
    requires if before.protected then after == before else Follows(p, before, after, batch)
    ensures !first.protected ==> (Reaches(p.confirmations, Elements(first.runIds), past + batch)
                                  <==> Reaches(p.confirmations, Elements(before.runIds), batch))
    ensures first.protected || !Reaches(p.confirmations, Elements(first.runIds), past + batch) ==>
      Surviving(p, first, after, past + batch)
  {
    if !first.protected {
      var n, base := p.confirmations, Elements(first.runIds);
      DistinctSize(first.runIds);
      KeptDecides(n, base, past, before.runIds, batch);
      ReachesJoin(n, base, past, batch);
      SinceJoin(base, past, batch);
      if n <= 0 { AnyBase(n, after.runIds, Elements(before.runIds), Since(base, past), batch); }
    }
  }

  lemma {:induction false} SinceGrows(small: set<string>, large: set<string>, records: seq<Record>)
    requires small <= large
    ensures Since(small, records) <= Since(large, records)
  {
    if records != [] { SinceGrows(small, large, records[..|records| - 1]); }
  }

  lemma {:induction false} AnyBase(n: int, runIds: seq<string>, small: set<string>, large: set<string>,
      records: seq<Record>)
    requires n <= 0 && small <= large && Tracks(n, runIds, Since(small, records))
    ensures Tracks(n, runIds, Since(large, records))
  {
    SinceGrows(small, large, records);
  }

  lemma {:induction false} KeptApplied(p: Policy, before: map<string, Entry>, after: map<string, Entry>,
      removed: set<string>, records: seq<Record>)
    requires Applied(p, before, after, records) && after.Keys == before.Keys && removed == Gone(p, before, records)
    ensures Applied(p, before, after - removed, records) && removed <= before.Keys
  {
    hide Follows, About, Reaches;
  }

  lemma {:induction false} FollowsAt(p: Policy, before: map<string, Entry>, after: map<string, Entry>,
      records: seq<Record>, url: string)
    requires Applied(p, before, after, records) && url in after && !before[url].protected
    ensures Follows(p, before[url], after[url], About(p, records, url))
  {
  }

  ghost predicate AfterBatches(p: Policy, first: map<string, Entry>, now: map<string, Entry>, records: seq<Record>) {
    && (forall u :: u in first ==> WellTracked(p, first[u]))
    && now.Keys <= first.Keys
    && (forall u :: u in now ==> Surviving(p, first[u], now[u], About(p, records, u)))
    && (forall u :: u in first && u !in now ==>
          !first[u].protected && Reaches(p.confirmations, Elements(first[u].runIds), About(p, records, u)))
  }

  lemma {:induction false} BatchCanonical(p: Policy, batches: seq<seq<Record>>, i: nat)
    requires i < |batches| && AllCanonical(p, Joined(batches))
    ensures AllCanonical(p, batches[i]) && Joined(batches[..i + 1]) == Joined(batches[..i]) + batches[i]
  {
    JoinedSplits(batches, i);
  }

  lemma {:induction false} RemovedListed(first: set<string>, before: set<string>, after: set<string>,
      removed: set<string>,
                                         listed: set<string>, was: set<string>, now: set<string>)
    requires before <= first && removed <= before && after == before - removed
    requires was == listed + (first - before) && now == was + removed
    ensures after <= first && now == listed + (first - after)
  {
  }

  lemma {:induction false} GoneIsListed(p: Policy, entries: map<string, Entry>, records: seq<Record>)
    ensures Gone(p, entries, records) <= entries.Keys
  {
  }

  lemma {:induction false} AfterAll(p: Policy, first: map<string, Entry>, now: map<string, Entry>, records: seq<Record>)
    requires AfterBatches(p, first, now, records)
    ensures forall u :: u in first ==>
              (u !in now <==>
                !first[u].protected && Reaches(p.confirmations, Elements(first[u].runIds), About(p, records, u)))
    ensures forall u :: u in now && u in first && first[u].protected ==> now[u] == first[u]
  {
  }

  lemma {:induction false} NoBatches(p: Policy, entries: map<string, Entry>)
    requires forall u :: u in entries ==> WellTracked(p, entries[u])
    ensures AfterBatches(p, entries, entries, [])
  {
  }

  lemma {:induction false} JoinedSplits(batches: seq<seq<Record>>, i: nat)
    requires i < |batches|
    ensures Joined(batches[..i + 1]) == Joined(batches[..i]) + batches[i]
    ensures forall r :: r in batches[i] ==> r in Joined(batches)
  {
    assert batches[..i + 1][..i] == batches[..i];
    if i == |batches| - 1 {
      assert batches[..i] == batches[..|batches| - 1];
    } else {
      JoinedSplits(batches[..|batches| - 1], i);
    }
  }

  lemma {:induction false} BatchApplied(p: Policy, first: map<string, Entry>, before: map<string, Entry>,
      now: map<string, Entry>, past: seq<Record>, batch: seq<Record>)
    requires AfterBatches(p, first, before, past) && p.allowRemoval
    requires Applied(p, before, now, batch) && now.Keys == before.Keys - Gone(p, before, batch)
    ensures AfterBatches(p, first, now, past + batch)
  {
    hide About, Reaches, Follows, Surviving, WellTracked;
    forall u | u in first
      ensures u in now ==> Surviving(p, first[u], now[u], About(p, past + batch, u))
      ensures u !in now ==>
        !first[u].protected && Reaches(p.confirmations, Elements(first[u].runIds), About(p, past + batch, u))
    {
      AboutJoin(p, past, batch, u);
      ReachesJoin(p.confirmations, Elements(first[u].runIds), About(p, past, u), About(p, batch, u));
      if u in before {
        EntryApplied(p, first[u], before[u], if u in now then now[u] else before[u], u in now,
          About(p, past, u), About(p, batch, u));
      }
    }
  }

  lemma {:induction false} EntryApplied(p: Policy, first: Entry, before: Entry, after: Entry, kept: bool,
      past: seq<Record>, batch: seq<Record>)
    requires WellTracked(p, first) && Surviving(p, first, before, past)
    requires kept <==> before.protected || !Reaches(p.confirmations, Elements(before.runIds), batch)
    requires kept ==> if before.protected then after == before else Follows(p, before, after, batch)
    ensures if kept then Surviving(p, first, after, past + batch)
            else !first.protected && Reaches(p.confirmations, Elements(first.runIds), past + batch)
  {
    if kept {
      BatchSurvival(p, first, before, after, past, batch);
    } else {
      DistinctSize(first.runIds);
      KeptDecides(p.confirmations, Elements(first.runIds), past, before.runIds, batch);
      ReachesJoin(p.confirmations, Elements(first.runIds), past, batch);
    }
  }

  lemma {:induction false} SameProtection(p: Policy, before: map<string, Entry>, after: map<string, Entry>,
      records: seq<Record>, url: string)
    requires Applied(p, before, after, records) && url in after
    ensures after[url].protected == before[url].protected
  {
  }

  lemma {:induction false} StillTracked(p: Policy, before: map<string, Entry>, after: map<string, Entry>,
      records: seq<Record>)
    requires Applied(p, before, after, records)
    requires forall u :: u in before ==> WellTracked(p, before[u])
    ensures forall u :: u in after ==> WellTracked(p, after[u])
  {
    forall u | u in after ensures WellTracked(p, after[u]) {
      if !before[u].protected {
        WellTrackedAfter(p, after[u].runIds, Since(Elements(before[u].runIds), About(p, records, u)));
      }
    }
  }

  lemma {:induction false} Conserved(before: map<string, Entry>, after: map<string, Entry>, removed: set<string>)
    requires removed <= before.Keys && after.Keys == before.Keys - removed
    ensures |after| + |removed| == |before|
  {
    assert before.Keys == after.Keys + removed;
    assert |before.Keys| == |after.Keys| + |removed|;
  }
}