/** Resumable, checkpointed, bounded-retry verification of a candidate list. */
module Verifier {
  import opened Common
  import opened Names

  datatype Record = Record(verdict: Verdict, reason: string, attempt: nat)

  /** What a judge answers, and for which URL. */
  datatype Answer = Answer(originalUrl: string, record: Record)

  /** The judge is a function of URL and attempt; None where it raises. */
  datatype Setting = Setting(canon: string -> Option<string>, judge: (string, nat) -> Option<Answer>,
                             maxAttempts: nat, knownBlocked: seq<string>)

  datatype Checkpoint = Checkpoint(digest: string, urls: seq<string>, verdicts: map<string, Record>,
      attempts: map<string, nat>)

  /** One judgement asked of the provider. */
  datatype Request = Request(url: string, attempt: nat)

  datatype Failure = InvalidCandidateUrl | ResumeCheckpointMismatch | FinalPublishFailed

  datatype Outcome =
    | Failed(failure: Failure)
    | Cancelled
    | Incomplete(remaining: nat)
    | Succeeded(blocked: seq<string>)
    | Cut

  /** One run by one process: cancellation answers, batch size, how many durable writes happen before
      the process is cut (None: it is not cut), and whether publishing raises. */
  datatype Run = Run(resume: bool, batch: int, cancels: seq<bool>, writes: Option<nat>, publishFails: bool)

  const TRANSIENT_REASONS := {"browser_closed", "selector_error", "navigation_timeout", "captcha_timeout",
                              "age_gate_blocked", "cancelled"}

  predicate IsTransientUnknown(r: Record) {
    r.verdict.UNKNOWN? && r.reason in TRANSIENT_REASONS
  }

  /** `candidate_digest`, with the hash identified with what it hashes. */
  function CandidateDigest(urls: seq<string>): string {
    if urls == [] then "" else urls[0] + "\n" + CandidateDigest(urls[1..])
  }

  /** Each value once, in first-seen order (`dict.fromkeys`). */
  function Dedup(urls: seq<string>): (r: seq<string>)
    ensures Distinct(r)
    ensures forall u :: u in r <==> u in urls
    ensures Distinct(urls) ==> r == urls
  {
    if urls == [] then []
    else
      var n := |urls| - 1;
      var rest := Dedup(urls[..n]);
      assert urls == urls[..n] + [urls[n]];
      if urls[n] in rest then rest else rest + [urls[n]]
  }

  lemma {:induction false} Slices(urls: seq<string>, i: nat, j: nat)
    requires i <= j <= |urls| && Distinct(urls)
    ensures Distinct(urls[i..j])
    ensures forall u :: u in urls[i..] <==> u in urls[i..j] || u in urls[j..]
    ensures forall u :: u in urls[j..] ==> u !in urls[i..j]
    ensures forall u :: u in urls[i..] ==> u in urls
  {
    assert urls[i..] == urls[i..j] + urls[j..];
  }

  predicate AllCanonical(s: Setting, candidates: seq<string>) {
    forall c :: c in candidates ==> s.canon(c).Some?
  }

  /** The list a run works through: each canonical URL once, in first-seen order. */
  function CanonicalOf(s: Setting, candidates: seq<string>): (r: seq<string>)
    requires AllCanonical(s, candidates)
    ensures Distinct(r)
    ensures forall u :: u in r <==> exists c :: c in candidates && s.canon(c) == Some(u)
  {
    if candidates == [] then []
    else
      var n := |candidates| - 1;
      assert candidates == candidates[..n] + [candidates[n]];
      var rest := CanonicalOf(s, candidates[..n]);
      var u := s.canon(candidates[n]).value;
      if u in rest then rest else rest + [u]
  }

  lemma {:induction false} CanonicalOfCanonical(s: Setting, urls: seq<string>)
    requires forall u :: u in urls ==> s.canon(u) == Some(u)
    ensures AllCanonical(s, urls) && CanonicalOf(s, urls) == Dedup(urls)
  {
    if urls != [] { CanonicalOfCanonical(s, urls[..|urls| - 1]); }
  }

  // ---------------------------------------------------------------- the specification, URL by URL

  function Judged(s: Setting, url: string, attempt: nat): Record {
    match s.judge(url, attempt)
    case Some(a) => if s.canon(a.originalUrl) == Some(url) then a.record else Record(UNKNOWN, "selector_error", attempt)
    case None => Record(UNKNOWN, "selector_error", attempt)
  }

  // ---------------------------------------------------------------- the same, in the judge's words

  /** The judge answered for this URL, with this verdict. */
  ghost predicate Says(s: Setting, url: string, attempt: nat, verdict: Verdict) {
    var a := s.judge(url, attempt);
    a.Some? && s.canon(a.value.originalUrl) == Some(url) && a.value.record.verdict == verdict
  }

  /** The attempt decided nothing: no answer for this URL, or an unknown one. */
  ghost predicate LeftOpen(s: Setting, url: string, attempt: nat) {
    !Says(s, url, attempt, BLOCKED) && !Says(s, url, attempt, ACCESSIBLE)
  }

  /** An allowed attempt, and none before it decided. */
  ghost predicate StillOpen(s: Setting, a: Request) {
    1 <= a.attempt <= s.maxAttempts && forall j :: 1 <= j < a.attempt ==> LeftOpen(s, a.url, j)
  }

  /** Some allowed attempt found the URL blocked, and none before it decided. */
  ghost predicate RuledBlocked(s: Setting, url: string) {
    exists k :: 1 <= k <= s.maxAttempts && Says(s, url, k, BLOCKED) && forall j :: 1 <= j < k ==> LeftOpen(s, url, j)
  }

  /** No allowed attempt decided, and the last one gave no answer or a transient reason. */
  ghost predicate NeverReached(s: Setting, url: string) {
    && (forall k :: 1 <= k <= s.maxAttempts ==> LeftOpen(s, url, k))
    && (Says(s, url, s.maxAttempts, UNKNOWN) ==>
          s.judge(url, s.maxAttempts).value.record.reason in TRANSIENT_REASONS)
  }

  /** The list published: the known blocked URLs and the candidates ruled blocked, each once, in character
      order. */
  ghost predicate BlockedList(s: Setting, candidates: seq<string>, list: seq<string>) {
    && (forall u :: u in list <==>
          u in s.knownBlocked || (RuledBlocked(s, u) && exists c :: c in candidates && s.canon(c) == Some(u)))
    && (forall i, j :: 0 <= i < j < |list| ==> list[i] != list[j] && NotAbove(list[i], list[j]))
  }

  /** The attempt that settles a URL: the first decisive one, else the last allowed. */
  function Settling(s: Setting, url: string, k: nat): nat
    decreases s.maxAttempts - k
  {
    if k >= s.maxAttempts || !Judged(s, url, k).verdict.UNKNOWN? then k else Settling(s, url, k + 1)
  }

  function FinalAttempt(s: Setting, url: string): nat { Settling(s, url, 1) }

  function FinalRecord(s: Setting, url: string): Record { Judged(s, url, FinalAttempt(s, url)) }

  ghost function FinalVerdicts(s: Setting, urls: seq<string>): map<string, Record> {
    map u | u in urls :: FinalRecord(s, u)
  }

  ghost function FinalAttempts(s: Setting, urls: seq<string>): map<string, nat> {
    map u | u in urls :: FinalAttempt(s, u)
  }

  ghost function Proven(s: Setting, urls: seq<string>): set<string> {
    set u | u in urls && FinalRecord(s, u).verdict.BLOCKED?
  }

  ghost function FinalBlocked(s: Setting, urls: seq<string>): seq<string> {
    SortedNames(Proven(s, urls) + Elements(s.knownBlocked))
  }

  ghost function FinishedCheckpoint(s: Setting, urls: seq<string>): Checkpoint {
    Checkpoint(CandidateDigest(urls), urls, FinalVerdicts(s, urls), FinalAttempts(s, urls))
  }

  ghost predicate Settled(s: Setting, urls: seq<string>) {
    forall u :: u in urls ==> !IsTransientUnknown(FinalRecord(s, u))
  }

  lemma {:induction false} SettlingIsFirst(s: Setting, url: string, from: nat)
    requires from <= s.maxAttempts
    ensures from <= Settling(s, url, from) <= s.maxAttempts
    ensures forall k :: from <= k < Settling(s, url, from) ==> Judged(s, url, k).verdict.UNKNOWN?
    ensures Settling(s, url, from) < s.maxAttempts ==> !Judged(s, url, Settling(s, url, from)).verdict.UNKNOWN?
    decreases s.maxAttempts - from
  {
    if from < s.maxAttempts && Judged(s, url, from).verdict.UNKNOWN? {
      SettlingIsFirst(s, url, from + 1);
    }
  }

  // ---------------------------------------------------------------- progress on the way there

  /** Whatever was recorded for a URL is what the judge said at the recorded attempt, and no attempt
      beyond the settling one was ever made. */
  ghost predicate OnTheWay(s: Setting, urls: seq<string>, verdicts: map<string, Record>, attempts: map<string, nat>) {
    && verdicts.Keys == attempts.Keys
    && (forall u :: u in attempts ==> u in urls && 1 <= attempts[u] <= FinalAttempt(s, u)
                                      && verdicts[u] == Judged(s, u, attempts[u]))
  }

  function Tried(attempts: map<string, nat>, url: string): nat {
    if url in attempts then attempts[url] else 0
  }

  /** `_is_pending`. */
  predicate IsPending(s: Setting, verdicts: map<string, Record>, attempts: map<string, nat>, url: string) {
    if url !in verdicts then true
    else if !verdicts[url].verdict.UNKNOWN? then false
    else Tried(attempts, url) < s.maxAttempts
  }

  /** A URL is pending exactly while its settling attempt has not been made. */
  lemma {:induction false} PendingMeansUnsettled(s: Setting, urls: seq<string>, verdicts: map<string, Record>,
      attempts: map<string, nat>, url: string)
    requires OnTheWay(s, urls, verdicts, attempts) && s.maxAttempts >= 1
    ensures IsPending(s, verdicts, attempts, url) <==> Tried(attempts, url) < FinalAttempt(s, url)
  {
    SettlingIsFirst(s, url, 1);
  }

  /** With nothing pending, the recorded state is the specified one: it does not depend on how the work
      was cut into runs, rounds and batches. */
  lemma {:induction false} NothingPending(s: Setting, urls: seq<string>, verdicts: map<string, Record>,
      attempts: map<string, nat>)
    requires OnTheWay(s, urls, verdicts, attempts) && s.maxAttempts >= 1
    requires forall u :: u in urls ==> !IsPending(s, verdicts, attempts, u)
    ensures verdicts == FinalVerdicts(s, urls) && attempts == FinalAttempts(s, urls)
  {
    forall u | u in urls ensures u in attempts && attempts[u] == FinalAttempt(s, u) {
      PendingMeansUnsettled(s, urls, verdicts, attempts, u);
    }
  }

  /** One more attempt at a pending URL stays on the way. */
  lemma {:induction false} AttemptStaysOnTheWay(s: Setting, urls: seq<string>, verdicts: map<string, Record>,
      attempts: map<string, nat>, url: string)
    requires OnTheWay(s, urls, verdicts, attempts) && s.maxAttempts >= 1 && url in urls
    requires IsPending(s, verdicts, attempts, url)
    ensures Tried(attempts, url) < FinalAttempt(s, url)
    ensures var k := Tried(attempts, url) + 1;
            OnTheWay(s, urls, verdicts[url := Judged(s, url, k)], attempts[url := k])
    ensures var k := Tried(attempts, url) + 1;
            forall u :: u != url ==>
              (IsPending(s, verdicts[url := Judged(s, url, k)], attempts[url := k], u)
              <==> IsPending(s, verdicts, attempts, u))
  {
    PendingMeansUnsettled(s, urls, verdicts, attempts, url);
  }

  ghost function Remaining(s: Setting, urls: seq<string>, attempts: map<string, nat>): nat {
    if urls == [] then 0
    else
      var left := FinalAttempt(s, urls[0]) - Tried(attempts, urls[0]);
      (if left > 0 then left else 0) + Remaining(s, urls[1..], attempts)
  }

  lemma {:induction false} RemainingUnchanged(s: Setting, urls: seq<string>, attempts: map<string, nat>, u: string,
      k: nat)
    requires u !in urls
    ensures Remaining(s, urls, attempts[u := k]) == Remaining(s, urls, attempts)
  {
    if urls != [] { RemainingUnchanged(s, urls[1..], attempts, u, k); }
  }

  lemma {:induction false} RemainingDrops(s: Setting, urls: seq<string>, attempts: map<string, nat>, u: string)
    requires Distinct(urls) && u in urls && Tried(attempts, u) < FinalAttempt(s, u)
    ensures Remaining(s, urls, attempts[u := Tried(attempts, u) + 1]) < Remaining(s, urls, attempts)
  {
    if urls[0] == u {
      RemainingUnchanged(s, urls[1..], attempts, u, Tried(attempts, u) + 1);
    } else {
      RemainingDrops(s, urls[1..], attempts, u);
    }
  }

  function PendingUrls(s: Setting, urls: seq<string>, verdicts: map<string, Record>,
      attempts: map<string, nat>): (r: seq<string>)
    ensures forall u :: u in r <==> u in urls && IsPending(s, verdicts, attempts, u)
    ensures Distinct(urls) ==> Distinct(r)
  {
    if urls == [] then []
    else
      var rest := PendingUrls(s, urls[1..], verdicts, attempts);
      if IsPending(s, verdicts, attempts, urls[0]) then
        assert Distinct(urls) ==> Distinct(urls[1..]);
        [urls[0]] + rest
      else rest
  }

  // ---------------------------------------------------------------- the verifier

  class ChaturbateVerifier {
    const s: Setting
    var checkpoint: Option<Checkpoint>
    var artifact: Option<seq<string>>    // FINAL_BLOCKED.txt among the run's artifacts
    var published: Option<seq<string>>   // FINAL_BLOCKED.txt in the session
    var writes: Option<nat>
    var cut: bool
    var polls: nat
    ghost var asked: set<Request>   // the judgements requested in the current run
    ghost var calls: nat                  // how many requests that was

    constructor (s: Setting)
      ensures this.s == s && checkpoint.None? && published.None?
    {
      this.s, checkpoint, artifact, published := s, None, None, None;
      writes, cut, polls, asked, calls := None, false, 0, {}, 0;
    }

    ghost predicate Sound()
      reads this
    {
      s.maxAttempts >= 1
      && (checkpoint.Some? ==>
            checkpoint.value.digest == CandidateDigest(checkpoint.value.urls)
            && OnTheWay(s, checkpoint.value.urls, checkpoint.value.verdicts, checkpoint.value.attempts))
    }

    /** The process gets through n more writes. */
    static predicate Allows(writes: Option<nat>, n: nat) { writes.None? || writes.value >= n }

    /** One durable write, unless the process has been cut or is cut here. */
    method Durable()
      modifies this`writes, this`cut
      ensures cut <==> old(cut) || old(writes) == Some(0)
      ensures writes == if cut || old(writes).None? then old(writes) else Some(old(writes).value - 1)
    {
      if cut || writes == Some(0) {
        cut := true;
      } else if writes.Some? {
        writes := Some(writes.value - 1);
      }
    }

    method WriteCheckpoint(urls: seq<string>, verdicts: map<string, Record>, attempts: map<string, nat>)
      requires Sound() && OnTheWay(s, urls, verdicts, attempts)
      modifies this`checkpoint, this`writes, this`cut
      ensures Sound()
      ensures !cut ==> !old(cut) && checkpoint == Some(Checkpoint(CandidateDigest(urls), urls, verdicts, attempts))
      ensures cut ==> checkpoint == old(checkpoint)
      ensures cut <==> old(cut) || old(writes) == Some(0)
      ensures writes == if cut || old(writes).None? then old(writes) else Some(old(writes).value - 1)
    {
      Durable();
      if cut { return; }
      checkpoint := Some(Checkpoint(CandidateDigest(urls), urls, verdicts, attempts));
    }

    /** Of the answers from one poll to another, none said cancelled, except the last where it ended things. */
    static ghost predicate Heeded(run: Run, from: nat, to: nat, cancelled: bool) {
      && from <= to && (cancelled ==> from < to && CancelAt(run, to - 1))
      && forall k :: from <= k < (if cancelled then to - 1 else to) ==> !CancelAt(run, k)
    }

    static predicate CancelAt(run: Run, k: int) { 0 <= k < |run.cancels| && run.cancels[k] }

    method IsCancelled(run: Run) returns (r: bool)
      modifies this`polls
      ensures r == CancelAt(run, old(polls)) && polls == old(polls) + 1
    {
      r := polls < |run.cancels| && run.cancels[polls];
      polls := polls + 1;
    }

    /** `tuple(dict.fromkeys(canonical_model_url(item) for item in candidates))`. */
    method Canonicalize(candidates: seq<string>) returns (urls: Option<seq<string>>)
      ensures urls.Some? <==> AllCanonical(s, candidates)
      ensures urls.Some? ==> urls.value == CanonicalOf(s, candidates)
    {
      var result: seq<string> := [];
      for i := 0 to |candidates|
        invariant AllCanonical(s, candidates[..i]) && result == CanonicalOf(s, candidates[..i])
      {
        var c := candidates[i];
        assert candidates[..i + 1] == candidates[..i] + [c];
        if s.canon(c).None? {
          assert c in candidates;
          return None;
        }
        assert candidates[..i + 1][..i] == candidates[..i];
        if s.canon(c).value !in result { result := result + [s.canon(c).value]; }
      }
      assert candidates[..|candidates|] == candidates;
      return Some(result);
    }

    /** One attempt at one URL. */
    method Ask(ghost base: map<string, nat>, urls: seq<string>, verdicts: map<string, Record>,
        attempts: map<string, nat>, url: string)
      returns (verdicts': map<string, Record>, attempts': map<string, nat>)
      requires OnTheWay(s, urls, verdicts, attempts) && url in urls && Distinct(urls) && s.maxAttempts >= 1
      requires IsPending(s, verdicts, attempts, url)
      requires Counted(asked, calls, urls, base, attempts)
      modifies this`asked, this`calls
      ensures OnTheWay(s, urls, verdicts', attempts') && Counted(asked, calls, urls, base, attempts')
      ensures asked == old(asked) + {Request(url, Tried(attempts, url) + 1)} && calls == old(calls) + 1
      ensures attempts' == attempts[url := Tried(attempts, url) + 1]
      ensures verdicts' == verdicts[url := Judged(s, url, Tried(attempts, url) + 1)]
      ensures Remaining(s, urls, attempts') < Remaining(s, urls, attempts)
      ensures forall u :: u != url ==> (IsPending(s, verdicts', attempts', u) <==> IsPending(s, verdicts, attempts, u))
    {
      AttemptStaysOnTheWay(s, urls, verdicts, attempts, url);
      RemainingDrops(s, urls, attempts, url);
      hide OnTheWay, Distinct, Remaining, FinalAttempt, Counted, IsPending, Tried;
      var attempt := Tried(attempts, url) + 1;
      attempts' := attempts[url := attempt];
      CountedAsk(asked, calls, urls, base, attempts, url);
      asked, calls := asked + {Request(url, attempt)}, calls + 1;
      var answer := s.judge(url, attempt);
      var record := Record(UNKNOWN, "selector_error", attempt);
      if answer.Some? && s.canon(answer.value.originalUrl) == Some(url) { record := answer.value.record; }
      assert record == Judged(s, url, attempt);
      verdicts' := verdicts[url := record];
    }

    /** The state of a run between two attempts. */
    ghost predicate Running(base: map<string, nat>, urls: seq<string>, verdicts: map<string, Record>,
        attempts: map<string, nat>)
      reads this
    {
      Sound() && !cut && Distinct(urls) && OnTheWay(s, urls, verdicts, attempts)
        && Counted(asked, calls, urls, base, attempts)
    }

    ghost predicate Saved(urls: seq<string>, verdicts: map<string, Record>, attempts: map<string, nat>)
      reads this
    {
      checkpoint == Some(Checkpoint(CandidateDigest(urls), urls, verdicts, attempts))
    }

    /** One batch: an attempt at each URL in turn, unless cancelled, then a checkpoint. */
    method Batch(ghost base: map<string, nat>, run: Run, urls: seq<string>, batch: seq<string>,
                 verdicts0: map<string, Record>, attempts0: map<string, nat>)
      returns (verdicts: map<string, Record>, attempts: map<string, nat>, cancelled: bool)
      requires Running(base, urls, verdicts0, attempts0) && batch != [] && Distinct(batch)
      requires forall u :: u in batch ==> u in urls && IsPending(s, verdicts0, attempts0, u)
      modifies this`checkpoint, this`writes, this`cut, this`polls, this`asked, this`calls
      ensures Sound() && OnTheWay(s, urls, verdicts, attempts) && Counted(asked, calls, urls, base, attempts)
      ensures !cut ==> Saved(urls, verdicts, attempts)
      ensures checkpoint == old(checkpoint) || (checkpoint.Some? && checkpoint.value.urls == urls)
      ensures !cancelled ==> Remaining(s, urls, attempts) < Remaining(s, urls, attempts0)
      ensures !cancelled ==> forall u :: u !in batch ==>
        (IsPending(s, verdicts, attempts, u) <==> IsPending(s, verdicts0, attempts0, u))
      ensures Heeded(run, old(polls), polls, cancelled)
      ensures polls == old(polls) + (calls - old(calls)) + (if cancelled then 1 else 0)
      ensures calls - old(calls) <= |batch| && (!cancelled ==> calls - old(calls) == |batch|)
      ensures old(writes).None? ==> !cut && writes.None?
      ensures old(writes) == Some(0) ==> cut
    {
      hide OnTheWay, IsPending, Remaining, Counted, CandidateDigest;
      verdicts, attempts, cancelled := verdicts0, attempts0, false;
      for i := 0 to |batch|
        invariant Running(base, urls, verdicts, attempts) && writes == old(writes) && checkpoint == old(checkpoint)
        invariant forall u :: u !in batch[..i] ==>
          (IsPending(s, verdicts, attempts, u) <==> IsPending(s, verdicts0, attempts0, u))
        invariant i == 0 ==> attempts == attempts0
        invariant i > 0 ==> Remaining(s, urls, attempts) < Remaining(s, urls, attempts0)
        invariant !cancelled && polls == old(polls) + i && calls == old(calls) + i
        invariant Heeded(run, old(polls), polls, false)
      {
        cancelled := IsCancelled(run);
        if cancelled { break; }
        assert batch[i] in batch && batch[i] !in batch[..i] && batch[..i + 1] == batch[..i] + [batch[i]];
        verdicts, attempts := Ask(base, urls, verdicts, attempts, batch[i]);
      }
      assert batch[..|batch|] == batch;
      WriteCheckpoint(urls, verdicts, attempts);
    }

    /** One round: every URL pending at its start gets one attempt, batch by batch. */
    method Round(ghost base: map<string, nat>, run: Run, urls: seq<string>, pending: seq<string>,
                 verdicts0: map<string, Record>, attempts0: map<string, nat>)
      returns (verdicts: map<string, Record>, attempts: map<string, nat>, cancelled: bool)
      requires Running(base, urls, verdicts0, attempts0) && Saved(urls, verdicts0, attempts0) && pending != []
      requires Distinct(pending) && forall u :: u in pending ==> u in urls && IsPending(s, verdicts0, attempts0, u)
      modifies this`checkpoint, this`writes, this`cut, this`polls, this`asked, this`calls
      ensures Sound() && OnTheWay(s, urls, verdicts, attempts) && Counted(asked, calls, urls, base, attempts)
      ensures checkpoint.Some? && checkpoint.value.urls == urls
      ensures !cut ==> Saved(urls, verdicts, attempts)
      ensures !cut && !cancelled ==> Remaining(s, urls, attempts) < Remaining(s, urls, attempts0)
      // a cancellation ends the round where it is asked for, before each batch and each attempt
      ensures Heeded(run, old(polls), polls, cancelled)
      ensures calls - old(calls) <= polls - old(polls)
      ensures !cut && !cancelled ==>
        calls - old(calls) == |pending|
        && Batches(|pending|, if run.batch < 1 then 1 else run.batch, polls - old(polls) - |pending|)
      ensures old(writes).None? ==> !cut && writes.None?
    {
      hide OnTheWay, IsPending, Remaining, Counted, CandidateDigest, Heeded;
      NobodyAsked(run, polls);
      verdicts, attempts, cancelled := verdicts0, attempts0, false;
      var size := if run.batch < 1 then 1 else run.batch;
      var offset := 0;
      while offset < |pending|
        invariant 0 <= offset <= |pending|
        invariant Running(base, urls, verdicts, attempts) && Saved(urls, verdicts, attempts)
        invariant forall u :: u in pending[offset..] ==> IsPending(s, verdicts, attempts, u)
        invariant offset == 0 ==> attempts == attempts0
        invariant offset > 0 ==> Remaining(s, urls, attempts) < Remaining(s, urls, attempts0)
        invariant old(writes).None? ==> writes.None?
        invariant !cancelled && Heeded(run, old(polls), polls, false)
        invariant calls - old(calls) == offset && polls - old(polls) >= offset
        invariant if offset < |pending| then offset == (polls - old(polls) - offset) * size
                  else Batches(|pending|, size, polls - old(polls) - offset)
      {
        ghost var before := polls;
        cancelled := IsCancelled(run);
        HeededNext(run, old(polls), before, polls, cancelled);
        if cancelled {
          WriteCheckpoint(urls, verdicts, attempts);
          return;
        }
        var end := if offset + size < |pending| then offset + size else |pending|;
        Slices(pending, offset, end);
        ghost var asking := polls;
        verdicts, attempts, cancelled := Batch(base, run, urls, pending[offset..end], verdicts, attempts);
        HeededNext(run, old(polls), asking, polls, cancelled);
        BatchesNext(|pending|, size, asking - 1 - old(polls) - offset, offset, end);
        if cut || cancelled { return; }
        offset := end;
      }
    }

    /** `verify`. What a completed run reports is the per-URL specification, whatever happened before;
        one that is neither cut nor cancelled completes; and no judgement already paid for is bought again. */
    method Verify(candidates: seq<string>, run: Run) returns (outcome: Outcome)
      requires Sound()
      modifies this
      ensures Sound()
      ensures AllCanonical(s, candidates) ==> var urls := CanonicalOf(s, candidates);
        && (outcome.Succeeded? ==>
          Settled(s, urls) && outcome.blocked == FinalBlocked(s, urls) && published == Some(outcome.blocked))
        && (outcome.Incomplete? ==> outcome.remaining == Unsettled(s, urls) > 0)
        && (outcome.Succeeded? ==> BlockedList(s, candidates, outcome.blocked))
        && (outcome.Succeeded? ==> forall u :: u in urls ==> !NeverReached(s, u))
        && (outcome.Incomplete? ==> outcome.remaining == |set u | u in urls && NeverReached(s, u)|)
        && (outcome.Succeeded? || outcome.Incomplete? ==> checkpoint == Some(FinishedCheckpoint(s, urls)))
        && (checkpoint == old(checkpoint) || (checkpoint.Some? && checkpoint.value.urls == urls))
        && (Compatible(run, old(checkpoint), urls) && run.writes.None? && run.cancels == [] && !run.publishFails ==>
              outcome.Succeeded? || outcome.Incomplete?)
        && (outcome == Failed(ResumeCheckpointMismatch) <==> !Compatible(run, old(checkpoint), urls))
        && Paid(s, asked, calls, urls, Bought(run, old(checkpoint)))
        && (!outcome.Cut? && Compatible(run, old(checkpoint), urls) ==>
              checkpoint.Some? && Counted(asked, calls, urls, Bought(run, old(checkpoint)), checkpoint.value.attempts))
        && (outcome.Succeeded? || outcome.Incomplete? ==>
              Counted(asked, calls, urls, Bought(run, old(checkpoint)), FinalAttempts(s, urls)))
      ensures outcome == Failed(InvalidCandidateUrl) <==> !AllCanonical(s, candidates)
      ensures !outcome.Succeeded? ==> published == old(published)
      ensures outcome.Failed? && !outcome.failure.FinalPublishFailed? ==> checkpoint == old(checkpoint) && calls == 0
      ensures calls == |asked| <= polls
      // cancelled only where a poll before an attempt said so, and then always
      ensures (outcome.Cut? <==> cut) && (!outcome.Cut? ==> Heeded(run, 0, polls, outcome.Cancelled?))
      ensures run.publishFails ==> !outcome.Succeeded?
      // nobody is asked again once an attempt decided, nor more often than allowed
      ensures forall a :: a in asked ==> StillOpen(s, a)
    {
      hide FinishedCheckpoint, Settled, FinalBlocked, Unsettled, CandidateDigest, FinalAttempt, CanonicalOf, Distinct,
        Counted, Paid, FinalAttempts, AllCanonical, StillOpen, Heeded;
      writes, cut, polls, asked, calls := run.writes, false, 0, {}, 0;
      NobodyAsked(run, 0);
      var canonical := Canonicalize(candidates);
      if canonical.None? { return Failed(InvalidCandidateUrl); }
      var urls := canonical.value;
      PaidNothing(s, urls, Bought(run, checkpoint));
      var verdicts: map<string, Record> := map[];
      var attempts: map<string, nat> := map[];
      if run.resume && checkpoint.Some? {
        if checkpoint.value.digest != CandidateDigest(urls) || checkpoint.value.urls != urls {
          return Failed(ResumeCheckpointMismatch);
        }
        verdicts, attempts := checkpoint.value.verdicts, checkpoint.value.attempts;
      } else {
        WriteCheckpoint(urls, verdicts, attempts);
        if cut { return Cut; }
      }
      CountedNothing(urls, attempts);
      FinalBlockedMeans(s, candidates);
      SettledMeans(s, urls);
      hide BlockedList, NeverReached;
      outcome := Work(run, urls, verdicts, attempts);
      PaidWhileOpen(s, asked, calls, urls, Bought(run, old(checkpoint)));
    }

    /** The rounds, until nothing is pending. */
    method Work(run: Run, urls: seq<string>, verdicts0: map<string, Record>, attempts0: map<string, nat>)
      returns (outcome: Outcome)
      requires Running(attempts0, urls, verdicts0, attempts0) && Saved(urls, verdicts0, attempts0) && asked == {}
      requires run.writes.None? ==> writes.None?
      modifies this
      ensures Sound() && checkpoint.Some? && checkpoint.value.urls == urls
      ensures outcome.Succeeded? ==>
        Settled(s, urls) && outcome.blocked == FinalBlocked(s, urls) && published == Some(outcome.blocked)
      ensures outcome.Incomplete? ==> outcome.remaining == Unsettled(s, urls) > 0
      ensures outcome.Succeeded? || outcome.Incomplete? ==> checkpoint == Some(FinishedCheckpoint(s, urls))
      ensures run.writes.None? && run.cancels == [] && !run.publishFails ==> outcome.Succeeded? || outcome.Incomplete?
      ensures outcome.Failed? ==> outcome.failure.FinalPublishFailed?
      ensures !outcome.Succeeded? ==> published == old(published)
      ensures Paid(s, asked, calls, urls, attempts0) && calls == |asked|
      // a cancellation is asked for before every attempt, and obeyed
      ensures (outcome.Cut? <==> cut) && calls - old(calls) <= polls - old(polls)
      ensures !outcome.Cut? ==> Heeded(run, old(polls), polls, outcome.Cancelled?)
      ensures run.publishFails ==> !outcome.Succeeded?
      ensures !outcome.Cut? ==> Counted(asked, calls, urls, attempts0, checkpoint.value.attempts)
      ensures outcome.Succeeded? || outcome.Incomplete? ==>
        Counted(asked, calls, urls, attempts0, FinalAttempts(s, urls))
    {
      hide Remaining, CandidateDigest, Unsettled, Distinct, SortedNames, FinalBlocked, Settled, Settling, Counted,
        OnTheWay, Paid, IsPending, Heeded;
      NobodyAsked(run, polls);
      assert Sound() && s.maxAttempts >= 1;
      PaidFrom(s, asked, calls, urls, attempts0, verdicts0, attempts0);
      var verdicts, attempts := verdicts0, attempts0;
      var pending := PendingUrls(s, urls, verdicts, attempts);
      while pending != []
        invariant Running(attempts0, urls, verdicts, attempts) && Saved(urls, verdicts, attempts)
        invariant pending == PendingUrls(s, urls, verdicts, attempts)
        invariant run.writes.None? ==> writes.None?
        invariant published == old(published) && Paid(s, asked, calls, urls, attempts0) && calls == |asked|
        invariant Heeded(run, old(polls), polls, false) && calls - old(calls) <= polls - old(polls)
        decreases Remaining(s, urls, attempts)
      {
        var cancelled;
        ghost var before := polls;
        verdicts, attempts, cancelled := Round(attempts0, run, urls, pending, verdicts, attempts);
        HeededNext(run, old(polls), before, polls, cancelled);
        PaidFrom(s, asked, calls, urls, attempts0, verdicts, attempts);
        if cut { return Cut; }
        if cancelled {
          Durable();   // the step record
          return if cut then Cut else Cancelled;
        }
        pending := PendingUrls(s, urls, verdicts, attempts);
      }
      NothingPending(s, urls, verdicts, attempts);
      outcome := Conclude(run, urls, verdicts, attempts);
    }

    /** After the last round: transient unknowns keep the run resumable, otherwise it publishes. */
    method Conclude(run: Run, urls: seq<string>, verdicts: map<string, Record>, attempts: map<string, nat>)
      returns (outcome: Outcome)
      requires Sound() && !cut && Distinct(urls)
      requires verdicts == FinalVerdicts(s, urls) && attempts == FinalAttempts(s, urls)
      requires checkpoint == Some(FinishedCheckpoint(s, urls))
      requires run.writes.None? ==> writes.None?
      modifies this`checkpoint, this`writes, this`cut, this`artifact, this`published
      ensures Sound() && checkpoint == Some(FinishedCheckpoint(s, urls))
      ensures outcome.Succeeded? ==>
        Settled(s, urls) && outcome.blocked == FinalBlocked(s, urls) && published == Some(outcome.blocked)
      ensures outcome.Incomplete? ==> outcome.remaining == Unsettled(s, urls) > 0
      ensures run.writes.None? && !run.publishFails ==> outcome.Succeeded? || outcome.Incomplete?
      ensures outcome.Failed? ==> outcome.failure.FinalPublishFailed?
      ensures !outcome.Cancelled? && (outcome.Cut? <==> cut) && (run.publishFails ==> !outcome.Succeeded?)
      ensures cut <==> !Allows(old(writes), if Settled(s, urls) then 3 else 2)
      ensures !outcome.Succeeded? ==> published == old(published)
    {
      hide SortedNames, FinalRecord, OnTheWay, CandidateDigest, IsTransientUnknown, FinalBlocked;
      var transient: nat := 0;
      for i := 0 to |urls|
        invariant transient == Unsettled(s, urls[..i])
      {
        assert urls[..i + 1][..i] == urls[..i] && urls[i] in urls;
        assert verdicts[urls[i]] == FinalRecord(s, urls[i]);
        if IsTransientUnknown(verdicts[urls[i]]) { transient := transient + 1; }
      }
      assert urls[..|urls|] == urls;
      if transient > 0 {
        WriteCheckpoint(urls, verdicts, attempts);
        Durable();   // the step record
        NoneUnsettled(s, urls);
        return if cut then Cut else Incomplete(transient);
      }
      NoneUnsettled(s, urls);
      outcome := PublishSuccess(run, urls, verdicts);
    }

    method ProvenBlocked(urls: seq<string>, verdicts: map<string, Record>) returns (blocked: set<string>)
      requires verdicts == FinalVerdicts(s, urls)
      ensures blocked == Proven(s, urls)
    {
      hide FinalRecord;
      blocked := {};
      for i := 0 to |urls|
        invariant blocked == Proven(s, urls[..i])
      {
        assert urls[..i + 1] == urls[..i] + [urls[i]] && urls[i] in urls;
        assert verdicts[urls[i]] == FinalRecord(s, urls[i]);
        if verdicts[urls[i]].verdict.BLOCKED? { blocked := blocked + {urls[i]}; }
      }
      assert urls[..|urls|] == urls;
    }

    /** `_publish_success`. */
    method PublishSuccess(run: Run, urls: seq<string>, verdicts: map<string, Record>) returns (outcome: Outcome)
      requires Sound() && !cut && verdicts == FinalVerdicts(s, urls)
      requires run.writes.None? ==> writes.None?
      modifies this`writes, this`cut, this`artifact, this`published
      // artifact, step record and session file, in this order, as far as the writes go
      ensures cut <==> !Allows(old(writes), 3)
      ensures outcome == if cut then Cut else if run.publishFails then Failed(FinalPublishFailed)
                         else Succeeded(FinalBlocked(s, urls))
      ensures artifact == if Allows(old(writes), 1) then Some(FinalBlocked(s, urls)) else old(artifact)
      ensures published == if outcome.Succeeded? then Some(FinalBlocked(s, urls)) else old(published)
    {
      hide SortedNames, FinalRecord, OnTheWay, CandidateDigest;
      var blocked := ProvenBlocked(urls, verdicts);
      var list := SortedNames(blocked + Elements(s.knownBlocked));
      Durable();
      if cut { return Cut; }
      artifact := Some(list);
      Durable();   // the step record
      if cut { return Cut; }
      if run.publishFails {
        Durable();   // the step record again
        return if cut then Cut else Failed(FinalPublishFailed);
      }
      Durable();
      if cut { return Cut; }
      published := artifact;
      return Succeeded(list);
    }

    /** `prune_checkpoint`: acts exactly when the kept URLs are a strict subset of the listed ones. */
    method PruneCheckpoint(keep: seq<string>) returns (pruned: bool)
      requires Sound()
      modifies this`checkpoint, this`writes, this`cut
      ensures Sound()
      ensures pruned ==> old(checkpoint).Some? && Elements(keep) < Elements(old(checkpoint).value.urls)
                         && checkpoint == Some(Pruned(old(checkpoint).value, keep))
      ensures !pruned ==> checkpoint == old(checkpoint)
      ensures (&& old(writes).None? && !old(cut) && old(checkpoint).Some?
               && Elements(keep) < Elements(old(checkpoint).value.urls)) ==> pruned
    {
      if checkpoint.None? { return false; }
      var c := checkpoint.value;
      if Elements(c.urls) == Elements(keep) { return false; }
      if !(Elements(keep) <= Elements(c.urls)) { return false; }
      var p := Pruned(c, keep);
      WriteCheckpoint(p.urls, p.verdicts, p.attempts);
      return !cut;
    }

    /** Pruning to the kept URLs and then running uninterrupted ends where running the whole list to its
        end and pruning would, and asks only for what earlier runs had not asked about the kept URLs. */
    method PruneAndResume(keep: seq<string>, run: Run) returns (pruned: bool, outcome: Outcome)
      requires Sound() && checkpoint.Some? && Elements(keep) < Elements(checkpoint.value.urls)
      requires forall u :: u in keep ==> s.canon(u) == Some(u)
      requires run.resume && run.writes.None? && run.cancels == [] && !run.publishFails
      modifies this
      ensures Sound() && (old(writes).None? && !old(cut) ==> pruned)
      ensures pruned ==> var c := old(checkpoint).value;
        && checkpoint == Some(Pruned(FinishedCheckpoint(s, c.urls), keep))
        && (outcome.Succeeded? || outcome.Incomplete?)
        && (forall a :: a in asked <==> a.url in keep && Tried(c.attempts, a.url) < a.attempt <= FinalAttempt(s, a.url))
    {
      ghost var c := checkpoint.value;
      pruned := PruneCheckpoint(keep);
      outcome := Verify(keep, run);
      PrunedResumes(s, c, keep);
      CanonicalOfCanonical(s, keep);
      PruningCommutes(s, c.urls, keep);
      if pruned {
        CountedAll(s, asked, calls, Dedup(keep), Pruned(c, keep).attempts);
        hide FinishedCheckpoint, FinalAttempt, OnTheWay, Pruned, Counted, Paid, Compatible;
      }
    }

    /** Any history of runs over the same candidates: cancelled, cut after any write, resumed or started
        afresh, in batches of any size. Every run that completes reports the same list, and one more
        uninterrupted run always completes. */
    method Campaign(candidates: seq<string>, runs: seq<Run>) returns (outcomes: seq<Outcome>)
      requires Sound() && checkpoint.None? && AllCanonical(s, candidates)
      modifies this
      ensures Sound() && |outcomes| == |runs| + 1
      ensures var urls := CanonicalOf(s, candidates);
              (forall i :: 0 <= i < |outcomes| && outcomes[i].Succeeded? ==>
                Settled(s, urls) && outcomes[i].blocked == FinalBlocked(s, urls))
              && (forall i :: 0 <= i < |outcomes| ==> (outcomes[i].Failed? ==> outcomes[i].failure.FinalPublishFailed?))
              && (forall i :: 0 <= i < |outcomes| && outcomes[i].Succeeded? ==>
                    BlockedList(s, candidates, outcomes[i].blocked))
              && checkpoint == Some(FinishedCheckpoint(s, urls))
              && outcomes[|runs|] == if Settled(s, urls) then Succeeded(FinalBlocked(s, urls))
                else Incomplete(Unsettled(s, urls))
    {
      hide FinishedCheckpoint, Settled, FinalBlocked, Unsettled, OnTheWay, CandidateDigest, FinalAttempt, BlockedList,
        StillOpen, Paid, Counted, NeverReached;
      outcomes := [];
      ghost var urls := CanonicalOf(s, candidates);
      for i := 0 to |runs|
        invariant Sound() && |outcomes| == i
        invariant checkpoint.Some? ==> checkpoint.value.urls == urls
        invariant forall k :: 0 <= k < i && outcomes[k].Succeeded? ==>
          Settled(s, urls) && outcomes[k].blocked == FinalBlocked(s, urls)
        invariant forall k :: 0 <= k < i && outcomes[k].Succeeded? ==> BlockedList(s, candidates, outcomes[k].blocked)
        invariant forall k :: 0 <= k < i ==> (outcomes[k].Failed? ==> outcomes[k].failure.FinalPublishFailed?)
      {
        var outcome := Verify(candidates, runs[i]);
        outcomes := outcomes + [outcome];
      }
      var last := Verify(candidates, Run(true, 5, [], None, false));
      if Settled(s, urls) { NoneUnsettled(s, urls); }
      outcomes := outcomes + [last];
    }
  }

  /** Cut into pieces of this size, so many things make so many pieces. */
  ghost predicate Batches(n: nat, size: int, pieces: int)
    requires size > 0
  {
    n > 0 && (pieces - 1) * size < n <= pieces * size
  }

  lemma {:induction false} BatchesNext(n: nat, size: int, pieces: int, offset: nat, end: nat)
    requires size > 0 && offset < n && offset == pieces * size
    requires end == if offset + size < n then offset + size else n
    ensures end < n ==> end == (pieces + 1) * size
    ensures end == n ==> Batches(n, size, pieces + 1)
  {
    assert (pieces + 1) * size == pieces * size + size;
  }

  lemma {:induction false} NobodyAsked(run: Run, from: nat)
    ensures ChaturbateVerifier.Heeded(run, from, from, false)
  {
  }

  lemma {:induction false} HeededNext(run: Run, from: nat, mid: nat, to: nat, cancelled: bool)
    requires ChaturbateVerifier.Heeded(run, from, mid, false)
    requires ChaturbateVerifier.Heeded(run, mid, to, cancelled)
             || (to == mid + 1 && cancelled == ChaturbateVerifier.CancelAt(run, mid))
    ensures ChaturbateVerifier.Heeded(run, from, to, cancelled) && (run.cancels == [] ==> !cancelled)
  {
  }

  /** The requests are exactly the attempts made beyond those of the runs this one resumes (`base`), each
      requested once. */
  ghost predicate Counted(asked: set<Request>, calls: nat, urls: seq<string>, base: map<string, nat>,
      attempts: map<string, nat>)
  {
    && calls == |asked|
    && (forall u :: Tried(base, u) <= Tried(attempts, u))
    && (forall a :: a in asked <==> a.url in urls && Tried(base, a.url) < a.attempt <= Tried(attempts, a.url))
  }

  /** The judgements a run asked for: each once, each beyond what earlier runs asked, none beyond need. */
  ghost predicate Paid(s: Setting, asked: set<Request>, calls: nat, urls: seq<string>, base: map<string, nat>) {
    calls == |asked| && forall a :: a in asked ==>
      a.url in urls && Tried(base, a.url) < a.attempt <= FinalAttempt(s, a.url)
  }

  lemma {:induction false} PaidFrom(s: Setting, asked: set<Request>, calls: nat, urls: seq<string>,
      base: map<string, nat>,
                                    verdicts: map<string, Record>, attempts: map<string, nat>)
    requires Counted(asked, calls, urls, base, attempts) && OnTheWay(s, urls, verdicts, attempts)
    ensures Paid(s, asked, calls, urls, base) && calls == |asked|
  {
  }

  lemma {:induction false} PaidWhileOpen(s: Setting, asked: set<Request>, calls: nat, urls: seq<string>,
      base: map<string, nat>)
    requires Paid(s, asked, calls, urls, base) && s.maxAttempts >= 1
    ensures forall a :: a in asked ==> StillOpen(s, a)
  {
    forall a | a in asked ensures StillOpen(s, a) {
      SettlingIsFirst(s, a.url, 1);
      forall j: nat { JudgedMeans(s, a.url, j); }
      hide LeftOpen, Settling, Judged;
    }
  }

  lemma {:induction false} PaidNothing(s: Setting, urls: seq<string>, base: map<string, nat>)
    ensures Paid(s, {}, 0, urls, base)
  {
  }

  lemma {:induction false} CountedNothing(urls: seq<string>, base: map<string, nat>)
    ensures Counted({}, 0, urls, base, base)
  {
  }

  /** A run that finished asked exactly for the attempts still missing. */
  lemma {:induction false} CountedAll(s: Setting, asked: set<Request>, calls: nat, urls: seq<string>,
      base: map<string, nat>)
    requires Counted(asked, calls, urls, base, FinalAttempts(s, urls))
    ensures calls == |asked|
    ensures forall a :: a in asked <==> a.url in urls && Tried(base, a.url) < a.attempt <= FinalAttempt(s, a.url)
  {
    hide FinalAttempt;
  }

  lemma {:induction false} CountedAsk(asked: set<Request>, calls: nat, urls: seq<string>, base: map<string, nat>,
      attempts: map<string, nat>, url: string)
    requires Counted(asked, calls, urls, base, attempts) && url in urls
    ensures var k := Tried(attempts, url) + 1;
            Counted(asked + {Request(url, k)}, calls + 1, urls, base, attempts[url := k])
  {
    var k := Tried(attempts, url) + 1;
    assert Request(url, k) !in asked;
    forall u ensures Tried(attempts, u) <= Tried(attempts[url := k], u) {}
  }

  /** A resumed checkpoint must list the same URLs. */
  ghost predicate Compatible(run: Run, c: Option<Checkpoint>, urls: seq<string>) {
    run.resume && c.Some? ==> c.value.urls == urls
  }

  /** The attempts that earlier runs already made, where this run builds on them. */
  ghost function Bought(run: Run, c: Option<Checkpoint>): map<string, nat> {
    if run.resume && c.Some? then c.value.attempts else map[]
  }

  /** How many URLs end on a transient failure. */
  function Unsettled(s: Setting, urls: seq<string>): nat {
    if urls == [] then 0
    else Unsettled(s, urls[..|urls| - 1]) + if IsTransientUnknown(FinalRecord(s, urls[|urls| - 1])) then 1 else 0
  }

  lemma {:induction false} NoneUnsettled(s: Setting, urls: seq<string>)
    ensures Unsettled(s, urls) == 0 <==> Settled(s, urls)
  {
    if urls != [] {
      var n := |urls| - 1;
      NoneUnsettled(s, urls[..n]);
      assert urls == urls[..n] + [urls[n]];
    }
  }

  // ---------------------------------------------------------------- the specification, in the judge's words

  lemma {:induction false} JudgedMeans(s: Setting, url: string, k: nat)
    ensures Judged(s, url, k).verdict.BLOCKED? <==> Says(s, url, k, BLOCKED)
    ensures Judged(s, url, k).verdict.UNKNOWN? <==> LeftOpen(s, url, k)
  {
  }

  lemma {:induction false} FinalRecordMeans(s: Setting, url: string)
    requires s.maxAttempts >= 1
    ensures FinalRecord(s, url).verdict.BLOCKED? <==> RuledBlocked(s, url)
    ensures IsTransientUnknown(FinalRecord(s, url)) <==> NeverReached(s, url)
  {
    SettlingIsFirst(s, url, 1);
    var n := FinalAttempt(s, url);
    forall k: nat { JudgedMeans(s, url, k); }
    hide LeftOpen, Settling, FinalAttempt;
    if RuledBlocked(s, url) {
      var k: nat :| 1 <= k <= s.maxAttempts && Says(s, url, k, BLOCKED)
                    && forall j :: 1 <= j < k ==> LeftOpen(s, url, j);
      assert k == n;
    }
  }

  lemma {:induction false} FinalBlockedMeans(s: Setting, candidates: seq<string>)
    requires s.maxAttempts >= 1 && AllCanonical(s, candidates)
    ensures BlockedList(s, candidates, FinalBlocked(s, CanonicalOf(s, candidates)))
  {
    hide FinalBlocked, RuledBlocked, NotAbove, CanonicalOf;
    var urls := CanonicalOf(s, candidates);
    forall u { FinalBlockedHas(s, urls, u); }
    FinalBlockedOrder(s, urls);
  }

  lemma {:induction false} FinalBlockedHas(s: Setting, urls: seq<string>, u: string)
    requires s.maxAttempts >= 1
    ensures u in FinalBlocked(s, urls) <==> u in s.knownBlocked || (u in urls && RuledBlocked(s, u))
  {
    FinalRecordMeans(s, u);
    hide FinalRecord, RuledBlocked;
    var names := Proven(s, urls) + Elements(s.knownBlocked);
    assert u in SortedNames(names) <==> u in names;
  }

  lemma {:induction false} FinalBlockedOrder(s: Setting, urls: seq<string>)
    ensures var list := FinalBlocked(s, urls);
            forall i, j :: 0 <= i < j < |list| ==> list[i] != list[j] && NotAbove(list[i], list[j])
  {
    var list := FinalBlocked(s, urls);
    forall i, j | 0 <= i < j < |list| ensures list[i] != list[j] && NotAbove(list[i], list[j]) {
      LeByCharacter(list[i], list[j]);
    }
  }

  lemma {:induction false} SettledMeans(s: Setting, urls: seq<string>)
    requires s.maxAttempts >= 1 && Distinct(urls)
    ensures Settled(s, urls) <==> forall u :: u in urls ==> !NeverReached(s, u)
    ensures Unsettled(s, urls) == |set u | u in urls && NeverReached(s, u)|
  {
    forall u { FinalRecordMeans(s, u); }
    UnsettledCounts(s, urls);
    hide FinalRecord, NeverReached, IsTransientUnknown, Unsettled;
  }

  lemma {:induction false} UnsettledCounts(s: Setting, urls: seq<string>)
    requires s.maxAttempts >= 1 && Distinct(urls)
    ensures Unsettled(s, urls) == |set u | u in urls && NeverReached(s, u)|
  {
    hide FinalRecord, NeverReached, IsTransientUnknown;
    if urls == [] {
      assert (set u | u in urls && NeverReached(s, u)) == {};
    } else {
      var n := |urls| - 1;
      UnsettledCounts(s, urls[..n]);
      FinalRecordMeans(s, urls[n]);
      OneMoreUnreached(s, urls[..n], urls[n]);
      assert urls == urls[..n] + [urls[n]];
    }
  }

  lemma {:induction false} OneMoreUnreached(s: Setting, urls: seq<string>, u: string)
    requires u !in urls
    ensures |set v | v in urls + [u] && NeverReached(s, v)| ==
            |set v | v in urls && NeverReached(s, v)| + if NeverReached(s, u) then 1 else 0
  {
    hide NeverReached;
    var before := set v | v in urls && NeverReached(s, v);
    assert (set v | v in urls + [u] && NeverReached(s, v)) == before + if NeverReached(s, u) then {u} else {};
  }

  // ---------------------------------------------------------------- pruning

  function Pruned(c: Checkpoint, keep: seq<string>): Checkpoint {
    var kept := Dedup(keep);
    Checkpoint(CandidateDigest(kept), kept, map u | u in c.verdicts && u in kept :: c.verdicts[u],
               map u | u in c.attempts && u in kept :: c.attempts[u])
  }

  /** A pruned checkpoint is resumable for exactly the kept list, and loses no attempt made for it. */
  lemma {:induction false} PrunedResumes(s: Setting, c: Checkpoint, keep: seq<string>)
    requires OnTheWay(s, c.urls, c.verdicts, c.attempts) && Elements(keep) <= Elements(c.urls)
    requires forall u :: u in keep ==> s.canon(u) == Some(u)
    ensures AllCanonical(s, keep)
      && Compatible(Run(true, 5, [], None, false), Some(Pruned(c, keep)), CanonicalOf(s, keep))
    ensures OnTheWay(s, Dedup(keep), Pruned(c, keep).verdicts, Pruned(c, keep).attempts)
    ensures forall u :: u in keep ==> Tried(Pruned(c, keep).attempts, u) == Tried(c.attempts, u)
  {
    CanonicalOfCanonical(s, keep);
  }

  /** Pruning commutes with verification: the finished state of the kept list is the restriction of the
      finished state of the whole list. */
  lemma {:induction false} PruningCommutes(s: Setting, urls: seq<string>, keep: seq<string>)
    requires Elements(keep) <= Elements(urls)
    ensures FinishedCheckpoint(s, Dedup(keep)) == Pruned(FinishedCheckpoint(s, urls), keep)
  {
    hide FinalRecord, FinalAttempt, CandidateDigest, Distinct;
    var f, p := FinishedCheckpoint(s, urls), FinishedCheckpoint(s, Dedup(keep));
    forall u | u in keep ensures u in urls { assert u in Elements(keep); }
    assert p.verdicts == Pruned(f, keep).verdicts;
    assert p.attempts == Pruned(f, keep).attempts;
  }

  /** When the dropped URLs come back as known blocked, the published list is the one the unpruned run
      publishes exactly when each of them would have been on it anyway. */
  lemma {:induction false} PrunedListPublished(s: Setting, urls: seq<string>, keep: seq<string>, dropped: seq<string>)
    requires Elements(keep) + Elements(dropped) == Elements(urls)
    ensures FinalBlocked(s.(knownBlocked := s.knownBlocked + dropped), keep) == FinalBlocked(s, urls)
            <==> forall u :: u in dropped ==> FinalRecord(s, u).verdict.BLOCKED? || u in s.knownBlocked
  {
    hide SortedNames, FinalRecord;
    var t := s.(knownBlocked := s.knownBlocked + dropped);
    var whole, part := Proven(s, urls) + Elements(s.knownBlocked), Proven(t, keep) + Elements(t.knownBlocked);
    PrunedSets(s, t, urls, keep, dropped);
    if SortedNames(part) == SortedNames(whole) {
      SortedNamesInjective(part, whole);
    }
    DroppedListed(s, urls, dropped);
    if Elements(dropped) <= whole { assert part == whole; }
  }

  lemma {:induction false} DroppedListed(s: Setting, urls: seq<string>, dropped: seq<string>)
    requires Elements(dropped) <= Elements(urls)
    ensures Elements(dropped) <= Proven(s, urls) + Elements(s.knownBlocked)
            <==> forall u :: u in dropped ==> FinalRecord(s, u).verdict.BLOCKED? || u in s.knownBlocked
  {
    hide FinalRecord;
    forall u | u in dropped ensures u in urls && u in Elements(dropped) { assert u in Elements(urls); }
  }

  lemma {:induction false} PrunedSets(s: Setting, t: Setting, urls: seq<string>, keep: seq<string>,
      dropped: seq<string>)
    requires Elements(keep) + Elements(dropped) == Elements(urls)
    requires t == s.(knownBlocked := s.knownBlocked + dropped)
    ensures Proven(t, keep) + Elements(t.knownBlocked) == Proven(s, urls) + Elements(s.knownBlocked) + Elements(dropped)
  {
    forall u ensures FinalRecord(t, u) == FinalRecord(s, u) { SettlingIgnoresKnown(s, t, u, 1); }
    hide FinalRecord;
    forall u ensures u in urls <==> u in keep || u in dropped {
      assert u in Elements(urls) <==> u in Elements(keep) + Elements(dropped);
    }
  }

  lemma {:induction false} SettlingIgnoresKnown(s: Setting, t: Setting, url: string, k: nat)
    requires t == s.(knownBlocked := t.knownBlocked)
    ensures Settling(t, url, k) == Settling(s, url, k)
    ensures Judged(t, url, Settling(t, url, k)) == Judged(s, url, Settling(s, url, k))
    decreases s.maxAttempts - k
  {
    if k < s.maxAttempts && Judged(s, url, k).verdict.UNKNOWN? { SettlingIgnoresKnown(s, t, url, k + 1); }
  }
}
