/** What holds of the files of one generation in every reachable state, whatever was interrupted. */
module PublicationInvariant {
  import opened Common
  import opened Names
  import opened MasterEntries
  import opened PublicationModel

  /** What other writers left before the commit decision: the live master as it now stands, and the JSON
      of every master that has been live. */
  datatype Outside = Outside(master: Master, bases: set<Option<seq<Entry>>>)

  /** Nobody else has published yet. */
  function Undisturbed(o: Disk): Outside {
    Outside(o.live, {o.live.json})
  }

  function Disturbed(m: Outside, other: Master): Outside {
    Outside(other, m.bases + {other.json})
  }

  function EntriesOf(json: Option<seq<Entry>>): seq<Entry> {
    if json.Some? then json.value else []
  }

  function WitnessOf(p: Prepared, final: Payload): Witness {
    Witness(p.tx, p.json, p.txt, p.meta, final, p.base)
  }

  function PointerOf(s: Setting, p: Prepared, final: Payload): Pointer {
    Pointer(p.tx, s.generation, final)
  }

  predicate NamesGeneration(s: Setting, d: Disk) {
    d.runState.committed.Some? && d.runState.committed.value.generation == s.generation
  }

  /** The arrangement publication starts from: a finished checkpoint, registered upstream artifacts,
      and nothing published by this generation. */
  ghost predicate Start(s: Setting, o: Disk) {
    && Idempotent(s.policy)
    && (forall u :: u in s.manual ==> IsCanonical(s.policy, u))
    && DistinctRoots(s)
    && o.manifest.state == NONE && o.commitWitness.None? && !NamesGeneration(s, o)
    && o.checkpoint.Some? && o.checkpoint.value.seal.None?
    && (forall u :: u in o.checkpoint.value.records ==> IsCanonical(s.policy, u))
    && FINAL !in o.manifest.artifacts && RESULTS !in o.manifest.artifacts
    && (forall name :: name in o.manifest.artifacts ==> Intact(o.manifest.artifacts, o.artifactFiles, name))
    && ForeignMaster(o.live)
  }

  predicate DistinctRoots(s: Setting) {
    forall i, j :: 0 <= i < j < |s.projections| ==> s.projections[i].root != s.projections[j].root
  }

  /** A master some other writer left: its revision identifier is not one of ours. */
  predicate ForeignMaster(m: Master) {
    m.meta.Some? ==> m.meta.value.revision.Theirs?
  }

  /** Candidates are left that were never attempted, or failed for a passing reason. */
  ghost predicate Unfinished(o: Disk)
    requires o.checkpoint.Some?
  {
    o.checkpoint.value.unattempted > 0 || o.checkpoint.value.transient > 0
  }

  ghost predicate CheckpointKept(o: Disk, checkpoint: Option<Checkpoint>) {
    && o.checkpoint.Some? && checkpoint.Some?
    && checkpoint.value.(seal := None) == o.checkpoint.value
  }

  ghost predicate ArtifactsKept(o: Disk, registered: map<string, Payload>, files: map<string, Payload>)
    requires o.checkpoint.Some?
  {
    && (forall name :: name in registered ==> Intact(registered, files, name))
    && (forall name :: name in o.manifest.artifacts ==>
      name in registered && registered[name] == o.manifest.artifacts[name])
    && (FINAL in registered ==> registered[FINAL] == Lines(BlockedUrls(o.checkpoint.value.records)))
    && (RESULTS in registered ==> registered[RESULTS] == Results(o.checkpoint.value.records))
  }

  /** No commit decision yet: nothing a reader of the session or of the master sees has changed. */
  ghost predicate Untouched(o: Disk, m: Master, d: Disk) {
    && d.live == m && d.backup == o.backup && d.root == o.root
    && d.runState.committed == o.runState.committed
    && d.checkpoint == o.checkpoint
    && d.manifest.state.Index() <= PREPARED.Index()
  }

  /** A durable prepared revision, built from the checkpoint on top of its recorded base. */
  ghost predicate RevisionStaged(s: Setting, o: Disk, staged: Master, journal: Option<Prepared>) {
    && journal.Some? && o.checkpoint.Some?
    && RevisionBuilt(s, o, journal.value)
    && Sound(s, staged, journal.value)
  }

  /** What the checkpoint and the lists contribute; the time does not matter for the promise. */
  ghost function Contributed(s: Setting, o: Disk): Contribution
    requires o.checkpoint.Some?
  {
    ContributionOf(s, o.checkpoint.value.records, "")
  }

  ghost predicate RevisionBuilt(s: Setting, o: Disk, p: Prepared)
    requires o.checkpoint.Some?
  {
    && p.revision.Ours? && p.txt == EntryNames(p.json)
    && MasterPromise(s.policy, EntriesOf(p.base), Contributed(s, o), p.json)
  }

  /** After the commit decision every visible file is either still the previous one or already the
      committed one. */
  ghost predicate Advancing(s: Setting, o: Disk, m: Master, d: Disk)
    requires d.journal.Some? && FINAL in d.manifest.artifacts && d.checkpoint.Some?
  {
    var p := d.journal.value;
    && d.commitWitness == Some(WitnessOf(p, d.manifest.artifacts[FINAL]))
    && Decide(m, p) != Conflict
    && (d.live.json == m.json || d.live.json == Some(p.json))
    && (d.live.txt == m.txt || d.live.txt == Some(p.txt))
    && (d.live.meta == m.meta || d.live.meta == Some(p.meta))
    && (d.runState.committed == o.runState.committed
        || d.runState.committed == Some(PointerOf(s, p, d.manifest.artifacts[FINAL])))
    && (d.checkpoint == o.checkpoint || d.checkpoint.value.seal == Some(Seal(p.tx, p.json)))
    && RootBetween(s, o.root, d.root, d.manifest.artifacts)
    && (d.manifest.state.Index() < PROJECTING.Index() ==> d.root == o.root && d.checkpoint == o.checkpoint)
  }

  ghost predicate RootBetween(s: Setting, before: map<string, Payload>, root: map<string, Payload>,
                              registered: map<string, Payload>)
  {
    forall name {:trigger name in root} {:trigger name in before} ::
      ((name in root <==> name in before) && (name in root ==> root[name] == before[name]))
        || Projects(s, root, registered, name)
  }

  ghost predicate Projects(s: Setting, root: map<string, Payload>, registered: map<string, Payload>, name: string) {
    exists pr :: pr in s.projections && pr.root == name && ViewInPlace(root, registered, pr)
  }

  ghost predicate ViewInPlace(root: map<string, Payload>, registered: map<string, Payload>, pr: Projection) {
    && pr.root in root && pr.logical in registered
    && root[pr.root] == Projected(pr.joined, registered[pr.logical])
  }

  ghost predicate ViewsInPlace(s: Setting, root: map<string, Payload>, registered: map<string, Payload>) {
    forall pr :: pr in s.projections ==> ViewInPlace(root, registered, pr)
  }

  ghost predicate MasterInPlace(s: Setting, d: Disk) {
    && d.journal.Some? && d.commitWitness.Some? && FINAL in d.manifest.artifacts
    && d.live == RevisionFiles(d.journal.value)
    && d.runState.committed == Some(PointerOf(s, d.journal.value, d.manifest.artifacts[FINAL]))
  }

  /** Everything published: master, session pointer, root views and checkpoint seal. */
  ghost predicate Complete(s: Setting, d: Disk) {
    && MasterInPlace(s, d)
    && ViewsInPlace(s, d.root, d.manifest.artifacts)
    && d.checkpoint.Some? && d.checkpoint.value.seal == Some(Seal(d.journal.value.tx, d.journal.value.json))
  }

  /** What holds before and after the commit decision alike. */
  ghost predicate Standing(s: Setting, o: Disk, m: Outside, d: Disk) {
    && Start(s, o)
    && ForeignMaster(m.master) && m.master.json in m.bases && o.live.json in m.bases
    && CheckpointKept(o, d.checkpoint)
    && ArtifactsKept(o, d.manifest.artifacts, d.artifactFiles)
    && (d.manifest.state.Index() >= PREPARED.Index() ==>
          FINAL in d.manifest.artifacts && RevisionStaged(s, o, d.staged, d.journal)
          && d.journal.value.base in m.bases && !Unfinished(o))
  }

  /** The publication invariant. `o` is the starting arrangement, `m` what other writers left. */
  ghost predicate Inv(s: Setting, o: Disk, m: Outside, d: Disk) {
    match d.commitWitness
    case None => Standing(s, o, m, d) && Untouched(o, m.master, d)
    case Some(_) =>
      && Standing(s, o, m, d)
      && d.manifest.state.Index() >= PREPARED.Index()
      && Advancing(s, o, m.master, d)
      && (d.manifest.state.Index() >= PROJECTING.Index() ==> MasterInPlace(s, d))
      && (d.manifest.state == PROJECTED ==> Complete(s, d))
  }

  /** How files may move: the state index and the manifest revision never decrease, and a commit
      decision freezes itself, the staged revision and its journal. */
  ghost predicate Later(d: Disk, e: Disk) {
    && d.manifest.state.Index() <= e.manifest.state.Index()
    && d.manifest.revision <= e.manifest.revision
    && (d.commitWitness.Some? ==> e.commitWitness == d.commitWitness && e.staged == d.staged && e.journal == d.journal)
  }

  lemma {:induction false} StartSatisfiesInv(s: Setting, o: Disk)
    requires Start(s, o)
    ensures Inv(s, o, Undisturbed(o), o)
  {
  }

  /** The consequences a reader relies on, in every reachable state. */
  lemma {:induction false} InvariantConsequences(s: Setting, o: Disk, m: Outside, d: Disk)
    requires Inv(s, o, m, d)
    ensures d.commitWitness.Some? ==> d.manifest.state.Index() >= PREPARED.Index()
    ensures d.manifest.state.Index() >= COMMITTED.Index() ==> d.commitWitness.Some?
    ensures NamesGeneration(s, d) ==> d.commitWitness.Some? && d.runState.committed.value.tx == d.commitWitness.value.tx
    ensures d.commitWitness.None? ==>
      d.live == m.master && d.root == o.root && d.runState.committed == o.runState.committed
    ensures d.manifest.state == PROJECTED ==> Complete(s, d)
    ensures d.manifest.state.Index() < PROJECTING.Index() ==> d.root == o.root && d.checkpoint == o.checkpoint
    ensures o.checkpoint.Some? && (Unfinished(o) ==> d.manifest.state.Index() < PREPARED.Index()
                                                     && d.commitWitness.None? && d.root == o.root)
  {
  }

  /** What the invariant keeps of the artifact registry. */
  lemma {:induction false} InvKeepsArtifacts(s: Setting, o: Disk, m: Outside, d: Disk)
    requires Inv(s, o, m, d)
    ensures o.checkpoint.Some? && d.checkpoint.Some? && d.checkpoint.value.records == o.checkpoint.value.records
    ensures ArtifactsKept(o, d.manifest.artifacts, d.artifactFiles)
    ensures d.manifest.state.Index() >= PREPARED.Index() ==>
              FINAL in d.manifest.artifacts && Intact(d.manifest.artifacts, d.artifactFiles, FINAL)
    ensures d.manifest.state.Index() >= PROJECTING.Index() ==> MasterInPlace(s, d)
    ensures d.commitWitness.Some? ==> d.journal.Some? && FINAL in d.manifest.artifacts
    ensures d.commitWitness.Some? && Complete(s, d) ==>
              NamesGeneration(s, d) && d.runState.committed.value.final == d.manifest.artifacts[FINAL]
              && forall pr :: pr in s.projections ==> pr.root in d.root
  {
  }

  /** The two disks differ at most in bookkeeping: recovery flag, step record and status. */
  ghost predicate SamePublication(d: Disk, e: Disk) {
    && e.manifest.state == d.manifest.state && e.manifest.artifacts == d.manifest.artifacts
    && e.runState.committed == d.runState.committed
    && e.(manifest := d.manifest, runState := d.runState) == d
  }

  lemma {:induction false} BookkeepingKeepsInv(s: Setting, o: Disk, m: Outside, d: Disk, e: Disk)
    requires Inv(s, o, m, d) && SamePublication(d, e)
    ensures Inv(s, o, m, e)
  {
  }

  // ---------------------------------------------------------------- the invariant, write by write

  /** Staging: before the prepared state, artifacts, staged files and the journal may change freely. */
  lemma {:induction false} StagingKeepsInv(s: Setting, o: Disk, m: Outside, d: Disk, e: Disk)
    requires Inv(s, o, m, d) && d.commitWitness.None?
    requires e.(manifest := d.manifest, artifactFiles := d.artifactFiles, staged := d.staged, journal := d.journal) == d
    requires e.manifest.state.Index() < PREPARED.Index()
    requires ArtifactsKept(o, e.manifest.artifacts, e.artifactFiles)
    ensures Inv(s, o, m, e)
  {
  }

  lemma {:induction false} PreparedKeepsInv(s: Setting, o: Disk, m: Outside, d: Disk, e: Disk)
    requires Inv(s, o, m, d) && d.commitWitness.None?
    requires FINAL in d.manifest.artifacts && RevisionStaged(s, o, d.staged, d.journal)
    requires d.journal.value.base == d.live.json && d.checkpoint.Some? && !Unfinished(d)
    requires e == d.(manifest := e.manifest)
    requires e.manifest.artifacts == d.manifest.artifacts && e.manifest.state == PREPARED
    ensures Inv(s, o, m, e)
  {
  }

  /** Until the decision, anybody may publish a master of their own. */
  lemma {:induction false} ForeignKeepsInv(s: Setting, o: Disk, m: Outside, d: Disk, other: Master)
    requires Inv(s, o, m, d) && d.commitWitness.None? && ForeignMaster(other)
    ensures Inv(s, o, Disturbed(m, other), d.(live := other))
  {
  }

  /** The point of no return, taken only on a revision that still fits the live master. */
  lemma {:induction false} WitnessKeepsInv(s: Setting, o: Disk, m: Outside, d: Disk, p: Prepared)
    requires Inv(s, o, m, d) && d.manifest.state.Index() >= PREPARED.Index() && d.journal == Some(p)
    requires Decide(d.live, p) != Conflict
    ensures var e := d.(commitWitness := Some(WitnessOf(p, d.manifest.artifacts[FINAL])));
            Inv(s, o, m, e) && Later(d, e)
  {
    hide Start, CheckpointKept, ArtifactsKept, RevisionStaged, MasterInPlace, Complete;
  }

  lemma {:induction false} StateKeepsInv(s: Setting, o: Disk, m: Outside, d: Disk, e: Disk)
    requires Inv(s, o, m, d) && d.commitWitness.Some?
    requires e == d.(manifest := e.manifest)
    requires e.manifest.artifacts == d.manifest.artifacts && e.manifest.state.Index() >= d.manifest.state.Index()
    requires e.manifest.state.Index() >= PROJECTING.Index() ==> MasterInPlace(s, d)
    requires e.manifest.state == PROJECTED ==> Complete(s, d)
    ensures Inv(s, o, m, e)
  {
  }

  lemma {:induction false} PointerKeepsInv(s: Setting, o: Disk, m: Outside, d: Disk, e: Disk)
    requires Inv(s, o, m, d) && d.commitWitness.Some?
    requires e == d.(runState := e.runState)
    requires e.runState.committed == Some(PointerOf(s, d.journal.value, d.manifest.artifacts[FINAL]))
    ensures Inv(s, o, m, e)
  {
  }

  lemma {:induction false} NoConflictAfterWitness(s: Setting, o: Disk, m: Outside, d: Disk)
    requires Inv(s, o, m, d) && d.commitWitness.Some?
    ensures Decide(d.live, d.journal.value) != Conflict
    ensures Decide(d.live, d.journal.value) == Already ==> d.live == RevisionFiles(d.journal.value)
  {
  }

  /** Any prefix of the commit's writes. */
  lemma {:induction false} CommitKeepsInv(s: Setting, o: Disk, m: Outside, d: Disk, k: nat)
    requires Inv(s, o, m, d) && d.commitWitness.Some?
    requires k <= |CommitWrites(d.live, d.journal.value)|
    ensures var e := Replay(d, CommitWrites(d.live, d.journal.value)[..k]);
            Inv(s, o, m, e) && Later(d, e) && e.(live := d.live, backup := d.backup) == d
  {
    var p := d.journal.value;
    if Decide(d.live, p) == Proceed {
      PartialCommit(d, p, k);
    }
  }

  lemma {:induction false} RootKeepsInv(s: Setting, o: Disk, m: Outside, d: Disk, pr: Projection)
    requires Inv(s, o, m, d) && d.commitWitness.Some?
    requires pr in s.projections && pr.logical in d.manifest.artifacts
    requires d.manifest.state.Index() >= PROJECTING.Index()
    ensures var e := d.(root := d.root[pr.root := Projected(pr.joined, d.manifest.artifacts[pr.logical])]);
            Inv(s, o, m, e) && forall q :: q in s.projections && ViewInPlace(d.root, d.manifest.artifacts, q) ==>
                                      ViewInPlace(e.root, e.manifest.artifacts, q)
  {
    hide Start, CheckpointKept, ArtifactsKept, RevisionStaged, RootBetween, ViewInPlace, DistinctRoots, Decide,
      MasterInPlace, ForeignMaster;
    StartIsDistinct(s, o);
    var registered, view := d.manifest.artifacts, Projected(pr.joined, d.manifest.artifacts[pr.logical]);
    ViewsKept(s, d.root, registered, pr, view);
    BetweenKept(s, o.root, d.root, registered, pr, view);
    MasterIgnoresRoot(s, d, d.root[pr.root := view]);
  }

  lemma {:induction false} StartIsDistinct(s: Setting, o: Disk)
    ensures Start(s, o) ==> DistinctRoots(s)
  {
    hide DistinctRoots;
  }

  lemma {:induction false} MasterIgnoresRoot(s: Setting, d: Disk, root: map<string, Payload>)
    ensures MasterInPlace(s, d) ==> MasterInPlace(s, d.(root := root))
  {
  }

  /** Writing one root file keeps the other views. */
  lemma {:induction false} ViewsKept(s: Setting, root: map<string, Payload>, registered: map<string, Payload>,
                                     pr: Projection, view: Payload)
    requires DistinctRoots(s) && pr in s.projections && pr.logical in registered
    requires view == Projected(pr.joined, registered[pr.logical])
    ensures ViewInPlace(root[pr.root := view], registered, pr)
    ensures forall q :: q in s.projections && ViewInPlace(root, registered, q) ==>
      ViewInPlace(root[pr.root := view], registered, q)
  {
    forall q | q in s.projections && ViewInPlace(root, registered, q)
      ensures ViewInPlace(root[pr.root := view], registered, q)
    {
      var i :| 0 <= i < |s.projections| && s.projections[i] == pr;
      var j :| 0 <= j < |s.projections| && s.projections[j] == q;
      assert i != j ==> pr.root != q.root;
    }
  }

  /** Every root file is still as before or already the view it should be. */
  lemma {:induction false} BetweenKept(s: Setting, before: map<string, Payload>, root: map<string, Payload>,
                                       registered: map<string, Payload>, pr: Projection, view: Payload)
    requires DistinctRoots(s) && pr in s.projections && pr.logical in registered
    requires view == Projected(pr.joined, registered[pr.logical]) && RootBetween(s, before, root, registered)
    ensures RootBetween(s, before, root[pr.root := view], registered)
  {
    ViewsKept(s, root, registered, pr, view);
    var after := root[pr.root := view];
    hide ViewInPlace;
    forall name | name in after || name in before
      ensures ((name in after <==> name in before) && (name in after ==> after[name] == before[name]))
        || Projects(s, after, registered, name)
    {
      if name != pr.root && Projects(s, root, registered, name) {
        var q :| q in s.projections && q.root == name && ViewInPlace(root, registered, q);
        assert ViewInPlace(after, registered, q);
      }
    }
  }

  lemma {:induction false} SealKeepsInv(s: Setting, o: Disk, m: Outside, d: Disk)
    requires Inv(s, o, m, d) && d.commitWitness.Some? && d.manifest.state.Index() >= PROJECTING.Index()
    ensures var p := d.journal.value;
            Inv(s, o, m, d.(checkpoint := Some(d.checkpoint.value.(seal := Some(Seal(p.tx, p.json))))))
  {
  }

  // ---------------------------------------------------------------- the content, URL by URL

  ghost predicate Blocks(records: map<string, Verdict>, u: string) {
    u in records && records[u].BLOCKED?
  }

  /** Some URL of the set is this identity. */
  ghost predicate Identifies(s: Setting, urls: set<string>, k: string) {
    exists u :: u in urls && s.policy.key(u) == k
  }

  ghost predicate Lists(s: Setting, es: seq<Entry>, k: string) {
    exists e :: e in es && s.policy.key(e.name) == k
  }

  /** The entry is still there under its name, with every field but perhaps the manual mark. */
  ghost predicate StillListed(b: Entry, after: seq<Entry>) {
    exists e :: e in after && e.name == b.name
                && forall f :: f in b.fields && f != "manual" ==> f in e.fields && e.fields[f] == b.fields[f]
  }

  /** Every blocked or manual URL outside the blacklist is listed under its identity. */
  ghost predicate ListsAll(s: Setting, records: map<string, Verdict>, after: seq<Entry>) {
    forall u :: (Blocks(records, u) || u in s.manual) && !Identifies(s, s.blacklist, s.policy.key(u)) ==>
      Lists(s, after, s.policy.key(u))
  }

  /** An entry of a new identity is a blocked or manual URL outside the blacklist; it carries this session
      where the identity was found blocked, and 0 where it is only manual. */
  ghost predicate Warranted(s: Setting, records: map<string, Verdict>, e: Entry) {
    var k := s.policy.key(e.name);
    && (Blocks(records, e.name) || e.name in s.manual) && !Identifies(s, s.blacklist, k)
    && "session" in e.fields && "manual" in e.fields
    && e.fields["session"] == Number(if exists u :: Blocks(records, u) && s.policy.key(u) == k then s.session else 0)
    && e.fields["manual"] == Flag(Identifies(s, s.manual, k))
  }

  /** One entry an identity, in character order. */
  ghost predicate InOrder(s: Setting, es: seq<Entry>) {
    forall i, j :: 0 <= i < j < |es| ==>
      s.policy.key(es[i].name) != s.policy.key(es[j].name) && NotAbove(es[i].name, es[j].name)
  }

  /** The master after a publication, read off the verdicts: old entries stay, what should be listed is,
      and nothing else is new. */
  ghost predicate KeepsAndAdds(s: Setting, records: map<string, Verdict>, before: seq<Entry>, after: seq<Entry>) {
    && (forall b :: b in before ==> StillListed(b, after))
    && ListsAll(s, records, after)
    && (forall e :: e in after && !Lists(s, before, s.policy.key(e.name)) ==> Warranted(s, records, e))
    && InOrder(s, after)
  }

  /** The final list: the URLs found blocked, each once, in character order. */
  ghost predicate FinalList(records: map<string, Verdict>, lines: seq<string>) {
    && (forall u :: u in lines <==> Blocks(records, u))
    && (forall i, j :: 0 <= i < j < |lines| ==> lines[i] != lines[j] && NotAbove(lines[i], lines[j]))
  }

  lemma {:induction false} AscendingMeans(lines: seq<string>)
    requires Ascending(lines)
    ensures forall i, j :: 0 <= i < j < |lines| ==> lines[i] != lines[j] && NotAbove(lines[i], lines[j])
  {
    forall i, j | 0 <= i < j < |lines| ensures lines[i] != lines[j] && NotAbove(lines[i], lines[j]) {
      LeByCharacter(lines[i], lines[j]);
    }
  }

  lemma {:induction false} BlockedListIsFinal(records: map<string, Verdict>)
    ensures FinalList(records, BlockedUrls(records))
  {
    AscendingMeans(BlockedUrls(records));
    hide NotAbove;
  }

  lemma {:induction false} KeysMean(s: Setting, records: map<string, Verdict>, es: seq<Entry>, k: string)
    ensures var c := ContributionOf(s, records, "");
            && (k in EntryKeys(s.policy, es) <==> Lists(s, es, k))
            && (k in KeysOf(s.policy, s.blacklist) <==> Identifies(s, s.blacklist, k))
            && (k in UrlKeys(s.policy, c.manual) <==> Identifies(s, s.manual, k))
            && (k in UrlKeys(s.policy, c.blocked) <==> exists u :: Blocks(records, u) && s.policy.key(u) == k)
  {
    var c := ContributionOf(s, records, "");
    hide SortedNames;
    assert forall u :: u in c.blocked <==> Blocks(records, u);
    assert forall u :: u in c.manual <==> u in s.manual;
  }

  lemma {:induction false} PromiseMeans(s: Setting, records: map<string, Verdict>, before: seq<Entry>,
      after: seq<Entry>)
    requires MasterPromise(s.policy, before, ContributionOf(s, records, ""), after)
    ensures KeepsAndAdds(s, records, before, after)
  {
    PromiseKeeps(s, records, before, after);
    PromiseLists(s, records, before, after);
    PromiseOrders(s, records, before, after);
    forall e | e in after && !Lists(s, before, s.policy.key(e.name)) ensures Warranted(s, records, e) {
      PromiseWarrants(s, records, before, after, e);
    }
    hide StillListed, ListsAll, Warranted, InOrder, MasterPromise;
  }

  lemma {:induction false} PromiseKeeps(s: Setting, records: map<string, Verdict>, before: seq<Entry>,
      after: seq<Entry>)
    requires MasterPromise(s.policy, before, ContributionOf(s, records, ""), after)
    ensures forall b :: b in before ==> StillListed(b, after)
  {
    var c := ContributionOf(s, records, "");
    forall b | b in before ensures StillListed(b, after) {
      assert Protect(s.policy, UrlKeys(s.policy, c.manual), b) in after;
    }
  }

  lemma {:induction false} PromiseLists(s: Setting, records: map<string, Verdict>, before: seq<Entry>,
      after: seq<Entry>)
    requires MasterPromise(s.policy, before, ContributionOf(s, records, ""), after)
    ensures ListsAll(s, records, after)
  {
    forall u | (Blocks(records, u) || u in s.manual) && !Identifies(s, s.blacklist, s.policy.key(u))
      ensures Lists(s, after, s.policy.key(u))
    {
      KeysMean(s, records, before, s.policy.key(u));
      KeysMean(s, records, after, s.policy.key(u));
      hide ContributionOf, Valid, Ascending, UrlKeys, KeysOf, EntryKeys, Lists;
    }
  }

  lemma {:induction false} PromiseWarrants(s: Setting, records: map<string, Verdict>, before: seq<Entry>,
      after: seq<Entry>, e: Entry)
    requires MasterPromise(s.policy, before, ContributionOf(s, records, ""), after)
    requires e in after && !Lists(s, before, s.policy.key(e.name))
    ensures Warranted(s, records, e)
  {
    hide Valid, Ascending, UrlKeys, KeysOf, EntryKeys, SortedNames, Identifies;
    var k := s.policy.key(e.name);
    KeysMean(s, records, before, k);
    KeysMean(s, records, after, k);
    assert Lists(s, after, k);
  }

  lemma {:induction false} PromiseOrders(s: Setting, records: map<string, Verdict>, before: seq<Entry>,
      after: seq<Entry>)
    requires MasterPromise(s.policy, before, ContributionOf(s, records, ""), after)
    ensures InOrder(s, after)
  {
    AscendingMeans(NamesOf(after));
    hide NotAbove, Ascending, ContributionOf;
    forall i, j | 0 <= i < j < |after| ensures NotAbove(after[i].name, after[j].name) {
      assert NamesOf(after)[i] == after[i].name && NamesOf(after)[j] == after[j].name;
    }
  }

  /** What a publication delivers, in terms of the verdicts and the master it replaces: the live master
      and its text file, the final list, and each root view of that list. */
  ghost predicate Delivered(s: Setting, o: Disk, before: Option<seq<Entry>>, d: Disk)
    requires o.checkpoint.Some?
  {
    var records := o.checkpoint.value.records;
    && d.live.json.Some? && KeepsAndAdds(s, records, EntriesOf(before), d.live.json.value)
    && d.live.txt == Some(EntryNames(d.live.json.value))
    && FINAL in d.manifest.artifacts && d.manifest.artifacts[FINAL].Lines?
    && FinalList(records, d.manifest.artifacts[FINAL].lines)
    && forall pr :: pr in s.projections && pr.logical == FINAL ==>
         pr.root in d.root
         && d.root[pr.root] ==
           if pr.joined then JoinedLines(d.manifest.artifacts[FINAL]) else d.manifest.artifacts[FINAL]
  }

  /** End to end: what a complete publication leaves in the live master. It keeps the whole promise
      relative to a master that was live when the revision was staged: the starting one, if nobody else
      published. Where that base was recorded, it is also the last one other writers left, unless they
      left the very same list or none. */
  lemma {:induction false} PublishedContent(s: Setting, o: Disk, m: Outside, d: Disk)
    requires Inv(s, o, m, d) && Complete(s, d)
    ensures d.live.json.Some? && d.live.txt == Some(EntryNames(d.live.json.value)) && o.checkpoint.Some?
    ensures d.journal.value.base in m.bases
    ensures MasterPromise(s.policy, EntriesOf(d.journal.value.base), Contributed(s, o), d.live.json.value)
    ensures m == Undisturbed(o) ==>
      MasterPromise(s.policy, EntriesOf(o.live.json), Contributed(s, o), d.live.json.value)
    ensures Delivered(s, o, d.journal.value.base, d) && (m == Undisturbed(o) ==> Delivered(s, o, o.live.json, d))
    ensures d.journal.value.base.Some? && m.master.json.Some? ==>
              m.master.json == d.journal.value.base || m.master.json == d.live.json
  {
    var records := o.checkpoint.value.records;
    BlockedListIsFinal(records);
    PromiseMeans(s, records, EntriesOf(d.journal.value.base), d.live.json.value);
    hide KeepsAndAdds, FinalList, MasterPromise, Start, RootBetween, Sound, Decide, BlockedUrls;
  }
}
