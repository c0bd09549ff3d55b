/** The files one publication generation touches, what each atomic write does to them, and what every
    reachable arrangement of them satisfies. Hashes are modelled by the content they identify. */
module PublicationModel {
  import opened Common
  import opened Names
  import opened MasterEntries

  /** `PUBLICATION_STATES`, in order. */
  datatype PubState = NONE | PREPARING | PREPARED | COMMITTED | PROJECTING | PROJECTED {
    function Index(): nat {
      match this
      case NONE => 0
      case PREPARING => 1
      case PREPARED => 2
      case COMMITTED => 3
      case PROJECTING => 4
      case PROJECTED => 5
    }
  }

  /** Fresh identifiers: drawn here, or by some other writer. */
  datatype Id = Ours(n: nat) | Theirs(n: nat)

  datatype Payload =
    | Lines(lines: seq<string>)
    | Results(records: map<string, Verdict>)
    | JoinedLines(source: Payload)   // the non-blank lines joined without a final newline

  datatype Meta = Meta(platform: string, revision: Id, tx: Id, json: seq<Entry>, txt: seq<string>,
      base: Option<seq<Entry>>)

  /** The three files of one master revision. */
  datatype Master = Master(json: Option<seq<Entry>>, txt: Option<seq<string>>, meta: Option<Meta>)

  datatype Prepared = Prepared(tx: Id, revision: Id, base: Option<seq<Entry>>, itemCount: nat,
                               json: seq<Entry>, txt: seq<string>, meta: Meta)

  datatype Witness = Witness(tx: Id, json: seq<Entry>, txt: seq<string>, meta: Meta, final: Payload,
      base: Option<seq<Entry>>)

  /** The session's committed-generation pointer. */
  datatype Pointer = Pointer(tx: Id, generation: nat, final: Payload)

  datatype Seal = Seal(tx: Id, json: seq<Entry>)

  /** `unattempted` and `transient`: how many candidates the summary counts as such. */
  datatype Checkpoint = Checkpoint(records: map<string, Verdict>, unattempted: nat, transient: nat, seal: Option<Seal>)

  datatype Outcome = Outcome(status: OutcomeStatus, code: string, resumable: bool, newGeneration: bool)

  datatype Manifest = Manifest(revision: nat, state: PubState, recoveryRequired: bool, artifacts: map<string, Payload>,
                               verify: Option<Outcome>)

  datatype RunState = RunState(committed: Option<Pointer>, status: OutcomeStatus)

  datatype Disk = Disk(
    manifest: Manifest,
    runState: RunState,
    checkpoint: Option<Checkpoint>,
    artifactFiles: map<string, Payload>,
    staged: Master,
    journal: Option<Prepared>,
    commitWitness: Option<Witness>,
    live: Master,
    backup: Option<seq<Entry>>,
    root: map<string, Payload>)

  datatype Projection = Projection(root: string, logical: string, joined: bool)

  datatype Setting = Setting(policy: Policy, platform: string, generation: nat, projections: seq<Projection>,
                             manual: set<string>, blacklist: set<string>, session: int, shadow: bool)

  const FINAL := "step4.final_blocked"
  const RESULTS := "step4.verification_results"

  /** One `AtomicWriter.write_bytes`: a single file is replaced. */
  datatype Write =
    | ToManifest(manifest: Manifest)
    | ToRunState(runState: RunState)
    | ToCheckpoint(checkpoint: Checkpoint)
    | ToArtifact(logical: string, payload: Payload)
    | ToStagedJson(json: seq<Entry>)
    | ToStagedTxt(txt: seq<string>)
    | ToStagedMeta(meta: Meta)
    | ToJournal(prepared: Prepared)
    | ToWitness(decision: Witness)
    | ToBackup(json: seq<Entry>)
    | ToLiveJson(json: seq<Entry>)
    | ToLiveTxt(txt: seq<string>)
    | ToLiveMeta(meta: Meta)
    | ToRoot(name: string, payload: Payload)

  function Apply(d: Disk, w: Write): Disk {
    match w
    case ToManifest(m) => d.(manifest := m)
    case ToRunState(r) => d.(runState := r)
    case ToCheckpoint(c) => d.(checkpoint := Some(c))
    case ToArtifact(name, p) => d.(artifactFiles := d.artifactFiles[name := p])
    case ToStagedJson(j) => d.(staged := d.staged.(json := Some(j)))
    case ToStagedTxt(t) => d.(staged := d.staged.(txt := Some(t)))
    case ToStagedMeta(m) => d.(staged := d.staged.(meta := Some(m)))
    case ToJournal(p) => d.(journal := Some(p))
    case ToWitness(x) => d.(commitWitness := Some(x))
    case ToBackup(j) => d.(backup := Some(j))
    case ToLiveJson(j) => d.(live := d.live.(json := Some(j)))
    case ToLiveTxt(t) => d.(live := d.live.(txt := Some(t)))
    case ToLiveMeta(m) => d.(live := d.live.(meta := Some(m)))
    case ToRoot(name, p) => d.(root := d.root[name := p])
  }

  function Replay(d: Disk, ws: seq<Write>): Disk
    decreases |ws|
  {
    if ws == [] then d else Replay(Apply(d, ws[0]), ws[1..])
  }

  // ---------------------------------------------------------------- reading the files

  function BlockedUrls(records: map<string, Verdict>): seq<string> {
    SortedNames(set u | u in records && records[u] == BLOCKED)
  }

  function ContributionOf(s: Setting, records: map<string, Verdict>, now: string): Contribution {
    Contribution(BlockedUrls(records), SortedNames(s.manual), s.blacklist, s.session, now)
  }

  function EntryNames(es: seq<Entry>): seq<string> {
    seq(|es|, i requires 0 <= i < |es| => es[i].name)
  }

  function Projected(joined: bool, p: Payload): Payload {
    if joined then JoinedLines(p) else p
  }

  /** `load_artifact`: registered, present and with the registered hash. */
  predicate Intact(registered: map<string, Payload>, files: map<string, Payload>, logical: string) {
    logical in registered && logical in files && files[logical] == registered[logical]
  }

  /** What `validate_prepared` accepts. */
  ghost predicate Sound(s: Setting, staged: Master, p: Prepared) {
    && staged == Master(Some(p.json), Some(p.txt), Some(p.meta))
    && Valid(s.policy, p.json)
    && |p.json| == p.itemCount
    && (set e | e in p.json :: e.name) == (set t | t in p.txt)
    && p.meta.platform == s.platform && p.meta.revision == p.revision && p.meta.tx == p.tx
  }

  // ---------------------------------------------------------------- the commit step

  datatype Decision = Already | Conflict | Proceed

  /** How `commit` reads the live master before it writes anything. */
  function Decide(live: Master, p: Prepared): Decision {
    if live.json == Some(p.json) && live.txt == Some(p.txt) && live.meta.Some? && live.meta.value.revision == p.revision
      then Already
    else if p.base.Some? && live.json.Some? && live.json != p.base && live.json != Some(p.json) then Conflict
    else Proceed
  }

  function CommitWrites(live: Master, p: Prepared): seq<Write> {
    if Decide(live, p) != Proceed then []
    else
      (if live.json.Some? then [ToBackup(live.json.value)] else [])
      + [ToLiveJson(p.json), ToLiveTxt(p.txt), ToLiveMeta(p.meta)]
  }

  function Committed(d: Disk, p: Prepared): Disk {
    Replay(d, CommitWrites(d.live, p))
  }

  function RevisionFiles(p: Prepared): Master {
    Master(Some(p.json), Some(p.txt), Some(p.meta))
  }

  /** The live metadata already claims this revision although it is not this revision's metadata. */
  predicate RevisionForged(live: Master, p: Prepared) {
    Decide(live, p) == Proceed && live.meta.Some? && live.meta.value.revision == p.revision && live.meta.value != p.meta
  }

  lemma {:induction false} ReplayStep(d: Disk, ws: seq<Write>, k: nat)
    requires 0 < k <= |ws|
    ensures Replay(d, ws[..k]) == Apply(Replay(d, ws[..k - 1]), ws[k - 1])
    decreases k
  {
    if k == 1 {
      assert ws[..1][1..] == [] && ws[..0] == [];
    } else {
      assert ws[..k][1..] == ws[1..][..k - 1] && ws[..k - 1][1..] == ws[1..][..k - 2];
      ReplayStep(Apply(d, ws[0]), ws[1..], k - 1);
    }
  }

  /** Replaying part of a commit, read off file by file. */
  lemma {:induction false} PartialCommit(d: Disk, p: Prepared, k: nat)
    requires Decide(d.live, p) == Proceed && k <= |CommitWrites(d.live, p)|
    ensures var live := Replay(d, CommitWrites(d.live, p)[..k]).live;
            var n := if d.live.json.Some? then k - 1 else k;
            live == Master(if n >= 1 then Some(p.json) else d.live.json,
                           if n >= 2 then Some(p.txt) else d.live.txt,
                           if n >= 3 then Some(p.meta) else d.live.meta)
    ensures Replay(d, CommitWrites(d.live, p)[..k]).(live := d.live, backup := d.backup) == d
  {
    var ws := CommitWrites(d.live, p);
    if k > 0 {
      PartialCommit(d, p, k - 1);
      ReplayStep(d, ws, k);
    }
  }

  lemma {:induction false} FullCommit(d: Disk, p: Prepared)
    ensures Decide(d.live, p) == Proceed ==> Committed(d, p).live == RevisionFiles(p)
    ensures Decide(d.live, p) != Proceed ==> Committed(d, p) == d
  {
    if Decide(d.live, p) == Proceed {
      var ws := CommitWrites(d.live, p);
      PartialCommit(d, p, |ws|);
      assert ws[..|ws|] == ws;
    }
  }

  /** A commit leaves the revision's JSON live, except when a base was recorded and the live JSON is
      neither base nor revision; then no file changes. */
  lemma {:induction false} CommitRefusal(d: Disk, p: Prepared)
    ensures Committed(d, p).live.json != Some(p.json) <==>
            p.base.Some? && d.live.json.Some? && d.live.json != p.base && d.live.json != Some(p.json)
    ensures Committed(d, p).live.json != Some(p.json) ==> Committed(d, p) == d
  {
    FullCommit(d, p);
  }

  /** Interrupted after any of its writes, a commit is finished by running it again: no conflict with
      its own partial writes, the same three files as one uninterrupted commit, and nothing left to do
      afterwards. This holds for every cut exactly when the live metadata does not already carry this
      revision's identifier over different metadata (identifiers are fresh, so it never does). */
  lemma {:induction false} CommitResumes(d: Disk, p: Prepared)
    requires Decide(d.live, p) != Conflict
    requires p.meta.revision == p.revision   // validated before every commit
    ensures forall k :: 0 <= k <= |CommitWrites(d.live, p)| ==>
              Decide(Replay(d, CommitWrites(d.live, p)[..k]).live, p) != Conflict
    ensures !RevisionForged(d.live, p) <==>
            forall k :: 0 <= k <= |CommitWrites(d.live, p)| ==>
              Committed(Replay(d, CommitWrites(d.live, p)[..k]), p).live == Committed(d, p).live
    ensures Committed(Committed(d, p), p) == Committed(d, p)
  {
    var ws := CommitWrites(d.live, p);
    FullCommit(d, p);
    forall k | 0 <= k <= |ws|
      ensures Decide(Replay(d, ws[..k]).live, p) != Conflict
      ensures !RevisionForged(d.live, p) ==> Committed(Replay(d, ws[..k]), p).live == Committed(d, p).live
    {
      if Decide(d.live, p) == Proceed {
        PartialCommit(d, p, k);
        FullCommit(Replay(d, ws[..k]), p);
      }
    }
    if RevisionForged(d.live, p) {
      var k := |ws| - 1;
      PartialCommit(d, p, k);
      FullCommit(Replay(d, ws[..k]), p);
      assert Committed(Replay(d, ws[..k]), p).live != Committed(d, p).live;
    }
    if Decide(d.live, p) == Proceed {
      FullCommit(Committed(d, p), p);
      assert Decide(Committed(d, p).live, p) == Already;
    }
  }

  /** A commit protects a master that somebody else published exactly when a base was recorded: with
      no base the conflict check is skipped and the foreign master is replaced. */
  lemma {:induction false} CommitProtectsForeignMaster(d: Disk, p: Prepared)
    requires d.live.json.Some? && d.live.json != p.base && d.live.json != Some(p.json)
    ensures Committed(d, p).live == d.live <==> p.base.Some?
  {
    FullCommit(d, p);
  }
}
