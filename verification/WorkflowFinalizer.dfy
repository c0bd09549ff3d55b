/** The two-phase finalizer. Every write is one step of a fault plan: it happens, it raises, or the
    process dies. After an exception or a death no further write happens until it is caught (or, for a
    death, until a new process starts), so a contract that holds for every plan holds at every point a
    run can be cut. */
module WorkflowFinalizer {
  import opened Common
  import opened Names
  import opened MasterEntries
  import opened PublicationModel
  import opened PublicationInvariant

  /** The fate of one write. An exhausted plan means every further write succeeds. */
  datatype Fate = Done | Raise | Crash

  function FateAt(plan: seq<Fate>, k: nat): Fate { if k < |plan| then plan[k] else Done }

  function Rest(plan: seq<Fate>): seq<Fate> { if plan == [] then [] else plan[1..] }

  datatype Signal = StoreError(code: string) | OsError | PrepareCancelled

  datatype Status = Going | Raised(signal: Signal) | Crashed

  class Finalizer {
    const s: Setting
    ghost const origin: Disk
    ghost var outside: Outside
    var disk: Disk
    var plan: seq<Fate>
    var status: Status
    var nextId: nat

    ghost predicate Kept()
      reads this
    {
      Inv(s, origin, outside, disk)
    }

    constructor (s: Setting, d: Disk)
      requires Start(s, d)
      ensures this.s == s && origin == d && disk == d && outside == Undisturbed(d)
      ensures Kept() && status.Going? && plan == []
    {
      this.s, origin, outside := s, d, Undisturbed(d);
      disk, plan, status, nextId := d, [], Going, 0;
    }

    // ------------------------------------------------------------ the writer and exceptions

    /** `AtomicWriter.write_bytes`: the old file or the new one, never a mixture. */
    method WriteBytes(w: Write)
      modifies this`disk, this`plan, this`status
      ensures old(status).Going? && status.Going? ==> disk == Apply(old(disk), w)
      ensures !(old(status).Going? && status.Going?) ==> disk == old(disk)
      ensures !old(status).Going? ==> status == old(status)
      ensures plan == if old(status).Going? then Rest(old(plan)) else old(plan)
      ensures old(status).Going? ==> status == match FateAt(old(plan), 0)
        case Done => Going
        case Raise => Raised(OsError)
        case Crash => Crashed
    {
      if status.Going? {
        var fate := FateAt(plan, 0);
        plan := Rest(plan);
        match fate
        case Done => disk := Apply(disk, w);
        case Raise => status := Raised(OsError);
        case Crash => status := Crashed;
      }
    }

    method Throw(signal: Signal)
      modifies this`status
      ensures old(status).Going? ==> status == Raised(signal)
      ensures !old(status).Going? ==> status == old(status)
    {
      if status.Going? { status := Raised(signal); }
    }

    method FreshId() returns (id: Id)
      modifies this`nextId
      ensures id == Ours(old(nextId)) && nextId == old(nextId) + 1
    {
      id := Ours(nextId);
      nextId := nextId + 1;
    }

    // ------------------------------------------------------------ the run store

    /** `update_manifest` with a closure that changes `after` fields: every write bumps the revision. */
    method UpdateManifest(after: Manifest)
      modifies this`disk, this`plan, this`status
      ensures old(status).Going? && status.Going? ==>
        disk == old(disk).(manifest := after.(revision := old(disk).manifest.revision + 1))
      ensures !(old(status).Going? && status.Going?) ==> disk == old(disk)
      ensures !old(status).Going? ==> status == old(status)
      ensures plan == if old(status).Going? then Rest(old(plan)) else old(plan)
      ensures old(status).Going? ==> (FateAt(old(plan), 0).Done? <==> status.Going?)
    {
      WriteBytes(ToManifest(after.(revision := disk.manifest.revision + 1)));
    }

    /** `set_publication_state`: a backward move is refused before anything is written. */
    method SetPublicationState(target: PubState)
      modifies this`disk, this`plan, this`status
      ensures old(status).Going? && status.Going? ==>
                target.Index() >= old(disk).manifest.state.Index()
                && disk == old(disk).(manifest :=
                  old(disk).manifest.(state := target, revision := old(disk).manifest.revision + 1))
      ensures !(old(status).Going? && status.Going?) ==> disk == old(disk)
      ensures !old(status).Going? ==> status == old(status)
      ensures old(status).Going? && old(plan) == [] && target.Index() >= old(disk).manifest.state.Index() ==>
        status.Going? && plan == []
      ensures old(status).Going? && target.Index() < old(disk).manifest.state.Index() ==>
        status == Raised(StoreError("invalid_request"))
    {
      if target.Index() < disk.manifest.state.Index() {
        Throw(StoreError("invalid_request"));
      } else {
        UpdateManifest(disk.manifest.(state := target));
      }
    }

    method SetRecoveryRequired(value: bool)
      requires Kept()
      modifies this`disk, this`plan, this`status
      ensures Kept() && Later(old(disk), disk)
      ensures SamePublication(old(disk), disk)
      ensures !old(status).Going? ==> status == old(status)
      ensures old(status).Going? && status.Going? ==> disk.manifest.recoveryRequired == value
      ensures plan == if old(status).Going? then Rest(old(plan)) else old(plan)
      ensures old(status).Going? ==> (FateAt(old(plan), 0).Done? <==> status.Going?)
    {
      UpdateManifest(disk.manifest.(recoveryRequired := value));
      BookkeepingKeepsInv(s, origin, outside, old(disk), disk);
    }

    /** `record_step_attempt`: the step outcome in the manifest, then the session status. */
    method RecordStep(outcome: Outcome)
      requires Kept()
      modifies this`disk, this`plan, this`status
      ensures Kept() && Later(old(disk), disk)
      ensures SamePublication(old(disk), disk)
      ensures !old(status).Going? ==> status == old(status)
      ensures old(status).Going? && old(plan) == [] ==> status.Going? && plan == []
      ensures disk.manifest.recoveryRequired == old(disk).manifest.recoveryRequired
      ensures old(status).Going? && status.Going? ==>
        disk.manifest.verify == Some(outcome) && disk.runState.status == outcome.status
    {
      UpdateManifest(disk.manifest.(verify := Some(outcome)));
      WriteBytes(ToRunState(disk.runState.(status := outcome.status)));
      BookkeepingKeepsInv(s, origin, outside, old(disk), disk);
    }

    /** `_failed`: recording may itself fail quietly. */
    method Failed(code: string, resumable: bool, newGeneration: bool) returns (outcome: Outcome)
      requires Kept()
      modifies this`disk, this`plan, this`status
      ensures Kept() && Later(old(disk), disk) && SamePublication(old(disk), disk)
      ensures outcome == Outcome(FAILED, code, resumable, newGeneration)
      ensures old(status).Going? ==> !status.Raised?
      ensures !old(status).Going? ==> status == old(status)
      ensures disk.manifest.recoveryRequired == old(disk).manifest.recoveryRequired
      ensures old(status).Going? && old(plan) == [] ==>
        status.Going? && plan == [] && disk.manifest.verify == Some(outcome) && disk.runState.status == FAILED
    {
      outcome := Outcome(FAILED, code, resumable, newGeneration);
      var entered := status.Going?;
      RecordStep(outcome);
      if entered && status.Raised? { status := Going; }
    }

    // ------------------------------------------------------------ the master repository

    /** `validate_prepared`. */
    method ValidatePrepared(p: Prepared) returns (ok: bool)
      ensures ok <==> Sound(s, disk.staged, p)
    {
      if disk.staged != Master(Some(p.json), Some(p.txt), Some(p.meta)) { return false; }
      var valid := ValidateEntries(s.policy, p.json);
      return valid && |p.json| == p.itemCount
             && (set e | e in p.json :: e.name) == (set t | t in p.txt)
             && p.meta.platform == s.platform && p.meta.revision == p.revision && p.meta.tx == p.tx;
    }

    /** `commit`, on any arrangement of files: it throws on unsound staging, refuses a conflict
        without touching a file, and otherwise performs exactly the writes of the commit, in order,
        up to the point where it is cut. */
    method Commit(p: Prepared) returns (code: Option<string>, ghost done: nat)
      modifies this`disk, this`plan, this`status
      ensures old(status).Going? && !Sound(s, old(disk).staged, p) ==>
        disk == old(disk) && status == Raised(StoreError("prepared_validation_failed"))
      ensures !old(status).Going? ==> disk == old(disk) && status == old(status)
      ensures code.Some? ==> code == Some("master_revision_conflict")
      ensures done <= |CommitWrites(old(disk).live, p)|
      ensures disk == Replay(old(disk), CommitWrites(old(disk).live, p)[..done])
      ensures old(status).Going? && status.Going? ==>
                disk == Committed(old(disk), p)
                && code == if Decide(old(disk).live, p) == Conflict then Some("master_revision_conflict") else None
      ensures old(status).Going? && old(plan) == [] && Sound(s, old(disk).staged, p) ==> status.Going? && plan == []
    {
      ghost var start := disk;
      ghost var ws := CommitWrites(disk.live, p);
      code, done := None, 0;
      assert ws[..0] == [] && Replay(start, ws[..0]) == start;
      if !status.Going? { return; }
      var sound := ValidatePrepared(p);
      if !sound {
        Throw(StoreError("prepared_validation_failed"));
        return;
      }
      var live := disk.live;
      if live.json == Some(p.json) && live.txt == Some(p.txt) && live.meta.Some?
        && live.meta.value.revision == p.revision {
        return;
      }
      if p.base.Some? && live.json.Some? && live.json != p.base && live.json != Some(p.json) {
        code := Some("master_revision_conflict");
        return;
      }
      done := ProjectRevision(p, start);
      if status.Going? {
        FullCommit(start, p);
        if disk.live != RevisionFiles(p) {
          code := Some("projection_failed");
        }
      }
    }

    /** The four writes of a commit that proceeds. */
    method ProjectRevision(p: Prepared, ghost start: Disk) returns (ghost done: nat)
      requires status.Going? && disk == start && Decide(disk.live, p) == Proceed
      modifies this`disk, this`plan, this`status
      ensures done <= |CommitWrites(start.live, p)|
      ensures disk == Replay(start, CommitWrites(start.live, p)[..done])
      ensures status.Going? ==> disk == Committed(start, p)
      ensures old(plan) == [] ==> status.Going? && plan == []
    {
      ghost var ws := CommitWrites(start.live, p);
      assert ws[..0] == [] && Replay(start, ws[..0]) == start && ws[..|ws|] == ws;
      CommitWritesListed(start.live, p);
      hide Replay, Apply, CommitWrites, Decide;
      done := 0;
      if disk.live.json.Some? {
        done := CommitStep(ws, done, start, ToBackup(disk.live.json.value));
      }
      done := ProjectFiles(ws, done, start, p);
    }

    method ProjectFiles(ghost ws: seq<Write>, ghost k: nat, ghost start: Disk, p: Prepared) returns (ghost done: nat)
      requires k <= |ws| && disk == Replay(start, ws[..k])
      requires status.Going? ==> ws[k..] == [ToLiveJson(p.json), ToLiveTxt(p.txt), ToLiveMeta(p.meta)]
      modifies this`disk, this`plan, this`status
      ensures done <= |ws| && disk == Replay(start, ws[..done])
      ensures status.Going? ==> old(status).Going? && done == |ws|
      ensures old(status).Going? && old(plan) == [] ==> status.Going? && plan == []
    {
      assert status.Going? ==>
        ws[k] == ws[k..][0] && ws[k + 1] == ws[k..][1] && ws[k + 2] == ws[k..][2] && |ws| == k + 3;
      hide Replay, Apply;
      done := CommitStep(ws, k, start, ToLiveJson(p.json));
      done := CommitStep(ws, done, start, ToLiveTxt(p.txt));
      done := CommitStep(ws, done, start, ToLiveMeta(p.meta));
    }

    method CommitStep(ghost ws: seq<Write>, ghost k: nat, ghost start: Disk, w: Write) returns (ghost k': nat)
      requires k <= |ws| && disk == Replay(start, ws[..k])
      requires status.Going? ==> k < |ws| && ws[k] == w
      modifies this`disk, this`plan, this`status
      ensures k' <= |ws| && disk == Replay(start, ws[..k'])
      ensures status.Going? ==> old(status).Going? && k' == k + 1
      ensures !old(status).Going? ==> status == old(status)
      ensures old(status).Going? && old(plan) == [] ==> status.Going? && plan == []
    {
      k' := k;
      WriteBytes(w);
      if status.Going? {
        k' := k + 1;
        ReplayStep(start, ws, k + 1);
      }
    }

    // ------------------------------------------------------------ phase B and roll-forward

    /** `_advance_publication_state`: forward, or stay where we are. */
    method AdvancePublicationState(target: PubState, withFields: bool)
      requires Kept() && disk.commitWitness.Some? && status.Going?
      requires target.Index() >= PROJECTING.Index() ==> MasterInPlace(s, disk)
      requires target == PROJECTED ==> Complete(s, disk)
      modifies this`disk, this`plan, this`status
      ensures Kept() && Later(old(disk), disk)
      ensures disk.(manifest := old(disk).manifest) == old(disk)
        && disk.manifest.artifacts == old(disk).manifest.artifacts
      ensures status.Going? ==>
        disk.manifest.state ==
        if target.Index() < old(disk).manifest.state.Index() then old(disk).manifest.state else target
      ensures target.Index() < old(disk).manifest.state.Index() && !withFields ==>
        disk == old(disk) && status == old(status) && plan == old(plan)
      ensures old(plan) == [] ==> status.Going? && plan == []
    {
      hide Inv, MasterInPlace, Complete;
      InvariantConsequences(s, origin, outside, disk);
      InvKeepsArtifacts(s, origin, outside, disk);
      var current := disk.manifest.state;
      if target.Index() < current.Index() && !withFields { return; }
      SetPublicationState(if target.Index() < current.Index() then current else target);
      StateKeepsInv(s, origin, outside, old(disk), disk);
    }

    /** `set_committed_generation` for this generation. */
    method SetCommittedGeneration(p: Prepared, final: Payload)
      requires Kept() && disk.commitWitness.Some? && status.Going?
      requires disk.journal == Some(p) && final == disk.manifest.artifacts[FINAL]
      modifies this`disk, this`plan, this`status
      ensures Kept() && Later(old(disk), disk)
      ensures disk.(runState := old(disk).runState) == old(disk)
      ensures status.Going? ==> disk.runState.committed == Some(PointerOf(s, p, final))
      ensures old(plan) == [] ==> status.Going? && plan == []
    {
      WriteBytes(ToRunState(disk.runState.(committed := Some(PointerOf(s, p, final)))));
      if status.Going? { PointerKeepsInv(s, origin, outside, old(disk), disk); }
    }

    /** `_reconcile_committed_pointer`. */
    method ReconcileCommittedPointer(p: Prepared)
      requires Kept() && disk.commitWitness.Some? && disk.journal == Some(p) && status.Going?
      modifies this`disk, this`plan, this`status
      ensures Kept() && Later(old(disk), disk)
      ensures disk.(runState := old(disk).runState) == old(disk)
      ensures status.Going? ==> disk.runState.committed == Some(PointerOf(s, p, disk.manifest.artifacts[FINAL]))
      ensures NamesGeneration(s, old(disk)) ==> disk == old(disk) && status == old(status) && plan == old(plan)
      ensures old(plan) == [] ==> status.Going? && plan == []
    {
      if disk.runState.committed.Some? && disk.runState.committed.value.generation == s.generation { return; }
      SetCommittedGeneration(p, disk.manifest.artifacts[FINAL]);
    }

    /** `_project`: one root view becomes its source artifact. */
    method Project(pr: Projection)
      requires Kept() && disk.commitWitness.Some? && status.Going? && pr in s.projections
      requires disk.manifest.state.Index() >= PROJECTING.Index()
      modifies this`disk, this`plan, this`status
      ensures Kept() && Later(old(disk), disk)
      ensures disk.(root := old(disk).root) == old(disk)
      ensures forall q :: q in s.projections && ViewInPlace(old(disk).root, disk.manifest.artifacts, q) ==>
                            ViewInPlace(disk.root, disk.manifest.artifacts, q)
      ensures status.Going? ==> ViewInPlace(disk.root, disk.manifest.artifacts, pr)
      ensures pr.logical !in disk.manifest.artifacts ==>
        disk == old(disk) && status == Raised(StoreError("artifact_missing"))
      ensures old(plan) == [] ==> !status.Crashed? && plan == []
      ensures old(plan) == [] && pr.logical in disk.manifest.artifacts ==> status.Going?
    {
      hide Inv;
      InvKeepsArtifacts(s, origin, outside, disk);
      var payload := LoadArtifact(pr.logical);
      if payload.None? { return; }
      RootKeepsInv(s, origin, outside, disk, pr);
      WriteBytes(ToRoot(pr.root, Projected(pr.joined, payload.value)));
    }

    /** `_seal_checkpoint`. */
    method SealCheckpoint(p: Prepared)
      requires Kept() && disk.commitWitness.Some? && disk.journal == Some(p) && status.Going?
      requires disk.manifest.state.Index() >= PROJECTING.Index()
      modifies this`disk, this`plan, this`status
      ensures Kept() && Later(old(disk), disk)
      ensures disk.(checkpoint := old(disk).checkpoint) == old(disk)
      ensures status.Going? ==> disk.checkpoint.Some? && disk.checkpoint.value.seal == Some(Seal(p.tx, p.json))
      ensures old(plan) == [] ==> status.Going? && plan == []
    {
      hide Inv, ArtifactsKept, Complete, MasterInPlace;
      InvKeepsArtifacts(s, origin, outside, disk);
      if disk.checkpoint.None? { return; }
      SealKeepsInv(s, origin, outside, disk);
      WriteBytes(ToCheckpoint(disk.checkpoint.value.(seal := Some(Seal(p.tx, p.json)))));
    }

    /** The commit of a decided generation: it cannot meet a conflict. */
    method CommitGeneration(p: Prepared) returns (conflict: Option<string>)
      requires Kept() && disk.commitWitness.Some? && disk.journal == Some(p) && status.Going?
      requires disk.runState.committed == Some(PointerOf(s, p, disk.manifest.artifacts[FINAL]))
      modifies this`disk, this`plan, this`status
      ensures Kept() && Later(old(disk), disk)
      ensures disk.(live := old(disk).live, backup := old(disk).backup) == old(disk)
      ensures status.Going? ==> conflict.None? && MasterInPlace(s, disk)
      ensures conflict.Some? ==> conflict == Some("master_revision_conflict")
      ensures old(plan) == [] ==> status.Going? && plan == []
    {
      NoConflictAfterWitness(s, origin, outside, disk);
      ghost var done;
      conflict, done := Commit(p);
      CommitKeepsInv(s, origin, outside, old(disk), done);
      FullCommit(old(disk), p);
    }

    /** The projection loop. */
    method ProjectViews()
      requires Kept() && disk.commitWitness.Some? && status.Going?
      requires disk.manifest.state.Index() >= PROJECTING.Index()
      modifies this`disk, this`plan, this`status
      ensures Kept() && Later(old(disk), disk)
      ensures disk.(root := old(disk).root) == old(disk)
      ensures status.Going? ==> ViewsInPlace(s, disk.root, disk.manifest.artifacts)
      ensures old(plan) == [] ==> !status.Crashed? && plan == []
      ensures old(plan) == [] && SourcesRegistered(s, disk) ==> status.Going?
    {
      hide Inv;
      InvKeepsArtifacts(s, origin, outside, disk);
      for i := 0 to |s.projections|
        invariant Kept() && Later(old(disk), disk) && disk.(root := old(disk).root) == old(disk)
        invariant status.Going?
        invariant forall j :: 0 <= j < i ==> ViewInPlace(disk.root, disk.manifest.artifacts, s.projections[j])
        invariant old(plan) == [] ==> plan == []
      {
        Project(s.projections[i]);
        if !status.Going? { return; }
      }
    }

    /** The guarded part of `_roll_forward`. An exception leaves it Raised. */
    method ProjectGeneration(p: Prepared) returns (conflict: Option<string>)
      requires Kept() && disk.commitWitness.Some? && disk.journal == Some(p) && status.Going?
      modifies this`disk, this`plan, this`status
      ensures Kept() && Later(old(disk), disk)
      ensures disk.manifest.artifacts == old(disk).manifest.artifacts
      ensures status.Going? && conflict.None? ==> Complete(s, disk) && disk.manifest.state == PROJECTED
      ensures conflict.Some? ==> conflict == Some("master_revision_conflict")
      ensures old(plan) == [] ==> !status.Crashed? && plan == []
      ensures old(plan) == [] && SourcesRegistered(s, disk) ==> status.Going? && plan == [] && conflict.None?
    {
      hide Inv;
      conflict := None;
      ReconcileCommittedPointer(p);
      if !status.Going? { return; }
      conflict := CommitGeneration(p);
      if !status.Going? || conflict.Some? { return; }
      AdvancePublicationState(PROJECTING, false);
      if !status.Going? { return; }
      ProjectViews();
      if !status.Going? { return; }
      SealCheckpoint(p);
      if !status.Going? { return; }
      AdvancePublicationState(PROJECTED, true);
    }

    /** `_verify_projafter`: what a fresh reload checks before success is declared. */
    method VerifyProjected() returns (ok: bool)
      requires Kept()
      ensures disk.commitWitness.Some? && Complete(s, disk) ==> ok
      ensures ok <==> Reloads(s, disk)
    {
      hide Inv, Complete;
      InvariantConsequences(s, origin, outside, disk);
      InvKeepsArtifacts(s, origin, outside, disk);
      if disk.runState.committed.None? || disk.runState.committed.value.generation != s.generation { return false; }
      if FINAL !in disk.artifactFiles { return false; }
      if disk.artifactFiles[FINAL] != disk.runState.committed.value.final { return false; }
      for i := 0 to |s.projections|
        invariant forall j :: 0 <= j < i ==> s.projections[j].root in disk.root
      {
        assert s.projections[i] in s.projections;
        if s.projections[i].root !in disk.root { return false; }
      }
      return true;
    }

    /** `_roll_forward`: on a committed generation it never reports success falsely, and with no fault
        it completes. */
    method RollForward(p: Prepared) returns (outcome: Outcome)
      requires Kept() && disk.commitWitness.Some? && disk.journal == Some(p) && status.Going?
      modifies this`disk, this`plan, this`status
      ensures Kept() && Later(old(disk), disk) && disk.commitWitness.Some?
      ensures disk.manifest.artifacts == old(disk).manifest.artifacts
      ensures status.Going? && outcome.status.SUCCEEDED? ==>
                Complete(s, disk) && disk.manifest.state == PROJECTED
                && !disk.manifest.recoveryRequired && disk.manifest.verify == Some(outcome)
      ensures status.Going? && !outcome.status.SUCCEEDED? ==>
        outcome == Outcome(FAILED, outcome.code, true, false)
        && outcome.code in {"projection_failed", "master_revision_conflict"}
      ensures old(plan) == [] && !outcome.status.SUCCEEDED? ==> disk.manifest.recoveryRequired
      ensures !outcome.newGeneration
      ensures old(plan) == [] && SourcesRegistered(s, disk) ==> status.Going? && plan == [] && outcome.status.SUCCEEDED?
    {
      hide Inv;
      var conflict := ProjectGeneration(p);
      if status.Going? && conflict.Some? {
        SetRecoveryRequired(true);
        if status.Going? {
          outcome := Failed(conflict.value, true, false);
          return;
        }
      }
      if status.Raised? {
        outcome := RecoverLater();
        return;
      }
      outcome := Outcome(FAILED, "crashed", true, false);
      if status.Crashed? { return; }
      var ok := VerifyProjected();
      outcome := Conclude(ok);
    }

    /** The end of `_roll_forward`: success is recorded only after the fresh reload agreed. */
    method Conclude(ok: bool) returns (outcome: Outcome)
      requires Kept() && status.Going?
      modifies this`disk, this`plan, this`status
      ensures Kept() && Later(old(disk), disk) && SamePublication(old(disk), disk)
      ensures outcome == if ok then Outcome(SUCCEEDED, "", false, false)
                         else Outcome(FAILED, "projection_failed", true, false)
      ensures FateAt(old(plan), 0).Done? ==> disk.manifest.recoveryRequired == !ok
      ensures status.Going? && ok ==> !disk.manifest.recoveryRequired && disk.manifest.verify == Some(outcome)
      ensures old(plan) == [] ==> status.Going? && plan == []
    {
      if !ok {
        SetRecoveryRequired(true);
        outcome := Failed("projection_failed", true, false);
        return;
      }
      SetRecoveryRequired(false);
      outcome := Outcome(SUCCEEDED, "", false, false);
      RecordStep(outcome);
    }

    /** The exception handler shared by roll-forward and `finalize` once the decision is durable. */
    method RecoverLater() returns (outcome: Outcome)
      requires Kept() && status.Raised?
      modifies this`disk, this`plan, this`status
      ensures Kept() && Later(old(disk), disk)
      ensures disk.manifest.state == old(disk).manifest.state && disk.manifest.artifacts == old(disk).manifest.artifacts
      ensures disk.commitWitness == old(disk).commitWitness && disk.live == old(disk).live
        && disk.root == old(disk).root
      ensures disk.journal == old(disk).journal
      ensures outcome == Outcome(FAILED, "projection_failed", true, false)
      ensures !status.Raised? && (FateAt(old(plan), 0).Done? ==> disk.manifest.recoveryRequired)
      ensures old(plan) == [] ==> status.Going? && plan == [] && disk.manifest.verify == Some(outcome)
    {
      status := Going;
      SetRecoveryRequired(true);
      if status.Raised? { status := Going; }
      outcome := Failed("projection_failed", true, false);
    }

    // ------------------------------------------------------------ recovery

    /** `recover`: the re-entry point of a new process. Without a commit decision it changes nothing;
        with one it reports success only on a complete publication, and with no fault it always gets
        there. */
    method Recover() returns (outcome: Option<Outcome>)
      requires Kept() && status.Going?
      modifies this`disk, this`plan, this`status
      ensures Kept() && Later(old(disk), disk)
      ensures old(disk).commitWitness.None? ==> outcome.None? && disk == old(disk) && status == old(status)
      ensures old(disk).manifest.state == PROJECTED && Reloads(s, old(disk)) ==>
        outcome.None? && disk == old(disk) && status == old(status)
      ensures disk.manifest.artifacts == old(disk).manifest.artifacts
      ensures old(disk).commitWitness.Some? && status.Going? && (outcome.Some? ==> outcome.value.status.SUCCEEDED?) ==>
                Complete(s, disk) && disk.manifest.state == PROJECTED
      ensures status.Going? && outcome.Some? && outcome.value.status.SUCCEEDED? ==> !disk.manifest.recoveryRequired
      ensures old(disk).commitWitness.Some? && old(plan) == [] && SourcesRegistered(s, disk) ==>
                status.Going? && (outcome.Some? ==> outcome.value.status.SUCCEEDED?)
    {
      var state := disk.manifest.state;
      var decided := disk.commitWitness.Some?;
      if (state == NONE || state == PREPARING) && !decided { return None; }
      if state == PREPARED && !decided {
        var usable := TryPrepared();   // drifted staging is only logged; the next run restages
        return None;
      }
      if state == PROJECTED && !decided { return None; }
      var prepared := LoadPrepared();
      outcome := Resume(prepared, state);
    }

    method Resume(prepared: Option<Prepared>, state: PubState) returns (outcome: Option<Outcome>)
      requires Kept() && disk.commitWitness.Some? && status.Going? && state == disk.manifest.state
      requires prepared.Some? ==> disk.journal == prepared
      modifies this`disk, this`plan, this`status
      ensures Kept() && Later(old(disk), disk)
      ensures prepared.Some? && status.Going? && (outcome.Some? ==> outcome.value.status.SUCCEEDED?) ==>
                Complete(s, disk) && disk.manifest.state == PROJECTED
      ensures prepared.None? ==>
        outcome == Some(Outcome(FAILED, "projection_pending", true, false))
        && (FateAt(old(plan), 0).Done? ==> disk.manifest.recoveryRequired)
      ensures prepared.Some? && state == PROJECTED && Reloads(s, old(disk)) ==>
        outcome.None? && disk == old(disk) && status == old(status)
      ensures status.Going? && outcome.Some? && outcome.value.status.SUCCEEDED? ==> !disk.manifest.recoveryRequired
      ensures disk.manifest.artifacts == old(disk).manifest.artifacts
      ensures prepared.Some? && old(plan) == [] && SourcesRegistered(s, disk) ==>
                status.Going? && (outcome.Some? ==> outcome.value.status.SUCCEEDED?)
    {
      if prepared.None? {
        SetRecoveryRequired(true);
        var failed := Failed("projection_pending", true, false);
        return Some(failed);
      }
      if state == PROJECTED {
        var ok := VerifyProjected();
        if ok { return None; }
      }
      var rolled := RollForward(prepared.value);
      return Some(rolled);
    }

    /** `_load_prepared`. */
    method LoadPrepared() returns (p: Option<Prepared>)
      ensures p == disk.journal
    {
      return disk.journal;
    }

    /** `_load_prepared` followed by `validate_prepared`. */
    method TryPrepared() returns (p: Option<Prepared>)
      ensures p == if disk.journal.Some? && Sound(s, disk.staged, disk.journal.value) then disk.journal else None
    {
      p := LoadPrepared();
      if p.None? { return None; }
      var sound := ValidatePrepared(p.value);
      if !sound { return None; }
    }

    // ------------------------------------------------------------ phase A

    /** The staging area may be rebuilt only before anything is committed. */
    method RequireUsable(p: Option<Prepared>, committed: bool)
      modifies this`status
      ensures p.None? && committed && old(status).Going? ==> status == Raised(StoreError("projection_pending"))
      ensures p.Some? || !committed || !old(status).Going? ==> status == old(status)
    {
      if p.None? && committed { Throw(StoreError("projection_pending")); }
    }

    /** `load_artifact`. */
    method LoadArtifact(logical: string) returns (payload: Option<Payload>)
      modifies this`status
      ensures old(status).Going? && Intact(disk.manifest.artifacts, disk.artifactFiles, logical) ==>
                status == old(status) && payload == Some(disk.manifest.artifacts[logical])
      ensures old(status).Going? && !Intact(disk.manifest.artifacts, disk.artifactFiles, logical) ==>
        payload.None? && status == Raised(StoreError(
          if logical in disk.manifest.artifacts && logical in disk.artifactFiles then "artifact_hash_mismatch"
          else "artifact_missing"))
      ensures !old(status).Going? ==> status == old(status) && payload.None?
    {
      payload := None;
      if !status.Going? { return; }
      if logical !in disk.manifest.artifacts || logical !in disk.artifactFiles {
        Throw(StoreError("artifact_missing"));
        return;
      }
      if disk.artifactFiles[logical] != disk.manifest.artifacts[logical] {
        Throw(StoreError("artifact_hash_mismatch"));
        return;
      }
      payload := Some(disk.artifactFiles[logical]);
    }

    method RefuseRegistered(logical: string)
      modifies this`status
      ensures logical in disk.manifest.artifacts && old(status).Going? ==>
        status == Raised(StoreError("stale_generation"))
      ensures logical !in disk.manifest.artifacts || !old(status).Going? ==> status == old(status)
    {
      if logical in disk.manifest.artifacts { Throw(StoreError("stale_generation")); }
    }

    /** `_artifact_lines_once` and `_artifact_json_once`: written and registered at most once. */
    method ArtifactOnce(logical: string, payload: Payload)
      requires Kept() && disk.commitWitness.None? && disk.manifest.state.Index() < PREPARED.Index()
      requires (logical == FINAL && payload == Lines(BlockedUrls(origin.checkpoint.value.records)))
               || (logical == RESULTS && payload == Results(origin.checkpoint.value.records))
      modifies this`disk, this`plan, this`status
      ensures Kept() && Later(old(disk), disk)
      ensures OnlyStaging(old(disk), disk) && disk.manifest.state == old(disk).manifest.state
      ensures !old(status).Going? ==> status == old(status)
      ensures status.Going? ==> logical in disk.manifest.artifacts
      ensures old(status).Going? && old(plan) == [] ==> status.Going? && plan == []
    {
      hide Inv, Complete, MasterInPlace;
      InvKeepsArtifacts(s, origin, outside, disk);
      if !status.Going? || Intact(disk.manifest.artifacts, disk.artifactFiles, logical) { return; }
      RefuseRegistered(logical);
      if status.Going? { RegisterArtifact(logical, payload); }
    }

    method RegisterArtifact(logical: string, payload: Payload)
      requires Kept() && disk.commitWitness.None? && disk.manifest.state.Index() < PREPARED.Index() && status.Going?
      requires logical !in disk.manifest.artifacts
      requires ArtifactsKept(origin, disk.manifest.artifacts[logical := payload],
        disk.artifactFiles[logical := payload])
      modifies this`disk, this`plan, this`status
      ensures Kept() && Later(old(disk), disk)
      ensures OnlyStaging(old(disk), disk) && disk.manifest.state == old(disk).manifest.state
      ensures status.Going? ==> disk.manifest.artifacts == old(disk).manifest.artifacts[logical := payload]
      ensures old(plan) == [] ==> status.Going? && plan == []
    {
      hide Inv;
      InvKeepsArtifacts(s, origin, outside, disk);
      WriteBytes(ToArtifact(logical, payload));
      UpdateManifest(disk.manifest.(artifacts := disk.manifest.artifacts[logical := payload]));
      StagingKeepsInv(s, origin, outside, old(disk), disk);
    }

    /** `repository.load` and the entry builder: None, with an exception pending, when the live master
        is invalid or an entry cannot be canonicalised. */
    method StageEntries(records: map<string, Verdict>, now: string) returns (json: Option<seq<Entry>>)
      requires status.Going?
      modifies this`status
      ensures json.None? <==> status.Raised?
      ensures json.Some? ==> status == old(status) && Valid(s.policy, json.value)
      ensures var c := ContributionOf(s, records, now);
              var existing := EntriesOf(disk.live.json);
              Idempotent(s.policy) && CanonicalContribution(s.policy, c) ==>
                (json.Some? <==> Valid(s.policy, existing))
                && (json.Some? ==> MasterPromise(s.policy, existing, c, json.value)
                                   && Stamped(s.policy, existing, now, json.value))
    {
      var existing := EntriesOf(disk.live.json);
      var valid := ValidateEntries(s.policy, existing);
      if !valid {
        Throw(OsError);
        return None;
      }
      json := BuildMaster(s.policy, existing, ContributionOf(s, records, now));
      if json.None? { Throw(OsError); }
    }

    /** `prepare` and the publication journal: stage a revision of `json` on top of the live master. */
    method StageRevision(json: seq<Entry>) returns (p: Prepared)
      requires Kept() && disk.commitWitness.None? && disk.manifest.state.Index() < PREPARED.Index()
      requires status.Going? && Valid(s.policy, json)
      modifies this`disk, this`plan, this`status, this`nextId
      ensures Kept() && Later(old(disk), disk)
      ensures OnlyStaging(old(disk), disk) && disk.manifest == old(disk).manifest
      ensures p.base == old(disk).live.json && p.json == json && p.txt == EntryNames(json) && p.revision.Ours?
      ensures status.Going? ==> disk.journal == Some(p) && Sound(s, disk.staged, p)
      ensures old(plan) == [] ==> status.Going? && plan == []
    {
      hide Inv, ArtifactsKept, Valid;
      InvKeepsArtifacts(s, origin, outside, disk);
      var tx := FreshId();
      var base := disk.live.json;
      var revision := FreshId();
      var txt := EntryNames(json);
      var meta := Meta(s.platform, revision, tx, json, txt, base);
      p := Prepared(tx, revision, base, |json|, json, txt, meta);
      StageFiles(p);
      StagingKeepsInv(s, origin, outside, old(disk), disk);
      NamesMatchText(json);
    }

    method StageFiles(p: Prepared)
      requires status.Going?
      modifies this`disk, this`plan, this`status
      ensures disk.(staged := old(disk).staged, journal := old(disk).journal) == old(disk)
      ensures status.Going? ==> disk.journal == Some(p) && disk.staged == RevisionFiles(p)
      ensures old(plan) == [] ==> status.Going? && plan == []
    {
      WriteBytes(ToStagedJson(p.json));
      WriteBytes(ToStagedTxt(p.txt));
      WriteBytes(ToStagedMeta(p.meta));
      WriteBytes(ToJournal(p));
    }

    /** `_phase_a`: a durable prepared revision, or an exception; nothing visible changes. */
    method PhaseA(now: string, cancelled: bool) returns (prepared: Option<Prepared>)
      requires Kept() && status.Going?
      modifies this`disk, this`plan, this`status, this`nextId
      ensures Kept() && Later(old(disk), disk) && OnlyStaging(old(disk), disk)
      ensures prepared.Some? <==> status.Going?
      ensures prepared.Some? ==> disk.journal == prepared && disk.manifest.state.Index() >= PREPARED.Index()
      ensures disk.manifest.state.Index() <= old(disk).manifest.state.Index()
        || disk.manifest.state.Index() <= PREPARED.Index()
      ensures old(disk).commitWitness.Some? ==> disk == old(disk)
      ensures prepared.Some? && FreshBase(old(disk)) ==> !Stale(disk, prepared.value)
      ensures KeepsBase(old(disk), disk)
      // an unfinished checkpoint is refused before anything is staged, and so is a cancelled run
      ensures Unfinished(old(disk)) ==>
        status == Raised(StoreError("transient_unknowns_remaining")) && disk == old(disk) && plan == old(plan)
      ensures cancelled && !Unfinished(old(disk)) && old(disk).manifest.state.Index() < PREPARED.Index() ==>
        status == Raised(PrepareCancelled) && disk == old(disk) && plan == old(plan)
      ensures old(plan) == [] && !cancelled && Publishable(s, old(disk)) ==> prepared.Some? && plan == []
    {
      prepared := None;
      InvKeepsArtifacts(s, origin, outside, disk);
      var checkpoint := disk.checkpoint.value;
      if checkpoint.unattempted > 0 || checkpoint.transient > 0 {
        Throw(StoreError("transient_unknowns_remaining"));
        return;
      }
      var state := disk.manifest.state;
      if state.Index() >= PREPARED.Index() {
        prepared := TryPrepared();
        RequireUsable(prepared, disk.commitWitness.Some? || state != PREPARED);
        if prepared.Some? { return; }
      }
      if cancelled {
        Throw(PrepareCancelled);
        return;
      }
      prepared := StageTransaction(checkpoint.records, now);
    }

    /** The staging half of `_phase_a`: artifacts, master revision, journal, then the prepared state. */
    method StageTransaction(records: map<string, Verdict>, now: string) returns (prepared: Option<Prepared>)
      requires disk.checkpoint.Some? && !Unfinished(disk)
      requires Kept() && status.Going? && disk.commitWitness.None? && disk.manifest.state.Index() < PREPARED.Index()
      requires records == disk.checkpoint.value.records
      modifies this`disk, this`plan, this`status, this`nextId
      ensures Kept() && Later(old(disk), disk) && OnlyStaging(old(disk), disk)
      ensures prepared.Some? <==> status.Going?
      ensures prepared.Some? ==> disk.journal == prepared && disk.manifest.state == PREPARED
                                 && prepared.value.base == disk.live.json
      ensures disk.manifest.state.Index() <= PREPARED.Index() && KeepsBase(old(disk), disk)
      ensures old(plan) == [] && Publishable(s, old(disk)) ==> prepared.Some? && plan == []
    {
      hide Inv, Valid, Sound, RevisionStaged;
      prepared := None;
      StageArtifacts(records);
      if !status.Going? { return; }
      var p := StageMaster(records, now);
      if p.None? { return; }
      prepared := MarkPrepared(p.value);
    }

    method BeginPreparing()
      requires Kept() && status.Going? && disk.commitWitness.None? && disk.manifest.state.Index() < PREPARED.Index()
      modifies this`disk, this`plan, this`status
      ensures Kept() && Later(old(disk), disk)
      ensures disk.(manifest := old(disk).manifest) == old(disk)
        && disk.manifest.artifacts == old(disk).manifest.artifacts
      ensures disk.manifest.state.Index() < PREPARED.Index() && (status.Going? ==> disk.manifest.state == PREPARING)
      ensures old(plan) == [] ==> status.Going? && plan == []
    {
      hide Inv, ArtifactsKept;
      InvKeepsArtifacts(s, origin, outside, disk);
      if disk.manifest.state == NONE {
        SetPublicationState(PREPARING);
        StagingKeepsInv(s, origin, outside, old(disk), disk);
      }
    }

    method StageArtifacts(records: map<string, Verdict>)
      requires Kept() && status.Going? && disk.commitWitness.None? && disk.manifest.state.Index() < PREPARED.Index()
      requires records == disk.checkpoint.value.records
      modifies this`disk, this`plan, this`status
      ensures Kept() && Later(old(disk), disk) && OnlyStaging(old(disk), disk)
      ensures disk.manifest.state.Index() < PREPARED.Index()
      ensures status.Going? ==> FINAL in disk.manifest.artifacts
      ensures old(plan) == [] ==> status.Going? && plan == []
    {
      hide Inv, ArtifactsKept;
      InvKeepsArtifacts(s, origin, outside, disk);
      BeginPreparing();
      ArtifactOnce(RESULTS, Results(records));
      ArtifactOnce(FINAL, Lines(BlockedUrls(records)));
    }

    method StageMaster(records: map<string, Verdict>, now: string) returns (p: Option<Prepared>)
      requires Kept() && status.Going? && disk.commitWitness.None? && disk.manifest.state.Index() < PREPARED.Index()
      requires records == disk.checkpoint.value.records
      modifies this`disk, this`plan, this`status, this`nextId
      ensures Kept() && Later(old(disk), disk) && OnlyStaging(old(disk), disk)
      ensures disk.manifest == old(disk).manifest
      ensures p.Some? <==> status.Going?
      ensures p.Some? ==>
        disk.journal == p && RevisionStaged(s, origin, disk.staged, disk.journal) && p.value.base == disk.live.json
      ensures old(plan) == [] && Publishable(s, old(disk)) ==> p.Some? && plan == []
    {
      assert Valid(s.policy, []);
      hide Inv, CanonicalContribution, ContributionOf, Idempotent, Valid, MasterPromise, RevisionStaged, Sound;
      InvKeepsArtifacts(s, origin, outside, disk);
      ContributionIsCanonical(s, origin, outside, disk, now);
      var json := StageEntries(records, now);
      if json.None? { return None; }
      var revision := StageRevision(json.value);
      if !status.Going? { return None; }
      BuiltRevision(s, origin, disk.staged, revision, now);
      return Some(revision);
    }

    method MarkPrepared(p: Prepared) returns (prepared: Option<Prepared>)
      requires Kept() && status.Going? && disk.commitWitness.None? && disk.manifest.state.Index() < PREPARED.Index()
      requires FINAL in disk.manifest.artifacts && RevisionStaged(s, origin, disk.staged, disk.journal)
        && disk.journal == Some(p)
      requires p.base == disk.live.json && disk.checkpoint.Some? && !Unfinished(disk)
      modifies this`disk, this`plan, this`status
      ensures Kept() && Later(old(disk), disk) && OnlyStaging(old(disk), disk)
      ensures prepared.Some? <==> status.Going?
      ensures prepared.Some? ==> prepared == Some(p) && disk.journal == prepared && disk.manifest.state == PREPARED
      ensures disk.manifest.state.Index() <= PREPARED.Index()
      ensures disk.manifest.state == PREPARED ==> disk.journal == Some(p)
      ensures old(plan) == [] ==> prepared.Some? && plan == []
    {
      prepared := None;
      SetPublicationState(PREPARED);
      if status.Going? {
        PreparedKeepsInv(s, origin, outside, old(disk), disk);
        prepared := Some(p);
      }
    }

    // ------------------------------------------------------------ phase B and finalize

    /** `_detect_base_revision_conflict`. */
    method DetectBaseRevisionConflict(p: Prepared) returns (conflict: bool)
      ensures conflict
        <==> p.base.Some? && disk.live.json.Some? && disk.live.json != p.base && disk.live.json != Some(p.json)
    {
      if p.base.None? { return false; }
      if disk.live.json.None? { return false; }
      return !(disk.live.json == p.base || disk.live.json == Some(p.json));
    }

    /** `_phase_b`: refuse a moved master before the point of no return; otherwise decide and roll forward. */
    method PhaseB(p: Prepared) returns (outcome: Outcome)
      requires Kept() && status.Going? && disk.journal == Some(p) && disk.manifest.state.Index() >= PREPARED.Index()
      modifies this`disk, this`plan, this`status
      ensures Kept() && Later(old(disk), disk)
      ensures disk.manifest.artifacts == old(disk).manifest.artifacts && disk.journal == old(disk).journal
      ensures Stale(old(disk), p) ==>
                SamePublication(old(disk), disk) && outcome == Outcome(FAILED, "master_revision_conflict", true, true)
                  && !status.Raised?
      ensures status.Going? && outcome.status.SUCCEEDED? ==>
                Complete(s, disk) && disk.manifest.state == PROJECTED && !disk.manifest.recoveryRequired
      ensures outcome.newGeneration ==> Stale(old(disk), p)
      ensures (old(plan) == [] && !Stale(old(disk), p) && old(disk).manifest.state.Index() <= COMMITTED.Index()
               && SourcesRegistered(s, disk)) ==> status.Going? && outcome.status.SUCCEEDED?
    {
      hide Inv;
      InvKeepsArtifacts(s, origin, outside, disk);
      var conflict := DetectBaseRevisionConflict(p);
      if conflict {
        outcome := Failed("master_revision_conflict", true, true);
        return;
      }
      outcome := Outcome(FAILED, "commit_failed", true, false);
      var final := LoadArtifact(FINAL);
      if final.None? { return; }
      DecideGeneration(p, final.value);
      if !status.Going? { return; }
      outcome := RollForward(p);
    }

    /** The commit witness, the committed state and the session pointer, in this order. */
    method DecideGeneration(p: Prepared, final: Payload)
      requires Kept() && status.Going? && disk.journal == Some(p) && disk.manifest.state.Index() >= PREPARED.Index()
      requires !Stale(disk, p) && final == disk.manifest.artifacts[FINAL]
      modifies this`disk, this`plan, this`status
      ensures Kept() && Later(old(disk), disk)
      ensures disk.manifest.artifacts == old(disk).manifest.artifacts && disk.live == old(disk).live
        && disk.root == old(disk).root
      ensures disk.journal == old(disk).journal && (status.Going? ==> disk.commitWitness.Some?)
      ensures old(plan) == [] && old(disk).manifest.state.Index() <= COMMITTED.Index() ==> status.Going? && plan == []
    {
      hide Inv, WitnessOf, MasterInPlace, Complete;
      InvKeepsArtifacts(s, origin, outside, disk);
      WitnessKeepsInv(s, origin, outside, disk, p);
      WriteBytes(ToWitness(WitnessOf(p, final)));
      if !status.Going? { return; }
      label decided:
      SetPublicationState(COMMITTED);
      if !status.Going? { return; }
      StateKeepsInv(s, origin, outside, old@decided(disk), disk);
      SetCommittedGeneration(p, final);
    }

    method CancelledOutcome() returns (outcome: Outcome)
      requires Kept() && status.Going?
      modifies this`disk, this`plan, this`status
      ensures Kept() && Later(old(disk), disk) && SamePublication(old(disk), disk)
      ensures outcome == Outcome(CANCELLED, "cancelled_by_user", true, false)
    {
      outcome := Outcome(CANCELLED, "cancelled_by_user", true, false);
      RecordStep(outcome);
    }

    /** `finalize`. Success is reported only for a complete publication (or, in shadow mode, for a
        staged one that changed nothing visible); a failure before the decision changes nothing
        visible either; with no fault, no cancellation and no foreign publication it succeeds. */
    method Finalize(now: string, cancelledEarly: bool, cancelledLate: bool) returns (outcome: Outcome)
      requires Kept() && status.Going?
      modifies this`disk, this`plan, this`status, this`nextId
      ensures Kept() && Later(old(disk), disk)
      ensures status.Going? && outcome.status.SUCCEEDED? && !s.shadow ==>
                Complete(s, disk) && disk.manifest.state == PROJECTED && !disk.manifest.recoveryRequired
      ensures s.shadow && old(disk).commitWitness.None? ==> disk.commitWitness.None?
      // nothing is published from an unfinished checkpoint, nor by a cancelled run
      ensures Unfinished(old(disk)) ==>
        SamePublication(old(disk), disk) && outcome == Outcome(FAILED, "transient_unknowns_remaining", false, false)
      ensures cancelledLate && !s.shadow ==> disk.commitWitness == old(disk).commitWitness
                                             && disk.live == old(disk).live && disk.root == old(disk).root
                                             && disk.runState.committed == old(disk).runState.committed
      ensures cancelledEarly && !Unfinished(old(disk)) && old(disk).manifest.state.Index() < PREPARED.Index() ==>
        SamePublication(old(disk), disk) && outcome == Outcome(CANCELLED, "cancelled_by_user", true, false)
      // a revision staged here has the live master found here as its base, and keeps the promise to it
      ensures KeepsBase(old(disk), disk)
      ensures status.Going? && outcome.status.SUCCEEDED? && !s.shadow
              && old(disk).manifest.state.Index() < PREPARED.Index() ==>
                MasterPromise(s.policy, EntriesOf(old(disk).live.json), Contributed(s, origin), disk.live.json.value)
                && Delivered(s, origin, old(disk).live.json, disk)
      ensures outcome.newGeneration ==> disk.live == old(disk).live && disk.root == old(disk).root
                                        && disk.commitWitness == old(disk).commitWitness
      ensures SourcesRegistered(s, old(disk)) ==> SourcesRegistered(s, disk)
      ensures (old(plan) == [] && !cancelledEarly && !cancelledLate && !s.shadow && Publishable(s, old(disk))
               && old(disk).manifest.state.Index() <= COMMITTED.Index() && FreshBase(old(disk))
                 && SourcesRegistered(s, old(disk))) ==>
                status.Going? && outcome.status.SUCCEEDED?
    {
      hide Inv, Complete, Sound, Valid, Delivered;
      var prepared := PhaseA(now, cancelledEarly);
      outcome := Outcome(FAILED, "crashed", true, false);
      if status.Raised? {
        outcome := PrepareFailed();
        return;
      }
      if status.Crashed? { return; }
      outcome := Publish(prepared.value, cancelledLate);
      if status.Going? && outcome.status.SUCCEEDED? && !s.shadow { PublishedContent(s, origin, outside, disk); }
    }

    /** `finalize` after phase A. */
    method Publish(p: Prepared, cancelledLate: bool) returns (outcome: Outcome)
      requires Kept() && status.Going? && disk.journal == Some(p) && disk.manifest.state.Index() >= PREPARED.Index()
      modifies this`disk, this`plan, this`status
      ensures Kept() && Later(old(disk), disk)
      ensures disk.manifest.artifacts == old(disk).manifest.artifacts && disk.journal == old(disk).journal
      ensures status.Going? && outcome.status.SUCCEEDED? && !s.shadow ==>
                Complete(s, disk) && disk.manifest.state == PROJECTED && !disk.manifest.recoveryRequired
      ensures s.shadow || cancelledLate ==> SamePublication(old(disk), disk)
      ensures s.shadow ==> outcome == Outcome(SUCCEEDED, "", false, false)
      ensures cancelledLate && !s.shadow ==> outcome == Outcome(CANCELLED, "cancelled_by_user", true, false)
      ensures outcome.newGeneration ==> SamePublication(old(disk), disk)
      ensures (old(plan) == [] && !cancelledLate && !s.shadow && !Stale(old(disk), p)
               && old(disk).manifest.state.Index() <= COMMITTED.Index() && SourcesRegistered(s, disk)) ==>
                status.Going? && outcome.status.SUCCEEDED?
    {
      if s.shadow {
        outcome := Outcome(SUCCEEDED, "", false, false);
        RecordStep(outcome);
        return;
      }
      if cancelledLate {
        outcome := CancelledOutcome();
        return;
      }
      outcome := PhaseB(p);
      if status.Raised? {
        outcome := PublishFailed();
      }
    }

    /** The handlers around phase A. */
    method PrepareFailed() returns (outcome: Outcome)
      requires Kept() && status.Raised?
      modifies this`disk, this`plan, this`status
      ensures Kept() && Later(old(disk), disk) && SamePublication(old(disk), disk)
      ensures outcome == match old(status).signal
        case PrepareCancelled => Outcome(CANCELLED, "cancelled_by_user", true, false)
        case StoreError(code) => Outcome(FAILED, code, false, false)
        case OsError => Outcome(FAILED, "prepare_failed", false, false)
    {
      var signal := status.signal;
      status := Going;
      match signal
      case PrepareCancelled => outcome := CancelledOutcome();
      case StoreError(code) => outcome := Failed(code, false, false);
      case OsError => outcome := Failed("prepare_failed", false, false);
    }

    /** The handler around phase B: once the witness is durable, recovery is roll-forward only. */
    method PublishFailed() returns (outcome: Outcome)
      requires Kept() && status.Raised?
      modifies this`disk, this`plan, this`status
      ensures Kept() && Later(old(disk), disk)
      ensures disk.manifest.artifacts == old(disk).manifest.artifacts && disk.journal == old(disk).journal
      ensures outcome.status.FAILED? && outcome.resumable && !outcome.newGeneration
      ensures outcome.code == if disk.commitWitness.Some? then "projection_failed" else "commit_failed"
    {
      if disk.commitWitness.Some? {
        outcome := RecoverLater();
      } else {
        status := Going;
        outcome := Failed("commit_failed", true, false);
      }
    }

    // ------------------------------------------------------------ every history

    /** Any history of processes: finalize attempts and recoveries, each with its own fault plan, and
        other writers publishing a master of their own before this generation has decided. The
        invariant holds throughout. Without a decision readers see what other writers left: the starting
        master, views and pointer, if nobody else published. If a decision was reached, one more recovery
        without a fault completes the publication: live master, root views, session pointer and seal. */
    method History(events: seq<Event>)
      requires Kept()
      modifies this
      ensures Kept() && Later(old(disk), disk)
      ensures SourcesRegistered(s, old(disk)) && disk.commitWitness.Some? ==>
                status.Going? && Complete(s, disk) && disk.manifest.state == PROJECTED
      ensures origin.checkpoint.Some? && (Unfinished(origin) ==> disk.commitWitness.None?)
      ensures disk.commitWitness.None? ==> disk.live == outside.master && disk.root == origin.root
                                           && disk.runState.committed == origin.runState.committed
      ensures LeftBy(old(outside), events, outside, disk.commitWitness.None?)
    {
      hide Inv, LeftBy;
      NothingLeft(outside);
      for i := 0 to |events|
        invariant Kept() && Later(old(disk), disk)
        invariant SourcesRegistered(s, old(disk)) ==> SourcesRegistered(s, disk)
        invariant LeftBy(old(outside), events[..i], outside, disk.commitWitness.None?)
      {
        ghost var left, undecided := outside, disk.commitWitness.None?;
        Experience(events[i]);
        assert events[..i + 1] == events[..i] + [events[i]];
        LeftByNext(old(outside), events[..i], events[i], left, undecided, outside, disk.commitWitness.None?);
      }
      assert events[..|events|] == events;
      status := Going;
      plan := [];
      var last := Recover();
      InvariantConsequences(s, origin, outside, disk);
    }

    /** The end-to-end promise, from a fresh start. If nobody else publishes, then after any history of
        attempts and recoveries the live master is either the starting one, or keeps the whole promise
        relative to it. Whoever publishes, a complete publication keeps the promise to a master that was
        live; and where its base was recorded, that is also the last list other writers left. */
    method Lifetime(events: seq<Event>)
      requires Kept() && disk == origin && outside == Undisturbed(origin)
      modifies this
      ensures Kept()
      ensures disk.commitWitness.None? ==> disk.live == LastForeign(origin.live, events) && disk.root == origin.root
                                           && disk.runState.committed == origin.runState.committed
      ensures Private(events) && disk.commitWitness.None? ==> disk.live == origin.live
      ensures origin.checkpoint.Some? && (Unfinished(origin) ==> disk.commitWitness.None?)
      ensures SourcesRegistered(s, origin) && Private(events) && disk.commitWitness.Some? ==>
                disk.live.json.Some? && disk.live.txt == Some(EntryNames(disk.live.json.value))
                && MasterPromise(s.policy, EntriesOf(origin.live.json), Contributed(s, origin), disk.live.json.value)
                && Delivered(s, origin, origin.live.json, disk)
      ensures SourcesRegistered(s, origin) && disk.commitWitness.Some? ==>
                disk.live.json.Some? && disk.journal.Some?
                && disk.journal.value.base in {origin.live.json} + ForeignJsons(events)
                && MasterPromise(s.policy, EntriesOf(disk.journal.value.base), Contributed(s, origin),
                  disk.live.json.value)
                && Delivered(s, origin, disk.journal.value.base, disk)
                && (disk.journal.value.base.Some? && outside.master.json.Some? ==>
                      outside.master.json == disk.journal.value.base || outside.master.json == disk.live.json)
      ensures exists k :: 0 <= k <= |events| && outside.master == LastForeign(origin.live, events[..k])
    {
      History(events);
      assert LeftBy(Undisturbed(origin), events, outside, disk.commitWitness.None?);
      hide Inv, Complete, Delivered;
      if disk.commitWitness.Some? && SourcesRegistered(s, origin) { PublishedContent(s, origin, outside, disk); }
    }

    method Experience(event: Event)
      requires Kept()
      modifies this
      ensures Kept() && Later(old(disk), disk)
      ensures SourcesRegistered(s, old(disk)) ==> SourcesRegistered(s, disk)
      ensures if event.ForeignPublish? && old(disk).commitWitness.None? && ForeignMaster(event.other) then
                outside == Disturbed(old(outside), event.other) && disk == old(disk).(live := event.other)
              else outside == old(outside)
    {
      status := Going;
      match event
      case Finalizing(faults, now, early, late) =>
        plan := faults;
        var outcome := Finalize(now, early, late);
      case Recovering(faults) =>
        plan := faults;
        var outcome := Recover();
      case ForeignPublish(other) =>
        if disk.commitWitness.None? && ForeignMaster(other) {
          ForeignKeepsInv(s, origin, outside, disk, other);
          disk := disk.(live := other);
          outside := Disturbed(outside, other);
        }
    }
  }

  /** A fresh reload finds this generation's pointer, the final artifact it names, and every root file. */
  ghost predicate Reloads(s: Setting, d: Disk) {
    && NamesGeneration(s, d)
    && FINAL in d.artifactFiles && d.artifactFiles[FINAL] == d.runState.committed.value.final
    && forall pr :: pr in s.projections ==> pr.root in d.root
  }

  ghost function ForeignJsons(events: seq<Event>): set<Option<seq<Entry>>> {
    set e | e in events && e.ForeignPublish? :: e.other.json
  }

  /** The master other writers leave, on top of the one that was there. */
  function LastForeign(before: Master, events: seq<Event>): Master {
    if events == [] then before
    else
      var last := events[|events| - 1];
      if last.ForeignPublish? && ForeignMaster(last.other) then last.other
      else LastForeign(before, events[..|events| - 1])
  }

  /** What a history of events makes of what other writers left: as long as nothing is decided, the last
      master any of them published. */
  ghost predicate LeftBy(before: Outside, events: seq<Event>, now: Outside, undecided: bool) {
    && now.bases <= before.bases + ForeignJsons(events)
    && (exists k :: 0 <= k <= |events| && now.master == LastForeign(before.master, events[..k]))
    && (undecided ==> now.master == LastForeign(before.master, events))
    && (Private(events) ==> now == before)
  }

  lemma {:induction false} NothingLeft(before: Outside)
    ensures LeftBy(before, [], before, true) && LeftBy(before, [], before, false)
  {
    var none: seq<Event> := [];
    assert none[..0] == none && LastForeign(before.master, none) == before.master;
  }

  lemma {:induction false} LeftByNext(before: Outside, events: seq<Event>, event: Event, left: Outside, undecided: bool,
                                      now: Outside, still: bool)
    requires LeftBy(before, events, left, undecided) && (still ==> undecided)
    requires if event.ForeignPublish? && undecided && ForeignMaster(event.other)
      then now == Disturbed(left, event.other) else now == left
    ensures LeftBy(before, events + [event], now, still)
  {
    var more := events + [event];
    assert more[..|events|] == events && more[..|more|] == more;
    if now == left {
      var k :| 0 <= k <= |events| && left.master == LastForeign(before.master, events[..k]);
      assert more[..k] == events[..k];
    } else {
      assert now.master == LastForeign(before.master, more[..|more|]);
    }
    assert event in more && forall e :: e in events ==> e in more;
  }

  /** No other writer publishes. */
  predicate Private(events: seq<Event>) {
    forall e :: e in events ==> !e.ForeignPublish?
  }

  /** Every projection has a source: an upstream artifact, or the final list this step produces. */
  ghost predicate SourcesRegistered(s: Setting, d: Disk) {
    forall pr :: pr in s.projections ==> pr.logical in d.manifest.artifacts || pr.logical == FINAL
  }

  /** Only staging files, artifacts, the journal and the manifest differ. */
  ghost predicate OnlyStaging(d: Disk, e: Disk) {
    && e.(manifest := d.manifest, artifactFiles := d.artifactFiles, staged := d.staged, journal := d.journal) == d
    && (forall name :: name in d.manifest.artifacts ==> name in e.manifest.artifacts)
  }

  /** What one `finalize` needs besides the absence of faults: no transient candidate is left, and
      until a revision is staged the live master can be read. */
  ghost predicate Publishable(s: Setting, d: Disk) {
    && d.checkpoint.Some? && !Unfinished(d)
    && (d.manifest.state.Index() < PREPARED.Index() && d.live.json.Some? ==> Valid(s.policy, d.live.json.value))
  }

  lemma {:induction false} CommitWritesListed(live: Master, p: Prepared)
    requires Decide(live, p) == Proceed
    ensures var ws := CommitWrites(live, p);
            var k := if live.json.Some? then 1 else 0;
            |ws| == k + 3 && ws[k..] == [ToLiveJson(p.json), ToLiveTxt(p.txt), ToLiveMeta(p.meta)]
            && (k == 1 ==> ws[0] == ToBackup(live.json.value))
  {
  }

  lemma {:induction false} NamesMatchText(json: seq<Entry>)
    ensures (set e | e in json :: e.name) == (set t | t in EntryNames(json))
  {
    forall e | e in json ensures e.name in EntryNames(json) {
      var i :| 0 <= i < |json| && json[i] == e;
      assert EntryNames(json)[i] == e.name;
    }
    forall t | t in EntryNames(json) ensures t in (set e | e in json :: e.name) {
      var i :| 0 <= i < |json| && EntryNames(json)[i] == t;
      assert json[i] in json;
    }
  }

  lemma {:induction false} ContributionIsCanonical(s: Setting, o: Disk, m: Outside, d: Disk, now: string)
    requires Inv(s, o, m, d)
    ensures Idempotent(s.policy) && CanonicalContribution(s.policy, ContributionOf(s, o.checkpoint.value.records, now))
  {
  }

  lemma {:induction false} BuiltRevision(s: Setting, o: Disk, staged: Master, p: Prepared, now: string)
    requires o.checkpoint.Some? && Sound(s, staged, p) && p.revision.Ours? && p.txt == EntryNames(p.json)
    requires MasterPromise(s.policy, EntriesOf(p.base), ContributionOf(s, o.checkpoint.value.records, now), p.json)
    ensures RevisionStaged(s, o, staged, Some(p))
  {
  }

  /** A revision once staged stays, and a newly staged one records the live master as its base. */
  ghost predicate KeepsBase(d: Disk, e: Disk) {
    if d.manifest.state.Index() >= PREPARED.Index() then e.journal == d.journal
    else e.manifest.state.Index() >= PREPARED.Index() ==> e.journal.Some? && e.journal.value.base == d.live.json
  }

  /** The prepared revision no longer fits the live master. */
  predicate Stale(d: Disk, p: Prepared) {
    p.base.Some? && d.live.json.Some? && d.live.json != p.base && d.live.json != Some(p.json)
  }

  /** Nobody published since the revision was staged (vacuous before anything is staged). */
  predicate FreshBase(d: Disk) {
    d.manifest.state.Index() >= PREPARED.Index() && d.journal.Some? ==> !Stale(d, d.journal.value)
  }

  /** One process, or one publication by another writer. */
  datatype Event =
    | Finalizing(faults: seq<Fate>, now: string, early: bool, late: bool)
    | Recovering(faults: seq<Fate>)
    | ForeignPublish(other: Master)
}
