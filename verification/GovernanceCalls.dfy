/**
 When each governance call is accepted and what it then leaves, said about the records and the
 project's files and not about the call's own steps.
 */
module GovernanceCalls {
  import opened Wrappers
  import opened GovernanceState
  import opened GovernanceGates
  import ProjectPaths
  import PythonText

  // ------------------------------------------------------------------ moving a stage

  /** The place of a state on the way of a stage run that nothing goes wrong with. */
  function Place(state: StageState): Option<nat> {
    match state
    case Ready => Some(0)
    case Discussing => Some(1)
    case Producing => Some(2)
    case Reviewing => Some(3)
    case Checking => Some(4)
    case WaitingApproval => Some(5)
    case HandoffReady => Some(6)
    case Done => Some(7)
    case _ => None
  }

  predicate NextInPipeline(current: StageState, target: StageState) {
    Place(current).Some? && Place(target) == Some(Place(current).value + 1)
  }

  /** Besides the next state of the pipeline: rework, recovery, and giving up on what is under way. */
  lemma AllowedIff(current: StageState, target: StageState)
    ensures Allowed(current, target)
            <==> || NextInPipeline(current, target)
                 || (target == NeedsFix && (current == Checking || current == WaitingApproval))
                 || (target == WarningHeld && current == Checking)
                 || (target == Producing && current == NeedsFix)
                 || (target == Discussing && (current == WarningHeld || current == ExternalConflict || current == Interrupted))
                 || ((target == Failed || target == Cancelled || target == Abandoned)
                     && current !in {Locked, Done, Failed, Cancelled, Abandoned})
  {
  }

  /** The stage after a run's stage has a current attempt that is still locked; the last stage has none after it. */
  predicate NextIsLocked(runs: seq<Run>, r: nat)
    requires r < |runs|
  {
    runs[r].stage < 4 ==>
      var next := Current(runs, runs[r].stage + 1); next.Some? && runs[next.value].state == Locked
  }

  /** Runs with one of them completed and the next stage's current attempt opened. */
  function Completing(runs: seq<Run>, r: nat): seq<Run>
    requires r < |runs| && NextIsLocked(runs, r)
  {
    var done := runs[r := runs[r].(state := Done)];
    if runs[r].stage == 4 then done
    else var next := Current(runs, runs[r].stage + 1).value; done[next := done[next].(state := Ready)]
  }

  lemma {:induction false} CurrentUnmoved(runs: seq<Run>, r: nat, state: StageState, stage: nat)
    requires r < |runs|
    ensures Current(WithState(runs, r, state), stage) == Current(runs, stage)
  {
    var n := |runs| - 1;
    if r < n {
      CurrentUnmoved(runs[..n], r, state, stage);
      assert WithState(runs, r, state)[..n] == WithState(runs[..n], r, state);
    } else {
      assert WithState(runs, r, state)[..n] == runs[..n];
    }
  }

  lemma {:induction false} CompletesIff(db: Db, r: nat)
    requires r < |db.runs| && db.status == Running && db.stage == db.runs[r].stage && db.runs[r].state != Locked
    ensures MoveStage(db, r, Done).Ok? <==> NextIsLocked(db.runs, r)
    ensures NextIsLocked(db.runs, r) ==>
              MoveStage(db, r, Done)
              == Ok(db.(runs := Completing(db.runs, r), status := if db.stage == 4 then Completed else Running,
                        stage := if db.stage == 4 then 4 else db.stage + 1))
  {
    CurrentUnmoved(db.runs, r, Done, db.runs[r].stage + 1);
  }

  lemma {:induction false} SameCompleting(runs: seq<Run>, moved: seq<Run>, r: nat, state: StageState)
    requires r < |runs| && moved == WithState(runs, r, state)
    ensures NextIsLocked(moved, r) <==> NextIsLocked(runs, r)
    ensures NextIsLocked(runs, r) ==> Completing(moved, r) == Completing(runs, r)
  {
    CurrentUnmoved(runs, r, state, runs[r].stage + 1);
  }

  // ------------------------------------------------------------------- finishing a gate

  /** A version that can be locked: a draft the project's file still agrees with. */
  predicate Lockable(db: Db, id: nat, world: World) {
    && id < |db.versions| && db.versions[id].status == Draft && db.versions[id].artifact < |db.artifacts|
    && HasContent(db, id, world)
  }

  /** What keeps a version from being locked, by the code the call fails with. */
  lemma ObstacleMeans(db: Db, id: nat, world: World)
    ensures match Obstacle(db, id, world)
            case None => Lockable(db, id, world)
            case Some(code) =>
              if id >= |db.versions| || db.versions[id].status != Draft then code == "quality_gate.artifact_not_lockable"
              else if db.versions[id].artifact >= |db.artifacts| then code == "gate artifact is missing"
              else if !FileExists(db, id, world) then code == "file.not_found"
              else !HasContent(db, id, world) && code == "quality_gate.artifact_changed"
  {
  }

  /** The first version that cannot be locked decides. */
  lemma {:induction false} FirstObstacleMeans(db: Db, ids: seq<nat>, world: World)
    ensures FirstObstacle(db, ids, world).None? <==> forall i :: 0 <= i < |ids| ==> Lockable(db, ids[i], world)
    ensures FirstObstacle(db, ids, world).Some? ==>
              exists k :: 0 <= k < |ids| && Obstacle(db, ids[k], world) == FirstObstacle(db, ids, world)
                          && forall i :: 0 <= i < k ==> Lockable(db, ids[i], world)
  {
    if ids != [] {
      var n := |ids| - 1;
      var front := ids[..n];
      FirstObstacleMeans(db, front, world);
      ObstacleMeans(db, ids[n], world);
      if FirstObstacle(db, front, world).Some? {
        var k :| 0 <= k < |front| && Obstacle(db, front[k], world) == FirstObstacle(db, front, world)
                 && forall i :: 0 <= i < k ==> Lockable(db, front[i], world);
        ObstacleMeans(db, front[k], world);
        assert ids[k] == front[k] && forall i :: 0 <= i < k ==> ids[i] == front[i];
      } else {
        assert forall i :: 0 <= i < n ==> ids[i] == front[i];
      }
    }
  }

  /** A gate's run can be handed off now. */
  predicate Finishable(db: Db, r: nat)
    requires r < |db.runs|
  {
    && db.status == Running && db.stage == db.runs[r].stage
    && (db.runs[r].state == Checking || db.runs[r].state == WaitingApproval)
    && NextIsLocked(db.runs, r)
  }

  /** The records of a workflow whose stage has been handed off with a packet. */
  function HandedOn(db: Db, r: nat, handoff: Handoff): Db
    requires r < |db.runs| && NextIsLocked(db.runs, r)
  {
    db.(runs := Completing(db.runs, r), handoffs := db.handoffs + [handoff],
        status := if db.stage == 4 then Completed else Running, stage := if db.stage == 4 then 4 else db.stage + 1)
  }

  lemma {:induction false} WaitingHandsOff(db: Db, r: nat, handoff: Handoff)
    requires r < |db.runs| && db.runs[r].state == WaitingApproval
    ensures HandOff(db, r, handoff).Ok? <==> Finishable(db, r)
    ensures Finishable(db, r) ==> HandOff(db, r, handoff) == Ok(HandedOn(db, r, handoff))
  {
    if db.status == Running && db.stage == db.runs[r].stage {
      var ready := MoveStage(db, r, HandoffReady).value.(handoffs := db.handoffs + [handoff]);
      SameCompleting(db.runs, ready.runs, r, HandoffReady);
      CompletesIff(ready, r);
    }
  }

  lemma {:induction false} CheckingWaits(db: Db, r: nat)
    requires r < |db.runs| && db.runs[r].state == Checking
    ensures MoveStage(db, r, WaitingApproval)
            == if db.status != Running then Err("workflow.not_running")
               else if db.stage != db.runs[r].stage then Err("stage_run.not_current")
               else Ok(db.(runs := WithState(db.runs, r, WaitingApproval)))
  {
  }

  lemma {:induction false} CheckingFinishes(db: Db, r: nat, handoff: Handoff)
    requires r < |db.runs| && db.runs[r].state == Checking
    ensures Finish(db, r, handoff).Ok? <==> Finishable(db, r)
    ensures Finishable(db, r) ==> Finish(db, r, handoff) == Ok(HandedOn(db, r, handoff))
  {
    CheckingWaits(db, r);
    if db.status == Running && db.stage == db.runs[r].stage {
      var waiting := db.(runs := WithState(db.runs, r, WaitingApproval));
      SameCompleting(db.runs, waiting.runs, r, WaitingApproval);
      WaitingHandsOff(waiting, r, handoff);
    }
  }

  lemma {:induction false} FinishesIff(db: Db, r: nat, handoff: Handoff)
    requires r < |db.runs|
    ensures Finish(db, r, handoff).Ok? <==> Finishable(db, r)
    ensures Finishable(db, r) ==> Finish(db, r, handoff) == Ok(HandedOn(db, r, handoff))
  {
    if db.runs[r].state == Checking {
      CheckingFinishes(db, r, handoff);
    } else if db.runs[r].state == WaitingApproval {
      WaitingHandsOff(db, r, handoff);
    }
  }

  /** The versions of a packet locked with its checkpoint, all others as they were. */
  ghost predicate LockedWith(before: seq<Version>, after: seq<Version>, ids: seq<nat>, checkpoint: nat) {
    && |after| == |before|
    && forall v :: 0 <= v < |before| ==>
         after[v] == if v in ids then before[v].(status := LockedVersion, checkpoint := Some(checkpoint)) else before[v]
  }

  /**
   A gate is finished exactly when all its versions can be locked, a checkpoint can be captured and
   its run can be handed off; then the versions are locked with that checkpoint, one handoff names
   exactly them, and the next stage is opened or the workflow completed.
   */
  lemma {:induction false} FinalizesIff(db: Db, g: nat, world: World)
    requires g < |db.gates| && db.gates[g].run < |db.runs|
    ensures var gate, outcome := db.gates[g], Finalize(db, g, world);
            && (outcome.Ok? <==> && (forall i :: 0 <= i < |gate.versions| ==> Lockable(db, gate.versions[i], world))
                                 && world.capturable && Finishable(db, gate.run))
            && (outcome.Ok? ==>
                  var handoff := Handoff(g, gate.run, db.stage, gate.versions, db.checkpoints, true);
                  && LockedWith(db.versions, outcome.value.versions, gate.versions, db.checkpoints)
                  && outcome.value
                     == HandedOn(db, gate.run, handoff).(versions := outcome.value.versions,
                                                         checkpoints := db.checkpoints + 1))
  {
    var gate := db.gates[g];
    FirstObstacleMeans(db, gate.versions, world);
    FinishesIff(LockedFor(db, g), gate.run, PacketFor(db, g));
  }

  // ---------------------------------------------------------------------- the calls

  ghost predicate NoneRepeated(ids: seq<nat>) {
    forall i, j :: 0 <= i < j < |ids| ==> ids[i] != ids[j]
  }

  /** What an evaluation asks of its caller. */
  ghost predicate Evaluable(db: Db, r: nat, ids: seq<nat>, world: World) {
    && ids != [] && NoneRepeated(ids) && r < |db.runs| && db.stage == db.runs[r].stage && db.runs[r].state == Checking
    && Readable(db, r, ids, world)
  }

  lemma {:induction false} EvaluateIs(db: Db, r: nat, ids: seq<nat>, world: World)
    requires Evaluable(db, r, ids, world)
    ensures var gate := Judged(db, r, ids, world);
            EvaluateStep(db, r, ids, world)
            == match gate.resolution
               case Pending =>
                 (match MoveStage(Recorded(db, gate), r, WaitingApproval)
                  case Err(e) => Err(e)
                  case Ok(moved) =>
                    Ok(moved.(status := WaitingUser, approvals := moved.approvals + [Approval(|db.gates|, Undecided)])))
               case Automatic => Finalize(Recorded(db, gate), |db.gates|, world)
               case _ => Ok(SentBack(Recorded(db, gate), |db.gates|, if gate.status == Warning then WarningHeld else NeedsFix))
  {
    ReadableIff(db, r, ids, world);
  }

  lemma {:induction false} EvaluateRefuses(db: Db, r: nat, ids: seq<nat>, world: World)
    requires !Evaluable(db, r, ids, world)
    ensures EvaluateStep(db, r, ids, world).Err?
  {
    if r < |db.runs| { ReadableIff(db, r, ids, world); }
  }

  lemma {:induction false} UsableIsLockable(db: Db, r: nat, ids: seq<nat>, world: World)
    requires r < |db.runs| && forall i :: 0 <= i < |ids| ==> Usable(db, r, ids[i], world)
    ensures forall i :: 0 <= i < |ids| ==> Lockable(db, ids[i], world)
  {
  }

  /**
   An evaluation is accepted exactly when the request is in order and, if the gate does not send the
   stage back, the workflow is running and an automatic gate can be finished.
   */
  lemma {:induction false} EvaluatesIff(db: Db, r: nat, ids: seq<nat>, world: World)
    ensures EvaluateStep(db, r, ids, world).Ok?
            <==> && Evaluable(db, r, ids, world)
                 && (|| Blocked(db, r, ids, world)
                     || (Untested(db.runs[r].stage, world) && db.mode == Autonomous)
                     || (db.status == Running
                         && (db.mode == Autonomous ==> world.capturable && NextIsLocked(db.runs, r))))
  {
    if !Evaluable(db, r, ids, world) {
      EvaluateRefuses(db, r, ids, world);
    } else {
      var gate := Judged(db, r, ids, world);
      var recorded := Recorded(db, gate);
      EvaluateIs(db, r, ids, world);
      StatusMeans(db, r, ids, world);
      ResolutionMeans(db, r, ids, world);
      if gate.resolution == Automatic {
        UsableIsLockable(db, r, ids, world);
        FinalizesIff(recorded, |db.gates|, world);
      }
    }
  }

  /** A decision is accepted exactly when it is still open and, for an approval, the gate can be finished now. */
  lemma {:induction false} DecidesIff(db: Db, a: nat, approved: bool, world: World)
    ensures DecideStep(db, a, approved, world).Ok?
            <==> && a < |db.approvals| && db.approvals[a].decision == Undecided
                 && var g := db.approvals[a].gate;
                    && g < |db.gates| && db.gates[g].run < |db.runs| && db.gates[g].resolution == Pending
                    && var gate := db.gates[g];
                       && db.stage == db.runs[gate.run].stage && db.runs[gate.run].state == WaitingApproval
                       && (approved ==>
                             && gate.status != Fail && world.capturable && NextIsLocked(db.runs, gate.run)
                             && forall i :: 0 <= i < |gate.versions| ==> Lockable(db, gate.versions[i], world))
  {
    if a < |db.approvals| && db.approvals[a].gate < |db.gates| && db.gates[db.approvals[a].gate].run < |db.runs| {
      var decided := Decided(db, a, approved);
      FinalizesIff(decided, db.approvals[a].gate, world);
    }
  }

  /** The latest version of an artifact: none has a higher number. */
  ghost predicate IsLatest(versions: seq<Version>, artifact: nat, v: nat) {
    && v < |versions| && versions[v].artifact == artifact
    && forall i :: 0 <= i < |versions| && versions[i].artifact == artifact ==> versions[i].number <= versions[v].number
  }

  /** Registering the same content again: there is a latest version, still in use, that already has it. */
  ghost predicate AlreadyThere(versions: seq<Version>, artifact: nat, content: string) {
    var latest := Latest(versions, artifact);
    && latest.Some? && IsLatest(versions, artifact, latest.value)
    && versions[latest.value].content == content && versions[latest.value].status in {Draft, LockedVersion}
  }

  predicate Named(artifact: Artifact, stage: Stage, name: string) {
    artifact.stage == stage && artifact.name == name
  }

  /** The artifact a registration is about: the one of that name in the stage, the last if there were more, or a new one. */
  ghost predicate Names(artifacts: seq<Artifact>, stage: Stage, name: string, a: nat) {
    && a <= |artifacts| && (a < |artifacts| ==> Named(artifacts[a], stage, name))
    && forall i :: 0 <= i < |artifacts| && Named(artifacts[i], stage, name) ==> i <= a < |artifacts|
  }

  /** One version more, of a number one above the latest, which it supersedes unless that was withdrawn. */
  ghost predicate Versioned(before: seq<Version>, after: seq<Version>, artifact: nat, run: nat, content: string) {
    var latest := Latest(before, artifact);
    && |after| == |before| + 1
    && after[|before|] == Version(artifact, run, if latest == None then 1 else before[latest.value].number + 1, content, Draft,
                                  latest, None)
    && forall v :: 0 <= v < |before| ==>
         after[v] == if latest == Some(v) && before[v].status != Invalidated then before[v].(status := Superseded)
                     else before[v]
  }

  lemma {:induction false} AddVersionIs(versions: seq<Version>, artifact: nat, run: nat, content: string)
    ensures Versioned(versions, AddVersion(versions, NewVersion(versions, artifact, run, content)), artifact, run, content)
  {
  }

  /** Below the stage's own folder. */
  predicate InFolder(path: string, stage: Stage) {
    || (stage == 0 && ProjectPaths.Under(path, "artifacts/planner"))
    || (stage == 1 && ProjectPaths.Under(path, "artifacts/designer"))
    || (stage == 2 && ProjectPaths.Under(path, "artifacts/builder"))
    || (stage == 3 && ProjectPaths.Under(path, "artifacts/reviewer"))
    || (stage == 4 && ProjectPaths.Under(path, "artifacts/deployer"))
  }

  lemma {:induction false} InFolderIff(path: string, stage: Stage)
    ensures InFolder(path, stage) <==> ProjectPaths.Under(path, "artifacts/" + StageName(stage))
  {
    var head := "artifacts/";
    assert head + "planner" == "artifacts/planner" && head + "designer" == "artifacts/designer";
    assert head + "builder" == "artifacts/builder" && head + "reviewer" == "artifacts/reviewer";
    assert head + "deployer" == "artifacts/deployer";
  }

  /** What a registration asks of its caller; `a` is the artifact it is about. */
  predicate Registrable(db: Db, r: nat, name: string, path: string, world: World) {
    && r < |db.runs| && db.stage == db.runs[r].stage
    && db.runs[r].state in {Producing, Reviewing, Checking, NeedsFix}
    && InFolder(path, db.stage) && path in world.files
  }

  /** The name is in use for this very path, or can be taken for it. */
  predicate Fileable(artifacts: seq<Artifact>, a: nat, name: string, path: string) {
    if a < |artifacts| then artifacts[a].path == path
    else 1 <= |name| <= 160 && forall i :: 0 <= i < |artifacts| ==> artifacts[i].path != path
  }

  lemma {:induction false} FoundIs(artifacts: seq<Artifact>, stage: Stage, name: string, a: nat)
    requires Names(artifacts, stage, name, a)
    ensures FindArtifact(artifacts, stage, name) == if a < |artifacts| then Some(a) else None
  {
    if artifacts != [] {
      var n := |artifacts| - 1;
      if !Named(artifacts[n], stage, name) { FoundIs(artifacts[..n], stage, name, if a < |artifacts| then a else n); }
    }
  }

  lemma {:induction false} RegisteredIff(db: Db, r: nat, name: string, path: string, content: string, a: nat)
    requires r < |db.runs| && Names(db.artifacts, db.runs[r].stage, name, a)
    ensures Registered(db, r, name, path, content).Ok? <==> Fileable(db.artifacts, a, name, path)
  {
    FoundIs(db.artifacts, db.runs[r].stage, name, a);
  }

  /** What an accepted registration leaves. */
  ghost predicate Registers(db: Db, after: Db, r: nat, name: string, path: string, content: string, a: nat)
    requires r < |db.runs|
  {
    && after == db.(artifacts := after.artifacts, versions := after.versions)
    && after.artifacts
       == (if a < |db.artifacts| then db.artifacts else db.artifacts + [Artifact(db.runs[r].stage, name, path)])
    && if a < |db.artifacts| && AlreadyThere(db.versions, a, content) then after.versions == db.versions
       else Versioned(db.versions, after.versions, a, r, content)
  }

  lemma {:induction false} RegisteredIs(db: Db, r: nat, name: string, path: string, content: string, a: nat, after: Db)
    requires r < |db.runs| && Names(db.artifacts, db.runs[r].stage, name, a)
    requires Registered(db, r, name, path, content) == Ok(after)
    ensures Registers(db, after, r, name, path, content, a)
  {
    FoundIs(db.artifacts, db.runs[r].stage, name, a);
    AddVersionIs(db.versions, a, r, content);
  }

  /**
   A registration is accepted exactly when the stage is current and at work, the file is there below
   the stage's folder, and the name and the path belong together or are both free; then the artifact
   is there, and has a version of this content on top unless its latest one already is that.
   */
  lemma {:induction false} RegistersIff(db: Db, r: nat, name: string, path: string, world: World, a: nat)
    requires r < |db.runs| && Names(db.artifacts, db.runs[r].stage, PythonText.Strip(name), a)
    ensures var outcome, filed := CreateVersionStep(db, r, name, path, world), PythonText.Strip(name);
            && (outcome.Ok? <==> Registrable(db, r, name, path, world) && Fileable(db.artifacts, a, filed, path))
            && (outcome.Ok? ==> Registers(db, outcome.value, r, filed, path, world.files[path], a))
  {
    var filed, outcome := PythonText.Strip(name), CreateVersionStep(db, r, name, path, world);
    InFolderIff(path, db.stage);
    if Registrable(db, r, name, path, world) {
      RegisteredIff(db, r, filed, path, world.files[path], a);
      if outcome.Ok? { RegisteredIs(db, r, filed, path, world.files[path], a, outcome.value); }
    }
  }

  /** The folders of the stages, of which none lies in another: one path serves one stage. */
  lemma {:induction false} FoldersApart(path: string, stage: Stage, other: Stage)
    requires InFolder(path, stage) && InFolder(path, other)
    ensures stage == other
  {
    assert path[10] == StageName(stage)[0] == StageName(other)[0];
    assert path[12] == StageName(stage)[2] == StageName(other)[2];
  }

  // ------------------------------------------------------------ transitions and control

  /** A transition call is accepted exactly in a running workflow, or to resume a held stage. */
  lemma {:induction false} TransitionsIff(db: Db, stage: Stage, target: StageState, agentActive: bool)
    ensures var outcome, r := TransitionStep(db, stage, target, agentActive), Current(db.runs, stage);
            && (outcome.Ok?
                <==> && r.Some? && !agentActive && Allowed(db.runs[r.value].state, target) && db.stage == stage
                     && (db.status == Running
                         || (db.status == WarningBlocked && db.runs[r.value].state == WarningHeld && target == Discussing))
                     && (target == Done ==> NextIsLocked(db.runs, r.value)))
            && (outcome.Ok? ==>
                  outcome.value
                  == if target == Done
                     then db.(runs := Completing(db.runs, r.value), status := if stage == 4 then Completed else Running,
                              stage := if stage == 4 then 4 else stage + 1)
                     else db.(runs := db.runs[r.value := db.runs[r.value].(state := target)],
                              status := if target == Abandoned then WorkflowAbandoned
                                        else if target == Failed || target == Cancelled then WorkflowFailed else Running,
                              waved := if target == HandoffReady then db.waved + {r.value} else db.waved))
  {
    var r := Current(db.runs, stage);
    if r.Some? && target == Done && db.status == Running && db.stage == stage && db.runs[r.value].state != Locked {
      CompletesIff(db, r.value);
    }
  }

  /** What a stage's withdrawal leaves: the versions and handoffs of it and of later stages are no longer in use. */
  ghost predicate WithdrawnFrom(db: Db, after: Db, stage: Stage) {
    && |after.versions| == |db.versions| && |after.handoffs| == |db.handoffs|
    && (forall v :: 0 <= v < |db.versions| ==>
          var version := db.versions[v];
          after.versions[v] == if && version.artifact < |db.artifacts| && db.artifacts[version.artifact].stage >= stage
                                  && (version.status == Draft || version.status == LockedVersion)
                               then version.(status := Invalidated) else version)
    && forall h :: 0 <= h < |db.handoffs| ==>
         after.handoffs[h] == if db.handoffs[h].stage >= stage then db.handoffs[h].(active := false) else db.handoffs[h]
  }

  lemma {:induction false} WithdrawsFrom(db: Db, after: Db, stage: Stage)
    requires after.versions == Withdrawn(db.versions, db.artifacts, stage) && after.handoffs == Recalled(db.handoffs, stage)
    ensures WithdrawnFrom(db, after, stage)
  {
  }

  /** One new attempt for a stage, ready, and one for each later stage, locked; each counts on from the last one. */
  ghost predicate Reattempts(runs: seq<Run>, after: seq<Run>, stage: Stage) {
    && |after| == |runs| + 5 - stage && after[..|runs|] == runs
    && forall i :: |runs| <= i < |after| ==>
         var s := stage + i - |runs|; after[i] == Run(s, NextAttempt(runs, s), if s == stage then Ready else Locked)
  }

  function NextAttempt(runs: seq<Run>, stage: nat): nat {
    match Current(runs, stage)
    case None => 1
    case Some(r) => runs[r].attempt + 1
  }

  lemma {:induction false} NewRunIs(runs: seq<Run>, first: nat, from: nat, k: nat)
    requires first <= from <= 5 && k < 5 - from
    ensures |NewRuns(runs, first, from)| == 5 - from
    ensures NewRuns(runs, first, from)[k]
            == Run(from + k, NextAttempt(runs, from + k), if from + k == first then Ready else Locked)
    decreases 5 - from
  {
    if from < 4 { NewRunIs(runs, first, from + 1, if k == 0 then 0 else k - 1); }
  }

  lemma {:induction false} ReattemptsOf(runs: seq<Run>, stage: Stage)
    ensures Reattempts(runs, runs + NewRuns(runs, stage, stage), stage)
  {
    var added := NewRuns(runs, stage, stage);
    var after := runs + added;
    NewRunIs(runs, stage, stage, 0);
    forall i | |runs| <= i < |after|
      ensures var s := stage + i - |runs|; after[i] == Run(s, NextAttempt(runs, s), if s == stage then Ready else Locked)
    {
      NewRunIs(runs, stage, stage, i - |runs|);
      assert after[i] == added[i - |runs|];
    }
  }

  /** A stage is reopened exactly when its current attempt is completed and no agent is at work on it. */
  lemma {:induction false} ReopensIff(db: Db, stage: Stage, agentActive: bool, world: World)
    ensures var outcome, r := Apply(db, Reopen(stage, agentActive), world), Current(db.runs, stage);
            && (outcome.Ok? <==> !agentActive && r.Some? && db.runs[r.value].state == Done)
            && (outcome.Ok? ==>
                  var after := outcome.value;
                  && after == db.(status := Running, stage := stage, runs := after.runs, versions := after.versions,
                                  handoffs := after.handoffs)
                  && Reattempts(db.runs, after.runs, stage) && WithdrawnFrom(db, after, stage))
  {
    var outcome := Apply(db, Reopen(stage, agentActive), world);
    ReattemptsOf(db.runs, stage);
    if outcome.Ok? { WithdrawsFrom(db, outcome.value, stage); }
  }

  /** A change is requested of a stage up to the current one; it names what the caller names. */
  lemma {:induction false} RequestsIff(db: Db, target: Stage, ids: seq<nat>, world: World)
    ensures var outcome, r := Apply(db, RequestChange(target, ids), world), Current(db.runs, db.stage);
            && (outcome.Ok? <==> target <= db.stage && r.Some?)
            && (outcome.Ok? ==>
                  var after := outcome.value;
                  && after == db.(changes := db.changes + [ChangeRequest(None, r.value, target, ids)],
                                  versions := after.versions, handoffs := after.handoffs)
                  && WithdrawnFrom(db, after, target))
  {
    var outcome := Apply(db, RequestChange(target, ids), world);
    if outcome.Ok? { WithdrawsFrom(db, outcome.value, target); }
  }

  /** Only a workflow that was just created is started, and only its status changes. */
  lemma {:induction false} StartMeans(db: Db, world: World)
    ensures Apply(db, Start, world)
            == if db.status == Created then Ok(db.(status := Running)) else Err("workflow.already_started")
  {
  }

  /** The mode can be chosen, and nothing else changes, unless the workflow has ended. */
  lemma {:induction false} ModeMeans(db: Db, mode: Mode, world: World)
    ensures Apply(db, SetMode(mode), world).Ok? <==> db.status !in {Completed, Stopped, WorkflowAbandoned, WorkflowFailed}
    ensures Apply(db, SetMode(mode), world).Ok? ==> Apply(db, SetMode(mode), world).value == db.(mode := mode)
  {
  }

  /** A workflow under way can be paused, and only a paused one resumed; nothing but the status changes. */
  lemma {:induction false} ControlMeans(db: Db, world: World)
    ensures Apply(db, Pause, world).Ok? <==> db.status == Running || db.status == WaitingUser || db.status == WarningBlocked
    ensures Apply(db, Pause, world).Ok? ==> Apply(db, Pause, world).value == db.(status := Paused)
    ensures Apply(db, Resume, world)
            == if db.status == Paused then Ok(db.(status := Running)) else Err("workflow.not_resumable")
  {
  }

  /** Stopping and abandoning end the current attempt with the workflow, unless it already ended. */
  lemma {:induction false} EndingMeans(db: Db, world: World, stop: bool)
    ensures var outcome, r := Apply(db, if stop then Stop else Abandon, world), Current(db.runs, db.stage);
            && (outcome.Ok? <==> db.status !in {Completed, Stopped, WorkflowAbandoned})
            && (outcome.Ok? ==>
                  outcome.value
                  == db.(status := if stop then Stopped else WorkflowAbandoned,
                         runs := if r.None? then db.runs
                                 else db.runs[r.value := db.runs[r.value].(state := if stop then Cancelled else Abandoned)]))
  {
  }

  // -------------------------------------------------------------------- refusal codes

  /** Under which code a registration is refused: the first of these that applies. */
  lemma {:induction false} RegistrationRefused(db: Db, r: nat, name: string, path: string, world: World, a: nat)
    requires r < |db.runs| ==> Names(db.artifacts, db.runs[r].stage, PythonText.Strip(name), a)
    ensures var outcome, filed := CreateVersionStep(db, r, name, path, world), PythonText.Strip(name);
            && (r >= |db.runs| <==> outcome == Err("stage_run.not_found"))
            && (r < |db.runs| ==>
                  var current, atWork := db.stage == db.runs[r].stage,
                                         db.runs[r].state in {Producing, Reviewing, Checking, NeedsFix};
                  && (!current <==> outcome == Err("artifact.stage_not_current"))
                  && (current && !atWork <==> outcome == Err("artifact.stage_not_producing"))
                  && (current && atWork && !InFolder(path, db.stage) <==> outcome == Err("artifact.path_out_of_scope"))
                  && (current && atWork && InFolder(path, db.stage) && path !in world.files <==> outcome == Err("file.not_found"))
                  && (Registrable(db, r, name, path, world) && a < |db.artifacts| && db.artifacts[a].path != path
                      <==> outcome == Err("artifact.path_conflict"))
                  && (Registrable(db, r, name, path, world) && a == |db.artifacts| && !(1 <= |filed| <= 160)
                      <==> outcome == Err("artifact name is invalid"))
                  && (Registrable(db, r, name, path, world) && a == |db.artifacts| && 1 <= |filed| <= 160
                      && !Fileable(db.artifacts, a, filed, path)
                      <==> outcome == Err("uq_artifacts_workflow_path")))
  {
    if r < |db.runs| {
      InFolderIff(path, db.stage);
      FoundIs(db.artifacts, db.runs[r].stage, PythonText.Strip(name), a);
    }
  }

  /** Under which code an evaluation is refused before the gate is judged. */
  lemma {:induction false} EvaluationRefused(db: Db, r: nat, ids: seq<nat>, world: World)
    ensures var outcome, named := EvaluateStep(db, r, ids, world), ids != [] && NoneRepeated(ids);
            && (!named ==> outcome == Err("quality_gate.artifacts_invalid"))
            && (named && r >= |db.runs| ==> outcome == Err("stage_run.not_found"))
            && (named && r < |db.runs| ==>
                  var current, checking := db.stage == db.runs[r].stage, db.runs[r].state == Checking;
                  && (!current ==> outcome == Err("stage_run.not_current"))
                  && (current && !checking ==> outcome == Err("quality_gate.stage_not_checking"))
                  && (current && checking && !Readable(db, r, ids, world) ==> outcome == Err("file.not_found")))
  {
    if r < |db.runs| { ReadableIff(db, r, ids, world); }
  }

  /** Under which code a decision is refused before its gate is finished. */
  lemma {:induction false} DecisionRefused(db: Db, a: nat, approved: bool, world: World)
    ensures var outcome := DecideStep(db, a, approved, world);
            && (a >= |db.approvals| ==> outcome == Err("approval.not_found"))
            && (a < |db.approvals| ==>
                  var approval := db.approvals[a];
                  && (approval.gate >= |db.gates| || db.gates[approval.gate].run >= |db.runs| ==>
                        outcome == Err("quality gate approval target is missing"))
                  && (approval.gate < |db.gates| && db.gates[approval.gate].run < |db.runs| ==>
                        var gate := db.gates[approval.gate];
                        var current, waiting, open := db.stage == db.runs[gate.run].stage,
                                                      db.runs[gate.run].state == WaitingApproval,
                                                      approval.decision == Undecided;
                        && (!current ==> outcome == Err("stage_run.not_current"))
                        && (current && !waiting ==> outcome == Err("approval.stage_not_waiting"))
                        && (current && waiting && !open ==> outcome == Err("approval.already_decided"))
                        && (current && waiting && open && approved && gate.status == Fail ==>
                              outcome == Err("approval.gate_failed"))
                        && (current && waiting && open && !(approved && gate.status == Fail) && gate.resolution != Pending ==>
                              outcome == Err("quality_gate.already_resolved"))))
  {
  }

  /** Under which code a gate that is due is not finished: the first version that cannot be locked, or the rest. */
  lemma {:induction false} FinishRefused(db: Db, g: nat, world: World)
    requires g < |db.gates| && db.gates[g].run < |db.runs|
    ensures var gate, outcome := db.gates[g], Finalize(db, g, world);
            if exists k :: 0 <= k < |gate.versions| && !Lockable(db, gate.versions[k], world)
            then exists first :: 0 <= first < |gate.versions|
                                 && (forall i :: 0 <= i < first ==> Lockable(db, gate.versions[i], world))
                                 && Obstacle(db, gate.versions[first], world).Some?
                                 && outcome == Err(Obstacle(db, gate.versions[first], world).value)
            else !world.capturable ==> outcome == Err("checkpoint")
  {
    FirstObstacleMeans(db, db.gates[g].versions, world);
  }

  /** Under which code a transition or a reopening is refused before the stage is moved. */
  lemma {:induction false} MoveRefused(db: Db, stage: Stage, target: StageState, agentActive: bool, world: World)
    ensures var moved, reopened, r := Apply(db, Transition(stage, target, agentActive), world),
                                      Apply(db, Reopen(stage, agentActive), world), Current(db.runs, stage);
            && (r.None? ==> moved == Err("stage_run.not_found"))
            && (r.Some? && agentActive ==> moved == Err("stage_run.agent_run_active"))
            && (r.Some? && !agentActive && !Allowed(db.runs[r.value].state, target) ==>
                  moved == Err("stage_run.invalid_transition"))
            && (agentActive ==> reopened == Err("stage_run.agent_run_active"))
            && (!agentActive && (r.Some? ==> db.runs[r.value].state != Done) ==>
                  reopened == Err("stage_run.reopen_requires_completion"))
  {
  }

  /** Under which code a stage is not moved. */
  lemma {:induction false} MoveStageRefused(db: Db, r: nat, target: StageState)
    requires r < |db.runs|
    ensures var outcome, state := MoveStage(db, r, target), db.runs[r].state;
            var running := db.status == Running || (db.status == WarningBlocked && state == WarningHeld && target == Discussing);
            && (!running ==> outcome == Err("workflow.not_running"))
            && (running && db.stage != db.runs[r].stage ==> outcome == Err("stage_run.not_current"))
            && (running && db.stage == db.runs[r].stage && state == Locked ==> outcome == Err("stage_run.locked"))
            && (running && db.stage == db.runs[r].stage && state != Locked && target == Done && !NextIsLocked(db.runs, r) ==>
                  outcome == Err("next stage run is missing or not locked"))
  {
    CurrentUnmoved(db.runs, r, target, db.runs[r].stage + 1);
  }

  /** Under which code the other calls are refused. */
  lemma {:induction false} ControlRefused(db: Db, world: World, mode: Mode, target: Stage, ids: seq<nat>)
    ensures Apply(db, Pause, world).Err? ==> Apply(db, Pause, world).error == "workflow.not_pausable"
    ensures Apply(db, SetMode(mode), world).Err? ==> Apply(db, SetMode(mode), world).error == "workflow.terminal"
    ensures Apply(db, Stop, world).Err? ==> Apply(db, Stop, world).error == "workflow.terminal"
    ensures Apply(db, Abandon, world).Err? ==> Apply(db, Abandon, world).error == "workflow.terminal"
    ensures target > db.stage ==> Apply(db, RequestChange(target, ids), world) == Err("change_request.target_invalid")
    ensures target <= db.stage && Current(db.runs, db.stage).None? ==>
              Apply(db, RequestChange(target, ids), world) == Err("current stage run is missing")
  {
  }
}
