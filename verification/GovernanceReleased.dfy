/**
 The last stage hands off to nobody, and completing it does not close its earlier attempts. This
 module says which call can still unlock a version that an active handoff holds, when none does,
 and gives a run in which one does.
 */
module GovernanceReleased {
  import opened Wrappers
  import opened GovernanceState
  import opened GovernanceGates
  import opened GovernanceArtifacts
  import opened GovernanceStages
  import opened GovernanceOrder
  import opened GovernanceHandoffs
  import opened GovernanceOvertaken
  import ProjectPaths
  import PythonText

  /** A registration of new content for an artifact whose latest version the handoff holds. */
  predicate Supersedes(db: Db, step: Step, world: World, handoff: Handoff) {
    && step.CreateVersion? && step.run < |db.runs|
    && var run := db.runs[step.run];
       var found := FindArtifact(db.artifacts, run.stage, PythonText.Strip(step.name));
       && db.stage == run.stage && run.state in {Producing, Reviewing, Checking, NeedsFix}
       && ProjectPaths.Under(step.path, "artifacts/" + StageName(run.stage)) && step.path in world.files
       && found.Some? && db.artifacts[found.value].path == step.path
       && var latest := Latest(db.versions, found.value);
          && latest.Some? && latest.value in handoff.versions
          && db.versions[latest.value].content != world.files[step.path]
  }

  /** The handoff is still active, but one of its versions is no longer locked. */
  ghost predicate Unlocked(after: Db, h: nat) {
    h < |after.handoffs| && after.handoffs[h].active && !AllLocked(after.versions, after.handoffs[h].versions)
  }

  // ------------------------------------------------------------------ each call

  lemma LockingUnlocksNothing(versions: seq<Version>, locked: seq<nat>, checkpoint: nat, ids: seq<nat>)
    requires AllLocked(versions, ids)
    ensures AllLocked(LockedAt(versions, locked, checkpoint), ids)
  {
  }

  lemma EvaluateUnlocksNothing(db: Db, r: nat, ids: seq<nat>, world: World, h: nat, after: Db)
    requires h < |db.handoffs| && AllLocked(db.versions, db.handoffs[h].versions)
    requires EvaluateStep(db, r, ids, world) == Ok(after)
    ensures !Unlocked(after, h)
  {
    var gate := Judged(db, r, ids, world);
    EvaluateAddsOne(db, r, ids, world, after);
    LockingUnlocksNothing(db.versions, gate.versions, db.checkpoints, db.handoffs[h].versions);
  }

  lemma DecideUnlocksNothing(db: Db, a: nat, approved: bool, world: World, h: nat, after: Db)
    requires h < |db.handoffs| && AllLocked(db.versions, db.handoffs[h].versions)
    requires DecideStep(db, a, approved, world) == Ok(after)
    ensures !Unlocked(after, h)
  {
    DecideRecordsOne(db, a, approved, world, after);
    LockingUnlocksNothing(db.versions, db.gates[db.approvals[a].gate].versions, db.checkpoints, db.handoffs[h].versions);
  }

  lemma WithdrawalUnlocksNothing(db: Db, from: nat, h: nat, after: Db)
    requires h < |db.handoffs| && AllLocked(db.versions, db.handoffs[h].versions)
    requires AllMadeIn(db.artifacts, db.versions, db.handoffs[h].versions, db.handoffs[h].stage)
    requires after.versions == Withdrawn(db.versions, db.artifacts, from) && after.handoffs == Recalled(db.handoffs, from)
    ensures !Unlocked(after, h)
  {
    var ids := db.handoffs[h].versions;
    if db.handoffs[h].stage < from {
      forall i | 0 <= i < |ids| ensures after.versions[ids[i]].status == LockedVersion {
        assert MadeIn(db.artifacts, db.versions, ids[i], db.handoffs[h].stage);
      }
    }
  }

  lemma AddingUnlocks(versions: seq<Version>, version: Version, ids: seq<nat>)
    requires AllLocked(versions, ids)
    ensures var latest := Latest(versions, version.artifact);
            AllLocked(AddVersion(versions, version), ids) <==> !(latest.Some? && latest.value in ids)
  {
    var latest, after := Latest(versions, version.artifact), AddVersion(versions, version);
    if latest.Some? && latest.value in ids {
      var i :| 0 <= i < |ids| && ids[i] == latest.value;
      assert versions[ids[i]].status == LockedVersion && after[ids[i]].status == Superseded;
    } else {
      forall i | 0 <= i < |ids| ensures ids[i] < |after| && after[ids[i]].status == LockedVersion {
        assert ids[i] in ids && versions[ids[i]].status == LockedVersion;
      }
    }
  }

  lemma LatestLocked(versions: seq<Version>, ids: seq<nat>, artifact: nat)
    requires AllLocked(versions, ids) && Latest(versions, artifact).Some? && Latest(versions, artifact).value in ids
    ensures versions[Latest(versions, artifact).value].status == LockedVersion
  {
    var i :| 0 <= i < |ids| && ids[i] == Latest(versions, artifact).value;
  }

  /** A first version of a new artifact supersedes nothing that is on record. */
  lemma NewArtifactUnlocksNothing(db: Db, h: nat)
    requires h < |db.handoffs| && AllMadeIn(db.artifacts, db.versions, db.handoffs[h].versions, db.handoffs[h].stage)
    ensures var latest := Latest(db.versions, |db.artifacts|);
            !(latest.Some? && latest.value in db.handoffs[h].versions)
  {
    var latest, ids := Latest(db.versions, |db.artifacts|), db.handoffs[h].versions;
    if latest.Some? {
      forall i | 0 <= i < |ids| ensures ids[i] != latest.value {
        assert MadeIn(db.artifacts, db.versions, ids[i], db.handoffs[h].stage);
      }
    }
  }

  lemma CreateUnlocksIff(db: Db, r: nat, name: string, path: string, world: World, h: nat)
    requires h < |db.handoffs| && db.handoffs[h].active && AllLocked(db.versions, db.handoffs[h].versions)
    requires AllMadeIn(db.artifacts, db.versions, db.handoffs[h].versions, db.handoffs[h].stage)
    ensures var step := CreateVersion(r, name, path);
            Unlocked(Next(db, step, world), h) <==> Supersedes(db, step, world, db.handoffs[h])
  {
    var ids, outcome := db.handoffs[h].versions, CreateVersionStep(db, r, name, path, world);
    if outcome.Ok? {
      var found, content := FindArtifact(db.artifacts, db.runs[r].stage, PythonText.Strip(name)), world.files[path];
      var artifact := if found == None then |db.artifacts| else found.value;
      var latest := Latest(db.versions, artifact);
      if found == None { NewArtifactUnlocksNothing(db, h); }
      if latest.Some? && latest.value in ids { LatestLocked(db.versions, ids, artifact); }
      if outcome.value != db {
        AddingUnlocks(db.versions, NewVersion(db.versions, artifact, r, content), ids);
      }
    }
  }

  /** No other call unlocks a version of an active handoff, and such a registration does. */
  lemma UnlockedIff(db: Db, step: Step, world: World, h: nat)
    requires h < |db.handoffs| && db.handoffs[h].active && AllLocked(db.versions, db.handoffs[h].versions)
    requires AllMadeIn(db.artifacts, db.versions, db.handoffs[h].versions, db.handoffs[h].stage)
    ensures Unlocked(Next(db, step, world), h) <==> Supersedes(db, step, world, db.handoffs[h])
  {
    var outcome := Apply(db, step, world);
    match step
    case CreateVersion(r, name, path) => CreateUnlocksIff(db, r, name, path, world, h);
    case Evaluate(r, ids) => if outcome.Ok? { EvaluateUnlocksNothing(db, r, ids, world, h, outcome.value); }
    case Decide(a, approved) => if outcome.Ok? { DecideUnlocksNothing(db, a, approved, world, h, outcome.value); }
    case Reopen(stage, _) => if outcome.Ok? { WithdrawalUnlocksNothing(db, stage, h, outcome.value); }
    case RequestChange(from, _) => if outcome.Ok? { WithdrawalUnlocksNothing(db, from, h, outcome.value); }
    case _ => if outcome.Ok? { OtherVersions(db, step, world, outcome.value); }
  }

  // -------------------------------------------------------------------- whole runs

  /** The stage run a call works on, if the call names one. */
  function WorkedOn(db: Db, step: Step): Option<nat> {
    if step.CreateVersion? then Some(step.run) else GateRun(db, step)
  }

  predicate WorksOnCurrent(db: Db, step: Step) {
    WorkedOn(db, step).Some? ==> WorkedOn(db, step) == Current(db.runs, db.stage)
  }

  ghost predicate AlwaysWorksOnCurrent(db: Db, steps: seq<Step>, worlds: seq<World>)
    requires |steps| == |worlds|
    decreases |steps|
  {
    steps == []
    || (WorksOnCurrent(db, steps[0]) && AlwaysWorksOnCurrent(Next(db, steps[0], worlds[0]), steps[1..], worlds[1..]))
  }

  /**
   Every active handoff holds its versions locked and is the only one of its stage, and the last
   stage's stands for a completed workflow.
   */
  ghost predicate Released(db: Db) {
    && SoundHandoffs(db) && Orderly(db) && OneEach(db.handoffs)
    && (forall h :: 0 <= h < |db.handoffs| && db.handoffs[h].active ==>
          && AllLocked(db.versions, db.handoffs[h].versions)
          && (db.handoffs[h].stage == STAGES - 1 ==> db.status == Completed))
  }

  ghost predicate OneEach(handoffs: seq<Handoff>) {
    forall i, j :: 0 <= i < j < |handoffs| && handoffs[i].active && handoffs[j].active ==>
                     handoffs[i].stage != handoffs[j].stage
  }

  lemma CurrentSupersedesNothing(db: Db, step: Step, world: World, h: nat)
    requires Released(db) && WorksOnCurrent(db, step) && h < |db.handoffs| && db.handoffs[h].active
    ensures !Supersedes(db, step, world, db.handoffs[h])
  {
    var handoff := db.handoffs[h];
    assert HandoffHolds(db.artifacts, db.versions, db.stage, handoff);
    assert Stands(db.runs, db.stage, db.stage, db.status);
    forall v | v in handoff.versions ensures MadeIn(db.artifacts, db.versions, v, handoff.stage) {
      var i :| 0 <= i < |handoff.versions| && handoff.versions[i] == v;
    }
  }

  /** What a call does to the list of handoffs: it withdraws some or adds one for the gate it settled. */
  lemma HandoffsAfter(db: Db, step: Step, world: World, h: nat)
    requires h < |Next(db, step, world).handoffs|
    ensures h < |db.handoffs| ==>
              var was, now := db.handoffs[h], Next(db, step, world).handoffs[h];
              was.versions == now.versions && was.stage == now.stage && (now.active ==> was.active)
  {
    var outcome := Apply(db, step, world);
    if outcome.Ok? {
      match step
      case Evaluate(r, ids) => EvaluateAddsOne(db, r, ids, world, outcome.value);
      case Decide(a, approved) => DecideRecordsOne(db, a, approved, world, outcome.value);
      case Reopen(_, _) =>
      case RequestChange(_, _) =>
      case CreateVersion(_, _, _) =>
      case _ => OtherVersions(db, step, world, outcome.value);
    }
  }

  lemma FinalizedLocked(db: Db, g: nat, world: World, after: Db)
    requires g < |db.gates| && db.gates[g].run < |db.runs| && Finalize(db, g, world) == Ok(after)
    ensures |after.handoffs| == |db.handoffs| + 1
    ensures var handoff := after.handoffs[|db.handoffs|];
            && AllLocked(after.versions, handoff.versions) && handoff.stage == db.stage
            && (handoff.stage == STAGES - 1 ==> after.status == Completed)
  {
    var ids := db.gates[g].versions;
    FinalizeFrame(db, g, world, after);
    FinishMovesOn(LockedFor(db, g), db.gates[g].run, PacketFor(db, g), after);
    DraftsOnly(db, ids, world);
    assert forall i :: 0 <= i < |ids| ==> ids[i] in ids;
  }

  /** The handoff a call adds holds its versions locked, and the last one completes the workflow. */
  lemma AddedLocked(db: Db, step: Step, world: World)
    requires |Next(db, step, world).handoffs| > |db.handoffs|
    ensures var after := Next(db, step, world);
            && |after.handoffs| == |db.handoffs| + 1 && after.handoffs[|db.handoffs|].stage == db.stage
            && AllLocked(after.versions, after.handoffs[|db.handoffs|].versions)
            && (after.handoffs[|db.handoffs|].stage == STAGES - 1 ==> after.status == Completed)
  {
    var after := Next(db, step, world);
    OnlyGatesHandOff(db, step, world);
    match step
    case Evaluate(r, ids) =>
      EvaluateAddsOne(db, r, ids, world, after);
      var recorded := Recorded(db, Judged(db, r, ids, world));
      assert Finalize(recorded, |db.gates|, world) == Ok(after);
      FinalizedLocked(recorded, |db.gates|, world, after);
    case Decide(a, approved) =>
      if approved {
        ApprovalFinalizes(db, a, world, after);
        FinalizedLocked(Decided(db, a, approved), db.approvals[a].gate, world, after);
      } else {
        RejectionSendsBack(db, a, world, after);
      }
  }

  /** A completed workflow whose last attempt is finished is only opened again by reopening a stage. */
  lemma StaysCompleted(db: Db, step: Step, world: World)
    requires Orderly(db) && db.status == Completed && WorksOnCurrent(db, step) && !step.Reopen?
    ensures Next(db, step, world).status == Completed
  {
    assert Stands(db.runs, db.stage, db.stage, db.status);
  }

  lemma CompletedHandsOffNothing(db: Db, step: Step, world: World)
    requires Orderly(db) && db.status == Completed && WorksOnCurrent(db, step)
    ensures |Next(db, step, world).handoffs| <= |db.handoffs|
  {
    assert Stands(db.runs, db.stage, db.stage, db.status);
    if |Next(db, step, world).handoffs| > |db.handoffs| {
      OnlyGatesHandOff(db, step, world);
    }
  }

  lemma NoneOfThisStage(db: Db, h: nat)
    requires Released(db) && db.status != Completed && h < |db.handoffs| && db.handoffs[h].active
    ensures db.handoffs[h].stage != db.stage
  {
    assert HandoffHolds(db.artifacts, db.versions, db.stage, db.handoffs[h]);
  }

  lemma OneEachAdded(was: seq<Handoff>, now: seq<Handoff>, stage: nat)
    requires OneEach(was) && |now| <= |was| + 1
    requires forall h :: 0 <= h < |now| && h < |was| ==> now[h].stage == was[h].stage && (now[h].active ==> was[h].active)
    requires |now| == |was| + 1 ==>
               now[|was|].stage == stage && forall h :: 0 <= h < |was| && was[h].active ==> was[h].stage != stage
    ensures OneEach(now)
  {
  }

  /** A new handoff is of the workflow's own stage, which no active one is of. */
  lemma {:induction false} StillOneEach(db: Db, step: Step, world: World, now: seq<Handoff>)
    requires Released(db) && WorksOnCurrent(db, step) && now == Next(db, step, world).handoffs
    ensures OneEach(now)
  {
    forall h | 0 <= h < |now| && h < |db.handoffs|
      ensures now[h].stage == db.handoffs[h].stage && (now[h].active ==> db.handoffs[h].active)
    {
      HandoffsAfter(db, step, world, h);
    }
    if |now| > |db.handoffs| {
      AddedLocked(db, step, world);
      if db.status == Completed { CompletedHandsOffNothing(db, step, world); }
      forall h | 0 <= h < |db.handoffs| && db.handoffs[h].active ensures db.handoffs[h].stage != db.stage {
        NoneOfThisStage(db, h);
      }
    }
    OneEachAdded(db.handoffs, now, db.stage);
  }

  lemma ReopenRecallsLast(db: Db, step: Step, world: World, h: nat)
    requires step.Reopen? && Apply(db, step, world).Ok? && h < |db.handoffs|
    ensures h < |Next(db, step, world).handoffs|
    ensures Next(db, step, world).handoffs[h].active ==> db.handoffs[h].stage < STAGES - 1
  {
  }

  /** An active handoff after a call on a current attempt: an old one, or the one the call adds. */
  lemma {:induction false} ReleasedAt(db: Db, step: Step, world: World, h: nat)
    requires Released(db) && WorksOnCurrent(db, step)
    requires h < |Next(db, step, world).handoffs| && Next(db, step, world).handoffs[h].active
    ensures var after := Next(db, step, world);
            && AllLocked(after.versions, after.handoffs[h].versions)
            && (after.handoffs[h].stage == STAGES - 1 ==> after.status == Completed)
  {
    if h < |db.handoffs| {
      HandoffsAfter(db, step, world, h);
      OldReleased(db, step, world, h);
    } else {
      AddedLocked(db, step, world);
      assert h == |db.handoffs|;
    }
  }

  lemma {:induction false} NextReleased(db: Db, step: Step, world: World)
    requires Released(db) && WorksOnCurrent(db, step)
    ensures Released(Next(db, step, world))
  {
    var after := Next(db, step, world);
    NextHandoffs(db, step, world);
    NextOrderly(db, step, world);
    StillOneEach(db, step, world, after.handoffs);
    forall h | 0 <= h < |after.handoffs| && after.handoffs[h].active
      ensures AllLocked(after.versions, after.handoffs[h].versions)
              && (after.handoffs[h].stage == STAGES - 1 ==> after.status == Completed)
    {
      ReleasedAt(db, step, world, h);
    }
  }

  lemma {:induction false} OldReleased(db: Db, step: Step, world: World, h: nat)
    requires Released(db) && WorksOnCurrent(db, step) && h < |db.handoffs| && db.handoffs[h].active
    requires var after := Next(db, step, world);
             h < |after.handoffs| && after.handoffs[h].active && after.handoffs[h].versions == db.handoffs[h].versions
             && after.handoffs[h].stage == db.handoffs[h].stage
    ensures var after := Next(db, step, world);
            && AllLocked(after.versions, after.handoffs[h].versions)
            && (after.handoffs[h].stage == STAGES - 1 ==> after.status == Completed)
  {
    assert HandoffHolds(db.artifacts, db.versions, db.stage, db.handoffs[h]);
    CurrentSupersedesNothing(db, step, world, h);
    UnlockedIff(db, step, world, h);
    if db.handoffs[h].stage == STAGES - 1 {
      if step.Reopen? && Apply(db, step, world).Ok? {
        ReopenRecallsLast(db, step, world, h);
      } else if !step.Reopen? {
        StaysCompleted(db, step, world);
      }
    }
  }

  lemma {:induction false} RunReleased(db: Db, steps: seq<Step>, worlds: seq<World>)
    requires Released(db) && |steps| == |worlds| && AlwaysWorksOnCurrent(db, steps, worlds)
    ensures Released(RunAll(db, steps, worlds))
    decreases |steps|
  {
    if steps != [] {
      NextReleased(db, steps[0], worlds[0]);
      RunReleased(Next(db, steps[0], worlds[0]), steps[1..], worlds[1..]);
    }
  }

  /**
   So in a run of calls that work on current attempts only, what an active handoff holds stays
   locked, and no other active handoff is of its stage.
   */
  lemma HandoffsStayLocked(steps: seq<Step>, worlds: seq<World>, h: nat, k: nat)
    requires |steps| == |worlds| && AlwaysWorksOnCurrent(Fresh(), steps, worlds)
    requires h < |RunAll(Fresh(), steps, worlds).handoffs| && RunAll(Fresh(), steps, worlds).handoffs[h].active
    ensures var db := RunAll(Fresh(), steps, worlds);
            && AllLocked(db.versions, db.handoffs[h].versions)
            && (k < |db.handoffs| && k != h && db.handoffs[k].active ==> db.handoffs[k].stage != db.handoffs[h].stage)
  {
    forall s: nat | s < STAGES ensures Stands(Fresh().runs, s, 0, Created) { FreshCurrent(Fresh().runs, s); }
    RunReleased(Fresh(), steps, worlds);
  }

  // --------------------------------------------------- a run in which one is unlocked

  /** Two attempts at the reviewer and the deployer stage; the first deployer attempt is still being checked. */
  function TwiceRuns(reviewer: StageState, deployer: StageState): seq<Run> {
    [Run(0, 1, Done), Run(1, 1, Done), Run(2, 1, Done), Run(3, 1, Done), Run(4, 1, Checking), Run(3, 2, reviewer),
     Run(4, 2, deployer)]
  }

  lemma TwiceCurrent(runs: seq<Run>, s: Stage)
    requires |runs| == 7 && forall q :: 0 <= q < 7 ==> SameRun(TwiceRuns(Ready, Locked)[q], runs[q])
    ensures Current(runs, s) == Some(if s < 3 then s else s + 2)
  {
    var c := if s < 3 then s else s + 2;
    forall q | 0 <= q < 7
      ensures runs[q].stage == (if q < 5 then q else q - 2) && runs[q].attempt == if q < 5 then 1 else 2
    {
      assert SameRun(TwiceRuns(Ready, Locked)[q], runs[q]);
    }
    assert IsCurrent(runs, c);
    CurrentUnique(runs, c);
  }

  function ReviewerReopened(): Db {
    Db(Running, Manual, 3, TwiceRuns(Ready, Locked), [], [], [], [], [], [], 0, {0, 1, 2, 3})
  }

  lemma {:induction false} ReviewerNewRuns(runs: seq<Run>)
    requires |runs| == 5 && forall q :: 0 <= q < 5 ==> SameRun(Fresh().runs[q], runs[q])
    ensures NewRuns(runs, 3, 3) == [Run(3, 2, Ready), Run(4, 2, Locked)]
  {
    FreshCurrent(runs, 3);
    FreshCurrent(runs, 4);
    assert SameRun(Fresh().runs[3], runs[3]) && SameRun(Fresh().runs[4], runs[4]);
    assert NewRuns(runs, 3, 5) == [];
    assert NewRuns(runs, 3, 4) == [Run(4, 2, Locked)] + NewRuns(runs, 3, 5);
  }

  lemma FourWaved()
    ensures Before(4) == {0, 1, 2, 3}
  {
    assert Before(4) == Before(3) + {3} && Before(3) == Before(2) + {2} && Before(2) == Before(1) + {1};
  }

  lemma {:induction false} ReviewerReopens(db: Db)
    requires db == Put(Progress(4), 4, Checking)
    ensures Next(db, Reopen(3, false), Settled()) == ReviewerReopened()
  {
    FourWaved();
    FreshCurrent(db.runs, 3);
    ReviewerNewRuns(db.runs);
    assert db.runs + NewRuns(db.runs, 3, 3) == TwiceRuns(Ready, Locked);
    assert Withdrawn([], [], 3) == [] && Recalled([], 3) == [];
  }

  lemma {:induction false} ReviewerReopenedReached()
    ensures Reaches(Fresh(), ReviewerReopened())
  {
    var db := Put(Progress(4), 4, Checking);
    ProgressReached(4);
    FreshCurrent(Progress(4).runs, 4);
    ToChecking(Fresh(), Progress(4), 4);
    ReviewerReopens(db);
    ReachStep(db, Reopen(3, false), Settled());
    ReachOn(Fresh(), db, ReviewerReopened());
  }

  function SecondDeployer(state: StageState): Db {
    Db(Running, Manual, 4, TwiceRuns(Done, state), [], [], [], [], [], [], 0, {0, 1, 2, 3, 5})
  }

  lemma {:induction false} SecondDeployerReady()
    ensures Reaches(Fresh(), SecondDeployer(Ready))
  {
    var db := ReviewerReopened();
    ReviewerReopenedReached();
    TwiceCurrent(db.runs, 3);
    ToChecking(Fresh(), db, 5);
    var checking := Put(db, 5, Checking);
    TwiceCurrent(checking.runs, 4);
    ToCompleted(Fresh(), checking, 5, 6);
    assert StageCompleted(checking, 5, 6) == SecondDeployer(Ready);
  }

  lemma {:induction false} SecondDeployerReached()
    ensures Reaches(Fresh(), SecondDeployer(Checking))
  {
    SecondDeployerReady();
    TwiceCurrent(SecondDeployer(Ready).runs, 4);
    ToChecking(Fresh(), SecondDeployer(Ready), 6);
    assert Put(SecondDeployer(Ready), 6, Checking) == SecondDeployer(Checking);
  }

  const SITE := "artifacts/deployer/site"

  function Serving(content: string): World {
    World(map[SITE := content], Some(true), false, false, true, true)
  }

  /** The second deployer attempt, ready to be judged. */
  function Deployable(): Db {
    SecondDeployer(Checking).(mode := Autonomous, artifacts := [Artifact(4, "site", SITE)],
                              versions := [Version(0, 6, 1, "text", Draft, None, None)])
  }

  lemma {:induction false} DeployableVersion(db: Db)
    requires db == SecondDeployer(Checking).(mode := Autonomous)
    ensures Next(db, CreateVersion(6, "site", SITE), Serving("text")) == Deployable()
  {
    assert "artifacts/" + StageName(4) == "artifacts/deployer";
    assert "artifacts/deployer" + "/" <= SITE;
    PythonText.StripKeeps("site");
    assert FindArtifact([], 4, "site") == None && Latest([], 0) == None;
  }

  lemma {:induction false} DeployableReached()
    ensures Reaches(Fresh(), Deployable())
  {
    var db := SecondDeployer(Checking);
    SecondDeployerReached();
    ReachStep(db, SetMode(Autonomous), Settled());
    var autonomous := db.(mode := Autonomous);
    ReachOn(Fresh(), db, autonomous);
    ReachStep(autonomous, CreateVersion(6, "site", SITE), Serving("text"));
    DeployableVersion(autonomous);
    ReachOn(Fresh(), autonomous, Deployable());
  }

  lemma {:induction false} DeployableJudged(db: Db, world: World)
    requires db == Deployable() && world == Serving("text")
    ensures AllReadable(db, 6, [0], world)
    ensures var gate := Judged(db, 6, [0], world);
            gate.resolution == Automatic && gate.run == 6 && gate.versions == [0]
  {
    var ids: seq<nat> := [0];
    assert Inspect(db, 6, ids[0], world) == Good;
    StatusMeans(db, 6, ids, world);
  }

  lemma LastFinishes(db: Db, r: nat, handoff: Handoff)
    requires r < |db.runs| && db.runs[r].stage == db.stage == STAGES - 1 && db.runs[r].state == Checking
    requires db.status == Running
    ensures Finish(db, r, handoff).Ok? && Finish(db, r, handoff).value.status == Completed
    ensures Finish(db, r, handoff).value.stage == db.stage
  {
  }

  lemma {:induction false} DeployableFinalizes(db: Db, gate: Gate, world: World) returns (after: Db)
    requires db == Recorded(Deployable(), gate) && gate.versions == [0] && gate.run == 6 && world == Serving("text")
    ensures Finalize(db, 0, world) == Ok(after) && after.status == Completed && after.stage == 4
  {
    var ids: seq<nat> := [0];
    assert ids[..0] == [];
    assert Obstacle(db, 0, world) == None && FirstObstacle(db, ids, world) == None;
    LastFinishes(LockedFor(db, 0), 6, PacketFor(db, 0));
    after := Finalize(db, 0, world).value;
  }

  lemma {:induction false} DeployedIs(db: Db, gate: Gate, world: World, after: Db)
    requires db == Recorded(Deployable(), gate) && gate.versions == [0] && gate.run == 6
    requires Finalize(db, 0, world) == Ok(after)
    ensures after.artifacts == [Artifact(4, "site", SITE)]
    ensures after.versions == [Version(0, 6, 1, "text", LockedVersion, None, Some(0))]
    ensures after.handoffs == [Handoff(0, 6, 4, [0], 0, true)]
    ensures |after.runs| == 7 && after.runs[4] == Run(4, 1, Checking) && Current(after.runs, 4) == Some(6)
  {
    FinalizeFrame(db, 0, world, after);
    FinishMoves(LockedFor(db, 0), 6, PacketFor(db, 0), after);
    TwiceCurrent(after.runs, 4);
  }

  lemma {:induction false} Deployed() returns (db: Db)
    ensures Reaches(Fresh(), db) && db.status == Completed && db.stage == 4
    ensures db.artifacts == [Artifact(4, "site", SITE)]
    ensures db.versions == [Version(0, 6, 1, "text", LockedVersion, None, Some(0))]
    ensures db.handoffs == [Handoff(0, 6, 4, [0], 0, true)]
    ensures |db.runs| == 7 && db.runs[4] == Run(4, 1, Checking) && Current(db.runs, 4) == Some(6)
  {
    var before, world := Deployable(), Serving("text");
    var gate := Judged(before, 6, [0], world);
    DeployableReached();
    DeployableJudged(before, world);
    db := DeployableFinalizes(Recorded(before, gate), gate, world);
    DeployedIs(Recorded(before, gate), gate, world, db);
    AutomaticNext(before, 6, 0, world, gate, db);
    ReachStep(before, Evaluate(6, [0]), world);
    ReachOn(Fresh(), before, db);
  }

  /**
   The workflow is completed and its last handoff holds a locked version; the superseded deployer
   attempt then registers other content, and the handoff, still active, holds a superseded version.
   */
  lemma {:induction false} DeployedVersionSuperseded() returns (db: Db)
    ensures Reaches(Fresh(), db) && db.status == Completed && |db.handoffs| == 1 && db.handoffs[0].active
    ensures AllLocked(db.versions, db.handoffs[0].versions) && Current(db.runs, 4) == Some(6)
    ensures Unlocked(Next(db, CreateVersion(4, "site", SITE), Serving("other")), 0)
  {
    db := Deployed();
    SupersededHere(db);
    UnlockedIff(db, CreateVersion(4, "site", SITE), Serving("other"), 0);
  }

  lemma {:induction false} SupersededHere(db: Db)
    requires db.stage == 4 && db.artifacts == [Artifact(4, "site", SITE)]
    requires db.versions == [Version(0, 6, 1, "text", LockedVersion, None, Some(0))]
    requires |db.runs| == 7 && db.runs[4] == Run(4, 1, Checking)
    ensures Supersedes(db, CreateVersion(4, "site", SITE), Serving("other"), Handoff(0, 6, 4, [0], 0, true))
  {
    assert "artifacts/" + StageName(4) == "artifacts/deployer";
    assert "artifacts/deployer" + "/" <= SITE;
    var ids: seq<nat> := [0];
    PythonText.StripKeeps("site");
    assert Latest(db.versions, 0) == Some(0) && ids[0] in ids;
  }
}
