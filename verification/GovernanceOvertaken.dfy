/**
 Runs of calls, from a fresh workflow on, that end where one would not expect: a stage completed
 without a handoff, a paused workflow set running by a gate, and a superseded attempt that passes
 its gate and leaves its stage unfinished.
 */
module GovernanceOvertaken {
  import opened Wrappers
  import opened GovernanceState
  import opened GovernanceGates
  import opened GovernanceStages
  import opened GovernanceOrder
  import PythonText

  // ------------------------------------------------------------------- reachability

  ghost predicate Reaches(a: Db, b: Db) {
    exists steps: seq<Step>, worlds: seq<World> :: |steps| == |worlds| && RunAll(a, steps, worlds) == b
  }

  lemma ReachStep(a: Db, step: Step, world: World)
    ensures Reaches(a, Next(a, step, world))
  {
    assert RunAll(Next(a, step, world), [], []) == Next(a, step, world);
    assert [step][1..] == [] && [world][1..] == [];
    assert RunAll(a, [step], [world]) == Next(a, step, world);
  }

  lemma {:induction false} RunConcat(a: Db, steps: seq<Step>, worlds: seq<World>, moreSteps: seq<Step>,
                                     moreWorlds: seq<World>)
    requires |steps| == |worlds| && |moreSteps| == |moreWorlds|
    ensures RunAll(a, steps + moreSteps, worlds + moreWorlds) == RunAll(RunAll(a, steps, worlds), moreSteps, moreWorlds)
    decreases |steps|
  {
    if steps == [] {
      assert steps + moreSteps == moreSteps && worlds + moreWorlds == moreWorlds;
    } else {
      RunConcat(Next(a, steps[0], worlds[0]), steps[1..], worlds[1..], moreSteps, moreWorlds);
      assert (steps + moreSteps)[1..] == steps[1..] + moreSteps;
      assert (worlds + moreWorlds)[1..] == worlds[1..] + moreWorlds;
    }
  }

  lemma ReachOn(a: Db, b: Db, c: Db)
    requires Reaches(a, b) && Reaches(b, c)
    ensures Reaches(a, c)
  {
    var steps, worlds :| |steps| == |worlds| && RunAll(a, steps, worlds) == b;
    var more, moreWorlds :| |more| == |moreWorlds| && RunAll(b, more, moreWorlds) == c;
    RunConcat(a, steps, worlds, more, moreWorlds);
    assert |steps + more| == |worlds + moreWorlds|;
  }

  /** The transition call on the current attempt, short of completing the stage. */
  lemma MovesOnce(db: Db, r: nat, target: StageState)
    requires db.status == Running && Current(db.runs, db.stage) == Some(r) && Allowed(db.runs[r].state, target)
    requires db.runs[r].state != Locked && target in {Discussing, Producing, Reviewing, Checking, WaitingApproval}
    ensures Reaches(db, db.(runs := WithState(db.runs, r, target)))
    ensures Current(WithState(db.runs, r, target), db.stage) == Some(r)
  {
    ReachStep(db, Transition(db.stage, target, false), Settled());
    WithStateCurrent(db.runs, r, target, db.stage);
  }

  lemma MovesTo(start: Db, db: Db, r: nat, target: StageState, after: Db)
    requires Reaches(start, db) && db.status == Running && Current(db.runs, db.stage) == Some(r)
    requires db.runs[r].state != Locked && target in {Discussing, Producing, Reviewing, Checking, WaitingApproval}
    requires Allowed(db.runs[r].state, target) && after == db.(runs := WithState(db.runs, r, target))
    ensures Reaches(start, after) && Current(after.runs, after.stage) == Some(r)
  {
    MovesOnce(db, r, target);
    ReachOn(start, db, after);
  }

  function Put(db: Db, r: nat, state: StageState): Db
    requires r < |db.runs|
  {
    db.(runs := WithState(db.runs, r, state))
  }

  lemma {:induction false} ToProducing(start: Db, db: Db, r: nat)
    requires Reaches(start, db) && db.status == Running && Current(db.runs, db.stage) == Some(r)
    requires db.runs[r].state == Ready
    ensures Reaches(start, Put(db, r, Producing)) && Current(Put(db, r, Producing).runs, db.stage) == Some(r)
  {
    MovesTo(start, db, r, Discussing, Put(db, r, Discussing));
    MovesTo(start, Put(db, r, Discussing), r, Producing, Put(db, r, Producing));
  }

  lemma {:induction false} ToChecking(start: Db, db: Db, r: nat)
    requires Reaches(start, db) && db.status == Running && Current(db.runs, db.stage) == Some(r)
    requires db.runs[r].state == Ready
    ensures Reaches(start, Put(db, r, Checking)) && Current(Put(db, r, Checking).runs, db.stage) == Some(r)
  {
    ToProducing(start, db, r);
    MovesTo(start, Put(db, r, Producing), r, Reviewing, Put(db, r, Reviewing));
    MovesTo(start, Put(db, r, Reviewing), r, Checking, Put(db, r, Checking));
  }

  /** What completing a stage by transition calls leaves. */
  function StageCompleted(db: Db, r: nat, next: nat): Db
    requires r < |db.runs| && next < |db.runs| && db.stage < STAGES - 1
  {
    db.(runs := WithState(WithState(db.runs, r, Done), next, Ready), stage := db.stage + 1, waved := db.waved + {r})
  }

  function Waved(db: Db, r: nat): Db
    requires r < |db.runs|
  {
    db.(runs := WithState(db.runs, r, HandoffReady), waved := db.waved + {r})
  }

  lemma WavedOn(db: Db, r: nat)
    requires db.status == Running && Current(db.runs, db.stage) == Some(r) && db.runs[r].state == WaitingApproval
    ensures Reaches(db, Waved(db, r)) && Current(Waved(db, r).runs, db.stage) == Some(r)
  {
    ReachStep(db, Transition(db.stage, HandoffReady, false), Settled());
    WithStateCurrent(db.runs, r, HandoffReady, db.stage);
  }

  /** The current attempt only has to be completed, and the next stage is waiting for it. */
  predicate AtHandoff(db: Db, r: nat, next: nat) {
    && r < |db.runs| && next < |db.runs| && next != r && r in db.waved
    && db.status == Running && db.stage < STAGES - 1
    && Current(db.runs, db.stage) == Some(r) && db.runs[r].state == HandoffReady
    && Current(db.runs, db.stage + 1) == Some(next) && db.runs[next].state == Locked
  }

  lemma {:induction false} MoveDone(db: Db, r: nat, next: nat)
    requires AtHandoff(db, r, next)
    ensures MoveStage(db, r, Done)
            == Ok(db.(runs := WithState(WithState(db.runs, r, Done), next, Ready), stage := db.stage + 1))
  {
    WithStateCurrent(db.runs, r, Done, db.stage + 1);
  }

  lemma {:induction false} DoneOn(db: Db, r: nat, next: nat)
    requires AtHandoff(db, r, next)
    ensures Reaches(db, StageCompleted(db, r, next))
  {
    ReachStep(db, Transition(db.stage, Done, false), Settled());
    MoveDone(db, r, next);
    assert db.waved + {r} == db.waved;
    assert TransitionStep(db, db.stage, Done, false) == MoveStage(db, r, Done);
  }

  lemma SameCompletion(db: Db, r: nat, next: nat)
    requires r < |db.runs| && next < |db.runs| && next != r && db.stage < STAGES - 1
    ensures StageCompleted(Waved(Put(db, r, WaitingApproval), r), r, next) == StageCompleted(db, r, next)
  {
    var runs := db.runs;
    assert WithState(WithState(WithState(runs, r, WaitingApproval), r, HandoffReady), r, Done) == WithState(runs, r, Done);
    assert db.waved + {r} + {r} == db.waved + {r};
  }

  lemma {:induction false} ToWaved(start: Db, db: Db, r: nat)
    requires Reaches(start, db) && db.status == Running && Current(db.runs, db.stage) == Some(r)
    requires db.runs[r].state == Checking
    ensures Reaches(start, Waved(Put(db, r, WaitingApproval), r))
    ensures Current(Waved(Put(db, r, WaitingApproval), r).runs, db.stage) == Some(r)
  {
    var waiting := Put(db, r, WaitingApproval);
    MovesTo(start, db, r, WaitingApproval, waiting);
    WavedOn(waiting, r);
    ReachOn(start, waiting, Waved(waiting, r));
  }

  lemma {:induction false} WavedFacts(db: Db, r: nat, next: nat, ready: Db)
    requires r < |db.runs| && next < |db.runs| && next != r && ready == Waved(Put(db, r, WaitingApproval), r)
    requires db.status == Running && db.stage < STAGES - 1 && Current(db.runs, db.stage) == Some(r)
    requires Current(db.runs, db.stage + 1) == Some(next) && db.runs[next].state == Locked
    ensures AtHandoff(ready, r, next)
    ensures StageCompleted(ready, r, next) == StageCompleted(db, r, next)
  {
    WithStateCurrent(db.runs, r, WaitingApproval, db.stage);
    WithStateCurrent(db.runs, r, WaitingApproval, db.stage + 1);
    WithStateCurrent(Put(db, r, WaitingApproval).runs, r, HandoffReady, db.stage);
    WithStateCurrent(Put(db, r, WaitingApproval).runs, r, HandoffReady, db.stage + 1);
    SameCompletion(db, r, next);
  }

  lemma {:induction false} WavedDone(start: Db, ready: Db, r: nat, next: nat)
    requires Reaches(start, ready) && AtHandoff(ready, r, next)
    ensures Reaches(start, StageCompleted(ready, r, next))
  {
    DoneOn(ready, r, next);
    ReachOn(start, ready, StageCompleted(ready, r, next));
  }

  lemma {:induction false} ToCompleted(start: Db, db: Db, r: nat, next: nat)
    requires Reaches(start, db) && db.status == Running && Current(db.runs, db.stage) == Some(r)
    requires db.runs[r].state == Checking && db.stage < STAGES - 1
    requires Current(db.runs, db.stage + 1) == Some(next) && db.runs[next].state == Locked
    ensures Reaches(start, StageCompleted(db, r, next))
  {
    var ready := Waved(Put(db, r, WaitingApproval), r);
    ToWaved(start, db, r);
    WavedFacts(db, r, next, ready);
    WavedDone(start, ready, r, next);
  }

  // ------------------------------------------------------------------ the workflow

  /** The planner was reopened and completed again while the first designer attempt was being checked. */
  function Overtaken(): Db {
    Db(Running, Autonomous, 1,
       [Run(0, 1, Done), Run(1, 1, Checking), Run(2, 1, Locked), Run(3, 1, Locked), Run(4, 1, Locked),
        Run(0, 2, Done), Run(1, 2, Ready), Run(2, 2, Locked), Run(3, 2, Locked), Run(4, 2, Locked)],
       [Artifact(1, "plan", "artifacts/designer/plan")],
       [Version(0, 1, 1, "text", Draft, None, None)], [], [], [], [], 0, {0, 5})
  }

  function Settled(): World {
    World(map["artifacts/designer/plan" := "text"], Some(true), false, false, true, true)
  }

  lemma OvertakenCurrent(runs: seq<Run>, s: Stage)
    requires |runs| == 10 && forall q :: 0 <= q < 10 ==> SameRun(Overtaken().runs[q], runs[q])
    ensures Current(runs, s) == Some(5 + s)
  {
    forall q | 0 <= q < 10 ensures runs[q].stage == q % 5 && runs[q].attempt == 1 + q / 5 {
      assert SameRun(Overtaken().runs[q], runs[q]);
    }
    assert IsCurrent(runs, 5 + s);
    CurrentUnique(runs, 5 + s);
  }

  lemma {:induction false} OvertakenJudged(db: Db, r: nat, ids: seq<nat>, world: World)
    requires db == Overtaken() && world == Settled() && r == 1 && ids == [0]
    ensures AllReadable(db, r, ids, world)
    ensures var gate := Judged(db, r, ids, world);
            gate.resolution == Automatic && gate.versions == ids && gate.run == r
  {
    assert Inspect(db, r, ids[0], world) == Good;
    StatusMeans(db, r, ids, world);
  }

  lemma OvertakenFinishes(db: Db, handoff: Handoff)
    requires db.runs == Overtaken().runs && db.stage == 1 && db.status == Running
    ensures Finish(db, 1, handoff).Ok? && Finish(db, 1, handoff).value.handoffs == db.handoffs + [handoff]
  {
    var waiting := MoveStage(db, 1, WaitingApproval).value;
    var ready := MoveStage(waiting, 1, HandoffReady).value;
    OvertakenCurrent(WithState(ready.runs, 1, Done), 2);
  }

  lemma OvertakenOrderly()
    ensures Orderly(Overtaken()) && Current(Overtaken().runs, 1) == Some(6)
  {
    var db := Overtaken();
    forall s: nat | s < STAGES ensures Stands(db.runs, s, 1, Running) { OvertakenCurrent(db.runs, s); }
    OvertakenCurrent(db.runs, 1);
  }

  lemma {:induction false} OvertakenFinalizes(db: Db, gate: Gate, world: World) returns (after: Db)
    requires db == Recorded(Overtaken(), gate) && gate.versions == [0] && gate.run == 1 && world == Settled()
    ensures Finalize(db, 0, world) == Ok(after)
  {
    var ids: seq<nat> := [0];
    assert ids[..0] == [];
    assert Obstacle(db, 0, world) == None && FirstObstacle(db, ids, world) == None;
    OvertakenFinishes(LockedFor(db, 0), PacketFor(db, 0));
    after := Finalize(db, 0, world).value;
  }

  lemma {:induction false} AutomaticEvaluates(db: Db, r: nat, id: nat, world: World, gate: Gate)
    requires r < |db.runs| && db.stage == db.runs[r].stage && db.runs[r].state == Checking
    requires AllReadable(db, r, [id], world) && gate == Judged(db, r, [id], world) && gate.resolution == Automatic
    ensures EvaluateStep(db, r, [id], world) == Finalize(Recorded(db, gate), |db.gates|, world)
  {
  }

  lemma StaleGateBreaks(db: Db, gate: Gate, world: World, after: Db)
    requires gate.run < |db.runs| && Orderly(db) && db.status != Completed && Current(db.runs, db.stage) != Some(gate.run)
    requires Finalize(Recorded(db, gate), |db.gates|, world) == Ok(after)
    ensures !Orderly(after)
  {
    FinalizeOrderlyIff(Recorded(db, gate), |db.gates|, world, after, db.status);
  }

  lemma EvaluateApplies(db: Db, r: nat, ids: seq<nat>, world: World, after: Db)
    requires EvaluateStep(db, r, ids, world) == Ok(after)
    ensures Next(db, Evaluate(r, ids), world) == after
  {
  }

  lemma {:induction false} AutomaticNext(db: Db, r: nat, id: nat, world: World, gate: Gate, after: Db)
    requires r < |db.runs| && db.stage == db.runs[r].stage && db.runs[r].state == Checking
    requires AllReadable(db, r, [id], world) && gate == Judged(db, r, [id], world) && gate.resolution == Automatic
    requires Finalize(Recorded(db, gate), |db.gates|, world) == Ok(after)
    ensures Next(db, Evaluate(r, [id]), world) == after
  {
    AutomaticEvaluates(db, r, id, world, gate);
    EvaluateApplies(db, r, [id], world, after);
  }

  // ------------------------------------------------------------- how it comes about

  lemma FreshCurrent(runs: seq<Run>, s: Stage)
    requires |runs| == 5 && forall q :: 0 <= q < 5 ==> SameRun(Fresh().runs[q], runs[q])
    ensures Current(runs, s) == Some(s)
  {
    forall q | 0 <= q < 5 ensures runs[q].stage == q && runs[q].attempt == 1 { assert SameRun(Fresh().runs[q], runs[q]); }
    assert IsCurrent(runs, s);
    CurrentUnique(runs, s);
  }

  /** The planner is completed, the designer is being checked. */
  function DesignerChecking(): Db {
    Db(Running, Manual, 1, [Run(0, 1, Done), Run(1, 1, Checking), Run(2, 1, Locked), Run(3, 1, Locked), Run(4, 1, Locked)],
       [], [], [], [], [], [], 0, {0})
  }

  function DesignerReady(): Db {
    DesignerChecking().(runs := [Run(0, 1, Done), Run(1, 1, Ready), Run(2, 1, Locked), Run(3, 1, Locked), Run(4, 1, Locked)])
  }

  /** Every stage before the `k`th completed by transition calls. */
  function Progress(k: Stage): Db {
    Db(Running, Manual, k,
       seq(5, i requires 0 <= i < 5 => Run(i, 1, if i < k then Done else if i == k then Ready else Locked)),
       [], [], [], [], [], [], 0, Before(k))
  }

  function Before(k: nat): set<nat> {
    if k == 0 then {} else Before(k - 1) + {k - 1}
  }

  lemma {:induction false} FirstStageReached()
    ensures Reaches(Fresh(), Progress(0))
  {
    ReachStep(Fresh(), Start, Settled());
    assert Progress(0).runs == Fresh().runs && Progress(0).waved == {};
  }

  lemma {:induction false} ProgressReached(k: Stage)
    ensures Reaches(Fresh(), Progress(k))
  {
    if k == 0 {
      FirstStageReached();
    } else {
      ProgressReached(k - 1);
      ProgressOn(Fresh(), k - 1, Progress(k - 1));
      StageOn(k);
    }
  }

  lemma {:induction false} ProgressOn(start: Db, k: nat, db: Db)
    requires k < STAGES - 1 && db == Progress(k) && Reaches(start, db)
    ensures k < |Put(db, k, Checking).runs| == 5
    ensures Reaches(start, StageCompleted(Put(db, k, Checking), k, k + 1))
  {
    FreshCurrent(db.runs, k);
    ToChecking(start, db, k);
    var checking := Put(db, k, Checking);
    FreshCurrent(checking.runs, k + 1);
    ToCompleted(start, checking, k, k + 1);
  }

  lemma {:induction false} StageOn(k: Stage)
    requires k > 0
    ensures StageCompleted(Put(Progress(k - 1), k - 1, Checking), k - 1, k) == Progress(k)
  {
    var done := StageCompleted(Put(Progress(k - 1), k - 1, Checking), k - 1, k);
    assert done.runs == Progress(k).runs;
    assert done.waved == Progress(k).waved;
  }

  lemma {:induction false} DesignerReadyReached()
    ensures Reaches(Fresh(), DesignerReady())
  {
    ProgressReached(1);
    assert Progress(1).runs == DesignerReady().runs && Before(1) == Before(0) + {0} == {0};
  }

  lemma DesignerReached()
    ensures Reaches(Fresh(), DesignerChecking())
  {
    DesignerReadyReached();
    FreshCurrent(DesignerReady().runs, 1);
    ToChecking(Fresh(), DesignerReady(), 1);
    assert Put(DesignerReady(), 1, Checking) == DesignerChecking();
  }

  /** On the way a stage was completed by transition calls alone: there is no gate and no handoff. */
  lemma CompletedWithoutHandoff() returns (db: Db)
    ensures Reaches(Fresh(), db) && db.runs != [] && db.runs[0].state == Done && db.gates == [] && db.handoffs == []
  {
    DesignerReadyReached();
    db := DesignerReady();
  }

  lemma MissingBlocks(db: Db, r: nat, id: nat, world: World)
    requires r < |db.runs| && db.versions == []
    ensures AllReadable(db, r, [id], world) && Blocked(db, r, [id], world)
  {
    var ids: seq<nat> := [id];
    assert Inspect(db, r, ids[0], world) == Bad(ArtifactMissing);
  }

  lemma {:induction false} BlockedGateRuns(db: Db, r: nat, id: nat, world: World)
    requires r < |db.runs| && db.runs[r].stage == db.stage && db.runs[r].state == Checking && db.status == Paused
    requires db.versions == []
    ensures Apply(db, Evaluate(r, [id]), world).Ok? && Next(db, Evaluate(r, [id]), world).status == Running
  {
    MissingBlocks(db, r, id, world);
    EvaluatedWhileNotRunning(db, r, [id], world);
  }

  /** A gate that names no version of its stage sets a paused workflow running. */
  lemma {:induction false} PausedSetRunning() returns (db: Db)
    ensures Reaches(Fresh(), db) && db.status == Paused
    ensures Apply(db, Evaluate(1, [0]), Settled()).Ok? && Next(db, Evaluate(1, [0]), Settled()).status == Running
  {
    DesignerReached();
    ReachStep(DesignerChecking(), Pause, Settled());
    db := DesignerChecking().(status := Paused);
    ReachOn(Fresh(), DesignerChecking(), db);
    BlockedGateRuns(db, 1, 0, Settled());
  }

  /** The planner is opened again; every stage gets a second attempt. */
  function PlannerReopened(): Db {
    DesignerChecking().(stage := 0,
                        runs := DesignerChecking().runs + [Run(0, 2, Ready), Run(1, 2, Locked), Run(2, 2, Locked),
                                                           Run(3, 2, Locked), Run(4, 2, Locked)])
  }

  lemma NewRunsFrom(runs: seq<Run>, from: nat, rest: seq<Run>)
    requires from < STAGES && Current(runs, from) == Some(from) && runs[from].attempt == 1
    requires NewRuns(runs, 0, from + 1) == rest
    ensures NewRuns(runs, 0, from) == [Run(from, 2, if from == 0 then Ready else Locked)] + rest
  {
  }

  lemma PlannerNewRuns()
    ensures NewRuns(DesignerChecking().runs, 0, 0)
            == [Run(0, 2, Ready), Run(1, 2, Locked), Run(2, 2, Locked), Run(3, 2, Locked), Run(4, 2, Locked)]
  {
    var runs := DesignerChecking().runs;
    forall s: Stage ensures Current(runs, s) == Some(s) { FreshCurrent(runs, s); }
    NewRunsFrom(runs, 4, []);
    NewRunsFrom(runs, 3, [Run(4, 2, Locked)]);
    NewRunsFrom(runs, 2, [Run(3, 2, Locked), Run(4, 2, Locked)]);
    NewRunsFrom(runs, 1, [Run(2, 2, Locked), Run(3, 2, Locked), Run(4, 2, Locked)]);
    NewRunsFrom(runs, 0, [Run(1, 2, Locked), Run(2, 2, Locked), Run(3, 2, Locked), Run(4, 2, Locked)]);
  }

  /** Without versions and handoffs reopening a completed stage only adds the new attempts. */
  lemma {:induction false} BareReopens(db: Db, stage: Stage, r: nat, world: World)
    requires db.versions == [] && db.handoffs == []
    requires r < |db.runs| && Current(db.runs, stage) == Some(r) && db.runs[r].state == Done
    ensures Next(db, Reopen(stage, false), world)
            == db.(status := Running, stage := stage, runs := db.runs + NewRuns(db.runs, stage, stage))
  {
    assert Withdrawn([], db.artifacts, stage) == [] && Recalled([], stage) == [];
  }

  lemma {:induction false} PlannerReopens(db: Db)
    requires db == DesignerChecking()
    ensures Next(db, Reopen(0, false), Settled()) == PlannerReopened()
  {
    PlannerNewRuns();
    FreshCurrent(db.runs, 0);
    BareReopens(db, 0, 0, Settled());
  }

  lemma ReopenedReached()
    ensures Reaches(Fresh(), PlannerReopened())
  {
    DesignerReached();
    PlannerReopens(DesignerChecking());
    ReachStep(DesignerChecking(), Reopen(0, false), Settled());
    ReachOn(Fresh(), DesignerChecking(), PlannerReopened());
  }

  /** The planner is completed for the second time; the first designer attempt is still being checked. */
  function PlannerAgain(): Db {
    Overtaken().(mode := Manual, artifacts := [], versions := [])
  }

  lemma {:induction false} PlannerAgainReached()
    ensures Reaches(Fresh(), PlannerAgain())
  {
    var db := PlannerReopened();
    ReopenedReached();
    OvertakenCurrent(db.runs, 0);
    ToChecking(Fresh(), db, 5);
    var checking := Put(db, 5, Checking);
    OvertakenCurrent(checking.runs, 1);
    ToCompleted(Fresh(), checking, 5, 6);
    assert StageCompleted(checking, 5, 6) == PlannerAgain();
  }

  lemma OvertakenVersion(db: Db)
    requires db == PlannerAgain().(mode := Autonomous)
    ensures Next(db, CreateVersion(1, "plan", "artifacts/designer/plan"), Settled()) == Overtaken()
  {
    assert "artifacts/" + StageName(1) == "artifacts/designer";
    assert "artifacts/designer" + "/" <= "artifacts/designer/plan";
    PythonText.StripKeeps("plan");
    assert FindArtifact([], 1, "plan") == None && Latest([], 0) == None;
  }

  lemma OvertakenReached()
    ensures Reaches(Fresh(), Overtaken())
  {
    var db := PlannerAgain();
    PlannerAgainReached();
    ReachStep(db, SetMode(Autonomous), Settled());
    var autonomous := db.(mode := Autonomous);
    ReachOn(Fresh(), db, autonomous);
    ReachStep(autonomous, CreateVersion(1, "plan", "artifacts/designer/plan"), Settled());
    OvertakenVersion(autonomous);
    ReachOn(Fresh(), autonomous, Overtaken());
  }

  /** What is left of the designer stage once its first attempt has been handed off. */
  lemma {:induction false} OvertakenLeft(db: Db, gate: Gate, after: Db)
    requires db == Recorded(Overtaken(), gate) && gate.versions == [0] && gate.run == 1
    requires Finalize(db, 0, Settled()) == Ok(after)
    ensures |after.handoffs| == 1 && after.handoffs[0].run == 1 && after.stage == 2
    ensures Current(after.runs, 1) == Some(6) && after.runs[6].state != Done
  {
    var locked, packet := LockedFor(db, 0), PacketFor(db, 0);
    FinalizeFrame(db, 0, Settled(), after);
    FinishMovesOn(locked, 1, packet, after);
    FinishMoves(locked, 1, packet, after);
    OvertakenCurrent(after.runs, 1);
  }

  lemma {:induction false} StaleRunPasses(db: Db, r: nat, id: nat, world: World, gate: Gate, after: Db)
    requires r < |db.runs| && db.stage == db.runs[r].stage && db.runs[r].state == Checking
    requires Orderly(db) && db.status != Completed && Current(db.runs, db.stage) != Some(r)
    requires AllReadable(db, r, [id], world) && gate == Judged(db, r, [id], world)
    requires gate.resolution == Automatic && gate.run == r
    requires Finalize(Recorded(db, gate), |db.gates|, world) == Ok(after)
    ensures Next(db, Evaluate(r, [id]), world) == after && !Orderly(after)
  {
    AutomaticNext(db, r, id, world, gate, after);
    StaleGateBreaks(db, gate, world, after);
  }

  lemma {:induction false} OvertakenStands(db: Db, r: nat)
    requires db == Overtaken() && r == 1
    ensures r < |db.runs| && db.stage == db.runs[r].stage && db.runs[r].state == Checking && db.status == Running
  {
  }

  lemma {:induction false} OvertakenPasses(db: Db, r: nat, id: nat, world: World) returns (after: Db)
    requires db == Overtaken() && world == Settled() && r == 1 && id == 0
    ensures r < |db.runs| && db.stage == db.runs[r].stage && db.runs[r].state == Checking && db.status == Running
    ensures AllReadable(db, r, [id], world)
    ensures var gate := Judged(db, r, [id], world);
            gate.resolution == Automatic && gate.run == r && Finalize(Recorded(db, gate), |db.gates|, world) == Ok(after)
    ensures |after.handoffs| == 1 && after.handoffs[0].run == 1 && after.stage == 2
    ensures Current(after.runs, 1) == Some(6) && after.runs[6].state != Done
  {
    OvertakenStands(db, r);
    var gate := Judged(db, r, [id], world);
    OvertakenJudged(db, r, [id], world);
    after := OvertakenFinalizes(Recorded(db, gate), gate, world);
    OvertakenLeft(Recorded(db, gate), gate, after);
  }

  lemma {:induction false} OvertakenEvaluates(db: Db, r: nat, id: nat, world: World)
    requires db == Overtaken() && world == Settled() && r == 1 && id == 0
    requires Orderly(db) && Current(db.runs, db.stage) == Some(6)
    ensures var after := Next(db, Evaluate(r, [id]), world);
            && !Orderly(after) && after.stage == 2
            && |after.handoffs| == 1 && after.handoffs[0].run == 1
            && Current(after.runs, 1) == Some(6) && after.runs[6].state != Done
  {
    var after := OvertakenPasses(db, r, id, world);
    StaleRunPasses(db, r, id, world, Judged(db, r, [id], world), after);
  }

  /**
   The first designer attempt passes its gate, hands off and moves the workflow on, while the
   designer's current attempt is left behind unfinished.
   */
  lemma {:induction false} SupersededAttemptPasses() returns (db: Db, world: World)
    ensures Reaches(Fresh(), db) && Orderly(db) && db.status == Running && db.stage == 1 && db.handoffs == []
    ensures Current(db.runs, 1) == Some(6)
    ensures var after := Next(db, Evaluate(1, [0]), world);
            && !Orderly(after) && after.stage == 2
            && |after.handoffs| == 1 && after.handoffs[0].run == 1
            && Current(after.runs, 1) == Some(6) && after.runs[6].state != Done
  {
    db, world := Overtaken(), Settled();
    OvertakenReached();
    OvertakenOrderly();
    OvertakenEvaluates(db, 1, 0, world);
  }
}
