/**
 A run of calls, from a fresh workflow on, to a completed workflow in which a superseded attempt
 still waits for its approval: approving it gives the last stage a second active handoff, and
 rejecting it sets the finished workflow running.
 */
module GovernanceLate {
  import opened Wrappers
  import opened GovernanceState
  import opened GovernanceGates
  import opened GovernanceStages
  import opened GovernanceOrder
  import opened GovernanceOvertaken
  import opened GovernanceReleased
  import ProjectPaths
  import PythonText

  const NOTES := "artifacts/deployer/notes"

  function Both(): World {
    World(map[SITE := "text", NOTES := "text"], Some(true), false, false, true, true)
  }

  /** One more step from a world that was reached. */
  lemma {:induction false} ReachNext(db: Db, step: Step, world: World, after: Db)
    requires Reaches(Fresh(), db) && Next(db, step, world) == after
    ensures Reaches(Fresh(), after)
  {
    ReachStep(db, step, world);
    ReachOn(Fresh(), db, after);
  }

  /** Registering a first version of a new artifact at the last stage. */
  lemma {:induction false} NewVersionNext(db: Db, r: nat, name: string, path: string, world: World, after: Db)
    requires r < |db.runs| && db.runs[r].stage == db.stage == 4 && db.runs[r].state == Checking
    requires PythonText.Strip(name) == name && Nameable(name) && ProjectPaths.Under(path, "artifacts/deployer")
    requires path in world.files && FindArtifact(db.artifacts, 4, name) == None && !PathTaken(db.artifacts, path)
    requires Latest(db.versions, |db.artifacts|) == None
    requires after == db.(artifacts := db.artifacts + [Artifact(4, name, path)],
                          versions := db.versions + [Version(|db.artifacts|, r, 1, world.files[path], Draft, None, None)])
    ensures Next(db, CreateVersion(r, name, path), world) == after
  {
    assert "artifacts/" + StageName(4) == "artifacts/deployer";
  }

  // -------------------------------------------------- the superseded attempt waits

  function Registered0(): Db {
    SecondDeployer(Ready).(artifacts := [Artifact(4, "site", SITE)],
                           versions := [Version(0, 4, 1, "text", Draft, None, None)])
  }

  lemma {:induction false} Registered0Reached()
    ensures Reaches(Fresh(), Registered0())
  {
    var db := SecondDeployer(Ready);
    SecondDeployerReady();
    PythonText.StripKeeps("site");
    assert "artifacts/deployer" + "/" <= SITE;
    assert FindArtifact([], 4, "site") == None && Latest([], 0) == None;
    assert [] + [Artifact(4, "site", SITE)] == [Artifact(4, "site", SITE)];
    assert [] + [Version(0, 4, 1, "text", Draft, None, None)] == [Version(0, 4, 1, "text", Draft, None, None)];
    NewVersionNext(db, 4, "site", SITE, Both(), Registered0());
    ReachNext(db, CreateVersion(4, "site", SITE), Both(), Registered0());
  }

  /** The gate of a single good version of the last stage. */
  lemma {:induction false} GoodGate(db: Db, r: nat, id: nat, world: World) returns (gate: Gate)
    requires r < |db.runs| && db.runs[r].stage == 4 && Inspect(db, r, id, world) == Good
    requires world.formalRun == Some(true) && !world.tasksActive && !world.conflictsOpen
    ensures AllReadable(db, r, [id], world) && gate == Judged(db, r, [id], world)
    ensures gate.run == r && gate.versions == [id] && gate.status == Pass
    ensures gate.resolution == (if db.mode == Autonomous then Automatic else GovernanceState.Pending)
  {
    StatusMeans(db, r, [id], world);
    gate := Judged(db, r, [id], world);
  }

  /** What a gate that asks for an approval leaves. */
  function Asked(db: Db, gate: Gate): Db
    requires gate.run < |db.runs|
  {
    db.(runs := WithState(db.runs, gate.run, WaitingApproval), status := WaitingUser, gates := db.gates + [gate],
        approvals := db.approvals + [Approval(|db.gates|, Undecided)])
  }

  lemma {:induction false} AskedNext(db: Db, r: nat, id: nat, world: World, gate: Gate)
    requires r < |db.runs| && db.runs[r].stage == db.stage && db.runs[r].state == Checking && db.status == Running
    requires AllReadable(db, r, [id], world) && gate == Judged(db, r, [id], world)
    requires gate.resolution == GovernanceState.Pending && gate.run == r
    ensures Next(db, Evaluate(r, [id]), world) == Asked(db, gate)
  {
    var moved := MoveStage(Recorded(db, gate), r, WaitingApproval);
    assert moved == Ok(Recorded(db, gate).(runs := WithState(db.runs, r, WaitingApproval)));
    EvaluateApplies(db, r, [id], world, Asked(db, gate));
  }

  predicate PendingGate(gate: Gate) {
    gate.run == 4 && gate.versions == [0] && gate.status == Pass && gate.resolution == GovernanceState.Pending
  }

  /** The superseded attempt waits for its approval, and the workflow runs on. */
  function Waiting(gate: Gate): Db {
    Registered0().(runs := WithState(TwiceRuns(Done, Ready), 4, WaitingApproval), gates := [gate],
                   approvals := [Approval(0, Undecided)])
  }

  lemma {:induction false} AskedIs(gate: Gate)
    requires gate.run == 4
    ensures Asked(Registered0(), gate) == Waiting(gate).(status := WaitingUser)
  {
    assert [] + [gate] == [gate] && [] + [Approval(0, Undecided)] == [Approval(0, Undecided)];
  }

  lemma {:induction false} AskedReached() returns (gate: Gate)
    ensures PendingGate(gate) && Reaches(Fresh(), Waiting(gate).(status := WaitingUser))
  {
    var db := Registered0();
    Registered0Reached();
    assert Inspect(db, 4, 0, Both()) == Good;
    gate := GoodGate(db, 4, 0, Both());
    AskedNext(db, 4, 0, Both(), gate);
    AskedIs(gate);
    ReachNext(db, Evaluate(4, [0]), Both(), Asked(db, gate));
  }

  lemma {:induction false} PauseAndResume(db: Db, paused: Db, after: Db)
    requires Reaches(Fresh(), db) && db.status == WaitingUser
    requires paused == db.(status := Paused) && after == db.(status := Running)
    ensures Reaches(Fresh(), after)
  {
    ReachNext(db, Pause, Both(), paused);
    ReachNext(paused, Resume, Both(), after);
  }

  lemma {:induction false} WaitingReached() returns (gate: Gate)
    ensures PendingGate(gate) && Reaches(Fresh(), Waiting(gate))
  {
    gate := AskedReached();
    var asked := Waiting(gate).(status := WaitingUser);
    PauseAndResume(asked, asked.(status := Paused), Waiting(gate));
  }

  // -------------------------------------------------- the current attempt completes

  lemma {:induction false} CheckedReached() returns (gate: Gate, db: Db)
    ensures PendingGate(gate) && Reaches(Fresh(), db) && db == Put(Waiting(gate), 6, Checking).(mode := Autonomous)
  {
    gate := WaitingReached();
    TwiceCurrent(Waiting(gate).runs, 4);
    ToChecking(Fresh(), Waiting(gate), 6);
    db := Put(Waiting(gate), 6, Checking).(mode := Autonomous);
    ReachNext(Put(Waiting(gate), 6, Checking), SetMode(Autonomous), Both(), db);
  }

  /** Before the current attempt is judged: both attempts have a version of their own. */
  function BothRegistered(gate: Gate): Db {
    Put(Waiting(gate), 6, Checking).(mode := Autonomous,
      artifacts := [Artifact(4, "site", SITE), Artifact(4, "notes", NOTES)],
      versions := [Version(0, 4, 1, "text", Draft, None, None), Version(1, 6, 1, "text", Draft, None, None)])
  }

  lemma NotesAreNew(artifacts: seq<Artifact>, versions: seq<Version>)
    requires artifacts == [Artifact(4, "site", SITE)] && versions == [Version(0, 4, 1, "text", Draft, None, None)]
    ensures FindArtifact(artifacts, 4, "notes") == None && Latest(versions, 1) == None && !PathTaken(artifacts, NOTES)
  {
    assert SITE[19] != NOTES[19];
    assert "site"[0] != "notes"[0];
    assert artifacts[..0] == [] && versions[..0] == [];
  }

  lemma {:induction false} BothRegisteredReached() returns (gate: Gate)
    ensures PendingGate(gate) && Reaches(Fresh(), BothRegistered(gate))
  {
    var db;
    gate, db := CheckedReached();
    PythonText.StripKeeps("notes");
    assert "artifacts/deployer" + "/" <= NOTES;
    NotesAreNew(db.artifacts, db.versions);
    assert db.artifacts + [Artifact(4, "notes", NOTES)] == BothRegistered(gate).artifacts;
    assert db.versions + [Version(1, 6, 1, "text", Draft, None, None)] == BothRegistered(gate).versions;
    NewVersionNext(db, 6, "notes", NOTES, Both(), BothRegistered(gate));
    ReachNext(db, CreateVersion(6, "notes", NOTES), Both(), BothRegistered(gate));
  }

  lemma {:induction false} OneGood(db: Db, id: nat, world: World)
    requires Obstacle(db, id, world) == None
    ensures FirstObstacle(db, [id], world) == None
  {
    assert [id][..0] == [];
  }

  lemma {:induction false} CurrentFinalizes(db: Db, gate: Gate, own: Gate, world: World) returns (after: Db)
    requires db == Recorded(BothRegistered(gate), own) && own.run == 6 && own.versions == [1] && world == Both()
    ensures Finalize(db, 1, world) == Ok(after) && after.status == Completed && after.stage == 4
  {
    assert Obstacle(db, 1, world) == None;
    OneGood(db, 1, world);
    LastFinishes(LockedFor(db, 1), 6, PacketFor(db, 1));
    after := Finalize(db, 1, world).value;
  }

  /** The completed workflow, as far as the superseded attempt's gate is concerned. */
  ghost predicate LateHere(db: Db) {
    && db.status == Completed && db.stage == 4 && |db.runs| == 7
    && db.runs[4] == Run(4, 1, WaitingApproval) && db.runs[6] == Run(4, 2, Done) && Current(db.runs, 4) == Some(6)
    && |db.gates| == 2 && PendingGate(db.gates[0]) && db.approvals == [Approval(0, Undecided)]
    && db.handoffs == [Handoff(1, 6, 4, [1], 0, true)]
    && |db.versions| == 2 && db.versions[0] == Version(0, 4, 1, "text", Draft, None, None)
    && |db.artifacts| == 2 && db.artifacts[0] == Artifact(4, "site", SITE)
  }

  lemma {:induction false} LateRuns(before: seq<Run>, after: seq<Run>)
    requires before == WithState(WithState(TwiceRuns(Done, Ready), 4, WaitingApproval), 6, Checking)
    requires Moves(before, after, 6, Done)
    ensures |after| == 7 && after[4] == Run(4, 1, WaitingApproval) && after[6] == Run(4, 2, Done)
    ensures Current(after, 4) == Some(6) && InOrder(after, 4, Completed)
  {
    forall s: nat | s < STAGES ensures Stands(after, s, 4, Completed) { TwiceCurrent(after, s); }
    TwiceCurrent(after, 4);
  }

  lemma {:induction false} LateIs(db: Db, gate: Gate, own: Gate, world: World, after: Db)
    requires db == Recorded(BothRegistered(gate), own) && PendingGate(gate) && own.run == 6 && own.versions == [1]
    requires Finalize(db, 1, world) == Ok(after) && after.status == Completed && after.stage == 4
    ensures LateHere(after) && Orderly(after)
  {
    var ids := own.versions;
    assert 0 !in ids;
    FinalizeFrame(db, 1, world, after);
    FinishMoves(LockedFor(db, 1), 6, PacketFor(db, 1), after);
    LateRuns(db.runs, after.runs);
    assert after.handoffs == [Handoff(1, 6, 4, [1], 0, true)];
  }

  lemma {:induction false} LateReached() returns (db: Db)
    ensures Reaches(Fresh(), db) && LateHere(db) && Orderly(db)
  {
    var gate := BothRegisteredReached();
    var before, world := BothRegistered(gate), Both();
    assert Inspect(before, 6, 1, world) == Good;
    var own := GoodGate(before, 6, 1, world);
    db := CurrentFinalizes(Recorded(before, own), gate, own, world);
    LateIs(Recorded(before, own), gate, own, world, db);
    AutomaticNext(before, 6, 1, world, own, db);
    ReachNext(before, Evaluate(6, [1]), world, db);
  }

  // --------------------------------------------------------------- the late decision

  lemma LastHandsOff(db: Db, r: nat, handoff: Handoff)
    requires r < |db.runs| && db.runs[r].stage == db.stage == STAGES - 1 && db.runs[r].state == WaitingApproval
    requires db.status == Running
    ensures Finish(db, r, handoff).Ok?
  {
  }

  lemma {:induction false} LateApproval(db: Db, world: World) returns (after: Db)
    requires LateHere(db) && world == Both()
    ensures DecideStep(db, 0, true, world) == Ok(after)
  {
    var decided := Decided(db, 0, true);
    assert Obstacle(decided, 0, world) == None;
    OneGood(decided, 0, world);
    LastHandsOff(LockedFor(decided, 0), 4, PacketFor(decided, 0));
    assert Finalize(decided, 0, world).Ok?;
    after := DecideStep(db, 0, true, world).value;
  }

  lemma {:induction false} LateApprovalEffect(db: Db, world: World, after: Db)
    requires LateHere(db) && DecideStep(db, 0, true, world) == Ok(after)
    ensures |after.handoffs| == 2 && after.handoffs[0] == db.handoffs[0]
    ensures after.handoffs[1].active && after.handoffs[1].stage == 4
  {
    DecideRecordsOne(db, 0, true, world, after);
  }

  lemma DecideApplies(db: Db, a: nat, approved: bool, world: World, after: Db)
    requires DecideStep(db, a, approved, world) == Ok(after)
    ensures Next(db, Decide(a, approved), world) == after
  {
  }

  /** Approving the superseded attempt hands the last stage off a second time. */
  lemma {:induction false} LateApprovalHandsOffTwice() returns (db: Db)
    ensures Reaches(Fresh(), db) && LateHere(db) && Orderly(db)
    ensures var after := Next(db, Decide(0, true), Both());
            && Orderly(after) && |after.handoffs| == 2
            && after.handoffs[0].active && after.handoffs[0].stage == 4
            && after.handoffs[1].active && after.handoffs[1].stage == 4
  {
    db := LateReached();
    var after := LateApproval(db, Both());
    LateApprovalEffect(db, Both(), after);
    DecideApplies(db, 0, true, Both(), after);
    HandoffOrderlyIff(db, Decide(0, true), Both());
  }

  /** Rejecting it sets the workflow running although its current attempt is done. */
  lemma {:induction false} LateRejectionRuns() returns (db: Db)
    ensures Reaches(Fresh(), db) && LateHere(db) && Orderly(db)
    ensures var after := Next(db, Decide(0, false), Both());
            && after.status == Running && Current(after.runs, 4) == Some(6) && after.runs[6].state == Done
            && !Orderly(after)
  {
    db := LateReached();
    var after := DecideStep(db, 0, false, Both()).value;
    RejectionSendsBack(db, 0, Both(), after);
    WithStateCurrent(db.runs, 4, NeedsFix, 4);
    OrderKeptIff(db, Decide(0, false), Both());
  }
}
