/**
 The governance calls that loop over artifact versions, step by step, against the functions
 of `GovernanceState`.
 */
module GovernanceService {
  import opened Wrappers
  import ProjectPaths
  import PythonText
  import opened GovernanceState

  class Service {
    var db: Db

    constructor ()
      ensures db == Fresh()
    {
      db := Fresh();
    }

    method CreateArtifactVersion(r: nat, name: string, path: string, world: World) returns (outcome: Outcome)
      modifies this
      ensures outcome == CreateVersionStep(old(db), r, name, path, world)
      ensures db == Next(old(db), CreateVersion(r, name, path), world)
    {
      if r >= |db.runs| {
        return Err("stage_run.not_found");
      }
      var run := db.runs[r];
      if db.stage != run.stage {
        return Err("artifact.stage_not_current");
      }
      if run.state !in {Producing, Reviewing, Checking, NeedsFix} {
        return Err("artifact.stage_not_producing");
      }
      if !ProjectPaths.Under(path, "artifacts/" + StageName(run.stage)) {
        return Err("artifact.path_out_of_scope");
      }
      if path !in world.files {
        return Err("file.not_found");
      }
      var content := world.files[path];
      var artifacts := db.artifacts;
      var filed := PythonText.Strip(name);
      var artifact := FindArtifact(artifacts, run.stage, filed);
      if artifact == None {
        if !Nameable(filed) {
          return Err("artifact name is invalid");
        }
        if PathTaken(artifacts, path) {
          return Err("uq_artifacts_workflow_path");
        }
        artifact := Some(|artifacts|);
        artifacts := artifacts + [Artifact(run.stage, filed, path)];
      } else if artifacts[artifact.value].path != path {
        return Err("artifact.path_conflict");
      } else if Unchanged(db.versions, artifact.value, content) {
        return Ok(db);
      }
      var latest := Latest(db.versions, artifact.value);
      var number := if latest == None then 1 else db.versions[latest.value].number + 1;
      var version := Version(artifact.value, r, number, content, Draft, latest, None);
      db := db.(artifacts := artifacts, versions := AddVersion(db.versions, version));
      outcome := Ok(db);
    }

    method EvaluateGate(r: nat, ids: seq<nat>, world: World) returns (outcome: Outcome)
      modifies this
      ensures outcome == EvaluateStep(old(db), r, ids, world)
      ensures db == Next(old(db), Evaluate(r, ids), world)
    {
      if ids == [] || exists i, j :: 0 <= i < j < |ids| && ids[i] == ids[j] {
        return Err("quality_gate.artifacts_invalid");
      }
      if r >= |db.runs| {
        return Err("stage_run.not_found");
      }
      if db.stage != db.runs[r].stage {
        return Err("stage_run.not_current");
      }
      if db.runs[r].state != Checking {
        return Err("quality_gate.stage_not_checking");
      }
      var readable, issues, versions := InspectAll(db, r, ids, world);
      if !readable {
        return Err("file.not_found");
      }
      issues := KeepFirst(issues + ContextIssues(db.runs[r].stage, world));
      var status := StatusOf(issues);
      var resolution := Pending;
      if status == Fail || (status == Warning && db.mode == Autonomous) {
        resolution := RewriteRequired;
      } else if status == Pass && db.mode == Autonomous {
        resolution := Automatic;
      }
      outcome := Settle(db, Gate(r, status, resolution, issues, versions, db.mode), world);
      if outcome.Ok? {
        db := outcome.value;
      }
    }

    method DecideGateApproval(a: nat, approved: bool, world: World) returns (outcome: Outcome)
      modifies this
      ensures outcome == DecideStep(old(db), a, approved, world)
      ensures db == Next(old(db), Decide(a, approved), world)
    {
      if a >= |db.approvals| {
        return Err("approval.not_found");
      }
      var g := db.approvals[a].gate;
      if g >= |db.gates| || db.gates[g].run >= |db.runs| {
        return Err("quality gate approval target is missing");
      }
      var gate := db.gates[g];
      if db.stage != db.runs[gate.run].stage {
        return Err("stage_run.not_current");
      }
      if db.runs[gate.run].state != WaitingApproval {
        return Err("approval.stage_not_waiting");
      }
      if db.approvals[a].decision != Undecided {
        return Err("approval.already_decided");
      }
      if approved && gate.status == Fail {
        return Err("approval.gate_failed");
      }
      if gate.resolution != Pending {
        return Err("quality_gate.already_resolved");
      }
      var work := Decided(db, a, approved);
      if approved {
        outcome := FinalizeGate(work, g, world);
        if outcome.Err? {
          return;
        }
        work := outcome.value;
      } else {
        work := SentBack(work, g, NeedsFix);
      }
      db := work;
      outcome := Ok(work);
    }
  }

  /** The first loop of a gate evaluation: issues and accepted versions, in the order asked for. */
  method InspectAll(db: Db, r: nat, ids: seq<nat>, world: World)
    returns (readable: bool, issues: seq<Issue>, versions: seq<nat>)
    requires r < |db.runs|
    ensures readable <==> AllReadable(db, r, ids, world)
    ensures readable ==> issues == ArtifactIssues(db, r, ids, world) && versions == AcceptedIds(db, r, ids, world)
  {
    readable, issues, versions := true, [], [];
    for k := 0 to |ids|
      invariant readable && AllReadable(db, r, ids[..k], world)
      invariant issues == ArtifactIssues(db, r, ids[..k], world) && versions == AcceptedIds(db, r, ids[..k], world)
    {
      var id := ids[k];
      assert ids[..k + 1][..k] == ids[..k] && ids[..k + 1][k] == id;
      if id >= |db.versions| {
        issues := issues + [ArtifactMissing];
        continue;
      }
      var version := db.versions[id];
      if || version.artifact >= |db.artifacts| || db.artifacts[version.artifact].stage != db.runs[r].stage
         || version.run != r || version.status != Draft
      {
        issues := issues + [ArtifactInvalid];
        continue;
      }
      var path := db.artifacts[version.artifact].path;
      if path !in world.files {
        assert Inspect(db, r, ids[k], world) == Unreadable;
        return false, issues, versions;
      }
      if world.files[path] != version.content {
        issues := issues + [ArtifactChanged];
        continue;
      }
      versions := versions + [id];
    }
    assert ids[..|ids|] == ids;
  }

  /** `{issue.code: issue}`: one issue a code. */
  method KeepFirst(issues: seq<Issue>) returns (kept: seq<Issue>)
    ensures kept == Distinct(issues)
  {
    kept := [];
    for k := 0 to |issues|
      invariant kept == Distinct(issues[..k])
    {
      assert issues[..k + 1][..k] == issues[..k];
      if issues[k] !in kept {
        kept := kept + [issues[k]];
      }
    }
    assert issues[..|issues|] == issues;
  }

  /** What follows from the new gate's resolution. */
  method Settle(db: Db, gate: Gate, world: World) returns (outcome: Outcome)
    requires gate.run < |db.runs| && gate.resolution != Approved
    ensures gate.resolution == Automatic ==> outcome == Finalize(Recorded(db, gate), |db.gates|, world)
    ensures gate.resolution == RewriteRequired ==>
              outcome == Ok(SentBack(Recorded(db, gate), |db.gates|,
                                     if gate.status == Warning then WarningHeld else NeedsFix))
    ensures gate.resolution == Pending ==>
              match MoveStage(Recorded(db, gate), gate.run, WaitingApproval)
              case Err(e) => outcome == Err(e)
              case Ok(moved) =>
                outcome == Ok(moved.(status := WaitingUser, approvals := moved.approvals + [Approval(|db.gates|, Undecided)]))
  {
    var recorded := Recorded(db, gate);
    if gate.resolution == Pending {
      var moved := MoveStage(recorded, gate.run, WaitingApproval);
      if moved.Err? {
        return moved;
      }
      var waiting := moved.value.(status := WaitingUser);
      outcome := Ok(waiting.(approvals := waiting.approvals + [Approval(|db.gates|, Undecided)]));
    } else if gate.resolution == Automatic {
      outcome := FinalizeGate(recorded, |db.gates|, world);
    } else {
      outcome := Ok(SentBack(recorded, |db.gates|, if gate.status == Warning then WarningHeld else NeedsFix));
    }
  }

  method FinalizeGate(db: Db, g: nat, world: World) returns (outcome: Outcome)
    requires g < |db.gates| && db.gates[g].run < |db.runs|
    ensures outcome == Finalize(db, g, world)
  {
    var ids := db.gates[g].versions;
    for k := 0 to |ids|
      invariant FirstObstacle(db, ids[..k], world) == None
    {
      var id := ids[k];
      assert ids[..k + 1][..k] == ids[..k] && ids[..k + 1][k] == id;
      var obstacle := Obstacle(db, id, world);
      if obstacle.Some? {
        EarlyObstacle(db, ids, world, k);
        return Err(obstacle.value);
      }
    }
    assert ids[..|ids|] == ids;
    if !world.capturable {
      return Err("checkpoint");
    }
    AllLockable(db, ids, world);
    var versions := LockVersions(db.versions, ids, db.checkpoints);
    var work := db.(versions := versions, checkpoints := db.checkpoints + 1);
    assert work == LockedFor(db, g);
    outcome := Finish(work, db.gates[g].run, PacketFor(db, g));
  }

  lemma AllLockable(db: Db, ids: seq<nat>, world: World)
    requires FirstObstacle(db, ids, world) == None
    ensures forall i :: 0 <= i < |ids| ==> ids[i] < |db.versions|
  {
  }

  lemma {:induction false} EarlyObstacle(db: Db, ids: seq<nat>, world: World, k: nat)
    requires k < |ids| && FirstObstacle(db, ids[..k], world) == None && Obstacle(db, ids[k], world).Some?
    ensures FirstObstacle(db, ids, world) == Obstacle(db, ids[k], world)
  {
    var n := |ids| - 1;
    if k < n {
      assert ids[..n][..k] == ids[..k];
      EarlyObstacle(db, ids[..n], world, k);
    }
  }

  /** `lock_artifact_versions`, one row after the other. */
  method LockVersions(versions: seq<Version>, ids: seq<nat>, checkpoint: nat) returns (locked: seq<Version>)
    requires forall i :: 0 <= i < |ids| ==> ids[i] < |versions|
    ensures locked == LockedAt(versions, ids, checkpoint)
  {
    locked := versions;
    for k := 0 to |ids|
      invariant |locked| == |versions|
      invariant forall v :: 0 <= v < |versions| ==>
                  locked[v] == if v in ids[..k]
                               then versions[v].(status := LockedVersion, checkpoint := Some(checkpoint)) else versions[v]
    {
      var id := ids[k];
      assert forall v :: v in ids[..k + 1] <==> v in ids[..k] || v == id;
      locked := locked[id := locked[id].(status := LockedVersion, checkpoint := Some(checkpoint))];
    }
    assert ids[..|ids|] == ids;
  }
}
