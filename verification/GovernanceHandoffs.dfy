/**
 What a later stage builds on: the active handoffs of earlier stages and the artifact versions
 they hold.
 */
module GovernanceHandoffs {
  import opened Wrappers
  import opened GovernanceState
  import opened GovernanceGates
  import opened GovernanceArtifacts
  import opened GovernanceStages
  import GovernanceOrder
  import PythonText

  /** The stage a version was made in, as far as the records tell. */
  predicate MadeIn(artifacts: seq<Artifact>, versions: seq<Version>, v: nat, stage: nat) {
    v < |versions| && versions[v].artifact < |artifacts| && artifacts[versions[v].artifact].stage == stage
  }

  ghost predicate AllMadeIn(artifacts: seq<Artifact>, versions: seq<Version>, ids: seq<nat>, stage: nat) {
    forall i :: 0 <= i < |ids| ==> MadeIn(artifacts, versions, ids[i], stage)
  }

  ghost predicate AllLocked(versions: seq<Version>, ids: seq<nat>) {
    forall i :: 0 <= i < |ids| ==> ids[i] < |versions| && versions[ids[i]].status == LockedVersion
  }

  /** A handoff that a later stage may rely on; the last stage hands off to nobody. */
  predicate Relied(handoff: Handoff) {
    handoff.active && handoff.stage < STAGES - 1
  }

  ghost predicate HandoffHolds(artifacts: seq<Artifact>, versions: seq<Version>, stage: nat, handoff: Handoff) {
    && AllMadeIn(artifacts, versions, handoff.versions, handoff.stage)
    && (Relied(handoff) ==> handoff.stage < stage && AllLocked(versions, handoff.versions))
  }

  ghost predicate GatesMade(runs: seq<Run>, artifacts: seq<Artifact>, versions: seq<Version>, gates: seq<Gate>) {
    forall g :: 0 <= g < |gates| ==>
                  && gates[g].run < |runs|
                  && AllMadeIn(artifacts, versions, gates[g].versions, runs[gates[g].run].stage)
  }

  ghost predicate SoundHandoffs(db: Db) {
    && GatesMade(db.runs, db.artifacts, db.versions, db.gates)
    && (forall h :: 0 <= h < |db.handoffs| ==> HandoffHolds(db.artifacts, db.versions, db.stage, db.handoffs[h]))
    && (forall i, j :: 0 <= i < j < |db.handoffs| && Relied(db.handoffs[i]) && Relied(db.handoffs[j]) ==>
          db.handoffs[i].stage != db.handoffs[j].stage)
  }

  // ---------------------------------------------------------------- what may change

  /** Versions and artifacts are only added, and a version keeps its artifact. */
  ghost predicate Grows(artifacts: seq<Artifact>, versions: seq<Version>, moreArtifacts: seq<Artifact>,
                        moreVersions: seq<Version>) {
    && artifacts <= moreArtifacts
    && |versions| <= |moreVersions|
    && forall v :: 0 <= v < |versions| ==> moreVersions[v].artifact == versions[v].artifact
  }

  lemma MadeInKept(artifacts: seq<Artifact>, versions: seq<Version>, moreArtifacts: seq<Artifact>,
                   moreVersions: seq<Version>, ids: seq<nat>, stage: nat)
    requires Grows(artifacts, versions, moreArtifacts, moreVersions) && AllMadeIn(artifacts, versions, ids, stage)
    ensures AllMadeIn(moreArtifacts, moreVersions, ids, stage)
  {
    forall i | 0 <= i < |ids| ensures MadeIn(moreArtifacts, moreVersions, ids[i], stage) {
      assert MadeIn(artifacts, versions, ids[i], stage);
    }
  }

  lemma GatesMadeKept(runs: seq<Run>, moreRuns: seq<Run>, artifacts: seq<Artifact>, versions: seq<Version>,
                      moreArtifacts: seq<Artifact>, moreVersions: seq<Version>, gates: seq<Gate>)
    requires GatesMade(runs, artifacts, versions, gates)
    requires Grows(artifacts, versions, moreArtifacts, moreVersions)
    requires |runs| <= |moreRuns| && forall r :: 0 <= r < |runs| ==> moreRuns[r].stage == runs[r].stage
    ensures GatesMade(moreRuns, moreArtifacts, moreVersions, gates)
  {
    forall g | 0 <= g < |gates|
      ensures gates[g].run < |moreRuns|
              && AllMadeIn(moreArtifacts, moreVersions, gates[g].versions, moreRuns[gates[g].run].stage)
    {
      MadeInKept(artifacts, versions, moreArtifacts, moreVersions, gates[g].versions, runs[gates[g].run].stage);
    }
  }

  /** Versions made in earlier stages stay as they are. */
  ghost predicate EarlierKept(artifacts: seq<Artifact>, versions: seq<Version>, after: seq<Version>, stage: nat) {
    && |versions| <= |after|
    && forall v: nat, s: nat :: v < |versions| && s < stage && MadeIn(artifacts, versions, v, s) ==>
                        after[v].status == versions[v].status
  }

  lemma HoldsKept(artifacts: seq<Artifact>, versions: seq<Version>, moreArtifacts: seq<Artifact>, after: seq<Version>,
                  stage: nat, now: nat, handoff: Handoff)
    requires HandoffHolds(artifacts, versions, stage, handoff)
    requires Grows(artifacts, versions, moreArtifacts, after) && EarlierKept(artifacts, versions, after, stage)
    requires stage <= now
    ensures HandoffHolds(moreArtifacts, after, now, handoff)
  {
    MadeInKept(artifacts, versions, moreArtifacts, after, handoff.versions, handoff.stage);
    if Relied(handoff) {
      forall i | 0 <= i < |handoff.versions|
        ensures handoff.versions[i] < |after| && after[handoff.versions[i]].status == LockedVersion
      {
        assert MadeIn(artifacts, versions, handoff.versions[i], handoff.stage);
      }
    }
  }

  lemma RecallHolds(artifacts: seq<Artifact>, versions: seq<Version>, stage: nat, handoffs: seq<Handoff>, from: nat,
                    now: nat, h: nat)
    requires h < |handoffs| && HandoffHolds(artifacts, versions, stage, handoffs[h]) && from <= now
    ensures HandoffHolds(artifacts, Withdrawn(versions, artifacts, from), now, Recalled(handoffs, from)[h])
  {
    var after, ids := Withdrawn(versions, artifacts, from), handoffs[h].versions;
    MadeInKept(artifacts, versions, artifacts, after, ids, handoffs[h].stage);
    if Relied(Recalled(handoffs, from)[h]) {
      forall i | 0 <= i < |ids| ensures ids[i] < |after| && after[ids[i]].status == LockedVersion {
        assert MadeIn(artifacts, versions, ids[i], handoffs[h].stage);
      }
    }
  }

  // ------------------------------------------------------------------ each call

  lemma WithdrawnHandoffs(db: Db, from: nat, runs: seq<Run>, now: nat, after: Db)
    requires SoundHandoffs(db) && from <= now
    requires |db.runs| <= |runs| && forall r :: 0 <= r < |db.runs| ==> runs[r].stage == db.runs[r].stage
    requires after.runs == runs && after.stage == now && after.artifacts == db.artifacts && after.gates == db.gates
    requires after.versions == Withdrawn(db.versions, db.artifacts, from)
    requires after.handoffs == Recalled(db.handoffs, from)
    ensures SoundHandoffs(after)
  {
    GatesMadeKept(db.runs, runs, db.artifacts, db.versions, db.artifacts, after.versions, db.gates);
    forall h | 0 <= h < |after.handoffs|
      ensures HandoffHolds(after.artifacts, after.versions, after.stage, after.handoffs[h])
    {
      RecallHolds(db.artifacts, db.versions, db.stage, db.handoffs, from, now, h);
    }
  }

  /** Calls that only move stages and statuses: the workflow's stage never goes back. */
  lemma MovedHandoffs(db: Db, after: Db)
    requires SoundHandoffs(db) && |after.runs| == |db.runs| && db.stage <= after.stage
    requires forall r :: 0 <= r < |db.runs| ==> after.runs[r].stage == db.runs[r].stage
    requires after.artifacts == db.artifacts && after.versions == db.versions && after.gates == db.gates
    requires after.handoffs == db.handoffs
    ensures SoundHandoffs(after)
  {
    GatesMadeKept(db.runs, after.runs, db.artifacts, db.versions, db.artifacts, db.versions, db.gates);
    forall h | 0 <= h < |after.handoffs|
      ensures HandoffHolds(after.artifacts, after.versions, after.stage, after.handoffs[h])
    {
      HoldsKept(db.artifacts, db.versions, db.artifacts, db.versions, db.stage, after.stage, db.handoffs[h]);
    }
  }

  lemma AddedHandoffs(db: Db, version: Version, artifacts: seq<Artifact>)
    requires SoundHandoffs(db) && db.artifacts <= artifacts
    requires version.artifact < |artifacts| && artifacts[version.artifact].stage == db.stage
    ensures SoundHandoffs(db.(artifacts := artifacts, versions := AddVersion(db.versions, version)))
  {
    var versions := AddVersion(db.versions, version);
    GatesMadeKept(db.runs, db.runs, db.artifacts, db.versions, artifacts, versions, db.gates);
    assert EarlierKept(db.artifacts, db.versions, versions, db.stage) by {
      forall v: nat, s: nat | v < |db.versions| && s < db.stage && MadeIn(db.artifacts, db.versions, v, s)
        ensures versions[v].status == db.versions[v].status
      {
        assert db.versions[v].artifact != version.artifact;
      }
    }
    forall h | 0 <= h < |db.handoffs| ensures HandoffHolds(artifacts, versions, db.stage, db.handoffs[h]) {
      HoldsKept(db.artifacts, db.versions, artifacts, versions, db.stage, db.stage, db.handoffs[h]);
    }
  }

  lemma {:induction false} AcceptedMadeIn(db: Db, r: nat, ids: seq<nat>, world: World)
    requires r < |db.runs|
    ensures AllMadeIn(db.artifacts, db.versions, AcceptedIds(db, r, ids, world), db.runs[r].stage)
  {
    if ids != [] { AcceptedMadeIn(db, r, ids[..|ids| - 1], world); }
  }

  lemma RecordedHandoffs(db: Db, gate: Gate)
    requires SoundHandoffs(db) && gate.run < |db.runs|
    requires AllMadeIn(db.artifacts, db.versions, gate.versions, db.runs[gate.run].stage)
    ensures SoundHandoffs(Recorded(db, gate))
  {
  }

  lemma LockedEarlierKept(db: Db, ids: seq<nat>, checkpoint: nat, stage: nat)
    requires AllMadeIn(db.artifacts, db.versions, ids, stage)
    ensures EarlierKept(db.artifacts, db.versions, LockedAt(db.versions, ids, checkpoint), stage)
  {
    forall v: nat, s: nat | v < |db.versions| && s < stage && MadeIn(db.artifacts, db.versions, v, s)
      ensures v !in ids
    {
      forall i | 0 <= i < |ids| ensures ids[i] != v { assert MadeIn(db.artifacts, db.versions, ids[i], stage); }
    }
  }

  /** The new handoff takes over what the gate judged, locked. */
  lemma PacketHolds(db: Db, g: nat, world: World, now: nat)
    requires SoundHandoffs(db) && g < |db.gates| && db.gates[g].run < |db.runs|
    requires FirstObstacle(db, db.gates[g].versions, world) == None
    requires now == db.runs[db.gates[g].run].stage + 1 || now == db.runs[db.gates[g].run].stage == STAGES - 1
    ensures HandoffHolds(db.artifacts, LockedFor(db, g).versions, now, PacketFor(db, g))
  {
    var ids, versions := db.gates[g].versions, LockedFor(db, g).versions;
    DraftsOnly(db, ids, world);
    MadeInKept(db.artifacts, db.versions, db.artifacts, versions, ids, db.runs[db.gates[g].run].stage);
    forall i | 0 <= i < |ids| ensures ids[i] < |versions| && versions[ids[i]].status == LockedVersion {
      assert ids[i] in ids;
    }
  }

  lemma FinalizeHandoffs(db: Db, g: nat, world: World, after: Db)
    requires SoundHandoffs(db) && g < |db.gates| && db.gates[g].run < |db.runs|
    requires Finalize(db, g, world) == Ok(after)
    ensures SoundHandoffs(after)
  {
    var r, ids := db.gates[g].run, db.gates[g].versions;
    var locked, packet := LockedFor(db, g), PacketFor(db, g);
    FinalizeFrame(db, g, world, after);
    FinishMoves(locked, r, packet, after);
    GovernanceOrder.FinishMovesOn(locked, r, packet, after);
    FinishLast(locked, r, packet, after);
    LockedEarlierKept(db, ids, db.checkpoints, db.stage);
    PacketHolds(db, g, world, after.stage);
    HandedOver(db, after, locked.versions, packet);
  }

  /** Only the last stage completes the workflow in place. */
  lemma FinishLast(db: Db, r: nat, handoff: Handoff, after: Db)
    requires r < |db.runs| && Finish(db, r, handoff) == Ok(after)
    ensures after.stage == db.stage ==> db.stage == STAGES - 1
  {
  }

  lemma HandedOver(db: Db, after: Db, versions: seq<Version>, packet: Handoff)
    requires SoundHandoffs(db) && |after.runs| == |db.runs| && db.stage <= after.stage
    requires forall r :: 0 <= r < |db.runs| ==> after.runs[r].stage == db.runs[r].stage
    requires after.artifacts == db.artifacts && after.gates == db.gates && after.versions == versions
    requires after.handoffs == db.handoffs + [packet] && packet.stage == db.stage
    requires Grows(db.artifacts, db.versions, db.artifacts, versions)
    requires EarlierKept(db.artifacts, db.versions, versions, db.stage)
    requires HandoffHolds(db.artifacts, versions, after.stage, packet)
    ensures SoundHandoffs(after)
  {
    GatesMadeKept(db.runs, after.runs, db.artifacts, db.versions, db.artifacts, versions, db.gates);
    forall h | 0 <= h < |db.handoffs| ensures HandoffHolds(db.artifacts, versions, after.stage, db.handoffs[h]) {
      HoldsKept(db.artifacts, db.versions, db.artifacts, versions, db.stage, after.stage, db.handoffs[h]);
    }
    forall i, j | 0 <= i < j < |after.handoffs| && Relied(after.handoffs[i]) && Relied(after.handoffs[j])
      ensures after.handoffs[i].stage != after.handoffs[j].stage
    {
      assert after.handoffs[i] == db.handoffs[i];
      assert HandoffHolds(db.artifacts, db.versions, db.stage, db.handoffs[i]);
    }
  }

  lemma EvaluateHandoffs(db: Db, r: nat, ids: seq<nat>, world: World, after: Db)
    requires SoundHandoffs(db) && EvaluateStep(db, r, ids, world) == Ok(after)
    ensures SoundHandoffs(after)
  {
    var gate := Judged(db, r, ids, world);
    AcceptedMadeIn(db, r, ids, world);
    RecordedHandoffs(db, gate);
    var recorded := Recorded(db, gate);
    if gate.resolution == Automatic {
      FinalizeHandoffs(recorded, |db.gates|, world, after);
    } else if gate.resolution == Pending {
      var moved := MoveStage(recorded, r, WaitingApproval).value;
      MoveFrame(recorded, r, WaitingApproval, moved);
      MovedHandoffs(recorded, after);
    } else {
      MovedHandoffs(recorded, after);
    }
  }

  lemma DecideHandoffs(db: Db, a: nat, approved: bool, world: World, after: Db)
    requires SoundHandoffs(db) && DecideStep(db, a, approved, world) == Ok(after)
    ensures SoundHandoffs(after)
  {
    var decided := Decided(db, a, approved);
    assert SoundHandoffs(decided);
    if approved {
      FinalizeHandoffs(decided, db.approvals[a].gate, world, after);
    } else {
      MovedHandoffs(decided, after);
    }
  }

  lemma CreateHandoffs(db: Db, r: nat, name: string, path: string, world: World, after: Db)
    requires SoundHandoffs(db) && CreateVersionStep(db, r, name, path, world) == Ok(after)
    ensures SoundHandoffs(after)
  {
    if after != db {
      var found := FindArtifact(db.artifacts, db.runs[r].stage, PythonText.Strip(name));
      var artifact := if found == None then |db.artifacts| else found.value;
      AddedHandoffs(db, NewVersion(db.versions, artifact, r, world.files[path]), after.artifacts);
    }
  }

  lemma ReopenHandoffs(db: Db, stage: Stage, active: bool, after: Db)
    requires SoundHandoffs(db) && ReopenStep(db, stage, active) == Ok(after)
    ensures SoundHandoffs(after)
  {
    WithdrawnHandoffs(db, stage, after.runs, stage, after);
  }

  lemma OtherHandoffs(db: Db, step: Step, world: World, after: Db)
    requires SoundHandoffs(db) && Apply(db, step, world) == Ok(after)
    requires !step.Evaluate? && !step.Decide? && !step.CreateVersion? && !step.Reopen? && !step.RequestChange?
    ensures SoundHandoffs(after)
  {
    if step.Transition? {
      var r := Current(db.runs, step.stage).value;
      MoveFrame(db, r, step.target, MoveStage(db, r, step.target).value);
    }
    MovedHandoffs(db, after);
  }

  lemma NextHandoffs(db: Db, step: Step, world: World)
    requires SoundHandoffs(db)
    ensures SoundHandoffs(Next(db, step, world))
  {
    var outcome := Apply(db, step, world);
    if outcome.Ok? {
      match step
      case Evaluate(r, ids) => EvaluateHandoffs(db, r, ids, world, outcome.value);
      case Decide(a, approved) => DecideHandoffs(db, a, approved, world, outcome.value);
      case CreateVersion(r, name, path) => CreateHandoffs(db, r, name, path, world, outcome.value);
      case Reopen(stage, active) => ReopenHandoffs(db, stage, active, outcome.value);
      case RequestChange(from, _) => WithdrawnHandoffs(db, from, db.runs, db.stage, outcome.value);
      case _ => OtherHandoffs(db, step, world, outcome.value);
    }
  }

  lemma {:induction false} RunHandoffs(db: Db, steps: seq<Step>, worlds: seq<World>)
    requires SoundHandoffs(db) && |steps| == |worlds|
    ensures SoundHandoffs(RunAll(db, steps, worlds))
    decreases |steps|
  {
    if steps != [] {
      NextHandoffs(db, steps[0], worlds[0]);
      RunHandoffs(Next(db, steps[0], worlds[0]), steps[1..], worlds[1..]);
    }
  }

  /**
   In every run an active handoff to a later stage comes from a stage before the workflow's own,
   all its versions are still locked, and no other active handoff comes from the same stage.
   */
  lemma ActiveHandoffsHold(steps: seq<Step>, worlds: seq<World>, h: nat, k: nat)
    requires |steps| == |worlds|
    ensures var db := RunAll(Fresh(), steps, worlds);
            && (h < |db.handoffs| && Relied(db.handoffs[h]) ==>
                  db.handoffs[h].stage < db.stage && AllLocked(db.versions, db.handoffs[h].versions))
            && ((&& h < |db.handoffs| && k < |db.handoffs| && Relied(db.handoffs[h]) && Relied(db.handoffs[k])
                 && db.handoffs[h].stage == db.handoffs[k].stage) ==> h == k)
  {
    var db := RunAll(Fresh(), steps, worlds);
    RunHandoffs(Fresh(), steps, worlds);
    if h < |db.handoffs| {
      assert HandoffHolds(db.artifacts, db.versions, db.stage, db.handoffs[h]);
    }
  }

  /** Reopening a stage, or asking for a change in it, leaves nothing current from there on and the rest alone. */
  lemma WithdrawalMeans(db: Db, step: Step, world: World, from: Stage, v: nat, h: nat)
    requires (step.RequestChange? && step.from == from) || (step.Reopen? && step.stage == from)
    requires Apply(db, step, world).Ok? && v < |db.versions| && h < |db.handoffs|
    ensures var after := Next(db, step, world);
            var late := db.versions[v].artifact < |db.artifacts| && db.artifacts[db.versions[v].artifact].stage >= from;
            && after.versions[v].status
               == (if late && !Retired(db.versions[v].status) then Invalidated else db.versions[v].status)
            && after.handoffs[h].active == (db.handoffs[h].active && db.handoffs[h].stage < from)
  {
  }
}
