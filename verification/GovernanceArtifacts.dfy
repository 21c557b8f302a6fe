/**
 Artifact versions over every run of the governance calls: how they are numbered, and which
 handoff holds them.
 */
module GovernanceArtifacts {
  import opened Wrappers
  import opened GovernanceState
  import opened GovernanceGates
  import ProjectPaths
  import PythonText

  predicate Retired(status: VersionStatus) {
    status == Superseded || status == Invalidated
  }

  /** A version follows the one it supersedes directly. */
  predicate Follows(versions: seq<Version>, v: nat)
    requires v < |versions|
  {
    match versions[v].supersedes
    case None => versions[v].number == 1
    case Some(p) => p < v && versions[p].artifact == versions[v].artifact && versions[v].number == versions[p].number + 1
  }

  /** The versions of each artifact are numbered 1, 2, ... without a gap; only the last can be current. */
  ghost predicate Chained(versions: seq<Version>) {
    && (forall v :: 0 <= v < |versions| ==> Follows(versions, v))
    && (forall i, j :: 0 <= i < j < |versions| && versions[i].artifact == versions[j].artifact ==>
          versions[i].number < versions[j].number && Retired(versions[i].status))
  }

  /** Everything about a version that never changes; a checkpoint is set at most once. */
  predicate SameVersion(before: Version, after: Version) {
    && before.artifact == after.artifact && before.run == after.run && before.number == after.number
    && before.content == after.content && before.supersedes == after.supersedes
    && (before.checkpoint.Some? ==> after.checkpoint == before.checkpoint)
    && (before.status != Draft ==> after.checkpoint == before.checkpoint && after.status != Draft)
    && (Retired(before.status) ==> Retired(after.status))
  }

  ghost predicate Extends(before: seq<Version>, after: seq<Version>) {
    && |before| <= |after|
    && forall v :: 0 <= v < |before| ==> SameVersion(before[v], after[v])
  }

  lemma ExtendsTransitive(a: seq<Version>, b: seq<Version>, c: seq<Version>)
    requires Extends(a, b) && Extends(b, c)
    ensures Extends(a, c)
  {
  }

  lemma ChainedKept(before: seq<Version>, after: seq<Version>)
    requires Chained(before) && Extends(before, after) && |before| == |after|
    ensures Chained(after)
  {
    forall v | 0 <= v < |after| ensures Follows(after, v) {
      assert Follows(before, v) && SameVersion(before[v], after[v]);
      if before[v].supersedes.Some? { assert SameVersion(before[before[v].supersedes.value], after[before[v].supersedes.value]); }
    }
    forall i, j | 0 <= i < j < |after| && after[i].artifact == after[j].artifact
      ensures after[i].number < after[j].number && Retired(after[i].status)
    {
      assert SameVersion(before[i], after[i]) && SameVersion(before[j], after[j]);
    }
  }

  lemma LatestIsLast(versions: seq<Version>, artifact: nat)
    requires Chained(versions)
    ensures match Latest(versions, artifact)
            case None => true
            case Some(l) => forall i :: l < i < |versions| ==> versions[i].artifact != artifact
  {
  }

  lemma AddVersionExtends(versions: seq<Version>, version: Version)
    ensures Extends(versions, AddVersion(versions, version))
    ensures |AddVersion(versions, version)| == |versions| + 1
    ensures AddVersion(versions, version)[|versions|] == version
  {
  }

  lemma AddVersionRetires(versions: seq<Version>, version: Version, i: nat)
    requires Chained(versions) && i < |versions| && versions[i].artifact == version.artifact
    ensures Retired(AddVersion(versions, version)[i].status)
  {
  }

  lemma NewVersionChains(versions: seq<Version>, artifact: nat, run: nat, content: string)
    requires Chained(versions)
    ensures Chained(AddVersion(versions, NewVersion(versions, artifact, run, content)))
  {
    var version := NewVersion(versions, artifact, run, content);
    var after := AddVersion(versions, version);
    AddVersionExtends(versions, version);
    forall v | 0 <= v < |after| ensures Follows(after, v) {
      if v < |versions| {
        assert Follows(versions, v) && SameVersion(versions[v], after[v]);
        if versions[v].supersedes.Some? {
          assert SameVersion(versions[versions[v].supersedes.value], after[versions[v].supersedes.value]);
        }
      } else if version.supersedes.Some? {
        assert SameVersion(versions[version.supersedes.value], after[version.supersedes.value]);
      }
    }
    forall i, j | 0 <= i < j < |after| && after[i].artifact == after[j].artifact
      ensures after[i].number < after[j].number && Retired(after[i].status)
    {
      assert SameVersion(versions[i], after[i]);
      if j < |versions| {
        assert SameVersion(versions[j], after[j]);
      } else {
        AddVersionRetires(versions, version, i);
      }
    }
  }

  lemma WithdrawnExtends(versions: seq<Version>, artifacts: seq<Artifact>, from: nat)
    ensures Extends(versions, Withdrawn(versions, artifacts, from))
    ensures |Withdrawn(versions, artifacts, from)| == |versions|
  {
  }

  // -------------------------------------------------------------------- handoffs

  /** The versions of a handoff carry its checkpoint. */
  ghost predicate Holds(versions: seq<Version>, handoff: Handoff) {
    forall i :: 0 <= i < |handoff.versions| ==>
                  && handoff.versions[i] < |versions|
                  && versions[handoff.versions[i]].checkpoint == Some(handoff.checkpoint)
  }

  /** A version carries a checkpoint exactly when one handoff holds it. */
  ghost predicate Held(versions: seq<Version>, handoffs: seq<Handoff>, checkpoints: nat) {
    && (forall h :: 0 <= h < |handoffs| ==> handoffs[h].checkpoint < checkpoints)
    && (forall i, j :: 0 <= i < j < |handoffs| ==> handoffs[i].checkpoint != handoffs[j].checkpoint)
    && (forall h :: 0 <= h < |handoffs| ==> Holds(versions, handoffs[h]))
    && (forall v :: 0 <= v < |versions| && versions[v].status == Draft ==> versions[v].checkpoint == None)
    && (forall v :: 0 <= v < |versions| && versions[v].checkpoint.Some? ==> HandedOff(handoffs, v))
  }

  predicate HandedOff(handoffs: seq<Handoff>, v: nat) {
    exists h :: 0 <= h < |handoffs| && v in handoffs[h].versions
  }

  lemma {:induction false} ObstacleFree(db: Db, ids: seq<nat>, world: World, i: nat)
    requires FirstObstacle(db, ids, world) == None && i < |ids|
    ensures Obstacle(db, ids[i], world) == None
  {
    if i < |ids| - 1 { ObstacleFree(db, ids[..|ids| - 1], world, i); }
  }

  lemma LockedAtExtends(versions: seq<Version>, ids: seq<nat>, checkpoint: nat)
    requires forall i :: 0 <= i < |ids| ==> ids[i] < |versions| && versions[ids[i]].status == Draft
    requires forall v :: 0 <= v < |versions| && versions[v].status == Draft ==> versions[v].checkpoint == None
    ensures Extends(versions, LockedAt(versions, ids, checkpoint))
    ensures |LockedAt(versions, ids, checkpoint)| == |versions|
  {
  }

  lemma StillHandedOff(handoffs: seq<Handoff>, handoff: Handoff, v: nat)
    ensures HandedOff(handoffs + [handoff], v) <==> HandedOff(handoffs, v) || v in handoff.versions
  {
    var all := handoffs + [handoff];
    if v in handoff.versions { assert v in all[|handoffs|].versions; }
    if HandedOff(handoffs, v) {
      var h :| 0 <= h < |handoffs| && v in handoffs[h].versions;
      assert v in all[h].versions;
    }
  }

  lemma OldLockHolds(versions: seq<Version>, earlier: Handoff, handoff: Handoff, checkpoints: nat)
    requires Holds(versions, earlier)
    requires forall v :: 0 <= v < |versions| && versions[v].status == Draft ==> versions[v].checkpoint == None
    requires forall v :: v in handoff.versions ==> v < |versions| && versions[v].status == Draft
    ensures Holds(LockedAt(versions, handoff.versions, checkpoints), earlier)
  {
  }

  lemma LockHolds(versions: seq<Version>, handoffs: seq<Handoff>, checkpoints: nat, handoff: Handoff)
    requires Held(versions, handoffs, checkpoints) && handoff.checkpoint == checkpoints
    requires forall v :: v in handoff.versions ==> v < |versions| && versions[v].status == Draft
    ensures Held(LockedAt(versions, handoff.versions, checkpoints), handoffs + [handoff], checkpoints + 1)
  {
    var after, all := LockedAt(versions, handoff.versions, checkpoints), handoffs + [handoff];
    forall h | 0 <= h < |all| ensures Holds(after, all[h]) {
      if h < |handoffs| {
        OldLockHolds(versions, handoffs[h], handoff, checkpoints);
      } else {
        assert forall i :: 0 <= i < |handoff.versions| ==> handoff.versions[i] in handoff.versions;
      }
    }
    forall v | 0 <= v < |after| && after[v].checkpoint.Some? ensures HandedOff(all, v) {
      StillHandedOff(handoffs, handoff, v);
    }
  }

  /** Changes that set no checkpoint and make no old version a draft keep what is held. */
  lemma HeldKept(versions: seq<Version>, after: seq<Version>, handoffs: seq<Handoff>, now: seq<Handoff>, checkpoints: nat)
    requires Held(versions, handoffs, checkpoints) && Extends(versions, after)
    requires |now| == |handoffs|
    requires forall h :: 0 <= h < |now| ==>
               now[h].versions == handoffs[h].versions && now[h].checkpoint == handoffs[h].checkpoint
    requires forall v :: 0 <= v < |versions| ==> after[v].checkpoint == versions[v].checkpoint
    requires forall v :: |versions| <= v < |after| ==> after[v].checkpoint == None
    requires forall v :: 0 <= v < |versions| && after[v].status == Draft ==> versions[v].status == Draft
    ensures Held(after, now, checkpoints)
  {
  }

  ghost predicate SoundVersions(db: Db) {
    Chained(db.versions) && Held(db.versions, db.handoffs, db.checkpoints)
  }

  // ------------------------------------------------------------------ each call

  lemma DraftsOnly(db: Db, ids: seq<nat>, world: World)
    requires FirstObstacle(db, ids, world) == None
    ensures forall v :: v in ids ==> v < |db.versions| && db.versions[v].status == Draft
  {
    forall v | v in ids ensures v < |db.versions| && db.versions[v].status == Draft {
      var i :| 0 <= i < |ids| && ids[i] == v;
      ObstacleFree(db, ids, world, i);
    }
  }

  lemma LockSound(versions: seq<Version>, handoffs: seq<Handoff>, checkpoints: nat, handoff: Handoff)
    requires Chained(versions) && Held(versions, handoffs, checkpoints) && handoff.checkpoint == checkpoints
    requires forall v :: v in handoff.versions ==> v < |versions| && versions[v].status == Draft
    ensures var after := LockedAt(versions, handoff.versions, checkpoints);
            Chained(after) && Held(after, handoffs + [handoff], checkpoints + 1) && Extends(versions, after)
  {
    assert forall i :: 0 <= i < |handoff.versions| ==> handoff.versions[i] in handoff.versions;
    LockedAtExtends(versions, handoff.versions, checkpoints);
    ChainedKept(versions, LockedAt(versions, handoff.versions, checkpoints));
    LockHolds(versions, handoffs, checkpoints, handoff);
  }

  lemma FinalizeVersions(db: Db, g: nat, world: World, after: Db)
    requires SoundVersions(db) && g < |db.gates| && db.gates[g].run < |db.runs|
    requires Finalize(db, g, world) == Ok(after)
    ensures SoundVersions(after) && Extends(db.versions, after.versions)
  {
    DraftsOnly(db, db.gates[g].versions, world);
    FinalizeFrame(db, g, world, after);
    LockSound(db.versions, db.handoffs, db.checkpoints, PacketFor(db, g));
  }

  lemma EvaluateVersions(db: Db, r: nat, ids: seq<nat>, world: World, after: Db)
    requires SoundVersions(db) && EvaluateStep(db, r, ids, world) == Ok(after)
    ensures SoundVersions(after) && Extends(db.versions, after.versions)
  {
    var gate := Judged(db, r, ids, world);
    var recorded := Recorded(db, gate);
    if gate.resolution == Automatic {
      FinalizeVersions(recorded, |db.gates|, world, after);
    } else {
      EvaluateAddsOne(db, r, ids, world, after);
    }
  }

  lemma DecideVersions(db: Db, a: nat, approved: bool, world: World, after: Db)
    requires SoundVersions(db) && DecideStep(db, a, approved, world) == Ok(after)
    ensures SoundVersions(after) && Extends(db.versions, after.versions)
  {
    if approved {
      FinalizeVersions(Decided(db, a, approved), db.approvals[a].gate, world, after);
    } else {
      DecideRecordsOne(db, a, approved, world, after);
    }
  }

  lemma AddVersionHolds(versions: seq<Version>, handoffs: seq<Handoff>, checkpoints: nat, version: Version)
    requires Held(versions, handoffs, checkpoints) && version.checkpoint == None
    ensures Held(AddVersion(versions, version), handoffs, checkpoints)
  {
  }

  lemma CreateVersions(db: Db, r: nat, name: string, path: string, world: World, after: Db)
    requires SoundVersions(db) && CreateVersionStep(db, r, name, path, world) == Ok(after)
    ensures SoundVersions(after) && Extends(db.versions, after.versions)
  {
    if after != db {
      var found := FindArtifact(db.artifacts, db.runs[r].stage, PythonText.Strip(name));
      var artifact := if found == None then |db.artifacts| else found.value;
      var version := NewVersion(db.versions, artifact, r, world.files[path]);
      NewVersionChains(db.versions, artifact, r, world.files[path]);
      AddVersionHolds(db.versions, db.handoffs, db.checkpoints, version);
      AddVersionExtends(db.versions, version);
    }
  }

  lemma WithdrawnSound(versions: seq<Version>, artifacts: seq<Artifact>, handoffs: seq<Handoff>, checkpoints: nat,
                       from: nat)
    requires Chained(versions) && Held(versions, handoffs, checkpoints)
    ensures var after := Withdrawn(versions, artifacts, from);
            Chained(after) && Held(after, Recalled(handoffs, from), checkpoints) && Extends(versions, after)
  {
    var after := Withdrawn(versions, artifacts, from);
    WithdrawnExtends(versions, artifacts, from);
    ChainedKept(versions, after);
    HeldKept(versions, after, handoffs, Recalled(handoffs, from), checkpoints);
  }

  lemma OtherVersions(db: Db, step: Step, world: World, after: Db)
    requires Apply(db, step, world) == Ok(after)
    requires !step.Evaluate? && !step.Decide? && !step.CreateVersion? && !step.Reopen? && !step.RequestChange?
    ensures after.versions == db.versions && after.handoffs == db.handoffs && after.checkpoints == db.checkpoints
  {
    if step.Transition? {
      var r := Current(db.runs, step.stage).value;
      MoveFrame(db, r, step.target, MoveStage(db, r, step.target).value);
    }
  }

  /** Every call keeps the numbering and the handoffs' hold, and never rewrites an existing version. */
  lemma NextVersions(db: Db, step: Step, world: World)
    requires SoundVersions(db)
    ensures SoundVersions(Next(db, step, world)) && Extends(db.versions, Next(db, step, world).versions)
  {
    var outcome := Apply(db, step, world);
    if outcome.Ok? {
      match step
      case Evaluate(r, ids) => EvaluateVersions(db, r, ids, world, outcome.value);
      case Decide(a, approved) => DecideVersions(db, a, approved, world, outcome.value);
      case CreateVersion(r, name, path) => CreateVersions(db, r, name, path, world, outcome.value);
      case Reopen(stage, _) => WithdrawnSound(db.versions, db.artifacts, db.handoffs, db.checkpoints, stage);
      case RequestChange(from, _) => WithdrawnSound(db.versions, db.artifacts, db.handoffs, db.checkpoints, from);
      case _ => OtherVersions(db, step, world, outcome.value);
    }
  }

  lemma {:induction false} RunVersions(db: Db, steps: seq<Step>, worlds: seq<World>)
    requires SoundVersions(db) && |steps| == |worlds|
    ensures SoundVersions(RunAll(db, steps, worlds)) && Extends(db.versions, RunAll(db, steps, worlds).versions)
    decreases |steps|
  {
    if steps != [] {
      var next := Next(db, steps[0], worlds[0]);
      NextVersions(db, steps[0], worlds[0]);
      RunVersions(next, steps[1..], worlds[1..]);
      ExtendsTransitive(db.versions, next.versions, RunAll(db, steps, worlds).versions);
    }
  }

  // --------------------------------------------------------------- what it means

  /** In every run, no artifact version appears in two handoffs, and a version in none is free of a checkpoint. */
  lemma OneHandoffEach(steps: seq<Step>, worlds: seq<World>, h: nat, k: nat, v: nat)
    requires |steps| == |worlds|
    ensures var db := RunAll(Fresh(), steps, worlds);
            && (h < |db.handoffs| && k < |db.handoffs| && v in db.handoffs[h].versions && v in db.handoffs[k].versions
                ==> h == k)
            && (v < |db.versions| ==>
                  (db.versions[v].checkpoint.Some?
                   <==> HandedOff(db.handoffs, v)))
  {
    RunVersions(Fresh(), steps, worlds);
    HeldOnce(RunAll(Fresh(), steps, worlds), h, k, v);
  }

  lemma HeldOnce(db: Db, h: nat, k: nat, v: nat)
    requires SoundVersions(db)
    ensures h < |db.handoffs| && k < |db.handoffs| && v in db.handoffs[h].versions && v in db.handoffs[k].versions
            ==> h == k
    ensures v < |db.versions| ==> (db.versions[v].checkpoint.Some? <==> HandedOff(db.handoffs, v))
  {
  }

  /** In every run the versions of an artifact are numbered from one without a gap. */
  lemma NumberedWithoutGaps(steps: seq<Step>, worlds: seq<World>, v: nat, number: nat)
    requires |steps| == |worlds| && v < |RunAll(Fresh(), steps, worlds).versions|
    requires 1 <= number <= RunAll(Fresh(), steps, worlds).versions[v].number
    ensures var versions := RunAll(Fresh(), steps, worlds).versions;
            exists u :: 0 <= u <= v && versions[u].artifact == versions[v].artifact && versions[u].number == number
  {
    RunVersions(Fresh(), steps, worlds);
    EarlierNumber(RunAll(Fresh(), steps, worlds).versions, v, number);
  }

  lemma {:induction false} EarlierNumber(versions: seq<Version>, v: nat, number: nat)
    requires Chained(versions) && v < |versions| && 1 <= number <= versions[v].number
    ensures exists u :: 0 <= u <= v && versions[u].artifact == versions[v].artifact && versions[u].number == number
    decreases v
  {
    assert Follows(versions, v);
    if number < versions[v].number {
      EarlierNumber(versions, versions[v].supersedes.value, number);
    }
  }

  lemma {:induction false} NewIsFound(artifacts: seq<Artifact>, stage: Stage, name: string, path: string)
    ensures FindArtifact(artifacts + [Artifact(stage, name, path)], stage, name) == Some(|artifacts|)
  {
  }

  lemma {:induction false} RegisteredAgain(db: Db, r: nat, name: string, path: string, content: string, after: Db)
    requires r < |db.runs| && Registered(db, r, name, path, content) == Ok(after)
    ensures after.runs == db.runs && after.stage == db.stage && Registered(after, r, name, path, content) == Ok(after)
  {
    var found := FindArtifact(db.artifacts, db.runs[r].stage, name);
    var artifact := if found == None then |db.artifacts| else found.value;
    NewIsFound(db.artifacts, db.runs[r].stage, name, path);
    AddedIsLatest(db.versions, artifact, r, content);
  }

  /** Registering the same content again right away adds nothing. */
  lemma {:induction false} RecreateAddsNothing(db: Db, r: nat, name: string, path: string, world: World, after: Db)
    requires CreateVersionStep(db, r, name, path, world) == Ok(after)
    ensures CreateVersionStep(after, r, name, path, world) == Ok(after)
  {
    RegisteredAgain(db, r, PythonText.Strip(name), path, world.files[path], after);
  }

  lemma {:induction false} LatestSame(before: seq<Version>, after: seq<Version>, artifact: nat)
    requires |before| == |after|
    requires forall v :: 0 <= v < |before| ==>
               before[v].artifact == after[v].artifact && before[v].number == after[v].number
    ensures Latest(before, artifact) == Latest(after, artifact)
  {
    if before != [] { LatestSame(before[..|before| - 1], after[..|after| - 1], artifact); }
  }

  lemma AddedIsLatest(versions: seq<Version>, artifact: nat, run: nat, content: string)
    ensures var version := NewVersion(versions, artifact, run, content);
            var after := AddVersion(versions, version);
            Latest(after, artifact) == Some(|versions|) && after[|versions|] == version
  {
  }

  // ------------------------------------------------------------------- the artifacts

  /** One artifact a path, and a trimmed name in each stage, filed below that stage's own folder. */
  ghost predicate Filed(artifacts: seq<Artifact>) {
    && (forall a :: 0 <= a < |artifacts| ==>
          && ProjectPaths.Under(artifacts[a].path, "artifacts/" + StageName(artifacts[a].stage))
          && Nameable(artifacts[a].name) && PythonText.Trimmed(artifacts[a].name))
    && (forall i, j :: 0 <= i < j < |artifacts| && artifacts[i].stage == artifacts[j].stage ==>
          artifacts[i].name != artifacts[j].name)
    && (forall i, j :: 0 <= i < j < |artifacts| ==> artifacts[i].path != artifacts[j].path)
  }

  lemma {:induction false} FiledMore(artifacts: seq<Artifact>, artifact: Artifact)
    requires Filed(artifacts) && !PathTaken(artifacts, artifact.path)
    requires ProjectPaths.Under(artifact.path, "artifacts/" + StageName(artifact.stage))
    requires Nameable(artifact.name) && PythonText.Trimmed(artifact.name)
    requires FindArtifact(artifacts, artifact.stage, artifact.name) == None
    ensures Filed(artifacts + [artifact])
  {
  }

  lemma {:induction false} CreateFiled(db: Db, r: nat, name: string, path: string, world: World, after: Db)
    requires Filed(db.artifacts) && CreateVersionStep(db, r, name, path, world) == Ok(after)
    ensures Filed(after.artifacts) && db.artifacts <= after.artifacts
  {
    PythonText.StripTrims(name);
    if after.artifacts != db.artifacts {
      FiledMore(db.artifacts, Artifact(db.runs[r].stage, PythonText.Strip(name), path));
    }
  }

  lemma OnlyCreateFiles(db: Db, step: Step, world: World)
    requires !step.CreateVersion?
    ensures Next(db, step, world).artifacts == db.artifacts
  {
    var outcome := Apply(db, step, world);
    if outcome.Ok? {
      match step
      case Evaluate(r, ids) => EvaluateAddsOne(db, r, ids, world, outcome.value);
      case Decide(a, approved) => DecideRecordsOne(db, a, approved, world, outcome.value);
      case Transition(stage, target, _) =>
        var r := Current(db.runs, stage).value;
        MoveFrame(db, r, target, MoveStage(db, r, target).value);
      case _ =>
    }
  }

  /** In every run artifacts are never renamed, moved or removed, and each is filed under its own stage. */
  lemma {:induction false} RunFiled(db: Db, steps: seq<Step>, worlds: seq<World>)
    requires Filed(db.artifacts) && |steps| == |worlds|
    ensures Filed(RunAll(db, steps, worlds).artifacts) && db.artifacts <= RunAll(db, steps, worlds).artifacts
    decreases |steps|
  {
    if steps != [] {
      var outcome := Apply(db, steps[0], worlds[0]);
      if steps[0].CreateVersion? {
        if outcome.Ok? {
          CreateFiled(db, steps[0].run, steps[0].name, steps[0].path, worlds[0], outcome.value);
        }
      } else {
        OnlyCreateFiles(db, steps[0], worlds[0]);
      }
      RunFiled(Next(db, steps[0], worlds[0]), steps[1..], worlds[1..]);
    }
  }
}
