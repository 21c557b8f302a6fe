/**
 Comparing project checkpoints: what changed on disk, where the user's and the agent's
 changes collide, and what a restore overwrites.
 */
module Checkpoints {
  import opened Wrappers
  import opened PathOrder
  import opened ProjectTree

  type Files = map<string, string>

  datatype ChangeKind = Added | Modified | Deleted

  datatype Change = Change(path: string, kind: ChangeKind, before: Option<string>, after: Option<string>)

  datatype Conflict = Conflict(path: string, baseline: Option<string>, user: Option<string>, agent: Option<string>)

  datatype Plan = Plan(overwrite: seq<string>, extra: seq<string>)

  const MISMATCH := "checkpoints must belong to the same project"

  /** `_file_hashes`. */
  function FileHashes(files: seq<CheckpointFile>): Files {
    if files == [] then map[]
    else
      var last := files[|files| - 1];
      FileHashes(files[..|files| - 1])[last.path := last.hash]
  }

  /** `dict.get`. */
  function Get(files: Files, path: string): Option<string> {
    if path in files then Some(files[path]) else None
  }

  lemma {:induction false} HashesOf(files: seq<CheckpointFile>, file: CheckpointFile)
    requires ValidFiles(files)
    ensures Get(FileHashes(files), file.path) == Some(file.hash) <==> file in files
  {
    if files != [] {
      var n := |files| - 1;
      var init, last := files[..n], files[n];
      assert forall i :: 0 <= i < n ==> Paths(init)[i] == Paths(files)[i];
      HashesOf(init, file);
      assert files == init + [last];
      if file.path == last.path && file in init {
        var i :| 0 <= i < n && init[i] == file;
        assert Before(Paths(files)[i], Paths(files)[n]);
        Irreflexive(file.path);
      }
    }
  }

  // ------------------------------------------------------------------ changes

  function KindOf(before: Option<string>, after: Option<string>): ChangeKind {
    if before == None then Added else if after == None then Deleted else Modified
  }

  function ChangeAt(baseline: Files, current: Files, path: string): Change {
    var before, after := Get(baseline, path), Get(current, path);
    Change(path, KindOf(before, after), before, after)
  }

  ghost predicate SortedChanges(changes: seq<Change>) {
    forall i, j :: 0 <= i < j < |changes| ==> Before(changes[i].path, changes[j].path)
  }

  /** Sorted, truthful, and complete. */
  ghost predicate IsDiff(changes: seq<Change>, baseline: Files, current: Files) {
    && SortedChanges(changes)
    && (forall c :: c in changes ==>
          c == ChangeAt(baseline, current, c.path) && Get(baseline, c.path) != Get(current, c.path))
    && (forall p :: Get(baseline, p) != Get(current, p) ==> ChangeAt(baseline, current, p) in changes)
  }

  /** What the comparison loop has listed after these paths. */
  function Diffs(paths: seq<string>, baseline: Files, current: Files): seq<Change> {
    if paths == [] then []
    else
      var path := paths[|paths| - 1];
      var earlier := Diffs(paths[..|paths| - 1], baseline, current);
      if Get(baseline, path) == Get(current, path) then earlier
      else earlier + [ChangeAt(baseline, current, path)]
  }

  lemma {:induction false} DiffsMember(paths: seq<string>, baseline: Files, current: Files, change: Change)
    ensures change in Diffs(paths, baseline, current)
            <==> && change.path in paths
                 && change == ChangeAt(baseline, current, change.path)
                 && Get(baseline, change.path) != Get(current, change.path)
  {
    if paths != [] {
      var init := paths[..|paths| - 1];
      DiffsMember(init, baseline, current, change);
      assert paths == init + [paths[|paths| - 1]];
    }
  }

  lemma {:induction false} DiffsSorted(paths: seq<string>, baseline: Files, current: Files)
    requires Ascending(paths)
    ensures SortedChanges(Diffs(paths, baseline, current))
  {
    if paths != [] {
      var n := |paths| - 1;
      var earlier := Diffs(paths[..n], baseline, current);
      DiffsSorted(paths[..n], baseline, current);
      forall i | 0 <= i < |earlier| ensures Before(earlier[i].path, paths[n]) {
        DiffsMember(paths[..n], baseline, current, earlier[i]);
        var j :| 0 <= j < n && paths[j] == earlier[i].path;
      }
    }
  }

  lemma DiffsAreDiff(paths: seq<string>, baseline: Files, current: Files)
    requires Ascending(paths) && forall p :: p in baseline.Keys + current.Keys ==> p in paths
    ensures IsDiff(Diffs(paths, baseline, current), baseline, current)
  {
    var changes := Diffs(paths, baseline, current);
    DiffsSorted(paths, baseline, current);
    forall c | c in changes
      ensures c == ChangeAt(baseline, current, c.path) && Get(baseline, c.path) != Get(current, c.path)
    {
      DiffsMember(paths, baseline, current, c);
    }
    forall p | Get(baseline, p) != Get(current, p) ensures ChangeAt(baseline, current, p) in changes {
      DiffsMember(paths, baseline, current, ChangeAt(baseline, current, p));
    }
  }

  /** A change as a reader of it takes it: what was there, what is there, and what that is called. */
  ghost predicate Tells(change: Change, baseline: Files, current: Files) {
    && (change.before == if change.path in baseline then Some(baseline[change.path]) else None)
    && (change.after == if change.path in current then Some(current[change.path]) else None)
    && change.before != change.after
    && (change.kind == Added <==> change.path !in baseline)
    && (change.kind == Deleted <==> change.path !in current)
    && (change.kind == Modified <==> change.path in baseline && change.path in current)
  }

  lemma DiffTells(changes: seq<Change>, baseline: Files, current: Files)
    requires IsDiff(changes, baseline, current)
    ensures forall c :: c in changes ==> Tells(c, baseline, current)
  {
  }

  method DetectExternalChanges(baseline: Checkpoint, current: Checkpoint) returns (result: Result<seq<Change>, string>)
    ensures baseline.project != current.project ==> result == Err("checkpoints must belong to the same project")
    ensures baseline.project == current.project ==>
              result.Ok? && IsDiff(result.value, FileHashes(baseline.files), FileHashes(current.files))
    ensures result.Ok? ==>
              forall c :: c in result.value ==> Tells(c, FileHashes(baseline.files), FileHashes(current.files))
  {
    if baseline.project != current.project {
      return Err(MISMATCH);
    }
    var baselineFiles, currentFiles := FileHashes(baseline.files), FileHashes(current.files);
    var paths := Sorted(baselineFiles.Keys + currentFiles.Keys);
    var changes: seq<Change> := [];
    for k := 0 to |paths|
      invariant changes == Diffs(paths[..k], baselineFiles, currentFiles)
    {
      var path := paths[k];
      var before, after := Get(baselineFiles, path), Get(currentFiles, path);
      assert paths[..k + 1][..k] == paths[..k];
      if before == after {
        continue;
      }
      var kind := if before == None then Added else if after == None then Deleted else Modified;
      changes := changes + [Change(path, kind, before, after)];
    }
    assert paths[..|paths|] == paths;
    DiffsAreDiff(paths, baselineFiles, currentFiles);
    DiffTells(changes, baselineFiles, currentFiles);
    result := Ok(changes);
  }

  // ------------------------------------------------------- what a change means

  function ApplyChange(files: Files, change: Change): Files {
    match change.after
    case None => files - {change.path}
    case Some(hash) => files[change.path := hash]
  }

  function Patch(files: Files, changes: seq<Change>): Files
    decreases |changes|
  {
    if changes == [] then files else Patch(ApplyChange(files, changes[0]), changes[1..])
  }

  lemma {:induction false} PatchElsewhere(files: Files, changes: seq<Change>, path: string)
    requires forall c :: c in changes ==> c.path != path
    ensures Get(Patch(files, changes), path) == Get(files, path)
    decreases |changes|
  {
    if changes != [] { PatchElsewhere(ApplyChange(files, changes[0]), changes[1..], path); }
  }

  lemma {:induction false} PatchAt(files: Files, changes: seq<Change>, change: Change)
    requires SortedChanges(changes) && change in changes
    ensures Get(Patch(files, changes), change.path) == change.after
    decreases |changes|
  {
    var next, rest := ApplyChange(files, changes[0]), changes[1..];
    if change == changes[0] {
      Irreflexive(change.path);
      PatchElsewhere(next, rest, change.path);
    } else {
      PatchAt(next, rest, change);
    }
  }

  /** Changing one side's files by the other side's changes, path by path. */
  lemma PatchOther(files: Files, changes: seq<Change>, baseline: Files, current: Files, path: string)
    requires IsDiff(changes, baseline, current)
    ensures Get(Patch(files, changes), path)
            == if Get(baseline, path) == Get(current, path) then Get(files, path) else Get(current, path)
  {
    if Get(baseline, path) == Get(current, path) {
      PatchElsewhere(files, changes, path);
    } else {
      PatchAt(files, changes, ChangeAt(baseline, current, path));
    }
  }

  lemma SameFiles(a: Files, b: Files)
    requires forall p :: Get(a, p) == Get(b, p)
    ensures a == b
  {
    assert forall p :: p in a <==> Get(a, p).Some?;
    assert forall p :: p in b <==> Get(b, p).Some?;
    forall p | p in a ensures p in b && a[p] == b[p] { assert Get(a, p) == Get(b, p); }
    forall p | p in b ensures p in a { assert Get(a, p) == Get(b, p); }
  }

  /** Replaying the detected changes on the baseline gives the current files back. */
  lemma PatchGivesCurrent(changes: seq<Change>, baseline: Files, current: Files)
    requires IsDiff(changes, baseline, current)
    ensures Patch(baseline, changes) == current
  {
    forall p ensures Get(Patch(baseline, changes), p) == Get(current, p) {
      PatchOther(baseline, changes, baseline, current, p);
    }
    SameFiles(Patch(baseline, changes), current);
  }

  lemma EmptyIffSame(changes: seq<Change>, baseline: Files, current: Files)
    requires IsDiff(changes, baseline, current)
    ensures changes == [] <==> baseline == current
  {
    if changes == [] { PatchGivesCurrent(changes, baseline, current); }
    assert changes != [] ==> changes[0] in changes;
  }

  // ---------------------------------------------------------------- conflicts

  predicate Collides(baseline: Files, user: Files, agent: Files, path: string) {
    !(|| Get(user, path) == Get(baseline, path)
      || Get(agent, path) == Get(baseline, path)
      || Get(user, path) == Get(agent, path))
  }

  function ConflictAt(baseline: Files, user: Files, agent: Files, path: string): Conflict {
    Conflict(path, Get(baseline, path), Get(user, path), Get(agent, path))
  }

  function Collisions(paths: seq<string>, baseline: Files, user: Files, agent: Files): seq<Conflict> {
    if paths == [] then []
    else
      var path := paths[|paths| - 1];
      var earlier := Collisions(paths[..|paths| - 1], baseline, user, agent);
      if Collides(baseline, user, agent, path) then earlier + [ConflictAt(baseline, user, agent, path)] else earlier
  }

  ghost predicate SortedConflicts(conflicts: seq<Conflict>) {
    forall i, j :: 0 <= i < j < |conflicts| ==> Before(conflicts[i].path, conflicts[j].path)
  }

  /** Sorted, truthful, and complete. */
  ghost predicate AreConflicts(conflicts: seq<Conflict>, baseline: Files, user: Files, agent: Files) {
    && SortedConflicts(conflicts)
    && (forall c :: c in conflicts ==>
          c == ConflictAt(baseline, user, agent, c.path) && Collides(baseline, user, agent, c.path))
    && (forall p :: Collides(baseline, user, agent, p) ==> ConflictAt(baseline, user, agent, p) in conflicts)
  }

  lemma {:induction false} CollisionsMember(paths: seq<string>, baseline: Files, user: Files, agent: Files, c: Conflict)
    ensures c in Collisions(paths, baseline, user, agent)
            <==> && c.path in paths
                 && c == ConflictAt(baseline, user, agent, c.path)
                 && Collides(baseline, user, agent, c.path)
  {
    if paths != [] {
      var init := paths[..|paths| - 1];
      CollisionsMember(init, baseline, user, agent, c);
      assert paths == init + [paths[|paths| - 1]];
    }
  }

  lemma {:induction false} CollisionsSorted(paths: seq<string>, baseline: Files, user: Files, agent: Files)
    requires Ascending(paths)
    ensures SortedConflicts(Collisions(paths, baseline, user, agent))
  {
    if paths != [] {
      var n := |paths| - 1;
      var earlier := Collisions(paths[..n], baseline, user, agent);
      CollisionsSorted(paths[..n], baseline, user, agent);
      forall i | 0 <= i < |earlier| ensures Before(earlier[i].path, paths[n]) {
        CollisionsMember(paths[..n], baseline, user, agent, earlier[i]);
        var j :| 0 <= j < n && paths[j] == earlier[i].path;
      }
    }
  }

  lemma CollisionsAreConflicts(paths: seq<string>, baseline: Files, user: Files, agent: Files)
    requires Ascending(paths) && forall p :: p in baseline.Keys + user.Keys + agent.Keys ==> p in paths
    ensures AreConflicts(Collisions(paths, baseline, user, agent), baseline, user, agent)
  {
    var conflicts := Collisions(paths, baseline, user, agent);
    CollisionsSorted(paths, baseline, user, agent);
    forall c | c in conflicts
      ensures c == ConflictAt(baseline, user, agent, c.path) && Collides(baseline, user, agent, c.path)
    {
      CollisionsMember(paths, baseline, user, agent, c);
    }
    forall p | Collides(baseline, user, agent, p) ensures ConflictAt(baseline, user, agent, p) in conflicts {
      CollisionsMember(paths, baseline, user, agent, ConflictAt(baseline, user, agent, p));
    }
  }

  /** A conflict as a reader of it takes it: three states of one path, no two of them the same. */
  ghost predicate TellsConflict(c: Conflict, baseline: Files, user: Files, agent: Files) {
    && (c.baseline == if c.path in baseline then Some(baseline[c.path]) else None)
    && (c.user == if c.path in user then Some(user[c.path]) else None)
    && (c.agent == if c.path in agent then Some(agent[c.path]) else None)
    && c.user != c.baseline && c.agent != c.baseline && c.user != c.agent
  }

  lemma ConflictsTell(conflicts: seq<Conflict>, baseline: Files, user: Files, agent: Files)
    requires AreConflicts(conflicts, baseline, user, agent)
    ensures forall c :: c in conflicts ==> TellsConflict(c, baseline, user, agent)
  {
  }

  method DetectFileConflicts(baseline: Checkpoint, user: Checkpoint, agent: Checkpoint)
    returns (result: Result<seq<Conflict>, string>)
    ensures !(baseline.project == user.project == agent.project) ==> result == Err("checkpoints must belong to the same project")
    ensures baseline.project == user.project == agent.project ==>
              && result.Ok?
              && AreConflicts(result.value, FileHashes(baseline.files), FileHashes(user.files), FileHashes(agent.files))
    ensures result.Ok? ==>
              forall c :: c in result.value ==>
                TellsConflict(c, FileHashes(baseline.files), FileHashes(user.files), FileHashes(agent.files))
  {
    if !(baseline.project == user.project == agent.project) {
      return Err(MISMATCH);
    }
    var baselineFiles, userFiles, agentFiles
      := FileHashes(baseline.files), FileHashes(user.files), FileHashes(agent.files);
    var paths := Sorted(baselineFiles.Keys + userFiles.Keys + agentFiles.Keys);
    var conflicts: seq<Conflict> := [];
    for k := 0 to |paths|
      invariant conflicts == Collisions(paths[..k], baselineFiles, userFiles, agentFiles)
    {
      var path := paths[k];
      var before, userHash, agentHash := Get(baselineFiles, path), Get(userFiles, path), Get(agentFiles, path);
      assert paths[..k + 1][..k] == paths[..k];
      if userHash == before || agentHash == before || userHash == agentHash {
        continue;
      }
      conflicts := conflicts + [Conflict(path, before, userHash, agentHash)];
    }
    assert paths[..|paths|] == paths;
    CollisionsAreConflicts(paths, baselineFiles, userFiles, agentFiles);
    ConflictsTell(conflicts, baselineFiles, userFiles, agentFiles);
    result := Ok(conflicts);
  }

  predicate Reported(conflicts: seq<Conflict>, path: string) {
    exists c :: c in conflicts && c.path == path
  }

  lemma ReportedIffCollides(conflicts: seq<Conflict>, baseline: Files, user: Files, agent: Files, path: string)
    requires AreConflicts(conflicts, baseline, user, agent)
    ensures Reported(conflicts, path) <==> Collides(baseline, user, agent, path)
  {
  }

  /**
   Making the user's changes and then the agent's, or the other way round: the outcomes
   differ at exactly the paths that are reported as conflicts.
   */
  lemma ConflictsAreOrderDependence(conflicts: seq<Conflict>, userChanges: seq<Change>, agentChanges: seq<Change>,
                                    baseline: Files, user: Files, agent: Files, path: string)
    requires AreConflicts(conflicts, baseline, user, agent)
    requires IsDiff(userChanges, baseline, user) && IsDiff(agentChanges, baseline, agent)
    ensures Reported(conflicts, path)
            <==> Get(Patch(Patch(baseline, userChanges), agentChanges), path)
                 != Get(Patch(Patch(baseline, agentChanges), userChanges), path)
  {
    ReportedIffCollides(conflicts, baseline, user, agent, path);
    PatchGivesCurrent(userChanges, baseline, user);
    PatchGivesCurrent(agentChanges, baseline, agent);
    PatchOther(user, agentChanges, baseline, agent, path);
    PatchOther(agent, userChanges, baseline, user, path);
  }

  /** The three-way merge at one path. */
  function Merged(baseline: Files, user: Files, agent: Files, path: string): Option<string> {
    if Get(user, path) == Get(baseline, path) then Get(agent, path) else Get(user, path)
  }

  /** Nothing is reported exactly when the two sides' changes commute, and then they give the merge. */
  lemma NoConflictsIffCommute(conflicts: seq<Conflict>, userChanges: seq<Change>, agentChanges: seq<Change>,
                              baseline: Files, user: Files, agent: Files)
    requires AreConflicts(conflicts, baseline, user, agent)
    requires IsDiff(userChanges, baseline, user) && IsDiff(agentChanges, baseline, agent)
    ensures conflicts == []
            <==> Patch(Patch(baseline, userChanges), agentChanges) == Patch(Patch(baseline, agentChanges), userChanges)
    ensures conflicts == [] ==>
              forall p :: Get(Patch(Patch(baseline, userChanges), agentChanges), p) == Merged(baseline, user, agent, p)
  {
    var userFirst, agentFirst
      := Patch(Patch(baseline, userChanges), agentChanges), Patch(Patch(baseline, agentChanges), userChanges);
    forall p ensures Reported(conflicts, p) <==> Get(userFirst, p) != Get(agentFirst, p) {
      ConflictsAreOrderDependence(conflicts, userChanges, agentChanges, baseline, user, agent, p);
    }
    if conflicts == [] {
      SameFiles(userFirst, agentFirst);
      PatchGivesCurrent(userChanges, baseline, user);
      forall p ensures Get(userFirst, p) == Merged(baseline, user, agent, p) {
        PatchOther(user, agentChanges, baseline, agent, p);
        ReportedIffCollides(conflicts, baseline, user, agent, p);
      }
    } else {
      assert Reported(conflicts, conflicts[0].path);
    }
  }

  lemma ConflictsSymmetric(a: seq<Conflict>, b: seq<Conflict>, baseline: Files, user: Files, agent: Files, path: string)
    requires AreConflicts(a, baseline, user, agent) && AreConflicts(b, baseline, agent, user)
    ensures Reported(a, path) <==> Reported(b, path)
  {
    ReportedIffCollides(a, baseline, user, agent, path);
    ReportedIffCollides(b, baseline, agent, user, path);
  }

  // ------------------------------------------------------------------ restore

  ghost predicate IsPlan(plan: Plan, current: Files, target: Files) {
    && Ascending(plan.overwrite) && Ascending(plan.extra)
    && (forall p :: p in plan.overwrite <==> p in target && Get(current, p) != Some(target[p]))
    && (forall p :: p in plan.extra <==> p in current && p !in target)
  }

  method BuildRestorePlan(current: Checkpoint, target: Checkpoint) returns (result: Result<Plan, string>)
    ensures current.project != target.project ==> result == Err("checkpoints must belong to the same project")
    ensures current.project == target.project ==>
              result.Ok? && IsPlan(result.value, FileHashes(current.files), FileHashes(target.files))
  {
    if current.project != target.project {
      return Err(MISMATCH);
    }
    var currentFiles, targetFiles := FileHashes(current.files), FileHashes(target.files);
    var overwrite := Sorted(set p | p in targetFiles && Get(currentFiles, p) != Some(targetFiles[p]));
    var extra := Sorted(currentFiles.Keys - targetFiles.Keys);
    result := Ok(Plan(overwrite, extra));
  }

  /** `_require_workspace_matches_protection`: nothing the target has was touched since. */
  method WorkspaceMatches(workspace: Files, target: seq<CheckpointFile>, protected: Files) returns (matches: bool)
    ensures matches <==> forall f :: f in target ==> Get(workspace, f.path) == Get(protected, f.path)
  {
    for k := 0 to |target|
      invariant forall i :: 0 <= i < k ==> Get(workspace, target[i].path) == Get(protected, target[i].path)
    {
      if Get(workspace, target[k].path) != Get(protected, target[k].path) {
        return false;
      }
    }
    matches := true;
  }

  lemma {:induction false} OneMoreWritten(workspace: Files, files: seq<CheckpointFile>, file: CheckpointFile)
    ensures Overwritten(workspace, FileHashes(files + [file]))
            == Overwritten(workspace, FileHashes(files))[file.path := file.hash]
  {
    assert (files + [file])[..|files|] == files;
  }

  method WriteAll(workspace: Files, target: seq<CheckpointFile>) returns (after: Files)
    ensures after == Overwritten(workspace, FileHashes(target))
  {
    after := workspace;
    for k := 0 to |target|
      invariant after == Overwritten(workspace, FileHashes(target[..k]))
    {
      assert target[..k + 1] == target[..k] + [target[k]];
      OneMoreWritten(workspace, target[..k], target[k]);
      after := after[target[k].path := target[k].hash];
    }
    assert target[..|target|] == target;
  }

  /** The restore itself writes every file of the target and deletes nothing. */
  method RestorePrepared(workspace: Files, target: Checkpoint, protection: Checkpoint)
    returns (after: Files, result: Result<nat, string>)
    ensures result.Err? ==> after == workspace
    ensures result.Ok? <==> && target.project == protection.project
                            && forall f :: f in target.files ==>
                                 Get(workspace, f.path) == Get(FileHashes(protection.files), f.path)
    ensures result.Ok? ==> result.value == |target.files| && after == Overwritten(workspace, FileHashes(target.files))
  {
    if target.project != protection.project {
      return workspace, Err("checkpoint.project_mismatch");
    }
    var matches := WorkspaceMatches(workspace, target.files, FileHashes(protection.files));
    if !matches {
      return workspace, Err("checkpoint.restore_incomplete");
    }
    after := WriteAll(workspace, target.files);
    result := Ok(|target.files|);
  }

  function Overwritten(files: Files, target: Files): Files {
    files + target
  }

  /**
   A restore agrees with the target on the target's paths and changes only the planned ones;
   planning it again then finds nothing to overwrite and the same extra files.
   */
  lemma RestoreThenReplan(current: Files, target: Files, plan: Plan, again: Plan)
    requires IsPlan(plan, current, target) && IsPlan(again, Overwritten(current, target), target)
    ensures forall p :: p in target ==> Get(Overwritten(current, target), p) == Get(target, p)
    ensures forall p :: p !in plan.overwrite ==> Get(Overwritten(current, target), p) == Get(current, p)
    ensures again.overwrite == [] && again.extra == plan.extra
  {
    AscendingUnique(again.overwrite, []);
    AscendingUnique(again.extra, plan.extra);
  }

  /** A scan against the target after its restore lists exactly the extra files, as added. */
  lemma RestoreLeavesExtras(current: Files, target: Files, plan: Plan, changes: seq<Change>)
    requires IsPlan(plan, current, target) && IsDiff(changes, target, Overwritten(current, target))
    ensures |changes| == |plan.extra|
    ensures forall i :: 0 <= i < |changes| ==> changes[i].path == plan.extra[i] && changes[i].kind == Added
  {
    var after := Overwritten(current, target);
    var paths := seq(|changes|, i requires 0 <= i < |changes| => changes[i].path);
    forall p ensures p in paths <==> p in plan.extra {
      if p in paths {
        var i :| 0 <= i < |paths| && paths[i] == p;
        assert changes[i] in changes;
      }
      if p in plan.extra {
        assert Get(target, p) != Get(after, p);
        assert ChangeAt(target, after, p) in changes;
        var i :| 0 <= i < |changes| && changes[i] == ChangeAt(target, after, p);
        assert paths[i] == p;
      }
    }
    AscendingUnique(paths, plan.extra);
    forall i | 0 <= i < |changes| ensures changes[i].path == plan.extra[i] && changes[i].kind == Added {
      assert paths[i] == changes[i].path && changes[i] in changes;
    }
  }
}
