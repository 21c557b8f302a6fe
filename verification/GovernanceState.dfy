/**
 One workflow's governance records and what each service call does to them. A call is one
 write unit: it either succeeds with new records or fails and leaves the records alone.
 Record ids are positions, in the order of creation.
 */
module GovernanceState {
  import opened Wrappers
  import ProjectPaths
  import PythonText

  const STAGES := 5

  type Stage = s: nat | s < 5

  datatype StageState =
    | Locked | Ready | Discussing | Producing | Reviewing | Checking | WaitingApproval | HandoffReady | Done
    | WarningHeld | NeedsFix | ExternalConflict | Interrupted | Failed | Cancelled | Abandoned

  datatype WorkflowStatus =
    | Created | Running | WaitingUser | WarningBlocked | Paused | WorkflowFailed | Stopped | WorkflowAbandoned | Completed

  datatype Mode = Manual | Autonomous

  datatype GateStatus = Pass | Warning | Fail

  datatype Resolution = Pending | Automatic | Approved | RewriteRequired

  datatype Decision = Undecided | Accepted | Rejected

  datatype VersionStatus = Draft | LockedVersion | Superseded | Invalidated

  datatype Issue =
    | ArtifactMissing | ArtifactInvalid | ArtifactChanged | FormalRunRequired | FormalRunFailed
    | TasksActive | ConflictsOpen | TestCommandMissing

  datatype Run = Run(stage: Stage, attempt: nat, state: StageState)

  datatype Artifact = Artifact(stage: Stage, name: string, path: string)

  datatype Version = Version(artifact: nat, run: nat, number: nat, content: string, status: VersionStatus,
                             supersedes: Option<nat>, checkpoint: Option<nat>)

  /** `mode` is the execution mode the gate was evaluated in; the records do not store it. */
  datatype Gate = Gate(run: nat, status: GateStatus, resolution: Resolution, issues: seq<Issue>, versions: seq<nat>,
                       mode: Mode)

  datatype Approval = Approval(gate: nat, decision: Decision)

  datatype Handoff = Handoff(gate: nat, run: nat, stage: Stage, versions: seq<nat>, checkpoint: nat, active: bool)

  datatype ChangeRequest = ChangeRequest(gate: Option<nat>, source: nat, target: Stage, versions: seq<nat>)

  /** `waved` remembers the runs that a transition call, not a gate, moved to handoff_ready. */
  datatype Db = Db(status: WorkflowStatus, mode: Mode, stage: Stage, runs: seq<Run>, artifacts: seq<Artifact>,
                   versions: seq<Version>, gates: seq<Gate>, approvals: seq<Approval>, handoffs: seq<Handoff>,
                   changes: seq<ChangeRequest>, checkpoints: nat, waved: set<nat>)

  /** What a call finds outside these records. */
  datatype World = World(files: map<string, string>, formalRun: Option<bool>, tasksActive: bool, conflictsOpen: bool,
                         testCommands: bool, capturable: bool)

  datatype Step =
    | Start
    | SetMode(mode: Mode)
    | Transition(stage: Stage, target: StageState, agentActive: bool)
    | Reopen(stage: Stage, agentActive: bool)
    | CreateVersion(run: nat, name: string, path: string)
    | Evaluate(run: nat, ids: seq<nat>)
    | Decide(approval: nat, approved: bool)
    | RequestChange(from: Stage, ids: seq<nat>)
    | Pause
    | Resume
    | Stop
    | Abandon

  type Outcome = Result<Db, string>

  function Fresh(): Db {
    Db(Created, Manual, 0, seq(5, i requires 0 <= i < 5 => Run(i, 1, if i == 0 then Ready else Locked)),
       [], [], [], [], [], [], 0, {})
  }

  // ------------------------------------------------------------------- stages

  predicate Cancellable(state: StageState) {
    !(state.Locked? || state.Done? || state.Failed? || state.Cancelled? || state.Abandoned?)
  }

  /** `require_stage_transition`. */
  predicate Allowed(current: StageState, target: StageState) {
    || (current == Ready && target == Discussing)
    || (current == Discussing && target == Producing)
    || (current == Producing && target == Reviewing)
    || (current == Reviewing && target == Checking)
    || (current == Checking && target in {WaitingApproval, WarningHeld, NeedsFix})
    || (current == WaitingApproval && target in {HandoffReady, NeedsFix})
    || (current == HandoffReady && target == Done)
    || (current == NeedsFix && target == Producing)
    || (current in {WarningHeld, ExternalConflict, Interrupted} && target == Discussing)
    || (target in {Failed, Cancelled, Abandoned} && Cancellable(current))
  }

  /** The run with the highest attempt at a stage. */
  function Current(runs: seq<Run>, stage: nat): (r: Option<nat>)
    ensures r.Some? ==> r.value < |runs| && runs[r.value].stage == stage
  {
    if runs == [] then None
    else
      var n := |runs| - 1;
      var before := Current(runs[..n], stage);
      if runs[n].stage == stage && (before == None || runs[before.value].attempt <= runs[n].attempt)
      then Some(n) else before
  }

  function WithState(runs: seq<Run>, r: nat, state: StageState): seq<Run>
    requires r < |runs|
  {
    runs[r := runs[r].(state := state)]
  }

  /** `transition_stage` of the workflow repository. */
  function MoveStage(db: Db, r: nat, target: StageState): Outcome
    requires r < |db.runs|
  {
    var run := db.runs[r];
    var resumes := db.status == WarningBlocked && run.state == WarningHeld && target == Discussing;
    if db.status != Running && !resumes then Err("workflow.not_running")
    else if db.stage != run.stage then Err("stage_run.not_current")
    else if run.state == Locked then Err("stage_run.locked")
    else
      var runs := WithState(db.runs, r, target);
      if target == Done then
        if run.stage == STAGES - 1 then Ok(db.(runs := runs, status := Completed))
        else
          var next := Current(runs, run.stage + 1);
          if next == None || runs[next.value].state != Locked then Err("next stage run is missing or not locked")
          else Ok(db.(runs := WithState(runs, next.value, Ready), stage := run.stage + 1, status := Running))
      else if target == Abandoned then Ok(db.(runs := runs, status := WorkflowAbandoned))
      else if target == Failed || target == Cancelled then Ok(db.(runs := runs, status := WorkflowFailed))
      else Ok(db.(runs := runs, status := Running))
  }

  function TransitionStep(db: Db, stage: Stage, target: StageState, agentActive: bool): Outcome {
    var r := Current(db.runs, stage);
    if r == None then Err("stage_run.not_found")
    else if agentActive then Err("stage_run.agent_run_active")
    else if !Allowed(db.runs[r.value].state, target) then Err("stage_run.invalid_transition")
    else
      match MoveStage(db, r.value, target)
      case Err(e) => Err(e)
      case Ok(after) => Ok(if target == HandoffReady then after.(waved := after.waved + {r.value}) else after)
  }

  /** New attempts for a stage and everything after it. */
  function NewRuns(runs: seq<Run>, first: nat, from: nat): seq<Run>
    requires first <= from <= STAGES
    decreases STAGES - from
  {
    if from == STAGES then []
    else
      var previous := Current(runs, from);
      var attempt := if previous == None then 1 else runs[previous.value].attempt + 1;
      [Run(from, attempt, if from == first then Ready else Locked)] + NewRuns(runs, first, from + 1)
  }

  function Withdrawn(versions: seq<Version>, artifacts: seq<Artifact>, from: nat): seq<Version> {
    seq(|versions|, i requires 0 <= i < |versions| =>
      var v := versions[i];
      if v.artifact < |artifacts| && artifacts[v.artifact].stage >= from && (v.status == Draft || v.status == LockedVersion)
      then v.(status := Invalidated) else v)
  }

  function Recalled(handoffs: seq<Handoff>, from: nat): seq<Handoff> {
    seq(|handoffs|, i requires 0 <= i < |handoffs| =>
      if handoffs[i].stage >= from then handoffs[i].(active := false) else handoffs[i])
  }

  function ReopenStep(db: Db, stage: Stage, agentActive: bool): Outcome {
    var r := Current(db.runs, stage);
    if agentActive then Err("stage_run.agent_run_active")
    else if r == None || db.runs[r.value].state != Done then Err("stage_run.reopen_requires_completion")
    else Ok(db.(status := Running, stage := stage, runs := db.runs + NewRuns(db.runs, stage, stage),
                versions := Withdrawn(db.versions, db.artifacts, stage), handoffs := Recalled(db.handoffs, stage)))
  }

  // ---------------------------------------------------------------- artifacts

  function StageName(stage: Stage): string {
    match stage
    case 0 => "planner"
    case 1 => "designer"
    case 2 => "builder"
    case 3 => "reviewer"
    case _ => "deployer"
  }

  function FindArtifact(artifacts: seq<Artifact>, stage: Stage, name: string): (a: Option<nat>)
    ensures a.Some? ==> a.value < |artifacts| && artifacts[a.value].stage == stage && artifacts[a.value].name == name
    ensures a.None? ==> forall i :: 0 <= i < |artifacts| ==> !(artifacts[i].stage == stage && artifacts[i].name == name)
  {
    if artifacts == [] then None
    else
      var n := |artifacts| - 1;
      if artifacts[n].stage == stage && artifacts[n].name == name then Some(n)
      else FindArtifact(artifacts[..n], stage, name)
  }

  /** `latest_artifact_version`: the highest number. */
  function Latest(versions: seq<Version>, artifact: nat): (v: Option<nat>)
    ensures v.Some? ==> v.value < |versions| && versions[v.value].artifact == artifact
    ensures v.None? ==> forall i :: 0 <= i < |versions| ==> versions[i].artifact != artifact
    ensures v.Some? ==>
              forall i :: 0 <= i < |versions| && versions[i].artifact == artifact ==>
                            versions[i].number <= versions[v.value].number
  {
    if versions == [] then None
    else
      var n := |versions| - 1;
      var before := Latest(versions[..n], artifact);
      if versions[n].artifact == artifact && (before == None || versions[before.value].number <= versions[n].number)
      then Some(n) else before
  }

  /** `add_artifact_version`: the previous version is superseded unless it was invalidated. */
  function AddVersion(versions: seq<Version>, version: Version): seq<Version> {
    var latest := Latest(versions, version.artifact);
    var before :=
      if latest.Some? && versions[latest.value].status != Invalidated
      then versions[latest.value := versions[latest.value].(status := Superseded)] else versions;
    before + [version]
  }

  function NewVersion(versions: seq<Version>, artifact: nat, run: nat, content: string): Version {
    var latest := Latest(versions, artifact);
    Version(artifact, run, if latest == None then 1 else versions[latest.value].number + 1, content, Draft, latest, None)
  }

  predicate Unchanged(versions: seq<Version>, artifact: nat, content: string) {
    var latest := Latest(versions, artifact);
    && latest.Some?
    && versions[latest.value].content == content
    && (versions[latest.value].status == Draft || versions[latest.value].status == LockedVersion)
  }

  const NAME_MAXIMUM := 160

  predicate Nameable(name: string) {
    1 <= |name| <= NAME_MAXIMUM
  }

  /** What `uq_artifacts_workflow_path` refuses to add again. */
  predicate PathTaken(artifacts: seq<Artifact>, path: string) {
    exists i :: 0 <= i < |artifacts| && artifacts[i].path == path
  }

  function CreateVersionStep(db: Db, r: nat, name: string, path: string, world: World): Outcome {
    if r >= |db.runs| then Err("stage_run.not_found")
    else
      var run := db.runs[r];
      if db.stage != run.stage then Err("artifact.stage_not_current")
      else if run.state !in {Producing, Reviewing, Checking, NeedsFix} then Err("artifact.stage_not_producing")
      else if !ProjectPaths.Under(path, "artifacts/" + StageName(run.stage)) then Err("artifact.path_out_of_scope")
      else if path !in world.files then Err("file.not_found")
      else Registered(db, r, PythonText.Strip(name), path, world.files[path])
  }

  /** The artifact of that name in the stage, new if there is none, gets a version unless it is unchanged. */
  function Registered(db: Db, r: nat, name: string, path: string, content: string): Outcome
    requires r < |db.runs|
  {
    var run, found := db.runs[r], FindArtifact(db.artifacts, db.runs[r].stage, name);
    if found == None then
      if !Nameable(name) then Err("artifact name is invalid")
      else if PathTaken(db.artifacts, path) then Err("uq_artifacts_workflow_path")
      else
        Ok(db.(artifacts := db.artifacts + [Artifact(run.stage, name, path)],
               versions := AddVersion(db.versions, NewVersion(db.versions, |db.artifacts|, r, content))))
    else if db.artifacts[found.value].path != path then Err("artifact.path_conflict")
    else if Unchanged(db.versions, found.value, content) then Ok(db)
    else Ok(db.(versions := AddVersion(db.versions, NewVersion(db.versions, found.value, r, content))))
  }

  function RequestChangeStep(db: Db, target: Stage, ids: seq<nat>): Outcome {
    var r := Current(db.runs, db.stage);
    if target > db.stage then Err("change_request.target_invalid")
    else if r == None then Err("current stage run is missing")
    else Ok(db.(changes := db.changes + [ChangeRequest(None, r.value, target, ids)],
                versions := Withdrawn(db.versions, db.artifacts, target), handoffs := Recalled(db.handoffs, target)))
  }

  // -------------------------------------------------------------------- gates

  predicate Error(issue: Issue) {
    issue != TestCommandMissing
  }

  /** `_gate_status`. */
  function StatusOf(issues: seq<Issue>): GateStatus {
    if exists i :: 0 <= i < |issues| && Error(issues[i]) then Fail else if issues != [] then Warning else Pass
  }

  datatype Verdict = Good | Bad(issue: Issue) | Unreadable

  /** What the gate finds about one named version. */
  function Inspect(db: Db, r: nat, id: nat, world: World): Verdict
    requires r < |db.runs|
  {
    if id >= |db.versions| then Bad(ArtifactMissing)
    else
      var version := db.versions[id];
      if || version.artifact >= |db.artifacts| || db.artifacts[version.artifact].stage != db.runs[r].stage
         || version.run != r || version.status != Draft
      then Bad(ArtifactInvalid)
      else
        var path := db.artifacts[version.artifact].path;
        if path !in world.files then Unreadable
        else if world.files[path] != version.content then Bad(ArtifactChanged)
        else Good
  }

  predicate AllReadable(db: Db, r: nat, ids: seq<nat>, world: World)
    requires r < |db.runs|
  {
    forall i :: 0 <= i < |ids| ==> Inspect(db, r, ids[i], world) != Unreadable
  }

  function ArtifactIssues(db: Db, r: nat, ids: seq<nat>, world: World): seq<Issue>
    requires r < |db.runs|
  {
    if ids == [] then []
    else
      var n := |ids| - 1;
      var before := ArtifactIssues(db, r, ids[..n], world);
      match Inspect(db, r, ids[n], world)
      case Bad(issue) => before + [issue]
      case _ => before
  }

  function AcceptedIds(db: Db, r: nat, ids: seq<nat>, world: World): seq<nat>
    requires r < |db.runs|
  {
    if ids == [] then []
    else
      var n := |ids| - 1;
      var before := AcceptedIds(db, r, ids[..n], world);
      if Inspect(db, r, ids[n], world) == Good then before + [ids[n]] else before
  }

  function ContextIssues(stage: Stage, world: World): seq<Issue> {
    (if world.formalRun == None then [FormalRunRequired]
     else if !world.formalRun.value then [FormalRunFailed] else [])
    + (if world.tasksActive then [TasksActive] else [])
    + (if world.conflictsOpen then [ConflictsOpen] else [])
    + (if (stage == 2 || stage == 3) && !world.testCommands then [TestCommandMissing] else [])
  }

  /** One issue a code, in order of first appearance. */
  function Distinct(issues: seq<Issue>): seq<Issue> {
    if issues == [] then []
    else
      var n := |issues| - 1;
      var before := Distinct(issues[..n]);
      if issues[n] in before then before else before + [issues[n]]
  }

  function ResolutionOf(status: GateStatus, mode: Mode): Resolution {
    if status == Fail || (status == Warning && mode == Autonomous) then RewriteRequired
    else if status == Pass && mode == Autonomous then Automatic
    else Pending
  }

  function Judged(db: Db, r: nat, ids: seq<nat>, world: World): Gate
    requires r < |db.runs|
  {
    var issues := Distinct(ArtifactIssues(db, r, ids, world) + ContextIssues(db.runs[r].stage, world));
    var status := StatusOf(issues);
    Gate(r, status, ResolutionOf(status, db.mode), issues, AcceptedIds(db, r, ids, world), db.mode)
  }

  function EvaluateStep(db: Db, r: nat, ids: seq<nat>, world: World): Outcome {
    if ids == [] || exists i, j :: 0 <= i < j < |ids| && ids[i] == ids[j] then Err("quality_gate.artifacts_invalid")
    else if r >= |db.runs| then Err("stage_run.not_found")
    else if db.stage != db.runs[r].stage then Err("stage_run.not_current")
    else if db.runs[r].state != Checking then Err("quality_gate.stage_not_checking")
    else if !AllReadable(db, r, ids, world) then Err("file.not_found")
    else
      var gate, g := Judged(db, r, ids, world), |db.gates|;
      var recorded := Recorded(db, gate);
      match gate.resolution
      case Pending =>
        (match MoveStage(recorded, r, WaitingApproval)
         case Err(e) => Err(e)
         case Ok(moved) => Ok(moved.(status := WaitingUser, approvals := moved.approvals + [Approval(g, Undecided)])))
      case Automatic => Finalize(recorded, g, world)
      case _ => Ok(SentBack(recorded, g, if gate.status == Warning then WarningHeld else NeedsFix))
  }

  function Recorded(db: Db, gate: Gate): (after: Db)
    ensures |after.gates| == |db.gates| + 1 && after.gates[|db.gates|] == gate
  {
    db.(gates := db.gates + [gate])
  }

  /** The stage goes back for rework, with a change request for the gate. */
  function SentBack(db: Db, g: nat, state: StageState): Db
    requires g < |db.gates| && db.gates[g].run < |db.runs|
  {
    var gate := db.gates[g];
    db.(runs := WithState(db.runs, gate.run, state),
        status := if state == WarningHeld then WarningBlocked else Running,
        changes := db.changes + [ChangeRequest(Some(g), gate.run, db.runs[gate.run].stage, gate.versions)])
  }

  /** What keeps a version from being locked for a handoff. */
  function Obstacle(db: Db, id: nat, world: World): Option<string> {
    if id >= |db.versions| || db.versions[id].status != Draft then Some("quality_gate.artifact_not_lockable")
    else if db.versions[id].artifact >= |db.artifacts| then Some("gate artifact is missing")
    else
      var path := db.artifacts[db.versions[id].artifact].path;
      if path !in world.files then Some("file.not_found")
      else if world.files[path] != db.versions[id].content then Some("quality_gate.artifact_changed")
      else None
  }

  function FirstObstacle(db: Db, ids: seq<nat>, world: World): Option<string> {
    if ids == [] then None
    else
      var before := FirstObstacle(db, ids[..|ids| - 1], world);
      if before.Some? then before else Obstacle(db, ids[|ids| - 1], world)
  }

  function LockedAt(versions: seq<Version>, ids: seq<nat>, checkpoint: nat): seq<Version> {
    seq(|versions|, i requires 0 <= i < |versions| =>
      if i in ids then versions[i].(status := LockedVersion, checkpoint := Some(checkpoint)) else versions[i])
  }

  /** `_finalize_gate`: lock the versions with a checkpoint, hand off, complete the stage. */
  function Finalize(db: Db, g: nat, world: World): Outcome
    requires g < |db.gates| && db.gates[g].run < |db.runs|
  {
    var gate := db.gates[g];
    var obstacle := FirstObstacle(db, gate.versions, world);
    if obstacle.Some? then Err(obstacle.value)
    else if !world.capturable then Err("checkpoint")
    else
      Finish(LockedFor(db, g), gate.run, PacketFor(db, g))
  }

  function LockedFor(db: Db, g: nat): Db
    requires g < |db.gates|
  {
    db.(versions := LockedAt(db.versions, db.gates[g].versions, db.checkpoints), checkpoints := db.checkpoints + 1)
  }

  /** `_handoff_packet`. */
  function PacketFor(db: Db, g: nat): Handoff
    requires g < |db.gates| && db.gates[g].run < |db.runs|
  {
    var gate := db.gates[g];
    Handoff(g, gate.run, db.runs[gate.run].stage, gate.versions, db.checkpoints, true)
  }

  function Finish(db: Db, r: nat, handoff: Handoff): Outcome
    requires r < |db.runs|
  {
    if db.runs[r].state == Checking then
      match MoveStage(db, r, WaitingApproval)
      case Err(e) => Err(e)
      case Ok(waiting) => HandOff(waiting, r, handoff)
    else HandOff(db, r, handoff)
  }

  function HandOff(db: Db, r: nat, handoff: Handoff): Outcome
    requires r < |db.runs|
  {
    if !Allowed(db.runs[r].state, HandoffReady) then Err("stage_run.invalid_transition")
    else
      match MoveStage(db, r, HandoffReady)
      case Err(e) => Err(e)
      case Ok(ready) => MoveStage(ready.(handoffs := ready.handoffs + [handoff]), r, Done)
  }

  function DecideStep(db: Db, a: nat, approved: bool, world: World): Outcome {
    if a >= |db.approvals| then Err("approval.not_found")
    else
      var g := db.approvals[a].gate;
      if g >= |db.gates| || db.gates[g].run >= |db.runs| then Err("quality gate approval target is missing")
      else
        var gate := db.gates[g];
        if db.stage != db.runs[gate.run].stage then Err("stage_run.not_current")
        else if db.runs[gate.run].state != WaitingApproval then Err("approval.stage_not_waiting")
        else if db.approvals[a].decision != Undecided then Err("approval.already_decided")
        else if approved && gate.status == Fail then Err("approval.gate_failed")
        else if gate.resolution != Pending then Err("quality_gate.already_resolved")
        else
          if approved then Finalize(Decided(db, a, approved), g, world)
          else Ok(SentBack(Decided(db, a, approved), g, NeedsFix))
  }

  /** The approval and its gate are settled together, and the workflow runs again. */
  function Decided(db: Db, a: nat, approved: bool): Db
    requires a < |db.approvals| && db.approvals[a].gate < |db.gates|
  {
    var g := db.approvals[a].gate;
    db.(approvals := db.approvals[a := Approval(g, if approved then Accepted else Rejected)],
        gates := db.gates[g := db.gates[g].(resolution := if approved then Approved else RewriteRequired)],
        status := Running)
  }

  // ------------------------------------------------------------------ control

  predicate Terminal(status: WorkflowStatus) {
    status == Completed || status == Stopped || status == WorkflowAbandoned
  }

  function Halted(db: Db, status: WorkflowStatus, state: StageState): Outcome {
    if Terminal(db.status) then Err("workflow.terminal")
    else
      var r := Current(db.runs, db.stage);
      Ok(db.(status := status, runs := if r == None then db.runs else WithState(db.runs, r.value, state)))
  }

  function Apply(db: Db, step: Step, world: World): Outcome {
    match step
    case Start => if db.status == Created then Ok(db.(status := Running)) else Err("workflow.already_started")
    case SetMode(mode) =>
      if Terminal(db.status) || db.status == WorkflowFailed then Err("workflow.terminal") else Ok(db.(mode := mode))
    case Transition(stage, target, agentActive) => TransitionStep(db, stage, target, agentActive)
    case Reopen(stage, agentActive) => ReopenStep(db, stage, agentActive)
    case CreateVersion(r, name, path) => CreateVersionStep(db, r, name, path, world)
    case Evaluate(r, ids) => EvaluateStep(db, r, ids, world)
    case Decide(a, approved) => DecideStep(db, a, approved, world)
    case RequestChange(from, ids) => RequestChangeStep(db, from, ids)
    case Pause =>
      if db.status in {Running, WaitingUser, WarningBlocked} then Ok(db.(status := Paused))
      else Err("workflow.not_pausable")
    case Resume => if db.status == Paused then Ok(db.(status := Running)) else Err("workflow.not_resumable")
    case Stop => Halted(db, Stopped, Cancelled)
    case Abandon => Halted(db, WorkflowAbandoned, Abandoned)
  }

  function Next(db: Db, step: Step, world: World): Db {
    match Apply(db, step, world)
    case Ok(after) => after
    case Err(_) => db
  }

  function RunAll(db: Db, steps: seq<Step>, worlds: seq<World>): Db
    requires |steps| == |worlds|
    decreases |steps|
  {
    if steps == [] then db else RunAll(Next(db, steps[0], worlds[0]), steps[1..], worlds[1..])
  }
}
