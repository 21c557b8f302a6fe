/**
 What gates, approvals, handoffs and gate change requests have to do with each other, in
 every run of the governance calls.
 */
module GovernanceGates {
  import opened Wrappers
  import opened GovernanceState

  // ------------------------------------------------------------- frames of moves

  /** `transition_stage` touches runs, the current stage and the workflow status only. */
  lemma MoveFrame(db: Db, r: nat, target: StageState, after: Db)
    requires r < |db.runs| && MoveStage(db, r, target) == Ok(after)
    ensures after == db.(runs := after.runs, status := after.status, stage := after.stage)
    ensures |after.runs| == |db.runs| && after.runs[r].state == target
  {
  }

  /** The last moves of a gate, and the handoff recorded between them. */
  lemma HandOffFrame(db: Db, r: nat, handoff: Handoff, after: Db)
    requires r < |db.runs| && HandOff(db, r, handoff) == Ok(after)
    ensures after == db.(runs := after.runs, status := after.status, stage := after.stage,
                         handoffs := db.handoffs + [handoff])
    ensures |after.runs| == |db.runs| && after.runs[r].state == Done
  {
    var ready := MoveStage(db, r, HandoffReady).value;
    MoveFrame(db, r, HandoffReady, ready);
    MoveFrame(ready.(handoffs := ready.handoffs + [handoff]), r, Done, after);
  }

  lemma FinishFrame(db: Db, r: nat, handoff: Handoff, after: Db)
    requires r < |db.runs| && Finish(db, r, handoff) == Ok(after)
    ensures after == db.(runs := after.runs, status := after.status, stage := after.stage,
                         handoffs := db.handoffs + [handoff])
    ensures |after.runs| == |db.runs| && after.runs[r].state == Done
  {
    if db.runs[r].state == Checking {
      var waiting := MoveStage(db, r, WaitingApproval).value;
      MoveFrame(db, r, WaitingApproval, waiting);
      HandOffFrame(waiting, r, handoff, after);
    } else {
      HandOffFrame(db, r, handoff, after);
    }
  }

  /** What finishing a gate records. */
  lemma FinalizeFrame(db: Db, g: nat, world: World, after: Db)
    requires g < |db.gates| && db.gates[g].run < |db.runs| && Finalize(db, g, world) == Ok(after)
    ensures after == LockedFor(db, g).(runs := after.runs, status := after.status, stage := after.stage,
                                       handoffs := db.handoffs + [PacketFor(db, g)])
    ensures |after.runs| == |db.runs| && after.runs[db.gates[g].run].state == Done
    ensures FirstObstacle(db, db.gates[g].versions, world) == None
  {
    FinishFrame(LockedFor(db, g), db.gates[g].run, PacketFor(db, g), after);
  }

  // ---------------------------------------------------- one record for each gate

  /** `keys` names every needed position exactly once and no other. */
  ghost predicate Paired(keys: seq<nat>, needs: seq<bool>) {
    && (forall k :: 0 <= k < |keys| ==> keys[k] < |needs| && needs[keys[k]])
    && (forall i, j :: 0 <= i < j < |keys| ==> keys[i] != keys[j])
    && (forall g :: 0 <= g < |needs| && needs[g] ==> g in keys)
  }

  lemma PairedGrows(keys: seq<nat>, needs: seq<bool>, need: bool)
    requires Paired(keys, needs)
    ensures Paired(if need then keys + [|needs|] else keys, needs + [need])
  {
    var more := if need then keys + [|needs|] else keys;
    forall g | 0 <= g < |needs| + 1 && (needs + [need])[g] ensures g in more {
      if g < |needs| { assert g in keys; } else { assert more[|keys|] == g; }
    }
  }

  lemma PairedAdds(keys: seq<nat>, needs: seq<bool>, g: nat)
    requires Paired(keys, needs) && g < |needs| && !needs[g]
    ensures Paired(keys + [g], needs[g := true])
  {
  }

  function ApprovalKeys(approvals: seq<Approval>): seq<nat> {
    seq(|approvals|, i requires 0 <= i < |approvals| => approvals[i].gate)
  }

  function HandoffKeys(handoffs: seq<Handoff>): seq<nat> {
    seq(|handoffs|, i requires 0 <= i < |handoffs| => handoffs[i].gate)
  }

  function ChangeKeys(changes: seq<ChangeRequest>): seq<nat> {
    if changes == [] then []
    else
      var n := |changes| - 1;
      ChangeKeys(changes[..n]) + (if changes[n].gate.Some? then [changes[n].gate.value] else [])
  }

  /** Gates a person has to look at. */
  predicate NeedsApproval(gate: Gate) {
    gate.mode == Manual && gate.status != Fail
  }

  predicate NeedsHandoff(gate: Gate) {
    gate.resolution == Automatic || gate.resolution == Approved
  }

  predicate NeedsRework(gate: Gate) {
    gate.resolution == RewriteRequired
  }

  function ApprovalMarks(gates: seq<Gate>): seq<bool> {
    seq(|gates|, i requires 0 <= i < |gates| => NeedsApproval(gates[i]))
  }

  function HandoffMarks(gates: seq<Gate>): seq<bool> {
    seq(|gates|, i requires 0 <= i < |gates| => NeedsHandoff(gates[i]))
  }

  function ReworkMarks(gates: seq<Gate>): seq<bool> {
    seq(|gates|, i requires 0 <= i < |gates| => NeedsRework(gates[i]))
  }

  predicate WellResolved(gate: Gate) {
    match gate.resolution
    case Automatic => gate.status == Pass && gate.mode == Autonomous
    case Approved => NeedsApproval(gate)
    case Pending => NeedsApproval(gate)
    case RewriteRequired => gate.status != Pass || gate.mode == Manual
  }

  predicate Agrees(decision: Decision, resolution: Resolution) {
    match decision
    case Undecided => resolution == Pending
    case Accepted => resolution == Approved
    case Rejected => resolution == RewriteRequired
  }

  ghost predicate GatesSound(gates: seq<Gate>, runs: nat) {
    forall g :: 0 <= g < |gates| ==> WellResolved(gates[g]) && gates[g].run < runs
  }

  /** Every gate a person has to look at has one approval, whose decision is the gate's resolution. */
  ghost predicate ApprovalsSound(gates: seq<Gate>, approvals: seq<Approval>) {
    && Paired(ApprovalKeys(approvals), ApprovalMarks(gates))
    && (forall a :: 0 <= a < |approvals| ==>
          approvals[a].gate < |gates| && Agrees(approvals[a].decision, gates[approvals[a].gate].resolution))
  }

  predicate HandoffAgrees(gates: seq<Gate>, handoff: Handoff) {
    && handoff.gate < |gates|
    && handoff.run == gates[handoff.gate].run
    && handoff.versions == gates[handoff.gate].versions
  }

  /** Every gate resolved in favour has one handoff, of its own run and versions. */
  ghost predicate HandoffsSound(gates: seq<Gate>, handoffs: seq<Handoff>) {
    && Paired(HandoffKeys(handoffs), HandoffMarks(gates))
    && (forall h :: 0 <= h < |handoffs| ==> HandoffAgrees(gates, handoffs[h]))
  }

  /** Every gate that asks for rework has one change request. */
  ghost predicate ChangesSound(gates: seq<Gate>, changes: seq<ChangeRequest>) {
    Paired(ChangeKeys(changes), ReworkMarks(gates))
  }

  ghost predicate SoundGates(db: Db) {
    && GatesSound(db.gates, |db.runs|)
    && ApprovalsSound(db.gates, db.approvals)
    && HandoffsSound(db.gates, db.handoffs)
    && ChangesSound(db.gates, db.changes)
  }

  // -------------------------------------------------------------- a gate is added

  lemma MarksGrow(gates: seq<Gate>, gate: Gate)
    ensures ApprovalMarks(gates + [gate]) == ApprovalMarks(gates) + [NeedsApproval(gate)]
    ensures HandoffMarks(gates + [gate]) == HandoffMarks(gates) + [NeedsHandoff(gate)]
    ensures ReworkMarks(gates + [gate]) == ReworkMarks(gates) + [NeedsRework(gate)]
  {
  }

  lemma ApprovalsGrow(gates: seq<Gate>, approvals: seq<Approval>, gate: Gate)
    requires ApprovalsSound(gates, approvals) && (NeedsApproval(gate) ==> gate.resolution == Pending)
    ensures ApprovalsSound(gates + [gate],
                           if NeedsApproval(gate) then approvals + [Approval(|gates|, Undecided)] else approvals)
  {
    var more := if NeedsApproval(gate) then approvals + [Approval(|gates|, Undecided)] else approvals;
    PairedGrows(ApprovalKeys(approvals), ApprovalMarks(gates), NeedsApproval(gate));
    MarksGrow(gates, gate);
    assert ApprovalKeys(more) == if NeedsApproval(gate) then ApprovalKeys(approvals) + [|gates|] else ApprovalKeys(approvals);
  }

  lemma HandoffsAgreeGrow(gates: seq<Gate>, handoffs: seq<Handoff>, gate: Gate)
    requires forall h :: 0 <= h < |handoffs| ==> HandoffAgrees(gates, handoffs[h])
    ensures forall h :: 0 <= h < |handoffs| ==> HandoffAgrees(gates + [gate], handoffs[h])
  {
  }

  lemma HandoffsGrow(gates: seq<Gate>, handoffs: seq<Handoff>, gate: Gate, handoff: Handoff)
    requires HandoffsSound(gates, handoffs)
    requires handoff.gate == |gates| && handoff.run == gate.run && handoff.versions == gate.versions
    ensures HandoffsSound(gates + [gate], if NeedsHandoff(gate) then handoffs + [handoff] else handoffs)
  {
    PairedGrows(HandoffKeys(handoffs), HandoffMarks(gates), NeedsHandoff(gate));
    HandoffsAgreeGrow(gates, handoffs, gate);
    MarksGrow(gates, gate);
    if NeedsHandoff(gate) {
      assert HandoffKeys(handoffs + [handoff]) == HandoffKeys(handoffs) + [|gates|];
    }
  }

  lemma ChangesGrow(gates: seq<Gate>, changes: seq<ChangeRequest>, gate: Gate, change: ChangeRequest)
    requires ChangesSound(gates, changes) && change.gate == Some(|gates|)
    ensures ChangesSound(gates + [gate], if NeedsRework(gate) then changes + [change] else changes)
  {
    PairedGrows(ChangeKeys(changes), ReworkMarks(gates), NeedsRework(gate));
    MarksGrow(gates, gate);
    if NeedsRework(gate) {
      assert ChangeKeys(changes + [change]) == ChangeKeys(changes) + [|gates|];
    }
  }

  // ------------------------------------------------------------ a gate is decided

  lemma ApprovalDecided(gates: seq<Gate>, approvals: seq<Approval>, a: nat, decision: Decision, resolution: Resolution)
    requires ApprovalsSound(gates, approvals) && a < |approvals| && approvals[a].gate < |gates|
    requires Agrees(decision, resolution)
    ensures var g := approvals[a].gate;
            ApprovalsSound(gates[g := gates[g].(resolution := resolution)], approvals[a := Approval(g, decision)])
  {
    var g := approvals[a].gate;
    var now, decided := gates[g := gates[g].(resolution := resolution)], approvals[a := Approval(g, decision)];
    assert ApprovalMarks(now) == ApprovalMarks(gates);
    assert ApprovalKeys(decided) == ApprovalKeys(approvals);
    forall b | 0 <= b < |decided| ensures decided[b].gate < |now| && Agrees(decided[b].decision, now[decided[b].gate].resolution) {
      if b != a {
        assert ApprovalKeys(approvals)[a] != ApprovalKeys(approvals)[b];
      }
    }
  }

  lemma HandoffsResolved(gates: seq<Gate>, handoffs: seq<Handoff>, g: nat, resolution: Resolution, handoff: Handoff)
    requires HandoffsSound(gates, handoffs) && g < |gates| && !NeedsHandoff(gates[g])
    requires handoff.gate == g && handoff.run == gates[g].run && handoff.versions == gates[g].versions
    ensures var now := gates[g := gates[g].(resolution := resolution)];
            HandoffsSound(now, if NeedsHandoff(now[g]) then handoffs + [handoff] else handoffs)
  {
    var now := gates[g := gates[g].(resolution := resolution)];
    var keys, marks := HandoffKeys(handoffs), HandoffMarks(gates);
    if NeedsHandoff(now[g]) {
      PairedAdds(keys, marks, g);
      assert HandoffMarks(now) == marks[g := true];
      assert HandoffKeys(handoffs + [handoff]) == keys + [g];
    } else {
      assert HandoffMarks(now) == marks;
    }
  }

  lemma ChangesResolved(gates: seq<Gate>, changes: seq<ChangeRequest>, g: nat, resolution: Resolution,
                        change: ChangeRequest)
    requires ChangesSound(gates, changes) && g < |gates| && !NeedsRework(gates[g]) && change.gate == Some(g)
    ensures var now := gates[g := gates[g].(resolution := resolution)];
            ChangesSound(now, if NeedsRework(now[g]) then changes + [change] else changes)
  {
    var now := gates[g := gates[g].(resolution := resolution)];
    var marks := ReworkMarks(gates);
    if NeedsRework(now[g]) {
      PairedAdds(ChangeKeys(changes), marks, g);
      assert ReworkMarks(now) == marks[g := true];
      assert (changes + [change])[..|changes|] == changes;
    } else {
      assert ReworkMarks(now) == marks;
    }
  }

  // ---------------------------------------------------------------- other changes

  lemma PlainChange(gates: seq<Gate>, changes: seq<ChangeRequest>, change: ChangeRequest)
    requires ChangesSound(gates, changes) && change.gate == None
    ensures ChangesSound(gates, changes + [change])
  {
  }

  lemma RecallKeeps(gates: seq<Gate>, handoffs: seq<Handoff>, from: nat)
    requires HandoffsSound(gates, handoffs)
    ensures HandoffsSound(gates, Recalled(handoffs, from))
  {
    assert HandoffKeys(Recalled(handoffs, from)) == HandoffKeys(handoffs);
  }

  // ------------------------------------------------------------ what a status means

  lemma {:induction false} DistinctMembers(issues: seq<Issue>, issue: Issue)
    ensures issue in Distinct(issues) <==> issue in issues
  {
    if issues != [] {
      var init := issues[..|issues| - 1];
      DistinctMembers(init, issue);
      DistinctMembers(init, issues[|issues| - 1]);
      assert issues == init + [issues[|issues| - 1]];
    }
  }

  lemma {:induction false} ArtifactIssuesMembers(db: Db, r: nat, ids: seq<nat>, world: World, issue: Issue)
    requires r < |db.runs|
    ensures issue in ArtifactIssues(db, r, ids, world)
            <==> exists i :: 0 <= i < |ids| && Inspect(db, r, ids[i], world) == Bad(issue)
  {
    if ids != [] {
      var n := |ids| - 1;
      ArtifactIssuesMembers(db, r, ids[..n], world, issue);
      assert forall i :: 0 <= i < n ==> ids[..n][i] == ids[i];
    }
  }

  /** A draft of the run's own stage, made in the run itself. */
  predicate OwnDraft(db: Db, r: nat, id: nat)
    requires r < |db.runs|
  {
    && id < |db.versions|
    && var version := db.versions[id];
       && version.artifact < |db.artifacts| && db.artifacts[version.artifact].stage == db.runs[r].stage
       && version.run == r && version.status == Draft
  }

  /** What a file of the project holds now. */
  predicate HasContent(db: Db, id: nat, world: World)
    requires id < |db.versions| && db.versions[id].artifact < |db.artifacts|
  {
    var path := db.artifacts[db.versions[id].artifact].path;
    path in world.files && world.files[path] == db.versions[id].content
  }

  predicate FileExists(db: Db, id: nat, world: World)
    requires id < |db.versions| && db.versions[id].artifact < |db.artifacts|
  {
    db.artifacts[db.versions[id].artifact].path in world.files
  }

  /** A version a gate can accept: a draft of the run that the project's file still agrees with. */
  predicate Usable(db: Db, r: nat, id: nat, world: World)
    requires r < |db.runs|
  {
    OwnDraft(db, r, id) && HasContent(db, id, world)
  }

  lemma Inspected(db: Db, r: nat, id: nat, world: World)
    requires r < |db.runs|
    ensures Inspect(db, r, id, world) == Good <==> Usable(db, r, id, world)
    ensures Inspect(db, r, id, world) == Bad(ArtifactMissing) <==> id >= |db.versions|
    ensures Inspect(db, r, id, world) == Bad(ArtifactInvalid) <==> id < |db.versions| && !OwnDraft(db, r, id)
    ensures Inspect(db, r, id, world) == Bad(ArtifactChanged)
            <==> OwnDraft(db, r, id) && FileExists(db, id, world) && !HasContent(db, id, world)
    ensures Inspect(db, r, id, world) == Unreadable <==> OwnDraft(db, r, id) && !FileExists(db, id, world)
    ensures Inspect(db, r, id, world).Bad? ==>
              Inspect(db, r, id, world).issue in {ArtifactMissing, ArtifactInvalid, ArtifactChanged}
  {
  }

  /** `kept` is `all` with some elements left out. */
  ghost predicate Subsequence<T>(kept: seq<T>, all: seq<T>) {
    kept == []
    || (all != [] && (if kept[|kept| - 1] == all[|all| - 1]
                      then Subsequence(kept[..|kept| - 1], all[..|all| - 1]) else Subsequence(kept, all[..|all| - 1])))
  }

  /** A gate accepts exactly the usable ones of the versions it was asked about, in their order. */
  lemma {:induction false} AcceptedAre(db: Db, r: nat, ids: seq<nat>, world: World, id: nat)
    requires r < |db.runs|
    ensures id in AcceptedIds(db, r, ids, world) <==> id in ids && Usable(db, r, id, world)
    ensures Subsequence(AcceptedIds(db, r, ids, world), ids)
  {
    if ids != [] {
      var n := |ids| - 1;
      var front, accepted := ids[..n], AcceptedIds(db, r, ids, world);
      AcceptedAre(db, r, front, world, id);
      AcceptedAre(db, r, front, world, ids[n]);
      Inspected(db, r, ids[n], world);
      assert ids == front + [ids[n]];
      if Usable(db, r, ids[n], world) {
        assert accepted[..|accepted| - 1] == AcceptedIds(db, r, front, world);
      } else {
        assert accepted == AcceptedIds(db, r, front, world);
        assert accepted != [] ==> accepted[|accepted| - 1] in accepted && accepted[|accepted| - 1] != ids[n] by {
          if accepted != [] { AcceptedAre(db, r, front, world, accepted[|accepted| - 1]); }
        }
      }
    }
  }

  lemma {:induction false} AllAccepted(db: Db, r: nat, ids: seq<nat>, world: World)
    requires r < |db.runs| && forall i :: 0 <= i < |ids| ==> Usable(db, r, ids[i], world)
    ensures AcceptedIds(db, r, ids, world) == ids
  {
    if ids != [] {
      AllAccepted(db, r, ids[..|ids| - 1], world);
      Inspected(db, r, ids[|ids| - 1], world);
      assert ids == ids[..|ids| - 1] + [ids[|ids| - 1]];
    }
  }

  /** One of the versions is not usable, or something around the stage is missing, failed or open. */
  predicate Blocked(db: Db, r: nat, ids: seq<nat>, world: World)
    requires r < |db.runs|
  {
    || (exists i :: 0 <= i < |ids| && !Usable(db, r, ids[i], world))
    || world.formalRun != Some(true) || world.tasksActive || world.conflictsOpen
  }

  /** The file of every draft asked about can be read. */
  predicate Readable(db: Db, r: nat, ids: seq<nat>, world: World)
    requires r < |db.runs|
  {
    forall i :: 0 <= i < |ids| && OwnDraft(db, r, ids[i]) ==> FileExists(db, ids[i], world)
  }

  lemma ReadableIff(db: Db, r: nat, ids: seq<nat>, world: World)
    requires r < |db.runs|
    ensures AllReadable(db, r, ids, world) <==> Readable(db, r, ids, world)
  {
    forall i | 0 <= i < |ids|
      ensures Inspect(db, r, ids[i], world) == Unreadable <==> OwnDraft(db, r, ids[i]) && !FileExists(db, ids[i], world)
    {
      Inspected(db, r, ids[i], world);
    }
  }

  predicate Untested(stage: Stage, world: World) {
    (stage == 2 || stage == 3) && !world.testCommands
  }

  lemma ContextMembers(stage: Stage, world: World, issue: Issue)
    ensures issue in ContextIssues(stage, world)
            <==> || (issue == FormalRunRequired && world.formalRun == None)
                 || (issue == FormalRunFailed && world.formalRun == Some(false))
                 || (issue == TasksActive && world.tasksActive)
                 || (issue == ConflictsOpen && world.conflictsOpen)
                 || (issue == TestCommandMissing && Untested(stage, world))
  {
  }

  /** Which issues a gate lists. */
  lemma ListedIssues(db: Db, r: nat, ids: seq<nat>, world: World, issue: Issue)
    requires r < |db.runs|
    ensures issue in Judged(db, r, ids, world).issues
            <==> || (exists i :: 0 <= i < |ids| && Inspect(db, r, ids[i], world) == Bad(issue))
                 || issue in ContextIssues(db.runs[r].stage, world)
  {
    DistinctMembers(ArtifactIssues(db, r, ids, world) + ContextIssues(db.runs[r].stage, world), issue);
    ArtifactIssuesMembers(db, r, ids, world, issue);
  }

  lemma BadIsError(db: Db, r: nat, id: nat, world: World)
    requires r < |db.runs| && Inspect(db, r, id, world).Bad?
    ensures Error(Inspect(db, r, id, world).issue)
  {
  }

  lemma BlockedThenListed(db: Db, r: nat, ids: seq<nat>, world: World) returns (issue: Issue)
    requires r < |db.runs| && AllReadable(db, r, ids, world) && Blocked(db, r, ids, world)
    ensures issue in Judged(db, r, ids, world).issues && Error(issue)
  {
    if i :| 0 <= i < |ids| && !Usable(db, r, ids[i], world) {
      assert Inspect(db, r, ids[i], world) != Unreadable;
      Inspected(db, r, ids[i], world);
      BadIsError(db, r, ids[i], world);
      issue := Inspect(db, r, ids[i], world).issue;
    } else {
      issue := if world.formalRun == None then FormalRunRequired
               else if !world.formalRun.value then FormalRunFailed
               else if world.tasksActive then TasksActive else ConflictsOpen;
      ContextMembers(db.runs[r].stage, world, issue);
    }
    ListedIssues(db, r, ids, world, issue);
  }

  lemma ListedThenBlocked(db: Db, r: nat, ids: seq<nat>, world: World, issue: Issue)
    requires r < |db.runs| && issue in Judged(db, r, ids, world).issues && Error(issue)
    ensures Blocked(db, r, ids, world)
  {
    ListedIssues(db, r, ids, world, issue);
    ContextMembers(db.runs[r].stage, world, issue);
    if i :| 0 <= i < |ids| && Inspect(db, r, ids[i], world) == Bad(issue) { Inspected(db, r, ids[i], world); }
  }

  lemma BlockedIsListed(db: Db, r: nat, ids: seq<nat>, world: World)
    requires r < |db.runs| && AllReadable(db, r, ids, world)
    ensures Blocked(db, r, ids, world)
            <==> exists issue :: issue in Judged(db, r, ids, world).issues && Error(issue)
  {
    if Blocked(db, r, ids, world) { var issue := BlockedThenListed(db, r, ids, world); }
    forall issue | issue in Judged(db, r, ids, world).issues && Error(issue) ensures Blocked(db, r, ids, world) {
      ListedThenBlocked(db, r, ids, world, issue);
    }
  }

  lemma WarningListed(db: Db, r: nat, ids: seq<nat>, world: World)
    requires r < |db.runs|
    ensures TestCommandMissing in Judged(db, r, ids, world).issues <==> Untested(db.runs[r].stage, world)
  {
    ListedIssues(db, r, ids, world, TestCommandMissing);
    ContextMembers(db.runs[r].stage, world, TestCommandMissing);
    forall i | 0 <= i < |ids| && Inspect(db, r, ids[i], world).Bad?
      ensures Inspect(db, r, ids[i], world) != Bad(TestCommandMissing)
    {
      BadIsError(db, r, ids[i], world);
    }
  }

  lemma StatusFromIssues(issues: seq<Issue>)
    ensures StatusOf(issues) == Fail <==> exists issue :: issue in issues && Error(issue)
    ensures StatusOf(issues) == Warning <==> StatusOf(issues) != Fail && TestCommandMissing in issues
  {
    if exists issue :: issue in issues && Error(issue) {
      var issue :| issue in issues && Error(issue);
      var i :| 0 <= i < |issues| && issues[i] == issue;
      assert Error(issues[i]);
    } else {
      forall i | 0 <= i < |issues| ensures !Error(issues[i]) { assert issues[i] in issues; }
      if issues != [] { assert !Error(issues[0]); }
    }
  }

  /**
   A gate fails exactly when something blocks it, warns exactly when only the test command is
   missing, and otherwise passes with all the versions it was asked about.
   */
  lemma StatusMeans(db: Db, r: nat, ids: seq<nat>, world: World)
    requires r < |db.runs| && Readable(db, r, ids, world)
    ensures var gate := Judged(db, r, ids, world);
            && (gate.status == Fail <==> Blocked(db, r, ids, world))
            && (gate.status == Warning <==> !Blocked(db, r, ids, world) && Untested(db.runs[r].stage, world))
            && (gate.status != Fail ==> gate.versions == ids)
  {
    ReadableIff(db, r, ids, world);
    BlockedIsListed(db, r, ids, world);
    StatusFromIssues(Judged(db, r, ids, world).issues);
    WarningListed(db, r, ids, world);
    if !Blocked(db, r, ids, world) { AllAccepted(db, r, ids, world); }
  }

  lemma {:induction false} NoneTwice(issues: seq<Issue>)
    ensures forall i, j :: 0 <= i < j < |Distinct(issues)| ==> Distinct(issues)[i] != Distinct(issues)[j]
  {
    if issues != [] { NoneTwice(issues[..|issues| - 1]); }
  }

  lemma {:induction false} ContextCode(db: Db, r: nat, ids: seq<nat>, world: World, issue: Issue)
    requires r < |db.runs| && issue !in {ArtifactMissing, ArtifactInvalid, ArtifactChanged}
    ensures issue in Judged(db, r, ids, world).issues
            <==> || (issue == FormalRunRequired && world.formalRun == None)
                 || (issue == FormalRunFailed && world.formalRun == Some(false))
                 || (issue == TasksActive && world.tasksActive)
                 || (issue == ConflictsOpen && world.conflictsOpen)
                 || (issue == TestCommandMissing && Untested(db.runs[r].stage, world))
  {
    ListedIssues(db, r, ids, world, issue);
    ContextMembers(db.runs[r].stage, world, issue);
    forall i | 0 <= i < |ids| ensures Inspect(db, r, ids[i], world) != Bad(issue) {
      Inspected(db, r, ids[i], world);
    }
  }

  lemma {:induction false} ArtifactCode(db: Db, r: nat, ids: seq<nat>, world: World, issue: Issue)
    requires r < |db.runs| && issue in {ArtifactMissing, ArtifactInvalid, ArtifactChanged}
    ensures issue in Judged(db, r, ids, world).issues
            <==> exists i :: 0 <= i < |ids| && Inspect(db, r, ids[i], world) == Bad(issue)
  {
    ListedIssues(db, r, ids, world, issue);
    ContextMembers(db.runs[r].stage, world, issue);
  }

  /** Which code a gate lists for which finding about the versions it was asked about. */
  lemma {:induction false} ArtifactIssuesMean(db: Db, r: nat, ids: seq<nat>, world: World)
    requires r < |db.runs|
    ensures var issues := Judged(db, r, ids, world).issues;
            && (ArtifactMissing in issues <==> exists i :: 0 <= i < |ids| && ids[i] >= |db.versions|)
            && (ArtifactInvalid in issues
                <==> exists i :: 0 <= i < |ids| && ids[i] < |db.versions| && !OwnDraft(db, r, ids[i]))
            && (ArtifactChanged in issues
                <==> exists i :: 0 <= i < |ids| && OwnDraft(db, r, ids[i]) && FileExists(db, ids[i], world)
                                 && !HasContent(db, ids[i], world))
  {
    ArtifactCode(db, r, ids, world, ArtifactMissing);
    ArtifactCode(db, r, ids, world, ArtifactInvalid);
    ArtifactCode(db, r, ids, world, ArtifactChanged);
    FoundAs(db, r, ids, world);
  }

  /** Which code a gate lists for what else it finds; no code is listed twice. */
  lemma {:induction false} ContextIssuesMean(db: Db, r: nat, ids: seq<nat>, world: World)
    requires r < |db.runs|
    ensures var issues, stage := Judged(db, r, ids, world).issues, db.runs[r].stage;
            && (FormalRunRequired in issues <==> world.formalRun == None)
            && (FormalRunFailed in issues <==> world.formalRun == Some(false))
            && (TasksActive in issues <==> world.tasksActive)
            && (ConflictsOpen in issues <==> world.conflictsOpen)
            && (TestCommandMissing in issues <==> (stage == 2 || stage == 3) && !world.testCommands)
            && forall i, j :: 0 <= i < j < |issues| ==> issues[i] != issues[j]
  {
    NoneTwice(ArtifactIssues(db, r, ids, world) + ContextIssues(db.runs[r].stage, world));
    ContextCode(db, r, ids, world, FormalRunRequired);
    ContextCode(db, r, ids, world, FormalRunFailed);
    ContextCode(db, r, ids, world, TasksActive);
    ContextCode(db, r, ids, world, ConflictsOpen);
    ContextCode(db, r, ids, world, TestCommandMissing);
  }

  lemma {:induction false} FoundAs(db: Db, r: nat, ids: seq<nat>, world: World)
    requires r < |db.runs|
    ensures (exists i :: 0 <= i < |ids| && Inspect(db, r, ids[i], world) == Bad(ArtifactMissing))
            <==> exists i :: 0 <= i < |ids| && ids[i] >= |db.versions|
    ensures (exists i :: 0 <= i < |ids| && Inspect(db, r, ids[i], world) == Bad(ArtifactInvalid))
            <==> exists i :: 0 <= i < |ids| && ids[i] < |db.versions| && !OwnDraft(db, r, ids[i])
    ensures (exists i :: 0 <= i < |ids| && Inspect(db, r, ids[i], world) == Bad(ArtifactChanged))
            <==> exists i :: 0 <= i < |ids| && OwnDraft(db, r, ids[i]) && FileExists(db, ids[i], world)
                             && !HasContent(db, ids[i], world)
  {
    forall i | 0 <= i < |ids|
      ensures Inspect(db, r, ids[i], world) == Bad(ArtifactMissing) <==> ids[i] >= |db.versions|
      ensures Inspect(db, r, ids[i], world) == Bad(ArtifactInvalid)
              <==> ids[i] < |db.versions| && !OwnDraft(db, r, ids[i])
      ensures Inspect(db, r, ids[i], world) == Bad(ArtifactChanged)
              <==> OwnDraft(db, r, ids[i]) && FileExists(db, ids[i], world) && !HasContent(db, ids[i], world)
    {
      Inspected(db, r, ids[i], world);
    }
  }

  /** What a manual gate waits for and an autonomous one does by itself. */
  lemma {:induction false} ResolutionMeans(db: Db, r: nat, ids: seq<nat>, world: World)
    requires r < |db.runs|
    ensures var gate := Judged(db, r, ids, world);
            && gate.run == r && gate.mode == db.mode
            && (gate.resolution == Automatic <==> gate.status == Pass && db.mode == Autonomous)
            && (gate.resolution == Pending <==> gate.status != Fail && db.mode == Manual)
            && gate.resolution != Approved
  {
  }

  // ------------------------------------------------------------------ each call

  /** The records a gate evaluation adds: one approval, one handoff, or one change request. */
  ghost predicate AddsOne(db: Db, after: Db, gate: Gate) {
    var g := |db.gates|;
    && |after.runs| == |db.runs| && gate.run < |db.runs|
    && after.gates == db.gates + [gate]
    && match gate.resolution
       case Pending =>
         && after == db.(gates := after.gates, approvals := db.approvals + [Approval(g, Undecided)], runs := after.runs,
                         stage := after.stage, status := WaitingUser)
         && after.runs[gate.run].state == WaitingApproval
       case Automatic =>
         var handoff := Handoff(g, gate.run, db.runs[gate.run].stage, gate.versions, db.checkpoints, true);
         && after == db.(gates := after.gates, handoffs := db.handoffs + [handoff], runs := after.runs,
                         stage := after.stage, status := after.status, checkpoints := db.checkpoints + 1,
                         versions := LockedAt(db.versions, gate.versions, db.checkpoints))
         && after.runs[gate.run].state == Done
       case RewriteRequired =>
         var change := ChangeRequest(Some(g), gate.run, db.runs[gate.run].stage, gate.versions);
         && after == db.(gates := after.gates, changes := db.changes + [change], runs := after.runs,
                         status := if gate.status == Warning then WarningBlocked else Running)
         && after.runs[gate.run].state == (if gate.status == Warning then WarningHeld else NeedsFix)
       case Approved => false
  }

  lemma PendingAddsOne(db: Db, gate: Gate, moved: Db)
    requires gate.resolution == Pending && gate.run < |db.runs|
    requires MoveStage(Recorded(db, gate), gate.run, WaitingApproval) == Ok(moved)
    ensures AddsOne(db, moved.(status := WaitingUser, approvals := moved.approvals + [Approval(|db.gates|, Undecided)]),
                    gate)
  {
  }

  lemma AutomaticAddsOne(db: Db, gate: Gate, world: World, after: Db)
    requires gate.resolution == Automatic && gate.run < |db.runs|
    requires Finalize(Recorded(db, gate), |db.gates|, world) == Ok(after)
    ensures AddsOne(db, after, gate)
  {
    FinalizeFrame(Recorded(db, gate), |db.gates|, world, after);
  }

  lemma ReworkAddsOne(db: Db, gate: Gate)
    requires gate.resolution == RewriteRequired && gate.run < |db.runs|
    ensures AddsOne(db, SentBack(Recorded(db, gate), |db.gates|,
                                 if gate.status == Warning then WarningHeld else NeedsFix), gate)
  {
  }

  /**
   Every evaluation adds one gate and exactly one of an approval, a handoff and a change
   request, and leaves the stage run in the matching state.
   */
  lemma EvaluateAddsOne(db: Db, r: nat, ids: seq<nat>, world: World, after: Db)
    requires EvaluateStep(db, r, ids, world) == Ok(after)
    ensures r < |db.runs| && AddsOne(db, after, Judged(db, r, ids, world))
  {
    var gate := Judged(db, r, ids, world);
    var recorded := Recorded(db, gate);
    match gate.resolution
    case Pending => PendingAddsOne(db, gate, MoveStage(recorded, r, WaitingApproval).value);
    case Automatic => AutomaticAddsOne(db, gate, world, after);
    case _ => ReworkAddsOne(db, gate);
  }

  lemma {:induction false} NotRunningRefusesPending(db: Db, r: nat, ids: seq<nat>, world: World, gate: Gate)
    requires r < |db.runs| && db.runs[r].stage == db.stage && db.runs[r].state == Checking && db.status != Running
    requires ids != [] && (forall i, j :: 0 <= i < j < |ids| ==> ids[i] != ids[j]) && AllReadable(db, r, ids, world)
    requires gate == Judged(db, r, ids, world) && gate.run == r && gate.resolution == Pending
    ensures EvaluateStep(db, r, ids, world).Err?
  {
  }

  lemma {:induction false} NotRunningRefusesAutomatic(db: Db, r: nat, ids: seq<nat>, world: World, gate: Gate)
    requires r < |db.runs| && db.runs[r].stage == db.stage && db.runs[r].state == Checking && db.status != Running
    requires ids != [] && (forall i, j :: 0 <= i < j < |ids| ==> ids[i] != ids[j]) && AllReadable(db, r, ids, world)
    requires gate == Judged(db, r, ids, world) && gate.run == r && gate.resolution == Automatic
    ensures EvaluateStep(db, r, ids, world).Err?
  {
    NotRunningNotFinal(Recorded(db, gate), |db.gates|, world);
  }

  lemma {:induction false} NotRunningSendsBack(db: Db, r: nat, ids: seq<nat>, world: World, gate: Gate)
    requires r < |db.runs| && db.runs[r].stage == db.stage && db.runs[r].state == Checking && db.status != Running
    requires ids != [] && (forall i, j :: 0 <= i < j < |ids| ==> ids[i] != ids[j]) && AllReadable(db, r, ids, world)
    requires gate == Judged(db, r, ids, world) && gate.run == r && gate.resolution != Pending && gate.resolution != Automatic
    ensures var outcome := EvaluateStep(db, r, ids, world);
            outcome.Ok? && outcome.value.status == if gate.status == Warning then WarningBlocked else Running
  {
  }

  lemma {:induction false} NotRunningOutcome(db: Db, r: nat, ids: seq<nat>, world: World, gate: Gate)
    requires r < |db.runs| && db.runs[r].stage == db.stage && db.runs[r].state == Checking && db.status != Running
    requires ids != [] && (forall i, j :: 0 <= i < j < |ids| ==> ids[i] != ids[j]) && AllReadable(db, r, ids, world)
    requires gate == Judged(db, r, ids, world) && gate.run == r
    ensures var outcome := EvaluateStep(db, r, ids, world);
            && (outcome.Ok? <==> gate.resolution != Pending && gate.resolution != Automatic)
            && (outcome.Ok? ==> outcome.value.status == if gate.status == Warning then WarningBlocked else Running)
  {
    match gate.resolution
    case Pending => NotRunningRefusesPending(db, r, ids, world, gate);
    case Automatic => NotRunningRefusesAutomatic(db, r, ids, world, gate);
    case _ => NotRunningSendsBack(db, r, ids, world, gate);
  }

  lemma {:induction false} JudgedAs(db: Db, r: nat, ids: seq<nat>, world: World, gate: Gate)
    requires r < |db.runs| && gate == Judged(db, r, ids, world)
    ensures gate.run == r && gate.resolution == ResolutionOf(gate.status, db.mode)
  {
  }

  /**
   Only the calls that move a stage check that the workflow is running. In a workflow that is
   paused, or completed, a gate is therefore accepted exactly when something blocks it or, in
   autonomous mode, only the test command is missing; and it sets the workflow running or held.
   */
  lemma {:induction false} EvaluatedWhileNotRunning(db: Db, r: nat, ids: seq<nat>, world: World)
    requires r < |db.runs| && db.runs[r].stage == db.stage && db.runs[r].state == Checking && db.status != Running
    requires ids != [] && (forall i, j :: 0 <= i < j < |ids| ==> ids[i] != ids[j]) && Readable(db, r, ids, world)
    ensures var outcome, blocked := EvaluateStep(db, r, ids, world), Blocked(db, r, ids, world);
            && (outcome.Ok? <==> blocked || (Untested(db.runs[r].stage, world) && db.mode == Autonomous))
            && (outcome.Ok? ==> outcome.value.status == if blocked then Running else WarningBlocked)
  {
    var gate := Judged(db, r, ids, world);
    ReadableIff(db, r, ids, world);
    StatusMeans(db, r, ids, world);
    JudgedAs(db, r, ids, world, gate);
    NotRunningOutcome(db, r, ids, world, gate);
  }

  lemma {:induction false} NotRunningNotFinal(db: Db, g: nat, world: World)
    requires g < |db.gates| && db.gates[g].run < |db.runs| && db.runs[db.gates[g].run].state == Checking
    requires db.status != Running
    ensures Finalize(db, g, world).Err?
  {
  }

  lemma JudgedResolved(db: Db, r: nat, ids: seq<nat>, world: World)
    requires r < |db.runs|
    ensures WellResolved(Judged(db, r, ids, world))
    ensures NeedsApproval(Judged(db, r, ids, world)) ==> Judged(db, r, ids, world).resolution == Pending
    ensures Judged(db, r, ids, world).run == r
  {
  }

  lemma {:induction false} AddedResolved(gates: seq<Gate>, gate: Gate, runs: nat)
    requires GatesSound(gates, runs) && WellResolved(gate) && gate.run < runs
    ensures GatesSound(gates + [gate], runs)
  {
  }

  /** What an evaluation leaves of each kind of record. */
  lemma {:induction false} AddedRecords(db: Db, after: Db, gate: Gate, handoff: Handoff, change: ChangeRequest)
    requires WellResolved(gate) && AddsOne(db, after, gate) && (NeedsApproval(gate) ==> gate.resolution == Pending)
    requires handoff == Handoff(|db.gates|, gate.run, db.runs[gate.run].stage, gate.versions, db.checkpoints, true)
    requires change == ChangeRequest(Some(|db.gates|), gate.run, db.runs[gate.run].stage, gate.versions)
    ensures after.approvals
            == if NeedsApproval(gate) then db.approvals + [Approval(|db.gates|, Undecided)] else db.approvals
    ensures after.handoffs == if NeedsHandoff(gate) then db.handoffs + [handoff] else db.handoffs
    ensures after.changes == if NeedsRework(gate) then db.changes + [change] else db.changes
  {
  }

  lemma {:induction false} AddedSound(db: Db, after: Db, gate: Gate)
    requires SoundGates(db) && WellResolved(gate) && AddsOne(db, after, gate)
    requires NeedsApproval(gate) ==> gate.resolution == Pending
    ensures SoundGates(after)
  {
    var g, stage := |db.gates|, db.runs[gate.run].stage;
    var handoff := Handoff(g, gate.run, stage, gate.versions, db.checkpoints, true);
    var change := ChangeRequest(Some(g), gate.run, stage, gate.versions);
    AddedRecords(db, after, gate, handoff, change);
    AddedResolved(db.gates, gate, |db.runs|);
    ApprovalsGrow(db.gates, db.approvals, gate);
    HandoffsGrow(db.gates, db.handoffs, gate, handoff);
    ChangesGrow(db.gates, db.changes, gate, change);
  }

  lemma EvaluateSound(db: Db, r: nat, ids: seq<nat>, world: World, after: Db)
    requires SoundGates(db) && EvaluateStep(db, r, ids, world) == Ok(after)
    ensures SoundGates(after)
  {
    EvaluateAddsOne(db, r, ids, world, after);
    JudgedResolved(db, r, ids, world);
    AddedSound(db, after, Judged(db, r, ids, world));
  }

  /** What a decision leaves: the approval and the gate agree, and one handoff or one change request is new. */
  ghost predicate DecidesOne(db: Db, after: Db, a: nat, approved: bool)
    requires a < |db.approvals| && db.approvals[a].gate < |db.gates|
    requires db.gates[db.approvals[a].gate].run < |db.runs|
  {
    var g := db.approvals[a].gate;
    var gate := db.gates[g];
    var handoff := Handoff(g, gate.run, db.runs[gate.run].stage, gate.versions, db.checkpoints, true);
    var change := ChangeRequest(Some(g), gate.run, db.runs[gate.run].stage, gate.versions);
    && |after.runs| == |db.runs|
    && after.approvals == db.approvals[a := Approval(g, if approved then Accepted else Rejected)]
    && after.gates == db.gates[g := gate.(resolution := if approved then Approved else RewriteRequired)]
    && after.handoffs == (if approved then db.handoffs + [handoff] else db.handoffs)
    && after.changes == (if approved then db.changes else db.changes + [change])
    && after.runs[gate.run].state == (if approved then Done else NeedsFix)
    && after.artifacts == db.artifacts && after.waved == db.waved
    && (approved ==> after.versions == LockedAt(db.versions, gate.versions, db.checkpoints)
                     && after.checkpoints == db.checkpoints + 1)
    && (!approved ==> after.versions == db.versions && after.checkpoints == db.checkpoints && after.status == Running)
  }

  lemma DecideRecordsOne(db: Db, a: nat, approved: bool, world: World, after: Db)
    requires DecideStep(db, a, approved, world) == Ok(after)
    ensures a < |db.approvals| && db.approvals[a].gate < |db.gates|
    ensures db.gates[db.approvals[a].gate].run < |db.runs| && DecidesOne(db, after, a, approved)
    ensures db.approvals[a].decision == Undecided && db.gates[db.approvals[a].gate].resolution == Pending
  {
    if approved { FinalizeFrame(Decided(db, a, approved), db.approvals[a].gate, world, after); }
  }

  lemma DecideSound(db: Db, a: nat, approved: bool, world: World, after: Db)
    requires SoundGates(db) && DecideStep(db, a, approved, world) == Ok(after)
    ensures SoundGates(after)
  {
    DecideRecordsOne(db, a, approved, world, after);
    DecidedSound(db, after, a, approved);
  }

  lemma ResolvedSound(gates: seq<Gate>, runs: nat, g: nat, resolution: Resolution)
    requires GatesSound(gates, runs) && g < |gates| && NeedsApproval(gates[g]) && resolution != Automatic
    ensures GatesSound(gates[g := gates[g].(resolution := resolution)], runs)
  {
  }

  lemma {:induction false} DecisionSound(gates: seq<Gate>, approvals: seq<Approval>, handoffs: seq<Handoff>,
                                         changes: seq<ChangeRequest>, runs: nat, a: nat, approved: bool,
                                         handoff: Handoff, change: ChangeRequest)
    requires GatesSound(gates, runs) && ApprovalsSound(gates, approvals)
    requires HandoffsSound(gates, handoffs) && ChangesSound(gates, changes)
    requires a < |approvals| && approvals[a].gate < |gates| && gates[approvals[a].gate].resolution == Pending
    requires var g := approvals[a].gate;
             handoff.gate == g && handoff.run == gates[g].run && handoff.versions == gates[g].versions && change.gate == Some(g)
    ensures var g := approvals[a].gate;
            var now := gates[g := gates[g].(resolution := if approved then Approved else RewriteRequired)];
            && GatesSound(now, runs)
            && ApprovalsSound(now, approvals[a := Approval(g, if approved then Accepted else Rejected)])
            && HandoffsSound(now, if approved then handoffs + [handoff] else handoffs)
            && ChangesSound(now, if approved then changes else changes + [change])
  {
    var g, resolution := approvals[a].gate, if approved then Approved else RewriteRequired;
    ApprovalNeeded(gates, approvals, a);
    ResolvedSound(gates, runs, g, resolution);
    ApprovalDecided(gates, approvals, a, if approved then Accepted else Rejected, resolution);
    HandoffsResolved(gates, handoffs, g, resolution, handoff);
    ChangesResolved(gates, changes, g, resolution, change);
  }

  lemma {:induction false} DecidedSound(db: Db, after: Db, a: nat, approved: bool)
    requires SoundGates(db) && a < |db.approvals| && db.approvals[a].gate < |db.gates|
    requires db.gates[db.approvals[a].gate].run < |db.runs| && DecidesOne(db, after, a, approved)
    requires db.gates[db.approvals[a].gate].resolution == Pending
    ensures SoundGates(after)
  {
    var g := db.approvals[a].gate;
    var gate := db.gates[g];
    DecisionSound(db.gates, db.approvals, db.handoffs, db.changes, |db.runs|, a, approved,
                  Handoff(g, gate.run, db.runs[gate.run].stage, gate.versions, db.checkpoints, true),
                  ChangeRequest(Some(g), gate.run, db.runs[gate.run].stage, gate.versions));
  }

  lemma {:induction false} OtherSound(db: Db, step: Step, world: World, after: Db)
    requires SoundGates(db) && Apply(db, step, world) == Ok(after) && !step.Evaluate? && !step.Decide?
    requires !step.RequestChange?
    ensures SoundGates(after)
  {
    if step.Transition? {
      TransitionSound(db, step.stage, step.target, step.agentActive, after);
    } else if step.Reopen? {
      RecallKeeps(db.gates, db.handoffs, step.stage);
    }
  }

  lemma {:induction false} TransitionSound(db: Db, stage: Stage, target: StageState, active: bool, after: Db)
    requires SoundGates(db) && TransitionStep(db, stage, target, active) == Ok(after)
    ensures SoundGates(after)
  {
    var r := Current(db.runs, stage).value;
    MoveFrame(db, r, target, MoveStage(db, r, target).value);
  }

  lemma RequestSound(db: Db, from: Stage, ids: seq<nat>, after: Db)
    requires SoundGates(db) && RequestChangeStep(db, from, ids) == Ok(after)
    ensures SoundGates(after)
  {
    RecallKeeps(db.gates, db.handoffs, from);
    PlainChange(db.gates, db.changes, ChangeRequest(None, Current(db.runs, db.stage).value, from, ids));
  }

  /** Every call keeps the records in step. */
  lemma NextSound(db: Db, step: Step, world: World)
    requires SoundGates(db)
    ensures SoundGates(Next(db, step, world))
  {
    var outcome := Apply(db, step, world);
    if outcome.Ok? {
      match step
      case Evaluate(r, ids) => EvaluateSound(db, r, ids, world, outcome.value);
      case Decide(a, approved) => DecideSound(db, a, approved, world, outcome.value);
      case RequestChange(from, ids) => RequestSound(db, from, ids, outcome.value);
      case _ => OtherSound(db, step, world, outcome.value);
    }
  }

  lemma {:induction false} RunSound(db: Db, steps: seq<Step>, worlds: seq<World>)
    requires SoundGates(db) && |steps| == |worlds|
    ensures SoundGates(RunAll(db, steps, worlds))
    decreases |steps|
  {
    if steps != [] {
      NextSound(db, steps[0], worlds[0]);
      RunSound(Next(db, steps[0], worlds[0]), steps[1..], worlds[1..]);
    }
  }

  // --------------------------------------------------------------- what it means

  /**
   In every run a handoff's gate was either passed in autonomous mode, or evaluated in manual
   mode without an error and then approved by exactly one decision.
   */
  lemma HandoffsAreEarned(steps: seq<Step>, worlds: seq<World>, h: nat)
    requires |steps| == |worlds| && h < |RunAll(Fresh(), steps, worlds).handoffs|
    ensures var db := RunAll(Fresh(), steps, worlds);
            var g := db.handoffs[h].gate;
            && g < |db.gates|
            && (|| (db.gates[g].status == Pass && db.gates[g].mode == Autonomous)
                || (&& db.gates[g].status != Fail && db.gates[g].mode == Manual
                    && exists a :: 0 <= a < |db.approvals| && db.approvals[a] == Approval(g, Accepted)))
  {
    var db := RunAll(Fresh(), steps, worlds);
    RunSound(Fresh(), steps, worlds);
    var g := db.handoffs[h].gate;
    assert HandoffKeys(db.handoffs)[h] == g && HandoffMarks(db.gates)[g];
    if db.gates[g].mode == Manual {
      assert ApprovalMarks(db.gates)[g];
      assert g in ApprovalKeys(db.approvals);
      var a :| 0 <= a < |db.approvals| && ApprovalKeys(db.approvals)[a] == g;
      assert db.approvals[a] == Approval(g, Accepted);
    }
  }

  lemma {:induction false} ApprovalNeeded(gates: seq<Gate>, approvals: seq<Approval>, a: nat)
    requires ApprovalsSound(gates, approvals) && a < |approvals|
    ensures approvals[a].gate < |gates| && NeedsApproval(gates[approvals[a].gate])
  {
    var g := approvals[a].gate;
    assert ApprovalKeys(approvals)[a] == g && ApprovalMarks(gates)[g];
  }

  lemma {:induction false} HandedOffIff(gates: seq<Gate>, handoffs: seq<Handoff>, g: nat)
    requires HandoffsSound(gates, handoffs) && g < |gates|
    ensures NeedsHandoff(gates[g]) <==> exists h :: 0 <= h < |handoffs| && handoffs[h].gate == g
  {
    var keys := HandoffKeys(handoffs);
    if NeedsHandoff(gates[g]) {
      assert HandoffMarks(gates)[g];
      var h :| 0 <= h < |keys| && keys[h] == g;
      assert handoffs[h].gate == g;
    }
    forall h | 0 <= h < |handoffs| && handoffs[h].gate == g ensures NeedsHandoff(gates[g]) {
      assert keys[h] == g && HandoffMarks(gates)[g];
    }
  }

  /** Conversely an accepted approval always has its handoff, and no gate has two. */
  lemma {:induction false} AcceptedMeansHandedOff(steps: seq<Step>, worlds: seq<World>, a: nat)
    requires |steps| == |worlds| && a < |RunAll(Fresh(), steps, worlds).approvals|
    ensures var db := RunAll(Fresh(), steps, worlds);
            db.approvals[a].decision == Accepted
            <==> exists h :: 0 <= h < |db.handoffs| && db.handoffs[h].gate == db.approvals[a].gate
  {
    var db := RunAll(Fresh(), steps, worlds);
    RunSound(Fresh(), steps, worlds);
    ApprovalNeeded(db.gates, db.approvals, a);
    HandedOffIff(db.gates, db.handoffs, db.approvals[a].gate);
  }

  /** No approval ever targets a failed gate or one evaluated in autonomous mode, so the guard for it never fires. */
  lemma {:induction false} FailedGatesHaveNoApproval(steps: seq<Step>, worlds: seq<World>, a: nat)
    requires |steps| == |worlds| && a < |RunAll(Fresh(), steps, worlds).approvals|
    ensures var db := RunAll(Fresh(), steps, worlds);
            && db.approvals[a].gate < |db.gates|
            && db.gates[db.approvals[a].gate].status != Fail
            && db.gates[db.approvals[a].gate].mode == Manual
  {
    var db := RunAll(Fresh(), steps, worlds);
    RunSound(Fresh(), steps, worlds);
    ApprovalNeeded(db.gates, db.approvals, a);
  }
}
