/**
 The stages of a workflow are meant to be completed one after the other. They are, as long
 as every gate that is evaluated or approved belongs to the current attempt of its stage; the
 calls themselves only check the stage, not the attempt.
 */
module GovernanceOrder {
  import opened Wrappers
  import opened GovernanceState
  import opened GovernanceGates
  import opened GovernanceStages

  /** How the current attempt of stage `s` stands when `stage` is the workflow's stage. */
  predicate Stands(runs: seq<Run>, s: nat, stage: nat, status: WorkflowStatus) {
    var c := Current(runs, s);
    && c.Some?
    && var state := runs[c.value].state;
       if s < stage then state == Done
       else if s > stage then state == Locked
       else state != Locked && (state == Done <==> status == Completed)
  }

  /** Only the last stage completes a workflow. */
  ghost predicate InOrder(runs: seq<Run>, stage: nat, status: WorkflowStatus) {
    && (status == Completed ==> stage == STAGES - 1)
    && forall s: nat :: s < STAGES ==> Stands(runs, s, stage, status)
  }

  ghost predicate Orderly(db: Db) {
    InOrder(db.runs, db.stage, db.status)
  }

  lemma WithStateCurrent(runs: seq<Run>, r: nat, state: StageState, s: nat)
    requires r < |runs|
    ensures Current(WithState(runs, r, state), s) == Current(runs, s)
  {
    CurrentSame(runs, WithState(runs, r, state), s);
  }

  /** The current attempt of the current stage moves within the stage. */
  lemma MoveInside(runs: seq<Run>, stage: Stage, status: WorkflowStatus, r: nat, target: StageState, now: WorkflowStatus)
    requires InOrder(runs, stage, status) && Current(runs, stage) == Some(r)
    requires target != Locked && (target == Done <==> now == Completed) && (now == Completed ==> stage == STAGES - 1)
    ensures InOrder(WithState(runs, r, target), stage, now)
  {
    forall s: nat | s < STAGES ensures Stands(WithState(runs, r, target), s, stage, now) {
      WithStateCurrent(runs, r, target, s);
      assert Stands(runs, s, stage, status);
    }
  }

  /** The current stage is completed and the next one unlocked. */
  lemma MoveOn(runs: seq<Run>, stage: nat, status: WorkflowStatus, r: nat, next: nat)
    requires stage + 1 < STAGES && InOrder(runs, stage, status) && Current(runs, stage) == Some(r)
    requires Current(runs, stage + 1) == Some(next)
    ensures next < |WithState(runs, r, Done)|
    ensures InOrder(WithState(WithState(runs, r, Done), next, Ready), stage + 1, Running)
  {
    var done, later := WithState(runs, r, Done), stage + 1;
    var after := WithState(done, next, Ready);
    forall s: nat | s < STAGES ensures Stands(after, s, later, Running) {
      WithStateCurrent(runs, r, Done, s);
      WithStateCurrent(done, next, Ready, s);
      assert Stands(runs, s, stage, status);
    }
  }

  lemma MoveStageOrderly(db: Db, r: nat, target: StageState, after: Db)
    requires Orderly(db) && Current(db.runs, db.stage) == Some(r) && target != Locked
    requires MoveStage(db, r, target) == Ok(after)
    ensures Orderly(after) && (target != Done ==> Current(after.runs, after.stage) == Some(r))
    ensures target != Done ==> after.stage == db.stage
  {
    if target == Done && db.stage < STAGES - 1 {
      WithStateCurrent(db.runs, r, Done, db.stage + 1);
      MoveOn(db.runs, db.stage, db.status, r, Current(db.runs, db.stage + 1).value);
    } else {
      MoveInside(db.runs, db.stage, db.status, r, target, after.status);
      WithStateCurrent(db.runs, r, target, db.stage);
    }
  }

  lemma HandOffOrderly(db: Db, r: nat, handoff: Handoff, after: Db)
    requires Orderly(db) && Current(db.runs, db.stage) == Some(r) && HandOff(db, r, handoff) == Ok(after)
    ensures Orderly(after)
  {
    var ready := MoveStage(db, r, HandoffReady).value;
    MoveStageOrderly(db, r, HandoffReady, ready);
    MoveFrame(db, r, HandoffReady, ready);
    MoveStageOrderly(ready.(handoffs := ready.handoffs + [handoff]), r, Done, after);
  }

  lemma FinishOrderly(db: Db, r: nat, handoff: Handoff, after: Db)
    requires Orderly(db) && Current(db.runs, db.stage) == Some(r) && Finish(db, r, handoff) == Ok(after)
    ensures Orderly(after)
  {
    if db.runs[r].state == Checking {
      var waiting := MoveStage(db, r, WaitingApproval).value;
      MoveStageOrderly(db, r, WaitingApproval, waiting);
      HandOffOrderly(waiting, r, handoff, after);
    } else {
      HandOffOrderly(db, r, handoff, after);
    }
  }

  // ----------------------------------------------------------- superseded attempts

  /** Completing a stage through any attempt moves the workflow past it. */
  lemma HandOffMovesOn(db: Db, r: nat, handoff: Handoff, after: Db)
    requires r < |db.runs| && HandOff(db, r, handoff) == Ok(after)
    ensures db.stage == db.runs[r].stage
    ensures after.stage == db.stage + 1 || (after.stage == db.stage && after.status == Completed)
  {
  }

  lemma FinishMovesOn(db: Db, r: nat, handoff: Handoff, after: Db)
    requires r < |db.runs| && Finish(db, r, handoff) == Ok(after)
    ensures db.stage == db.runs[r].stage
    ensures after.stage == db.stage + 1 || (after.stage == db.stage && after.status == Completed)
  {
    if db.runs[r].state == Checking {
      var waiting := MoveStage(db, r, WaitingApproval).value;
      HandOffMovesOn(waiting, r, handoff, after);
    } else {
      HandOffMovesOn(db, r, handoff, after);
    }
  }

  lemma StaleBehind(before: seq<Run>, after: seq<Run>, stage: nat, status: WorkflowStatus, r: nat, now: nat,
                    nowStatus: WorkflowStatus)
    requires stage < STAGES && InOrder(before, stage, status) && status != Completed
    requires Moves(before, after, r, Done) && Current(before, stage) != Some(r)
    requires now == stage + 1 || (now == stage && nowStatus == Completed)
    ensures !Stands(after, stage, now, nowStatus)
  {
    assert Stands(before, stage, stage, status);
    CurrentSame(before, after, stage);
    var c := Current(before, stage).value;
    assert c != r && before[c].state != Locked;
    assert after[c] == before[c];
  }

  lemma FinishStale(db: Db, r: nat, handoff: Handoff, after: Db)
    requires Orderly(db) && r < |db.runs| && Finish(db, r, handoff) == Ok(after)
    requires Current(db.runs, db.stage) != Some(r) && db.status != Completed
    ensures !Orderly(after)
  {
    FinishMovesOn(db, r, handoff, after);
    FinishMoves(db, r, handoff, after);
    StaleBehind(db.runs, after.runs, db.stage, db.status, r, after.stage, after.status);
  }

  /** In a completed workflow another attempt at the last stage may be finished without harm. */
  lemma CompletedAgain(before: seq<Run>, after: seq<Run>, r: nat, stage: nat)
    requires InOrder(before, stage, Completed) && Moves(before, after, r, Done)
    ensures InOrder(after, stage, Completed)
  {
    forall s: nat | s < STAGES ensures Stands(after, s, stage, Completed) {
      assert Stands(before, s, stage, Completed);
      CurrentSame(before, after, s);
    }
  }

  /** Finishing a gate keeps the stages in order exactly when its run is the current attempt or all is completed. */
  lemma FinalizeOrderlyIff(db: Db, g: nat, world: World, after: Db, was: WorkflowStatus)
    requires g < |db.gates| && db.gates[g].run < |db.runs| && Finalize(db, g, world) == Ok(after)
    requires InOrder(db.runs, db.stage, was) && (was == db.status || db.status == Running)
    ensures Orderly(after) <==> Current(db.runs, db.stage) == Some(db.gates[g].run) || was == Completed
  {
    var r, locked, packet := db.gates[g].run, LockedFor(db, g), PacketFor(db, g);
    FinishMoves(locked, r, packet, after);
    FinishMovesOn(locked, r, packet, after);
    if was == Completed {
      CompletedAgain(db.runs, after.runs, r, db.stage);
    } else {
      StatusChanged(db.runs, db.stage, was, db.status);
      if Current(db.runs, db.stage) == Some(r) {
        FinishOrderly(locked, r, packet, after);
      } else {
        FinishStale(locked, r, packet, after);
      }
    }
  }

  lemma StatusChanged(runs: seq<Run>, stage: nat, status: WorkflowStatus, now: WorkflowStatus)
    requires InOrder(runs, stage, status) && (now == status || (status != Completed && now != Completed))
    ensures InOrder(runs, stage, now)
  {
    forall s: nat | s < STAGES ensures Stands(runs, s, stage, now) { assert Stands(runs, s, stage, status); }
  }

  // ------------------------------------------------------------------ each call

  /** The stage run whose gate a call evaluates or decides. */
  function GateRun(db: Db, step: Step): Option<nat> {
    match step
    case Evaluate(r, _) => Some(r)
    case Decide(a, _) =>
      if a < |db.approvals| && db.approvals[a].gate < |db.gates| then Some(db.gates[db.approvals[a].gate].run) else None
    case _ => None
  }

  predicate OnCurrentAttempt(db: Db, step: Step) {
    GateRun(db, step).Some? ==> GateRun(db, step) == Current(db.runs, db.stage)
  }

  lemma PendingOrderly(db: Db, gate: Gate, moved: Db)
    requires Orderly(db) && Current(db.runs, db.stage) == Some(gate.run)
    requires MoveStage(Recorded(db, gate), gate.run, WaitingApproval) == Ok(moved)
    ensures InOrder(moved.runs, moved.stage, WaitingUser)
  {
    MoveStageOrderly(Recorded(db, gate), gate.run, WaitingApproval, moved);
    WaitingForUser(moved, gate.run);
  }

  lemma AutomaticOrderly(db: Db, gate: Gate, world: World, after: Db)
    requires Orderly(db) && Current(db.runs, db.stage) == Some(gate.run)
    requires Finalize(Recorded(db, gate), |db.gates|, world) == Ok(after)
    ensures Orderly(after)
  {
    var recorded := Recorded(db, gate);
    FinishOrderly(LockedFor(recorded, |db.gates|), gate.run, PacketFor(recorded, |db.gates|), after);
  }

  lemma EvaluateOrderly(db: Db, r: nat, ids: seq<nat>, world: World, after: Db)
    requires Orderly(db) && Current(db.runs, db.stage) == Some(r) && EvaluateStep(db, r, ids, world) == Ok(after)
    ensures Orderly(after)
  {
    var gate := Judged(db, r, ids, world);
    if gate.resolution == Pending {
      PendingOrderly(db, gate, MoveStage(Recorded(db, gate), r, WaitingApproval).value);
    } else if gate.resolution == Automatic {
      AutomaticOrderly(db, gate, world, after);
    } else {
      SentBackOrderly(Recorded(db, gate), |db.gates|, if gate.status == Warning then WarningHeld else NeedsFix);
    }
  }

  lemma WaitingForUser(db: Db, r: nat)
    requires Orderly(db) && Current(db.runs, db.stage) == Some(r) && db.runs[r].state != Done
    ensures InOrder(db.runs, db.stage, WaitingUser) && InOrder(db.runs, db.stage, Running)
  {
    forall s: nat | s < STAGES
      ensures Stands(db.runs, s, db.stage, WaitingUser) && Stands(db.runs, s, db.stage, Running)
    {
      assert Stands(db.runs, s, db.stage, db.status);
    }
  }

  lemma SentBackOrderly(db: Db, g: nat, state: StageState)
    requires Orderly(db) && g < |db.gates| && Current(db.runs, db.stage) == Some(db.gates[g].run)
    requires state == WarningHeld || state == NeedsFix
    ensures Orderly(SentBack(db, g, state))
  {
    MoveInside(db.runs, db.stage, db.status, db.gates[g].run, state, SentBack(db, g, state).status);
  }

  lemma DecideOrderly(db: Db, a: nat, approved: bool, world: World, after: Db)
    requires Orderly(db) && DecideStep(db, a, approved, world) == Ok(after)
    requires OnCurrentAttempt(db, Decide(a, approved))
    ensures Orderly(after)
  {
    var g := db.approvals[a].gate;
    var r := db.gates[g].run;
    WaitingForUser(db, r);
    if approved {
      FinishOrderly(LockedFor(Decided(db, a, approved), g), r, PacketFor(Decided(db, a, approved), g), after);
    } else {
      SentBackOrderly(Decided(db, a, approved), g, NeedsFix);
    }
  }

  lemma StatusOnly(db: Db, now: WorkflowStatus)
    requires Orderly(db) && db.status != Completed && now != Completed
    ensures InOrder(db.runs, db.stage, now)
  {
    forall s: nat | s < STAGES ensures Stands(db.runs, s, db.stage, now) {
      assert Stands(db.runs, s, db.stage, db.status);
    }
  }

  lemma TransitionOrderly(db: Db, stage: Stage, target: StageState, active: bool, after: Db)
    requires Orderly(db) && TransitionStep(db, stage, target, active) == Ok(after)
    ensures Orderly(after)
  {
    var r := Current(db.runs, stage).value;
    MoveStageOrderly(db, r, target, MoveStage(db, r, target).value);
  }

  lemma ReopenOrderly(db: Db, stage: Stage, active: bool, after: Db)
    requires Orderly(db) && ReopenStep(db, stage, active) == Ok(after)
    ensures Orderly(after)
  {
    assert Stands(db.runs, stage, db.stage, db.status);
    forall s: nat | s < STAGES ensures Stands(after.runs, s, stage, Running) {
      ReopenedStands(db.runs, stage, s, db.stage, db.status);
    }
  }

  lemma ReopenedStands(runs: seq<Run>, first: Stage, s: Stage, stage: nat, status: WorkflowStatus)
    requires InOrder(runs, stage, status) && first <= stage
    ensures Stands(runs + NewRuns(runs, first, first), s, first, Running)
  {
    ReopenedCurrent(runs, first, s);
    assert Stands(runs, s, stage, status);
    if s >= first { NewRunsAre(runs, first, first, s - first); }
  }

  lemma HaltedOrderly(db: Db, status: WorkflowStatus, state: StageState, after: Db)
    requires Orderly(db) && Halted(db, status, state) == Ok(after)
    requires status != Completed && (state == Cancelled || state == Abandoned)
    ensures Orderly(after)
  {
    assert Stands(db.runs, db.stage, db.stage, db.status);
    MoveInside(db.runs, db.stage, db.status, Current(db.runs, db.stage).value, state, status);
  }

  /** A call keeps the stages in order if any gate it settles belongs to the current attempt. */
  lemma NextOrderly(db: Db, step: Step, world: World)
    requires Orderly(db) && OnCurrentAttempt(db, step)
    ensures Orderly(Next(db, step, world))
  {
    var outcome := Apply(db, step, world);
    if outcome.Ok? {
      match step
      case Evaluate(r, ids) => EvaluateOrderly(db, r, ids, world, outcome.value);
      case Decide(a, approved) => DecideOrderly(db, a, approved, world, outcome.value);
      case Transition(stage, target, active) => TransitionOrderly(db, stage, target, active, outcome.value);
      case Reopen(stage, active) => ReopenOrderly(db, stage, active, outcome.value);
      case Stop => HaltedOrderly(db, Stopped, Cancelled, outcome.value);
      case Abandon => HaltedOrderly(db, WorkflowAbandoned, Abandoned, outcome.value);
      case Start => StatusOnly(db, Running);
      case Pause => StatusOnly(db, Paused);
      case Resume => StatusOnly(db, Running);
      case _ =>
    }
  }

  ghost predicate AlwaysOnCurrentAttempt(db: Db, steps: seq<Step>, worlds: seq<World>)
    requires |steps| == |worlds|
    decreases |steps|
  {
    steps == []
    || (OnCurrentAttempt(db, steps[0]) && AlwaysOnCurrentAttempt(Next(db, steps[0], worlds[0]), steps[1..], worlds[1..]))
  }

  /** Then, over a whole run, every stage before the workflow's own is completed and every later one locked. */
  lemma {:induction false} RunOrderly(db: Db, steps: seq<Step>, worlds: seq<World>)
    requires Orderly(db) && |steps| == |worlds| && AlwaysOnCurrentAttempt(db, steps, worlds)
    ensures Orderly(RunAll(db, steps, worlds))
    decreases |steps|
  {
    if steps != [] {
      NextOrderly(db, steps[0], worlds[0]);
      RunOrderly(Next(db, steps[0], worlds[0]), steps[1..], worlds[1..]);
    }
  }

  lemma EvaluateHandsOff(db: Db, r: nat, ids: seq<nat>, world: World, after: Db)
    requires Orderly(db) && EvaluateStep(db, r, ids, world) == Ok(after) && |after.handoffs| > |db.handoffs|
    ensures Orderly(after) <==> Current(db.runs, db.stage) == Some(r) || db.status == Completed
  {
    var gate := Judged(db, r, ids, world);
    var recorded := Recorded(db, gate);
    EvaluateAddsOne(db, r, ids, world, after);
    assert recorded.gates[|db.gates|] == gate && gate.resolution == Automatic;
    FinalizeOrderlyIff(recorded, |db.gates|, world, after, db.status);
  }

  lemma ApprovalFinalizes(db: Db, a: nat, world: World, after: Db)
    requires DecideStep(db, a, true, world) == Ok(after)
    ensures a < |db.approvals| && db.approvals[a].gate < |db.gates| && db.gates[db.approvals[a].gate].run < |db.runs|
    ensures Finalize(Decided(db, a, true), db.approvals[a].gate, world) == Ok(after)
  {
  }

  lemma {:induction false} SettledOrderlyIff(db: Db, decided: Db, g: nat, world: World, after: Db)
    requires Orderly(db) && decided.runs == db.runs && decided.stage == db.stage && decided.status == Running
    requires g < |decided.gates| && decided.gates[g].run < |db.runs| && Finalize(decided, g, world) == Ok(after)
    ensures Orderly(after) <==> Current(db.runs, db.stage) == Some(decided.gates[g].run) || db.status == Completed
  {
    FinalizeOrderlyIff(decided, g, world, after, db.status);
  }

  lemma DecidedFrame(db: Db, a: nat, approved: bool)
    requires a < |db.approvals| && db.approvals[a].gate < |db.gates|
    ensures var decided, g := Decided(db, a, approved), db.approvals[a].gate;
            && decided.runs == db.runs && decided.stage == db.stage && decided.status == Running
            && |decided.gates| == |db.gates| && decided.gates[g].run == db.gates[g].run
    ensures GateRun(db, Decide(a, approved)) == Some(db.gates[db.approvals[a].gate].run)
  {
  }

  lemma {:induction false} ApprovalHandsOff(db: Db, a: nat, world: World, after: Db)
    requires Orderly(db)
    requires a < |db.approvals| && db.approvals[a].gate < |db.gates| && db.gates[db.approvals[a].gate].run < |db.runs|
    requires Finalize(Decided(db, a, true), db.approvals[a].gate, world) == Ok(after)
    ensures Orderly(after) <==> OnCurrentAttempt(db, Decide(a, true)) || db.status == Completed
  {
    DecidedFrame(db, a, true);
    SettledOrderlyIff(db, Decided(db, a, true), db.approvals[a].gate, world, after);
  }

  lemma RejectionSendsBack(db: Db, a: nat, world: World, after: Db)
    requires DecideStep(db, a, false, world) == Ok(after)
    ensures a < |db.approvals| && db.approvals[a].gate < |db.gates| && db.gates[db.approvals[a].gate].run < |db.runs|
    ensures after == SentBack(Decided(db, a, false), db.approvals[a].gate, NeedsFix)
    ensures after.handoffs == db.handoffs
  {
  }

  lemma DecideHandsOff(db: Db, a: nat, approved: bool, world: World, after: Db)
    requires Orderly(db) && DecideStep(db, a, approved, world) == Ok(after) && |after.handoffs| > |db.handoffs|
    ensures Orderly(after) <==> OnCurrentAttempt(db, Decide(a, approved)) || db.status == Completed
  {
    if approved {
      ApprovalFinalizes(db, a, world, after);
      ApprovalHandsOff(db, a, world, after);
    } else {
      RejectionSendsBack(db, a, world, after);
    }
  }

  lemma OnlyGatesHandOff(db: Db, step: Step, world: World)
    requires |Next(db, step, world).handoffs| > |db.handoffs|
    ensures step.Evaluate? || step.Decide?
  {
    if step.Transition? && Apply(db, step, world).Ok? {
      var r := Current(db.runs, step.stage).value;
      MoveFrame(db, r, step.target, MoveStage(db, r, step.target).value);
    }
  }

  /**
   A call that hands a stage off keeps the stages in order exactly when the stage run it hands
   off is the current attempt, or the workflow is completed anyway: passing a gate of a superseded
   attempt completes the stage although its current attempt was never finished.
   */
  lemma HandoffOrderlyIff(db: Db, step: Step, world: World)
    requires Orderly(db) && |Next(db, step, world).handoffs| > |db.handoffs|
    ensures Orderly(Next(db, step, world)) <==> OnCurrentAttempt(db, step) || db.status == Completed
  {
    OnlyGatesHandOff(db, step, world);
    match step
    case Evaluate(r, ids) => EvaluateHandsOff(db, r, ids, world, Next(db, step, world));
    case Decide(a, approved) => DecideHandsOff(db, a, approved, world, Next(db, step, world));
  }

  // --------------------------------------------------------------- all other calls

  /** A superseded attempt moves within its stage: the order only depends on the status. */
  lemma StaleInside(runs: seq<Run>, stage: Stage, status: WorkflowStatus, r: nat, target: StageState, now: WorkflowStatus)
    requires InOrder(runs, stage, status) && r < |runs| && runs[r].stage == stage && Current(runs, stage) != Some(r)
    requires now != Completed
    ensures InOrder(WithState(runs, r, target), stage, now) <==> status != Completed
  {
    forall s: nat | s < STAGES
      ensures Stands(WithState(runs, r, target), s, stage, now) <==> s != stage || status != Completed
    {
      WithStateCurrent(runs, r, target, s);
      assert Stands(runs, s, stage, status);
    }
    assert Stands(WithState(runs, r, target), stage, stage, now) <==> status != Completed;
  }

  lemma EvaluatedStale(db: Db, r: nat, ids: seq<nat>, world: World, after: Db)
    requires Orderly(db) && Current(db.runs, db.stage) != Some(r) && EvaluateStep(db, r, ids, world) == Ok(after)
    requires |after.handoffs| == |db.handoffs|
    ensures Orderly(after) <==> db.status != Completed
  {
    var gate := Judged(db, r, ids, world);
    var recorded := Recorded(db, gate);
    EvaluateAddsOne(db, r, ids, world, after);
    if gate.resolution == Pending {
      assert MoveStage(recorded, r, WaitingApproval).Ok? && db.status == Running;
      StaleInside(db.runs, db.stage, db.status, r, WaitingApproval, WaitingUser);
    } else {
      var state := if gate.status == Warning then WarningHeld else NeedsFix;
      StaleInside(db.runs, db.stage, db.status, r, state, SentBack(recorded, |db.gates|, state).status);
    }
  }

  lemma RejectedStale(db: Db, a: nat, world: World, after: Db)
    requires Orderly(db) && !OnCurrentAttempt(db, Decide(a, false)) && DecideStep(db, a, false, world) == Ok(after)
    ensures Orderly(after) <==> db.status != Completed
  {
    RejectionSendsBack(db, a, world, after);
    StaleInside(db.runs, db.stage, db.status, db.gates[db.approvals[a].gate].run, NeedsFix, Running);
  }

  /**
   Every call: one that succeeds on a superseded attempt's gate keeps the stages in order exactly
   when it hands off in a completed workflow, or does not in one that is not completed.
   */
  lemma OrderKeptIff(db: Db, step: Step, world: World)
    requires Orderly(db)
    ensures var handsOff := |Next(db, step, world).handoffs| > |db.handoffs|;
            Orderly(Next(db, step, world))
            <==> OnCurrentAttempt(db, step) || Apply(db, step, world).Err? || (handsOff <==> db.status == Completed)
  {
    var outcome := Apply(db, step, world);
    if OnCurrentAttempt(db, step) {
      NextOrderly(db, step, world);
    } else if outcome.Ok? {
      if |outcome.value.handoffs| > |db.handoffs| {
        HandoffOrderlyIff(db, step, world);
      } else {
        match step
        case Evaluate(r, ids) =>
          EvaluateAddsOne(db, r, ids, world, outcome.value);
          EvaluatedStale(db, r, ids, world, outcome.value);
        case Decide(a, approved) =>
          DecideRecordsOne(db, a, approved, world, outcome.value);
          RejectedStale(db, a, world, outcome.value);
      }
    }
  }
}
