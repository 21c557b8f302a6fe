/**
 Stage runs over every run of the governance calls: which completed runs have a handoff, and
 when the stages are completed in order.
 */
module GovernanceStages {
  import opened Wrappers
  import opened GovernanceState
  import opened GovernanceGates

  predicate Closed(state: StageState) {
    state.Done? || state.Failed? || state.Cancelled? || state.Abandoned?
  }

  predicate SameRun(before: Run, after: Run) {
    before.stage == after.stage && before.attempt == after.attempt
  }

  /** One run moves to `target`; besides it, locked runs may become ready. */
  ghost predicate Moves(before: seq<Run>, after: seq<Run>, r: nat, target: StageState) {
    && r < |before| == |after|
    && (forall q :: 0 <= q < |before| ==> SameRun(before[q], after[q]))
    && after[r].state == target
    && (forall q :: 0 <= q < |before| && q != r ==>
          after[q] == before[q] || (before[q].state == Locked && after[q].state == Ready))
  }

  lemma MoveStageMoves(db: Db, r: nat, target: StageState, after: Db)
    requires r < |db.runs| && MoveStage(db, r, target) == Ok(after)
    ensures Moves(db.runs, after.runs, r, target)
  {
  }

  lemma MovesTwice(a: seq<Run>, b: seq<Run>, c: seq<Run>, r: nat, via: StageState, target: StageState)
    requires Moves(a, b, r, via) && Moves(b, c, r, target)
    ensures Moves(a, c, r, target)
  {
  }

  lemma HandOffMoves(db: Db, r: nat, handoff: Handoff, after: Db)
    requires r < |db.runs| && HandOff(db, r, handoff) == Ok(after)
    ensures Moves(db.runs, after.runs, r, Done) && db.runs[r].state == WaitingApproval
  {
    var ready := MoveStage(db, r, HandoffReady).value;
    MoveStageMoves(db, r, HandoffReady, ready);
    MoveStageMoves(ready.(handoffs := ready.handoffs + [handoff]), r, Done, after);
    MovesTwice(db.runs, ready.runs, after.runs, r, HandoffReady, Done);
  }

  lemma FinishMoves(db: Db, r: nat, handoff: Handoff, after: Db)
    requires r < |db.runs| && Finish(db, r, handoff) == Ok(after)
    ensures Moves(db.runs, after.runs, r, Done)
    ensures db.runs[r].state == Checking || db.runs[r].state == WaitingApproval
  {
    if db.runs[r].state == Checking {
      var waiting := MoveStage(db, r, WaitingApproval).value;
      MoveStageMoves(db, r, WaitingApproval, waiting);
      HandOffMoves(waiting, r, handoff, after);
      MovesTwice(db.runs, waiting.runs, after.runs, r, WaitingApproval, Done);
    } else {
      HandOffMoves(db, r, handoff, after);
    }
  }

  // ------------------------------------------------- completed runs and handoffs

  predicate HasHandoff(handoffs: seq<Handoff>, r: nat) {
    exists h :: 0 <= h < |handoffs| && handoffs[h].run == r
  }

  ghost predicate SoundStages(runs: seq<Run>, handoffs: seq<Handoff>, waved: set<nat>) {
    && (forall h :: 0 <= h < |handoffs| ==>
          && handoffs[h].run < |runs| && Closed(runs[handoffs[h].run].state) && handoffs[h].run !in waved)
    && (forall i, j :: 0 <= i < j < |handoffs| ==> handoffs[i].run != handoffs[j].run)
    && (forall r :: 0 <= r < |runs| && (runs[r].state == HandoffReady || runs[r].state == Done) ==>
          r in waved || HasHandoff(handoffs, r))
    && (forall r :: r in waved ==> r < |runs| && (runs[r].state == HandoffReady || Closed(runs[r].state)))
  }

  lemma HasHandoffAppend(handoffs: seq<Handoff>, handoff: Handoff, r: nat)
    ensures HasHandoff(handoffs + [handoff], r) <==> HasHandoff(handoffs, r) || handoff.run == r
  {
    var all := handoffs + [handoff];
    if handoff.run == r { assert all[|handoffs|].run == r; }
    if HasHandoff(handoffs, r) {
      var h :| 0 <= h < |handoffs| && handoffs[h].run == r;
      assert all[h].run == r;
    }
  }

  /** A move that hands nothing off: the run was open, or is only closed in another way. */
  lemma PlainMoveSound(before: seq<Run>, after: seq<Run>, handoffs: seq<Handoff>, waved: set<nat>, r: nat,
                       target: StageState)
    requires SoundStages(before, handoffs, waved) && Moves(before, after, r, target)
    requires target != HandoffReady && (target == Done ==> before[r].state == HandoffReady)
    requires Closed(target) || !(before[r].state == HandoffReady || Closed(before[r].state))
    ensures SoundStages(after, handoffs, waved)
  {
  }

  lemma WaveSound(before: seq<Run>, after: seq<Run>, handoffs: seq<Handoff>, waved: set<nat>, r: nat)
    requires SoundStages(before, handoffs, waved) && Moves(before, after, r, HandoffReady)
    requires !Closed(before[r].state)
    ensures SoundStages(after, handoffs, waved + {r})
  {
  }

  lemma HandOffSound(before: seq<Run>, after: seq<Run>, handoffs: seq<Handoff>, waved: set<nat>, handoff: Handoff)
    requires SoundStages(before, handoffs, waved) && Moves(before, after, handoff.run, Done)
    requires before[handoff.run].state == Checking || before[handoff.run].state == WaitingApproval
    ensures SoundStages(after, handoffs + [handoff], waved)
  {
    var all := handoffs + [handoff];
    forall q | 0 <= q < |after| && (after[q].state == HandoffReady || after[q].state == Done)
      ensures q in waved || HasHandoff(all, q)
    {
      HasHandoffAppend(handoffs, handoff, q);
    }
  }

  // ------------------------------------------------------------- current attempts

  /** `c` has the highest attempt of its stage, the later position deciding a tie. */
  ghost predicate IsCurrent(runs: seq<Run>, c: nat) {
    && c < |runs|
    && (forall q :: 0 <= q < |runs| && runs[q].stage == runs[c].stage ==> runs[q].attempt <= runs[c].attempt)
    && (forall q :: c < q < |runs| && runs[q].stage == runs[c].stage ==> runs[q].attempt < runs[c].attempt)
  }

  lemma {:induction false} CurrentIs(runs: seq<Run>, stage: nat)
    ensures match Current(runs, stage)
            case Some(c) => IsCurrent(runs, c)
            case None => forall q :: 0 <= q < |runs| ==> runs[q].stage != stage
  {
    if runs != [] {
      var n := |runs| - 1;
      CurrentIs(runs[..n], stage);
      if Current(runs[..n], stage).Some? {
        var before := Current(runs[..n], stage).value;
        assert IsCurrent(runs[..n], before);
        forall q | 0 <= q < n && runs[q].stage == stage
          ensures runs[q].attempt <= runs[before].attempt && (q > before ==> runs[q].attempt < runs[before].attempt)
        {
          assert runs[..n][q] == runs[q];
        }
      } else {
        forall q | 0 <= q < n ensures runs[q].stage != stage { assert runs[..n][q] == runs[q]; }
      }
    }
  }

  lemma CurrentUnique(runs: seq<Run>, c: nat)
    requires IsCurrent(runs, c)
    ensures Current(runs, runs[c].stage) == Some(c)
  {
  }

  lemma {:induction false} CurrentSame(before: seq<Run>, after: seq<Run>, stage: nat)
    requires |before| == |after| && forall q :: 0 <= q < |before| ==> SameRun(before[q], after[q])
    ensures Current(after, stage) == Current(before, stage)
  {
    if before != [] {
      CurrentSame(before[..|before| - 1], after[..|after| - 1], stage);
    }
  }

  lemma {:induction false} NewRunsAre(runs: seq<Run>, first: nat, from: nat, k: nat)
    requires first <= from <= STAGES && k < |NewRuns(runs, first, from)|
    ensures |NewRuns(runs, first, from)| == STAGES - from
    ensures var run := NewRuns(runs, first, from)[k];
            && run.stage == from + k
            && run.state == (if from + k == first then Ready else Locked)
            && forall q :: 0 <= q < |runs| && runs[q].stage == run.stage ==> runs[q].attempt < run.attempt
    decreases STAGES - from
  {
    NewRunsLength(runs, first, from);
    CurrentIs(runs, from);
    if k > 0 { NewRunsAre(runs, first, from + 1, k - 1); }
  }

  lemma {:induction false} NewRunsLength(runs: seq<Run>, first: nat, from: nat)
    requires first <= from <= STAGES
    ensures |NewRuns(runs, first, from)| == STAGES - from
    decreases STAGES - from
  {
    if from < STAGES { NewRunsLength(runs, first, from + 1); }
  }

  lemma ReopenedHere(runs: seq<Run>, added: seq<Run>, k: nat)
    requires k < |added|
    requires forall i, j :: 0 <= i < j < |added| ==> added[i].stage != added[j].stage
    requires forall q :: 0 <= q < |runs| && runs[q].stage == added[k].stage ==> runs[q].attempt < added[k].attempt
    ensures Current(runs + added, added[k].stage) == Some(|runs| + k)
  {
    var after := runs + added;
    assert after[|runs| + k] == added[k];
    forall q | 0 <= q < |after| && after[q].stage == added[k].stage
      ensures after[q].attempt <= added[k].attempt && (q > |runs| + k ==> after[q].attempt < added[k].attempt)
    {
      if q >= |runs| { assert after[q] == added[q - |runs|]; } else { assert after[q] == runs[q]; }
    }
    CurrentUnique(after, |runs| + k);
  }

  lemma ReopenedElsewhere(runs: seq<Run>, added: seq<Run>, stage: nat)
    requires forall k :: 0 <= k < |added| ==> added[k].stage != stage
    ensures Current(runs + added, stage) == Current(runs, stage)
    decreases |added|
  {
    if added != [] {
      var n := |added| - 1;
      var after := runs + added;
      assert after[..|after| - 1] == runs + added[..n] && after[|after| - 1] == added[n];
      ReopenedElsewhere(runs, added[..n], stage);
    } else {
      assert runs + added == runs;
    }
  }

  /** Attempts for consecutive stages from `first` on, each newer than all before it, become current. */
  lemma {:induction false} AppendedCurrent(runs: seq<Run>, added: seq<Run>, first: nat, stage: nat)
    requires stage < first + |added|
    requires forall k :: 0 <= k < |added| ==> added[k].stage == first + k
    requires forall q :: 0 <= q < |runs| && first <= stage == runs[q].stage ==> runs[q].attempt < added[stage - first].attempt
    ensures Current(runs + added, stage) == if stage < first then Current(runs, stage) else Some(|runs| + stage - first)
  {
    if stage >= first {
      ReopenedHere(runs, added, stage - first);
    } else {
      ReopenedElsewhere(runs, added, stage);
    }
  }

  lemma {:induction false} ReopenedCurrent(runs: seq<Run>, first: Stage, stage: Stage)
    ensures |runs + NewRuns(runs, first, first)| == |runs| + STAGES - first
    ensures Current(runs + NewRuns(runs, first, first), stage)
            == if stage < first then Current(runs, stage) else Some(|runs| + stage - first)
  {
    var added := NewRuns(runs, first, first);
    NewRunsLength(runs, first, first);
    forall k | 0 <= k < |added| ensures added[k].stage == first + k { NewRunsAre(runs, first, first, k); }
    if stage >= first { NewRunsAre(runs, first, first, stage - first); }
    AppendedCurrent(runs, added, first, stage);
  }

  // ------------------------------------------------------------------ each call

  ghost predicate SoundRuns(db: Db) {
    SoundStages(db.runs, db.handoffs, db.waved)
  }

  lemma FinalizeRuns(db: Db, g: nat, world: World, after: Db)
    requires SoundRuns(db) && g < |db.gates| && db.gates[g].run < |db.runs|
    requires Finalize(db, g, world) == Ok(after)
    ensures SoundRuns(after) && Moves(db.runs, after.runs, db.gates[g].run, Done)
  {
    FinalizeFrame(db, g, world, after);
    FinishMoves(LockedFor(db, g), db.gates[g].run, PacketFor(db, g), after);
    HandOffSound(db.runs, after.runs, db.handoffs, db.waved, PacketFor(db, g));
  }

  lemma PendingRuns(db: Db, r: nat, gate: Gate, moved: Db)
    requires SoundRuns(db) && r < |db.runs| && db.runs[r].state == Checking
    requires MoveStage(Recorded(db, gate), r, WaitingApproval) == Ok(moved)
    ensures SoundRuns(moved) && Moves(db.runs, moved.runs, r, WaitingApproval)
  {
    var recorded := Recorded(db, gate);
    MoveFrame(recorded, r, WaitingApproval, moved);
    MoveStageMoves(recorded, r, WaitingApproval, moved);
    PlainMoveSound(db.runs, moved.runs, db.handoffs, db.waved, r, WaitingApproval);
  }

  lemma SentBackRuns(db: Db, gate: Gate, state: StageState)
    requires SoundRuns(db) && gate.run < |db.runs| && db.runs[gate.run].state == Checking
    requires state == WarningHeld || state == NeedsFix
    ensures var after := SentBack(Recorded(db, gate), |db.gates|, state);
            SoundRuns(after) && Moves(db.runs, after.runs, gate.run, state)
  {
  }

  lemma EvaluateRuns(db: Db, r: nat, ids: seq<nat>, world: World, after: Db)
    requires SoundRuns(db) && EvaluateStep(db, r, ids, world) == Ok(after)
    ensures SoundRuns(after)
    ensures r < |db.runs| && r < |after.runs| && Moves(db.runs, after.runs, r, after.runs[r].state)
  {
    var gate := Judged(db, r, ids, world);
    var recorded := Recorded(db, gate);
    if gate.resolution == Pending {
      PendingRuns(db, r, gate, MoveStage(recorded, r, WaitingApproval).value);
    } else if gate.resolution == Automatic {
      FinalizeRuns(recorded, |db.gates|, world, after);
    } else {
      SentBackRuns(db, gate, if gate.status == Warning then WarningHeld else NeedsFix);
    }
  }

  lemma DecideRuns(db: Db, a: nat, approved: bool, world: World, after: Db)
    requires SoundRuns(db) && DecideStep(db, a, approved, world) == Ok(after)
    ensures SoundRuns(after)
    ensures a < |db.approvals| && db.approvals[a].gate < |db.gates|
    ensures var r := db.gates[db.approvals[a].gate].run;
            r < |db.runs| && Moves(db.runs, after.runs, r, if approved then Done else NeedsFix)
  {
    var g := db.approvals[a].gate;
    var gate := db.gates[g];
    if approved {
      FinalizeRuns(Decided(db, a, approved), g, world, after);
    } else {
      PlainMoveSound(db.runs, after.runs, db.handoffs, db.waved, gate.run, NeedsFix);
    }
  }

  lemma TransitionRuns(db: Db, stage: Stage, target: StageState, agentActive: bool, after: Db)
    requires SoundRuns(db) && TransitionStep(db, stage, target, agentActive) == Ok(after)
    ensures SoundRuns(after)
  {
    var r := Current(db.runs, stage).value;
    var moved := MoveStage(db, r, target).value;
    MoveFrame(db, r, target, moved);
    MoveStageMoves(db, r, target, moved);
    if target == HandoffReady {
      WaveSound(db.runs, moved.runs, db.handoffs, db.waved, r);
    } else {
      PlainMoveSound(db.runs, moved.runs, db.handoffs, db.waved, r, target);
    }
  }

  lemma ReopenSound(runs: seq<Run>, handoffs: seq<Handoff>, waved: set<nat>, stage: Stage, now: seq<Handoff>)
    requires SoundStages(runs, handoffs, waved)
    requires |now| == |handoffs| && forall h :: 0 <= h < |now| ==> now[h].run == handoffs[h].run
    ensures SoundStages(runs + NewRuns(runs, stage, stage), now, waved)
  {
    var added := NewRuns(runs, stage, stage);
    var after := runs + added;
    forall r | 0 <= r < |after| && (after[r].state == HandoffReady || after[r].state == Done)
      ensures r in waved || HasHandoff(now, r)
    {
      if r < |runs| {
        RecalledStillHas(handoffs, now, r);
      } else {
        NewRunsAre(runs, stage, stage, r - |runs|);
      }
    }
  }

  lemma RecalledStillHas(handoffs: seq<Handoff>, now: seq<Handoff>, r: nat)
    requires |now| == |handoffs| && forall h :: 0 <= h < |now| ==> now[h].run == handoffs[h].run
    ensures HasHandoff(now, r) <==> HasHandoff(handoffs, r)
  {
  }

  lemma RecallSound(runs: seq<Run>, handoffs: seq<Handoff>, waved: set<nat>, from: nat)
    requires SoundStages(runs, handoffs, waved)
    ensures SoundStages(runs, Recalled(handoffs, from), waved)
  {
    var now := Recalled(handoffs, from);
    forall r | 0 <= r < |runs| && (runs[r].state == HandoffReady || runs[r].state == Done)
      ensures r in waved || HasHandoff(now, r)
    {
      RecalledStillHas(handoffs, now, r);
    }
  }

  lemma HaltedRuns(db: Db, status: WorkflowStatus, state: StageState, after: Db)
    requires SoundRuns(db) && Halted(db, status, state) == Ok(after) && (state == Cancelled || state == Abandoned)
    ensures SoundRuns(after)
  {
    var r := Current(db.runs, db.stage);
    if r.Some? { PlainMoveSound(db.runs, after.runs, db.handoffs, db.waved, r.value, state); }
  }

  lemma NextRuns(db: Db, step: Step, world: World)
    requires SoundRuns(db)
    ensures SoundRuns(Next(db, step, world))
  {
    var outcome := Apply(db, step, world);
    if outcome.Ok? {
      match step
      case Evaluate(r, ids) => EvaluateRuns(db, r, ids, world, outcome.value);
      case Decide(a, approved) => DecideRuns(db, a, approved, world, outcome.value);
      case Transition(stage, target, active) => TransitionRuns(db, stage, target, active, outcome.value);
      case Reopen(stage, _) =>
        ReopenSound(db.runs, db.handoffs, db.waved, stage, Recalled(db.handoffs, stage));
      case RequestChange(from, _) => RecallSound(db.runs, db.handoffs, db.waved, from);
      case Stop => HaltedRuns(db, Stopped, Cancelled, outcome.value);
      case Abandon => HaltedRuns(db, WorkflowAbandoned, Abandoned, outcome.value);
      case _ =>
    }
  }

  lemma {:induction false} RunRuns(db: Db, steps: seq<Step>, worlds: seq<World>)
    requires SoundRuns(db) && |steps| == |worlds|
    ensures SoundRuns(RunAll(db, steps, worlds))
    decreases |steps|
  {
    if steps != [] {
      NextRuns(db, steps[0], worlds[0]);
      RunRuns(Next(db, steps[0], worlds[0]), steps[1..], worlds[1..]);
    }
  }

  /**
   In every run a completed stage run has a handoff, unless a transition call moved it to
   handoff_ready: the transition table lets such a call complete a stage past its gate.
   */
  lemma CompletedHasHandoffIff(steps: seq<Step>, worlds: seq<World>, r: nat)
    requires |steps| == |worlds|
    ensures var db := RunAll(Fresh(), steps, worlds);
            r < |db.runs| && db.runs[r].state == Done ==> (HasHandoff(db.handoffs, r) <==> r !in db.waved)
  {
    assert SoundRuns(Fresh());
    RunRuns(Fresh(), steps, worlds);
  }
}
