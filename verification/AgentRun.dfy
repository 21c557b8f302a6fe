/**
 One agent run: a primary draft, up to two independent reviews and a reconciliation, streamed
 as numbered frames and ended with one status. What the calls meet outside is given as data.
 */
module AgentRun {
  import opened Wrappers
  import opened PythonText

  datatype Phase = P0 | ReviewA | ReviewB | P2R

  /** What can leave a call or a run as an exception. */
  datatype Raise = Domain(code: string) | Cancelled | Crash

  /** How a model adapter's stream ends. */
  datatype Ending = Finished | Refused(code: string) | Broke(raise: Raise)

  /** `cancelAt` is the position of the first chunk that finds the cancellation set. */
  datatype CallWorld = CallWorld(setup: Option<Raise>, resolve: Option<Raise>, adapter: bool, secret: bool,
                                 chunks: seq<string>, cancelAt: Option<nat>, ending: Ending, store: Option<Raise>,
                                 closing: Option<Raise>)

  datatype RunStatus = Pending | Running | Succeeded | PartialFailure | Failed | RunCancelled

  datatype FrameKind =
    | RunStarted
    | CallStarted(phase: Phase)
    | Chunk(phase: Phase, text: string)
    | CallCompleted(phase: Phase)
    | CallError(phase: Phase, code: string)
    | RunError(code: string)
    | RunCompleted(status: RunStatus)

  datatype Frame = Frame(sequence: nat, kind: FrameKind)

  datatype CallEnd = Skipped | Produced(content: string) | NotProduced(code: string) | Raised(raise: Raise)

  datatype CallResult = CallResult(frames: seq<Frame>, end: CallEnd)

  datatype RunRecord = RunRecord(status: RunStatus, output: Option<string>, error: Option<string>)

  /**
   What the run's own units raise, if anything: `enter` before the run is committed as running (for a
   run that is not pending, before that is noticed), `ready` between that commit and the first frame,
   `finish` when the result is recorded, `rescue` when a failure or a cancellation is.
   */
  datatype RunWorld = RunWorld(formal: bool, reviewA: bool, reviewB: bool, enter: Option<Raise>, ready: Option<Raise>,
                               p0: CallWorld, a: CallWorld, b: CallWorld, p2r: CallWorld, finish: Option<Raise>,
                               rescue: Option<Raise>)

  datatype Verdict = Finish(status: RunStatus, output: Option<string>, error: Option<string>) | Threw(raise: Raise)

  datatype Body = Body(frames: seq<Frame>, verdict: Verdict)

  datatype RunEnd = RunEnd(frames: seq<Frame>, record: RunRecord, raised: Option<Raise>)

  // --------------------------------------------------------------------- one call

  function CharSize(c: char): nat {
    if c < '\U{0080}' then 1 else if c < '\U{0800}' then 2 else if c < '\U{10000}' then 3 else 4
  }

  /** Length in UTF-8. */
  function EncodedSize(text: string): nat {
    if text == "" then 0 else EncodedSize(text[..|text| - 1]) + CharSize(text[|text| - 1])
  }

  function Concat(pieces: seq<string>): string {
    if pieces == [] then "" else Concat(pieces[..|pieces| - 1]) + pieces[|pieces| - 1]
  }

  datatype Stop = AllRead | TooLarge | CancelSeen

  datatype Intake = Intake(pieces: seq<string>, size: nat, stop: Stop)

  /** What is kept of the first `n` chunks. */
  function Consume(w: CallWorld, limit: nat, n: nat): Intake
    requires n <= |w.chunks|
  {
    if n == 0 then Intake([], 0, AllRead)
    else
      var before, text := Consume(w, limit, n - 1), w.chunks[n - 1];
      if before.stop != AllRead then before
      else if w.cancelAt.Some? && w.cancelAt.value <= n - 1 then before.(stop := CancelSeen)
      else if text == "" then before
      else if before.size + EncodedSize(text) > limit then before.(stop := TooLarge)
      else Intake(before.pieces + [text], before.size + EncodedSize(text), AllRead)
  }

  function ChunkFrames(phase: Phase, start: nat, pieces: seq<string>): seq<Frame> {
    seq(|pieces|, i requires 0 <= i < |pieces| => Frame(start + 1 + i, Chunk(phase, pieces[i])))
  }

  /** What the adapter and the output store make of a call that was started. */
  function Answer(w: CallWorld, limit: nat): (answer: CallEnd)
    ensures !answer.Skipped?
  {
    if w.resolve.Some? then Raised(w.resolve.value)
    else if !w.adapter then NotProduced("model.adapter_unavailable")
    else if !w.secret then NotProduced("model.credential_unavailable")
    else
      var intake := Consume(w, limit, |w.chunks|);
      match intake.stop
      case CancelSeen => Raised(Cancelled)
      case TooLarge => NotProduced("model.output_too_large")
      case AllRead => StoreOutput(w, intake.pieces)
  }

  /** The end of a stream that was read to its end. */
  function StoreOutput(w: CallWorld, pieces: seq<string>): (answer: CallEnd)
    ensures !answer.Skipped?
  {
    match w.ending
    case Refused(code) => NotProduced(code)
    case Broke(Domain(code)) => NotProduced(code)
    case Broke(raise) => Raised(raise)
    case Finished =>
      var content := Strip(Concat(pieces));
      if content == "" then NotProduced("model.output_empty")
      else
        match w.store
        case None => Produced(content)
        case Some(Domain(code)) => NotProduced(code)
        case Some(raise) => Raised(raise)
  }

  /** The pieces that were streamed out before the answer was known. */
  function Streamed(w: CallWorld, limit: nat): seq<string> {
    if w.resolve.Some? || !w.adapter || !w.secret then [] else Consume(w, limit, |w.chunks|).pieces
  }

  /** `_stream_call` after `start` frames. */
  function Call(w: CallWorld, phase: Phase, limit: nat, start: nat): (result: CallResult)
    ensures !result.end.Skipped?
  {
    if w.setup.Some? then CallResult([], Raised(w.setup.value))
    else
      var pieces := Streamed(w, limit);
      var frames := [Frame(start + 1, CallStarted(phase))] + ChunkFrames(phase, start + 1, pieces);
      var answer, last := Answer(w, limit), start + 1 + |pieces| + 1;
      if answer.Raised? then CallResult(frames, answer)
      else if w.closing.Some? then CallResult(frames, Raised(w.closing.value))
      else if answer.Produced? then CallResult(frames + [Frame(last, CallCompleted(phase))], answer)
      else CallResult(frames + [Frame(last, CallError(phase, answer.code))], answer)
  }

  // ------------------------------------------------------------------- the pipeline

  function Review(w: CallWorld, present: bool, phase: Phase, limit: nat, start: nat): CallResult {
    if present then Call(w, phase, limit, start) else CallResult([], Skipped)
  }

  function ReviewerError(failed: bool): Option<string> {
    if failed then Some("agent_run.reviewer_failed") else None
  }

  function Reconciled(w: RunWorld, limit: nat, frames: seq<Frame>, draft: string, a: CallEnd, b: CallEnd): Body {
    var failed := a.NotProduced? || b.NotProduced?;
    var status := if failed then PartialFailure else Succeeded;
    if w.formal && failed then Body(frames, Finish(PartialFailure, Some(draft), ReviewerError(true)))
    else if a.Produced? || b.Produced? then
      var last := Call(w.p2r, P2R, limit, |frames|);
      match last.end
      case Raised(raise) => Body(frames + last.frames, Threw(raise))
      case NotProduced(code) => Body(frames + last.frames, Finish(PartialFailure, Some(draft), Some(code)))
      case Produced(content) => Body(frames + last.frames, Finish(status, Some(content), ReviewerError(failed)))
    else Body(frames, Finish(status, Some(draft), ReviewerError(failed)))
  }

  /** The reviews of a draft and what comes after them. */
  function Reviewed(w: RunWorld, limit: nat, frames: seq<Frame>, draft: string): Body {
    var a := Review(w.a, w.reviewA, ReviewA, limit, |frames|);
    var reviewedA := frames + a.frames;
    if a.end.Raised? then Body(reviewedA, Threw(a.end.raise))
    else
      var b := Review(w.b, w.reviewB, ReviewB, limit, |reviewedA|);
      var reviewedB := reviewedA + b.frames;
      if b.end.Raised? then Body(reviewedB, Threw(b.end.raise))
      else Reconciled(w, limit, reviewedB, draft, a.end, b.end)
  }

  /** The try block of `stream_run` once the run is prepared. */
  function Pipeline(w: RunWorld, limit: nat): Body {
    var started := [Frame(1, RunStarted)];
    var first := Call(w.p0, P0, limit, 1);
    var drafted := started + first.frames;
    match first.end
    case Raised(raise) => Body(drafted, Threw(raise))
    case NotProduced(code) => Body(drafted, Finish(Failed, None, Some(code)))
    case Produced(draft) => Reviewed(w, limit, drafted, draft)
  }

  predicate Settled(status: RunStatus) {
    status.Succeeded? || status.PartialFailure? || status.Failed? || status.RunCancelled?
  }

  /** The except clauses of `stream_run`. */
  function Handled(record: RunRecord, frames: seq<Frame>, raise: Raise, rescue: Option<Raise>): RunEnd {
    match raise
    case Cancelled =>
      if rescue.Some? then RunEnd(frames, record, rescue)
      else if Settled(record.status) then RunEnd(frames, record, Some(Cancelled))
      else RunEnd(frames, RunRecord(RunCancelled, None, Some("agent_run.cancelled")), Some(Cancelled))
    case Domain(code) =>
      if rescue.Some? then RunEnd(frames, record, rescue)
      else
        var n := |frames|;
        RunEnd(frames + [Frame(n + 1, RunError(code)), Frame(n + 2, RunCompleted(Failed))],
               RunRecord(Failed, None, Some(code)), None)
    case Crash =>
      if rescue.Some? then RunEnd(frames, record, rescue)
      else RunEnd(frames, RunRecord(Failed, None, Some("agent_run.internal_failure")), Some(Crash))
  }

  /** `stream_run`. */
  function StreamRun(record: RunRecord, w: RunWorld, limit: nat): RunEnd {
    if w.enter.Some? then Handled(record, [], w.enter.value, w.rescue)
    else if record.status != Pending then Handled(record, [], Domain("agent_run.not_pending"), w.rescue)
    else
      var running, body := record.(status := Running), Pipeline(w, limit);
      if w.ready.Some? then Handled(running, [], w.ready.value, w.rescue)
      else Ended(running, body, w)
  }

  /** Recording the verdict, or handling what was raised instead. */
  function Ended(running: RunRecord, body: Body, w: RunWorld): RunEnd {
    match body.verdict
    case Threw(raise) => Handled(running, body.frames, raise, w.rescue)
    case Finish(status, output, error) =>
      if w.finish.Some? then Handled(running, body.frames, w.finish.value, w.rescue)
      else
        RunEnd(body.frames + [Frame(|body.frames| + 1, RunCompleted(status))], RunRecord(status, output, error), None)
  }

  // ---------------------------------------------------------------------- the frames

  /** Numbered from `start + 1` on, without a gap. */
  ghost predicate Consecutive(frames: seq<Frame>, start: nat) {
    forall i :: 0 <= i < |frames| ==> frames[i].sequence == start + 1 + i
  }

  ghost predicate NoEnd(frames: seq<Frame>) {
    forall i :: 0 <= i < |frames| ==> !frames[i].kind.RunCompleted?
  }

  lemma ConsecutiveConcat(a: seq<Frame>, b: seq<Frame>)
    requires Consecutive(a, 0) && NoEnd(a) && Consecutive(b, |a|) && NoEnd(b)
    ensures Consecutive(a + b, 0) && NoEnd(a + b)
  {
  }

  lemma CallNumbered(w: CallWorld, phase: Phase, limit: nat, start: nat)
    ensures Consecutive(Call(w, phase, limit, start).frames, start) && NoEnd(Call(w, phase, limit, start).frames)
  {
  }

  lemma ReviewNumbered(w: CallWorld, present: bool, phase: Phase, limit: nat, start: nat)
    ensures var frames := Review(w, present, phase, limit, start).frames; Consecutive(frames, start) && NoEnd(frames)
  {
    CallNumbered(w, phase, limit, start);
  }

  lemma ReviewedNumbered(w: RunWorld, limit: nat, frames: seq<Frame>, draft: string)
    requires Consecutive(frames, 0) && NoEnd(frames)
    ensures Consecutive(Reviewed(w, limit, frames, draft).frames, 0) && NoEnd(Reviewed(w, limit, frames, draft).frames)
  {
    var a := Review(w.a, w.reviewA, ReviewA, limit, |frames|);
    var reviewedA := frames + a.frames;
    ReviewNumbered(w.a, w.reviewA, ReviewA, limit, |frames|);
    ConsecutiveConcat(frames, a.frames);
    var b := Review(w.b, w.reviewB, ReviewB, limit, |reviewedA|);
    var reviewedB := reviewedA + b.frames;
    ReviewNumbered(w.b, w.reviewB, ReviewB, limit, |reviewedA|);
    ConsecutiveConcat(reviewedA, b.frames);
    CallNumbered(w.p2r, P2R, limit, |reviewedB|);
    ConsecutiveConcat(reviewedB, Call(w.p2r, P2R, limit, |reviewedB|).frames);
  }

  lemma PipelineNumbered(w: RunWorld, limit: nat)
    ensures Consecutive(Pipeline(w, limit).frames, 0) && NoEnd(Pipeline(w, limit).frames)
  {
    var started := [Frame(1, RunStarted)];
    var first := Call(w.p0, P0, limit, 1);
    CallNumbered(w.p0, P0, limit, 1);
    ConsecutiveConcat(started, first.frames);
    if first.end.Produced? { ReviewedNumbered(w, limit, started + first.frames, first.end.content); }
  }

  /** What the run hands out, whichever way it ends. */
  ghost predicate WellFramed(end: RunEnd) {
    && Consecutive(end.frames, 0)
    && (end.raised.Some? ==> NoEnd(end.frames))
    && (end.raised.None? ==>
          && end.frames != []
          && NoEnd(end.frames[..|end.frames| - 1])
          && end.frames[|end.frames| - 1].kind == RunCompleted(end.record.status))
  }

  lemma HandledFramed(record: RunRecord, frames: seq<Frame>, raise: Raise, rescue: Option<Raise>)
    requires Consecutive(frames, 0) && NoEnd(frames)
    ensures WellFramed(Handled(record, frames, raise, rescue))
  {
  }

  lemma FinishedFramed(frames: seq<Frame>, record: RunRecord)
    requires Consecutive(frames, 0) && NoEnd(frames)
    ensures WellFramed(RunEnd(frames + [Frame(|frames| + 1, RunCompleted(record.status))], record, None))
  {
  }

  /**
   Whatever the calls do, the frames are numbered 1, 2, ..., n; a run that returns ends with its
   only completion frame, which shows the recorded status, and one that raises shows none.
   */
  lemma FramesNumbered(record: RunRecord, w: RunWorld, limit: nat)
    ensures WellFramed(StreamRun(record, w, limit))
  {
    var body := Pipeline(w, limit);
    PipelineNumbered(w, limit);
    if w.enter.Some? {
      HandledFramed(record, [], w.enter.value, w.rescue);
    } else if record.status != Pending {
      HandledFramed(record, [], Domain("agent_run.not_pending"), w.rescue);
    } else if w.ready.Some? {
      HandledFramed(record.(status := Running), [], w.ready.value, w.rescue);
    } else if body.verdict.Threw? {
      HandledFramed(record.(status := Running), body.frames, body.verdict.raise, w.rescue);
    } else if w.finish.Some? {
      HandledFramed(record.(status := Running), body.frames, w.finish.value, w.rescue);
    } else {
      FinishedFramed(body.frames, RunRecord(body.verdict.status, body.verdict.output, body.verdict.error));
    }
  }

  // ---------------------------------------------------------------------- the status

  /** A call that went all the way: read to the end, not too large, not blank, and stored. */
  predicate CallSucceeds(w: CallWorld, limit: nat) {
    && w.setup.None? && w.resolve.None? && w.adapter && w.secret
    && Consume(w, limit, |w.chunks|).stop == AllRead && w.ending == Finished
    && Strip(Concat(w.chunks)) != "" && w.store.None? && w.closing.None?
  }

  lemma {:induction false} ConcatMore(pieces: seq<string>, piece: string)
    ensures Concat(pieces + [piece]) == Concat(pieces) + piece
  {
    assert (pieces + [piece])[..|pieces|] == pieces;
  }

  lemma {:induction false} ConcatTaken(chunks: seq<string>, n: nat)
    requires n < |chunks|
    ensures Concat(chunks[..n + 1]) == Concat(chunks[..n]) + chunks[n]
  {
    assert chunks[..n + 1] == chunks[..n] + [chunks[n]];
    ConcatMore(chunks[..n], chunks[n]);
  }

  lemma {:induction false} ConsumeStep(w: CallWorld, limit: nat, n: nat)
    requires 0 < n <= |w.chunks| && Consume(w, limit, n).stop == AllRead
    ensures var before, chunk := Consume(w, limit, n - 1), w.chunks[n - 1];
            && before.stop == AllRead
            && Consume(w, limit, n).pieces == if chunk == "" then before.pieces else before.pieces + [chunk]
  {
  }

  lemma {:induction false} ConsumeConcat(w: CallWorld, limit: nat, n: nat)
    requires n <= |w.chunks| && Consume(w, limit, n).stop == AllRead
    ensures Concat(Consume(w, limit, n).pieces) == Concat(w.chunks[..n])
  {
    if n > 0 {
      var pieces, chunk := Consume(w, limit, n - 1).pieces, w.chunks[n - 1];
      ConsumeStep(w, limit, n);
      ConsumeConcat(w, limit, n - 1);
      ConcatTaken(w.chunks, n - 1);
      if chunk == "" {
        assert Concat(pieces) + chunk == Concat(pieces);
      } else {
        ConcatMore(pieces, chunk);
      }
    }
  }

  lemma AnswerProducesIff(w: CallWorld, limit: nat)
    ensures Answer(w, limit).Produced?
            <==> && w.resolve.None? && w.adapter && w.secret
                 && Consume(w, limit, |w.chunks|).stop == AllRead && w.ending == Finished
                 && Strip(Concat(Consume(w, limit, |w.chunks|).pieces)) != "" && w.store.None?
    ensures Answer(w, limit).Produced? ==>
              Answer(w, limit).content == Strip(Concat(Consume(w, limit, |w.chunks|).pieces))
  {
  }

  lemma CallEndIs(w: CallWorld, phase: Phase, limit: nat, start: nat)
    ensures Call(w, phase, limit, start).end.Produced?
            <==> w.setup.None? && w.closing.None? && Answer(w, limit).Produced?
    ensures Call(w, phase, limit, start).end.Produced? ==> Call(w, phase, limit, start).end == Answer(w, limit)
    ensures !Call(w, phase, limit, start).end.Skipped?
  {
  }

  /** A call produces its whole streamed text, trimmed, exactly when it went all the way. */
  lemma CallProducesIff(w: CallWorld, phase: Phase, limit: nat, start: nat)
    ensures Call(w, phase, limit, start).end.Produced? <==> CallSucceeds(w, limit)
    ensures CallSucceeds(w, limit) ==> Call(w, phase, limit, start).end == Produced(Strip(Concat(w.chunks)))
    ensures !Call(w, phase, limit, start).end.Skipped?
  {
    CallEndIs(w, phase, limit, start);
    AnswerProducesIff(w, limit);
    if Consume(w, limit, |w.chunks|).stop == AllRead {
      ConsumeConcat(w, limit, |w.chunks|);
      assert w.chunks[..|w.chunks|] == w.chunks;
    }
  }

  predicate EveryCallSucceeds(w: RunWorld, limit: nat) {
    && CallSucceeds(w.p0, limit)
    && (w.reviewA ==> CallSucceeds(w.a, limit))
    && (w.reviewB ==> CallSucceeds(w.b, limit))
    && (w.reviewA || w.reviewB ==> CallSucceeds(w.p2r, limit))
  }

  function FinalText(w: RunWorld): string {
    if w.reviewA || w.reviewB then Strip(Concat(w.p2r.chunks)) else Strip(Concat(w.p0.chunks))
  }

  lemma ReconciledSucceedsIff(w: RunWorld, limit: nat, frames: seq<Frame>, draft: string, a: CallEnd, b: CallEnd)
    requires !a.Raised? && !b.Raised?
    ensures var verdict := Reconciled(w, limit, frames, draft, a, b).verdict;
            var reviewed := a.Produced? || b.Produced?;
            && (verdict.Finish? && verdict.status == Succeeded
                <==> !a.NotProduced? && !b.NotProduced? && (reviewed ==> CallSucceeds(w.p2r, limit)))
            && (verdict.Finish? && verdict.status == Succeeded ==>
                  verdict.output == Some(if reviewed then Strip(Concat(w.p2r.chunks)) else draft)
                  && verdict.error == None)
  {
    CallProducesIff(w.p2r, P2R, limit, |frames|);
  }

  lemma ReviewEnds(w: CallWorld, present: bool, phase: Phase, limit: nat, start: nat)
    ensures var end := Review(w, present, phase, limit, start).end;
            && (end.Skipped? <==> !present)
            && (end.Produced? <==> present && CallSucceeds(w, limit))
  {
    CallProducesIff(w, phase, limit, start);
  }

  lemma ReviewedSucceedsIff(w: RunWorld, limit: nat, frames: seq<Frame>, draft: string)
    ensures var verdict, reviewed := Reviewed(w, limit, frames, draft).verdict, w.reviewA || w.reviewB;
            && (verdict.Finish? && verdict.status == Succeeded
                <==> && (w.reviewA ==> CallSucceeds(w.a, limit)) && (w.reviewB ==> CallSucceeds(w.b, limit))
                     && (reviewed ==> CallSucceeds(w.p2r, limit)))
            && (verdict.Finish? && verdict.status == Succeeded ==>
                  verdict.output == Some(if reviewed then Strip(Concat(w.p2r.chunks)) else draft)
                  && verdict.error == None)
  {
    var a := Review(w.a, w.reviewA, ReviewA, limit, |frames|);
    var reviewedA := frames + a.frames;
    var b := Review(w.b, w.reviewB, ReviewB, limit, |reviewedA|);
    ReviewEnds(w.a, w.reviewA, ReviewA, limit, |frames|);
    ReviewEnds(w.b, w.reviewB, ReviewB, limit, |reviewedA|);
    if !a.end.Raised? && !b.end.Raised? {
      ReconciledSucceedsIff(w, limit, reviewedA + b.frames, draft, a.end, b.end);
    }
  }

  lemma PipelineSucceedsIff(w: RunWorld, limit: nat)
    ensures var verdict := Pipeline(w, limit).verdict;
            && (verdict.Finish? && verdict.status == Succeeded <==> EveryCallSucceeds(w, limit))
            && (EveryCallSucceeds(w, limit) ==> verdict == Finish(Succeeded, Some(FinalText(w)), None))
  {
    var first := Call(w.p0, P0, limit, 1);
    var drafted := [Frame(1, RunStarted)] + first.frames;
    CallProducesIff(w.p0, P0, limit, 1);
    if first.end.Produced? { ReviewedSucceedsIff(w, limit, drafted, first.end.content); }
  }

  /** Nothing goes wrong on the way of a pending run. */
  predicate RunSucceeds(w: RunWorld, limit: nat) {
    w.enter.None? && w.ready.None? && EveryCallSucceeds(w, limit) && w.finish.None?
  }

  /** What was raised never makes a run succeed. */
  lemma HandledFails(record: RunRecord, frames: seq<Frame>, raise: Raise, rescue: Option<Raise>)
    requires record.status != Succeeded
    ensures Handled(record, frames, raise, rescue).record.status != Succeeded
  {
  }

  lemma EndedSucceedsIff(running: RunRecord, body: Body, w: RunWorld)
    requires running.status == Running
    ensures var verdict, after := body.verdict, Ended(running, body, w).record;
            && (after.status == Succeeded <==> verdict.Finish? && verdict.status == Succeeded && w.finish.None?)
            && (after.status == Succeeded ==> after == RunRecord(Succeeded, verdict.output, verdict.error))
  {
    if body.verdict.Threw? { HandledFails(running, body.frames, body.verdict.raise, w.rescue); }
    if w.finish.Some? { HandledFails(running, body.frames, w.finish.value, w.rescue); }
  }

  /**
   A run is recorded as succeeded exactly when it was pending and prepared, the draft, every
   present review and the reconciliation produced content, and the result could be recorded.
   */
  lemma SucceedsIff(record: RunRecord, w: RunWorld, limit: nat)
    requires record.status == Pending
    ensures StreamRun(record, w, limit).record.status == Succeeded
            <==> RunSucceeds(w, limit)
    ensures StreamRun(record, w, limit).record.status == Succeeded ==>
              StreamRun(record, w, limit).record == RunRecord(Succeeded, Some(FinalText(w)), None)
  {
    var running := record.(status := Running);
    PipelineSucceedsIff(w, limit);
    if w.enter.Some? {
      HandledFails(record, [], w.enter.value, w.rescue);
    } else if w.ready.Some? {
      HandledFails(running, [], w.ready.value, w.rescue);
    } else {
      EndedSucceedsIff(running, Pipeline(w, limit), w);
    }
  }

  lemma ReconciledMeans(w: RunWorld, limit: nat, frames: seq<Frame>, draft: string, a: CallEnd, b: CallEnd)
    requires !a.Raised? && !b.Raised?
    ensures var verdict := Reconciled(w, limit, frames, draft, a, b).verdict;
            verdict.Finish? ==>
              && verdict.status in {Succeeded, PartialFailure}
              && (verdict.error.None? <==> verdict.status == Succeeded)
              && (w.formal && (a.NotProduced? || b.NotProduced?) ==> verdict.status == PartialFailure
                                                                     && verdict.output == Some(draft))
              && (verdict.output == Some(draft)
                  || (CallSucceeds(w.p2r, limit) && verdict.output == Some(Strip(Concat(w.p2r.chunks)))))
  {
    CallProducesIff(w.p2r, P2R, limit, |frames|);
  }

  /**
   A run that finishes its calls is failed exactly when there was no draft, and then has no output;
   otherwise its output is the draft or the reconciled text. Only success carries no error, and a
   formal run with a failed review keeps the draft.
   */
  lemma VerdictMeans(w: RunWorld, limit: nat)
    ensures var verdict := Pipeline(w, limit).verdict;
            verdict.Finish? ==>
              && (verdict.status == Failed <==> !CallSucceeds(w.p0, limit))
              && (verdict.output.None? <==> verdict.status == Failed)
              && (verdict.error.None? <==> verdict.status == Succeeded)
              && (verdict.status != Failed ==>
                    || verdict.output == Some(Strip(Concat(w.p0.chunks)))
                    || (CallSucceeds(w.p2r, limit) && verdict.output == Some(Strip(Concat(w.p2r.chunks)))))
              && (verdict.status != Failed && w.formal
                  && ((w.reviewA && !CallSucceeds(w.a, limit)) || (w.reviewB && !CallSucceeds(w.b, limit))) ==>
                    verdict.status == PartialFailure && verdict.output == Some(Strip(Concat(w.p0.chunks))))
  {
    var first := Call(w.p0, P0, limit, 1);
    var frames := [Frame(1, RunStarted)] + first.frames;
    CallProducesIff(w.p0, P0, limit, 1);
    if first.end.Produced? {
      var a := Review(w.a, w.reviewA, ReviewA, limit, |frames|);
      var reviewedA := frames + a.frames;
      var b := Review(w.b, w.reviewB, ReviewB, limit, |reviewedA|);
      ReviewEnds(w.a, w.reviewA, ReviewA, limit, |frames|);
      ReviewEnds(w.b, w.reviewB, ReviewB, limit, |reviewedA|);
      if !a.end.Raised? && !b.end.Raised? {
        ReconciledMeans(w, limit, reviewedA + b.frames, first.end.content, a.end, b.end);
      }
    }
  }

  /** A formal run is only created with both reviewers, so one that succeeds had all four calls succeed. */
  lemma FormalSuccessHadFourCalls(record: RunRecord, w: RunWorld, limit: nat)
    requires record.status == Pending && w.formal && CanCreate(w.formal, w.reviewA, w.reviewB)
    requires StreamRun(record, w, limit).record.status == Succeeded
    ensures CallSucceeds(w.p0, limit) && CallSucceeds(w.a, limit) && CallSucceeds(w.b, limit)
            && CallSucceeds(w.p2r, limit)
  {
    SucceedsIff(record, w, limit);
  }

  /** The dual-review check of `create_run`. */
  predicate CanCreate(formal: bool, reviewA: bool, reviewB: bool) {
    formal ==> reviewA && reviewB
  }

  // --------------------------------------------------------------- streaming it again

  /** The record a stream leaves. */
  function RecordAfter(record: RunRecord, w: RunWorld, limit: nat): RunRecord {
    StreamRun(record, w, limit).record
  }

  function Failure(code: string): RunRecord {
    RunRecord(Failed, None, Some(code))
  }

  lemma HandledLeaves(record: RunRecord, frames: seq<Frame>, raise: Raise, rescue: Option<Raise>)
    requires !Settled(record.status)
    ensures var after := Handled(record, frames, raise, rescue).record;
            if rescue.Some? then after == record else after.status == Failed || after.status == RunCancelled
  {
  }

  lemma VerdictStatus(w: RunWorld, limit: nat)
    ensures Pipeline(w, limit).verdict.Finish? ==> Pipeline(w, limit).verdict.status in {Succeeded, PartialFailure, Failed}
  {
  }

  lemma EndedLeaves(running: RunRecord, w: RunWorld, limit: nat)
    requires running.status == Running
    ensures Ended(running, Pipeline(w, limit), w).record.status != Pending
  {
    VerdictStatus(w, limit);
    var body := Pipeline(w, limit);
    if body.verdict.Threw? { HandledLeaves(running, body.frames, body.verdict.raise, w.rescue); }
    if w.finish.Some? { HandledLeaves(running, body.frames, w.finish.value, w.rescue); }
  }

  /** What a run that did not succeed leaves: it never started, was left behind running, or is settled. */
  lemma UnsuccessfulRecord(record: RunRecord, w: RunWorld, limit: nat)
    requires record.status == Pending && !RunSucceeds(w, limit)
    ensures var after := RecordAfter(record, w, limit);
            && after.status != Succeeded
            && (after.status == Pending <==> w.enter.Some? && w.rescue.Some?)
            && (after.status == Pending ==> after == record)
  {
    SucceedsIff(record, w, limit);
    if w.enter.Some? {
      HandledLeaves(record, [], w.enter.value, w.rescue);
    } else if w.ready.Some? {
      HandledLeaves(record.(status := Running), [], w.ready.value, w.rescue);
    } else {
      EndedLeaves(record.(status := Running), w, limit);
    }
  }

  /** The failure another stream of a run that is not pending records, if it records anything. */
  function Refusal(w: RunWorld): RunRecord {
    match w.enter
    case None => Failure("agent_run.not_pending")
    case Some(Domain(code)) => Failure(code)
    case Some(_) => Failure("agent_run.internal_failure")
  }

  /** A stream that cannot record its end, or is cancelled before it reads the run, changes no settled run. */
  predicate LeavesSettled(w: RunWorld) {
    w.rescue.Some? || w.enter == Some(Cancelled)
  }

  /**
   A run streamed twice ends as succeeded in two ways only: the first stream succeeded and the
   second could not record its end or was cancelled before it read the run, or the first failed
   before its commit without recording that and the second succeeds.
   */
  lemma StreamedTwice(record: RunRecord, first: RunWorld, second: RunWorld, limit: nat)
    requires record.status == Pending
    ensures var once := RecordAfter(record, first, limit);
            var twice := RecordAfter(once, second, limit);
            && (twice.status == Succeeded
                <==> || (RunSucceeds(first, limit) && LeavesSettled(second))
                     || (first.enter.Some? && first.rescue.Some? && RunSucceeds(second, limit)))
            && (RunSucceeds(first, limit) ==>
                  once == RunRecord(Succeeded, Some(FinalText(first)), None)
                  && twice == if LeavesSettled(second) then once else Refusal(second))
  {
    SucceedsIff(record, first, limit);
    if !RunSucceeds(first, limit) {
      UnsuccessfulRecord(record, first, limit);
      SucceedsIff(record, second, limit);
    }
  }

  /** A call that streams one visible chunk and ends well. */
  function OneChunk(): CallWorld {
    CallWorld(None, None, true, true, ["x"], None, Finished, None, None)
  }

  function PlainRun(enter: Option<Raise>): RunWorld {
    RunWorld(false, false, false, enter, None, OneChunk(), OneChunk(), OneChunk(), OneChunk(), None, None)
  }

  /** Another stream keeps a settled result exactly when it records nothing, or records what is there already. */
  lemma SettledKeptIff(record: RunRecord, w: RunWorld, limit: nat)
    requires Settled(record.status)
    ensures RecordAfter(record, w, limit) == record <==> LeavesSettled(w) || record == Refusal(w)
  {
  }

  /** Nothing protects a settled result, not even a refusal that was recorded before. */
  lemma NoSettledResultIsSafe(record: RunRecord, limit: nat)
    requires Settled(record.status)
    ensures exists w: RunWorld :: RecordAfter(record, w, limit) != record
  {
    var late, failing := PlainRun(None), PlainRun(Some(Crash));
    SettledKeptIff(record, late, limit);
    SettledKeptIff(record, failing, limit);
    assert Refusal(late) != Refusal(failing);
    assert RecordAfter(record, late, limit) != record || RecordAfter(record, failing, limit) != record;
  }

  /** A run that succeeded with a text, streamed again in the same world, is a failure without one. */
  lemma ResultOverwritten(limit: nat)
    requires limit >= 1
    ensures var pending, w := RunRecord(Pending, None, None), PlainRun(None);
            var once := RecordAfter(pending, w, limit);
            once == RunRecord(Succeeded, Some("x"), None)
            && RecordAfter(once, w, limit) == Failure("agent_run.not_pending")
  {
    OneChunkSucceeds(limit);
    assert RunSucceeds(PlainRun(None), limit) && FinalText(PlainRun(None)) == "x";
    SucceedsIff(RunRecord(Pending, None, None), PlainRun(None), limit);
  }

  lemma ConsumeOne(w: CallWorld, limit: nat, text: string)
    requires w.chunks == [text] && text != "" && EncodedSize(text) <= limit && w.cancelAt == None
    ensures Consume(w, limit, 1).stop == AllRead && Concat(w.chunks) == text
  {
    assert Consume(w, limit, 0) == Intake([], 0, AllRead);
    assert w.chunks[..0] == [] && "" + text == text;
  }

  lemma {:induction false} OneTextSucceeds(w: CallWorld, limit: nat, text: string)
    requires w == CallWorld(None, None, true, true, [text], None, Finished, None, None)
    requires text != "" && Trimmed(text) && EncodedSize(text) <= limit
    ensures CallSucceeds(w, limit) && Strip(Concat(w.chunks)) == text
  {
    ConsumeOne(w, limit, text);
    StripKeeps(text);
  }

  lemma OneSize(c: char)
    requires c < '\U{0080}'
    ensures EncodedSize([c]) == 1
  {
    assert [c][..0] == "";
  }

  lemma {:induction false} OneChunkSucceeds(limit: nat)
    requires limit >= 1
    ensures CallSucceeds(OneChunk(), limit) && Strip(Concat(OneChunk().chunks)) == "x"
  {
    OneSize('x');
    OneTextSucceeds(OneChunk(), limit, "x");
  }

  // -------------------------------------------------------------------- step by step

  lemma {:induction false} ConsumeStops(w: CallWorld, limit: nat, n: nat, m: nat)
    requires n <= m <= |w.chunks| && Consume(w, limit, n).stop != AllRead
    ensures Consume(w, limit, m) == Consume(w, limit, n)
  {
    if n < m { ConsumeStops(w, limit, n, m - 1); }
  }

  class AgentRuntime {
    const limit: nat
    /** The frames this stream has handed out. */
    var frames: seq<Frame>
    var record: RunRecord

    constructor (limit: nat, record: RunRecord)
      ensures this.limit == limit && this.record == record && frames == []
    {
      this.limit, this.record, frames := limit, record, [];
    }

    /** The chunks of one call, until the stream ends or is stopped. */
    method ReadChunks(w: CallWorld, phase: Phase) returns (pieces: seq<string>, stop: Stop)
      modifies this`frames
      ensures var intake := Consume(w, limit, |w.chunks|); pieces == intake.pieces && stop == intake.stop
      ensures frames == old(frames) + ChunkFrames(phase, |old(frames)|, pieces)
    {
      pieces, stop := [], AllRead;
      var size: nat := 0;
      for i := 0 to |w.chunks|
        invariant Consume(w, limit, i) == Intake(pieces, size, AllRead)
        invariant frames == old(frames) + ChunkFrames(phase, |old(frames)|, pieces)
      {
        var text := w.chunks[i];
        if w.cancelAt.Some? && w.cancelAt.value <= i {
          ConsumeStops(w, limit, i + 1, |w.chunks|);
          return pieces, CancelSeen;
        }
        if text != "" {
          if size + EncodedSize(text) > limit {
            ConsumeStops(w, limit, i + 1, |w.chunks|);
            return pieces, TooLarge;
          }
          size := size + EncodedSize(text);
          pieces := pieces + [text];
          frames := frames + [Frame(|frames| + 1, Chunk(phase, text))];
        }
      }
      stop := AllRead;
    }

    method ReadAnswer(w: CallWorld, phase: Phase) returns (answer: CallEnd)
      modifies this`frames
      ensures answer == Answer(w, limit)
      ensures frames == old(frames) + ChunkFrames(phase, |old(frames)|, Streamed(w, limit))
    {
      if w.resolve.Some? {
        return Raised(w.resolve.value);
      }
      if !w.adapter {
        return NotProduced("model.adapter_unavailable");
      }
      if !w.secret {
        return NotProduced("model.credential_unavailable");
      }
      var pieces, stop := ReadChunks(w, phase);
      match stop
      case CancelSeen => answer := Raised(Cancelled);
      case TooLarge => answer := NotProduced("model.output_too_large");
      case AllRead => answer := StoreOutput(w, pieces);
    }

    method StreamCall(w: CallWorld, phase: Phase) returns (end: CallEnd)
      modifies this`frames
      ensures var result := Call(w, phase, limit, |old(frames)|);
              frames == old(frames) + result.frames && end == result.end
    {
      if w.setup.Some? {
        return Raised(w.setup.value);
      }
      frames := frames + [Frame(|frames| + 1, CallStarted(phase))];
      end := ReadAnswer(w, phase);
      if end.Raised? {
        return;
      }
      if w.closing.Some? {
        return Raised(w.closing.value);
      }
      if end.Produced? {
        frames := frames + [Frame(|frames| + 1, CallCompleted(phase))];
      } else {
        frames := frames + [Frame(|frames| + 1, CallError(phase, end.code))];
      }
    }

    method Run(w: RunWorld) returns (raised: Option<Raise>)
      modifies this
      ensures RunEnd(frames, record, raised) == StreamRun(old(record), w, limit)
    {
      frames := [];
      if w.enter.Some? {
        raised := Handle(w.enter.value, w.rescue);
        return;
      }
      if record.status != Pending {
        raised := Handle(Domain("agent_run.not_pending"), w.rescue);
        return;
      }
      record := record.(status := Running);
      if w.ready.Some? {
        raised := Handle(w.ready.value, w.rescue);
        return;
      }
      frames := frames + [Frame(|frames| + 1, RunStarted)];
      var verdict := Body(w);
      if verdict.Threw? {
        raised := Handle(verdict.raise, w.rescue);
      } else if w.finish.Some? {
        raised := Handle(w.finish.value, w.rescue);
      } else {
        record := RunRecord(verdict.status, verdict.output, verdict.error);
        frames := frames + [Frame(|frames| + 1, RunCompleted(record.status))];
        raised := None;
      }
    }

    method Body(w: RunWorld) returns (verdict: Verdict)
      requires frames == [Frame(1, RunStarted)]
      modifies this`frames
      ensures var body := Pipeline(w, limit); frames == body.frames && verdict == body.verdict
    {
      var first := StreamCall(w.p0, P0);
      match first
      case Raised(raise) => verdict := Threw(raise);
      case NotProduced(code) => verdict := Finish(Failed, None, Some(code));
      case Produced(draft) => verdict := ReviewAll(w, draft);
    }

    /** Both reviewers in turn, skipping the ones that are not assigned. */
    method ReviewAll(w: RunWorld, draft: string) returns (verdict: Verdict)
      modifies this`frames
      ensures var body := Reviewed(w, limit, old(frames), draft); frames == body.frames && verdict == body.verdict
    {
      var reviews: seq<CallEnd> := [];
      for k := 0 to 2
        invariant |reviews| == k && forall i :: 0 <= i < k ==> !reviews[i].Raised?
        invariant k == 0 ==> frames == old(frames)
        invariant k >= 1 ==>
                    var a := Review(w.a, w.reviewA, ReviewA, limit, |old(frames)|);
                    && reviews[0] == a.end
                    && (k == 1 ==> frames == old(frames) + a.frames)
                    && (k == 2 ==>
                          var b := Review(w.b, w.reviewB, ReviewB, limit, |old(frames) + a.frames|);
                          reviews[1] == b.end && frames == old(frames) + a.frames + b.frames)
      {
        var present, world, phase := if k == 0 then w.reviewA else w.reviewB, if k == 0 then w.a else w.b,
                                     if k == 0 then ReviewA else ReviewB;
        var end := Skipped;
        if present {
          end := StreamCall(world, phase);
          if end.Raised? {
            return Threw(end.raise);
          }
        }
        reviews := reviews + [end];
      }
      verdict := Reconcile(w, draft, reviews[0], reviews[1]);
    }

    method Reconcile(w: RunWorld, draft: string, a: CallEnd, b: CallEnd) returns (verdict: Verdict)
      requires !a.Raised? && !b.Raised?
      modifies this`frames
      ensures var body := Reconciled(w, limit, old(frames), draft, a, b); frames == body.frames && verdict == body.verdict
    {
      var failed := a.NotProduced? || b.NotProduced?;
      if w.formal && failed {
        return Finish(PartialFailure, Some(draft), Some("agent_run.reviewer_failed"));
      }
      var output := draft;
      if a.Produced? || b.Produced? {
        var last := StreamCall(w.p2r, P2R);
        if last.Raised? {
          return Threw(last.raise);
        }
        if last.NotProduced? {
          return Finish(PartialFailure, Some(draft), Some(last.code));
        }
        output := last.content;
      }
      verdict := Finish(if failed then PartialFailure else Succeeded, Some(output),
                        if failed then Some("agent_run.reviewer_failed") else None);
    }

    /** The except clauses. */
    method Handle(raise: Raise, rescue: Option<Raise>) returns (raised: Option<Raise>)
      modifies this
      ensures RunEnd(frames, record, raised) == Handled(old(record), old(frames), raise, rescue)
    {
      if rescue.Some? {
        return rescue;
      }
      if raise == Cancelled && Settled(record.status) {
        return Some(Cancelled);
      }
      match raise
      case Cancelled =>
        record := RunRecord(RunCancelled, None, Some("agent_run.cancelled"));
        raised := Some(Cancelled);
      case Crash =>
        record := RunRecord(Failed, None, Some("agent_run.internal_failure"));
        raised := Some(Crash);
      case Domain(code) =>
        record := RunRecord(Failed, None, Some(code));
        frames := frames + [Frame(|frames| + 1, RunError(code))];
        frames := frames + [Frame(|frames| + 1, RunCompleted(Failed))];
        raised := None;
    }
  }
}
