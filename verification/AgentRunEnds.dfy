/**
 How an agent run ends, said about what it meets and not about how it gets there: the first
 exception on its way, the code of each failed call, the record, and the text it streamed.
 */
module AgentRunEnds {
  import opened Wrappers
  import opened PythonText
  import opened AgentRun

  // --------------------------------------------------------------- sizes in UTF-8

  /** How many code points `bytes` bytes of UTF-8 reach: 7, 11, 16 and 21 bits of payload. */
  function Reach(bytes: nat): nat {
    match bytes
    case 0 => 0
    case 1 => 0x80
    case 2 => 0x800
    case 3 => 0x1_0000
    case _ => 0x20_0000
  }

  /** A character takes the fewest bytes that reach it. */
  lemma SizeIsLeast(c: char)
    ensures 1 <= CharSize(c) <= 4
    ensures Reach(CharSize(c) - 1) <= c as int < Reach(CharSize(c))
  {
  }

  /** A text takes what its characters take. */
  lemma SizeOfOne(c: char)
    ensures EncodedSize("") == 0 && EncodedSize([c]) == CharSize(c)
  {
    assert [c][..0] == "";
  }

  lemma {:induction false} SizeConcat(a: string, b: string)
    ensures EncodedSize(a + b) == EncodedSize(a) + EncodedSize(b)
  {
    if b == "" {
      assert a + b == a;
    } else {
      var n := |b| - 1;
      assert (a + b)[..|a + b| - 1] == a + b[..n] && (a + b)[|a + b| - 1] == b[n];
      SizeConcat(a, b[..n]);
    }
  }

  // ------------------------------------------------------------- how far a call reads

  /** The stream is read to its end: nothing cancels it and its text fits the limit. */
  predicate ReadsAll(w: CallWorld, limit: nat) {
    && (w.cancelAt.Some? ==> w.cancelAt.value >= |w.chunks|)
    && EncodedSize(Concat(w.chunks)) <= limit
  }

  /** A cancellation is seen at a chunk, before the text grew too large. */
  predicate SeesCancel(w: CallWorld, limit: nat) {
    && w.cancelAt.Some? && w.cancelAt.value < |w.chunks|
    && EncodedSize(Concat(w.chunks[..w.cancelAt.value])) <= limit
  }

  /** The bytes of the first `n` chunks. */
  function Sizes(chunks: seq<string>, n: nat): nat
    requires n <= |chunks|
  {
    if n == 0 then 0 else Sizes(chunks, n - 1) + EncodedSize(chunks[n - 1])
  }

  lemma {:induction false} SizesAre(chunks: seq<string>, n: nat)
    requires n <= |chunks|
    ensures Sizes(chunks, n) == EncodedSize(Concat(chunks[..n]))
  {
    if n == 0 {
      assert chunks[..0] == [];
    } else {
      SizesAre(chunks, n - 1);
      ConcatTaken(chunks, n - 1);
      SizeConcat(Concat(chunks[..n - 1]), chunks[n - 1]);
    }
  }

  lemma {:induction false} AllReadAfter(w: CallWorld, limit: nat, n: nat)
    requires n <= |w.chunks|
    ensures var intake := Consume(w, limit, n);
            && (intake.stop == AllRead
                <==> (w.cancelAt.Some? ==> w.cancelAt.value >= n) && Sizes(w.chunks, n) <= limit)
            && (intake.stop == AllRead ==> intake.size == Sizes(w.chunks, n))
  {
    if n > 0 { AllReadAfter(w, limit, n - 1); }
  }

  lemma {:induction false} CancelAfter(w: CallWorld, limit: nat, n: nat)
    requires n <= |w.chunks|
    ensures Consume(w, limit, n).stop == CancelSeen
            <==> && w.cancelAt.Some? && w.cancelAt.value < n && Sizes(w.chunks, w.cancelAt.value) <= limit
  {
    if n > 0 {
      CancelAfter(w, limit, n - 1);
      AllReadAfter(w, limit, n - 1);
    }
  }

  /** When the loop over the chunks stops, and why. */
  lemma {:induction false} StopMeans(w: CallWorld, limit: nat)
    ensures Consume(w, limit, |w.chunks|).stop == AllRead <==> ReadsAll(w, limit)
    ensures Consume(w, limit, |w.chunks|).stop == CancelSeen <==> SeesCancel(w, limit)
  {
    var n := |w.chunks|;
    assert w.chunks[..n] == w.chunks;
    SizesAre(w.chunks, n);
    AllReadAfter(w, limit, n);
    CancelAfter(w, limit, n);
    if w.cancelAt.Some? && w.cancelAt.value < n { SizesAre(w.chunks, w.cancelAt.value); }
  }

  // ------------------------------------------------------------------ how a call ends

  /** The stream was asked for and read to its end. */
  predicate Read(w: CallWorld, limit: nat) {
    w.adapter && w.secret && ReadsAll(w, limit)
  }

  /** What leaves a call as an exception; a domain error while the model is asked does not. */
  function CallRaises(w: CallWorld, limit: nat): Option<Raise> {
    if w.setup.Some? then w.setup
    else if w.resolve.Some? then w.resolve
    else if w.adapter && w.secret && SeesCancel(w, limit) then Some(Cancelled)
    else if Read(w, limit) && w.ending.Broke? && !w.ending.raise.Domain? then Some(w.ending.raise)
    else if && Read(w, limit) && w.ending == Finished && Strip(Concat(w.chunks)) != ""
            && w.store.Some? && !w.store.value.Domain?
    then w.store
    else w.closing
  }

  /** The code of a call that neither produced anything nor raised. */
  function CallCode(w: CallWorld, limit: nat): string {
    if !w.adapter then "model.adapter_unavailable"
    else if !w.secret then "model.credential_unavailable"
    else if !ReadsAll(w, limit) then "model.output_too_large"
    else match w.ending
      case Refused(code) => code
      case Broke(Domain(code)) => code
      case _ =>
        if Strip(Concat(w.chunks)) == "" then "model.output_empty"
        else match w.store
          case Some(Domain(code)) => code
          case _ => ""
  }

  function EndOf(w: CallWorld, limit: nat): CallEnd {
    match CallRaises(w, limit)
    case Some(raise) => Raised(raise)
    case None => if CallSucceeds(w, limit) then Produced(Strip(Concat(w.chunks))) else NotProduced(CallCode(w, limit))
  }

  lemma {:induction false} CallEndsAs(w: CallWorld, phase: Phase, limit: nat, start: nat)
    ensures Call(w, phase, limit, start).end == EndOf(w, limit)
  {
    StopMeans(w, limit);
    CallProducesIff(w, phase, limit, start);
    if Consume(w, limit, |w.chunks|).stop == AllRead {
      ConsumeConcat(w, limit, |w.chunks|);
      assert w.chunks[..|w.chunks|] == w.chunks;
    }
  }

  // ------------------------------------------------------------------- how a run ends

  predicate ReviewSucceeds(w: RunWorld, limit: nat) {
    (w.reviewA && CallSucceeds(w.a, limit)) || (w.reviewB && CallSucceeds(w.b, limit))
  }

  predicate ReviewFails(w: RunWorld, limit: nat) {
    (w.reviewA && !CallSucceeds(w.a, limit)) || (w.reviewB && !CallSucceeds(w.b, limit))
  }

  /** A reconciliation takes place: there is a review to reconcile and no formal failure. */
  predicate Reconciles(w: RunWorld, limit: nat) {
    ReviewSucceeds(w, limit) && !(w.formal && ReviewFails(w, limit))
  }

  function Or(first: Option<Raise>, second: Option<Raise>): Option<Raise> {
    if first.Some? then first else second
  }

  /** What the calls raise first, each call made only if the ones before it ended well enough. */
  function CallsRaise(w: RunWorld, limit: nat): Option<Raise> {
    if !CallSucceeds(w.p0, limit) then CallRaises(w.p0, limit)
    else
      Or(if w.reviewA then CallRaises(w.a, limit) else None,
         Or(if w.reviewB then CallRaises(w.b, limit) else None,
            if Reconciles(w, limit) then CallRaises(w.p2r, limit) else None))
  }

  /** The first exception on a pending run's way. */
  function FirstRaise(w: RunWorld, limit: nat): Option<Raise> {
    Or(w.enter, Or(w.ready, Or(CallsRaise(w, limit), w.finish)))
  }

  /** The record of a run on whose way nothing is raised. */
  function Result(w: RunWorld, limit: nat): RunRecord {
    var draft := Some(Strip(Concat(w.p0.chunks)));
    if !CallSucceeds(w.p0, limit) then RunRecord(Failed, None, Some(CallCode(w.p0, limit)))
    else if Reconciles(w, limit) && !CallSucceeds(w.p2r, limit) then
      RunRecord(PartialFailure, draft, Some(CallCode(w.p2r, limit)))
    else
      var output := if Reconciles(w, limit) then Some(Strip(Concat(w.p2r.chunks))) else draft;
      if ReviewFails(w, limit) then RunRecord(PartialFailure, output, Some("agent_run.reviewer_failed"))
      else RunRecord(Succeeded, output, None)
  }

  function VerdictOf(record: RunRecord): Verdict {
    Finish(record.status, record.output, record.error)
  }

  lemma {:induction false} ReconciledEndsAs(w: RunWorld, limit: nat, frames: seq<Frame>, draft: string, a: CallEnd, b: CallEnd)
    requires CallSucceeds(w.p0, limit) && draft == Strip(Concat(w.p0.chunks))
    requires a == if w.reviewA then EndOf(w.a, limit) else Skipped
    requires b == if w.reviewB then EndOf(w.b, limit) else Skipped
    requires !a.Raised? && !b.Raised?
    ensures var verdict := Reconciled(w, limit, frames, draft, a, b).verdict;
            match if Reconciles(w, limit) then CallRaises(w.p2r, limit) else None
            case Some(raise) => verdict == Threw(raise)
            case None => verdict == VerdictOf(Result(w, limit))
  {
    CallEndsAs(w.p2r, P2R, limit, |frames|);
    SuccessRaisesNothing(w.p2r, limit);
    SuccessRaisesNothing(w.a, limit);
    SuccessRaisesNothing(w.b, limit);
  }

  lemma {:induction false} SuccessRaisesNothing(w: CallWorld, limit: nat)
    ensures CallSucceeds(w, limit) ==> CallRaises(w, limit) == None
  {
    StopMeans(w, limit);
  }

  lemma {:induction false} ReviewEndsAs(w: CallWorld, present: bool, phase: Phase, limit: nat, start: nat)
    ensures Review(w, present, phase, limit, start).end == if present then EndOf(w, limit) else Skipped
  {
    CallEndsAs(w, phase, limit, start);
  }

  lemma {:induction false} ReviewedEndsAs(w: RunWorld, limit: nat, frames: seq<Frame>, draft: string)
    requires CallSucceeds(w.p0, limit) && draft == Strip(Concat(w.p0.chunks))
    ensures var verdict := Reviewed(w, limit, frames, draft).verdict;
            match CallsRaise(w, limit)
            case Some(raise) => verdict == Threw(raise)
            case None => verdict == VerdictOf(Result(w, limit))
  {
    var a := Review(w.a, w.reviewA, ReviewA, limit, |frames|);
    var reviewedA := frames + a.frames;
    var b := Review(w.b, w.reviewB, ReviewB, limit, |reviewedA|);
    ReviewEndsAs(w.a, w.reviewA, ReviewA, limit, |frames|);
    ReviewEndsAs(w.b, w.reviewB, ReviewB, limit, |reviewedA|);
    if !a.end.Raised? && !b.end.Raised? {
      ReconciledEndsAs(w, limit, reviewedA + b.frames, draft, a.end, b.end);
    }
  }

  lemma {:induction false} PipelineEndsAs(w: RunWorld, limit: nat)
    ensures var verdict := Pipeline(w, limit).verdict;
            match CallsRaise(w, limit)
            case Some(raise) => verdict == Threw(raise)
            case None => verdict == VerdictOf(Result(w, limit))
  {
    var first := Call(w.p0, P0, limit, 1);
    CallEndsAs(w.p0, P0, limit, 1);
    if CallSucceeds(w.p0, limit) {
      SuccessRaisesNothing(w.p0, limit);
      ReviewedEndsAs(w, limit, [Frame(1, RunStarted)] + first.frames, Strip(Concat(w.p0.chunks)));
    }
  }

  /** What a raise leaves when it can be recorded: the record, what is raised on, and the last frames. */
  ghost predicate EndedBy(end: RunEnd, raise: Raise) {
    match raise
    case Cancelled =>
      end.record == RunRecord(RunCancelled, None, Some("agent_run.cancelled")) && end.raised == Some(Cancelled)
    case Crash =>
      end.record == RunRecord(Failed, None, Some("agent_run.internal_failure")) && end.raised == Some(Crash)
    case Domain(code) =>
      && end.record == RunRecord(Failed, None, Some(code)) && end.raised == None
      && |end.frames| >= 2 && end.frames[|end.frames| - 2].kind == RunError(code)
  }

  lemma {:induction false} HandledAs(record: RunRecord, frames: seq<Frame>, raise: Raise, rescue: Option<Raise>)
    requires record.status == Pending || record.status == Running
    ensures var end := Handled(record, frames, raise, rescue);
            if rescue.Some? then end.record == record && end.raised == rescue else EndedBy(end, raise)
  {
  }

  /**
   How every pending run ends. If something is raised on its way, the first such exception decides
   the record, unless recording it fails; otherwise the calls do.
   */
  lemma {:induction false} RunEndsAs(record: RunRecord, w: RunWorld, limit: nat)
    requires record.status == Pending
    ensures var end := StreamRun(record, w, limit);
            match FirstRaise(w, limit)
            case None => end.record == Result(w, limit) && end.raised == None
            case Some(raise) =>
              if w.rescue.Some?
              then end.raised == w.rescue && end.record == if w.enter.Some? then record else record.(status := Running)
              else EndedBy(end, raise)
  {
    var running, body := record.(status := Running), Pipeline(w, limit);
    PipelineEndsAs(w, limit);
    if w.enter.Some? {
      HandledAs(record, [], w.enter.value, w.rescue);
    } else if w.ready.Some? {
      HandledAs(running, [], w.ready.value, w.rescue);
    } else if body.verdict.Threw? {
      HandledAs(running, body.frames, body.verdict.raise, w.rescue);
    } else if w.finish.Some? {
      HandledAs(running, body.frames, w.finish.value, w.rescue);
    }
  }
}
