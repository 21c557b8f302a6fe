/**
 What the frames of an agent run show: in which order they come, and for every call exactly the
 text that was kept of its stream.
 */
module AgentRunFrames {
  import opened Wrappers
  import opened PythonText
  import opened AgentRun
  import opened AgentRunEnds

  // ---------------------------------------------------------------- the order of frames

  function PhaseRank(phase: Phase): nat {
    match phase
    case P0 => 1
    case ReviewA => 4
    case ReviewB => 7
    case P2R => 10
  }

  /** The place of a frame in a run: the start, each call's start, chunks and end in turn, and the end of the run. */
  function Rank(kind: FrameKind): nat {
    match kind
    case RunStarted => 0
    case CallStarted(phase) => PhaseRank(phase)
    case Chunk(phase, _) => PhaseRank(phase) + 1
    case CallCompleted(phase) => PhaseRank(phase) + 2
    case CallError(phase, _) => PhaseRank(phase) + 2
    case RunError(_) => 13
    case RunCompleted(_) => 14
  }

  /** Ranks never fall, and only chunks share theirs. */
  ghost predicate InPlace(frames: seq<Frame>) {
    forall i, j :: 0 <= i < j < |frames| ==>
      Rank(frames[i].kind) < Rank(frames[j].kind)
      || (Rank(frames[i].kind) == Rank(frames[j].kind) && frames[i].kind.Chunk? && frames[j].kind.Chunk?)
  }

  ghost predicate Within(frames: seq<Frame>, low: nat, high: nat) {
    forall i :: 0 <= i < |frames| ==> low <= Rank(frames[i].kind) < high
  }

  lemma {:induction false} InPlaceConcat(a: seq<Frame>, b: seq<Frame>, low: nat, middle: nat, high: nat)
    requires InPlace(a) && InPlace(b) && Within(a, low, middle) && Within(b, middle, high) && low <= middle <= high
    ensures InPlace(a + b) && Within(a + b, low, high)
  {
  }

  lemma {:induction false} ChunksInPlace(phase: Phase, start: nat, pieces: seq<string>)
    ensures var frames := ChunkFrames(phase, start, pieces);
            InPlace(frames) && Within(frames, PhaseRank(phase) + 1, PhaseRank(phase) + 2)
  {
  }

  lemma {:induction false} OneInPlace(frame: Frame)
    ensures InPlace([frame]) && Within([frame], Rank(frame.kind), Rank(frame.kind) + 1)
  {
  }

  /** The start and the chunks of a call that was set up. */
  function Opening(w: CallWorld, phase: Phase, limit: nat, start: nat): seq<Frame> {
    [Frame(start + 1, CallStarted(phase))] + ChunkFrames(phase, start + 1, Streamed(w, limit))
  }

  ghost predicate Closes(frame: Frame, phase: Phase) {
    match frame.kind
    case CallCompleted(p) => p == phase
    case CallError(p, _) => p == phase
    case _ => false
  }

  lemma {:induction false} CallIs(w: CallWorld, phase: Phase, limit: nat, start: nat) returns (closing: Option<Frame>)
    requires w.setup.None?
    ensures Call(w, phase, limit, start).frames
            == Opening(w, phase, limit, start) + if closing.Some? then [closing.value] else []
    ensures closing.Some? ==> Closes(closing.value, phase)
  {
    var opening, frames := Opening(w, phase, limit, start), Call(w, phase, limit, start).frames;
    if frames == opening {
      closing := None;
      assert opening + [] == opening;
    } else {
      closing := Some(frames[|frames| - 1]);
    }
  }

  lemma {:induction false} OpeningInPlace(w: CallWorld, phase: Phase, limit: nat, start: nat)
    ensures var frames := Opening(w, phase, limit, start);
            InPlace(frames) && Within(frames, PhaseRank(phase), PhaseRank(phase) + 2)
  {
    var rank, opening := PhaseRank(phase), Frame(start + 1, CallStarted(phase));
    OneInPlace(opening);
    ChunksInPlace(phase, start + 1, Streamed(w, limit));
    InPlaceConcat([opening], ChunkFrames(phase, start + 1, Streamed(w, limit)), rank, rank + 1, rank + 2);
  }

  lemma {:induction false} ClosedInPlace(frames: seq<Frame>, closing: Option<Frame>, phase: Phase)
    requires InPlace(frames) && Within(frames, PhaseRank(phase), PhaseRank(phase) + 2)
    requires closing.Some? ==> Closes(closing.value, phase)
    ensures var all := frames + if closing.Some? then [closing.value] else [];
            InPlace(all) && Within(all, PhaseRank(phase), PhaseRank(phase) + 3)
  {
    var rank := PhaseRank(phase);
    if closing.Some? {
      OneInPlace(closing.value);
      InPlaceConcat(frames, [closing.value], rank, rank + 2, rank + 3);
    } else {
      assert frames + [] == frames;
    }
  }

  lemma {:induction false} CallInPlace(w: CallWorld, phase: Phase, limit: nat, start: nat)
    ensures var frames := Call(w, phase, limit, start).frames;
            InPlace(frames) && Within(frames, PhaseRank(phase), PhaseRank(phase) + 3)
  {
    if w.setup.None? {
      var closing := CallIs(w, phase, limit, start);
      OpeningInPlace(w, phase, limit, start);
      ClosedInPlace(Opening(w, phase, limit, start), closing, phase);
    }
  }

  /** A call that was set up starts with its start, and ends with its completion or its code unless it raised. */
  lemma {:induction false} CallFrames(w: CallWorld, phase: Phase, limit: nat, start: nat)
    ensures var frames := Call(w, phase, limit, start).frames;
            if w.setup.Some? then frames == []
            else
              && frames != [] && frames[0].kind == CallStarted(phase)
              && match EndOf(w, limit)
                 case Produced(_) => frames[|frames| - 1].kind == CallCompleted(phase)
                 case NotProduced(code) => frames[|frames| - 1].kind == CallError(phase, code)
                 case _ => !frames[|frames| - 1].kind.CallCompleted? && !frames[|frames| - 1].kind.CallError?
  {
    CallEndsAs(w, phase, limit, start);
  }

  lemma {:induction false} ReviewInPlace(w: CallWorld, present: bool, phase: Phase, limit: nat, start: nat)
    ensures var frames := Review(w, present, phase, limit, start).frames;
            InPlace(frames) && Within(frames, PhaseRank(phase), PhaseRank(phase) + 3)
  {
    CallInPlace(w, phase, limit, start);
  }

  lemma {:induction false} ReconciledInPlace(w: RunWorld, limit: nat, frames: seq<Frame>, draft: string, a: CallEnd, b: CallEnd)
    requires InPlace(frames) && Within(frames, 0, 10)
    ensures var after := Reconciled(w, limit, frames, draft, a, b).frames; InPlace(after) && Within(after, 0, 13)
  {
    CallInPlace(w.p2r, P2R, limit, |frames|);
    InPlaceConcat(frames, Call(w.p2r, P2R, limit, |frames|).frames, 0, 10, 13);
  }

  lemma {:induction false} ReviewsInPlace(w: RunWorld, limit: nat, frames: seq<Frame>, a: CallResult, b: CallResult)
    requires InPlace(frames) && Within(frames, 0, 4)
    requires a == Review(w.a, w.reviewA, ReviewA, limit, |frames|)
    requires b == Review(w.b, w.reviewB, ReviewB, limit, |frames + a.frames|)
    ensures InPlace(frames + a.frames) && Within(frames + a.frames, 0, 7)
    ensures InPlace(frames + a.frames + b.frames) && Within(frames + a.frames + b.frames, 0, 10)
  {
    ReviewInPlace(w.a, w.reviewA, ReviewA, limit, |frames|);
    InPlaceConcat(frames, a.frames, 0, 4, 7);
    ReviewInPlace(w.b, w.reviewB, ReviewB, limit, |frames + a.frames|);
    InPlaceConcat(frames + a.frames, b.frames, 0, 7, 10);
  }

  lemma {:induction false} WithinMore(frames: seq<Frame>, low: nat, high: nat, top: nat)
    requires Within(frames, low, high) && high <= top
    ensures Within(frames, low, top)
  {
  }

  lemma {:induction false} ReviewedInPlace(w: RunWorld, limit: nat, frames: seq<Frame>, draft: string)
    requires InPlace(frames) && Within(frames, 0, 4)
    ensures var after := Reviewed(w, limit, frames, draft).frames; InPlace(after) && Within(after, 0, 13)
  {
    var a := Review(w.a, w.reviewA, ReviewA, limit, |frames|);
    var b := Review(w.b, w.reviewB, ReviewB, limit, |frames + a.frames|);
    ReviewedFrames(w, limit, frames, draft, a, b);
    ReviewsInPlace(w, limit, frames, a, b);
    WithinMore(frames + a.frames, 0, 7, 13);
    WithinMore(frames + a.frames + b.frames, 0, 10, 13);
    ReconciledInPlace(w, limit, frames + a.frames + b.frames, draft, a.end, b.end);
  }

  lemma {:induction false} PipelineInPlace(w: RunWorld, limit: nat)
    ensures InPlace(Pipeline(w, limit).frames) && Within(Pipeline(w, limit).frames, 0, 13)
  {
    var started := [Frame(1, RunStarted)];
    var first := Call(w.p0, P0, limit, 1);
    OneInPlace(started[0]);
    CallInPlace(w.p0, P0, limit, 1);
    InPlaceConcat(started, first.frames, 0, 1, 4);
    if first.end.Produced? { ReviewedInPlace(w, limit, started + first.frames, first.end.content); }
  }

  lemma {:induction false} HandledInPlace(record: RunRecord, frames: seq<Frame>, raise: Raise, rescue: Option<Raise>)
    requires InPlace(frames) && Within(frames, 0, 13)
    ensures InPlace(Handled(record, frames, raise, rescue).frames)
  {
  }

  lemma {:induction false} EndedInPlace(running: RunRecord, body: Body, w: RunWorld)
    requires InPlace(body.frames) && Within(body.frames, 0, 13)
    ensures InPlace(Ended(running, body, w).frames)
  {
    match body.verdict
    case Threw(raise) => HandledInPlace(running, body.frames, raise, w.rescue);
    case Finish(_, _, _) => if w.finish.Some? { HandledInPlace(running, body.frames, w.finish.value, w.rescue); }
  }

  /** The frames of every run come in the order of the pipeline. */
  lemma {:induction false} RunInPlace(record: RunRecord, w: RunWorld, limit: nat)
    ensures InPlace(StreamRun(record, w, limit).frames)
  {
    PipelineInPlace(w, limit);
    if w.enter.Some? {
      HandledInPlace(record, [], w.enter.value, w.rescue);
    } else if record.status != Pending {
      HandledInPlace(record, [], Domain("agent_run.not_pending"), w.rescue);
    } else if w.ready.Some? {
      HandledInPlace(record.(status := Running), [], w.ready.value, w.rescue);
    } else {
      EndedInPlace(record.(status := Running), Pipeline(w, limit), w);
    }
  }

  // ------------------------------------------------------------------ the streamed text

  function TextOf(frame: Frame, phase: Phase): string {
    if frame.kind.Chunk? && frame.kind.phase == phase then frame.kind.text else ""
  }

  /** The text a reader of the frames puts together for one phase. */
  function Shown(frames: seq<Frame>, phase: Phase): string {
    if frames == [] then "" else Shown(frames[..|frames| - 1], phase) + TextOf(frames[|frames| - 1], phase)
  }

  lemma {:induction false} ShownMore(frames: seq<Frame>, frame: Frame, phase: Phase)
    ensures Shown(frames + [frame], phase) == Shown(frames, phase) + TextOf(frame, phase)
  {
    assert (frames + [frame])[..|frames|] == frames;
  }

  lemma Regrouped<T>(a: seq<T>, b: seq<T>, c: seq<T>)
    ensures a + (b + c) == (a + b) + c
  {
  }

  lemma {:induction false} ShownConcat(a: seq<Frame>, b: seq<Frame>, phase: Phase)
    ensures Shown(a + b, phase) == Shown(a, phase) + Shown(b, phase)
  {
    if b == [] {
      assert a + b == a;
    } else {
      var front, last := b[..|b| - 1], b[|b| - 1];
      assert b == front + [last];
      ShownConcat(a, front, phase);
      ShownMore(a + front, last, phase);
      ShownMore(front, last, phase);
      Regrouped(a, front, [last]);
      Regrouped(Shown(a, phase), Shown(front, phase), TextOf(last, phase));
    }
  }

  lemma {:induction false} ChunksMore(phase: Phase, start: nat, pieces: seq<string>, piece: string)
    ensures ChunkFrames(phase, start, pieces + [piece])
            == ChunkFrames(phase, start, pieces) + [Frame(start + 1 + |pieces|, Chunk(phase, piece))]
  {
  }

  lemma {:induction false} ChunksShow(phase: Phase, start: nat, pieces: seq<string>, shown: Phase)
    ensures Shown(ChunkFrames(phase, start, pieces), shown) == if shown == phase then Concat(pieces) else ""
  {
    if pieces != [] {
      var front, piece := pieces[..|pieces| - 1], pieces[|pieces| - 1];
      assert pieces == front + [piece];
      ChunksShow(phase, start, front, shown);
      ChunksMore(phase, start, front, piece);
      ShownMore(ChunkFrames(phase, start, front), Frame(start + 1 + |front|, Chunk(phase, piece)), shown);
      ConcatMore(front, piece);
    }
  }

  lemma {:induction false} OneShown(frame: Frame, phase: Phase)
    ensures Shown([frame], phase) == TextOf(frame, phase)
  {
    assert [frame][..0] == [];
  }

  lemma {:induction false} OpeningShows(w: CallWorld, phase: Phase, limit: nat, start: nat, shown: Phase)
    ensures Shown(Opening(w, phase, limit, start), shown) == if shown == phase then Concat(Streamed(w, limit)) else ""
  {
    var opening, pieces := Frame(start + 1, CallStarted(phase)), Streamed(w, limit);
    ChunksShow(phase, start + 1, pieces, shown);
    OneShown(opening, shown);
    ShownConcat([opening], ChunkFrames(phase, start + 1, pieces), shown);
  }

  /** A call shows what was kept of its stream, and nothing of any other phase. */
  lemma {:induction false} CallShows(w: CallWorld, phase: Phase, limit: nat, start: nat, shown: Phase)
    ensures Shown(Call(w, phase, limit, start).frames, shown)
            == if shown == phase && w.setup.None? then Concat(Streamed(w, limit)) else ""
  {
    if w.setup.None? {
      var closing := CallIs(w, phase, limit, start);
      var opening := Opening(w, phase, limit, start);
      OpeningShows(w, phase, limit, start, shown);
      if closing.Some? { ShownMore(opening, closing.value, shown); } else { assert opening + [] == opening; }
    }
  }

  function WorldOf(w: RunWorld, phase: Phase): CallWorld {
    match phase
    case P0 => w.p0
    case ReviewA => w.a
    case ReviewB => w.b
    case P2R => w.p2r
  }

  /** A pending run gets as far as this call. */
  predicate Makes(w: RunWorld, limit: nat, phase: Phase) {
    && w.enter.None? && w.ready.None?
    && match phase
       case P0 => true
       case ReviewA => CallSucceeds(w.p0, limit) && w.reviewA
       case ReviewB => CallSucceeds(w.p0, limit) && w.reviewB && (w.reviewA ==> CallRaises(w.a, limit) == None)
       case P2R =>
         && CallSucceeds(w.p0, limit) && Reconciles(w, limit)
         && (w.reviewA ==> CallRaises(w.a, limit) == None) && (w.reviewB ==> CallRaises(w.b, limit) == None)
  }

  function ShownOf(w: CallWorld, limit: nat): string {
    if w.setup.None? then Concat(Streamed(w, limit)) else ""
  }

  /** The reconciliation is reached with these ends of the reviews. */
  predicate GoesOn(formal: bool, a: CallEnd, b: CallEnd) {
    && !a.Raised? && !b.Raised? && (a.Produced? || b.Produced?)
    && !(formal && (a.NotProduced? || b.NotProduced?))
  }

  lemma {:induction false} ReconciledShows(w: RunWorld, limit: nat, frames: seq<Frame>, draft: string, a: CallEnd, b: CallEnd,
                                           shown: Phase)
    requires !a.Raised? && !b.Raised?
    ensures Shown(Reconciled(w, limit, frames, draft, a, b).frames, shown)
            == Shown(frames, shown) + if shown == P2R && GoesOn(w.formal, a, b) then ShownOf(w.p2r, limit) else ""
  {
    CallShows(w.p2r, P2R, limit, |frames|, shown);
    ShownConcat(frames, Call(w.p2r, P2R, limit, |frames|).frames, shown);
  }

  lemma {:induction false} ReviewShows(w: CallWorld, present: bool, phase: Phase, limit: nat, start: nat, shown: Phase)
    ensures Shown(Review(w, present, phase, limit, start).frames, shown)
            == if shown == phase && present then ShownOf(w, limit) else ""
  {
    CallShows(w, phase, limit, start, shown);
  }

  function ReviewEnd(w: CallWorld, present: bool, limit: nat): CallEnd {
    if present then EndOf(w, limit) else Skipped
  }

  /** The calls after a draft, with the ends of the reviews given. */
  predicate Follows(w: RunWorld, a: CallEnd, b: CallEnd, phase: Phase) {
    match phase
    case P0 => false
    case ReviewA => w.reviewA
    case ReviewB => w.reviewB && !a.Raised?
    case P2R => GoesOn(w.formal, a, b)
  }

  lemma {:induction false} ReviewedFrames(w: RunWorld, limit: nat, frames: seq<Frame>, draft: string,
                                          first: CallResult, second: CallResult)
    requires first == Review(w.a, w.reviewA, ReviewA, limit, |frames|)
    requires second == Review(w.b, w.reviewB, ReviewB, limit, |frames + first.frames|)
    ensures Reviewed(w, limit, frames, draft).frames
            == if first.end.Raised? then frames + first.frames
               else if second.end.Raised? then frames + first.frames + second.frames
               else Reconciled(w, limit, frames + first.frames + second.frames, draft, first.end, second.end).frames
  {
  }

  lemma {:induction false} ShownBehind(frames: seq<Frame>, first: seq<Frame>, second: seq<Frame>, shown: Phase)
    ensures Shown(frames + first, shown) == Shown(frames, shown) + Shown(first, shown)
    ensures Shown(frames + first + second, shown) == Shown(frames, shown) + Shown(first, shown) + Shown(second, shown)
  {
    ShownConcat(frames, first, shown);
    ShownConcat(frames + first, second, shown);
  }

  /** Of three texts one after the other at most one is not empty. */
  lemma Only(all: string, a: string, b: string, c: string)
    ensures all + "" + "" + c == all + c && all + "" + b + "" == all + b && all + a + "" + "" == all + a
    ensures all + "" + b == all + b && all + a + "" == all + a && all + "" == all
  {
  }

  lemma {:induction false} ReviewedTexts(w: RunWorld, limit: nat, frames: seq<Frame>, draft: string,
                                         first: CallResult, second: CallResult, shown: Phase)
    requires Shown(first.frames, shown) == if shown == ReviewA && w.reviewA then ShownOf(w.a, limit) else ""
    requires Shown(second.frames, shown) == if shown == ReviewB && w.reviewB then ShownOf(w.b, limit) else ""
    ensures Shown(if first.end.Raised? then frames + first.frames
                  else if second.end.Raised? then frames + first.frames + second.frames
                  else Reconciled(w, limit, frames + first.frames + second.frames, draft, first.end, second.end).frames, shown)
            == Shown(frames, shown)
               + if Follows(w, first.end, second.end, shown) then ShownOf(WorldOf(w, shown), limit) else ""
  {
    var a, b := Shown(first.frames, shown), Shown(second.frames, shown);
    ShownBehind(frames, first.frames, second.frames, shown);
    Only(Shown(frames, shown), a, b, ShownOf(w.p2r, limit));
    if !first.end.Raised? && !second.end.Raised? {
      ReconciledShows(w, limit, frames + first.frames + second.frames, draft, first.end, second.end, shown);
    }
  }

  lemma {:induction false} ReviewedShowsAs(w: RunWorld, limit: nat, frames: seq<Frame>, draft: string, a: CallEnd, b: CallEnd,
                                           shown: Phase)
    requires var started := |frames + Review(w.a, w.reviewA, ReviewA, limit, |frames|).frames|;
             && a == Review(w.a, w.reviewA, ReviewA, limit, |frames|).end
             && b == Review(w.b, w.reviewB, ReviewB, limit, started).end
    ensures Shown(Reviewed(w, limit, frames, draft).frames, shown)
            == Shown(frames, shown) + if Follows(w, a, b, shown) then ShownOf(WorldOf(w, shown), limit) else ""
  {
    var first := Review(w.a, w.reviewA, ReviewA, limit, |frames|);
    var second := Review(w.b, w.reviewB, ReviewB, limit, |frames + first.frames|);
    ReviewShows(w.a, w.reviewA, ReviewA, limit, |frames|, shown);
    ReviewShows(w.b, w.reviewB, ReviewB, limit, |frames + first.frames|, shown);
    ReviewedFrames(w, limit, frames, draft, first, second);
    ReviewedTexts(w, limit, frames, draft, first, second, shown);
  }

  lemma {:induction false} FollowsIff(w: RunWorld, limit: nat, phase: Phase)
    requires w.enter.None? && w.ready.None? && CallSucceeds(w.p0, limit) && phase != P0
    ensures Makes(w, limit, phase)
            <==> Follows(w, ReviewEnd(w.a, w.reviewA, limit), ReviewEnd(w.b, w.reviewB, limit), phase)
  {
    SuccessRaisesNothing(w.a, limit);
    SuccessRaisesNothing(w.b, limit);
  }

  lemma {:induction false} ReviewedShows(w: RunWorld, limit: nat, frames: seq<Frame>, draft: string, shown: Phase)
    requires w.enter.None? && w.ready.None? && CallSucceeds(w.p0, limit)
    ensures Shown(Reviewed(w, limit, frames, draft).frames, shown)
            == Shown(frames, shown)
               + if shown != P0 && Makes(w, limit, shown) then ShownOf(WorldOf(w, shown), limit) else ""
  {
    var reviewedA := frames + Review(w.a, w.reviewA, ReviewA, limit, |frames|).frames;
    ReviewEndsAs(w.a, w.reviewA, ReviewA, limit, |frames|);
    ReviewEndsAs(w.b, w.reviewB, ReviewB, limit, |reviewedA|);
    if shown != P0 { FollowsIff(w, limit, shown); }
    ReviewedShowsAs(w, limit, frames, draft, ReviewEnd(w.a, w.reviewA, limit), ReviewEnd(w.b, w.reviewB, limit), shown);
  }

  lemma {:induction false} DraftShows(w: RunWorld, limit: nat, shown: Phase)
    ensures Shown([Frame(1, RunStarted)] + Call(w.p0, P0, limit, 1).frames, shown)
            == if shown == P0 then ShownOf(w.p0, limit) else ""
  {
    var started, first := Frame(1, RunStarted), Call(w.p0, P0, limit, 1);
    CallShows(w.p0, P0, limit, 1, shown);
    OneShown(started, shown);
    ShownConcat([started], first.frames, shown);
  }

  lemma {:induction false} PipelineShows(w: RunWorld, limit: nat, shown: Phase)
    requires w.enter.None? && w.ready.None?
    ensures Shown(Pipeline(w, limit).frames, shown)
            == if Makes(w, limit, shown) then ShownOf(WorldOf(w, shown), limit) else ""
  {
    var first := Call(w.p0, P0, limit, 1);
    CallProducesIff(w.p0, P0, limit, 1);
    DraftShows(w, limit, shown);
    if first.end.Produced? {
      ReviewedShows(w, limit, [Frame(1, RunStarted)] + first.frames, first.end.content, shown);
    }
  }

  lemma {:induction false} HandledShows(record: RunRecord, frames: seq<Frame>, raise: Raise, rescue: Option<Raise>, shown: Phase)
    ensures Shown(Handled(record, frames, raise, rescue).frames, shown) == Shown(frames, shown)
  {
    if raise.Domain? {
      var n := |frames|;
      var failed, ended := Frame(n + 1, RunError(raise.code)), Frame(n + 2, RunCompleted(Failed));
      ShownMore(frames, failed, shown);
      ShownMore(frames + [failed], ended, shown);
      assert frames + [failed, ended] == (frames + [failed]) + [ended];
    }
  }

  lemma {:induction false} EndedShows(running: RunRecord, body: Body, w: RunWorld, shown: Phase)
    ensures Shown(Ended(running, body, w).frames, shown) == Shown(body.frames, shown)
  {
    match body.verdict
    case Threw(raise) => HandledShows(running, body.frames, raise, w.rescue, shown);
    case Finish(status, _, _) =>
      if w.finish.Some? {
        HandledShows(running, body.frames, w.finish.value, w.rescue, shown);
      } else {
        ShownMore(body.frames, Frame(|body.frames| + 1, RunCompleted(status)), shown);
      }
  }

  /** However a pending run ends, its frames show what was kept of every call it made, and nothing else. */
  lemma {:induction false} RunShows(record: RunRecord, w: RunWorld, limit: nat, shown: Phase)
    requires record.status == Pending
    ensures Shown(StreamRun(record, w, limit).frames, shown)
            == if Makes(w, limit, shown) then ShownOf(WorldOf(w, shown), limit) else ""
  {
    var running := record.(status := Running);
    if w.enter.Some? {
      HandledShows(record, [], w.enter.value, w.rescue, shown);
    } else if w.ready.Some? {
      HandledShows(running, [], w.ready.value, w.rescue, shown);
    } else {
      PipelineShows(w, limit, shown);
      EndedShows(running, Pipeline(w, limit), w, shown);
    }
  }

  // --------------------------------------------------- what is kept of a stream

  lemma {:induction false} KeptAfter(w: CallWorld, limit: nat, n: nat)
    requires n <= |w.chunks|
    ensures Concat(Consume(w, limit, n).pieces) <= Concat(w.chunks[..n])
  {
    if n == 0 {
      assert w.chunks[..0] == [];
    } else if Consume(w, limit, n).stop == AllRead {
      ConsumeConcat(w, limit, n);
    } else {
      KeptAfter(w, limit, n - 1);
      ConcatTaken(w.chunks, n - 1);
      assert Consume(w, limit, n).pieces == Consume(w, limit, n - 1).pieces;
    }
  }

  /** It is a prefix of the stream's text within the limit, and all of it when it was read to the end. */
  lemma {:induction false} KeptIs(w: CallWorld, limit: nat)
    ensures ShownOf(w, limit) <= Concat(w.chunks) && EncodedSize(ShownOf(w, limit)) <= limit
    ensures w.setup.None? && w.resolve.None? && Read(w, limit) ==> ShownOf(w, limit) == Concat(w.chunks)
  {
    var n := |w.chunks|;
    assert w.chunks[..n] == w.chunks;
    KeptAfter(w, limit, n);
    KeptFits(w, limit, n);
    StopMeans(w, limit);
    if Consume(w, limit, n).stop == AllRead { ConsumeConcat(w, limit, n); }
  }

  lemma {:induction false} KeptStep(w: CallWorld, limit: nat, n: nat)
    requires 0 < n <= |w.chunks| && Consume(w, limit, n - 1).size <= limit
    ensures var before, now, chunk := Consume(w, limit, n - 1), Consume(w, limit, n), w.chunks[n - 1];
            || (now.pieces == before.pieces && now.size == before.size)
            || (now.pieces == before.pieces + [chunk] && now.size == before.size + EncodedSize(chunk) <= limit)
  {
  }

  lemma {:induction false} KeptFits(w: CallWorld, limit: nat, n: nat)
    requires n <= |w.chunks|
    ensures EncodedSize(Concat(Consume(w, limit, n).pieces)) == Consume(w, limit, n).size <= limit
  {
    if n > 0 {
      var before, chunk := Consume(w, limit, n - 1), w.chunks[n - 1];
      KeptFits(w, limit, n - 1);
      KeptStep(w, limit, n);
      ConcatMore(before.pieces, chunk);
      SizeConcat(Concat(before.pieces), chunk);
    }
  }

  lemma {:induction false} SuccessShowsAll(w: CallWorld, limit: nat)
    requires CallSucceeds(w, limit)
    ensures ShownOf(w, limit) == Concat(w.chunks)
  {
    StopMeans(w, limit);
    KeptIs(w, limit);
  }

  lemma {:induction false} SuccessMakes(w: RunWorld, limit: nat, last: Phase)
    requires RunSucceeds(w, limit) && last == if w.reviewA || w.reviewB then P2R else P0
    ensures Makes(w, limit, last) && CallSucceeds(WorldOf(w, last), limit)
  {
    SuccessRaisesNothing(w.a, limit);
    SuccessRaisesNothing(w.b, limit);
  }

  /** The loop over the chunks gets this far: to the end, to the cancellation, or to the chunk that is too much. */
  ghost predicate ReadsTo(w: CallWorld, limit: nat, m: nat) {
    && m <= |w.chunks| && (w.cancelAt.Some? ==> m <= w.cancelAt.value) && Sizes(w.chunks, m) <= limit
    && (m < |w.chunks| && (w.cancelAt.Some? ==> m < w.cancelAt.value) ==> Sizes(w.chunks, m + 1) > limit)
  }

  lemma {:induction false} SizesGrow(chunks: seq<string>, m: nat, n: nat)
    requires m <= n <= |chunks|
    ensures Sizes(chunks, m) <= Sizes(chunks, n)
  {
    if m < n { SizesGrow(chunks, m, n - 1); }
  }

  lemma {:induction false} KeptBehind(w: CallWorld, limit: nat, m: nat, n: nat)
    requires ReadsTo(w, limit, m) && m <= n <= |w.chunks|
    ensures Consume(w, limit, n).pieces == Consume(w, limit, m).pieces
  {
    if m < n {
      KeptBehind(w, limit, m, n - 1);
      AllReadAfter(w, limit, n - 1);
      if n - 1 > m { SizesGrow(w.chunks, m + 1, n - 1); }
    }
  }

  lemma {:induction false} ReadsSomewhere(w: CallWorld, limit: nat, n: nat) returns (m: nat)
    requires n <= |w.chunks| && Sizes(w.chunks, n) <= limit && (w.cancelAt.Some? ==> n <= w.cancelAt.value)
    ensures ReadsTo(w, limit, m)
    decreases |w.chunks| - n
  {
    if n < |w.chunks| && (w.cancelAt.Some? ==> n < w.cancelAt.value) && Sizes(w.chunks, n + 1) <= limit {
      m := ReadsSomewhere(w, limit, n + 1);
    } else {
      m := n;
    }
  }

  /** Exactly the text of the chunks the loop gets past is kept, and nothing of a stream that was never asked for. */
  lemma {:induction false} KeptExactly(w: CallWorld, limit: nat) returns (m: nat)
    ensures ReadsTo(w, limit, m)
    ensures ShownOf(w, limit)
            == if w.setup.None? && w.resolve.None? && w.adapter && w.secret then Concat(w.chunks[..m]) else ""
  {
    m := ReadsSomewhere(w, limit, 0);
    KeptBehind(w, limit, m, |w.chunks|);
    AllReadAfter(w, limit, m);
    ConsumeConcat(w, limit, m);
  }

  /** The output of a run that succeeds is the text its last call streamed, trimmed. */
  lemma {:induction false} OutputWasStreamed(record: RunRecord, w: RunWorld, limit: nat)
    requires record.status == Pending && StreamRun(record, w, limit).record.status == Succeeded
    ensures var end := StreamRun(record, w, limit);
            end.record.output == Some(Strip(Shown(end.frames, if w.reviewA || w.reviewB then P2R else P0)))
  {
    var last := if w.reviewA || w.reviewB then P2R else P0;
    SucceedsIff(record, w, limit);
    RunShows(record, w, limit, last);
    SuccessMakes(w, limit, last);
    SuccessShowsAll(WorldOf(w, last), limit);
  }
}
