/**
 One websocket session of the server: subscribe first, replay the log in bounded
 pages, then relay the live queue.  A moving cursor drops whatever is not above it.
 */
module EventSocket {
  import opened EventLog

  datatype Phase =
    | Connecting
    | Replaying(batch: seq<Event>, complete: bool)
    | Live
    | Gone

  /**
   A session and the wire to its client.  `cursor` is the server's last event id,
   `wire` what was sent and has not arrived, `delivered` the last id that arrived.
   `floor` is the newest published id of the workflow when the session subscribed.
   */
  datatype Link = Link(
    workflow: string,
    cursor: int,
    phase: Phase,
    delivered: int,
    wire: seq<Event>,
    floor: int)

  function Open(workflow: string, after: int): Link {
    Link(workflow, after, Connecting, after, [], 0)
  }

  function Send(l: Link, e: Event): Link {
    if e.id <= l.cursor then l else l.(cursor := e.id, wire := l.wire + [e])
  }

  /** One page read; a page shorter than the limit is the last. */
  function Fetch(l: Link, log: seq<Event>, limit: nat): Link {
    var page := ListAfter(log, l.workflow, l.cursor, limit);
    l.(phase := Replaying(page, |page| < limit))
  }

  /** What a cursor makes of a queue, and where it ends. */
  function Drain(cursor: int, queue: seq<Event>): seq<Event>
    decreases |queue|
  {
    if queue == [] then []
    else if queue[0].id > cursor then [queue[0]] + Drain(queue[0].id, queue[1..])
    else Drain(cursor, queue[1..])
  }

  function End(cursor: int, queue: seq<Event>): int
    decreases |queue|
  {
    if queue == [] then cursor
    else End(if queue[0].id > cursor then queue[0].id else cursor, queue[1..])
  }

  lemma {:induction false} DrainAppend(cursor: int, queue: seq<Event>, e: Event)
    ensures Drain(cursor, queue + [e]) == Drain(cursor, queue) + (if e.id > End(cursor, queue) then [e] else [])
    decreases |queue|
  {
    if queue == [] {
      assert queue + [e] == [e];
      assert [e][1..] == [];
    } else {
      assert (queue + [e])[1..] == queue[1..] + [e];
      DrainAppend(if queue[0].id > cursor then queue[0].id else cursor, queue[1..], e);
    }
  }

  lemma {:induction false} EndBounds(cursor: int, queue: seq<Event>)
    ensures End(cursor, queue) >= cursor
    ensures End(cursor, queue) == cursor || exists e :: e in Drain(cursor, queue) && e.id == End(cursor, queue)
    ensures forall e :: e in queue ==> e.id <= End(cursor, queue)
    ensures forall e :: e in Drain(cursor, queue) ==> e in queue && e.id > cursor
    decreases |queue|
  {
    if queue != [] {
      var next := if queue[0].id > cursor then queue[0].id else cursor;
      EndBounds(next, queue[1..]);
      assert queue == [queue[0]] + queue[1..];
      if queue[0].id > cursor {
        assert queue[0] in Drain(cursor, queue);
        assert forall e :: e in Drain(next, queue[1..]) ==> e in Drain(cursor, queue);
      }
    }
  }

  /** The first time each id appears, it exceeds everything before it (above the cursor). */
  ghost predicate FirstsIncrease(cursor: int, queue: seq<Event>) {
    forall j :: 0 <= j < |queue| && queue[j].id > cursor && FirstAt(queue, j) ==>
      forall i :: 0 <= i < j ==> queue[i].id < queue[j].id
  }

  ghost predicate FirstAt(queue: seq<Event>, j: nat)
    requires j < |queue|
  {
    forall i :: 0 <= i < j ==> queue[i].id != queue[j].id
  }

  ghost predicate LosesNothing(cursor: int, queue: seq<Event>) {
    forall e :: e in queue && e.id > cursor ==> exists d :: d in Drain(cursor, queue) && d.id == e.id
  }

  lemma {:induction false} FirstsIncreaseOn(cursor: int, front: seq<Event>, x: Event)
    requires FirstsIncrease(cursor, front)
    requires x.id > cursor && FirstAt(front + [x], |front|) ==> forall i :: 0 <= i < |front| ==> front[i].id < x.id
    ensures FirstsIncrease(cursor, front + [x])
  {
    var all := front + [x];
    forall j | 0 <= j < |front| && all[j].id > cursor && FirstAt(all, j)
      ensures forall i :: 0 <= i < j ==> all[i].id < all[j].id
    {
      assert forall i :: 0 <= i <= j ==> all[i] == front[i];
      assert FirstAt(front, j);
    }
  }

  lemma {:induction false} LosesNothingOnlyIf(cursor: int, queue: seq<Event>)
    requires LosesNothing(cursor, queue)
    ensures FirstsIncrease(cursor, queue)
    decreases |queue|
  {
    if queue != [] {
      var n := |queue| - 1;
      var front, x := queue[..n], queue[n];
      assert queue == front + [x];
      FrontLosesNothing(cursor, front, x);
      LosesNothingOnlyIf(cursor, front);
      if x.id > cursor && FirstAt(front + [x], n) { FirstIsNewest(cursor, front, x); }
      FirstsIncreaseOn(cursor, front, x);
    }
  }

  lemma FirstIsNewest(cursor: int, front: seq<Event>, x: Event)
    requires LosesNothing(cursor, front + [x])
    requires x.id > cursor && FirstAt(front + [x], |front|)
    ensures forall i :: 0 <= i < |front| ==> front[i].id < x.id
  {
    DrainAppend(cursor, front, x);
    EndBounds(cursor, front);
    var all := front + [x];
    assert x in all;
    var d :| d in Drain(cursor, all) && d.id == x.id;
    assert forall i :: 0 <= i < |front| ==> all[i] == front[i];
    assert d !in front;
    assert x.id > End(cursor, front);
    forall i | 0 <= i < |front| ensures front[i].id < x.id {
      assert front[i] in front;
    }
  }

  lemma FrontFirstsIncrease(cursor: int, front: seq<Event>, x: Event)
    requires FirstsIncrease(cursor, front + [x])
    ensures FirstsIncrease(cursor, front)
  {
    var all := front + [x];
    forall j | 0 <= j < |front| && front[j].id > cursor && FirstAt(front, j)
      ensures forall i :: 0 <= i < j ==> front[i].id < front[j].id
    {
      assert forall i :: 0 <= i <= j ==> all[i] == front[i];
      assert FirstAt(all, j);
      forall i | 0 <= i < j ensures front[i].id < front[j].id {
        assert all[i].id < all[j].id;
      }
    }
  }

  lemma NewestIsDrained(cursor: int, front: seq<Event>, x: Event)
    requires FirstsIncrease(cursor, front + [x])
    requires x.id > cursor && FirstAt(front + [x], |front|)
    ensures x in Drain(cursor, front + [x])
  {
    DrainAppend(cursor, front, x);
    EndBounds(cursor, front);
    var all := front + [x];
    assert all[|front|] == x;
    assert forall i :: 0 <= i < |front| ==> front[i] == all[i] && all[i].id < x.id;
  }

  lemma StillDrained(cursor: int, front: seq<Event>, x: Event, e: Event)
    requires FirstsIncrease(cursor, front + [x]) && LosesNothing(cursor, front)
    requires e in front + [x] && e.id > cursor
    ensures exists d :: d in Drain(cursor, front + [x]) && d.id == e.id
  {
    DrainAppend(cursor, front, x);
    if e !in front && FirstAt(front + [x], |front|) {
      NewestIsDrained(cursor, front, x);
    } else {
      var i :| 0 <= i < |front| && front[i].id == e.id;
      assert front[i] in front;
      var d :| d in Drain(cursor, front) && d.id == e.id;
      assert d in Drain(cursor, front + [x]);
    }
  }

  lemma {:induction false} LosesNothingIf(cursor: int, queue: seq<Event>)
    requires FirstsIncrease(cursor, queue)
    ensures LosesNothing(cursor, queue)
    decreases |queue|
  {
    if queue != [] {
      var front, x := queue[..|queue| - 1], queue[|queue| - 1];
      assert queue == front + [x];
      FrontFirstsIncrease(cursor, front, x);
      LosesNothingIf(cursor, front);
      forall e | e in queue && e.id > cursor ensures exists d :: d in Drain(cursor, queue) && d.id == e.id {
        StillDrained(cursor, front, x, e);
      }
    }
  }

  /** The cursor loses no queued event exactly when first publications come in increasing order. */
  lemma LosesNothingIff(cursor: int, queue: seq<Event>)
    ensures LosesNothing(cursor, queue) <==> FirstsIncrease(cursor, queue)
  {
    if LosesNothing(cursor, queue) { LosesNothingOnlyIf(cursor, queue); }
    if FirstsIncrease(cursor, queue) { LosesNothingIf(cursor, queue); }
  }

  lemma FrontLosesNothing(cursor: int, front: seq<Event>, x: Event)
    requires LosesNothing(cursor, front + [x])
    ensures LosesNothing(cursor, front)
  {
    DrainAppend(cursor, front, x);
    EndBounds(cursor, front);
    forall e | e in front && e.id > cursor ensures exists d :: d in Drain(cursor, front) && d.id == e.id {
      assert e in front + [x];
      var d :| d in Drain(cursor, front + [x]) && d.id == e.id;
      assert d in Drain(cursor, front) || d == x;
    }
  }
}
