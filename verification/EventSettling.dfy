/**
 The stream can always recover. From any moment of a run in which a workflow is watched, the rest
 can be published, a new socket opened, the log replayed over it and everything in flight
 delivered; nothing is missing then.
 */
module EventSettling {
  import opened Wrappers
  import opened EventLog
  import opened EventSocket
  import opened EventDelivery
  import EventProxy

  /** Some run of steps, publication in order, goes from one world to the other. */
  ghost predicate Leads(w: World, v: World)
    requires w.publishedCount <= |w.log|
  {
    exists steps: seq<Step> :: RunInOrder(w, steps) && Run(w, steps) == v
  }

  lemma {:induction false} InOrderMore(w: World, steps: seq<Step>, step: Step)
    requires w.publishedCount <= |w.log|
    ensures RunInOrder(w, steps + [step]) <==> RunInOrder(w, steps) && InOrder(Run(w, steps), step)
  {
    assert (steps + [step])[..|steps + [step]| - 1] == steps;
  }

  lemma {:induction false} InOrderOneMore(w: World, a: seq<Step>, b: seq<Step>, step: Step)
    requires w.publishedCount <= |w.log| && RunInOrder(w, a + b) && InOrder(Run(Run(w, a), b), step)
    ensures RunInOrder(w, a + (b + [step]))
  {
    RunConcat(w, a, b);
    InOrderMore(w, a + b, step);
    assert a + (b + [step]) == (a + b) + [step];
  }

  lemma {:induction false} InOrderConcat(w: World, a: seq<Step>, b: seq<Step>)
    requires w.publishedCount <= |w.log| && RunInOrder(w, a) && RunInOrder(Run(w, a), b)
    ensures RunInOrder(w, a + b)
    decreases |b|
  {
    if b == [] {
      assert a + b == a;
    } else {
      var front, last := b[..|b| - 1], b[|b| - 1];
      assert b == front + [last];
      InOrderMore(Run(w, a), front, last);
      InOrderConcat(w, a, front);
      InOrderOneMore(w, a, front, last);
    }
  }

  lemma LeadsOn(w: World, v: World, x: World)
    requires w.publishedCount <= |w.log| && v.publishedCount <= |v.log| && Leads(w, v) && Leads(v, x)
    ensures Leads(w, x)
  {
    var a: seq<Step> :| RunInOrder(w, a) && Run(w, a) == v;
    var b: seq<Step> :| RunInOrder(v, b) && Run(v, b) == x;
    RunConcat(w, a, b);
    InOrderConcat(w, a, b);
  }

  lemma Stays(w: World)
    requires w.publishedCount <= |w.log|
    ensures Leads(w, w)
  {
    assert RunInOrder(w, []) && Run(w, []) == w;
  }

  lemma Steps(w: World, step: Step)
    requires Good(w) && InOrder(w, step)
    ensures Leads(w, Next(w, step)) && Good(Next(w, step))
  {
    NextGood(w, step);
    assert [step][..0] == [];
    assert RunInOrder(w, []) && Run(w, []) == w;
    assert RunInOrder(w, [step]) && Run(w, [step]) == Next(w, step);
  }

  /** One step on from a world that was reached. */
  lemma StepsOn(w: World, v: World, step: Step, x: World)
    requires Good(w) && Good(v) && Leads(w, v) && InOrder(v, step) && x == Next(v, step)
    ensures Good(x) && Leads(w, x)
  {
    Steps(v, step);
    LeadsOn(w, v, x);
  }

  // -------------------------------------------------------------------- publication

  lemma {:induction false} PublishRest(w: World) returns (v: World)
    requires Good(w)
    ensures Good(v) && Leads(w, v) && v == w.(hub := v.hub, publishedCount := |w.log|)
    decreases |w.log| - w.publishedCount
  {
    if w.publishedCount == |w.log| {
      Stays(w);
      v := w;
    } else {
      var next := Next(w, Publish(w.publishedCount));
      Steps(w, Publish(w.publishedCount));
      v := PublishRest(next);
      LeadsOn(w, next, v);
    }
  }

  // --------------------------------------------------------------------- connection

  /** The proxy watches a workflow and has exactly one thing under way. */
  ghost predicate Tended(w: World) {
    EventProxy.Supervised(w.proxy) && !w.proxy.stopped
  }

  lemma TimerConnects(p: EventProxy.Proxy)
    requires EventProxy.Supervised(p) && !p.stopped && p.active.Some? && p.timer.Some?
    ensures var q := EventProxy.Next(p, EventProxy.TimerFired);
            q.generation in q.connecting && q.active == p.active && q.stopped == p.stopped
  {
  }

  lemma {:induction false} ClosingSchedules(p: EventProxy.Proxy)
    requires EventProxy.Supervised(p) && !p.stopped && p.active.Some? && p.socket.Some?
    ensures var q := EventProxy.Next(p, EventProxy.SocketClosed(p.socket.value.id));
            q.timer.Some? && q.active == p.active && q.stopped == p.stopped
  {
  }

  lemma AttemptConnects(p: EventProxy.Proxy, id: nat)
    requires EventProxy.Supervised(p) && p.generation in p.connecting
    ensures var q := EventProxy.Next(p, EventProxy.Connected(p.generation, id));
            && q.socket == Some(EventProxy.Socket(id, p.generation))
            && q.active == p.active && q.lastEventId == p.lastEventId
  {
  }

  lemma {:induction false} TimerAttempt(w: World) returns (v: World)
    requires Good(w) && Tended(w) && w.proxy.active.Some? && w.proxy.timer.Some?
    ensures Good(v) && Leads(w, v) && Tended(v) && v == w.(proxy := v.proxy)
    ensures v.proxy.active == w.proxy.active && v.proxy.generation in v.proxy.connecting
  {
    v := Next(w, FireTimer);
    Steps(w, FireTimer);
    TimerConnects(w.proxy);
    EventProxy.NextKeepsSupervised(w.proxy, EventProxy.TimerFired);
  }

  /** Whatever the proxy is busy with, it comes to a connection attempt. */
  lemma {:induction false} ToAttempt(w: World) returns (v: World)
    requires Good(w) && Tended(w) && w.proxy.active.Some?
    ensures Good(v) && Leads(w, v) && Tended(v) && v == w.(proxy := v.proxy)
    ensures v.proxy.active == w.proxy.active && v.proxy.generation in v.proxy.connecting
  {
    if w.proxy.timer.Some? {
      v := TimerAttempt(w);
    } else if w.proxy.socket.Some? {
      var step := LoseSocket(w.proxy.socket.value.id);
      var closed := Next(w, step);
      Steps(w, step);
      ClosingSchedules(w.proxy);
      EventProxy.NextKeepsSupervised(w.proxy, EventProxy.SocketClosed(w.proxy.socket.value.id));
      v := TimerAttempt(closed);
      LeadsOn(w, closed, v);
    } else {
      assert EventProxy.Activities(w.proxy) == 1;
      Stays(w);
      v := w;
    }
  }

  lemma {:induction false} AboveAll(ids: set<nat>) returns (bound: nat)
    ensures forall id :: id in ids ==> id < bound
    decreases |ids|
  {
    if ids == {} {
      bound := 0;
    } else {
      var id :| id in ids;
      var rest := AboveAll(ids - {id});
      bound := if rest <= id then id + 1 else rest;
      assert forall other :: other in ids ==> other == id || other in ids - {id};
    }
  }

  lemma {:induction false} ToSocket(w: World) returns (v: World, id: nat)
    requires Good(w) && Tended(w) && w.proxy.active.Some?
    ensures Good(v) && Leads(w, v)
    ensures id !in w.links && id !in v.hub.feeds && v == w.(proxy := v.proxy, links := v.links)
    ensures v.proxy.active == w.proxy.active && v.proxy.socket.Some? && v.proxy.socket.value.id == id
    ensures id in v.links && v.links[id] == Open(w.proxy.active.value, v.proxy.lastEventId)
  {
    var ready := ToAttempt(w);
    id := AboveAll(ready.links.Keys + ready.hub.feeds.Keys);
    var p := ready.proxy;
    v := Next(ready, Connect(p.generation, id));
    StepsOn(w, ready, Connect(p.generation, id), v);
    AttemptConnects(p, id);
  }

  // ------------------------------------------------------------------------- replay

  /** The open socket is served by a subscription with nothing queued. */
  predicate Served(w: World, id: nat) {
    && w.proxy.socket.Some? && w.proxy.socket.value.id == id
    && id in w.links && id in w.hub.feeds && w.hub.feeds[id].registered && w.hub.feeds[id].queue == []
  }

  lemma {:induction false} ToReplay(w: World, id: nat) returns (v: World)
    requires Good(w) && id in w.links && w.links[id].phase.Connecting? && id !in w.hub.feeds
    requires w.proxy.socket.Some? && w.proxy.socket.value.id == id
    ensures Good(v) && Leads(w, v) && Served(v, id) && v == w.(hub := v.hub, links := v.links)
    ensures v.links[id].phase == Replaying([], false)
  {
    v := Next(w, Accept(id));
    Steps(w, Accept(id));
  }

  predicate Unread(l: Link) {
    l.phase == Replaying([], false)
  }

  lemma FetchFrame(w: World, id: nat)
    requires Good(w) && Served(w, id) && w.links[id].phase == Replaying([], false)
    ensures var v, l := Next(w, FetchPage(id)), w.links[id];
            && v == w.(links := v.links) && Served(v, id) && v.links[id].cursor == l.cursor
            && v.links[id].workflow == l.workflow && v.links[id].phase.Replaying? && !Unread(v.links[id])
  {
  }

  lemma SendFrame(w: World, id: nat)
    requires Good(w) && Served(w, id) && w.links[id].phase.Replaying? && w.links[id].phase.batch != []
    ensures var v, l := Next(w, SendReplayed(id)), w.links[id];
            && v == w.(links := v.links) && Served(v, id) && v.links[id].workflow == l.workflow
            && v.links[id].phase.Replaying?
            && |Above(w.log, l.workflow, v.links[id].cursor)| < |Above(w.log, l.workflow, l.cursor)|
  {
    var l := w.links[id];
    assert LinkGood(w.log, w.log[..w.publishedCount], w.hub, id, l);
    SendNextGood(w.log, l);
    var v := Next(w, SendReplayed(id));
    assert v.links[id].cursor == l.phase.batch[0].id;
  }

  /** Page by page, until a short one has been sent. */
  lemma {:induction false} ReplayRest(w: World, id: nat) returns (v: World)
    requires Good(w) && Served(w, id) && w.links[id].phase.Replaying?
    ensures Good(v) && Leads(w, v) && Served(v, id) && v == w.(links := v.links)
    ensures v.links[id].phase == Replaying([], true)
    decreases |Above(w.log, w.links[id].workflow, w.links[id].cursor)|, if Unread(w.links[id]) then 1 else 0
  {
    if w.links[id].phase == Replaying([], true) {
      Stays(w);
      v := w;
    } else {
      var step := if Unread(w.links[id]) then FetchPage(id) else SendReplayed(id);
      var next := Next(w, step);
      Steps(w, step);
      if Unread(w.links[id]) { FetchFrame(w, id); } else { SendFrame(w, id); }
      v := ReplayRest(next, id);
      LeadsOn(w, next, v);
    }
  }

  lemma {:induction false} ToLive(w: World, id: nat) returns (v: World)
    requires Good(w) && Served(w, id) && w.links[id].phase == Replaying([], true)
    ensures Good(v) && Leads(w, v) && Served(v, id) && v == w.(links := v.links) && v.links[id].phase == Live
  {
    v := Next(w, GoLive(id));
    Steps(w, GoLive(id));
  }

  // ----------------------------------------------------------------------- delivery

  lemma ArriveFrame(w: World, id: nat)
    requires Good(w) && Served(w, id) && w.links[id].wire != []
    ensures var v, l := Next(w, Arrive(id)), w.links[id];
            && v == w.(proxy := v.proxy, links := v.links) && Served(v, id) && v.links[id] == Arrived(l)
            && v.proxy.active == w.proxy.active
  {
  }

  lemma {:induction false} DeliverRest(w: World, id: nat) returns (v: World)
    requires Good(w) && Served(w, id) && w.links[id].phase == Live
    ensures Good(v) && Leads(w, v) && Served(v, id) && v == w.(proxy := v.proxy, links := v.links)
    ensures v.links[id].phase == Live && v.links[id].wire == [] && v.proxy.active == w.proxy.active
    decreases |w.links[id].wire|
  {
    if w.links[id].wire == [] {
      Stays(w);
      v := w;
    } else {
      var next := Next(w, Arrive(id));
      Steps(w, Arrive(id));
      ArriveFrame(w, id);
      v := DeliverRest(next, id);
      LeadsOn(w, next, v);
    }
  }

  // ------------------------------------------------------------------------ settling

  /** The log, the watched workflow and where it was chosen stay the same. */
  predicate SameWatch(w: World, v: World) {
    && v.log == w.log && v.proxy.active == w.proxy.active && v.mark == w.mark && v.base == w.base
  }

  lemma {:induction false} ToServed(w: World) returns (v: World, id: nat)
    requires Good(w) && Tended(w) && w.proxy.active.Some?
    ensures Good(v) && Leads(w, v) && SameWatch(w, v) && v.publishedCount == |v.log|
    ensures Served(v, id) && v.links[id].phase == Replaying([], false)
  {
    var published := PublishRest(w);
    var connected;
    connected, id := ToSocket(published);
    LeadsOn(w, published, connected);
    v := ToReplay(connected, id);
    LeadsOn(w, connected, v);
  }

  lemma {:induction false} ToSettled(w: World) returns (v: World)
    requires Good(w) && Tended(w) && w.proxy.active.Some?
    ensures Good(v) && Leads(w, v) && SameWatch(w, v) && Settled(v)
  {
    var served, id := ToServed(w);
    var replayed := ReplayRest(served, id);
    LeadsOn(w, served, replayed);
    var live := ToLive(replayed, id);
    LeadsOn(w, replayed, live);
    v := DeliverRest(live, id);
    LeadsOn(w, live, v);
  }

  // -------------------------------------------------------------------------- whole runs

  /** What a step is to the proxy, if anything. */
  function ProxyInput(w: World, step: Step): (input: Option<EventProxy.Input>)
    ensures input != Some(EventProxy.Stop)
  {
    match step
    case Observe(workflow) => Some(EventProxy.ObserveWorkflow(workflow))
    case Connect(generation, id) =>
      if id in w.links || id in w.hub.feeds || w.proxy.active == None then None
      else Some(EventProxy.Connected(generation, id))
    case LoseAttempt(generation) => Some(EventProxy.ConnectFailed(generation))
    case FireTimer => Some(EventProxy.TimerFired)
    case LoseSocket(id) => Some(EventProxy.SocketClosed(id))
    case AskReplay => Some(EventProxy.RequestReplay(Whole(w.renderer.cursor)))
    case Arrive(id) =>
      if Current(w, id) && w.links[id].wire != [] then
        Some(EventProxy.Receive(EventProxy.FrameOf(w.links[id].wire[0]), true))
      else None
    case _ => None
  }

  lemma SessionLeavesProxy(w: World, step: Step, id: nat, l: Link)
    requires w.publishedCount <= |w.log|
    ensures NextLink(w, step, id, l).proxy == w.proxy
  {
  }

  lemma {:induction false} ProxyMoves(w: World, step: Step)
    requires w.publishedCount <= |w.log|
    ensures Next(w, step).proxy
            == match ProxyInput(w, step) case None => w.proxy case Some(input) => EventProxy.Next(w.proxy, input)
  {
    match step
    case Accept(id) => if id in w.links { SessionLeavesProxy(w, step, id, w.links[id]); }
    case FetchPage(id) => if id in w.links { SessionLeavesProxy(w, step, id, w.links[id]); }
    case SendReplayed(id) => if id in w.links { SessionLeavesProxy(w, step, id, w.links[id]); }
    case GoLive(id) => if id in w.links { SessionLeavesProxy(w, step, id, w.links[id]); }
    case RelayQueued(id) => if id in w.links { SessionLeavesProxy(w, step, id, w.links[id]); }
    case HangUp(id) => if id in w.links { SessionLeavesProxy(w, step, id, w.links[id]); }
    case _ =>
  }

  lemma OnlyStopStops(p: EventProxy.Proxy, input: EventProxy.Input)
    requires !p.stopped && input != EventProxy.Stop
    ensures !EventProxy.Next(p, input).stopped
  {
  }

  lemma {:induction false} NextTended(w: World, step: Step)
    requires w.publishedCount <= |w.log| && Tended(w)
    ensures Tended(Next(w, step))
  {
    var input := ProxyInput(w, step);
    ProxyMoves(w, step);
    if input.Some? {
      EventProxy.NextKeepsSupervised(w.proxy, input.value);
      OnlyStopStops(w.proxy, input.value);
    }
  }

  lemma {:induction false} RunTended(w: World, steps: seq<Step>)
    requires w.publishedCount <= |w.log| && Tended(w)
    ensures Tended(Run(w, steps))
  {
    if steps != [] {
      RunTended(w, steps[..|steps| - 1]);
      NextTended(Run(w, steps[..|steps| - 1]), steps[|steps| - 1]);
    }
  }

  /**
   After any run with publication in order, drops, overflows, repetitions and switches included,
   the stream can still settle, and has then forwarded every event of the watched workflow above
   the cursor it was chosen at.
   */
  lemma RunCanSettle(queueCapacity: nat, dedupCapacity: nat, pageSize: nat, steps: seq<Step>, workflow: string)
    returns (v: World)
    requires queueCapacity >= 1 && dedupCapacity >= 1 && pageSize >= 1
    requires RunInOrder(Init(queueCapacity, dedupCapacity, pageSize), steps)
    requires Run(Init(queueCapacity, dedupCapacity, pageSize), steps).proxy.active == Some(workflow)
    ensures var w := Run(Init(queueCapacity, dedupCapacity, pageSize), steps);
            && Leads(w, v) && SameWatch(w, v) && Settled(v)
            && v.mark <= |v.proxy.forwarded|
            && v.proxy.forwarded[v.mark..] == Above(w.log, workflow, w.base)
  {
    RunGood(queueCapacity, dedupCapacity, pageSize, steps);
    RunTended(Init(queueCapacity, dedupCapacity, pageSize), steps);
    v := ToSettled(Run(Init(queueCapacity, dedupCapacity, pageSize), steps));
    SettledIsComplete(v, workflow);
  }
}
