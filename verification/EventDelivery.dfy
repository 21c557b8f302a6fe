/**
 The whole path of an event: committed to the log, published by an at-least-once
 publisher, queued by the broker, replayed or relayed over a socket that may die at
 any point, checked by the proxy, and applied by the renderer.

 The publisher may publish any committed event at any time, and again. Nothing is
 lost as long as it publishes each event for the first time in log order.

 A `World` is one desktop with one window, subscribed from the start.  Every step
 is one atomic step of one component; the steps interleave freely.
 */
module EventDelivery {
  import opened Wrappers
  import opened EventLog
  import opened EventSocket
  import EventBroker
  import EventProxy
  import Renderer

  datatype World = World(
    log: seq<Event>,
    pageSize: nat,
    publishedCount: nat,  // how many of the log's first events are known to be published
    hub: EventBroker.Hub,
    links: map<nat, Link>,
    proxy: EventProxy.Proxy,
    mark: nat,        // how much had been forwarded when the active workflow was chosen
    base: int,        // the proxy's cursor at that moment
    renderer: Renderer.Stream,
    shown: nat)       // how much of what was forwarded the window has handled

  datatype Step =
    | Commit(e: Event)
    | Publish(i: nat)
    | Accept(id: nat)
    | FetchPage(id: nat)
    | SendReplayed(id: nat)
    | GoLive(id: nat)
    | RelayQueued(id: nat)
    | HangUp(id: nat)
    | Observe(workflow: string)
    | Connect(generation: nat, id: nat)
    | LoseAttempt(generation: nat)
    | FireTimer
    | LoseSocket(id: nat)
    | Arrive(id: nat)
    | AskReplay
    | Show

  function Init(queueCapacity: nat, dedupCapacity: nat, pageSize: nat): World {
    World([], pageSize, 0, EventBroker.Init(queueCapacity, dedupCapacity), map[],
          EventProxy.Init(), 0, 0, Renderer.Init(), 0)
  }

  /** The newest id among the workflow's events, 0 when there is none. */
  function Newest(events: seq<Event>, workflow: string): int {
    var mine := Above(events, workflow, 0);
    if mine == [] then 0 else mine[|mine| - 1].id
  }

  predicate Current(w: World, id: nat) {
    id in w.links && w.proxy.socket.Some? && w.proxy.socket.value.id == id
  }

  /** The cases of a step that belong to the session `id`. */
  function NextLink(w: World, step: Step, id: nat, l: Link): (v: World)
    requires w.publishedCount <= |w.log|
    ensures v.publishedCount == w.publishedCount && v.log == w.log
  {
    match step
    case Accept(_) =>
      if l.phase.Connecting? && id !in w.hub.feeds then
        w.(hub := EventBroker.Next(w.hub, EventBroker.Subscribe(id, l.workflow)),
           links := w.links[id := l.(phase := Replaying([], false),
                                     floor := Newest(w.log[..w.publishedCount], l.workflow))])
      else w
    case FetchPage(_) =>
      if l.phase == Replaying([], false) then w.(links := w.links[id := Fetch(l, w.log, w.pageSize)]) else w
    case SendReplayed(_) =>
      if l.phase.Replaying? && l.phase.batch != [] then
        var sent := Send(l, l.phase.batch[0]);
        w.(links := w.links[id := sent.(phase := Replaying(l.phase.batch[1..], l.phase.complete))])
      else w
    case GoLive(_) =>
      if l.phase == Replaying([], true) then w.(links := w.links[id := l.(phase := Live)]) else w
    case RelayQueued(_) =>
      if l.phase.Live? && id in w.hub.feeds && w.hub.feeds[id].queue != [] then
        var taken := w.(hub := EventBroker.Next(w.hub, EventBroker.TakeNext(id)));
        match w.hub.feeds[id].queue[0]
        case None => taken.(links := w.links[id := l.(phase := Gone)])
        case Some(e) =>
          taken.(links := w.links[id := Send(l, e).(floor := if e.id > l.floor then e.id else l.floor)])
      else w
    case HangUp(_) =>
      w.(hub := EventBroker.Next(w.hub, EventBroker.Unsubscribe(id)), links := w.links[id := l.(phase := Gone)])
    case _ => w
  }

  function Arrived(l: Link): Link
    requires l.wire != []
  {
    l.(wire := l.wire[1..], delivered := l.wire[0].id)
  }

  function Proxied(w: World, input: EventProxy.Input): World {
    w.(proxy := EventProxy.Next(w.proxy, input))
  }

  function Next(w: World, step: Step): (v: World)
    requires w.publishedCount <= |w.log|
    ensures v.publishedCount <= |v.log|
  {
    match step
    case Commit(e) =>
      if e.id >= 1 && (w.log != [] ==> e.id > w.log[|w.log| - 1].id) then w.(log := w.log + [e]) else w
    case Publish(i) =>
      if i < |w.log| then
        w.(hub := EventBroker.PublishTo(w.hub, w.log[i]),
           publishedCount := if i == w.publishedCount then i + 1 else w.publishedCount)
      else w
    case Observe(workflow) =>
      if w.proxy.active == Some(workflow) then w
      else Proxied(w, EventProxy.ObserveWorkflow(workflow)).(mark := |w.proxy.forwarded|, base := w.proxy.lastEventId)
    case Connect(generation, id) =>
      if id in w.links || id in w.hub.feeds || w.proxy.active == None then w
      else
        var next := Proxied(w, EventProxy.Connected(generation, id));
        if next.proxy.socket == Some(EventProxy.Socket(id, generation)) then
          next.(links := w.links[id := Open(w.proxy.active.value, w.proxy.lastEventId)])
        else next
    case LoseAttempt(generation) => Proxied(w, EventProxy.ConnectFailed(generation))
    case FireTimer => Proxied(w, EventProxy.TimerFired)
    case LoseSocket(id) => Proxied(w, EventProxy.SocketClosed(id))
    case AskReplay => Proxied(w, EventProxy.RequestReplay(Whole(w.renderer.cursor)))
    case Arrive(id) =>
      if Current(w, id) && w.links[id].wire != [] then
        var l := w.links[id];
        Proxied(w, EventProxy.Receive(EventProxy.FrameOf(l.wire[0]), true)).(links := w.links[id := Arrived(l)])
      else w
    case Show =>
      if w.shown < |w.proxy.forwarded| then
        w.(renderer := Renderer.Step(w.renderer, Renderer.IncomingOf(w.proxy.forwarded[w.shown])), shown := w.shown + 1)
      else w
    case Accept(id) => if id in w.links then NextLink(w, step, id, w.links[id]) else w
    case FetchPage(id) => if id in w.links then NextLink(w, step, id, w.links[id]) else w
    case SendReplayed(id) => if id in w.links then NextLink(w, step, id, w.links[id]) else w
    case GoLive(id) => if id in w.links then NextLink(w, step, id, w.links[id]) else w
    case RelayQueued(id) => if id in w.links then NextLink(w, step, id, w.links[id]) else w
    case HangUp(id) => if id in w.links then NextLink(w, step, id, w.links[id]) else w
  }

  // ------------------------------------------------------------- the invariant

  function Unwrap(queue: seq<EventBroker.Item>): seq<Event>
    requires forall i :: 0 <= i < |queue| ==> queue[i].Some?
  {
    seq(|queue|, i requires 0 <= i < |queue| => queue[i].value)
  }

  /** From `floor` on, draining the queue gives exactly the published events of the workflow. */
  ghost predicate QueueComplete(published: seq<Event>, workflow: string, floor: int, queue: seq<Event>) {
    forall c :: c >= floor ==> Drain(c, queue) == Above(published, workflow, c)
  }

  ghost predicate FeedGood(published: seq<Event>, l: Link, f: EventBroker.Feed) {
    && f.workflow == l.workflow
    && if f.registered then
         && (forall i :: 0 <= i < |f.queue| ==> f.queue[i].Some?)
         && QueueComplete(published, l.workflow, l.floor, Unwrap(f.queue))
       else f.queue == [None]
  }

  function LogEnd(log: seq<Event>): int {
    if log == [] then 0 else log[|log| - 1].id
  }

  /** Nothing is lost between the client and the server: what arrived, what is in flight, what is left. */
  ghost predicate WireComplete(log: seq<Event>, l: Link) {
    Above(log, l.workflow, l.delivered) == l.wire + Above(log, l.workflow, l.cursor)
  }

  ghost predicate PhaseGood(log: seq<Event>, l: Link) {
    match l.phase
    case Replaying(batch, complete) =>
      && batch <= Above(log, l.workflow, l.cursor)
      && (complete ==> End(l.cursor, batch) >= l.floor)
      && (l.floor == 0 || exists e :: e in log && e.workflow == l.workflow && e.id == l.floor)
    case Live => l.cursor >= l.floor
    case _ => true
  }

  ghost predicate LinkGood(log: seq<Event>, published: seq<Event>, hub: EventBroker.Hub, id: nat, l: Link) {
    && l.delivered <= LogEnd(log)
    && 0 <= l.cursor <= LogEnd(log)
    && WireComplete(log, l)
    && PhaseGood(log, l)
    && (l.phase.Replaying? || l.phase.Live? ==> id in hub.feeds && FeedGood(published, l, hub.feeds[id]))
  }

  ghost predicate LinksGood(w: World)
    requires w.publishedCount <= |w.log|
  {
    forall id :: id in w.links ==> LinkGood(w.log, w.log[..w.publishedCount], w.hub, id, w.links[id])
  }

  ghost predicate ProxyGood(w: World) {
    && EventProxy.InOrder(w.proxy)
    && (w.proxy.socket.Some? ==>
          && w.proxy.socket.value.id in w.links
          && var l := w.links[w.proxy.socket.value.id];
             w.proxy.active == Some(l.workflow) && l.delivered <= w.proxy.lastEventId)
    && w.proxy.lastEventId <= LogEnd(w.log)
    && w.base <= LogEnd(w.log)
    && w.mark <= |w.proxy.forwarded|
    && (w.proxy.active.Some? ==>
          Above(w.log, w.proxy.active.value, w.base)
          == w.proxy.forwarded[w.mark..] + Above(w.log, w.proxy.active.value, w.proxy.lastEventId))
  }

  ghost predicate RendererGood(w: World) {
    w.shown <= |w.proxy.forwarded| && Renderer.Reflects(w.renderer, w.proxy.forwarded[..w.shown])
  }

  ghost predicate BrokerGood(w: World)
    requires w.publishedCount <= |w.log|
  {
    && w.hub.queueCapacity >= 1
    && w.hub.dedupCapacity >= 1
    && forall x :: x in w.hub.published ==> exists e :: e in w.log[..w.publishedCount] && e.id == x
  }

  ghost predicate Good(w: World) {
    && Ordered(w.log)
    && w.pageSize >= 1
    && w.publishedCount <= |w.log|
    && BrokerGood(w)
    && LinksGood(w)
    && ProxyGood(w)
    && RendererGood(w)
  }

  // ------------------------------------------------------- queues and publication

  lemma UnwrapAppend(queue: seq<EventBroker.Item>, e: Event)
    requires forall i :: 0 <= i < |queue| ==> queue[i].Some?
    ensures Unwrap(queue + [Some(e)]) == Unwrap(queue) + [e]
  {
  }

  /** A first publication reaches the end of the queue, above everything drained before it. */
  lemma NewPublication(published: seq<Event>, e: Event, workflow: string, floor: int, queue: seq<Event>)
    requires Ordered(published + [e])
    requires QueueComplete(published, workflow, floor, queue)
    ensures QueueComplete(published + [e], workflow, floor, if e.workflow == workflow then queue + [e] else queue)
  {
    forall c | c >= floor
      ensures Drain(c, if e.workflow == workflow then queue + [e] else queue) == Above(published + [e], workflow, c)
    {
      AboveAppend(published, e, workflow, c);
      if e.workflow == workflow {
        DrainAppend(c, queue, e);
        EndBounds(c, queue);
        forall d | d in Drain(c, queue) ensures d.id < e.id {
          AboveMembers(published, workflow, c, d);
          var i :| 0 <= i < |published| && published[i] == d;
          assert (published + [e])[i].id < (published + [e])[|published|].id;
        }
      }
    }
  }

  /** A repeated publication is behind the drained cursor and changes nothing. */
  lemma RepeatedPublication(published: seq<Event>, e: Event, floor: int, queue: seq<Event>)
    requires e in published
    requires QueueComplete(published, e.workflow, floor, queue)
    ensures QueueComplete(published, e.workflow, floor, queue + [e])
  {
    forall c | c >= floor ensures Drain(c, queue + [e]) == Above(published, e.workflow, c) {
      DrainAppend(c, queue, e);
      EndBounds(c, queue);
      if e.id > c {
        AboveMembers(published, e.workflow, c, e);
        assert e in Drain(c, queue);
      }
    }
  }

  lemma OfferNew(published: seq<Event>, e: Event, l: Link, f: EventBroker.Feed, capacity: nat)
    requires Ordered(published + [e])
    requires FeedGood(published, l, f)
    ensures FeedGood(published + [e], l, EventBroker.OfferFeed(f, capacity, e))
  {
    if f.registered {
      NewPublication(published, e, l.workflow, l.floor, Unwrap(f.queue));
      UnwrapAppend(f.queue, e);
    }
  }

  lemma OfferRepeated(published: seq<Event>, e: Event, l: Link, f: EventBroker.Feed, capacity: nat)
    requires e in published
    requires FeedGood(published, l, f)
    ensures FeedGood(published, l, EventBroker.OfferFeed(f, capacity, e))
  {
    if f.registered && f.workflow == e.workflow {
      RepeatedPublication(published, e, l.floor, Unwrap(f.queue));
      UnwrapAppend(f.queue, e);
    }
  }

  lemma {:induction false} NewIsUnknown(w: World)
    requires Ordered(w.log) && w.publishedCount < |w.log| && BrokerGood(w)
    ensures w.log[w.publishedCount].id !in w.hub.published
  {
    forall x | x in w.hub.published ensures x != w.log[w.publishedCount].id {
      var d :| d in w.log[..w.publishedCount] && d.id == x;
    }
  }

  /** A link's feed keeps its promise when the broker is offered the next event of the log. */
  lemma {:induction false} PublishNextLink(w: World, published: seq<Event>, e: Event, hub: EventBroker.Hub, id: nat)
    requires Ordered(published + [e]) && e.id !in w.hub.published && hub == EventBroker.PublishTo(w.hub, e)
    requires id in w.links && LinkGood(w.log, published, w.hub, id, w.links[id])
    ensures LinkGood(w.log, published + [e], hub, id, w.links[id])
  {
    if w.links[id].phase.Replaying? || w.links[id].phase.Live? {
      OfferNew(published, e, w.links[id], w.hub.feeds[id], w.hub.queueCapacity);
    }
  }

  lemma {:induction false} PublishNextLinks(w: World, published: seq<Event>, e: Event, hub: EventBroker.Hub)
    requires Ordered(published + [e]) && e.id !in w.hub.published && hub == EventBroker.PublishTo(w.hub, e)
    requires forall id :: id in w.links ==> LinkGood(w.log, published, w.hub, id, w.links[id])
    ensures forall id :: id in w.links ==> LinkGood(w.log, published + [e], hub, id, w.links[id])
  {
    forall id | id in w.links ensures LinkGood(w.log, published + [e], hub, id, w.links[id]) {
      PublishNextLink(w, published, e, hub, id);
    }
  }

  lemma {:induction false} PublishNextWindow(w: World, published: seq<Event>, e: Event, hub: EventBroker.Hub)
    requires hub == EventBroker.PublishTo(w.hub, e)
    requires forall x :: x in w.hub.published ==> exists d :: d in published && d.id == x
    ensures forall x :: x in hub.published ==> exists d :: d in published + [e] && d.id == x
  {
    forall x | x in w.hub.published ensures exists d :: d in published + [e] && d.id == x {
      var d :| d in published && d.id == x;
      assert d in published + [e];
    }
    WindowFromLog(w.hub, published + [e], e);
  }

  lemma {:induction false} PublishIs(w: World, hub: EventBroker.Hub)
    requires w.publishedCount < |w.log| && hub == EventBroker.PublishTo(w.hub, w.log[w.publishedCount])
    ensures Next(w, Publish(w.publishedCount)) == w.(hub := hub, publishedCount := w.publishedCount + 1)
    ensures hub.queueCapacity == w.hub.queueCapacity && hub.dedupCapacity == w.hub.dedupCapacity
  {
  }

  lemma {:induction false} PublishNextGood(w: World)
    requires Good(w) && w.publishedCount < |w.log|
    ensures Good(Next(w, Publish(w.publishedCount)))
  {
    var n := w.publishedCount;
    var published, e := w.log[..n], w.log[n];
    var hub := EventBroker.PublishTo(w.hub, e);
    assert w.log[..n + 1] == published + [e];
    NewIsUnknown(w);
    PublishNextLinks(w, published, e, hub);
    PublishNextWindow(w, published, e, hub);
    PublishIs(w, hub);
    PublishedGood(w, hub, n + 1);
  }

  /** Only the broker and the links depend on the hub and on how much is published. */
  lemma {:induction false} PublishedGood(w: World, hub: EventBroker.Hub, count: nat)
    requires Good(w) && w.publishedCount <= count <= |w.log|
    requires hub.queueCapacity == w.hub.queueCapacity && hub.dedupCapacity == w.hub.dedupCapacity
    requires forall x :: x in hub.published ==> exists d :: d in w.log[..count] && d.id == x
    requires forall id :: id in w.links ==> LinkGood(w.log, w.log[..count], hub, id, w.links[id])
    ensures Good(w.(hub := hub, publishedCount := count))
  {
  }

  lemma {:induction false} WindowMembers(h: EventBroker.Hub, e: Event, x: int)
    requires x in EventBroker.PublishTo(h, e).published
    ensures x in h.published || x == e.id
  {
  }

  lemma {:induction false} WindowFromLog(h: EventBroker.Hub, published: seq<Event>, e: Event)
    requires e in published
    requires forall x :: x in h.published ==> x == e.id || exists d :: d in published && d.id == x
    ensures forall x :: x in EventBroker.PublishTo(h, e).published ==> exists d :: d in published && d.id == x
  {
    forall x | x in EventBroker.PublishTo(h, e).published ensures exists d :: d in published && d.id == x {
      WindowMembers(h, e, x);
      if x == e.id { assert e in published; }
    }
  }

  lemma PublishAgainGood(w: World, i: nat)
    requires Good(w) && i < w.publishedCount
    ensures Good(Next(w, Publish(i)))
  {
    var published, e := w.log[..w.publishedCount], w.log[i];
    assert e == published[i];
    if e.id !in w.hub.published {
      forall id | id in w.links ensures LinkGood(w.log, published, Next(w, Publish(i)).hub, id, w.links[id]) {
        if id in w.hub.feeds && (w.links[id].phase.Replaying? || w.links[id].phase.Live?) {
          OfferRepeated(published, e, w.links[id], w.hub.feeds[id], w.hub.queueCapacity);
        }
      }
      WindowFromLog(w.hub, published, e);
    }
  }

  lemma CommitLinkGood(log: seq<Event>, published: seq<Event>, hub: EventBroker.Hub, id: nat, l: Link, e: Event)
    requires LinkGood(log, published, hub, id, l)
    requires e.id > LogEnd(log)
    ensures LinkGood(log + [e], published, hub, id, l)
  {
  }

  lemma CommitLinksGood(w: World, e: Event)
    requires w.publishedCount <= |w.log| && LinksGood(w) && e.id > LogEnd(w.log)
    ensures LinksGood(w.(log := w.log + [e]))
  {
    var log := w.log + [e];
    assert log[..w.publishedCount] == w.log[..w.publishedCount];
    forall id | id in w.links ensures LinkGood(log, log[..w.publishedCount], w.hub, id, w.links[id]) {
      CommitLinkGood(w.log, w.log[..w.publishedCount], w.hub, id, w.links[id], e);
    }
  }

  lemma CommitProxyGood(w: World, e: Event)
    requires ProxyGood(w) && e.id > LogEnd(w.log)
    ensures ProxyGood(w.(log := w.log + [e]))
  {
  }

  lemma CommitGood(w: World, e: Event)
    requires Good(w) && e.id >= 1 && (w.log != [] ==> e.id > w.log[|w.log| - 1].id)
    ensures Good(Next(w, Commit(e)))
  {
    var v := w.(log := w.log + [e]);
    assert Next(w, Commit(e)) == v;
    CommitLinksGood(w, e);
    CommitProxyGood(w, e);
    assert v.log[..v.publishedCount] == w.log[..w.publishedCount];
    assert BrokerGood(v);
    assert Ordered(v.log);
  }

  // -------------------------------------------------------------- the session

  /** Sending the next event of the workflow keeps the wire complete. */
  lemma SendNextGood(log: seq<Event>, l: Link)
    requires Ordered(log) && WireComplete(log, l)
    requires Above(log, l.workflow, l.cursor) != []
    ensures var e := Above(log, l.workflow, l.cursor)[0];
            && e in log && e.workflow == l.workflow && e.id > l.cursor
            && Above(log, l.workflow, e.id) == Above(log, l.workflow, l.cursor)[1..]
            && WireComplete(log, Send(l, e))
  {
    var rest := Above(log, l.workflow, l.cursor);
    AboveNext(log, l.workflow, l.cursor);
    AboveMembers(log, l.workflow, l.cursor, rest[0]);
    assert rest == [rest[0]] + rest[1..];
  }

  lemma InLog(log: seq<Event>, e: Event)
    requires Ordered(log) && e in log
    ensures 1 <= e.id <= LogEnd(log)
  {
  }

  lemma {:induction false} NewestBounds(published: seq<Event>, workflow: string)
    requires Ordered(published)
    ensures QueueComplete(published, workflow, Newest(published, workflow), [])
  {
    var mine := Above(published, workflow, 0);
    AboveOrdered(published, workflow, 0);
    forall c | c >= Newest(published, workflow) ensures Above(published, workflow, c) == [] {
      var above := Above(published, workflow, c);
      if above != [] {
        AboveMembers(published, workflow, c, above[0]);
        AboveMembers(published, workflow, 0, above[0]);
        InLog(published, above[0]);
      }
    }
  }

  /** A session step touches its own link and its own subscription, and nothing the client has seen. */
  lemma SessionStepGood(w: World, v: World, id: nat)
    requires Good(w) && id in w.links && id in v.links
    requires v == w.(hub := v.hub, links := w.links[id := v.links[id]])
    requires v.hub == w.hub.(feeds := v.hub.feeds)
    requires forall other :: other != id && other in w.hub.feeds ==>
               other in v.hub.feeds && v.hub.feeds[other] == w.hub.feeds[other]
    requires v.links[id].workflow == w.links[id].workflow && v.links[id].delivered == w.links[id].delivered
    requires LinkGood(v.log, v.log[..v.publishedCount], v.hub, id, v.links[id])
    ensures Good(v)
  {
    forall other | other in v.links
      ensures LinkGood(v.log, v.log[..v.publishedCount], v.hub, other, v.links[other])
    {
      if other != id {
        assert LinkGood(w.log, w.log[..w.publishedCount], w.hub, other, w.links[other]);
      }
    }
  }

  /** The queue of a new subscription starts empty, which is complete from the newest published event on. */
  lemma AcceptedLinkGood(w: World, id: nat, l: Link, feed: EventBroker.Feed)
    requires Good(w) && id in w.links && w.links[id] == l
    requires feed.registered && feed.queue == [] && feed.workflow == l.workflow
    ensures LinkGood(w.log, w.log[..w.publishedCount], w.hub.(feeds := w.hub.feeds[id := feed]), id,
                     l.(phase := Replaying([], false), floor := Newest(w.log[..w.publishedCount], l.workflow)))
  {
    var published := w.log[..w.publishedCount];
    NewestBounds(published, l.workflow);
    var mine := Above(published, l.workflow, 0);
    if mine != [] { AboveMembers(published, l.workflow, 0, mine[|mine| - 1]); }
    assert Unwrap(feed.queue) == [];
    assert LinkGood(w.log, published, w.hub, id, l);
  }

  lemma AcceptGood(w: World, id: nat)
    requires Good(w) && id in w.links
    ensures Good(Next(w, Accept(id)))
  {
    var l := w.links[id];
    if l.phase.Connecting? && id !in w.hub.feeds {
      var v := Next(w, Accept(id));
      AcceptedLinkGood(w, id, l, v.hub.feeds[id]);
      SessionStepGood(w, v, id);
    }
  }

  lemma FetchGood(w: World, id: nat)
    requires Good(w) && id in w.links
    ensures Good(Next(w, FetchPage(id)))
  {
    var l := w.links[id];
    if l.phase == Replaying([], false) {
      var rest := Above(w.log, l.workflow, l.cursor);
      var v := Next(w, FetchPage(id));
      if |rest| < w.pageSize {
        PageReachesFloor(w.log, l);
      }
      SessionStepGood(w, v, id);
    }
  }

  /** A short page read after subscribing brings the cursor past everything published before. */
  lemma PageReachesFloor(log: seq<Event>, l: Link)
    requires l.cursor >= 0
    requires l.floor == 0 || exists e :: e in log && e.workflow == l.workflow && e.id == l.floor
    ensures End(l.cursor, Above(log, l.workflow, l.cursor)) >= l.floor
  {
    EndBounds(l.cursor, Above(log, l.workflow, l.cursor));
    if l.floor > l.cursor {
      var e :| e in log && e.workflow == l.workflow && e.id == l.floor;
      AboveMembers(log, l.workflow, l.cursor, e);
    }
  }

  lemma SendReplayedGood(w: World, id: nat)
    requires Good(w) && id in w.links
    ensures Good(Next(w, SendReplayed(id)))
  {
    var l := w.links[id];
    if l.phase.Replaying? && l.phase.batch != [] {
      SendNextGood(w.log, l);
      InLog(w.log, l.phase.batch[0]);
      SessionStepGood(w, Next(w, SendReplayed(id)), id);
    }
  }

  lemma GoLiveGood(w: World, id: nat)
    requires Good(w) && id in w.links
    ensures Good(Next(w, GoLive(id)))
  {
    if w.links[id].phase == Replaying([], true) {
      SessionStepGood(w, Next(w, GoLive(id)), id);
    }
  }

  lemma HangUpGood(w: World, id: nat)
    requires Good(w) && id in w.links
    ensures Good(Next(w, HangUp(id)))
  {
    SessionStepGood(w, Next(w, HangUp(id)), id);
  }

  /** Removing the head of a complete queue leaves it complete from that head on. */
  lemma TakeHead(published: seq<Event>, workflow: string, floor: int, queue: seq<Event>)
    requires queue != [] && QueueComplete(published, workflow, floor, queue)
    ensures QueueComplete(published, workflow, if queue[0].id > floor then queue[0].id else floor, queue[1..])
  {
  }

  /** The queue's head is either behind what was sent or the very next event of the workflow. */
  lemma HeadIsNext(log: seq<Event>, n: nat, l: Link, queue: seq<Event>)
    requires Ordered(log) && n <= |log| && WireComplete(log, l) && l.cursor >= l.floor
    requires queue != [] && QueueComplete(log[..n], l.workflow, l.floor, queue) && queue[0].id > l.cursor
    ensures Above(log, l.workflow, l.cursor) != [] && Above(log, l.workflow, l.cursor)[0] == queue[0]
  {
    assert Drain(l.cursor, queue)[0] == queue[0];
    AboveSplit(log, n, l.workflow, l.cursor);
  }

  lemma RelayedLinkGood(w: World, id: nat, l: Link, f: EventBroker.Feed, taken: EventBroker.Feed)
    requires Good(w) && id in w.links && w.links[id] == l && l.phase.Live? && id in w.hub.feeds && w.hub.feeds[id] == f
    requires f.registered && f.queue != [] && f.queue[0].Some? && taken.queue == f.queue[1..]
    requires taken.registered && taken.workflow == f.workflow
    ensures var e := f.queue[0].value;
            LinkGood(w.log, w.log[..w.publishedCount], w.hub.(feeds := w.hub.feeds[id := taken]), id,
                     Send(l, e).(floor := if e.id > l.floor then e.id else l.floor))
  {
    var published, queue := w.log[..w.publishedCount], Unwrap(f.queue);
    var e := queue[0];
    assert LinkGood(w.log, published, w.hub, id, l);
    TakeHead(published, l.workflow, l.floor, queue);
    assert Unwrap(taken.queue) == queue[1..];
    if e.id > l.cursor {
      HeadIsNext(w.log, w.publishedCount, l, queue);
      SendNextGood(w.log, l);
      InLog(w.log, e);
    }
  }

  lemma RelayRegistered(w: World, id: nat)
    requires Good(w) && id in w.links && w.links[id].phase.Live? && id in w.hub.feeds
    requires w.hub.feeds[id].queue != [] && w.hub.feeds[id].registered
    ensures Good(Next(w, RelayQueued(id)))
  {
    var f, v := w.hub.feeds[id], Next(w, RelayQueued(id));
    assert LinkGood(w.log, w.log[..w.publishedCount], w.hub, id, w.links[id]);
    assert f.queue[0].Some?;
    RelayedLinkGood(w, id, w.links[id], f, v.hub.feeds[id]);
    SessionStepGood(w, v, id);
  }

  /** The queue of a dropped subscription holds the end marker only, which closes the session. */
  lemma RelayEnd(w: World, id: nat)
    requires Good(w) && id in w.links && w.links[id].phase.Live? && id in w.hub.feeds
    requires w.hub.feeds[id].queue != [] && !w.hub.feeds[id].registered
    ensures Good(Next(w, RelayQueued(id)))
  {
    assert LinkGood(w.log, w.log[..w.publishedCount], w.hub, id, w.links[id]);
    SessionStepGood(w, Next(w, RelayQueued(id)), id);
  }

  lemma RelayGood(w: World, id: nat)
    requires Good(w) && id in w.links
    ensures Good(Next(w, RelayQueued(id)))
  {
    if w.links[id].phase.Live? && id in w.hub.feeds && w.hub.feeds[id].queue != [] {
      if w.hub.feeds[id].registered { RelayRegistered(w, id); } else { RelayEnd(w, id); }
    }
  }

  // ---------------------------------------------------------------- the client

  /** Proxy inputs that carry no frame leave the cursor, the workflow and the window alone. */
  lemma {:induction false} QuietInputGood(w: World, input: EventProxy.Input)
    requires Good(w)
    requires || input.ConnectFailed? || input.TimerFired? || input.SocketClosed?
             || (input.RequestReplay? && input.after.Whole? && input.after.n <= w.proxy.lastEventId)
    ensures Good(Proxied(w, input))
  {
    EventProxy.NextKeepsOrder(w.proxy, input);
  }

  /** Choosing another workflow drops the socket and keeps the cursor. */
  lemma ObservedFrame(p: EventProxy.Proxy, workflow: string)
    requires p.active != Some(workflow)
    ensures var q := EventProxy.Next(p, EventProxy.ObserveWorkflow(workflow));
            && q.active == Some(workflow) && q.socket == None
            && q.lastEventId == p.lastEventId && q.forwarded == p.forwarded
  {
  }

  lemma {:induction false} ObserveGood(w: World, workflow: string)
    requires Good(w)
    ensures Good(Next(w, Observe(workflow)))
  {
    if w.proxy.active != Some(workflow) {
      ObservedFrame(w.proxy, workflow);
      assert w.proxy.forwarded[|w.proxy.forwarded|..] == [];
      assert LinksGood(Next(w, Observe(workflow)));
    }
  }

  /** One link replaced or added, and the proxy moved on: all the other links are as they were. */
  lemma LinksUpdated(w: World, id: nat, l: Link, proxy: EventProxy.Proxy)
    requires w.publishedCount <= |w.log| && LinksGood(w)
    requires LinkGood(w.log, w.log[..w.publishedCount], w.hub, id, l)
    ensures LinksGood(w.(proxy := proxy, links := w.links[id := l]))
  {
  }

  /** A proxy whose cursor, workflow and forwarded events are unchanged still fits the log. */
  lemma ProxyMoved(w: World, v: World)
    requires ProxyGood(w) && RendererGood(w)
    requires v.log == w.log && v.mark == w.mark && v.base == w.base && v.renderer == w.renderer && v.shown == w.shown
    requires v.proxy.active == w.proxy.active && v.proxy.lastEventId == w.proxy.lastEventId
    requires v.proxy.forwarded == w.proxy.forwarded
    requires v.proxy.socket.Some? ==>
               && v.proxy.socket.value.id in v.links
               && var l := v.links[v.proxy.socket.value.id];
                  v.proxy.active == Some(l.workflow) && l.delivered <= v.proxy.lastEventId
    ensures ProxyGood(v) && RendererGood(v)
  {
  }

  /** What finishing a connection attempt changes. */
  lemma ConnectedFrame(p: EventProxy.Proxy, generation: nat, id: nat)
    ensures var q := EventProxy.Next(p, EventProxy.Connected(generation, id));
            && q.active == p.active && q.lastEventId == p.lastEventId && q.forwarded == p.forwarded
            && (q.socket == p.socket || q.socket == Some(EventProxy.Socket(id, generation)))
  {
  }

  lemma OpenGood(w: World, id: nat)
    requires Good(w) && w.proxy.active.Some?
    ensures LinkGood(w.log, w.log[..w.publishedCount], w.hub, id, Open(w.proxy.active.value, w.proxy.lastEventId))
  {
  }

  lemma {:induction false} ConnectGood(w: World, generation: nat, id: nat)
    requires Good(w)
    ensures Good(Next(w, Connect(generation, id)))
  {
    if !(id in w.links || id in w.hub.feeds || w.proxy.active == None) {
      var q := EventProxy.Next(w.proxy, EventProxy.Connected(generation, id));
      ConnectedFrame(w.proxy, generation, id);
      if q.socket == Some(EventProxy.Socket(id, generation)) {
        var l := Open(w.proxy.active.value, w.proxy.lastEventId);
        OpenGood(w, id);
        LinksUpdated(w, id, l, q);
        ProxyMoved(w, w.(proxy := q, links := w.links[id := l]));
      } else {
        assert LinksGood(w.(proxy := q));
        ProxyMoved(w, w.(proxy := q));
      }
    }
  }

  /** The window handles the next forwarded event. */
  lemma ShowReflects(renderer: Renderer.Stream, forwarded: seq<Event>, k: nat)
    requires k < |forwarded| && Increasing(forwarded) && forwarded[k].id >= 1
    requires Renderer.Reflects(renderer, forwarded[..k])
    ensures Renderer.Reflects(Renderer.Step(renderer, Renderer.IncomingOf(forwarded[k])), forwarded[..k + 1])
  {
  }

  lemma ShowGood(w: World)
    requires Good(w)
    ensures Good(Next(w, Show))
  {
    if w.shown < |w.proxy.forwarded| {
      assert w.proxy.forwarded[w.shown] in w.proxy.forwarded;
      ShowReflects(w.renderer, w.proxy.forwarded, w.shown);
    }
  }

  lemma ArriveLinkGood(log: seq<Event>, published: seq<Event>, hub: EventBroker.Hub, id: nat, l: Link)
    requires Ordered(log) && LinkGood(log, published, hub, id, l) && l.wire != []
    ensures LinkGood(log, published, hub, id, Arrived(l))
    ensures var e := l.wire[0];
            && Above(log, l.workflow, l.delivered) != [] && Above(log, l.workflow, l.delivered)[0] == e
            && e in log && e.workflow == l.workflow && 1 <= e.id <= LogEnd(log)
  {
    var e, low := l.wire[0], Above(log, l.workflow, l.delivered);
    assert low != [] && low[0] == e;
    AboveNext(log, l.workflow, l.delivered);
    AboveMembers(log, l.workflow, l.delivered, e);
    InLog(log, e);
    assert low[1..] == l.wire[1..] + Above(log, l.workflow, l.cursor);
  }

  lemma ReceiveFrame(p: EventProxy.Proxy, e: Event)
    requires e.id >= 1
    ensures EventProxy.Next(p, EventProxy.Receive(EventProxy.FrameOf(e), true))
            == if e.id <= p.lastEventId then p else p.(lastEventId := e.id, forwarded := p.forwarded + [e])
  {
  }

  lemma ForwardedGood(w: World, id: nat, l: Link, e: Event)
    requires Good(w) && Current(w, id) && w.links[id] == l && l.wire != [] && l.wire[0] == e
    requires Above(w.log, l.workflow, l.delivered) != [] && Above(w.log, l.workflow, l.delivered)[0] == e
    requires 1 <= e.id <= LogEnd(w.log) && e.id > w.proxy.lastEventId
    ensures var q := w.proxy.(lastEventId := e.id, forwarded := w.proxy.forwarded + [e]);
            ProxyGood(w.(proxy := q, links := w.links[id := Arrived(l)]))
            && RendererGood(w.(proxy := q, links := w.links[id := Arrived(l)]))
  {
    ArriveProxyGood(w, l, e);
    EventProxy.NextKeepsOrder(w.proxy, EventProxy.Receive(EventProxy.FrameOf(e), true));
    ReceiveFrame(w.proxy, e);
    assert (w.proxy.forwarded + [e])[..w.shown] == w.proxy.forwarded[..w.shown];
  }

  /** A frame that arrives is either behind the proxy's cursor or the very next event after it. */
  lemma ArriveGood(w: World, id: nat)
    requires Good(w)
    ensures Good(Next(w, Arrive(id)))
  {
    if Current(w, id) && w.links[id].wire != [] {
      var l := w.links[id];
      var e := l.wire[0];
      var q := EventProxy.Next(w.proxy, EventProxy.Receive(EventProxy.FrameOf(e), true));
      ArriveLinkGood(w.log, w.log[..w.publishedCount], w.hub, id, l);
      ReceiveFrame(w.proxy, e);
      LinksUpdated(w, id, Arrived(l), q);
      if e.id > w.proxy.lastEventId {
        ForwardedGood(w, id, l, e);
      } else {
        ProxyMoved(w, w.(proxy := q, links := w.links[id := Arrived(l)]));
      }
    }
  }

  lemma ArriveProxyGood(w: World, l: Link, e: Event)
    requires Good(w) && w.proxy.active == Some(l.workflow) && l.delivered <= w.proxy.lastEventId
    requires Above(w.log, l.workflow, l.delivered) != [] && Above(w.log, l.workflow, l.delivered)[0] == e
    requires e.id > w.proxy.lastEventId
    ensures (w.proxy.forwarded + [e])[w.mark..] + Above(w.log, l.workflow, e.id) == Above(w.log, l.workflow, w.base)
  {
    AboveGap(w.log, l.workflow, l.delivered, w.proxy.lastEventId);
    AboveNext(w.log, l.workflow, w.proxy.lastEventId);
    var rest := Above(w.log, l.workflow, w.proxy.lastEventId);
    assert rest == [e] + rest[1..];
    assert (w.proxy.forwarded + [e])[w.mark..] == w.proxy.forwarded[w.mark..] + [e];
  }

  /** The window never asks for a replay beyond what the proxy has forwarded, so no replay skips an event. */
  lemma WindowBehindProxy(w: World)
    requires Good(w)
    ensures w.renderer.cursor <= w.proxy.lastEventId
    ensures EventProxy.Next(w.proxy, EventProxy.RequestReplay(Whole(w.renderer.cursor))).lastEventId
         == w.proxy.lastEventId
  {
  }

  // --------------------------------------------------------------- whole runs

  function Run(w: World, steps: seq<Step>): World
    requires w.publishedCount <= |w.log|
    ensures Run(w, steps).publishedCount <= |Run(w, steps).log|
  {
    if steps == [] then w else Next(Run(w, steps[..|steps| - 1]), steps[|steps| - 1])
  }

  lemma {:induction false} RunConcat(w: World, a: seq<Step>, b: seq<Step>)
    requires w.publishedCount <= |w.log|
    ensures Run(w, a + b) == Run(Run(w, a), b)
    decreases |b|
  {
    if b == [] {
      assert a + b == a;
    } else {
      var n := |b| - 1;
      RunConcat(w, a, b[..n]);
      assert (a + b)[..|a + b| - 1] == a + b[..n] && (a + b)[|a + b| - 1] == b[n];
    }
  }

  lemma SessionGood(w: World, step: Step, id: nat)
    requires Good(w) && id in w.links
    requires step in {Accept(id), FetchPage(id), SendReplayed(id), GoLive(id), RelayQueued(id), HangUp(id)}
    ensures Good(Next(w, step))
  {
    match step
    case Accept(_) => AcceptGood(w, id);
    case FetchPage(_) => FetchGood(w, id);
    case SendReplayed(_) => SendReplayedGood(w, id);
    case GoLive(_) => GoLiveGood(w, id);
    case RelayQueued(_) => RelayGood(w, id);
    case HangUp(_) => HangUpGood(w, id);
  }

  /** The client's other steps are inputs without a frame. */
  lemma {:induction false} QuietStep(w: World, step: Step) returns (input: EventProxy.Input)
    requires Good(w) && (step.LoseAttempt? || step.FireTimer? || step.LoseSocket? || step.AskReplay?)
    ensures Next(w, step) == Proxied(w, input)
    ensures || input.ConnectFailed? || input.TimerFired? || input.SocketClosed?
            || (input.RequestReplay? && input.after.Whole? && input.after.n <= w.proxy.lastEventId)
  {
    match step
    case LoseAttempt(generation) => input := EventProxy.ConnectFailed(generation);
    case FireTimer => input := EventProxy.TimerFired;
    case LoseSocket(id) => input := EventProxy.SocketClosed(id);
    case AskReplay =>
      WindowBehindProxy(w);
      input := EventProxy.RequestReplay(Whole(w.renderer.cursor));
  }

  lemma {:induction false} ClientGood(w: World, step: Step)
    requires Good(w)
    requires || step.Observe? || step.Connect? || step.LoseAttempt? || step.FireTimer? || step.LoseSocket?
             || step.AskReplay?
    ensures Good(Next(w, step))
  {
    match step
    case Observe(workflow) => ObserveGood(w, workflow);
    case Connect(generation, id) => ConnectGood(w, generation, id);
    case _ =>
      var input := QuietStep(w, step);
      QuietInputGood(w, input);
  }

  /** No event is published before all earlier ones have been. */
  predicate InOrder(w: World, step: Step) {
    step.Publish? ==> step.i <= w.publishedCount
  }

  /** Every step of every component keeps the delivery invariant, publication in order. */
  lemma {:induction false} NextGood(w: World, step: Step)
    requires Good(w) && InOrder(w, step)
    ensures Good(Next(w, step))
  {
    match step
    case Commit(e) =>
      if e.id >= 1 && (w.log != [] ==> e.id > w.log[|w.log| - 1].id) { CommitGood(w, e); }
    case Publish(i) =>
      if i < w.publishedCount {
        PublishAgainGood(w, i);
      } else if i < |w.log| {
        PublishNextGood(w);
      }
    case Arrive(id) => ArriveGood(w, id);
    case Show => ShowGood(w);
    case Accept(id) => if id in w.links { SessionGood(w, step, id); }
    case FetchPage(id) => if id in w.links { SessionGood(w, step, id); }
    case SendReplayed(id) => if id in w.links { SessionGood(w, step, id); }
    case GoLive(id) => if id in w.links { SessionGood(w, step, id); }
    case RelayQueued(id) => if id in w.links { SessionGood(w, step, id); }
    case HangUp(id) => if id in w.links { SessionGood(w, step, id); }
    case _ => ClientGood(w, step);
  }

  ghost predicate RunInOrder(w: World, steps: seq<Step>)
    requires w.publishedCount <= |w.log|
  {
    steps == []
    || (RunInOrder(w, steps[..|steps| - 1]) && InOrder(Run(w, steps[..|steps| - 1]), steps[|steps| - 1]))
  }

  lemma {:induction false} RunGood(queueCapacity: nat, dedupCapacity: nat, pageSize: nat, steps: seq<Step>)
    requires queueCapacity >= 1 && dedupCapacity >= 1 && pageSize >= 1
    requires RunInOrder(Init(queueCapacity, dedupCapacity, pageSize), steps)
    ensures Good(Run(Init(queueCapacity, dedupCapacity, pageSize), steps))
  {
    if steps != [] {
      var before := steps[..|steps| - 1];
      RunGood(queueCapacity, dedupCapacity, pageSize, before);
      NextGood(Run(Init(queueCapacity, dedupCapacity, pageSize), before), steps[|steps| - 1]);
    }
  }

  /**
   Exactly-once, in order, without gaps: since a workflow was chosen, what the
   proxy forwarded is what the log holds for it between the two cursors.
   */
  lemma ForwardedExactly(w: World, workflow: string, e: Event)
    requires Good(w) && w.proxy.active == Some(workflow)
    ensures Increasing(w.proxy.forwarded)
    ensures e in w.proxy.forwarded[w.mark..]
            <==> e in w.log && e.workflow == workflow && w.base < e.id <= w.proxy.lastEventId
  {
    var sent := w.proxy.forwarded[w.mark..];
    var left := Above(w.log, workflow, w.proxy.lastEventId);
    AboveMembers(w.log, workflow, w.base, e);
    AboveMembers(w.log, workflow, w.proxy.lastEventId, e);
    assert e in sent + left <==> e in sent || e in left;
    if e in sent {
      assert e in w.proxy.forwarded;
    }
  }

  /** In an increasing sequence, cutting at a place is cutting by id. */
  lemma CutByCursor(all: seq<Event>, from: nat, to: nat, e: Event)
    requires Increasing(all) && from <= to <= |all|
    ensures e in all[from..to] <==> e in all[from..] && to > 0 && e.id <= all[to - 1].id
  {
    if e in all[from..to] {
      var k :| from <= k < to && all[k] == e;
      assert all[from..][k - from] == e;
    }
    if e in all[from..] && to > 0 && e.id <= all[to - 1].id {
      var k :| from <= k < |all| && all[k] == e;
      if k < to { assert all[from..to][k - from] == e; }
    }
  }

  lemma ShownCursor(w: World)
    requires RendererGood(w)
    ensures w.renderer.cursor == if w.shown == 0 then 0 else w.proxy.forwarded[w.shown - 1].id
    ensures w.renderer.model.appliedEventIds == Ids(w.proxy.forwarded[..w.shown])
  {
  }

  /**
   The window has applied what was forwarded up to a point: of the workflow that is watched,
   exactly what the log holds between the cursor it was chosen at and the window's own cursor.
   */
  lemma AppliedExactly(w: World, workflow: string, e: Event)
    requires Good(w) && w.proxy.active == Some(workflow) && w.mark <= w.shown
    ensures w.renderer.model.appliedEventIds == Ids(w.proxy.forwarded[..w.shown])
    ensures e in w.proxy.forwarded[w.mark..w.shown]
            <==> e in w.log && e.workflow == workflow && w.base < e.id <= w.renderer.cursor
  {
    var all := w.proxy.forwarded;
    ForwardedExactly(w, workflow, e);
    WindowBehindProxy(w);
    CutByCursor(all, w.mark, w.shown, e);
    ShownCursor(w);
    if e in w.log { InLog(w.log, e); }
  }

  /** Everything committed is published, and the open socket has nothing queued or in flight. */
  ghost predicate Settled(w: World) {
    && w.publishedCount == |w.log|
    && w.proxy.socket.Some?
    && var id := w.proxy.socket.value.id;
       && id in w.links && w.links[id].phase.Live? && w.links[id].wire == []
       && id in w.hub.feeds && w.hub.feeds[id].registered && w.hub.feeds[id].queue == []
  }

  /** When the stream settles nothing is missing, however many connections died on the way. */
  lemma SettledIsComplete(w: World, workflow: string)
    requires Good(w) && Settled(w) && w.proxy.active == Some(workflow)
    ensures w.proxy.forwarded[w.mark..] == Above(w.log, workflow, w.base)
  {
    var id := w.proxy.socket.value.id;
    var l := w.links[id];
    assert LinkGood(w.log, w.log[..w.publishedCount], w.hub, id, l);
    assert Unwrap(w.hub.feeds[id].queue) == [];
    assert Drain(l.cursor, []) == [];
    assert w.log[..w.publishedCount] == w.log;
    assert Above(w.log, workflow, l.cursor) == [];
    AboveGap(w.log, workflow, l.delivered, w.proxy.lastEventId);
  }

  /**
   The proxy keeps one cursor for all workflows.  A settled stream has shown the
   whole history of the chosen workflow exactly when none of it was already behind
   that cursor at the moment of choosing.
   */
  lemma WholeHistoryIff(w: World, workflow: string)
    requires Good(w) && Settled(w) && w.proxy.active == Some(workflow)
    ensures w.proxy.forwarded[w.mark..] == Above(w.log, workflow, 0)
            <==> forall e :: e in w.log && e.workflow == workflow ==> e.id > w.base
  {
    SettledIsComplete(w, workflow);
    if forall e :: e in w.log && e.workflow == workflow ==> e.id > w.base {
      if w.base >= 0 {
        AboveJump(w.log, workflow, 0, w.base);
      } else {
        forall e | e in w.log && e.workflow == workflow && e.id > w.base ensures e.id > 0 { InLog(w.log, e); }
        AboveJump(w.log, workflow, w.base, 0);
      }
    }
    if Above(w.log, workflow, w.base) == Above(w.log, workflow, 0) {
      forall e | e in w.log && e.workflow == workflow ensures e.id > w.base {
        InLog(w.log, e);
        AboveMembers(w.log, workflow, 0, e);
        AboveMembers(w.log, workflow, w.base, e);
      }
    }
  }
}
