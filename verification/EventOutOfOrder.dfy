/**
 A run in which the publisher publishes two events in the wrong order for the first time. The
 socket that is open then never delivers the older one, although the stream settles.
 */
module EventOutOfOrder {
  import opened Wrappers
  import opened EventLog
  import opened EventSocket
  import opened EventDelivery
  import EventBroker
  import EventProxy
  import Renderer

  const OLDER := Event(1, "a")
  const NEWER := Event(2, "a")

  function Watching(socket: Option<EventProxy.Socket>, connecting: multiset<nat>): EventProxy.Proxy {
    EventProxy.Proxy(Some("a"), 0, socket, 1, 0, None, false, connecting, [])
  }

  function Broker(published: seq<int>, accepted: seq<Event>, queue: seq<EventBroker.Item>, taken: seq<EventBroker.Item>)
    : EventBroker.Hub
  {
    EventBroker.Hub(2, 2, published, accepted, map[0 := EventBroker.Feed("a", 0, queue, true, taken)])
  }

  /** Connected, subscribed and live, with nothing committed yet. */
  function Ready(): World {
    World([], 1, 0, Broker([], [], [], []), map[0 := Link("a", 0, Live, 0, [], 0)],
          Watching(Some(EventProxy.Socket(0, 1)), multiset{}), 0, 0, Renderer.Init(), 0)
  }

  lemma {:induction false} Connects(w: World)
    requires w == Init(2, 2, 1)
    ensures var v := Next(Next(w, Observe("a")), Connect(1, 0));
            v == w.(proxy := Watching(Some(EventProxy.Socket(0, 1)), multiset{}),
                    links := map[0 := Link("a", 0, Connecting, 0, [], 0)])
  {
    var chosen := Next(w, Observe("a"));
    assert chosen == w.(proxy := Watching(None, multiset{1}));
    assert multiset{1} - multiset{1} == multiset{};
  }

  lemma {:induction false} GoesLive(w: World)
    requires w == Init(2, 2, 1).(proxy := Watching(Some(EventProxy.Socket(0, 1)), multiset{}),
                                 links := map[0 := Link("a", 0, Connecting, 0, [], 0)])
    ensures Next(Next(Next(w, Accept(0)), FetchPage(0)), GoLive(0)) == Ready()
  {
    var accepted := Next(w, Accept(0));
    assert accepted.links == map[0 := Link("a", 0, Replaying([], false), 0, [], 0)];
    assert accepted.hub == Broker([], [], [], []);
    var fetched := Next(accepted, FetchPage(0));
    assert fetched.links == map[0 := Link("a", 0, Replaying([], true), 0, [], 0)];
  }

  function Committed(): World {
    Ready().(log := [OLDER, NEWER])
  }

  lemma {:induction false} Commits(w: World)
    requires w == Ready()
    ensures Next(Next(w, Commit(OLDER)), Commit(NEWER)) == Committed()
  {
    assert Next(w, Commit(OLDER)).log == [OLDER];
    assert [OLDER] + [NEWER] == [OLDER, NEWER];
  }

  /** The newer event first, then the older one, then the newer one again. */
  function PublishedWrongly(): World {
    Committed().(publishedCount := 2, hub := Broker([2, 1], [NEWER, OLDER], [Some(NEWER), Some(OLDER)], []))
  }

  lemma {:induction false} Offered(published: seq<int>, accepted: seq<Event>, queue: seq<EventBroker.Item>, e: Event)
    requires |published| < 2 && |queue| < 2 && e.workflow == "a" && e.id !in published
    ensures EventBroker.PublishTo(Broker(published, accepted, queue, []), e)
            == Broker(published + [e.id], accepted + [e], queue + [Some(e)], [])
  {
    var after := EventBroker.PublishTo(Broker(published, accepted, queue, []), e);
    assert after.feeds == map[0 := EventBroker.Feed("a", 0, queue + [Some(e)], true, [])];
  }

  lemma {:induction false} Publishes(w: World)
    requires w == Committed()
    ensures Next(Next(Next(w, Publish(1)), Publish(0)), Publish(1)) == PublishedWrongly()
  {
    Offered([], [], [], NEWER);
    assert [] + [2] == [2] && [] + [NEWER] == [NEWER] && [] + [Some(NEWER)] == [Some(NEWER)];
    var first := Next(w, Publish(1));
    assert first == w.(hub := Broker([2], [NEWER], [Some(NEWER)], []));
    Offered([2], [NEWER], [Some(NEWER)], OLDER);
    assert [2] + [1] == [2, 1] && [NEWER] + [OLDER] == [NEWER, OLDER];
    assert [Some(NEWER)] + [Some(OLDER)] == [Some(NEWER), Some(OLDER)];
    var second := Next(first, Publish(0));
    assert second == w.(publishedCount := 1,
                        hub := Broker([2, 1], [NEWER, OLDER], [Some(NEWER), Some(OLDER)], []));
  }

  function Relayed(): World {
    PublishedWrongly().(hub := Broker([2, 1], [NEWER, OLDER], [], [Some(NEWER), Some(OLDER)]),
                        links := map[0 := Link("a", 2, Live, 0, [NEWER], 2)])
  }

  lemma {:induction false} Taken(published: seq<int>, accepted: seq<Event>, item: EventBroker.Item,
                                 rest: seq<EventBroker.Item>, taken: seq<EventBroker.Item>)
    ensures EventBroker.Next(Broker(published, accepted, [item] + rest, taken), EventBroker.TakeNext(0))
            == Broker(published, accepted, rest, taken + [item])
  {
    assert ([item] + rest)[1..] == rest;
  }

  lemma {:induction false} Relays(w: World)
    requires w == PublishedWrongly()
    ensures Next(Next(w, RelayQueued(0)), RelayQueued(0)) == Relayed()
  {
    Taken([2, 1], [NEWER, OLDER], Some(NEWER), [Some(OLDER)], []);
    assert [Some(NEWER)] + [Some(OLDER)] == [Some(NEWER), Some(OLDER)] && [] + [Some(NEWER)] == [Some(NEWER)];
    assert [] + [NEWER] == [NEWER];
    var first := Next(w, RelayQueued(0));
    assert first == w.(hub := Broker([2, 1], [NEWER, OLDER], [Some(OLDER)], [Some(NEWER)]),
                       links := map[0 := Link("a", 2, Live, 0, [NEWER], 2)]);
    Taken([2, 1], [NEWER, OLDER], Some(OLDER), [], [Some(NEWER)]);
    assert [Some(OLDER)] + [] == [Some(OLDER)];
    var second := Next(first, RelayQueued(0));
    assert second.links == map[0 := Link("a", 2, Live, 0, [NEWER], 2)];
  }

  lemma {:induction false} Arrives(w: World)
    requires w == Relayed()
    ensures var v := Next(w, Arrive(0));
            Settled(v) && v.log == [OLDER, NEWER] && v.proxy.active == Some("a") && v.proxy.forwarded == [NEWER]
            && v.mark == 0 && v.base == 0
  {
    var l := w.links[0];
    assert l.wire[1..] == [];
    ReceiveFrame(w.proxy, NEWER);
  }

  lemma {:induction false} RunOne(w: World, step: Step)
    requires w.publishedCount <= |w.log|
    ensures Run(w, [step]) == Next(w, step)
  {
    assert [step][..0] == [] && Run(w, []) == w;
  }

  lemma {:induction false} RunMore(w: World, steps: seq<Step>, step: Step)
    requires w.publishedCount <= |w.log|
    ensures Run(w, steps + [step]) == Next(Run(w, steps), step)
  {
    assert (steps + [step])[..|steps + [step]| - 1] == steps;
  }

  lemma {:induction false} RunTwo(w: World, x: Step, y: Step)
    requires w.publishedCount <= |w.log|
    ensures Run(w, [x, y]) == Next(Next(w, x), y)
  {
    RunOne(w, x);
    RunMore(w, [x], y);
    assert [x] + [y] == [x, y];
  }

  lemma {:induction false} RunThree(w: World, x: Step, y: Step, z: Step)
    requires w.publishedCount <= |w.log|
    ensures Run(w, [x, y, z]) == Next(Next(Next(w, x), y), z)
  {
    RunTwo(w, x, y);
    RunMore(w, [x, y], z);
    assert [x, y] + [z] == [x, y, z];
  }

  const CONNECTING := [Observe("a"), Connect(1, 0)]
  const SUBSCRIBING := [Accept(0), FetchPage(0), GoLive(0)]
  const COMMITTING := [Commit(OLDER), Commit(NEWER)]
  const PUBLISHING := [Publish(1), Publish(0), Publish(1)]
  const RELAYING := [RelayQueued(0), RelayQueued(0)]

  lemma {:induction false} RunsToCommitted(w: World)
    requires w == Init(2, 2, 1)
    ensures Run(w, CONNECTING + SUBSCRIBING + COMMITTING) == Committed()
  {
    Connects(w);
    RunTwo(w, Observe("a"), Connect(1, 0));
    var connected := Run(w, CONNECTING);
    GoesLive(connected);
    RunThree(connected, Accept(0), FetchPage(0), GoLive(0));
    RunConcat(w, CONNECTING, SUBSCRIBING);
    Commits(Ready());
    RunTwo(Ready(), Commit(OLDER), Commit(NEWER));
    RunConcat(w, CONNECTING + SUBSCRIBING, COMMITTING);
  }

  lemma {:induction false} RunsToRelayed(w: World)
    requires w == Committed()
    ensures Run(w, PUBLISHING + RELAYING) == Relayed()
  {
    Publishes(w);
    RunThree(w, Publish(1), Publish(0), Publish(1));
    Relays(PublishedWrongly());
    RunTwo(PublishedWrongly(), RelayQueued(0), RelayQueued(0));
    RunConcat(w, PUBLISHING, RELAYING);
  }

  /** The stream has settled, and of the two events of its log only the newer one was forwarded. */
  lemma {:induction false} OlderEventLost()
    ensures var v := Run(Init(2, 2, 1), CONNECTING + SUBSCRIBING + COMMITTING + (PUBLISHING + RELAYING) + [Arrive(0)]);
            && Settled(v) && v.log == [OLDER, NEWER] && v.proxy.active == Some("a") && v.mark == 0 && v.base == 0
            && v.proxy.forwarded == [NEWER]
  {
    var w, start, middle := Init(2, 2, 1), CONNECTING + SUBSCRIBING + COMMITTING, PUBLISHING + RELAYING;
    RunsToCommitted(w);
    RunsToRelayed(Committed());
    RunConcat(w, start, middle);
    RunOne(Relayed(), Arrive(0));
    RunConcat(w, start + middle, [Arrive(0)]);
    Arrives(Relayed());
  }
}
