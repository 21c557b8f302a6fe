/**
 The in-process event broker: a bounded window of published ids and one bounded
 queue per subscription.  `None` in a queue is the overflow sentinel.

 `Hub` is the broker as a value, together with what its subscribers have taken;
 it carries the claims about whole runs.  `EventStreamBroker` is the broker as
 the program has it, objects updated in place, with every method proved against
 the functions the `Hub` is built from.
 */
module EventBroker {
  import opened Wrappers
  import opened EventLog

  type Item = Option<Event>

  datatype Offered = Offered(queue: seq<Item>, kept: bool)

  /** What one publication does to one matching subscription. */
  function Offer(queue: seq<Item>, capacity: nat, e: Event): Offered {
    if |queue| < capacity then Offered(queue + [Some(e)], true) else Offered([None], false)
  }

  // ---------------------------------------------------------------- whole runs

  /**
   A subscription as its consumer sees it.  `since` is the number of publications
   the broker had accepted when the subscription was made.
   */
  datatype Feed = Feed(
    workflow: string,
    since: nat,
    queue: seq<Item>,
    registered: bool,
    taken: seq<Item>)

  datatype Hub = Hub(
    queueCapacity: nat,
    dedupCapacity: nat,
    published: seq<int>,
    accepted: seq<Event>,
    feeds: map<nat, Feed>)

  datatype Step =
    | Publish(e: Event)
    | Subscribe(id: nat, workflow: string)
    | Unsubscribe(id: nat)
    | TakeNext(id: nat)

  function Init(queueCapacity: nat, dedupCapacity: nat): Hub {
    Hub(queueCapacity, dedupCapacity, [], [], map[])
  }

  function OfferFeed(f: Feed, capacity: nat, e: Event): Feed {
    if f.registered && f.workflow == e.workflow then
      var o := Offer(f.queue, capacity, e);
      f.(queue := o.queue, registered := o.kept)
    else f
  }

  function PublishTo(h: Hub, e: Event): Hub {
    if e.id in h.published then h
    else h.(
      published := LastN(h.published + [e.id], h.dedupCapacity),
      accepted := h.accepted + [e],
      feeds := map id | id in h.feeds :: OfferFeed(h.feeds[id], h.queueCapacity, e))
  }

  function TakeFrom(f: Feed): Feed {
    if f.queue == [] then f
    else f.(queue := f.queue[1..], taken := f.taken + [f.queue[0]])
  }

  /** Steps that cannot fire (a used id, an unknown id, an empty queue) change nothing. */
  function Next(h: Hub, step: Step): Hub {
    match step
    case Publish(e) => PublishTo(h, e)
    case Subscribe(id, workflow) =>
      if id in h.feeds then h
      else h.(feeds := h.feeds[id := Feed(workflow, |h.accepted|, [], true, [])])
    case Unsubscribe(id) =>
      if id !in h.feeds then h
      else h.(feeds := h.feeds[id := h.feeds[id].(registered := false)])
    case TakeNext(id) =>
      if id !in h.feeds then h
      else h.(feeds := h.feeds[id := TakeFrom(h.feeds[id])])
  }

  function Run(h: Hub, steps: seq<Step>): Hub {
    if steps == [] then h else Next(Run(h, steps[..|steps| - 1]), steps[|steps| - 1])
  }

  function OfWorkflow(events: seq<Event>, workflow: string): seq<Event> {
    if events == [] then []
    else
      var front := OfWorkflow(events[..|events| - 1], workflow);
      var last := events[|events| - 1];
      if last.workflow == workflow then front + [last] else front
  }

  function Wrap(events: seq<Event>): seq<Item> {
    seq(|events|, i requires 0 <= i < |events| => Some(events[i]))
  }

  /** The accepted publications of the feed's workflow since it subscribed. */
  function Owed(f: Feed, accepted: seq<Event>): seq<Event>
    requires f.since <= |accepted|
  {
    OfWorkflow(accepted[f.since..], f.workflow)
  }

  /**
   What a subscriber has been and will be given.  A registered subscriber misses
   nothing; a dropped one has a prefix, possibly closed by the sentinel, and the
   sentinel is the last thing it can receive.
   */
  ghost predicate FeedFaithful(f: Feed, accepted: seq<Event>, capacity: nat) {
    && f.since <= |accepted|
    && |f.queue| <= capacity
    && var stream := f.taken + f.queue;
       var owed := Wrap(Owed(f, accepted));
       if f.registered then stream == owed
       else stream <= owed || (stream != [] && stream[|stream| - 1] == None && stream[..|stream| - 1] <= owed)
  }

  ghost predicate Separated(accepted: seq<Event>, distance: nat) {
    forall i, j :: 0 <= i < j < |accepted| && accepted[i].id == accepted[j].id ==> j - i > distance
  }

  ghost predicate Faithful(h: Hub) {
    && h.queueCapacity >= 1
    && h.dedupCapacity >= 1
    && h.published == Ids(LastN(h.accepted, h.dedupCapacity))
    && Separated(h.accepted, h.dedupCapacity)
    && forall id :: id in h.feeds ==> FeedFaithful(h.feeds[id], h.accepted, h.queueCapacity)
  }

  lemma {:induction false} OfWorkflowAppend(events: seq<Event>, e: Event, workflow: string)
    ensures OfWorkflow(events + [e], workflow)
         == OfWorkflow(events, workflow) + (if e.workflow == workflow then [e] else [])
  {
  }

  lemma {:induction false} OwedGrows(f: Feed, accepted: seq<Event>, e: Event)
    requires f.since <= |accepted|
    ensures Wrap(Owed(f, accepted + [e])) == Wrap(Owed(f, accepted)) + if e.workflow == f.workflow then [Some(e)] else []
  {
    assert (accepted + [e])[f.since..] == accepted[f.since..] + [e];
    OfWorkflowAppend(accepted[f.since..], e, f.workflow);
  }

  lemma {:induction false} SameOwed(f: Feed, g: Feed, accepted: seq<Event>)
    requires f.since == g.since <= |accepted| && f.workflow == g.workflow
    ensures Owed(g, accepted) == Owed(f, accepted)
  {
  }

  /** What a feed without room for another event still gives is what it gave before, closed by the end marker. */
  lemma {:induction false} DropKeepsFeed(f: Feed, accepted: seq<Event>, capacity: nat, e: Event)
    requires capacity >= 1 && FeedFaithful(f, accepted, capacity) && f.registered
    ensures FeedFaithful(f.(queue := [None], registered := false), accepted + [e], capacity)
  {
    var g := f.(queue := [None], registered := false);
    OwedGrows(f, accepted, e);
    SameOwed(f, g, accepted + [e]);
    var stream := f.taken + [None];
    assert stream[..|stream| - 1] == f.taken;
    assert f.taken <= f.taken + f.queue;
  }

  lemma {:induction false} AppendKeepsFeed(f: Feed, accepted: seq<Event>, capacity: nat, e: Event)
    requires FeedFaithful(f, accepted, capacity) && f.registered && f.workflow == e.workflow && |f.queue| < capacity
    ensures FeedFaithful(f.(queue := f.queue + [Some(e)]), accepted + [e], capacity)
  {
    var g := f.(queue := f.queue + [Some(e)]);
    OwedGrows(f, accepted, e);
    SameOwed(f, g, accepted + [e]);
    assert g.taken + g.queue == (f.taken + f.queue) + [Some(e)];
  }

  /** A feed that gets nothing: its workflow is another one, or it is no longer registered. */
  lemma {:induction false} SkipKeepsFeed(f: Feed, accepted: seq<Event>, capacity: nat, e: Event)
    requires FeedFaithful(f, accepted, capacity) && !(f.registered && f.workflow == e.workflow)
    ensures FeedFaithful(f, accepted + [e], capacity)
  {
    OwedGrows(f, accepted, e);
  }

  lemma {:induction false} OfferKeepsFeed(f: Feed, accepted: seq<Event>, capacity: nat, e: Event)
    requires capacity >= 1
    requires FeedFaithful(f, accepted, capacity)
    ensures FeedFaithful(OfferFeed(f, capacity, e), accepted + [e], capacity)
  {
    if !(f.registered && f.workflow == e.workflow) {
      SkipKeepsFeed(f, accepted, capacity, e);
    } else if |f.queue| < capacity {
      AppendKeepsFeed(f, accepted, capacity, e);
    } else {
      DropKeepsFeed(f, accepted, capacity, e);
    }
  }

  lemma {:induction false} WindowKeeps(h: Hub, e: Event)
    requires Faithful(h) && e.id !in h.published
    ensures PublishTo(h, e).published == Ids(LastN(h.accepted + [e], h.dedupCapacity))
    ensures Separated(h.accepted + [e], h.dedupCapacity)
  {
    var n, k := |h.accepted|, h.dedupCapacity;
    forall i | 0 <= i < n && n - i <= k ensures h.accepted[i].id != e.id {
      var offset := if n <= k then 0 else n - k;
      assert h.published[i - offset] == h.accepted[i].id;
    }
    var all := h.accepted + [e];
    forall i, j | 0 <= i < j < |all| && all[i].id == all[j].id ensures j - i > k {
    }
    assert Ids(LastN(all, k)) == LastN(h.published + [e.id], k);
  }

  lemma PublishKeepsFaithful(h: Hub, e: Event)
    requires Faithful(h)
    ensures Faithful(PublishTo(h, e))
  {
    if e.id !in h.published {
      WindowKeeps(h, e);
      var after := PublishTo(h, e);
      forall id | id in after.feeds ensures FeedFaithful(after.feeds[id], after.accepted, after.queueCapacity) {
        OfferKeepsFeed(h.feeds[id], h.accepted, h.queueCapacity, e);
      }
    }
  }

  lemma TakeKeepsFeed(f: Feed, accepted: seq<Event>, capacity: nat)
    requires FeedFaithful(f, accepted, capacity)
    ensures FeedFaithful(TakeFrom(f), accepted, capacity)
  {
  }

  lemma FeedUpdated(h: Hub, id: nat, f: Feed)
    requires Faithful(h) && FeedFaithful(f, h.accepted, h.queueCapacity)
    ensures Faithful(h.(feeds := h.feeds[id := f]))
  {
  }

  /** Every broker operation keeps all of the broker's promises. */
  lemma {:induction false} NextKeepsFaithful(h: Hub, step: Step)
    requires Faithful(h)
    ensures Faithful(Next(h, step))
  {
    match step
    case Publish(e) => PublishKeepsFaithful(h, e);
    case Subscribe(id, workflow) =>
      assert h.accepted[|h.accepted|..] == [];
      FeedUpdated(h, id, Feed(workflow, |h.accepted|, [], true, []));
    case Unsubscribe(id) =>
      if id in h.feeds { FeedUpdated(h, id, h.feeds[id].(registered := false)); }
    case TakeNext(id) =>
      if id in h.feeds {
        TakeKeepsFeed(h.feeds[id], h.accepted, h.queueCapacity);
        FeedUpdated(h, id, TakeFrom(h.feeds[id]));
      }
  }

  /** Over every interleaving of publish, take, subscribe and unsubscribe. */
  lemma {:induction false} RunFaithful(queueCapacity: nat, dedupCapacity: nat, steps: seq<Step>)
    requires queueCapacity >= 1 && dedupCapacity >= 1
    ensures Faithful(Run(Init(queueCapacity, dedupCapacity), steps))
  {
    if steps != [] {
      RunFaithful(queueCapacity, dedupCapacity, steps[..|steps| - 1]);
      NextKeepsFaithful(Run(Init(queueCapacity, dedupCapacity), steps[..|steps| - 1]), steps[|steps| - 1]);
    }
  }

  /** Once the sentinel has been taken there is nothing behind it, now or later. */
  lemma SentinelIsLast(f: Feed, accepted: seq<Event>, capacity: nat, i: nat)
    requires FeedFaithful(f, accepted, capacity)
    requires i < |f.taken + f.queue| && (f.taken + f.queue)[i] == None
    ensures i == |f.taken + f.queue| - 1 && !f.registered
    ensures i < |f.taken| ==> f.queue == []
    ensures i < |f.taken| ==> forall e :: OfferFeed(f, capacity, e) == f
    ensures i < |f.taken| ==> TakeFrom(f) == f
  {
  }

  /** The acceptance behind the `i`th event of a workflow. */
  lemma {:induction false} Source(events: seq<Event>, workflow: string, i: nat) returns (a: nat)
    requires i < |OfWorkflow(events, workflow)|
    ensures a < |events| && events[a] == OfWorkflow(events, workflow)[i]
    ensures |OfWorkflow(events[..a], workflow)| == i
  {
    var n := |events| - 1;
    if i < |OfWorkflow(events[..n], workflow)| {
      a := Source(events[..n], workflow, i);
      assert events[..n][..a] == events[..a];
    } else {
      a := n;
    }
  }

  lemma {:induction false} OfWorkflowGrows(events: seq<Event>, workflow: string, a: nat, b: nat)
    requires a <= b <= |events|
    ensures |OfWorkflow(events[..a], workflow)| <= |OfWorkflow(events[..b], workflow)|
  {
    if a < b {
      OfWorkflowGrows(events, workflow, a, b - 1);
      assert events[..b][..b - 1] == events[..b - 1];
    }
  }

  lemma {:induction false} Sources(accepted: seq<Event>, since: nat, workflow: string, i: nat, j: nat)
    returns (a: nat, b: nat)
    requires since <= |accepted| && i < j < |OfWorkflow(accepted[since..], workflow)|
    ensures since <= a < b < |accepted|
    ensures var owed := OfWorkflow(accepted[since..], workflow); accepted[a] == owed[i] && accepted[b] == owed[j]
    ensures |OfWorkflow(accepted[since..a], workflow)| == i && |OfWorkflow(accepted[since..b], workflow)| == j
  {
    var recent := accepted[since..];
    var x := Source(recent, workflow, i);
    var y := Source(recent, workflow, j);
    if y <= x { OfWorkflowGrows(recent, workflow, y, x); }
    a, b := since + x, since + y;
    assert recent[..x] == accepted[since..a] && recent[..y] == accepted[since..b];
  }

  /** What a subscriber is given at a place is owed to it there, unless it is the end marker. */
  lemma GivenIsOwed(f: Feed, accepted: seq<Event>, capacity: nat, i: nat)
    requires FeedFaithful(f, accepted, capacity) && i < |f.taken + f.queue| && (f.taken + f.queue)[i] != None
    ensures i < |Owed(f, accepted)| && (f.taken + f.queue)[i] == Some(Owed(f, accepted)[i])
  {
    var stream := f.taken + f.queue;
    if !(stream <= Wrap(Owed(f, accepted))) { assert stream[..|stream| - 1][i] == stream[i]; }
  }

  /**
   An at-least-once publisher is at-most-once per subscriber within the window: when a subscriber
   is given one event twice, the two were accepted more than `dedupCapacity` acceptances apart.
   */
  lemma {:induction false} AtMostOnceInsideTheWindow(h: Hub, id: nat, i: nat, j: nat) returns (a: nat, b: nat)
    requires Faithful(h) && id in h.feeds && i < j < |h.feeds[id].taken + h.feeds[id].queue|
    requires (h.feeds[id].taken + h.feeds[id].queue)[i] == (h.feeds[id].taken + h.feeds[id].queue)[j]
    ensures var f := h.feeds[id];
            && f.since <= a < b < |h.accepted| && b - a > h.dedupCapacity
            && (f.taken + f.queue)[i] == Some(h.accepted[a]) == Some(h.accepted[b])
            && |OfWorkflow(h.accepted[f.since..a], f.workflow)| == i
            && |OfWorkflow(h.accepted[f.since..b], f.workflow)| == j
  {
    var f := h.feeds[id];
    if (f.taken + f.queue)[i] == None { SentinelIsLast(f, h.accepted, h.queueCapacity, i); }
    GivenIsOwed(f, h.accepted, h.queueCapacity, i);
    GivenIsOwed(f, h.accepted, h.queueCapacity, j);
    a, b := Sources(h.accepted, f.since, f.workflow, i, j);
    assert h.accepted[a].id == h.accepted[b].id;
  }

  // ------------------------------------------------------- the broker in place

  class EventSubscription {
    const id: nat
    const workflow: string
    var queue: seq<Item>

    constructor (id: nat, workflow: string)
      ensures this.id == id && this.workflow == workflow && queue == []
    {
      this.id, this.workflow, queue := id, workflow, [];
    }
  }

  class EventStreamBroker {
    const queueCapacity: nat
    const dedupCapacity: nat
    var subscriptions: seq<EventSubscription>
    var published: seq<int>

    ghost predicate Valid()
      reads this, subscriptions
    {
      && queueCapacity >= 1
      && dedupCapacity >= 1
      && |published| <= dedupCapacity
      && (forall i, j :: 0 <= i < j < |subscriptions| ==> subscriptions[i].id != subscriptions[j].id)
      && (forall s :: s in subscriptions ==> |s.queue| <= queueCapacity)
    }

    constructor (queueCapacity: nat, dedupCapacity: nat)
      requires queueCapacity >= 1 && dedupCapacity >= 1
      ensures Valid() && subscriptions == [] && published == []
      ensures this.queueCapacity == queueCapacity && this.dedupCapacity == dedupCapacity
    {
      this.queueCapacity, this.dedupCapacity := queueCapacity, dedupCapacity;
      subscriptions, published := [], [];
    }

    /** `id` is the fresh identifier the program draws for every subscription. */
    method Subscribe(id: nat, workflow: string) returns (subscription: EventSubscription)
      requires Valid()
      requires forall s :: s in subscriptions ==> s.id != id
      modifies this`subscriptions
      ensures Valid()
      ensures fresh(subscription) && subscription.id == id && subscription.workflow == workflow
      ensures subscription.queue == []
      ensures subscriptions == old(subscriptions) + [subscription]
    {
      subscription := new EventSubscription(id, workflow);
      subscriptions := subscriptions + [subscription];
    }

    method Unsubscribe(id: nat)
      requires Valid()
      modifies this`subscriptions
      ensures Valid()
      ensures forall s :: s in subscriptions <==> s in old(subscriptions) && s.id != id
    {
      var kept: seq<EventSubscription> := [];
      for i := 0 to |subscriptions|
        invariant forall s :: s in kept <==> s in subscriptions[..i] && s.id != id
        invariant forall a, b :: 0 <= a < b < |kept| ==> kept[a].id != kept[b].id
      {
        if subscriptions[i].id != id {
          assert forall s :: s in kept ==> s in subscriptions[..i];
          kept := kept + [subscriptions[i]];
        }
      }
      assert subscriptions[..|subscriptions|] == subscriptions;
      subscriptions := kept;
    }

    /** Put one envelope on one queue; a full queue is drained and closed. */
    method Enqueue(subscription: EventSubscription, envelope: Event) returns (kept: bool)
      requires queueCapacity >= 1 && |subscription.queue| <= queueCapacity
      modifies subscription
      ensures Offered(subscription.queue, kept) == Offer(old(subscription.queue), queueCapacity, envelope)
    {
      if |subscription.queue| < queueCapacity {
        subscription.queue := subscription.queue + [Some(envelope)];
        return true;
      }
      while subscription.queue != []
        decreases |subscription.queue|
      {
        subscription.queue := subscription.queue[1..];
      }
      subscription.queue := subscription.queue + [None];
      return false;
    }

    /** Add an id to the dedup window, evicting the oldest ids beyond its capacity. */
    method Remember(eventId: int)
      modifies this`published
      ensures published == LastN(old(published) + [eventId], dedupCapacity)
    {
      published := published + [eventId];
      while |published| > dedupCapacity
        invariant published == LastN(old(published) + [eventId], |published|)
        invariant dedupCapacity <= |published| || published == old(published) + [eventId]
        decreases |published|
      {
        published := published[1..];
      }
    }

    /** Offer an envelope to every subscription of its workflow; report those that overflow. */
    method OfferAll(envelope: Event) returns (overflowed: seq<nat>)
      requires Valid()
      modifies subscriptions
      ensures Valid()
      ensures forall s :: s in subscriptions ==>
                s.queue == if s.workflow == envelope.workflow
                           then Offer(old(s.queue), queueCapacity, envelope).queue
                           else old(s.queue)
      ensures forall s :: s in subscriptions ==>
                (s.id in overflowed <==>
                   s.workflow == envelope.workflow && !Offer(old(s.queue), queueCapacity, envelope).kept)
    {
      overflowed := [];
      for i := 0 to |subscriptions|
        invariant forall k :: i <= k < |subscriptions| ==>
                    subscriptions[k].queue == old(subscriptions[k].queue) && subscriptions[k].id !in overflowed
        invariant forall k :: 0 <= k < i ==>
                    subscriptions[k].queue == if subscriptions[k].workflow == envelope.workflow
                                              then Offer(old(subscriptions[k].queue), queueCapacity, envelope).queue
                                              else old(subscriptions[k].queue)
        invariant forall k :: 0 <= k < i ==>
                    (subscriptions[k].id in overflowed <==>
                       && subscriptions[k].workflow == envelope.workflow
                       && !Offer(old(subscriptions[k].queue), queueCapacity, envelope).kept)
      {
        var s := subscriptions[i];
        assert forall k :: 0 <= k < |subscriptions| && k != i ==> subscriptions[k].id != s.id;
        if s.workflow == envelope.workflow {
          var kept := Enqueue(s, envelope);
          if !kept {
            overflowed := overflowed + [s.id];
          }
        }
      }
    }

    method UnsubscribeAll(ids: seq<nat>)
      requires Valid()
      modifies this`subscriptions
      ensures Valid()
      ensures forall s :: s in subscriptions <==> s in old(subscriptions) && s.id !in ids
    {
      for i := 0 to |ids|
        invariant Valid()
        invariant forall s :: s in subscriptions <==> s in old(subscriptions) && s.id !in ids[..i]
      {
        Unsubscribe(ids[i]);
        assert ids[..i + 1] == ids[..i] + [ids[i]];
      }
      assert ids[..|ids|] == ids;
    }

    method Publish(envelope: Event, eventId: int) returns (result: Result<(), string>)
      requires Valid()
      modifies this, subscriptions
      ensures Valid()
      ensures result.Err? <==> envelope.id != eventId
      ensures result.Err? || eventId in old(published) ==>
                && published == old(published)
                && subscriptions == old(subscriptions)
                && forall s :: s in subscriptions ==> s.queue == old(s.queue)
      ensures result.Ok? && eventId !in old(published) ==>
                && published == LastN(old(published) + [eventId], dedupCapacity)
                && (forall s :: s in old(subscriptions) ==>
                      s.queue == if s.workflow == envelope.workflow
                                 then Offer(old(s.queue), queueCapacity, envelope).queue
                                 else old(s.queue))
                && (forall s :: s in subscriptions <==>
                      && s in old(subscriptions)
                      && (s.workflow == envelope.workflow ==> Offer(old(s.queue), queueCapacity, envelope).kept))
    {
      if envelope.id != eventId {
        return Err("published event id is inconsistent");
      }
      if eventId in published {
        return Ok(());
      }
      Remember(eventId);
      var overflowed := OfferAll(envelope);
      UnsubscribeAll(overflowed);
      return Ok(());
    }
  }
}
