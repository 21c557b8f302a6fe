/**
 The persisted event log and its replay query.

 Event ids are assigned by the database in commit order, so the log is strictly
 increasing.  An envelope is represented by its id and its workflow; the rest of
 it is a function of the id.
 */
module EventLog {
  datatype Event = Event(id: int, workflow: string)

  ghost predicate Increasing(events: seq<Event>) {
    forall i, j :: 0 <= i < j < |events| ==> events[i].id < events[j].id
  }

  ghost predicate Ordered(log: seq<Event>) {
    && (forall i :: 0 <= i < |log| ==> log[i].id >= 1)
    && Increasing(log)
  }

  /** The events of `workflow` whose id exceeds `after`, in log order. */
  function Above(log: seq<Event>, workflow: string, after: int): seq<Event> {
    if log == [] then []
    else
      var front := Above(log[..|log| - 1], workflow, after);
      var last := log[|log| - 1];
      if last.workflow == workflow && last.id > after then front + [last] else front
  }

  function Take<T>(s: seq<T>, n: nat): seq<T> {
    if n <= |s| then s[..n] else s
  }

  /** The ids of a sequence of events. */
  function Ids(events: seq<Event>): seq<int> {
    seq(|events|, i requires 0 <= i < |events| => events[i].id)
  }

  /** The repository query behind every replay: one bounded page of `Above`. */
  function ListAfter(log: seq<Event>, workflow: string, after: int, limit: nat): seq<Event> {
    Take(Above(log, workflow, after), limit)
  }

  lemma {:induction false} AboveAppend(log: seq<Event>, e: Event, workflow: string, after: int)
    ensures Above(log + [e], workflow, after)
         == Above(log, workflow, after) + (if e.workflow == workflow && e.id > after then [e] else [])
  {
  }

  lemma {:induction false} AboveMembers(log: seq<Event>, workflow: string, after: int, e: Event)
    ensures e in Above(log, workflow, after) <==> e in log && e.workflow == workflow && e.id > after
  {
    if log != [] {
      var front := log[..|log| - 1];
      assert log == front + [log[|log| - 1]];
      AboveMembers(front, workflow, after, e);
    }
  }

  lemma {:induction false} AboveOrdered(log: seq<Event>, workflow: string, after: int)
    requires Ordered(log)
    ensures Ordered(Above(log, workflow, after))
  {
    if log != [] {
      var front := log[..|log| - 1];
      AboveOrdered(front, workflow, after);
      forall i | 0 <= i < |Above(front, workflow, after)|
        ensures Above(front, workflow, after)[i].id < log[|log| - 1].id
      {
        AboveMembers(front, workflow, after, Above(front, workflow, after)[i]);
      }
    }
  }

  lemma {:induction false} AboveSplitMore(front: seq<Event>, last: Event, k: nat, workflow: string, after: int)
    requires k <= |front|
    requires Above(front, workflow, after) == Above(front[..k], workflow, after) + Above(front[k..], workflow, after)
    ensures Above(front + [last], workflow, after)
         == Above(front[..k], workflow, after) + Above(front[k..] + [last], workflow, after)
  {
    AboveAppend(front, last, workflow, after);
    AboveAppend(front[k..], last, workflow, after);
  }

  lemma {:induction false} AboveSplit(log: seq<Event>, k: nat, workflow: string, after: int)
    requires k <= |log|
    ensures Above(log, workflow, after)
         == Above(log[..k], workflow, after) + Above(log[k..], workflow, after)
  {
    if k == |log| {
      assert log[..k] == log && log[k..] == [];
    } else {
      var front, last := log[..|log| - 1], log[|log| - 1];
      assert log == front + [last];
      AboveSplit(front, k, workflow, after);
      AboveSplitMore(front, last, k, workflow, after);
      assert front[..k] == log[..k] && log[k..] == front[k..] + [last];
    }
  }

  /** Raising the cursor without passing an event of the workflow changes nothing. */
  lemma {:induction false} AboveJump(log: seq<Event>, workflow: string, low: int, high: int)
    requires low <= high
    requires forall e :: e in log && e.workflow == workflow && e.id > low ==> e.id > high
    ensures Above(log, workflow, high) == Above(log, workflow, low)
  {
    if log != [] {
      var front, last := log[..|log| - 1], log[|log| - 1];
      assert last in log;
      forall e | e in front && e.workflow == workflow && e.id > low ensures e.id > high {
        assert e in log;
      }
      AboveJump(front, workflow, low, high);
    }
  }

  /** Moving the cursor to the next event of the workflow drops exactly that event. */
  lemma {:induction false} AboveNext(log: seq<Event>, workflow: string, after: int)
    requires Ordered(log)
    requires Above(log, workflow, after) != []
    ensures Above(log, workflow, after)[0].id > after
    ensures Above(log, workflow, Above(log, workflow, after)[0].id) == Above(log, workflow, after)[1..]
  {
    var front, last := log[..|log| - 1], log[|log| - 1];
    var found := Above(front, workflow, after);
    if found == [] {
      var later := Above(front, workflow, last.id);
      if later != [] { AboveMembers(front, workflow, last.id, later[0]); }
      assert later == [];
    } else {
      AboveNext(front, workflow, after);
      AboveMembers(front, workflow, after, found[0]);
    }
  }

  /** A cursor strictly below the next event of the workflow sees the same events. */
  lemma {:induction false} AboveGap(log: seq<Event>, workflow: string, low: int, high: int)
    requires Ordered(log)
    requires low <= high
    requires Above(log, workflow, low) != [] ==> high < Above(log, workflow, low)[0].id
    ensures Above(log, workflow, high) == Above(log, workflow, low)
  {
    AboveOrdered(log, workflow, low);
    forall e | e in log && e.workflow == workflow && e.id > low ensures e.id > high {
      AboveMembers(log, workflow, low, e);
    }
    AboveJump(log, workflow, low, high);
  }
}
