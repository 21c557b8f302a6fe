/**
 The renderer's end of the event stream: the replay cursor, the reducer and the
 read model it builds.
 */
module Renderer {
  import opened Wrappers
  import opened EventLog

  /** An event as it arrives over IPC; the declared type promises less than the cursor checks. */
  datatype Incoming = Incoming(schemaVersion: int, eventId: Option<JsNumber>, workflow: string)

  datatype Decision = Apply | Duplicate | Invalid | Incompatible

  datatype ProtocolIssue = InvalidEvent | IncompatibleSchema

  datatype ReadModel = ReadModel(
    lastAppliedEventId: int,
    lastEvent: Option<Event>,
    appliedEventIds: seq<int>,
    recentEvents: seq<Event>,
    protocolIssue: Option<ProtocolIssue>)

  const RECENT_LIMIT := 100

  function Decide(cursor: int, event: Incoming): Decision {
    if event.schemaVersion != 1 then Incompatible
    else match event.eventId
      case Some(Whole(n)) => if n <= 0 then Invalid else if n <= cursor then Duplicate else Apply
      case _ => Invalid
  }

  function EmptyModel(): ReadModel {
    ReadModel(0, None, [], [], None)
  }

  function ApplyEvent(m: ReadModel, e: Event): ReadModel {
    ReadModel(
      e.id,
      Some(e),
      m.appliedEventIds + [e.id],
      LastN(m.recentEvents + [e], RECENT_LIMIT),
      None)
  }

  /** The incoming event of a persisted one. */
  function IncomingOf(e: Event): Incoming {
    Incoming(1, Some(Whole(e.id)), e.workflow)
  }

  datatype Stream = Stream(cursor: int, model: ReadModel)

  function Init(): Stream {
    Stream(0, EmptyModel())
  }

  function Step(s: Stream, event: Incoming): Stream {
    match Decide(s.cursor, event)
    case Duplicate => s
    case Incompatible => s.(model := s.model.(protocolIssue := Some(IncompatibleSchema)))
    case Invalid => s.(model := s.model.(protocolIssue := Some(InvalidEvent)))
    case Apply =>
      var e := Event(event.eventId.value.n, event.workflow);
      Stream(e.id, ApplyEvent(s.model, e))
  }

  function Run(events: seq<Incoming>): Stream {
    if events == [] then Init() else Step(Run(events[..|events| - 1]), events[|events| - 1])
  }

  /**
   The events a correct consumer applies, said without a cursor: those that are
   well formed and larger than every well-formed event before them.
   */
  ghost predicate WellFormed(event: Incoming) {
    event.schemaVersion == 1 && event.eventId.Some? && event.eventId.value.Whole? && event.eventId.value.n > 0
  }

  function Id(event: Incoming): int
    requires WellFormed(event)
  {
    event.eventId.value.n
  }

  ghost predicate Leads(events: seq<Incoming>, i: nat)
    requires i < |events|
  {
    && WellFormed(events[i])
    && forall j :: 0 <= j < i && WellFormed(events[j]) ==> Id(events[j]) < Id(events[i])
  }

  ghost function Leaders(events: seq<Incoming>): seq<Event> {
    if events == [] then []
    else
      var front := Leaders(events[..|events| - 1]);
      var last := events[|events| - 1];
      if Leads(events, |events| - 1) then front + [Event(Id(last), last.workflow)] else front
  }

  /** The read model is determined by the leading events alone. */
  ghost predicate Reflects(s: Stream, applied: seq<Event>) {
    && Increasing(applied)
    && s.model.appliedEventIds == Ids(applied)
    && s.model.recentEvents == LastN(applied, 100)
    && s.model.lastAppliedEventId == s.cursor
    && s.cursor >= 0
    && (applied == [] ==> s.cursor == 0 && s.model.lastEvent == None)
    && (applied != [] ==> s.cursor == applied[|applied| - 1].id && s.model.lastEvent == Some(applied[|applied| - 1]))
  }

  ghost predicate Dominates(cursor: int, events: seq<Incoming>) {
    && (forall i :: 0 <= i < |events| && WellFormed(events[i]) ==> Id(events[i]) <= cursor)
    && (cursor == 0 || exists i :: 0 <= i < |events| && WellFormed(events[i]) && Id(events[i]) == cursor)
  }

  lemma {:induction false} StepDominates(front: seq<Incoming>, last: Incoming, cursor: int, next: int)
    requires cursor >= 0 && Dominates(cursor, front)
    requires next == if WellFormed(last) && cursor < Id(last) then Id(last) else cursor
    ensures Dominates(next, front + [last])
    ensures Leads(front + [last], |front|) <==> WellFormed(last) && cursor < Id(last)
  {
    var events := front + [last];
    forall i | 0 <= i < |front| ensures events[i] == front[i] {}
    assert events[|front|] == last;
    if cursor != 0 {
      var i :| 0 <= i < |front| && WellFormed(front[i]) && Id(front[i]) == cursor;
      assert events[i] == front[i];
    }
  }

  lemma {:induction false} StepReflects(s: Stream, applied: seq<Event>, event: Incoming)
    requires Reflects(s, applied)
    ensures var leads := WellFormed(event) && s.cursor < Id(event);
            && Step(s, event).cursor == (if leads then Id(event) else s.cursor)
            && Reflects(Step(s, event), if leads then applied + [Event(Id(event), event.workflow)] else applied)
  {
    if WellFormed(event) && s.cursor < Id(event) {
      assert Ids(applied + [Event(Id(event), event.workflow)]) == Ids(applied) + [Id(event)];
    }
  }

  lemma {:induction false} LeadersStep(front: seq<Incoming>, last: Incoming)
    ensures Leaders(front + [last])
         == Leaders(front) + if Leads(front + [last], |front|) then [Event(Id(last), last.workflow)] else []
  {
    assert (front + [last])[..|front|] == front;
  }

  /** Over any events at all: malformed, repeated, or out of order. */
  lemma {:induction false} RunReflectsLeaders(events: seq<Incoming>)
    ensures Reflects(Run(events), Leaders(events))
    ensures Dominates(Run(events).cursor, events)
  {
    if events != [] {
      var front, last := events[..|events| - 1], events[|events| - 1];
      RunReflectsLeaders(front);
      assert events == front + [last];
      StepReflects(Run(front), Leaders(front), last);
      StepDominates(front, last, Run(front).cursor, Run(events).cursor);
      LeadersStep(front, last);
    }
  }

  /** The complaint a window shows: the last one since an event was applied; repeated events change nothing. */
  ghost function Complaint(events: seq<Incoming>): Option<ProtocolIssue> {
    if events == [] then None
    else
      var last := events[|events| - 1];
      if last.schemaVersion != 1 then Some(IncompatibleSchema)
      else if !WellFormed(last) then Some(InvalidEvent)
      else if Leads(events, |events| - 1) then None
      else Complaint(events[..|events| - 1])
  }

  lemma {:induction false} StepComplains(s: Stream, event: Incoming)
    requires s.cursor >= 0
    ensures Step(s, event).model.protocolIssue
            == if event.schemaVersion != 1 then Some(IncompatibleSchema)
               else if !WellFormed(event) then Some(InvalidEvent)
               else if s.cursor < Id(event) then None
               else s.model.protocolIssue
  {
  }

  lemma {:induction false} ComplaintMore(front: seq<Incoming>, last: Incoming)
    ensures Complaint(front + [last])
            == if last.schemaVersion != 1 then Some(IncompatibleSchema)
               else if !WellFormed(last) then Some(InvalidEvent)
               else if Leads(front + [last], |front|) then None
               else Complaint(front)
  {
    assert (front + [last])[..|front|] == front;
  }

  lemma {:induction false} RunComplains(events: seq<Incoming>)
    ensures Run(events).model.protocolIssue == Complaint(events)
  {
    if events != [] {
      var front, last := events[..|events| - 1], events[|events| - 1];
      var s := Run(front);
      RunComplains(front);
      RunReflectsLeaders(front);
      StepComplains(s, last);
      StepDominates(front, last, s.cursor, if WellFormed(last) && s.cursor < Id(last) then Id(last) else s.cursor);
      ComplaintMore(front, last);
      assert events == front + [last];
    }
  }

  class ReplayCursor {
    var lastEventId: int

    constructor ()
      ensures lastEventId == 0
    {
      lastEventId := 0;
    }

    method Evaluate(event: Incoming) returns (decision: Decision)
      modifies this
      ensures decision == Decide(old(lastEventId), event)
      ensures lastEventId == (if decision == Apply then event.eventId.value.n else old(lastEventId))
    {
      if event.schemaVersion != 1 {
        return Incompatible;
      }
      if event.eventId == None || event.eventId.value.Fraction? || event.eventId.value.n <= 0 {
        return Invalid;
      }
      var eventId := event.eventId.value.n;
      if eventId <= lastEventId {
        return Duplicate;
      }
      lastEventId := eventId;
      return Apply;
    }
  }

  class EventStream {
    const cursor: ReplayCursor
    var model: ReadModel

    ghost function View(): Stream
      reads this, cursor
    {
      Stream(cursor.lastEventId, model)
    }

    constructor ()
      ensures View() == Init() && fresh(cursor)
    {
      cursor := new ReplayCursor();
      model := EmptyModel();
    }

    method Receive(event: Incoming)
      modifies this, cursor
      ensures View() == Step(old(View()), event)
    {
      var decision := cursor.Evaluate(event);
      match decision {
        case Duplicate =>
        case Incompatible => model := model.(protocolIssue := Some(IncompatibleSchema));
        case Invalid => model := model.(protocolIssue := Some(InvalidEvent));
        case Apply => model := ApplyEvent(model, Event(event.eventId.value.n, event.workflow));
      }
    }
  }
}
