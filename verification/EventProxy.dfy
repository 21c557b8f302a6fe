/**
 The desktop process's end of the event stream: one cursor, one socket, and the
 generation counter that lets it ignore connection attempts it has superseded.

 `connect` awaits a ticket, so it is two steps here: the synchronous part up to
 the await (`BeginConnect`) and the continuation (`FinishConnect`).  `connecting`
 holds the attempts that are suspended at the await, `forwarded` the events sent
 to the window; both are observations of the environment, not program fields.
 */
module EventProxy {
  import opened Wrappers
  import opened EventLog

  /** A parsed event object; `None` stands for a field that is absent or of another type. */
  datatype RawEvent = RawEvent(schemaVersion: int, eventId: Option<JsNumber>, hasType: bool, workflow: string)

  datatype Frame =
    | NotText
    | NotJson
    | Message(schemaVersion: int, kind: Option<string>, eventId: Option<JsNumber>, event: Option<RawEvent>)

  datatype Verdict = Close(code: int) | Skip | Candidate(e: Event)

  function Judge(frame: Frame): Verdict {
    match frame
    case NotText => Close(1003)
    case NotJson => Close(1007)
    case Message(schemaVersion, kind, eventId, event) =>
      if schemaVersion != 1 || kind == None then Close(1007)
      else if kind == Some("ready") then Skip
      else if kind != Some("event") || eventId == None then Close(1007)
      else match event
        case None => Close(1007)
        case Some(raw) =>
          if raw.schemaVersion != 1 || !raw.hasType then Close(1007)
          else match raw.eventId
            case Some(Whole(n)) =>
              if n < 1 || eventId != Some(Whole(n)) then Close(1007) else Candidate(Event(n, raw.workflow))
            case _ => Close(1007)
  }

  /** The frame the server sends for an event. */
  function FrameOf(e: Event): Frame {
    Message(1, Some("event"), Some(Whole(e.id)), Some(RawEvent(1, Some(Whole(e.id)), true, e.workflow)))
  }

  datatype Socket = Socket(id: nat, generation: nat)

  datatype Timer = Timer(generation: nat, delay: nat)

  datatype Proxy = Proxy(
    active: Option<string>,
    lastEventId: int,
    socket: Option<Socket>,
    generation: nat,
    reconnectAttempt: nat,
    timer: Option<Timer>,
    stopped: bool,
    connecting: multiset<nat>,
    forwarded: seq<Event>)

  datatype Input =
    | ObserveWorkflow(workflow: string)
    | RequestReplay(after: JsNumber)
    | Stop
    | Connected(generation: nat, socketId: nat)
    | ConnectFailed(generation: nat)
    | TimerFired
    | SocketOpened
    | SocketClosed(socketId: nat)
    | Receive(frame: Frame, alive: bool)

  const MAX_RECONNECT_DELAY_MS := 5000

  /** `250 * 2 ** attempt`. */
  function Doubled(attempt: nat): nat {
    if attempt == 0 then 250 else 2 * Doubled(attempt - 1)
  }

  lemma {:induction false} DoublingGrows(attempt: nat, later: nat)
    requires attempt <= later
    ensures 250 <= Doubled(attempt) <= Doubled(later)
  {
    if attempt < later {
      DoublingGrows(attempt, later - 1);
    } else if attempt > 0 {
      DoublingGrows(attempt - 1, attempt - 1);
    }
  }

  function ReconnectDelay(attempt: nat): nat {
    if Doubled(attempt) < MAX_RECONNECT_DELAY_MS then Doubled(attempt) else MAX_RECONNECT_DELAY_MS
  }

  /** Delays never shrink from one attempt to the next and stay within 250 and 5000 milliseconds. */
  lemma DelayBounds(attempt: nat)
    ensures 250 <= ReconnectDelay(attempt) <= ReconnectDelay(attempt + 1) <= MAX_RECONNECT_DELAY_MS
    ensures attempt >= 5 ==> ReconnectDelay(attempt) == MAX_RECONNECT_DELAY_MS
  {
    DoublingGrows(attempt, attempt + 1);
    if attempt >= 5 {
      DoublingGrows(5, attempt);
      assert Doubled(5) == 2 * Doubled(4) && Doubled(4) == 2 * Doubled(3) && Doubled(3) == 2 * Doubled(2);
      assert Doubled(2) == 2 * Doubled(1) && Doubled(1) == 2 * Doubled(0);
    }
  }

  function Init(): Proxy {
    Proxy(None, 0, None, 0, 0, None, false, multiset{}, [])
  }

  function BeginConnect(p: Proxy, generation: nat): Proxy {
    if p.active == None || generation != p.generation || p.stopped then p
    else p.(connecting := p.connecting + multiset{generation})
  }

  /** The next generation, with no socket and no timer. */
  function Reset(p: Proxy): Proxy {
    p.(generation := p.generation + 1, timer := None, socket := None)
  }

  function Restarted(p: Proxy): Proxy {
    if p.stopped then Reset(p) else BeginConnect(Reset(p), p.generation + 1)
  }

  function Rescheduled(p: Proxy, generation: nat): Proxy {
    if generation != p.generation || p.stopped || p.timer != None then p
    else p.(reconnectAttempt := p.reconnectAttempt + 1, timer := Some(Timer(generation, ReconnectDelay(p.reconnectAttempt))))
  }

  function FinishConnect(p: Proxy, generation: nat, socketId: Option<nat>): Proxy {
    if generation !in p.connecting then p
    else
      var q := p.(connecting := p.connecting - multiset{generation});
      match socketId
      case None => Rescheduled(q, generation)
      case Some(id) => if generation != q.generation then q else q.(socket := Some(Socket(id, generation)))
  }

  function ReceiveFrame(p: Proxy, frame: Frame, alive: bool): Proxy {
    match Judge(frame)
    case Candidate(e) =>
      if e.id <= p.lastEventId then p
      else p.(lastEventId := e.id, forwarded := if alive then p.forwarded + [e] else p.forwarded)
    case _ => p
  }

  function Next(p: Proxy, input: Input): Proxy {
    match input
    case ObserveWorkflow(workflow) =>
      if p.active == Some(workflow) then p
      else Restarted(p.(active := Some(workflow), reconnectAttempt := 0))
    case RequestReplay(after) =>
      if after.Fraction? || after.n < 0 then p
      else
        var q := p.(lastEventId := if p.lastEventId >= after.n then p.lastEventId else after.n);
        if q.active != None && q.socket == None then Restarted(q) else q
    case Stop =>
      p.(stopped := true, generation := p.generation + 1, timer := None, socket := None)
    case Connected(generation, socketId) => FinishConnect(p, generation, Some(socketId))
    case ConnectFailed(generation) => FinishConnect(p, generation, None)
    case TimerFired =>
      if p.timer == None then p else BeginConnect(p.(timer := None), p.timer.value.generation)
    case SocketOpened => p.(reconnectAttempt := 0)
    case SocketClosed(socketId) =>
      if p.socket == None || p.socket.value.id != socketId then p
      else Rescheduled(p.(socket := None), p.socket.value.generation)
    case Receive(frame, alive) => ReceiveFrame(p, frame, alive)
  }

  function Run(p: Proxy, inputs: seq<Input>): Proxy {
    if inputs == [] then p else Next(Run(p, inputs[..|inputs| - 1]), inputs[|inputs| - 1])
  }

  /** Everything forwarded is strictly increasing and never beyond the cursor. */
  ghost predicate InOrder(p: Proxy) {
    && p.lastEventId >= 0
    && Increasing(p.forwarded)
    && forall e :: e in p.forwarded ==> 1 <= e.id <= p.lastEventId
  }

  /** The number of things under way that will lead to the next event or attempt. */
  function Activities(p: Proxy): nat {
    (if p.socket == None then 0 else 1)
    + (if p.timer == None then 0 else 1)
    + p.connecting[p.generation]
  }

  /**
   The proxy is never stuck and never connects twice: from the first observed
   workflow until it is stopped, exactly one of an open socket, an armed timer and
   a pending attempt of the current generation exists.
   */
  ghost predicate Supervised(p: Proxy) {
    && (forall g :: g in p.connecting ==> g <= p.generation)
    && (p.socket != None ==> p.socket.value.generation == p.generation)
    && (p.timer != None ==> p.timer.value.generation == p.generation)
    && (p.timer != None ==> 250 <= p.timer.value.delay <= MAX_RECONNECT_DELAY_MS)
    && (p.stopped || p.active == None ==> Activities(p) == 0)
    && (!p.stopped && p.active != None ==> Activities(p) == 1)
  }

  /** Only a frame can move anything to the window. */
  lemma QuietInput(p: Proxy, input: Input)
    requires !input.Receive?
    ensures Next(p, input).forwarded == p.forwarded && p.lastEventId <= Next(p, input).lastEventId
  {
  }

  lemma ReceiveKeepsOrder(p: Proxy, frame: Frame, alive: bool)
    requires InOrder(p)
    ensures var q := ReceiveFrame(p, frame, alive);
            InOrder(q) && p.lastEventId <= q.lastEventId && p.forwarded <= q.forwarded
  {
  }

  lemma NextKeepsOrder(p: Proxy, input: Input)
    requires InOrder(p)
    ensures InOrder(Next(p, input))
    ensures p.lastEventId <= Next(p, input).lastEventId
    ensures p.forwarded <= Next(p, input).forwarded
  {
    if input.Receive? { ReceiveKeepsOrder(p, input.frame, input.alive); } else { QuietInput(p, input); }
  }

  lemma {:induction false} RestartSupervises(p: Proxy)
    requires forall g :: g in p.connecting ==> g <= p.generation
    requires p.active != None
    ensures Supervised(Restarted(p))
  {
    assert p.connecting[p.generation + 1] == 0;
  }

  lemma {:induction false} FinishSupervises(p: Proxy, generation: nat, socketId: Option<nat>)
    requires Supervised(p)
    ensures Supervised(FinishConnect(p, generation, socketId))
  {
    DelayBounds(p.reconnectAttempt);
    if generation in p.connecting {
      var q := p.(connecting := p.connecting - multiset{generation});
      assert forall g :: g in q.connecting ==> g in p.connecting;
      if generation != p.generation {
        assert q.connecting[p.generation] == p.connecting[p.generation];
      } else {
        assert q.connecting[generation] == 0;
      }
    }
  }

  /** What a timer, a socket or a frame does leaves one activity, or replaces a socket by a timer. */
  lemma {:induction false} EventSupervises(p: Proxy, input: Input)
    requires Supervised(p) && (input.TimerFired? || input.SocketOpened? || input.SocketClosed? || input.Receive?)
    ensures Supervised(Next(p, input))
  {
    DelayBounds(p.reconnectAttempt);
  }

  lemma {:induction false} NextKeepsSupervised(p: Proxy, input: Input)
    requires Supervised(p)
    ensures Supervised(Next(p, input))
  {
    match input
    case ObserveWorkflow(workflow) =>
      if p.active != Some(workflow) {
        RestartSupervises(p.(active := Some(workflow), reconnectAttempt := 0));
      }
    case RequestReplay(after) =>
      if after.Whole? && p.active != None && p.socket == None {
        RestartSupervises(p.(lastEventId := if p.lastEventId >= after.n then p.lastEventId else after.n));
      }
    case Stop =>
      assert p.connecting[p.generation + 1] == 0;
    case Connected(generation, socketId) => FinishSupervises(p, generation, Some(socketId));
    case ConnectFailed(generation) => FinishSupervises(p, generation, None);
    case _ => EventSupervises(p, input);
  }

  /** For every sequence of calls, frames, closed sockets and late attempts. */
  lemma {:induction false} RunSupervisedInOrder(inputs: seq<Input>)
    ensures InOrder(Run(Init(), inputs))
    ensures Supervised(Run(Init(), inputs))
  {
    if inputs != [] {
      var before := inputs[..|inputs| - 1];
      RunSupervisedInOrder(before);
      NextKeepsOrder(Run(Init(), before), inputs[|inputs| - 1]);
      NextKeepsSupervised(Run(Init(), before), inputs[|inputs| - 1]);
    }
  }

  /** One input forwards at most one event, and only one above the cursor. */
  lemma {:induction false} NextForwards(p: Proxy, input: Input)
    ensures var q := Next(p, input);
            && p.lastEventId <= q.lastEventId
            && (q.forwarded == p.forwarded
                || (|q.forwarded| == |p.forwarded| + 1 && p.forwarded <= q.forwarded
                    && q.forwarded[|p.forwarded|].id > p.lastEventId))
  {
  }

  lemma {:induction false} ForwardsOn(before: seq<Event>, middle: seq<Event>, after: seq<Event>, low: int, high: int)
    requires low <= high && before <= middle
    requires forall i :: |before| <= i < |middle| ==> middle[i].id > low
    requires after == middle || (|after| == |middle| + 1 && middle <= after && after[|middle|].id > high)
    ensures before <= after && forall i :: |before| <= i < |after| ==> after[i].id > low
  {
    forall i | |before| <= i < |after| ensures after[i].id > low {
      if i < |middle| { assert after[i] == middle[i]; }
    }
  }

  /** Whatever the inputs, a switch of workflow included, nothing at or below the cursor is forwarded any more. */
  lemma {:induction false} NothingOlderIsForwarded(p: Proxy, inputs: seq<Input>)
    ensures var q := Run(p, inputs);
            && p.lastEventId <= q.lastEventId
            && p.forwarded <= q.forwarded
            && forall i :: |p.forwarded| <= i < |q.forwarded| ==> q.forwarded[i].id > p.lastEventId
  {
    if inputs != [] {
      var front, last := inputs[..|inputs| - 1], inputs[|inputs| - 1];
      var middle := Run(p, front);
      NothingOlderIsForwarded(p, front);
      NextForwards(middle, last);
      ForwardsOn(p.forwarded, middle.forwarded, Next(middle, last).forwarded, p.lastEventId, middle.lastEventId);
    }
  }

  // -------------------------------------------------------- the proxy in place

  class EventProxy {
    var active: Option<string>
    var lastEventId: int
    var socket: Option<Socket>
    var generation: nat
    var reconnectAttempt: nat
    var timer: Option<Timer>
    var stopped: bool
    ghost var connecting: multiset<nat>
    ghost var forwarded: seq<Event>

    ghost function View(): Proxy
      reads this
    {
      Proxy(active, lastEventId, socket, generation, reconnectAttempt, timer, stopped, connecting, forwarded)
    }

    constructor ()
      ensures View() == Init()
    {
      active, lastEventId, socket, generation, reconnectAttempt := None, 0, None, 0, 0;
      timer, stopped, connecting, forwarded := None, false, multiset{}, [];
    }

    method ObserveWorkflow(workflowId: string)
      modifies this
      ensures View() == Next(old(View()), Input.ObserveWorkflow(workflowId))
    {
      if active == Some(workflowId) {
        return;
      }
      active := Some(workflowId);
      reconnectAttempt := 0;
      Restart();
    }

    method RequestReplay(afterEventId: JsNumber) returns (accepted: bool)
      modifies this
      ensures View() == Next(old(View()), Input.RequestReplay(afterEventId))
      ensures accepted <==> afterEventId.Whole? && afterEventId.n >= 0
    {
      if afterEventId.Fraction? || afterEventId.n < 0 {
        return false;
      }
      if afterEventId.n > lastEventId {
        lastEventId := afterEventId.n;
      }
      if active != None && socket == None {
        Restart();
      }
      return true;
    }

    method Stop()
      modifies this
      ensures View() == Next(old(View()), Input.Stop)
    {
      stopped := true;
      generation := generation + 1;
      timer := None;
      socket := None;
    }

    method Restart()
      modifies this
      ensures View() == Restarted(old(View()))
    {
      generation := generation + 1;
      timer := None;
      socket := None;
      assert View() == Reset(old(View()));
      if !stopped {
        Connect(generation);
      }
    }

    /** The part of `connect` that runs before its first await. */
    method Connect(attempt: nat)
      modifies this`connecting
      ensures View() == BeginConnect(old(View()), attempt)
    {
      if active == None || attempt != generation || stopped {
        return;
      }
      connecting := connecting + multiset{attempt};
    }

    /** The rest of `connect`: `socketId` is the new socket, or `None` when an await or the socket threw. */
    method ResumeConnect(attempt: nat, socketId: Option<nat>)
      requires attempt in connecting
      modifies this
      ensures View() == FinishConnect(old(View()), attempt, socketId)
    {
      connecting := connecting - multiset{attempt};
      match socketId {
        case None =>
          ScheduleReconnect(attempt);
        case Some(id) =>
          if attempt == generation {
            socket := Some(Socket(id, attempt));
          }
      }
    }

    method ScheduleReconnect(attempt: nat)
      modifies this`timer, this`reconnectAttempt
      ensures View() == Rescheduled(old(View()), attempt)
    {
      if attempt != generation || stopped || timer != None {
        return;
      }
      var delay := ReconnectDelay(reconnectAttempt);
      reconnectAttempt := reconnectAttempt + 1;
      timer := Some(Timer(attempt, delay));
    }

    method OnTimer()
      requires timer != None
      modifies this
      ensures View() == Next(old(View()), TimerFired)
    {
      var attempt := timer.value.generation;
      timer := None;
      Connect(attempt);
    }

    method OnOpen()
      modifies this`reconnectAttempt
      ensures View() == Next(old(View()), SocketOpened)
    {
      reconnectAttempt := 0;
    }

    method OnClose(socketId: nat)
      modifies this
      ensures View() == Next(old(View()), SocketClosed(socketId))
    {
      if socket != None && socket.value.id == socketId {
        var attempt := socket.value.generation;
        socket := None;
        ScheduleReconnect(attempt);
      }
    }

    /** `closed` is the code the socket is closed with when the frame is refused. */
    method Receive(frame: Frame, alive: bool) returns (closed: Option<int>)
      modifies this
      ensures View() == Next(old(View()), Input.Receive(frame, alive))
      ensures closed == (if Judge(frame).Close? then Some(Judge(frame).code) else None)
    {
      match Judge(frame) {
        case Close(code) => return Some(code);
        case Skip => return None;
        case Candidate(e) =>
          if e.id <= lastEventId {
            return None;
          }
          lastEventId := e.id;
          if alive {
            forwarded := forwarded + [e];
          }
          return None;
      }
    }
  }
}
