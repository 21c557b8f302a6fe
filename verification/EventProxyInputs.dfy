/**
 What single inputs do to the proxy: which frames it takes for events and how it closes on all
 others, and how long it waits after each failure in a row.
 */
module EventProxyInputs {
  import opened Wrappers
  import opened EventLog
  import opened EventProxy

  // ------------------------------------------------------------------------- frames

  /** A frame that carries an event: the right schema twice, one id twice, and a type. */
  ghost predicate Carries(frame: Frame, e: Event) {
    && frame.Message? && frame.schemaVersion == 1 && frame.kind == Some("event") && frame.eventId == Some(Whole(e.id))
    && frame.event.Some? && e.id >= 1
    && var raw := frame.event.value;
       raw.schemaVersion == 1 && raw.hasType && raw.eventId == Some(Whole(e.id)) && raw.workflow == e.workflow
  }

  predicate Ready(frame: Frame) {
    frame.Message? && frame.schemaVersion == 1 && frame.kind == Some("ready")
  }

  /** An event is taken from exactly the frames that carry it; any other closes the socket, but for the greeting. */
  lemma {:induction false} JudgeMeans(frame: Frame, e: Event)
    ensures Judge(frame) == Candidate(e) <==> Carries(frame, e)
    ensures Judge(frame) == Skip <==> Ready(frame)
    ensures Judge(frame) == Close(1003) <==> frame.NotText?
    ensures Judge(frame).Close? ==> Judge(frame).code == 1003 || Judge(frame).code == 1007
    ensures Judge(frame).Candidate? ==> Carries(frame, Judge(frame).e)
  {
  }

  /** A frame moves the cursor exactly to a newer event it carries, which goes to the window if there is one. */
  lemma {:induction false} ReceiveMeans(p: Proxy, frame: Frame, alive: bool, e: Event)
    ensures var q := Next(p, Receive(frame, alive));
            && (Carries(frame, e) && e.id > p.lastEventId ==>
                  q == p.(lastEventId := e.id, forwarded := if alive then p.forwarded + [e] else p.forwarded))
            && (Carries(frame, e) && e.id <= p.lastEventId ==> q == p)
            && ((forall x :: !Carries(frame, x)) ==> q == p)
  {
    JudgeMeans(frame, e);
    if Judge(frame).Candidate? { JudgeMeans(frame, Judge(frame).e); }
  }

  // ------------------------------------------------------------------------- backoff

  /** The wait after the `n`th failure in a row, counted from none. */
  function Wait(n: nat): nat {
    match n
    case 0 => 250
    case 1 => 500
    case 2 => 1000
    case 3 => 2000
    case 4 => 4000
    case _ => 5000
  }

  lemma {:induction false} DelayIs(n: nat)
    ensures ReconnectDelay(n) == Wait(n)
  {
    assert Doubled(4) == 2 * Doubled(3) && Doubled(3) == 2 * Doubled(2);
    assert Doubled(2) == 2 * Doubled(1) && Doubled(1) == 2 * Doubled(0) && Doubled(0) == 250;
    if n >= 5 { DelayBounds(n); }
  }

  /** A proxy with one attempt to connect under way and nothing else. */
  ghost predicate Attempting(p: Proxy) {
    && p.active.Some? && !p.stopped && p.socket == None && p.timer == None && p.connecting == multiset{p.generation}
  }

  /** `n` failed attempts, each followed by the timer it armed. */
  function Failures(generation: nat, n: nat): seq<Input> {
    if n == 0 then [] else (Failures(generation, n - 1) + [ConnectFailed(generation)]) + [TimerFired]
  }

  lemma {:induction false} RunMore(p: Proxy, inputs: seq<Input>, input: Input)
    ensures Run(p, inputs + [input]) == Next(Run(p, inputs), input)
  {
    assert (inputs + [input])[..|inputs|] == inputs;
  }

  lemma {:induction false} FailureArms(p: Proxy)
    requires Attempting(p)
    ensures var q := Next(p, ConnectFailed(p.generation));
            && q == p.(connecting := multiset{}, reconnectAttempt := p.reconnectAttempt + 1,
                       timer := Some(Timer(p.generation, Wait(p.reconnectAttempt))))
            && Next(q, TimerFired) == p.(reconnectAttempt := p.reconnectAttempt + 1)
  {
    DelayIs(p.reconnectAttempt);
    assert multiset{p.generation} - multiset{p.generation} == multiset{};
    assert multiset{} + multiset{p.generation} == multiset{p.generation};
  }

  /** One more failed attempt and its timer, after any inputs. */
  lemma {:induction false} OneMoreFailure(p: Proxy, inputs: seq<Input>, q: Proxy)
    requires Run(p, inputs) == q && Attempting(q)
    ensures Run(p, (inputs + [ConnectFailed(q.generation)]) + [TimerFired]) == q.(reconnectAttempt := q.reconnectAttempt + 1)
  {
    FailureArms(q);
    RunMore(p, inputs, ConnectFailed(q.generation));
    RunMore(p, inputs + [ConnectFailed(q.generation)], TimerFired);
  }

  lemma {:induction false} FailuresMore(generation: nat, n: nat)
    ensures Failures(generation, 0) == []
    ensures Failures(generation, n + 1) == (Failures(generation, n) + [ConnectFailed(generation)]) + [TimerFired]
  {
  }

  lemma {:induction false} AfterFailures(p: Proxy, n: nat, inputs: seq<Input>)
    requires Attempting(p) && inputs == Failures(p.generation, n)
    ensures Run(p, inputs) == p.(reconnectAttempt := p.reconnectAttempt + n)
  {
    if n == 0 {
      FailuresMore(p.generation, 0);
      NoInput(p);
    } else {
      var before, q := Failures(p.generation, n - 1), p.(reconnectAttempt := p.reconnectAttempt + n - 1);
      AfterFailures(p, n - 1, before);
      FailuresMore(p.generation, n - 1);
      OneMoreFailure(p, before, q);
    }
  }

  lemma NoInput(p: Proxy)
    ensures Run(p, []) == p
  {
  }

  /**
   After `n` failures in a row the next one waits 250, 500, 1000, 2000, 4000 milliseconds, and 5000
   from then on.
   */
  lemma {:induction false} Backoff(p: Proxy, n: nat)
    requires Attempting(p) && p.reconnectAttempt == 0
    ensures Run(p, Failures(p.generation, n) + [ConnectFailed(p.generation)]).timer == Some(Timer(p.generation, Wait(n)))
  {
    var inputs := Failures(p.generation, n);
    AfterFailures(p, n, inputs);
    RunMore(p, inputs, ConnectFailed(p.generation));
    FailureArms(Run(p, inputs));
  }

  /** Whatever failed before, an open socket, or choosing another workflow, counts from none again. */
  lemma {:induction false} StartsOver(p: Proxy, workflow: string)
    ensures Next(p, SocketOpened) == p.(reconnectAttempt := 0)
    ensures p.active != Some(workflow) ==>
              var q := Next(p, ObserveWorkflow(workflow));
              && q.reconnectAttempt == 0 && q.active == Some(workflow) && q.generation == p.generation + 1
              && q.socket == None && q.timer == None && q.lastEventId == p.lastEventId
              && (q.connecting == if p.stopped then p.connecting else p.connecting + multiset{p.generation + 1})
  {
  }

  /** A replay raises the cursor if it is behind, and reconnects a proxy that has no socket. */
  lemma {:induction false} ReplayMeans(p: Proxy, after: JsNumber)
    ensures var q := Next(p, RequestReplay(after));
            if after.Fraction? || after.n < 0 then q == p
            else
              && q.lastEventId == (if after.n > p.lastEventId then after.n else p.lastEventId)
              && q.forwarded == p.forwarded && q.active == p.active && q.reconnectAttempt == p.reconnectAttempt
              && q.stopped == p.stopped
              && if p.active.Some? && p.socket.None?
                 then q.generation == p.generation + 1 && q.timer.None? && q.socket.None?
                      && q.connecting == if p.stopped then p.connecting else p.connecting + multiset{p.generation + 1}
                 else q.generation == p.generation && q.timer == p.timer && q.socket == p.socket && q.connecting == p.connecting
  {
  }

  /** Stopping drops socket and timer and outdates every attempt under way. */
  lemma {:induction false} StoppingMeans(p: Proxy)
    ensures Next(p, Stop) == p.(stopped := true, generation := p.generation + 1, timer := None, socket := None)
  {
  }

  /** A timer that fires starts an attempt, unless the proxy was stopped or has moved on since. */
  lemma {:induction false} TimerMeans(p: Proxy)
    requires p.timer.Some?
    ensures var starts := p.active.Some? && !p.stopped && p.timer.value.generation == p.generation;
            Next(p, TimerFired)
            == p.(timer := None, connecting := if starts then p.connecting + multiset{p.generation} else p.connecting)
  {
  }

  /** A closed socket, if it is the current one, waits like a failed attempt. */
  lemma {:induction false} ClosingArms(p: Proxy, socketId: nat)
    requires Supervised(p) && p.socket.Some?
    ensures Next(p, SocketClosed(socketId))
            == if socketId != p.socket.value.id then p
               else p.(socket := None, reconnectAttempt := p.reconnectAttempt + 1,
                       timer := Some(Timer(p.generation, Wait(p.reconnectAttempt))))
  {
    DelayIs(p.reconnectAttempt);
  }
}
