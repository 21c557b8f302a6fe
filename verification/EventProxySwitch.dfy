/** A concrete run of the proxy: one cursor for all workflows drops an older event after a switch. */
module EventProxySwitch {
  import opened Wrappers
  import opened EventLog
  import opened EventProxy

  lemma RunThree(p: Proxy, x: Input, y: Input, z: Input)
    ensures Run(p, [x, y, z]) == Next(Next(Next(p, x), y), z)
  {
    assert [x, y, z][..2] == [x, y] && [x, y][..1] == [x] && [x][..0] == [];
    assert Run(p, [x]) == Next(Run(p, []), x);
    assert Run(p, [x, y]) == Next(Run(p, [x]), y);
  }

  function ChosenA(): Proxy {
    Proxy(Some("a"), 0, None, 1, 0, None, false, multiset{1}, [])
  }

  function ConnectedA(): Proxy {
    Proxy(Some("a"), 0, Some(Socket(0, 1)), 1, 0, None, false, multiset{}, [])
  }

  function WatchedA(): Proxy {
    Proxy(Some("a"), 2, Some(Socket(0, 1)), 1, 0, None, false, multiset{}, [Event(2, "a")])
  }

  lemma StepsToA()
    ensures Next(Init(), ObserveWorkflow("a")) == ChosenA()
    ensures Next(ChosenA(), Connected(1, 0)) == ConnectedA()
    ensures Next(ConnectedA(), Receive(FrameOf(Event(2, "a")), true)) == WatchedA()
  {
    assert multiset{1} - multiset{1} == multiset{};
  }

  lemma WatchA()
    ensures Run(Init(), [ObserveWorkflow("a"), Connected(1, 0), Receive(FrameOf(Event(2, "a")), true)]) == WatchedA()
  {
    StepsToA();
    RunThree(Init(), ObserveWorkflow("a"), Connected(1, 0), Receive(FrameOf(Event(2, "a")), true));
  }

  function ChosenB(): Proxy {
    Proxy(Some("b"), 2, None, 2, 0, None, false, multiset{2}, [Event(2, "a")])
  }

  function ConnectedB(): Proxy {
    Proxy(Some("b"), 2, Some(Socket(1, 2)), 2, 0, None, false, multiset{}, [Event(2, "a")])
  }

  lemma StepsToB()
    ensures Next(WatchedA(), ObserveWorkflow("b")) == ChosenB()
    ensures Next(ChosenB(), Connected(2, 1)) == ConnectedB()
    ensures Next(ConnectedB(), Receive(FrameOf(Event(1, "b")), true)) == ConnectedB()
  {
    assert multiset{2} - multiset{2} == multiset{};
  }

  lemma {:induction false} RunConcat(p: Proxy, a: seq<Input>, b: seq<Input>)
    ensures Run(p, a + b) == Run(Run(p, a), b)
    decreases |b|
  {
    if b == [] {
      assert a + b == a;
    } else {
      var n := |b| - 1;
      RunConcat(p, a, b[..n]);
      assert (a + b)[..|a + b| - 1] == a + b[..n] && (a + b)[|a + b| - 1] == b[n];
    }
  }

  /**
   The concrete case: "a" is watched up to event 2, then "b" is chosen, and event 1
   of "b" is dropped although the new socket delivers it.
   */
  lemma SwitchDropsOlderEvent()
    ensures var first := [ObserveWorkflow("a"), Connected(1, 0), Receive(FrameOf(Event(2, "a")), true)];
            var second := [ObserveWorkflow("b"), Connected(2, 1), Receive(FrameOf(Event(1, "b")), true)];
            var q := Run(Init(), first + second);
            q.active == Some("b") && q.socket == Some(Socket(1, 2)) && q.forwarded == [Event(2, "a")]
  {
    var first := [ObserveWorkflow("a"), Connected(1, 0), Receive(FrameOf(Event(2, "a")), true)];
    var second := [ObserveWorkflow("b"), Connected(2, 1), Receive(FrameOf(Event(1, "b")), true)];
    WatchA();
    StepsToB();
    RunThree(WatchedA(), ObserveWorkflow("b"), Connected(2, 1), Receive(FrameOf(Event(1, "b")), true));
    RunConcat(Init(), first, second);
  }
}
