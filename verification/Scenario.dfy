/**
 A whole life exists: the callback history that bounds every connection is reached in full, by a
 connection whose dispatch calls handleClose twice.
 */
module Scenario {
  import opened FunctorQueue
  import opened PollerModel
  import opened ConnectionModel
  import opened ServerModel
  import opened ServerInvariant
  import opened ServerTheorems
  import opened Progress

  const READABLE := Revents(true, false, false, false, false)
  const HUNG_UP := Revents(false, false, false, true, true)

  /** The acceptor starts and one connection comes in. */
  function Arrival(s: State, fd: int): seq<Step> {
    [Start(true), Poll([(s.acceptor.fd, READABLE)]), Advance(0, true), Advance(fd, true), SwapFunctors, EndDrain]
  }

  /** The peer is gone: EPOLLHUP calls handleClose, and EPOLLRDHUP reads zero bytes and calls it again. */
  function Hangup(fd: int): seq<Step> {
    [Poll([(fd, HUNG_UP)]), Advance(0, true), Advance(0, true), Advance(0, true), Advance(0, true)]
  }

  /** Between rounds, with one connection just established on `fd`. */
  predicate OneUp(t: State, fd: int) {
    && t.phase == Waiting && t.todo == [] && t.held == {} && t.w.q == Queue([], [], [])
    && |t.conns| == 1 && t.conns[0].log == [Up] && t.conns[0].state == Connected && t.conns[0].chan.fd == fd
    && fd in t.w.poller.epoll && t.w.poller.epoll[fd].key == ConnChan(0)
    && t.conns[0].me == 0 && InMap(t.w, t.conns[0])
  }

  /** The acceptor listens, its channel was reported readable, and its callback is next. */
  predicate AcceptPending(s: State, t: State) {
    && t == s.(w := s.w.(poller := t.w.poller), acceptor := t.acceptor, todo := [AcceptRead], phase := Dispatching)
    && t.w.poller.channels.Keys <= s.open && t.w.poller.epoll.Keys <= s.open
  }

  /** The steps up to there. */
  function Reporting(s: State): seq<Step> {
    [Start(true), Poll([(s.acceptor.fd, READABLE)]), Advance(0, true)]
  }

  lemma Reports(s: State)
    requires Initial(s)
    ensures Runs(s, Reporting(s)) && AcceptPending(s, Run(s, Reporting(s)))
  {
    var s1 := Next(s, Start(true));
    var s2 := Next(s1, Poll([(s.acceptor.fd, READABLE)]));
    assert s2.todo == [Dispatch(AcceptChan, READABLE)];
    var s3 := Next(s2, Advance(0, true));
    assert s3.todo == [AcceptRead];
    RunsStep(s2, Advance(0, true), []);
    RunsStep(s1, Poll([(s.acceptor.fd, READABLE)]), [Advance(0, true)]);
    RunsStep(s, Start(true), Reporting(s)[1..]);
  }

  lemma AcceptsOne(s: State, t: State, fd: int)
    requires Initial(s) && AcceptPending(s, t) && fd >= 0 && fd !in s.open && s.w.maxConnections >= 1
    ensures var steps := [Advance(fd, true), SwapFunctors, EndDrain];
            Runs(t, steps) && OneUp(Run(t, steps), fd)
  {
    var t1 := Next(t, Advance(fd, true));
    assert t1.todo == [] && t1.conns[0].log == [Up];
    var t2 := Next(t1, SwapFunctors);
    RunsStep(t2, EndDrain, []);
    RunsStep(t1, SwapFunctors, [EndDrain]);
    RunsStep(t, Advance(fd, true), [SwapFunctors, EndDrain]);
  }

  lemma Arrives(s: State, fd: int)
    requires Initial(s) && fd >= 0 && fd !in s.open && s.w.maxConnections >= 1
    ensures Runs(s, Arrival(s, fd)) && OneUp(Run(s, Arrival(s, fd)), fd)
  {
    hide Initial, AcceptPending, OneUp, Runs, Run;
    Reports(s);
    AcceptsOne(s, Run(s, Reporting(s)), fd);
    RunConcat(s, Reporting(s), [Advance(fd, true), SwapFunctors, EndDrain]);
    assert Arrival(s, fd) == Reporting(s) + [Advance(fd, true), SwapFunctors, EndDrain];
  }

  lemma RunsStep(s: State, step: Step, rest: seq<Step>)
    requires Enabled(s, step) && Runs(Next(s, step), rest)
    ensures Runs(s, [step] + rest) && Run(s, [step] + rest) == Run(Next(s, step), rest)
  {
  }

  /** The connection's two callbacks are about to run, its close first. */
  predicate TwoCloses(t: State) {
    && t.todo == [CloseOf(0), ReadOf(0, HUNG_UP)] && t.held == {} && t.phase == Dispatching && t.w.q == Queue([], [], [])
    && |t.conns| == 1 && t.conns[0].log == [Up] && t.conns[0].state == Connected
    && t.conns[0].me == 0 && InMap(t.w, t.conns[0])
  }

  lemma DispatchesTwo(t: State, fd: int)
    requires OneUp(t, fd)
    ensures var t1 := Next(t, Poll([(fd, HUNG_UP)]));
            Enabled(t1, Advance(0, true)) && TwoCloses(Next(t1, Advance(0, true)))
  {
  }

  /** Closed in order, unmapped, and with its connectDestroyed queued. */
  predicate OneClosed(u: State) {
    && |u.conns| == 1 && u.conns[0].log == [Up, Down, Closed] && u.conns[0].state == Disconnected && u.conns[0].me == 0
    && u.conns[0].chan.events == NONE && !InMap(u.w, u.conns[0]) && u.held == {}
    && u.w.q == Queue([OnConn(Destroy, 0)], [], []) && u.todo == [] && u.phase == Dispatching
  }

  lemma ClosesOnce(t: State)
    requires TwoCloses(t)
    ensures var a := Advance(0, true);
            && Runs(t, [a, a, a])
            && OneClosed(Run(t, [a, a, a]))
  {
    var a := Advance(0, true);
    var t1 := Next(t, a);
    assert t1.todo == [CloseCallback(0), ReadOf(0, HUNG_UP)] && t1.conns[0].log == [Up, Down];
    var t2 := Next(t1, a);
    assert t2.todo == [ReadOf(0, HUNG_UP)] && t2.conns[0].log == [Up, Down, Closed];
    var t3 := Next(t2, a);
    RunsStep(t2, a, []);
    RunsStep(t1, a, [a]);
    RunsStep(t, a, [a, a]);
  }

  lemma HangsUp(t: State, fd: int)
    requires OneUp(t, fd)
    ensures Runs(t, Hangup(fd))
    ensures OneClosed(Run(t, Hangup(fd)))
  {
    hide Next, TwoCloses;
    var a, poll := Advance(0, true), Poll([(fd, HUNG_UP)]);
    var t1 := Next(t, poll);
    DispatchesTwo(t, fd);
    ClosesOnce(Next(t1, a));
    RunsStep(t1, a, [a, a, a]);
    RunsStep(t, poll, [a, a, a, a]);
  }

  /** The read callback of the same dispatch finds bytes. */
  lemma HearsLate(t: State)
    requires TwoCloses(t)
    ensures var steps := [Advance(0, true), Advance(0, true), Advance(1, true)];
            && Runs(t, steps)
            && var u := Run(t, steps);
               |u.conns| == 1 && u.conns[0].log == [Up, Down, Closed] && u.conns[0].heard == t.conns[0].heard + [Disconnected]
  {
    var a, b := Advance(0, true), Advance(1, true);
    var t1 := Next(t, a);
    assert t1.todo == [CloseCallback(0), ReadOf(0, HUNG_UP)] && t1.conns[0].log == [Up, Down];
    var t2 := Next(t1, a);
    assert t2.todo == [ReadOf(0, HUNG_UP)] && t2.conns[0].log == [Up, Down, Closed];
    RunsStep(t2, b, []);
    RunsStep(t1, a, [b]);
    RunsStep(t, a, [a, b]);
  }

  /** A hang-up reported without EPOLLIN, with bytes left to read. */
  function LateMessage(s: State, fd: int): seq<Step> {
    Arrival(s, fd) + [Poll([(fd, HUNG_UP)]), Advance(0, true), Advance(0, true), Advance(0, true), Advance(1, true)]
  }

  /** From every initial state: a run in which the user gets a message on a connection after its DOWN. */
  lemma MessageAfterDown(s: State, fd: int)
    requires Initial(s) && fd >= 0 && fd !in s.open && s.w.maxConnections >= 1
    ensures Runs(s, LateMessage(s, fd)) && |Run(s, LateMessage(s, fd)).conns| == 1
    ensures var c := Run(s, LateMessage(s, fd)).conns[0];
            c.log == [Up, Down, Closed] && c.heard != [] && c.heard[|c.heard| - 1] == Disconnected
  {
    hide Initial, Next, TwoCloses;
    Arrives(s, fd);
    var t := Run(s, Arrival(s, fd));
    var a, poll, last := Advance(0, true), Poll([(fd, HUNG_UP)]), [Advance(0, true), Advance(0, true), Advance(1, true)];
    var t1 := Next(t, poll);
    DispatchesTwo(t, fd);
    HearsLate(Next(t1, a));
    RunsStep(t1, a, last);
    RunsStep(t, poll, [a] + last);
    assert [poll] + ([a] + last) == [poll, a, a, a, Advance(1, true)];
    RunConcat(s, Arrival(s, fd), [poll, a, a, a, Advance(1, true)]);
  }

  lemma {:induction false} LoopLeavesHeld(s: State, steps: seq<Step>)
    requires Runs(s, steps) && forall k :: 0 <= k < |steps| ==> LoopStep(steps[k])
    ensures Run(s, steps).held == s.held
    decreases |steps|
  {
    if steps != [] {
      assert LoopStep(steps[0]);
      LoopLeavesHeld(Next(s, steps[0]), steps[1..]);
    }
  }

  /** The full history is reached from every initial state that admits a connection. */
  lemma FullLife(s: State, fd: int) returns (steps: seq<Step>)
    requires Initial(s) && fd >= 0 && fd !in s.open && s.w.maxConnections >= 1
    ensures Runs(s, steps) && |Run(s, steps).conns| > 0 && Run(s, steps).conns[0].log == LIFE
  {
    hide Initial, Inv, Next, Enabled;
    Arrives(s, fd);
    var t := Run(s, Arrival(s, fd));
    HangsUp(t, fd);
    RunConcat(s, Arrival(s, fd), Hangup(fd));
    var before := Arrival(s, fd) + Hangup(fd);
    var u := Run(s, before);
    assert u.conns[0].log[1] == Down;
    var more := TeardownHappens(s, before, 0, true);
    LoopLeavesHeld(u, more);
    RunConcat(s, before, more);
    var v := Run(s, before + more);
    Lifecycle(s, before + more, 0);
    if v.conns[0].log == LIFE {
      steps := before + more;
    } else {
      assert v.conns[0].log == [Up, Down, Closed, Destroyed];
      ReclaimableIff(s, before + more, 0);
      LastStep(v, 0);
      RunConcat(s, before + more, [Reap(0)]);
      steps := before + more + [Reap(0)];
    }
  }

  lemma LastStep(v: State, i: nat)
    requires Enabled(v, Reap(i)) && v.conns[i].log == [Up, Down, Closed, Destroyed]
    ensures Runs(v, [Reap(i)]) && i < |Run(v, [Reap(i)]).conns| && Run(v, [Reap(i)]).conns[i].log == LIFE
  {
  }
}
