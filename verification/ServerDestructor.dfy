/**
 ~TcpServer: connectDestroyed is run, or queued, for every connection still in the map, at whatever
 point of its life it is. What each is left with, once the functors already queued have run.
 */
module ServerDestructor {
  import opened PollerModel
  import opened ConnectionModel
  import opened ServerModel
  import opened LocalInvariant
  import opened ServerInvariant
  import opened ServerTheorems
  import opened Progress
  import opened Scenario
  import opened BatchModel

  /** The connection's queued functors, run in order. */
  function RunJobs(l: Local, jobs: seq<Job>, inLoop: bool): Local
    decreases |jobs|
  {
    if jobs == [] then l else RunJobs(Performed(l, jobs[0], inLoop), jobs[1..], inLoop)
  }

  /** A connection in the map, in a reachable state. */
  ghost predicate Mapped(l: Local, closing: bool) {
    Ready(l) && LocalShape(l, closing) && InMap(l.w, l.c)
  }

  /** Which registration goes with which state. */
  ghost predicate Staged(l: Local) {
    && Ready(l)
    && match l.c.state
       case Connecting => l.c.chan.index == New && l.c.chan.events == NONE
       case Connected => l.c.chan.index == Added
       case Disconnecting => l.c.chan.index == Added
       case Disconnected => l.c.chan.index != Added && l.c.chan.events == NONE
  }

  lemma MappedStaged(l: Local, closing: bool)
    requires Mapped(l, closing)
    ensures Staged(l) && |l.c.log| <= 3
  {
  }

  /** Out of the table and out of the kernel's list. */
  predicate Unregistered(m: Local) {
    m.c.chan.index == New && !Maps(m.w.poller, m.c.chan) && InterestOf(m.w.poller, m.c.chan) == Unwatched
  }

  /** UP and DOWN first, connectDestroyed once, and nothing after it. */
  predicate DestroyedOnce(log: seq<Event>) {
    && [Up, Down] <= log && log[|log| - 1] == Destroyed
    && forall k :: 0 <= k < |log| - 1 ==> log[k] != Destroyed
  }

  /**
   Torn down as it should be, from `l` to `m`: callbacks in order, connectDestroyed run once and last,
   out of the tables, and no functor queued on the way that is still to come.
   */
  predicate Orderly(l: Local, m: Local) {
    DestroyedOnce(m.c.log) && Unregistered(m) && m.w.q.pending == l.w.q.pending
  }

  /** The kernel still reports events for the connection. */
  predicate StillWatched(m: Local) {
    m.c.chan.index == Added && Maps(m.w.poller, m.c.chan) && InterestOf(m.w.poller, m.c.chan) == Watched(m.c.chan.events)
  }

  // ---- connectDestroyed itself --------------------------------------------

  /**
   At every point of a connection's life: connectDestroyed delivers DOWN exactly if the
   connection is kConnected, and leaves it out of the tables exactly if it is not kDisconnecting.
   */
  lemma DestroyMapped(l: Local, inLoop: bool)
    requires Staged(l)
    ensures var m := ConnectDestroyed(l, inLoop);
            && m.c.me == l.c.me
            && m.c.log == l.c.log + (if l.c.state == Connected then [Down, Destroyed] else [Destroyed])
            && m.c.state == (if l.c.state == Connected then Disconnected else l.c.state)
            && m.w.q == l.w.q && Ready(m)
            && (m.c.chan.index == New <==> l.c.state != Disconnecting)
            && (m.c.chan.index == New ==> m.c.chan.events == NONE && Unregistered(m))
            && (l.c.state == Disconnecting ==> StillWatched(m) && m.c.chan == l.c.chan && m.w == l.w)
  {
    hide SetEvents, Remove;
    if l.c.state == Connected {
      var k := l.(c := l.c.(state := Disconnected));
      EventsFramed(k, NONE);
      var d := OnConnection(WithEvents(k, NONE), inLoop);
      RemoveUnregistersIff(d.w.poller, d.c.chan);
      assert l.c.log + [Down] + [Destroyed] == l.c.log + [Down, Destroyed];
    } else {
      RemoveUnregistersIff(l.w.poller, l.c.chan);
      if l.c.state == Disconnecting {
        WatchedStays(l.w.poller, l.c.chan);
      }
    }
  }

  /** A second call on a connection that is down and out of the tables only adds to its history. */
  lemma DestroyTwice(l: Local, inLoop: bool)
    requires l.c.state == Disconnected && Unregistered(l)
    ensures ConnectDestroyed(l, inLoop) == l.(c := l.c.(log := l.c.log + [Destroyed]))
  {
  }

  lemma WatchedStays(p: Poller, ch: Chan)
    requires Agrees(p, ch) && ch.events != NONE
    ensures Remove(p, ch) == (p, ch)
  {
  }

  // ---- the functors still queued ------------------------------------------

  /** On a connection that is down, what is left of its functors changes nothing that matters. */
  lemma {:induction false} PlainQuiet(l: Local, jobs: seq<Job>, inLoop: bool)
    requires Plain(jobs) && l.c.state == Disconnected
    ensures var m := RunJobs(l, jobs, inLoop); m.w == l.w && m.c == l.c.(writeShut := m.c.writeShut)
    decreases |jobs|
  {
    if jobs != [] {
      assert jobs[0] in jobs && forall j :: j in jobs[1..] ==> j in jobs;
      PlainQuiet(Performed(l, jobs[0], inLoop), jobs[1..], inLoop);
    }
  }

  lemma {:induction false} OnlyWriteDone(l: Local, jobs: seq<Job>, inLoop: bool)
    requires forall j :: j in jobs ==> j == WriteDone
    ensures RunJobs(l, jobs, inLoop) == l
    decreases |jobs|
  {
    if jobs != [] {
      assert jobs[0] in jobs && forall j :: j in jobs[1..] ==> j in jobs;
      OnlyWriteDone(l, jobs[1..], inLoop);
    }
  }

  /** What the close callback queues. */
  function Farewell(inLoop: bool): Job {
    if inLoop then Destroy else Unmap
  }

  /** handleClose of a registered connection. */
  lemma CloseLeaves(l: Local, inLoop: bool)
    requires Ready(l) && CanClose(l.c) && l.c.chan.index == Added
    ensures var m := HandleClose(l, inLoop);
            && m.c.state == Disconnected && m.c.log == l.c.log + [Down, Closed]
            && m.c.chan.index == Deleted && m.c.chan.events == NONE
            && Ready(m) && m.c.me == l.c.me && m.w.q.pending == l.w.q.pending + [OnConn(Farewell(inLoop), l.c.me)]
  {
    hide SetEvents;
    EventsFramed(l.(c := l.c.(state := Disconnected)), NONE);
    assert l.c.log + [Down] + [Closed] == l.c.log + [Down, Closed];
  }

  /** A half-closing connection is closed by its queued functors exactly if a forced close is among them. */
  lemma {:induction false} PlainWhileClosing(l: Local, jobs: seq<Job>, inLoop: bool)
    requires Plain(jobs) && l.c.state == Disconnecting && Ready(l) && l.c.chan.index == Added
    ensures var m := RunJobs(l, jobs, inLoop);
            && Ready(m) && m.c.me == l.c.me
            && (if Force in jobs then
                  m.w.q.pending == l.w.q.pending + [OnConn(Farewell(inLoop), l.c.me)]
                  && m.c.log == l.c.log + [Down, Closed] && m.c.state == Disconnected
                  && m.c.chan.index == Deleted && m.c.chan.events == NONE
                else
                  m.c.log == l.c.log && m.c.state == Disconnecting && m.c.chan == l.c.chan && m.w == l.w)
    decreases |jobs|
  {
    hide HandleClose;
    if jobs != [] {
      assert jobs[0] in jobs && forall j :: j in jobs[1..] ==> j in jobs;
      assert forall j :: j in jobs ==> j == jobs[0] || j in jobs[1..];
      var k := Performed(l, jobs[0], inLoop);
      if jobs[0] == Force {
        CloseLeaves(l, inLoop);
        PlainQuiet(k, jobs[1..], inLoop);
      } else {
        PlainWhileClosing(k, jobs[1..], inLoop);
      }
    }
  }

  // ---- destroyed at once --------------------------------------------------

  /** The close callback, if the loop thread is between the two callbacks of handleClose. */
  function CloseRest(l: Local, closing: bool, inLoop: bool): Local {
    if closing then RemoveConnection(l, inLoop) else l
  }

  /**
   The destructor's own call, then the close callback if it is still to come, then everything of this
   connection that was in the queue.
   */
  function DestroyedNow(l: Local, closing: bool, inLoop: bool, later: bool): Local {
    RunJobs(CloseRest(ConnectDestroyed(l, inLoop), closing, later), LocalJobs(l), later)
  }

  /** An unestablished connection is destroyed first and established afterwards, and stays registered. */
  lemma ConnectingNow(l: Local, inLoop: bool, later: bool)
    requires Mapped(l, false) && l.c.state == Connecting
    ensures var m := DestroyedNow(l, false, inLoop, later); m.c.log == [Destroyed, Up] && StillWatched(m)
  {
    hide SetEvents, Remove;
    MappedStaged(l, false);
    DestroyMapped(l, inLoop);
    var d := ConnectDestroyed(l, inLoop);
    assert LocalJobs(l) == [Establish] && [Establish][1..] == [];
    assert RunJobs(d, [Establish], later) == ConnectEstablished(d, later);
    EventsFramed(d.(c := d.c.(state := Connected, chan := d.c.chan.(tied := true))), d.c.chan.events.(read := true));
    assert [] + [Destroyed] + [Up] == [Destroyed, Up];
  }

  lemma UpNow(l: Local, inLoop: bool, later: bool)
    requires Mapped(l, false) && CanClose(l.c)
    ensures var m := DestroyedNow(l, false, inLoop, later);
            && (l.c.state == Connected ==> m.c.log == [Up, Down, Destroyed] && Orderly(l, m))
            && (l.c.state == Disconnecting && Force in LocalJobs(l) ==>
              && m.c.log == [Up, Destroyed, Down, Closed] && m.c.chan.index == Deleted && Maps(m.w.poller, m.c.chan)
              && m.w.q.pending == l.w.q.pending + [OnConn(Farewell(later), l.c.me)])
            && (l.c.state == Disconnecting && Force !in LocalJobs(l) ==> m.c.log == [Up, Destroyed] && StillWatched(m))
  {
    hide ConnectDestroyed;
    MappedStaged(l, false);
    DestroyMapped(l, inLoop);
    var d := ConnectDestroyed(l, inLoop);
    assert l.c.log == [Up];
    if l.c.state == Connected {
      PlainQuiet(d, LocalJobs(l), later);
    } else {
      PlainWhileClosing(d, LocalJobs(l), later);
      assert [Up] + [Destroyed] + [Down, Closed] == [Up, Destroyed, Down, Closed];
    }
  }

  /**
   A connection that is down: its close callback, if still to come, follows connectDestroyed; and in
   either case a second connectDestroyed, or the unmapping that leads to it, is queued.
   */
  lemma DownNow(l: Local, closing: bool, inLoop: bool, later: bool)
    requires Mapped(l, closing) && l.c.state == Disconnected
    ensures var m := DestroyedNow(l, closing, inLoop, later);
            && m.c.log == (if closing then [Up, Down, Destroyed, Closed] else [Up, Down, Closed, Destroyed])
            && m.c.state == Disconnected && Unregistered(m)
            && m.w.q.pending == l.w.q.pending + [OnConn(if closing then Farewell(later) else Destroy, l.c.me)]
  {
    hide ConnectDestroyed;
    MappedStaged(l, closing);
    DestroyMapped(l, inLoop);
    var d, jobs := ConnectDestroyed(l, inLoop), LocalJobs(l);
    if closing {
      PlainQuiet(CloseRest(d, closing, later), jobs, later);
      assert l.c.log == [Up, Down] && [Up, Down] + [Destroyed] + [Closed] == [Up, Down, Destroyed, Closed];
    } else {
      var front := jobs[..|jobs| - 1];
      assert jobs == front + [Unmap];
      PlainQuiet(d, front, later);
      RunSnoc(d, front, Unmap, later);
      assert l.c.log == [Up, Down, Closed] && [Up, Down, Closed] + [Destroyed] == [Up, Down, Closed, Destroyed];
    }
  }

  lemma {:induction false} RunSnoc(l: Local, jobs: seq<Job>, job: Job, inLoop: bool)
    ensures RunJobs(l, jobs + [job], inLoop) == Performed(RunJobs(l, jobs, inLoop), job, inLoop)
    decreases |jobs|
  {
    if jobs == [] {
      assert [] + [job] == [job] && [job][1..] == [];
    } else {
      assert (jobs + [job])[1..] == jobs[1..] + [job];
      RunSnoc(Performed(l, jobs[0], inLoop), jobs[1..], job, inLoop);
    }
  }

  /**
   When the destructor's call runs at once: a mapped connection is torn down in order if and only if it
   is kConnected at that moment.
   */
  lemma DestroyedNowIff(l: Local, closing: bool, inLoop: bool, later: bool)
    requires Mapped(l, closing)
    ensures Orderly(l, DestroyedNow(l, closing, inLoop, later)) <==> l.c.state == Connected
  {
    hide ConnectDestroyed, RunJobs;
    if l.c.state == Connecting {
      ConnectingNow(l, inLoop, later);
    } else if l.c.state == Disconnected {
      DownNow(l, closing, inLoop, later);
      Longer(l.w.q.pending, OnConn(if closing then Farewell(later) else Destroy, l.c.me));
    } else {
      UpNow(l, inLoop, later);
    }
  }

  lemma Longer(p: seq<Functor>, f: Functor)
    ensures p + [f] != p
  {
    assert |p + [f]| == |p| + 1;
  }

  // ---- destroyed from the queue -------------------------------------------

  /**
   The close callback if it is still to come, everything of this connection that was in the queue, and
   then the destructor's call, nothing else happening to the connection meanwhile.
   */
  function DestroyedLater(l: Local, closing: bool, inLoop: bool): Local {
    ConnectDestroyed(RunJobs(CloseRest(l, closing, inLoop), LocalJobs(l), inLoop), inLoop)
  }

  lemma ConnectingLater(l: Local, inLoop: bool)
    requires Mapped(l, false) && l.c.state == Connecting
    ensures var m := DestroyedLater(l, false, inLoop);
            if l.w.numConnected < l.w.maxConnections then m.c.log == [Up, Down, Destroyed] && Orderly(l, m)
            else m.c.log == [Up, Destroyed] && StillWatched(m) && OnConn(Force, l.c.me) in m.w.q.pending
  {
    hide ConnectEstablished, ConnectDestroyed;
    assert LocalJobs(l) == [Establish] && [Establish][1..] == [];
    assert RunJobs(l, [Establish], inLoop) == ConnectEstablished(l, inLoop);
    EstablishRuns(l, inLoop);
    DestroyMapped(ConnectEstablished(l, inLoop), inLoop);
    assert [Up] + [Down, Destroyed] == [Up, Down, Destroyed];
  }

  lemma EstablishRuns(l: Local, inLoop: bool)
    requires Mapped(l, false) && l.c.state == Connecting
    ensures var e := ConnectEstablished(l, inLoop);
            && e.c.log == [Up] && Staged(e) && e.c.me == l.c.me
            && (if l.w.numConnected < l.w.maxConnections then e.c.state == Connected && e.w.q == l.w.q
                else e.c.state == Disconnecting && OnConn(Force, l.c.me) in e.w.q.pending)
  {
    hide SetEvents;
    var k := l.(c := l.c.(state := Connected, chan := l.c.chan.(tied := true)));
    EventsFramed(k, k.c.chan.events.(read := true));
    var q := ConnectEstablished(l, inLoop).w.q.pending;
    if l.w.numConnected >= l.w.maxConnections {
      assert q[|q| - 1] == OnConn(Force, l.c.me);
    }
  }

  /** A forced close in the queue tears the connection down first, and queues a second connectDestroyed. */
  lemma UpLater(l: Local, inLoop: bool)
    requires Mapped(l, false) && CanClose(l.c)
    ensures var m := DestroyedLater(l, false, inLoop);
            && (l.c.state == Connected ==> m.c.log == [Up, Down, Destroyed] && Orderly(l, m))
            && (l.c.state == Disconnecting && Force in LocalJobs(l) ==>
              && m.c.log == [Up, Down, Closed, Destroyed] && m.c.state == Disconnected && Unregistered(m)
              && m.w.q.pending == l.w.q.pending + [OnConn(Farewell(inLoop), l.c.me)])
            && (l.c.state == Disconnecting && Force !in LocalJobs(l) ==> m.c.log == [Up, Destroyed] && StillWatched(m))
  {
    hide ConnectDestroyed, Shape, RunJobs, Ready;
    UpFacts(l);
    var jobs := LocalJobs(l);
    if l.c.state == Connected {
      OnlyWriteDone(l, jobs, inLoop);
    } else {
      PlainWhileClosing(l, jobs, inLoop);
    }
    DestroyMapped(RunJobs(l, jobs, inLoop), inLoop);
    assert [Up] + [Down, Destroyed] == [Up, Down, Destroyed];
    assert [Up] + [Down, Closed] + [Destroyed] == [Up, Down, Closed, Destroyed];
  }

  lemma UpFacts(l: Local)
    requires Mapped(l, false) && CanClose(l.c)
    ensures Staged(l) && l.c.log == [Up] && Plain(LocalJobs(l))
    ensures l.c.state == Connected ==> forall j :: j in LocalJobs(l) ==> j == WriteDone
  {
  }

  /** A connection that is down is destroyed in order, and a second connectDestroyed is on its way. */
  lemma DownLater(l: Local, closing: bool, inLoop: bool)
    requires Mapped(l, closing) && l.c.state == Disconnected
    ensures var m := DestroyedLater(l, closing, inLoop);
            && m.c.log == [Up, Down, Closed, Destroyed] && m.c.state == Disconnected && Unregistered(m)
            && m.w.q.pending == l.w.q.pending + [OnConn(if closing then Farewell(inLoop) else Destroy, l.c.me)]
  {
    hide ConnectDestroyed;
    MappedStaged(l, closing);
    var e, jobs := CloseRest(l, closing, inLoop), LocalJobs(l);
    if closing {
      assert l.c.log == [Up, Down] && [Up, Down] + [Closed] == [Up, Down, Closed];
      PlainQuiet(e, jobs, inLoop);
    } else {
      assert l.c.log == [Up, Down, Closed];
      var front := jobs[..|jobs| - 1];
      assert jobs == front + [Unmap];
      PlainQuiet(e, front, inLoop);
      RunSnoc(e, front, Unmap, inLoop);
    }
    var z := RunJobs(e, jobs, inLoop);
    assert Ready(z);
    DestroyMapped(z, inLoop);
    assert [Up, Down, Closed] + [Destroyed] == [Up, Down, Closed, Destroyed];
  }

  /**
   When the destructor's call is queued, behind every functor of the connection: a mapped connection is
   torn down in order if and only if it is kConnected, or waits to be established and there is room.
   */
  lemma DestroyedLaterIff(l: Local, closing: bool, inLoop: bool)
    requires Mapped(l, closing)
    ensures Orderly(l, DestroyedLater(l, closing, inLoop)) <==>
            l.c.state == Connected || (l.c.state == Connecting && l.w.numConnected < l.w.maxConnections)
  {
    hide ConnectDestroyed, RunJobs;
    if l.c.state == Connecting {
      ConnectingLater(l, inLoop);
    } else if l.c.state == Disconnected {
      DownLater(l, closing, inLoop);
      Longer(l.w.q.pending, OnConn(if closing then Farewell(inLoop) else Destroy, l.c.me));
    } else {
      UpLater(l, inLoop);
      Longer(l.w.q.pending, OnConn(Farewell(inLoop), l.c.me));
    }
  }

  /**
   What is queued behind such a connection runs connectDestroyed on it again, by way of the unmapping if
   that was queued; the tables are not touched any more.
   */
  lemma DestroyedAgain(m: Local, unmapFirst: bool, inLoop: bool)
    requires m.c.state == Disconnected && Unregistered(m)
    ensures var jobs := if unmapFirst then [Unmap, Destroy] else [Destroy];
            var n := RunJobs(m, jobs, inLoop);
            n.c == m.c.(log := m.c.log + [Destroyed]) && n.w.poller == m.w.poller
  {
    hide ConnectDestroyed;
    var k := if unmapFirst then RemoveConnectionInLoop(m) else m;
    DestroyTwice(k, inLoop);
    assert [Unmap, Destroy][1..] == [Destroy] && [Destroy][1..] == [];
    assert RunJobs(k, [Destroy], inLoop) == RunJobs(ConnectDestroyed(k, inLoop), [], inLoop);
  }

  // ---- such connections exist ---------------------------------------------

  lemma ReachedMapped(s: State, steps: seq<Step>, i: nat)
    requires Initial(s) && Runs(s, steps) && i < |Run(s, steps).conns| && InMap(Run(s, steps).w, Run(s, steps).conns[i])
    ensures var t := Run(s, steps); Mapped(At(t, i), Closing(t, i))
  {
    Reached(s, steps);
    var t := Run(s, steps);
    assert ShapeAt(t, i);
    LogStages(t.conns[i]);
    ReadyAt(t, i);
  }

  /** A peer arrives and the user shuts its connection down: half-closing, with nothing queued. */
  function ToHalfClosing(s: State, fd: int): seq<Step> {
    Arrival(s, fd) + [User(0, CallShutdown, true)]
  }

  /** From every initial state: a run to a half-closing connection that the destructor leaves registered. */
  lemma HalfClosingStaysWatched(s: State, fd: int, inLoop: bool, later: bool)
    requires Initial(s) && fd >= 0 && fd !in s.open && s.w.maxConnections >= 1
    ensures Runs(s, ToHalfClosing(s, fd)) && |Run(s, ToHalfClosing(s, fd)).conns| == 1
    ensures var l := At(Run(s, ToHalfClosing(s, fd)), 0);
            && l.c.state == Disconnecting && InMap(l.w, l.c)
            && StillWatched(DestroyedNow(l, false, inLoop, later)) && StillWatched(DestroyedLater(l, false, inLoop))
  {
    hide Initial, ConnectDestroyed, RunJobs;
    Arrives(s, fd);
    var t := Run(s, Arrival(s, fd));
    ShutdownStep(t, fd);
    RunConcat(s, Arrival(s, fd), [User(0, CallShutdown, true)]);
    var u := Run(s, ToHalfClosing(s, fd));
    Reached(s, ToHalfClosing(s, fd));
    assert ShapeAt(u, 0);
    ReachedMapped(s, ToHalfClosing(s, fd), 0);
    UpNow(At(u, 0), inLoop, later);
    UpLater(At(u, 0), inLoop);
  }

  lemma ShutdownStep(t: State, fd: int)
    requires OneUp(t, fd)
    ensures var step := User(0, CallShutdown, true);
            && Runs(t, [step])
            && var u := Run(t, [step]);
               && |u.conns| == 1 && u.conns[0].state == Disconnecting && u.conns[0].log == [Up]
               && u.todo == [] && JobsOf(u.w.q.Unrun(), 0) == []
  {
    RunsStep(t, User(0, CallShutdown, true), []);
  }

  /** A peer arrives while the acceptor's thread does not test true: establishment waits in the queue. */
  function ToConnecting(s: State, fd: int): seq<Step> {
    [Start(true), Poll([(s.acceptor.fd, READABLE)]), Advance(0, true), Advance(fd, false)]
  }

  /** From every initial state: a run to a connection that the destructor has established after destroying it. */
  lemma ConnectingIsRevived(s: State, fd: int, inLoop: bool, later: bool)
    requires Initial(s) && fd >= 0 && fd !in s.open
    ensures Runs(s, ToConnecting(s, fd)) && |Run(s, ToConnecting(s, fd)).conns| == 1
    ensures var l := At(Run(s, ToConnecting(s, fd)), 0);
            && l.c.state == Connecting && InMap(l.w, l.c)
            && DestroyedNow(l, false, inLoop, later).c.log == [Destroyed, Up] && StillWatched(DestroyedNow(l, false, inLoop, later))
  {
    hide ConnectDestroyed, RunJobs;
    ArrivesQueued(s, fd);
    ReachedMapped(s, ToConnecting(s, fd), 0);
    ConnectingNow(At(Run(s, ToConnecting(s, fd)), 0), inLoop, later);
  }

  lemma ArrivesQueued(s: State, fd: int)
    requires Initial(s) && fd >= 0 && fd !in s.open
    ensures Runs(s, ToConnecting(s, fd))
    ensures var t := Run(s, ToConnecting(s, fd));
            |t.conns| == 1 && t.conns[0].state == Connecting && InMap(t.w, t.conns[0]) && !Closing(t, 0)
  {
    Reports(s);
    var t := Run(s, Reporting(s));
    RunsStep(t, Advance(fd, false), []);
    RunConcat(s, Reporting(s), [Advance(fd, false)]);
    assert ToConnecting(s, fd) == Reporting(s) + [Advance(fd, false)];
  }

  /** A peer arrives and hangs up; the close callback finds that it is not on the loop thread. */
  function ToClosed(s: State, fd: int): seq<Step> {
    Arrival(s, fd) + [Poll([(fd, HUNG_UP)]), Advance(0, true), Advance(0, true), Advance(0, false)]
  }

  /** From every initial state: a run to a closed connection, still mapped, that is destroyed twice. */
  lemma ClosedIsDestroyedTwice(s: State, fd: int, inLoop: bool, later: bool)
    requires Initial(s) && fd >= 0 && fd !in s.open && s.w.maxConnections >= 1
    ensures Runs(s, ToClosed(s, fd)) && |Run(s, ToClosed(s, fd)).conns| == 1
    ensures var l := At(Run(s, ToClosed(s, fd)), 0);
            && l.c.state == Disconnected && InMap(l.w, l.c)
            && var m := DestroyedNow(l, false, inLoop, later);
               && m.c.log == [Up, Down, Closed, Destroyed]
               && m.w.q.pending == l.w.q.pending + [OnConn(Destroy, 0)]
               && RunJobs(m, [Destroy], later).c.log == [Up, Down, Closed, Destroyed, Destroyed]
  {
    hide Initial, Next, TwoCloses, ConnectDestroyed, RunJobs;
    Arrives(s, fd);
    var t := Run(s, Arrival(s, fd));
    var a, poll, last := Advance(0, true), Poll([(fd, HUNG_UP)]), [Advance(0, true), Advance(0, false)];
    var t1 := Next(t, poll);
    DispatchesTwo(t, fd);
    ClosesQueued(Next(t1, a));
    RunsStep(t1, a, last);
    RunsStep(t, poll, [a] + last);
    assert [poll] + ([a] + last) == [poll, a, a, Advance(0, false)];
    RunConcat(s, Arrival(s, fd), [poll, a, a, Advance(0, false)]);
    ReachedMapped(s, ToClosed(s, fd), 0);
    var l := At(Run(s, ToClosed(s, fd)), 0);
    DownNow(l, false, inLoop, later);
    DestroyedAgain(DestroyedNow(l, false, inLoop, later), false, later);
    assert [Up, Down, Closed, Destroyed] + [Destroyed] == [Up, Down, Closed, Destroyed, Destroyed];
  }

  lemma ClosesQueued(t: State)
    requires TwoCloses(t)
    ensures var steps := [Advance(0, true), Advance(0, false)];
            && Runs(t, steps)
            && var u := Run(t, steps);
               && |u.conns| == 1 && u.conns[0].state == Disconnected && u.conns[0].me == 0
               && InMap(u.w, u.conns[0]) && !Closing(u, 0)
  {
    var a, b := Advance(0, true), Advance(0, false);
    var t1 := Next(t, a);
    assert t1.todo == [CloseCallback(0), ReadOf(0, HUNG_UP)];
    var t2 := Next(t1, b);
    RunsStep(t1, b, []);
    RunsStep(t, a, [b]);
  }
}
