/**
 What the invariant gives: statements about every run of the server from its initial state.
 */
module ServerTheorems {
  import opened Bytes
  import opened PollerModel
  import opened ConnectionModel
  import opened Outcomes
  import opened ServerModel
  import opened LocalInvariant
  import opened ServerInvariant

  lemma Reached(s: State, steps: seq<Step>)
    requires Initial(s) && Runs(s, steps)
    ensures Inv(Run(s, steps))
  {
    InitInv(s);
    RunKeepsInv(s, steps);
  }

  // ---- lifecycle ----------------------------------------------------------

  /**
   In every run, whatever the event bits, the re-entrant calls and the answers of isInLoopThread, a
   connection's callbacks are a prefix of: UP, DOWN, close callback, connectDestroyed, destructor;
   and the history pins the connection's state.
   */
  lemma Lifecycle(s: State, steps: seq<Step>, i: nat)
    requires Initial(s) && Runs(s, steps) && i < |Run(s, steps).conns|
    ensures var c := Run(s, steps).conns[i];
            && c.log <= LIFE
            && (c.log == [] <==> c.state == Connecting)
            && (c.log == [Up] <==> CanClose(c))
            && (|c.log| >= 2 <==> c.state == Disconnected)
            && (!InMap(Run(s, steps).w, c) ==> |c.log| >= 3)
  {
    hide Named, Descriptors, Kernel, Counts;
    Reached(s, steps);
    var t := Run(s, steps);
    assert ShapeAt(t, i);
  }

  /** The step is a send on connection `i`, which is not down. */
  predicate Sends(s: State, step: Step, i: nat) {
    step.User? && step.conn == i && step.call.Send? && i < |s.conns| && s.conns[i].state != Disconnected
  }

  /** Nothing is waiting in front of a message, so write(2) is tried. */
  predicate Idle(c: Conn) {
    !c.chan.events.write && c.out == []
  }

  /** The bytes a step makes connection `i` promise to deliver: a whole message, unless its socket is found broken. */
  function Accepted(s: State, step: Step, i: nat): seq<byte> {
    if Sends(s, step, i) && !(Idle(s.conns[i]) && step.call.result == Broken) then step.call.data else []
  }

  /** How many bytes write(2) said it took from connection `i` in a step. */
  function KernelTook(s: State, step: Step, i: nat): nat {
    if Sends(s, step, i) && Idle(s.conns[i]) && step.call.result.Wrote? then step.call.result.n
    else if step.Advance? && s.todo != [] && s.todo[0] == WriteOf(i) && i < |s.conns| && s.conns[i].chan.events.write
      && step.n > 0 then step.n
    else 0
  }

  /** Past the DOWN callback nothing about the byte streams changes; callbacks are never taken back. */
  ghost predicate Onward(c: Conn, d: Conn) {
    && c.log <= d.log && c.name == d.name && c.chan.fd == d.chan.fd
    && (c.state == Disconnected ==> d.wire == c.wire && d.accepted == c.accepted && d.out == c.out)
  }

  /** As above; `data` is what the connection took on, and `n` how many bytes the kernel took. */
  ghost predicate Took(c: Conn, d: Conn, data: seq<byte>, n: nat) {
    Onward(c, d) && d.accepted == c.accepted + data && |d.wire| == |c.wire| + n
  }

  lemma SendTakes(l: Local, data: seq<byte>, r: WriteResult)
    requires r.Wrote? ==> r.n <= |data|
    ensures var up, idle := l.c.state != Disconnected, Idle(l.c);
            Took(l.c, SendInLoop(l, data, r).c, if up && !(idle && r == Broken) then data else [],
                 if up && idle && r.Wrote? then r.n else 0)
  {
    SendAccounts(l, data, r);
    SendTouches(l, data, r);
    assert l.c.accepted + [] == l.c.accepted;
  }

  lemma CallsTake(l: Local, inLoop: bool)
    ensures Took(l.c, Shutdown(l, inLoop).c, [], 0) && Took(l.c, ForceClose(l).c, [], 0)
    ensures Took(l.c, ShutdownInLoop(l).c, [], 0)
  {
  }

  lemma WriteTakes(l: Local, n: int)
    requires n <= |l.c.out| && (l.c.state == Disconnected ==> !l.c.chan.events.write)
    ensures Took(l.c, HandleWrite(l, n).c, [], if l.c.chan.events.write && n > 0 then n else 0)
  {
    WriteAccounts(l, n);
  }

  lemma DeliveryTakes(l: Local)
    ensures Took(l.c, Delivered(l).c, [], 0)
  {
  }

  lemma CloseTakes(s: State, j: nat, inLoop: bool, i: nat)
    requires i < |s.conns| && j < |s.conns|
    ensures i < |Close(s, j, inLoop).conns| && Took(s.conns[i], Close(s, j, inLoop).conns[i], [], 0)
  {
  }

  lemma RemoveTakes(l: Local, inLoop: bool)
    ensures Took(l.c, RemoveConnection(l, inLoop).c, [], 0) && Took(l.c, RemoveConnectionInLoop(l).c, [], 0)
  {
  }

  lemma EstablishTakes(l: Local, inLoop: bool)
    requires l.c.state != Disconnected
    ensures Took(l.c, ConnectEstablished(l, inLoop).c, [], 0)
  {
  }

  lemma DestroyTakes(l: Local, inLoop: bool)
    ensures Took(l.c, ConnectDestroyed(l, inLoop).c, [], 0)
  {
  }

  lemma TookNothing(c: Conn)
    ensures Took(c, c, [], 0)
  {
  }

  lemma QuietWhenDown(s: State, i: nat)
    requires Inv(s) && i < |s.conns|
    ensures s.conns[i].state == Disconnected ==> !s.conns[i].chan.events.write
  {
    assert ShapeAt(s, i);
  }

  lemma AdvanceTakes(s: State, n: int, inLoop: bool, i: nat)
    requires Inv(s) && Enabled(s, Advance(n, inLoop)) && i < |s.conns|
    ensures var t := Next(s, Advance(n, inLoop));
            i < |t.conns| && Took(s.conns[i], t.conns[i], [], KernelTook(s, Advance(n, inLoop), i))
  {
    QuietWhenDown(s, i);
    TookNothing(s.conns[i]);
    MicroTakes(s.(todo := s.todo[1..]), s.todo[0], n, inLoop, i);
  }

  lemma MicroTakes(t: State, m: Micro, n: int, inLoop: bool, i: nat)
    requires MicroEnabled(t, m, n) && i < |t.conns|
    requires t.conns[i].state == Disconnected ==> !t.conns[i].chan.events.write
    ensures var u := DoMicro(t, m, n, inLoop);
            && i < |u.conns|
            && Took(t.conns[i], u.conns[i], [], if m == WriteOf(i) && t.conns[i].chan.events.write && n > 0 then n else 0)
  {
    hide Close, HandleWrite, RemoveConnection, NewConnection, Took;
    TookNothing(t.conns[i]);
    match m
    case CloseOf(j) => CloseTakes(t, j, inLoop, i);
    case ReadOf(j, _) => CloseTakes(t, j, inLoop, i); DeliveryTakes(At(t, j));
    case WriteOf(j) => if j == i { WriteTakes(At(t, i), n); }
    case CloseCallback(j) => RemoveTakes(At(t, j), inLoop);
    case _ =>
  }

  lemma FunctorTakes(s: State, inLoop: bool, i: nat)
    requires Inv(s) && Enabled(s, RunFunctor(inLoop)) && i < |s.conns|
    ensures var t := Next(s, RunFunctor(inLoop)); i < |t.conns| && Took(s.conns[i], t.conns[i], [], 0)
  {
    var t, f := s.(w := s.w.(q := s.w.q.Take())), s.w.q.left[0];
    if f.OnConn? && f.job == Establish {
      TakeKeeps(s);
      RunningStage(At(t, f.conn), Establish);
    }
    DoFunctorTakes(t, f, inLoop, i);
  }

  lemma DoFunctorTakes(t: State, f: Functor, inLoop: bool, i: nat)
    requires FunctorEnabled(t, f) && i < |t.conns|
    requires f.OnConn? && f.job == Establish ==> t.conns[f.conn].state != Disconnected
    ensures var u := DoFunctor(t, f, inLoop); i < |u.conns| && Took(t.conns[i], u.conns[i], [], 0)
  {
    hide Close, ConnectEstablished, ConnectDestroyed, RemoveConnectionInLoop, ShutdownInLoop, Took;
    TookNothing(t.conns[i]);
    match f
    case Listen =>
    case OnConn(job, j) =>
      match job {
        case Establish => EstablishTakes(At(t, j), inLoop);
        case Unmap => RemoveTakes(At(t, j), inLoop);
        case Destroy => DestroyTakes(At(t, j), inLoop);
        case Force => CloseTakes(t, j, inLoop, i);
        case Shut => CallsTake(At(t, j), inLoop);
        case WriteDone =>
      }
  }

  lemma UserTakes(s: State, j: nat, call: UserCall, inLoop: bool, i: nat)
    requires Inv(s) && UserEnabled(s, j, call) && i < |s.conns|
    ensures var t := DoUser(s, j, call, inLoop);
            var step := User(j, call, inLoop);
            i < |t.conns| && Took(s.conns[i], t.conns[i], Accepted(s, step, i), KernelTook(s, step, i))
  {
    match call
    case Send(data, r) => SendTakes(At(s, j), data, r);
    case CallShutdown => CallsTake(At(s, j), inLoop);
    case CallForceClose => CallsTake(At(s, j), inLoop);
    case _ =>
  }

  lemma StepTakes(s: State, step: Step, i: nat)
    requires Inv(s) && Enabled(s, step) && i < |s.conns|
    ensures i < |Next(s, step).conns|
    ensures Took(s.conns[i], Next(s, step).conns[i], Accepted(s, step, i), KernelTook(s, step, i))
  {
    match step
    case Advance(n, inLoop) => AdvanceTakes(s, n, inLoop, i);
    case RunFunctor(inLoop) => FunctorTakes(s, inLoop, i);
    case User(j, call, inLoop) => UserTakes(s, j, call, inLoop, i);
    case _ =>
  }

  lemma DownStage(c: Conn, inMap: bool, jobs: seq<Job>, closing: bool)
    requires Shape(c, inMap, jobs, closing)
    ensures Down in c.log <==> c.state == Disconnected
  {
    assert forall k :: 0 <= k < |c.log| ==> c.log[k] == LIFE[k];
    if |c.log| >= 2 {
      assert c.log[1] == Down;
    }
  }

  lemma DownIsDisconnected(s: State, i: nat)
    requires Inv(s) && i < |s.conns|
    ensures Down in s.conns[i].log <==> s.conns[i].state == Disconnected
  {
    hide Shape;
    assert ShapeAt(s, i);
    DownStage(s.conns[i], InMap(s.w, s.conns[i]), LocalJobs(At(s, i)), Closing(s, i));
  }

  lemma LogMember(a: seq<Event>, b: seq<Event>, e: Event)
    requires a <= b && e in a
    ensures e in b
  {
  }

  /** Along every run histories only grow, and no byte moves once DOWN has been delivered. */
  lemma {:induction false} RunOnward(s: State, steps: seq<Step>, i: nat)
    requires Inv(s) && Runs(s, steps) && i < |s.conns|
    ensures i < |Run(s, steps).conns| && Onward(s.conns[i], Run(s, steps).conns[i])
    decreases |steps|
  {
    hide Inv, Next, Enabled;
    if steps != [] {
      StepKeepsInv(s, steps[0]);
      StepTakes(s, steps[0], i);
      DownIsDisconnected(s, i);
      DownIsDisconnected(Next(s, steps[0]), i);
      if Down in s.conns[i].log {
        LogMember(s.conns[i].log, Next(s, steps[0]).conns[i].log, Down);
      }
      RunOnward(Next(s, steps[0]), steps[1..], i);
    }
  }

  // ---- lifetime -----------------------------------------------------------

  /**
   Nothing runs on a freed connection: not the functor about to run, not a callback still to be
   dispatched. A queued shutdownInLoop, which owns nothing, is covered by the map or by a
   connectDestroyed queued behind it.
   */
  lemma Lifetime(s: State, steps: seq<Step>, i: nat)
    requires Initial(s) && Runs(s, steps) && i < |Run(s, steps).conns|
    ensures var t := Run(s, steps); var q := t.w.q.Unrun();
            && ((exists j :: OnConn(j, i) in q) || (exists m :: m in t.todo && Concerns(m, i)) ==>
              Alive(t.conns[i]) && (InMap(t.w, t.conns[i]) || OnConn(Destroy, i) in q) && Referenced(t, i))
            && (forall k :: 0 <= k < |q| && q[k] == OnConn(Shut, i) ==>
              InMap(t.w, t.conns[i]) || OnConn(Destroy, i) in q[k + 1..])
  {
    hide Inv, Initial, Run, Runs, Concerns, Referenced, Alive, InMap;
    Reached(s, steps);
    var t := Run(s, steps);
    var q := t.w.q.Unrun();
    if j :| OnConn(j, i) in q {
      FunctorIsOwned(t, i, j);
    }
    if m :| m in t.todo && Concerns(m, i) {
      CallbackIsOwned(t, i, m);
    }
    forall k | 0 <= k < |q| && q[k] == OnConn(Shut, i)
      ensures InMap(t.w, t.conns[i]) || OnConn(Destroy, i) in q[k + 1..]
    {
      ShutIsCovered(t, i, k);
    }
  }

  lemma FunctorIsOwned(t: State, i: nat, j: Job)
    requires Inv(t) && i < |t.conns| && OnConn(j, i) in t.w.q.Unrun()
    ensures Alive(t.conns[i]) && (InMap(t.w, t.conns[i]) || OnConn(Destroy, i) in t.w.q.Unrun()) && Referenced(t, i)
  {
    hide Referenced;
    assert ShapeAt(t, i);
    LogStages(t.conns[i]);
    JobsContain(t.w.q.Unrun(), i, j);
    OwnedUntilDestroyed(t, i);
  }

  lemma CallbackIsOwned(t: State, i: nat, m: Micro)
    requires Inv(t) && i < |t.conns| && m in t.todo && Concerns(m, i)
    ensures Alive(t.conns[i]) && (InMap(t.w, t.conns[i]) || OnConn(Destroy, i) in t.w.q.Unrun()) && Referenced(t, i)
  {
    hide Referenced;
    assert ShapeAt(t, i) && MicroOk(t, m);
    LogStages(t.conns[i]);
    OwnedUntilDestroyed(t, i);
  }

  predicate Concerns(m: Micro, i: nat) {
    m == CloseOf(i) || (m.ReadOf? && m.conn == i) || m == WriteOf(i) || m == CloseCallback(i)
    || (m.Dispatch? && m.key == ConnChan(i))
  }

  /** The raw `this` of shutdownInLoop: FIFO order puts the owner's last functor behind it. */
  lemma ShutIsCovered(t: State, i: nat, k: nat)
    requires Inv(t) && i < |t.conns| && k < |t.w.q.Unrun()| && t.w.q.Unrun()[k] == OnConn(Shut, i)
    ensures InMap(t.w, t.conns[i]) || OnConn(Destroy, i) in t.w.q.Unrun()[k + 1..]
  {
    var q := t.w.q.Unrun();
    var front, back := q[..k] + [q[k]], q[k + 1..];
    assert ShapeAt(t, i);
    assert q == front + back;
    JobsConcat(front, back, i);
    JobsConcat(q[..k], [q[k]], i);
    assert JobsOf([q[k]], i) == [Shut];
    var jobs, late := JobsOf(q, i), JobsOf(back, i);
    assert jobs == JobsOf(q[..k], i) + [Shut] + late;
    assert jobs[|jobs| - 1] == if late == [] then Shut else late[|late| - 1];
    if !InMap(t.w, t.conns[i]) {
      assert jobs[|jobs| - 1] == Destroy;
      assert late[|late| - 1] == Destroy;
      assert Destroy in late;
      JobsContain(back, i, Destroy);
    }
  }

  // ---- interest set and descriptors ---------------------------------------

  function ChanOf(s: State, key: ChanKey): Chan
    requires key.ConnChan? ==> key.conn < |s.conns|
  {
    match key
    case WakeupChan => s.wakeup
    case AcceptChan => s.acceptor
    case ConnChan(i) => s.conns[i].chan
  }

  /**
   In every reachable state, for every channel: it has index cAdded exactly when the kernel watches
   its descriptor on its behalf, and then with exactly its `events()`; it is in the poller's table
   exactly when its index is not cNew. The kernel has refused no epoll_ctl call.
   */
  lemma InterestAgrees(s: State, steps: seq<Step>, key: ChanKey)
    requires Initial(s) && Runs(s, steps)
    requires key.ConnChan? ==> key.conn < |Run(s, steps).conns|
    ensures var t := Run(s, steps); var ch := ChanOf(t, key); var p := t.w.poller;
            && p.failed == 0
            && (ch.index == Added <==> ch.fd in p.epoll && p.epoll[ch.fd].key == key)
            && (ch.index == Added ==> p.epoll[ch.fd] == Reg(key, ch.events) && ch.events != NONE)
            && (ch.index != New <==> Maps(p, ch))
            && (ch.index == Deleted ==> ch.events == NONE)
  {
    Reached(s, steps);
    var t := Run(s, steps);
    var ch := ChanOf(t, key);
    assert ch.key == key && Agrees(t.w.poller, ch);
  }

  /** Conversely, whatever is in the table or in epoll belongs to a live channel with that descriptor. */
  lemma EntriesAreLive(s: State, steps: seq<Step>, fd: int)
    requires Initial(s) && Runs(s, steps)
    ensures var t := Run(s, steps); var p := t.w.poller;
            && (fd in p.channels ==> Knows(t, p.channels[fd], fd) && fd in t.open)
            && (fd in p.epoll ==>
              Knows(t, p.epoll[fd].key, fd) && fd in t.open && fd in p.channels && p.channels[fd] == p.epoll[fd].key)
  {
    Reached(s, steps);
    var t := Run(s, steps);
    EntriesOpen(t, fd);
    if fd in t.w.poller.epoll {
      var key := t.w.poller.epoll[fd].key;
      assert Knows(t, key, fd);
      assert Agrees(t.w.poller, ChanOf(t, key)) && ChanOf(t, key).key == key;
    }
  }

  /**
   Descriptors: two live connections never share one; a connection's own is open from accept until
   its destructor, which runs once, after teardown, when neither table nor epoll knows it any more;
   and a new connection's name is not in the map.
   */
  lemma DescriptorHygiene(s: State, steps: seq<Step>, i: nat, j: nat)
    requires Initial(s) && Runs(s, steps) && i < |Run(s, steps).conns| && j < |Run(s, steps).conns|
    ensures var t := Run(s, steps); var c := t.conns[i];
            && (Alive(c) ==> c.chan.fd in t.open)
            && (Alive(c) && Alive(t.conns[j]) && c.chan.fd == t.conns[j].chan.fd ==> i == j)
            && (Enabled(t, Reap(i)) ==>
              && c.log == [Up, Down, Closed, Destroyed]
              && c.chan.fd !in t.w.poller.channels && c.chan.fd !in t.w.poller.epoll
              && !Enabled(Next(t, Reap(i)), Reap(i)))
            && ConnName(t.w.base, t.w.nextConnId) !in t.w.connections
  {
    Reached(s, steps);
    var t := Run(s, steps);
    if Enabled(t, Reap(i)) {
      ReapStage(t, i);
      ReapTables(t, i);
      assert Next(t, Reap(i)).conns[i].log[4] == Freed;
    }
    if ConnName(t.w.base, t.w.nextConnId) in t.w.connections {
      NamesDistinct(t.w.base, t.w.nextConnId, t.w.connections[ConnName(t.w.base, t.w.nextConnId)] + 1);
    }
  }

  // ---- the wire -----------------------------------------------------------

  /** The concatenation, in order, of everything accepted for connection `i` during a run. */
  function Messages(s: State, steps: seq<Step>, i: nat): seq<byte>
    requires Runs(s, steps)
    decreases |steps|
  {
    if steps == [] then [] else Accepted(s, steps[0], i) + Messages(Next(s, steps[0]), steps[1..], i)
  }

  /** The sum of what write(2) said it took from connection `i` during a run. */
  function KernelTotal(s: State, steps: seq<Step>, i: nat): nat
    requires Runs(s, steps)
    decreases |steps|
  {
    if steps == [] then 0 else KernelTook(s, steps[0], i) + KernelTotal(Next(s, steps[0]), steps[1..], i)
  }

  function AcceptedSoFar(s: State, i: nat): seq<byte> {
    if i < |s.conns| then s.conns[i].accepted else []
  }

  function WireSoFar(s: State, i: nat): seq<byte> {
    if i < |s.conns| then s.conns[i].wire else []
  }

  /** A connection starts with nothing accepted and nothing written. */
  lemma StepAccounts(s: State, step: Step, i: nat)
    requires Inv(s) && Enabled(s, step)
    ensures AcceptedSoFar(Next(s, step), i) == AcceptedSoFar(s, i) + Accepted(s, step, i)
    ensures |WireSoFar(Next(s, step), i)| == |WireSoFar(s, i)| + KernelTook(s, step, i)
  {
    hide Inv, Next, Enabled;
    if i < |s.conns| {
      StepTakes(s, step, i);
    } else {
      NewHasNothing(s, step, i);
    }
  }

  lemma NewHasNothing(s: State, step: Step, i: nat)
    requires Enabled(s, step) && i >= |s.conns|
    ensures AcceptedSoFar(Next(s, step), i) == [] && Accepted(s, step, i) == []
    ensures WireSoFar(Next(s, step), i) == [] && KernelTook(s, step, i) == 0
  {
    hide Referenced, HandleWrite, Close, RemoveConnection, SendInLoop, Shutdown, ForceClose;
    if step.Advance? && s.todo[0] == AcceptRead && step.n >= 0 {
      var t := s.(todo := s.todo[1..]);
      AcceptInTwo(t, step.n, step.inLoop);
      EstablishTakes(At(Constructed(t, step.n), |s.conns|), step.inLoop);
    } else {
      SameConns(s, step);
    }
  }

  /** Only an accept makes a new connection. */
  lemma SameConns(s: State, step: Step)
    requires Enabled(s, step) && !(step.Advance? && s.todo[0] == AcceptRead && step.n >= 0)
    ensures |Next(s, step).conns| == |s.conns|
  {
  }

  lemma {:induction false} RunAccounts(s: State, steps: seq<Step>, i: nat)
    requires Inv(s) && Runs(s, steps)
    ensures AcceptedSoFar(Run(s, steps), i) == AcceptedSoFar(s, i) + Messages(s, steps, i)
    ensures |WireSoFar(Run(s, steps), i)| == |WireSoFar(s, i)| + KernelTotal(s, steps, i)
    decreases |steps|
  {
    hide Inv, Next, Enabled, Accepted, KernelTook;
    if steps != [] {
      var t, rest := Next(s, steps[0]), steps[1..];
      StepKeepsInv(s, steps[0]);
      StepAccounts(s, steps[0], i);
      RunAccounts(t, rest, i);
      var a, b, c := AcceptedSoFar(s, i), Accepted(s, steps[0], i), Messages(t, rest, i);
      assert a + b + c == a + (b + c);
    }
  }

  /**
   Conservation: the kernel has exactly as many bytes as its answers to write(2) add up to; they are
   the first bytes of the accepted messages, in order, and the others are buffered. A message is
   accepted whole unless the connection is down or its socket is found broken.
   */
  lemma WireConservation(s: State, steps: seq<Step>, i: nat)
    requires Initial(s) && Runs(s, steps) && i < |Run(s, steps).conns|
    ensures var c, all, n := Run(s, steps).conns[i], Messages(s, steps, i), KernelTotal(s, steps, i);
            n <= |all| && c.wire == all[..n] && c.out == all[n..]
  {
    hide Inv, Initial, Run, Runs, Messages, KernelTotal;
    Reached(s, steps);
    InitInv(s);
    NoneAtFirst(s, i);
    RunAccounts(s, steps, i);
    WireThenOut(Run(s, steps), i);
    assert [] + Messages(s, steps, i) == Messages(s, steps, i);
  }

  lemma NoneAtFirst(s: State, i: nat)
    requires Initial(s)
    ensures AcceptedSoFar(s, i) == [] && WireSoFar(s, i) == []
  {
  }

  lemma WireThenOut(s: State, i: nat)
    requires Inv(s) && i < |s.conns|
    ensures s.conns[i].wire + s.conns[i].out == s.conns[i].accepted
  {
    assert ShapeAt(s, i);
  }

  /** No byte reaches the wire, and no message is accepted, after DOWN. */
  lemma SilentAfterDown(s: State, steps: seq<Step>, more: seq<Step>, i: nat)
    requires Initial(s) && Runs(s, steps) && i < |Run(s, steps).conns| && Runs(Run(s, steps), more)
    requires Down in Run(s, steps).conns[i].log
    ensures i < |Run(Run(s, steps), more).conns|
    ensures var c, d := Run(s, steps).conns[i], Run(Run(s, steps), more).conns[i];
            d.wire == c.wire && d.accepted == c.accepted && d.state == Disconnected
  {
    hide Inv, Next, Enabled, Initial;
    Reached(s, steps);
    var t := Run(s, steps);
    DownIsDisconnected(t, i);
    RunOnward(t, more, i);
    RunKeepsInv(t, more);
    LogMember(t.conns[i].log, Run(t, more).conns[i].log, Down);
    DownIsDisconnected(Run(t, more), i);
  }

  // ---- half-close ---------------------------------------------------------

  /**
   Until a connection is disconnected, write interest is armed exactly when bytes are buffered; so when its
   write side is shut everything accepted has reached the kernel; and a half-closing connection
   always has a shutdown done, a drain to come, or a functor queued that will finish it.
   */
  lemma HalfClose(s: State, steps: seq<Step>, i: nat)
    requires Initial(s) && Runs(s, steps) && i < |Run(s, steps).conns|
    requires Run(s, steps).conns[i].state != Disconnected
    ensures var t := Run(s, steps); var c := t.conns[i];
            && (c.chan.events.write <==> c.out != [])
            && (c.writeShut ==> c.state == Disconnecting && c.wire == Messages(s, steps, i))
            && (c.state == Disconnecting ==>
              c.writeShut || c.out != [] || OnConn(Shut, i) in t.w.q.Unrun() || OnConn(Force, i) in t.w.q.Unrun())
  {
    Reached(s, steps);
    WireConservation(s, steps, i);
    var t := Run(s, steps);
    assert ShapeAt(t, i);
    JobsContain(t.w.q.Unrun(), i, Shut);
    JobsContain(t.w.q.Unrun(), i, Force);
    if t.conns[i].writeShut {
      assert t.conns[i].wire + [] == t.conns[i].wire;
    }
  }

  /** The write that drains the buffer of a half-closing connection shuts the write side, and only then. */
  lemma DrainShutsWrite(s: State, steps: seq<Step>, i: nat, n: int)
    requires Initial(s) && Runs(s, steps) && i < |Run(s, steps).conns|
    requires var c := Run(s, steps).conns[i]; n <= |c.out| && c.state == Disconnecting && c.out != []
    ensures HandleWrite(At(Run(s, steps), i), n).c.writeShut <==> n == |Run(s, steps).conns[i].out|
  {
    Reached(s, steps);
    assert ShapeAt(Run(s, steps), i);
  }

  // ---- admission ----------------------------------------------------------

  ghost function LiveSet(conns: seq<Conn>): set<nat> {
    set i: nat | i < |conns| && CanClose(conns[i])
  }

  ghost function ConnectedSet(conns: seq<Conn>): set<nat> {
    set i: nat | i < |conns| && conns[i].state == Connected
  }

  predicate SameLimit(v: World, w: World) {
    w.maxConnections == v.maxConnections
  }

  lemma CallbacksLimit(l: Local, inLoop: bool)
    ensures SameLimit(l.w, ConnectEstablished(l, inLoop).w) && SameLimit(l.w, ConnectDestroyed(l, inLoop).w)
    ensures SameLimit(l.w, RemoveConnection(l, inLoop).w) && SameLimit(l.w, RemoveConnectionInLoop(l).w)
    ensures CanClose(l.c) ==> SameLimit(l.w, CloseBegin(l, inLoop).w)
  {
  }

  lemma CallsLimit(l: Local, inLoop: bool, data: seq<byte>, r: WriteResult)
    requires r.Wrote? ==> r.n <= |data|
    ensures SameLimit(l.w, Shutdown(l, inLoop).w) && SameLimit(l.w, ForceClose(l).w)
    ensures SameLimit(l.w, SendInLoop(l, data, r).w)
  {
  }

  lemma StepLimit(s: State, step: Step)
    requires Enabled(s, step)
    ensures SameLimit(s.w, Next(s, step).w)
  {
    hide Referenced, OnConnection, ForceClose, Shutdown, UpdateChannel, CloseBegin;
    match step
    case Advance(n, inLoop) =>
      var t, m := s.(todo := s.todo[1..]), s.todo[0];
      match m {
        case CloseOf(j) => CallbacksLimit(At(t, j), inLoop);
        case ReadOf(j, _) => CallbacksLimit(At(t, j), inLoop);
        case CloseCallback(j) => CallbacksLimit(At(t, j), inLoop);
        case AcceptRead =>
          if n >= 0 {
            AcceptInTwo(t, n, inLoop);
            CallbacksLimit(At(Constructed(t, n), |t.conns|), inLoop);
          }
        case _ =>
      }
    case RunFunctor(inLoop) =>
      var t, f := s.(w := s.w.(q := s.w.q.Take())), s.w.q.left[0];
      if f.OnConn? {
        CallbacksLimit(At(t, f.conn), inLoop);
      }
    case User(j, call, inLoop) =>
      CallsLimit(At(s, j), inLoop, if call.Send? then call.data else [], if call.Send? then call.result else Refused);
    case _ =>
  }

  lemma {:induction false} RunLimit(s: State, steps: seq<Step>)
    requires Runs(s, steps)
    ensures SameLimit(s.w, Run(s, steps).w)
    decreases |steps|
  {
    if steps != [] {
      StepLimit(s, steps[0]);
      RunLimit(Next(s, steps[0]), steps[1..]);
    }
  }

  /** The counter is the number of connections that are up, and the usable ones never exceed the limit. */
  lemma Admission(s: State, steps: seq<Step>)
    requires Initial(s) && Runs(s, steps)
    ensures var t := Run(s, steps);
            && t.w.numConnected == |LiveSet(t.conns)|
            && |ConnectedSet(t.conns)| <= Limit(t.w)
            && t.w.maxConnections == s.w.maxConnections
  {
    Reached(s, steps);
    RunLimit(s, steps);
    LiveIsSize(Run(s, steps).conns);
    ConnectedIsSize(Run(s, steps).conns);
  }

  lemma {:induction false} LiveIsSize(conns: seq<Conn>)
    ensures CountLive(conns) == |LiveSet(conns)|
  {
    if conns != [] {
      var n := |conns| - 1;
      LiveIsSize(conns[..n]);
      assert LiveSet(conns) == LiveSet(conns[..n]) + if CanClose(conns[n]) then {n} else {};
    }
  }

  lemma {:induction false} ConnectedIsSize(conns: seq<Conn>)
    ensures CountConnected(conns) == |ConnectedSet(conns)|
  {
    if conns != [] {
      var n := |conns| - 1;
      ConnectedIsSize(conns[..n]);
      assert ConnectedSet(conns) == ConnectedSet(conns[..n]) + if conns[n].state == Connected then {n} else {};
    }
  }
}
