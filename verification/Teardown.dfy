/**
 Teardown finishes: three drains after a connection has gone down, counting one in progress, it has
 left the server's map, the poller's table and the kernel's interest list.
 */
module Teardown {
  import opened Bytes
  import opened PollerModel
  import opened ConnectionModel
  import opened ServerModel
  import opened LocalInvariant
  import opened ServerInvariant
  import opened ServerTheorems

  /** How many drains must still finish, from where the connection's next teardown functor is. */
  function DrainsLeft(s: State, i: nat): nat
    requires i < |s.conns|
  {
    var current := if s.phase == Draining then 1 else 0;
    if s.conns[i].state != Disconnected || |s.conns[i].log| >= 4 then 0
    else if |s.conns[i].log| == 2 || OnConn(Unmap, i) in s.w.q.pending then current + 2
    else if OnConn(Unmap, i) in s.w.q.left then 2
    else if OnConn(Destroy, i) in s.w.q.pending then current + 1
    else 1
  }

  /** The handler queued functors of its own connection only, and none at all if `quiet`. */
  ghost predicate Appends(l: Local, m: Local, quiet: bool) {
    && m.w.q.left == l.w.q.left && m.w.q.ran == l.w.q.ran && l.w.q.pending <= m.w.q.pending && m.c.me == l.c.me
    && (forall k :: |l.w.q.pending| <= k < |m.w.q.pending| ==>
      m.w.q.pending[k].OnConn? && m.w.q.pending[k].conn == l.c.me)
    && (quiet ==> m.w.q == l.w.q && m.c.log == l.c.log && m.c.state == l.c.state)
  }

  /** Down, and no write interest left to react to. */
  predicate Quiet(c: Conn) {
    c.state == Disconnected && !c.chan.events.write
  }

  lemma SendAppends(l: Local, data: seq<byte>, r: WriteResult)
    requires r.Wrote? ==> r.n <= |data|
    ensures Appends(l, SendInLoop(l, data, r), Quiet(l.c))
  {
  }

  lemma WriteAppends(l: Local, n: int)
    requires n <= |l.c.out|
    ensures Appends(l, HandleWrite(l, n), Quiet(l.c))
  {
  }

  lemma StopsAppend(l: Local, inLoop: bool)
    ensures Appends(l, Shutdown(l, inLoop), Quiet(l.c)) && Appends(l, ForceClose(l), Quiet(l.c))
    ensures Appends(l, ShutdownInLoop(l), Quiet(l.c))
  {
  }

  lemma CallbacksAppend(l: Local, inLoop: bool)
    ensures Appends(l, ConnectEstablished(l, inLoop), false) && Appends(l, ConnectDestroyed(l, inLoop), false)
    ensures Appends(l, RemoveConnection(l, inLoop), false) && Appends(l, RemoveConnectionInLoop(l), false)
    ensures CanClose(l.c) ==> Appends(l, CloseBegin(l, inLoop), false)
  {
  }

  /** Nothing that matters to the teardown of `i` changed. */
  ghost predicate SameFor(s: State, t: State, i: nat)
    requires i < |s.conns|
  {
    && i < |t.conns| && t.conns[i].log == s.conns[i].log && t.conns[i].state == s.conns[i].state
    && t.w.q.left == s.w.q.left
    && forall job :: OnConn(job, i) in t.w.q.pending <==> OnConn(job, i) in s.w.q.pending
  }

  /** A step of connection `j` by a handler that appends. */
  lemma PutSame(s: State, j: nat, m: Local, i: nat)
    requires i < |s.conns| && j < |s.conns| && s.conns[j].me == j
    requires Appends(At(s, j), m, j == i)
    ensures SameFor(s, Put(s, j, m), i)
  {
  }

  lemma SameCounts(s: State, t: State, i: nat)
    requires i < |s.conns| && SameFor(s, t, i) && (t.phase == Draining <==> s.phase == Draining)
    ensures DrainsLeft(t, i) == DrainsLeft(s, i)
  {
  }

  lemma CloseSame(s: State, j: nat, inLoop: bool, i: nat)
    requires i < |s.conns| && j < |s.conns| && s.conns[j].me == j && s.conns[i].state == Disconnected
    ensures SameFor(s, Close(s, j, inLoop), i)
  {
  }

  lemma UserSame(s: State, j: nat, call: UserCall, inLoop: bool, i: nat)
    requires Inv(s) && UserEnabled(s, j, call) && i < |s.conns| && s.conns[i].state == Disconnected
    ensures SameFor(s, DoUser(s, j, call, inLoop), i)
  {
    assert ShapeAt(s, i);
    match call
    case Send(data, r) => SendAppends(At(s, j), data, r); PutSame(s, j, SendInLoop(At(s, j), data, r), i);
    case CallShutdown => StopsAppend(At(s, j), inLoop); PutSame(s, j, Shutdown(At(s, j), inLoop), i);
    case CallForceClose => StopsAppend(At(s, j), inLoop); PutSame(s, j, ForceClose(At(s, j)), i);
    case _ =>
  }

  ghost predicate Identified(s: State) {
    forall j :: 0 <= j < |s.conns| ==> s.conns[j].me == j
  }

  lemma CallbackDrains(t: State, j: nat, inLoop: bool, i: nat)
    requires i < |t.conns| && j < |t.conns| && Identified(t)
    requires j == i ==> t.conns[i].state == Disconnected && |t.conns[i].log| == 2
    ensures DrainsLeft(Put(t, j, RemoveConnection(At(t, j), inLoop)), i) <= DrainsLeft(t, i)
  {
  }

  lemma AcceptSame(t: State, fd: int, inLoop: bool, i: nat)
    requires i < |t.conns| && fd >= 0
    ensures SameFor(t, Accept(t, fd, inLoop), i)
  {
  }

  /** The only micro step that moves a teardown on is the connection's own close callback. */
  lemma AdvanceDrains(s: State, n: int, inLoop: bool, i: nat)
    requires Identified(s) && Enabled(s, Advance(n, inLoop)) && i < |s.conns| && Quiet(s.conns[i])
    requires s.todo[0] == CloseCallback(i) ==> |s.conns[i].log| == 2
    ensures var t := Next(s, Advance(n, inLoop)); i < |t.conns| && DrainsLeft(t, i) <= DrainsLeft(s, i)
  {
    hide CloseBegin, HandleWrite, RemoveConnection;
    var t, m := s.(todo := s.todo[1..]), s.todo[0];
    assert DrainsLeft(t, i) == DrainsLeft(s, i);
    match m
    case CloseOf(j) => CloseSame(t, j, inLoop, i);
    case ReadOf(j, _) => if n > 0 { PutSame(t, j, Delivered(At(t, j)), i); } else { CloseSame(t, j, inLoop, i); }
    case WriteOf(j) => WriteAppends(At(t, j), n); PutSame(t, j, HandleWrite(At(t, j), n), i);
    case CloseCallback(j) => CallbackDrains(t, j, inLoop, i);
    case AcceptRead => if n >= 0 { AcceptSame(t, n, inLoop, i); }
    case _ =>
  }

  /** A functor of another connection. */
  lemma OtherFunctorSame(t: State, f: Functor, inLoop: bool, i: nat)
    requires Identified(t) && FunctorEnabled(t, f) && i < |t.conns| && Quiet(t.conns[i])
    requires f.OnConn? ==> f.conn != i
    ensures SameFor(t, DoFunctor(t, f, inLoop), i)
  {
    match f
    case Listen =>
    case OnConn(job, j) =>
      CallbacksAppend(At(t, j), inLoop);
      match job {
        case Establish => PutSame(t, j, ConnectEstablished(At(t, j), inLoop), i);
        case Unmap => PutSame(t, j, RemoveConnectionInLoop(At(t, j)), i);
        case Destroy => PutSame(t, j, ConnectDestroyed(At(t, j), inLoop), i);
        case Shut => StopsAppend(At(t, j), inLoop); PutSame(t, j, ShutdownInLoop(At(t, j)), i);
        case Force => CloseSame(t, j, inLoop, i);
        case WriteDone =>
      }
  }

  /** What the invariant says about a functor of connection `i` at the head of the batch. */
  lemma OwnHead(s: State, i: nat, job: Job)
    requires Inv(s) && s.phase == Draining && s.todo == [] && i < |s.conns| && s.conns[i].state == Disconnected
    requires s.w.q.left != [] && s.w.q.left[0] == OnConn(job, i)
    ensures job != Establish
    ensures job == Unmap || job == Destroy ==> |s.conns[i].log| == 3
    ensures job == Unmap ==> OnConn(Unmap, i) !in s.w.q.left[1..] + s.w.q.pending
  {
    var t := s.(w := s.w.(q := s.w.q.Take()));
    TakeKeeps(s);
    RunningStage(At(t, i), job);
    JobsContain(t.w.q.Unrun(), i, Unmap);
  }

  lemma FunctorDrains(s: State, inLoop: bool, i: nat)
    requires Inv(s) && Enabled(s, RunFunctor(inLoop)) && i < |s.conns| && s.conns[i].state == Disconnected
    ensures var t := Next(s, RunFunctor(inLoop)); i < |t.conns| && DrainsLeft(t, i) <= DrainsLeft(s, i)
  {
    var f := s.w.q.left[0];
    assert ShapeAt(s, i);
    if f.OnConn? && f.conn == i {
      OwnHead(s, i, f.job);
      OwnFunctorDrains(s, f.job, inLoop, i);
    } else {
      OtherFunctorDrains(s, inLoop, i);
    }
  }

  lemma OtherFunctorDrains(s: State, inLoop: bool, i: nat)
    requires Identified(s) && Enabled(s, RunFunctor(inLoop)) && i < |s.conns| && Quiet(s.conns[i])
    requires s.w.q.left[0].OnConn? ==> s.w.q.left[0].conn != i
    ensures var t := Next(s, RunFunctor(inLoop)); i < |t.conns| && DrainsLeft(t, i) == DrainsLeft(s, i)
  {
    var t, f := s.(w := s.w.(q := s.w.q.Take())), s.w.q.left[0];
    assert s.w.q.left == [f] + t.w.q.left;
    assert OnConn(Unmap, i) in t.w.q.left <==> OnConn(Unmap, i) in s.w.q.left;
    OtherFunctorSame(t, f, inLoop, i);
    FunctorPhase(t, f, inLoop);
    SameCounts(t, DoFunctor(t, f, inLoop), i);
  }

  lemma FunctorPhase(t: State, f: Functor, inLoop: bool)
    requires FunctorEnabled(t, f)
    ensures DoFunctor(t, f, inLoop).phase == t.phase && DoFunctor(t, f, inLoop).drains == t.drains
  {
  }

  lemma OwnFunctorDrains(s: State, job: Job, inLoop: bool, i: nat)
    requires i < |s.conns| && s.phase == Draining && Quiet(s.conns[i])
    requires s.w.q.left != [] && s.w.q.left[0] == OnConn(job, i) && s.conns[i].me == i
    requires job != Establish
    requires job == Unmap || job == Destroy ==> |s.conns[i].log| == 3
    requires job == Unmap ==> OnConn(Unmap, i) !in s.w.q.left[1..] + s.w.q.pending
    ensures var t := s.(w := s.w.(q := s.w.q.Take()));
            DrainsLeft(DoFunctor(t, OnConn(job, i), inLoop), i) <= DrainsLeft(s, i)
  {
  }

  /** Finishing a drain: the batch is empty, so every teardown functor is waiting for the next one. */
  lemma EndDrainDrains(s: State, i: nat)
    requires Inv(s) && Enabled(s, EndDrain) && i < |s.conns| && s.conns[i].state == Disconnected
    ensures var t := Next(s, EndDrain); DrainsLeft(t, i) == 0 || DrainsLeft(t, i) + 1 <= DrainsLeft(s, i)
  {
    assert ShapeAt(s, i);
    if |s.conns[i].log| == 3 {
      var jobs := JobsOf(s.w.q.Unrun(), i);
      assert jobs[|jobs| - 1] in jobs;
      JobsContain(s.w.q.Unrun(), i, Unmap);
      JobsContain(s.w.q.Unrun(), i, Destroy);
      assert s.w.q.Unrun() == s.w.q.pending;
    }
  }

  lemma QuietShape(s: State, i: nat)
    requires Inv(s) && i < |s.conns| && s.conns[i].state == Disconnected
    ensures Quiet(s.conns[i]) && Identified(s)
    ensures s.todo == [] ==> |s.conns[i].log| != 2
    ensures s.todo != [] && s.todo[0] == CloseCallback(i) ==> |s.conns[i].log| == 2
    ensures s.phase != Draining ==> s.w.q.left == []
  {
    assert ShapeAt(s, i);
  }

  /** No step postpones a teardown, and finishing a drain advances it. */
  lemma StepDrains(s: State, step: Step, i: nat)
    requires Inv(s) && Enabled(s, step) && i < |s.conns| && s.conns[i].state == Disconnected
    ensures var t := Next(s, step);
            && i < |t.conns|
            && t.drains == s.drains + (if step == EndDrain then 1 else 0)
            && (DrainsLeft(t, i) == 0 || DrainsLeft(t, i) + (t.drains - s.drains) <= DrainsLeft(s, i))
  {
    hide InvBut, DoUser, DoFunctor, DoMicro;
    QuietShape(s, i);
    StepCounter(s, step);
    match step
    case Advance(n, inLoop) => AdvanceDrains(s, n, inLoop, i);
    case RunFunctor(inLoop) => FunctorDrains(s, inLoop, i);
    case User(j, call, inLoop) => UserSame(s, j, call, inLoop, i); SameCounts(s, Next(s, step), i);
    case EndDrain => EndDrainDrains(s, i);
    case SwapFunctors =>
    case Poll(_) =>
    case Start(inLoop) => assert forall job :: OnConn(job, i) !in [Listen];
    case Reap(j) => if j == i { ReapStage(s, i); }
  }

  lemma StepCounter(s: State, step: Step)
    requires Enabled(s, step)
    ensures Next(s, step).drains == s.drains + (if step == EndDrain then 1 else 0)
    ensures step.User? || step.Advance? || step.RunFunctor? ==> Next(s, step).phase == s.phase
  {
  }

  lemma StaysDown(s: State, step: Step, i: nat)
    requires Inv(s) && Enabled(s, step) && i < |s.conns| && s.conns[i].state == Disconnected
    ensures i < |Next(s, step).conns| && Next(s, step).conns[i].state == Disconnected
  {
    hide Inv, Next, Enabled;
    StepKeepsInv(s, step);
    StepTakes(s, step, i);
    DownIsDisconnected(s, i);
    LogMember(s.conns[i].log, Next(s, step).conns[i].log, Down);
    DownIsDisconnected(Next(s, step), i);
  }

  lemma {:induction false} RunDrains(s: State, steps: seq<Step>, i: nat)
    requires Inv(s) && Runs(s, steps) && i < |s.conns| && s.conns[i].state == Disconnected
    ensures var t := Run(s, steps);
            && i < |t.conns| && s.drains <= t.drains
            && (DrainsLeft(t, i) == 0 || DrainsLeft(t, i) + (t.drains - s.drains) <= DrainsLeft(s, i))
    decreases |steps|
  {
    hide Inv, Next, Enabled;
    if steps != [] {
      var t := Next(s, steps[0]);
      StepKeepsInv(s, steps[0]);
      StepDrains(s, steps[0], i);
      StaysDown(s, steps[0], i);
      RunDrains(t, steps[1..], i);
    }
  }

  lemma DoneIsOut(t: State, i: nat)
    requires Inv(t) && i < |t.conns| && t.conns[i].state == Disconnected && DrainsLeft(t, i) == 0
    ensures var c := t.conns[i];
            && [Up, Down, Closed, Destroyed] <= c.log && c.name !in t.w.connections
            && c.chan.index == New && !Maps(t.w.poller, c.chan) && InterestOf(t.w.poller, c.chan) == Unwatched
  {
    hide Counts, Control, Descriptors, Decimal;
    var c := t.conns[i];
    assert ShapeAt(t, i) && Agrees(t.w.poller, c.chan);
    assert c.log[..4] == LIFE[..4] == [Up, Down, Closed, Destroyed];
    if c.name in t.w.connections {
      NamesDistinct(t.w.base, i + 1, t.w.connections[c.name] + 1);
    }
  }

  /**
   Once a connection is down, after any continuation of the run in which three drains finish it has
   been destroyed and is out of the server's map, the poller's table and the kernel's list.
   */
  lemma TornDownInThreeDrains(s: State, steps: seq<Step>, more: seq<Step>, i: nat)
    requires Initial(s) && Runs(s, steps) && i < |Run(s, steps).conns| && Runs(Run(s, steps), more)
    requires Down in Run(s, steps).conns[i].log
    requires Run(Run(s, steps), more).drains >= Run(s, steps).drains + 3
    ensures i < |Run(Run(s, steps), more).conns|
    ensures var t := Run(Run(s, steps), more); var c := t.conns[i];
            && [Up, Down, Closed, Destroyed] <= c.log && c.name !in t.w.connections
            && c.chan.index == New && !Maps(t.w.poller, c.chan) && InterestOf(t.w.poller, c.chan) == Unwatched
  {
    hide Inv, Next, Enabled, Initial;
    var u := Run(s, steps);
    Reached(s, steps);
    DownIsDisconnected(u, i);
    RunDrains(u, more, i);
    RunKeepsInv(u, more);
    SilentAfterDown(s, steps, more, i);
    DoneIsOut(Run(u, more), i);
  }
}
