/**
 A forced close takes effect: the functor that forceClose queues runs by the end of the second drain
 to finish, whatever else happens, and leaves the connection down.
 */
module ForcedClose {
  import opened ConnectionModel
  import opened ServerModel
  import opened LocalInvariant
  import opened ServerInvariant
  import opened ServerTheorems
  import opened Teardown
  import opened Progress

  /** What one step may do to the queue. */
  predicate QueueMoves(s: State, step: Step, t: State) {
    var p, q := s.w.q, t.w.q;
    match step
    case SwapFunctors => p.left == [] && q == p.Swap()
    case RunFunctor(_) =>
      p.left != [] && q.left == p.left[1..] && q.ran == p.ran + [p.left[0]] && p.pending <= q.pending
    case EndDrain => p.left == [] && q == p.Release()
    case _ => q.left == p.left && q.ran == p.ran && p.pending <= q.pending
  }

  /** Nothing is ever dropped from the queue or reordered: functors leave it one at a time, by running. */
  lemma QueueStep(s: State, step: Step)
    requires Inv(s) && Enabled(s, step)
    ensures QueueMoves(s, step, Next(s, step))
  {
    hide DoMicro, DoFunctor, SendInLoop, Shutdown, ForceClose, Referenced;
    match step
    case Advance(n, inLoop) => MicroShrinks(s.(todo := s.todo[1..]), s.todo[0], n, inLoop);
    case RunFunctor(inLoop) => FunctorKeepsBatch(s.(w := s.w.(q := s.w.q.Take())), s.w.q.left[0], inLoop);
    case User(j, call, inLoop) =>
      StopsAppend(At(s, j), inLoop);
      if call.Send? {
        SendAppends(At(s, j), call.data, call.result);
      }
    case _ =>
  }

  /** Connection `i` is down, or its forceCloseInLoop is still in the queue. */
  predicate Doomed(s: State, i: nat)
    requires i < |s.conns|
  {
    s.conns[i].state == Disconnected || OnConn(Force, i) in s.w.q.Unrun()
  }

  /** How many drains must still finish before a doomed connection is down. */
  function DrainsToDown(s: State, i: nat): nat
    requires i < |s.conns|
  {
    if s.conns[i].state == Disconnected then 0
    else if OnConn(Force, i) in s.w.q.left then 1
    else if s.phase == Draining then 2
    else 1
  }

  /** forceCloseInLoop at the head of the batch. */
  lemma ForceRuns(s: State, inLoop: bool, i: nat)
    requires Inv(s) && Enabled(s, RunFunctor(inLoop)) && i < |s.conns| && s.w.q.left[0] == OnConn(Force, i)
    ensures var t := Next(s, RunFunctor(inLoop)); i < |t.conns| && t.conns[i].state == Disconnected
  {
    hide InvBut, Shape;
    var t := s.(w := s.w.(q := s.w.q.Take()));
    TakeKeeps(s);
    ForceStage(At(t, i));
  }

  lemma ForceStage(l: Local)
    requires Running(l, Force)
    ensures CanClose(l.c) || l.c.state == Disconnected
  {
    RunningStage(l, Force);
  }

  /** Where a functor still queued is after the step, if it is not the one that ran. */
  lemma FunctorStays(s: State, step: Step, t: State, f: Functor)
    requires QueueMoves(s, step, t) && f in s.w.q.Unrun()
    requires step.RunFunctor? ==> s.w.q.left[0] != f
    ensures f in t.w.q.Unrun()
    ensures step.SwapFunctors? ==> f in t.w.q.left
    ensures f in s.w.q.left ==> f in t.w.q.left
  {
  }

  lemma LoopShape(s: State, step: Step)
    requires Inv(s) && Enabled(s, step)
    ensures s.phase != Draining ==> s.w.q.left == []
    ensures step.SwapFunctors? ==> s.phase == Dispatching && Next(s, step).phase == Draining
    ensures step.EndDrain? ==> s.phase == Draining && s.w.q.left == [] && Next(s, step).phase == Waiting
    ensures step.Poll? ==> s.phase == Waiting && Next(s, step).phase == Dispatching
    ensures !step.SwapFunctors? && !step.EndDrain? && !step.Poll? ==> Next(s, step).phase == s.phase
    ensures step.RunFunctor? ==> s.w.q.left != []
  {
    StepCounter(s, step);
  }

  lemma StepForces(s: State, step: Step, i: nat)
    requires Inv(s) && Enabled(s, step) && i < |s.conns| && Doomed(s, i)
    ensures var t := Next(s, step);
            && i < |t.conns| && Doomed(t, i)
            && (DrainsToDown(t, i) == 0 || DrainsToDown(t, i) + (t.drains - s.drains) <= DrainsToDown(s, i))
  {
    hide Inv, Next, Enabled;
    var t := Next(s, step);
    LoopShape(s, step);
    StepTakes(s, step, i);
    StepCounter(s, step);
    if s.conns[i].state == Disconnected {
      StaysDown(s, step, i);
    } else if step.RunFunctor? && s.w.q.left[0] == OnConn(Force, i) {
      ForceRuns(s, step.inLoop, i);
    } else {
      QueueStep(s, step);
      FunctorStays(s, step, t, OnConn(Force, i));
    }
  }

  lemma {:induction false} RunForces(s: State, steps: seq<Step>, i: nat)
    requires Inv(s) && Runs(s, steps) && i < |s.conns| && Doomed(s, i)
    ensures var t := Run(s, steps);
            && i < |t.conns| && Doomed(t, i) && s.drains <= t.drains
            && (DrainsToDown(t, i) == 0 || DrainsToDown(t, i) + (t.drains - s.drains) <= DrainsToDown(s, i))
    decreases |steps|
  {
    hide Inv, Next, Enabled, Doomed;
    if steps != [] {
      StepKeepsInv(s, steps[0]);
      StepForces(s, steps[0], i);
      StepCounter(s, steps[0]);
      RunForces(Next(s, steps[0]), steps[1..], i);
    }
  }

  /** forceClose on any connection that has been introduced dooms it. */
  lemma ForceCloseDooms(t: State, i: nat, inLoop: bool)
    requires Inv(t) && UserEnabled(t, i, CallForceClose)
    ensures Doomed(Next(t, User(i, CallForceClose, inLoop)), i)
  {
    assert ShapeAt(t, i);
    var u := Next(t, User(i, CallForceClose, inLoop));
    if CanClose(t.conns[i]) {
      assert u.w.q.pending == t.w.q.pending + [OnConn(Force, i)];
      assert OnConn(Force, i) in u.w.q.pending;
    }
  }

  /**
   After forceClose, in any continuation of the run in which two drains finish, the connection has
   had its DOWN.
   */
  lemma ForceCloseTakesEffect(s: State, steps: seq<Step>, i: nat, inLoop: bool, more: seq<Step>)
    requires Initial(s) && Runs(s, steps) && UserEnabled(Run(s, steps), i, CallForceClose)
    requires var u := Next(Run(s, steps), User(i, CallForceClose, inLoop));
             Runs(u, more) && Run(u, more).drains >= u.drains + 2
    ensures var t := Run(Next(Run(s, steps), User(i, CallForceClose, inLoop)), more);
            i < |t.conns| && Down in t.conns[i].log
  {
    hide Inv, Next, Enabled, Initial, Doomed;
    var call := User(i, CallForceClose, inLoop);
    Reached(s, steps);
    UserStepEnabled(Run(s, steps), i, inLoop);
    var u := Next(Run(s, steps), call);
    StepKeepsInv(Run(s, steps), call);
    StepTakes(Run(s, steps), call, i);
    ForceCloseDooms(Run(s, steps), i, inLoop);
    RunForces(u, more, i);
    RunKeepsInv(u, more);
    DownIsDisconnected(Run(u, more), i);
  }

  lemma UserStepEnabled(t: State, i: nat, inLoop: bool)
    requires UserEnabled(t, i, CallForceClose)
    ensures Enabled(t, User(i, CallForceClose, inLoop)) && i < |t.conns|
  {
  }

  // ---- connections beyond the limit ---------------------------------------

  /** connectEstablished leaves the connection up exactly when there is room; else its forced close is queued. */
  lemma OverLimitIsForced(l: Local, inLoop: bool)
    ensures var m := ConnectEstablished(l, inLoop); var q := m.w.q.pending;
            && (m.c.state == Connected <==> l.w.numConnected < l.w.maxConnections)
            && (m.c.state != Connected ==> OnConn(Force, l.c.me) in q)
  {
    var q := ConnectEstablished(l, inLoop).w.q.pending;
    if l.w.numConnected >= l.w.maxConnections {
      assert q[|q| - 1] == OnConn(Force, l.c.me);
    }
  }

  /** The step delivers the UP of connection `i`. */
  predicate GoesUp(s: State, step: Step, i: nat)
    requires Enabled(s, step)
  {
    var t := Next(s, step);
    i < |t.conns| && t.conns[i].log == [Up] && (i < |s.conns| ==> s.conns[i].log == [])
  }

  lemma MicroUps(t: State, m: Micro, n: int, inLoop: bool, i: nat)
    requires MicroEnabled(t, m, n) && MicroOk(t, m) && i < |t.conns| && t.conns[i].log == [] && t.conns[i].state == Connecting
    ensures i < |DoMicro(t, m, n, inLoop).conns| && DoMicro(t, m, n, inLoop).conns[i].log == []
  {
    hide CloseBegin, RemoveConnection, ConnectEstablished;
    match m
    case WriteOf(j) => WriteAppends(At(t, j), n);
    case _ =>
  }

  lemma OtherFunctorLeaves(t: State, f: Functor, inLoop: bool, i: nat)
    requires FunctorEnabled(t, f) && i < |t.conns| && (f.OnConn? ==> f.conn != i)
    ensures var u := DoFunctor(t, f, inLoop); i < |u.conns| && u.conns[i] == t.conns[i]
  {
    hide CloseBegin, ConnectEstablished, ConnectDestroyed, RemoveConnectionInLoop, ShutdownInLoop;
  }

  lemma UserLeaves(s: State, j: nat, call: UserCall, inLoop: bool, i: nat)
    requires UserEnabled(s, j, call) && i < |s.conns| && s.conns[i].log == []
    ensures var u := DoUser(s, j, call, inLoop); i < |u.conns| && u.conns[i] == s.conns[i]
  {
    hide SendInLoop, Shutdown, ForceClose, Referenced;
  }

  /** Of an unestablished connection, only connectEstablished is ever queued. */
  lemma OnlyEstablish(s: State, i: nat)
    requires Inv(s) && i < |s.conns| && s.conns[i].log == []
    ensures s.conns[i].state == Connecting && s.conns[i].me == i
    ensures forall job :: OnConn(job, i) in s.w.q.Unrun() ==> job == Establish
  {
    assert ShapeAt(s, i);
    forall job | OnConn(job, i) in s.w.q.Unrun() ensures job == Establish {
      JobsContain(s.w.q.Unrun(), i, job);
    }
  }

  /** A connection waiting to be established goes up when that functor runs, and by no other step. */
  lemma UpByFunctor(s: State, step: Step, i: nat)
    requires Inv(s) && Enabled(s, step) && i < |s.conns| && GoesUp(s, step, i)
    ensures step.RunFunctor? && s.w.q.left[0] == OnConn(Establish, i)
  {
    hide DoMicro, DoFunctor, DoUser, Referenced, InvBut;
    OnlyEstablish(s, i);
    match step
    case Advance(n, inLoop) =>
      HeadOk(s);
      MicroUps(s.(todo := s.todo[1..]), s.todo[0], n, inLoop, i);
    case RunFunctor(inLoop) =>
      assert s.w.q.left[0] in s.w.q.Unrun();
      if s.w.q.left[0].OnConn? && s.w.q.left[0].conn == i {
        assert s.w.q.left[0] == OnConn(s.w.q.left[0].job, i);
      } else {
        OtherFunctorLeaves(s.(w := s.w.(q := s.w.q.Take())), s.w.q.left[0], inLoop, i);
      }
    case User(j, call, inLoop) => UserLeaves(s, j, call, inLoop, i);
    case Reap(_) => FreedIsNotUp(s.conns[i].log);
    case _ =>
  }

  lemma FreedIsNotUp(log: seq<Event>)
    ensures log + [Freed] != [Up]
  {
    assert (log + [Freed])[|log|] == Freed;
  }

  lemma HeadOk(s: State)
    requires Inv(s) && s.todo != []
    ensures MicroOk(s.(todo := s.todo[1..]), s.todo[0])
  {
    assert MicroOk(s, s.todo[0]);
  }

  lemma UpByFunctorOutcome(s: State, inLoop: bool, i: nat)
    requires Inv(s) && Enabled(s, RunFunctor(inLoop)) && i < |s.conns| && s.w.q.left[0] == OnConn(Establish, i)
    ensures var t := Next(s, RunFunctor(inLoop));
            && i < |t.conns| && (t.conns[i].state == Connected <==> s.w.numConnected < s.w.maxConnections)
            && (t.conns[i].state != Connected ==> OnConn(Force, i) in t.w.q.Unrun())
  {
    hide ConnectEstablished;
    OverLimitIsForced(At(s.(w := s.w.(q := s.w.q.Take())), i), inLoop);
  }

  /** A new connection goes up at once when the acceptor's thread tests true. */
  lemma UpByAccept(s: State, step: Step, i: nat)
    requires Enabled(s, step) && i >= |s.conns| && GoesUp(s, step, i)
    ensures var t := Next(s, step);
            && i < |t.conns| && (t.conns[i].state == Connected <==> s.w.numConnected < s.w.maxConnections)
            && (t.conns[i].state != Connected ==> OnConn(Force, i) in t.w.q.Unrun())
  {
    hide ConnectEstablished, Referenced;
    if step.Advance? && s.todo[0] == AcceptRead && step.n >= 0 {
      var t := s.(todo := s.todo[1..]);
      AcceptInTwo(t, step.n, step.inLoop);
      OverLimitIsForced(At(Constructed(t, step.n), |s.conns|), step.inLoop);
    } else {
      SameConns(s, step);
    }
  }

  /**
   In every run, by whatever step a connection goes up: it is left usable if and only if there was room
   for it, and otherwise its forced close is already queued.
   */
  lemma AdmittedIff(s: State, steps: seq<Step>, step: Step, i: nat)
    requires Initial(s) && Runs(s, steps) && Enabled(Run(s, steps), step) && GoesUp(Run(s, steps), step, i)
    ensures var t := Run(s, steps); var u := Next(t, step);
            && (u.conns[i].state == Connected <==> t.w.numConnected < t.w.maxConnections)
            && (u.conns[i].state != Connected ==> Doomed(u, i))
  {
    hide Inv, Next, Enabled;
    Reached(s, steps);
    var t := Run(s, steps);
    if i < |t.conns| {
      UpByFunctor(t, step, i);
      UpByFunctorOutcome(t, step.inLoop, i);
    } else {
      UpByAccept(t, step, i);
    }
  }

  /** So a connection beyond the limit has its DOWN by the end of the second drain to finish. */
  lemma OverLimitGoesDown(s: State, steps: seq<Step>, step: Step, i: nat, more: seq<Step>)
    requires Initial(s) && Runs(s, steps) && Enabled(Run(s, steps), step) && GoesUp(Run(s, steps), step, i)
    requires Run(s, steps).w.numConnected >= Run(s, steps).w.maxConnections
    requires var u := Next(Run(s, steps), step); Runs(u, more) && Run(u, more).drains >= u.drains + 2
    ensures var t := Run(Next(Run(s, steps), step), more); i < |t.conns| && Down in t.conns[i].log
  {
    hide Inv, Next, Enabled, Initial, Doomed;
    Reached(s, steps);
    AdmittedIff(s, steps, step, i);
    var u := Next(Run(s, steps), step);
    StepKeepsInv(Run(s, steps), step);
    RunForces(u, more, i);
    RunKeepsInv(u, more);
    DownIsDisconnected(Run(u, more), i);
  }
}
