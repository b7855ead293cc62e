/**
 forceClose and shutdown called from other threads without a lock: the test of `state_` and the
 assignment that follows it are two accesses, and the loop thread may run in between.
 */
module RaceModel {
  import opened FunctorQueue
  import opened PollerModel
  import opened ConnectionModel
  import opened ServerModel
  import opened LocalInvariant
  import opened ServerInvariant
  import opened ServerTheorems
  import opened Scenario

  type Tid = nat

  datatype Call = ForceCall | ShutCall

  /** A call whose test has passed and whose assignment is still to come. */
  datatype Passed = Passed(conn: nat, call: Call)

  datatype Racy = Racy(s: State, passed: map<Tid, Passed>)

  datatype RacyStep =
    | Plain(step: Step)
    | Test(t: Tid, conn: nat, call: Call)     // the `if` on state_, true
    | Assign(t: Tid, inLoop: bool)            // setState(kDisconnecting) and what is queued or run

  /** The second half of the call, which looks at `state_` no more. */
  function Assigned(l: Local, call: Call, inLoop: bool): Local {
    var l1 := l.(c := l.c.(state := Disconnecting));
    match call
    case ForceCall => Queued(l1, Force)
    case ShutCall => if inLoop then ShutdownInLoop(l1) else Queued(l1, Shut)
  }

  predicate TestPasses(c: Conn, call: Call) {
    match call
    case ForceCall => CanClose(c)
    case ShutCall => c.state == Connected
  }

  ghost predicate Possible(r: Racy, step: RacyStep) {
    match step
    case Plain(p) =>
      && Enabled(r.s, p)
      // The caller keeps a pointer to the connection it is inside.
      && (p.Reap? ==> forall t :: t in r.passed ==> r.passed[t].conn != p.conn)
    case Test(t, i, call) =>
      && t !in r.passed && i < |r.s.conns| && r.s.conns[i].log != [] && Alive(r.s.conns[i])
      && TestPasses(r.s.conns[i], call)
    case Assign(t, _) => t in r.passed && r.passed[t].conn < |r.s.conns|
  }

  ghost function After(r: Racy, step: RacyStep): Racy
    requires Possible(r, step)
  {
    match step
    case Plain(p) => r.(s := Next(r.s, p))
    case Test(t, i, call) => r.(passed := r.passed[t := Passed(i, call)])
    case Assign(t, inLoop) =>
      var i := r.passed[t].conn;
      Racy(Put(r.s, i, Assigned(At(r.s, i), r.passed[t].call, inLoop)), r.passed - {t})
  }

  ghost predicate RacyRuns(r: Racy, steps: seq<RacyStep>)
    decreases |steps|
  {
    steps == [] || (Possible(r, steps[0]) && RacyRuns(After(r, steps[0]), steps[1..]))
  }

  ghost function RacyRun(r: Racy, steps: seq<RacyStep>): Racy
    requires RacyRuns(r, steps)
    decreases |steps|
  {
    if steps == [] then r else RacyRun(After(r, steps[0]), steps[1..])
  }

  /** With nothing in between, the two halves are the call of the other models. */
  lemma HalvesAreTheCall(l: Local, inLoop: bool)
    ensures ForceClose(l) == if TestPasses(l.c, ForceCall) then Assigned(l, ForceCall, inLoop) else l
    ensures Shutdown(l, inLoop) == if TestPasses(l.c, ShutCall) then Assigned(l, ShutCall, inLoop) else l
  {
  }

  // ---- fresh and stale assignments ----------------------------------------

  /** The assignment finds the connection still up. */
  ghost predicate Fresh(r: Racy, step: RacyStep)
    requires Possible(r, step)
  {
    step.Assign? ==> CanClose(r.s.conns[r.passed[step.t].conn])
  }

  ghost predicate AllFresh(r: Racy, steps: seq<RacyStep>)
    requires RacyRuns(r, steps)
    decreases |steps|
  {
    steps == [] || (Fresh(r, steps[0]) && AllFresh(After(r, steps[0]), steps[1..]))
  }

  /** The lifecycle, of every connection: callbacks in order, and the state they pin. */
  ghost predicate LifecycleHolds(s: State) {
    forall i :: 0 <= i < |s.conns| ==> LifecycleOf(s.conns[i])
  }

  predicate LifecycleOf(c: Conn) {
    && c.log <= LIFE
    && (c.log == [] <==> c.state == Connecting)
    && (c.log == [Up] <==> CanClose(c))
    && (|c.log| >= 2 <==> c.state == Disconnected)
  }

  ghost predicate HoldsThroughout(r: Racy, steps: seq<RacyStep>)
    requires RacyRuns(r, steps)
    decreases |steps|
  {
    LifecycleHolds(r.s) && (steps == [] || HoldsThroughout(After(r, steps[0]), steps[1..]))
  }

  // ---- fresh assignments keep the invariant -------------------------------

  /** A fresh assignment is one of the calls, or a second shutdown of a half-closing connection. */
  lemma FreshKeeps(l: Local, call: Call, inLoop: bool)
    requires Ready(l) && LocalShape(l, false) && CanClose(l.c)
    ensures var m := Assigned(l, call, inLoop); Framed(l, m) && LocalShape(m, false) && m.c.log == l.c.log
  {
    HalvesAreTheCall(l, inLoop);
    match call
    case ForceCall => ForceCloseKeeps(l, false);
    case ShutCall =>
      if l.c.state == Connected {
        ShutdownKeeps(l, inLoop, false);
      } else {
        QueuedJobs(l, Shut);
      }
  }

  /** A call in progress is on a connection the user has been introduced to. */
  ghost predicate CallersKnow(r: Racy) {
    forall t :: t in r.passed ==> r.passed[t].conn < |r.s.conns| && r.s.conns[r.passed[t].conn].log != []
  }

  lemma FreshAssignKeeps(r: Racy, t: Tid, inLoop: bool)
    requires Inv(r.s) && Possible(r, Assign(t, inLoop)) && Fresh(r, Assign(t, inLoop))
    ensures Inv(After(r, Assign(t, inLoop)).s)
  {
    var s, i := r.s, r.passed[t].conn;
    var m := Assigned(At(s, i), r.passed[t].call, inLoop);
    assert ShapeAt(s, i);
    LogStages(s.conns[i]);
    ReadyAt(s, i);
    FreshKeeps(At(s, i), r.passed[t].call, inLoop);
    Lift(s, i, m);
  }

  lemma IntroducedStays(r: Racy, step: RacyStep)
    requires Inv(r.s) && CallersKnow(r) && Possible(r, step)
    ensures CallersKnow(After(r, step))
  {
    hide Inv, Enabled, Next;
    var q := After(r, step);
    forall t | t in q.passed ensures q.passed[t].conn < |q.s.conns| && q.s.conns[q.passed[t].conn].log != [] {
      if step.Plain? {
        StepTakes(r.s, step.step, r.passed[t].conn);
      }
    }
  }

  lemma LifecycleFromInv(s: State)
    requires Inv(s)
    ensures LifecycleHolds(s)
  {
    forall i | 0 <= i < |s.conns| ensures LifecycleOf(s.conns[i]) {
      assert ShapeAt(s, i);
    }
  }

  /** A stale assignment breaks the lifecycle there and then. */
  lemma StaleBreaks(r: Racy, t: Tid, inLoop: bool)
    requires Inv(r.s) && CallersKnow(r) && Possible(r, Assign(t, inLoop)) && !Fresh(r, Assign(t, inLoop))
    ensures !LifecycleHolds(After(r, Assign(t, inLoop)).s)
  {
    hide Inv;
    var i := r.passed[t].conn;
    LifecycleFromInv(r.s);
    assert LifecycleOf(r.s.conns[i]);
    assert !LifecycleOf(After(r, Assign(t, inLoop)).s.conns[i]);
  }

  lemma {:induction false} RacyIff(r: Racy, steps: seq<RacyStep>)
    requires Inv(r.s) && CallersKnow(r) && RacyRuns(r, steps)
    ensures HoldsThroughout(r, steps) <==> AllFresh(r, steps)
    ensures AllFresh(r, steps) ==> Inv(RacyRun(r, steps).s)
    decreases |steps|
  {
    hide Inv, Possible, After, Fresh, LifecycleHolds, CallersKnow;
    LifecycleFromInv(r.s);
    if steps != [] {
      IntroducedStays(r, steps[0]);
      if Fresh(r, steps[0]) {
        FreshStepKeeps(r, steps[0]);
        RacyIff(After(r, steps[0]), steps[1..]);
      } else {
        StaleStepBreaks(r, steps[0]);
      }
    }
  }

  lemma FreshStepKeeps(r: Racy, step: RacyStep)
    requires Inv(r.s) && Possible(r, step) && Fresh(r, step)
    ensures Inv(After(r, step).s)
  {
    hide Inv, Enabled, Next;
    match step
    case Plain(p) => StepKeepsInv(r.s, p);
    case Assign(t, inLoop) => FreshAssignKeeps(r, t, inLoop);
    case Test(_, _, _) =>
  }

  lemma StaleStepBreaks(r: Racy, step: RacyStep)
    requires Inv(r.s) && CallersKnow(r) && Possible(r, step) && !Fresh(r, step)
    ensures !LifecycleHolds(After(r, step).s)
  {
    StaleBreaks(r, step.t, step.inLoop);
  }

  // ---- theorems -----------------------------------------------------------

  /**
   Over every run with calls split in two: the lifecycle holds in every state of the run if and only if
   every assignment found its connection still up.
   */
  lemma LifecycleSurvivesIff(s: State, steps: seq<RacyStep>)
    requires Initial(s) && RacyRuns(Racy(s, map[]), steps)
    ensures HoldsThroughout(Racy(s, map[]), steps) <==> AllFresh(Racy(s, map[]), steps)
  {
    InitInv(s);
    RacyIff(Racy(s, map[]), steps);
  }

  /** Every shutdownInLoop queued for connection `i` has the map or a connectDestroyed behind it. */
  ghost predicate ShutsCovered(s: State, i: nat)
    requires i < |s.conns|
  {
    var q := s.w.q.Unrun();
    forall k :: 0 <= k < |q| && q[k] == OnConn(Shut, i) ==> InMap(s.w, s.conns[i]) || OnConn(Destroy, i) in q[k + 1..]
  }

  /**
   In a run whose assignments have been fresh so far, the next one, fresh or stale, leaves the raw
   pointers of shutdownInLoop covered if and only if it queues none or the map still owns the connection.
   */
  lemma ShutsSurviveIff(s: State, steps: seq<RacyStep>, t: Tid, inLoop: bool)
    requires Initial(s) && RacyRuns(Racy(s, map[]), steps) && AllFresh(Racy(s, map[]), steps)
    requires Possible(RacyRun(Racy(s, map[]), steps), Assign(t, inLoop))
    ensures var r := RacyRun(Racy(s, map[]), steps); var i := r.passed[t].conn;
            var u := After(r, Assign(t, inLoop)).s;
            && i < |u.conns|
            && (ShutsCovered(u, i) <==> r.passed[t].call == ForceCall || inLoop || InMap(r.s.w, r.s.conns[i]))
  {
    InitInv(s);
    RacyIff(Racy(s, map[]), steps);
    var r := RacyRun(Racy(s, map[]), steps);
    AssignCovers(r, t, inLoop);
  }

  /** As `ShutsCovered`, of a queue. */
  ghost predicate Covered(q: seq<Functor>, i: nat, mapped: bool) {
    forall k :: 0 <= k < |q| && q[k] == OnConn(Shut, i) ==> mapped || OnConn(Destroy, i) in q[k + 1..]
  }

  lemma PushCovers(p: seq<Functor>, f: Functor, i: nat, mapped: bool)
    requires Covered(p, i, mapped) && f != OnConn(Destroy, i)
    ensures Covered(p + [f], i, mapped) <==> f != OnConn(Shut, i) || mapped
  {
    var q := p + [f];
    assert q[|p|] == f && q[|p| + 1..] == [];
    forall k | 0 <= k < |p| && p[k] == OnConn(Shut, i) ensures mapped || OnConn(Destroy, i) in q[k + 1..] {
      assert q[k + 1..] == p[k + 1..] + [f];
    }
  }

  lemma CoveredSoFar(s: State, i: nat)
    requires Inv(s) && i < |s.conns|
    ensures Covered(s.w.q.Unrun(), i, InMap(s.w, s.conns[i]))
  {
    hide Inv;
    forall k | 0 <= k < |s.w.q.Unrun()| && s.w.q.Unrun()[k] == OnConn(Shut, i)
      ensures InMap(s.w, s.conns[i]) || OnConn(Destroy, i) in s.w.q.Unrun()[k + 1..]
    {
      ShutIsCovered(s, i, k);
    }
  }

  /** What an assignment does to the queue and the map. */
  lemma AssignedQueue(l: Local, call: Call, inLoop: bool)
    ensures var m := Assigned(l, call, inLoop);
            && InMap(m.w, m.c) == InMap(l.w, l.c)
            && m.w.q.Unrun() == l.w.q.Unrun() +
                 if call == ShutCall && inLoop then [] else [OnConn(if call == ForceCall then Force else Shut, l.c.me)]
  {
  }

  lemma AssignCovers(r: Racy, t: Tid, inLoop: bool)
    requires Inv(r.s) && Possible(r, Assign(t, inLoop))
    ensures var i := r.passed[t].conn; var u := After(r, Assign(t, inLoop)).s;
            ShutsCovered(u, i) <==> r.passed[t].call == ForceCall || inLoop || InMap(r.s.w, r.s.conns[i])
  {
    hide Inv, Assigned, Queue.Unrun, InMap;
    var s, i, call := r.s, r.passed[t].conn, r.passed[t].call;
    Numbered(s, i);
    CoveredSoFar(s, i);
    AssignedQueue(At(s, i), call, inLoop);
    var p := s.w.q.Unrun();
    if call == ShutCall && inLoop {
      assert p + [] == p;
    } else {
      PushCovers(p, OnConn(if call == ForceCall then Force else Shut, i), i, InMap(s.w, s.conns[i]));
    }
  }

  lemma Numbered(s: State, i: nat)
    requires Inv(s) && i < |s.conns|
    ensures s.conns[i].me == i
  {
  }

  // ---- such runs exist ----------------------------------------------------

  function Plainly(steps: seq<Step>): seq<RacyStep> {
    seq(|steps|, k requires 0 <= k < |steps| => Plain(steps[k]))
  }

  lemma {:induction false} RacyConcat(r: Racy, a: seq<RacyStep>, b: seq<RacyStep>)
    requires RacyRuns(r, a) && RacyRuns(RacyRun(r, a), b)
    ensures RacyRuns(r, a + b) && RacyRun(r, a + b) == RacyRun(RacyRun(r, a), b)
    decreases |a|
  {
    hide Possible, After;
    if a == [] {
      assert a + b == b;
    } else {
      assert (a + b)[1..] == a[1..] + b;
      RacyConcat(After(r, a[0]), a[1..], b);
    }
  }

  lemma {:induction false} PlainRuns(r: Racy, steps: seq<Step>)
    requires Runs(r.s, steps) && forall k :: 0 <= k < |steps| ==> !steps[k].Reap?
    ensures RacyRuns(r, Plainly(steps)) && RacyRun(r, Plainly(steps)) == r.(s := Run(r.s, steps))
    decreases |steps|
  {
    hide Enabled, Next;
    if steps != [] {
      assert Plainly(steps) == [Plain(steps[0])] + Plainly(steps[1..]);
      assert Plainly(steps)[1..] == Plainly(steps[1..]);
      PlainRuns(r.(s := Next(r.s, steps[0])), steps[1..]);
    }
  }

  lemma OneRacy(r: Racy, step: RacyStep)
    requires Possible(r, step)
    ensures RacyRuns(r, [step]) && RacyRun(r, [step]) == After(r, step)
  {
    assert [step][1..] == [];
  }

  /** A peer arrives, a thread tests its connection, and the peer hangs up before the thread goes on. */
  function Caught(s: State, fd: int, call: Call): seq<RacyStep> {
    Plainly(Arrival(s, fd)) + [Test(0, 0, call)] + Plainly(Hangup(fd))
  }

  lemma CaughtRuns(s: State, fd: int, call: Call)
    requires Initial(s) && fd >= 0 && fd !in s.open && s.w.maxConnections >= 1
    ensures RacyRuns(Racy(s, map[]), Caught(s, fd, call))
    ensures var r := RacyRun(Racy(s, map[]), Caught(s, fd, call)); OneClosed(r.s) && r.passed == map[0 := Passed(0, call)]
  {
    hide Initial, OneClosed, Runs, Run, RacyRuns, RacyRun;
    var r0 := Racy(s, map[]);
    Arrives(s, fd);
    PlainRuns(r0, Arrival(s, fd));
    var r1 := RacyRun(r0, Plainly(Arrival(s, fd)));
    assert Freed !in r1.s.conns[0].log;
    OneRacy(r1, Test(0, 0, call));
    RacyConcat(r0, Plainly(Arrival(s, fd)), [Test(0, 0, call)]);
    HangsUp(r1.s, fd);
    var r2 := After(r1, Test(0, 0, call));
    PlainRuns(r2, Hangup(fd));
    RacyConcat(r0, Plainly(Arrival(s, fd)) + [Test(0, 0, call)], Plainly(Hangup(fd)));
  }

  /** Then the forced close is assigned and queued, and the loop drains. */
  function SecondDown(s: State, fd: int): seq<RacyStep> {
    Caught(s, fd, ForceCall) + [Assign(0, false)] + Plainly([SwapFunctors, RunFunctor(true), RunFunctor(true)])
  }

  /** From every initial state: a run that delivers DOWN twice, the second time after connectDestroyed. */
  lemma ForceCloseTooLate(s: State, fd: int)
    requires Initial(s) && fd >= 0 && fd !in s.open && s.w.maxConnections >= 1
    ensures RacyRuns(Racy(s, map[]), SecondDown(s, fd))
    ensures var u := RacyRun(Racy(s, map[]), SecondDown(s, fd)).s;
            |u.conns| == 1 && u.conns[0].log == [Up, Down, Closed, Destroyed, Down]
  {
    hide Initial, OneClosed, Runs, Run, RacyRuns, RacyRun;
    var r0 := Racy(s, map[]);
    CaughtRuns(s, fd, ForceCall);
    var r1 := RacyRun(r0, Caught(s, fd, ForceCall));
    AssignsLate(r1);
    OneRacy(r1, Assign(0, false));
    var r2 := After(r1, Assign(0, false));
    RacyConcat(r0, Caught(s, fd, ForceCall), [Assign(0, false)]);
    GoesDownAgain(r2.s);
    PlainRuns(r2, [SwapFunctors, RunFunctor(true), RunFunctor(true)]);
    RacyConcat(r0, Caught(s, fd, ForceCall) + [Assign(0, false)],
               Plainly([SwapFunctors, RunFunctor(true), RunFunctor(true)]));
  }

  /** Destroyed next, and wrongly taken for half-closing, with a forced close behind. */
  predicate Undead(t: State) {
    && |t.conns| == 1 && t.conns[0].log == [Up, Down, Closed] && t.conns[0].state == Disconnecting && t.conns[0].me == 0
    && t.conns[0].chan.events == NONE && t.todo == [] && t.phase == Dispatching
    && t.w.q == Queue([OnConn(Destroy, 0), OnConn(Force, 0)], [], [])
  }

  lemma AssignsLate(r: Racy)
    requires OneClosed(r.s) && r.passed == map[0 := Passed(0, ForceCall)]
    ensures Possible(r, Assign(0, false)) && Undead(After(r, Assign(0, false)).s)
  {
  }

  lemma GoesDownAgain(t: State)
    requires Undead(t)
    ensures var steps := [SwapFunctors, RunFunctor(true), RunFunctor(true)];
            && Runs(t, steps)
            && var u := Run(t, steps); |u.conns| == 1 && u.conns[0].log == [Up, Down, Closed, Destroyed, Down]
  {
    hide SetEvents, RemoveChannel;
    var f := RunFunctor(true);
    var t1 := Next(t, SwapFunctors);
    assert t1.w.q.left == [OnConn(Destroy, 0), OnConn(Force, 0)];
    var t2 := Next(t1, f);
    assert t2.conns[0].log == [Up, Down, Closed, Destroyed] && t2.w.q.left == [OnConn(Force, 0)] && t2.todo == [];
    var t3 := Next(t2, f);
    assert t3.conns[0].log == [Up, Down, Closed, Destroyed, Down];
    RunsStep(t2, f, []);
    RunsStep(t1, f, [f]);
    RunsStep(t, SwapFunctors, [f, f]);
  }

  /** Or the shutdown is assigned and queued once the loop has swapped; the loop destroys and frees. */
  function LateShut(s: State, fd: int): seq<RacyStep> {
    Caught(s, fd, ShutCall) + Plainly([SwapFunctors]) + [Assign(0, false)]
    + [Plain(RunFunctor(true)), Plain(EndDrain), Plain(Reap(0))]
  }

  /** From every initial state: a run that frees a connection with shutdownInLoop and its raw pointer queued. */
  lemma ShutdownTooLate(s: State, fd: int)
    requires Initial(s) && fd >= 0 && fd !in s.open && s.w.maxConnections >= 1
    ensures RacyRuns(Racy(s, map[]), LateShut(s, fd))
    ensures var u := RacyRun(Racy(s, map[]), LateShut(s, fd)).s;
            |u.conns| == 1 && !Alive(u.conns[0]) && OnConn(Shut, 0) in u.w.q.Unrun()
  {
    hide Initial, OneClosed, Runs, Run, RacyRuns, RacyRun;
    var r0 := Racy(s, map[]);
    CaughtRuns(s, fd, ShutCall);
    var r1 := RacyRun(r0, Caught(s, fd, ShutCall));
    SwapsClosed(r1.s);
    PlainRuns(r1, [SwapFunctors]);
    RacyConcat(r0, Caught(s, fd, ShutCall), Plainly([SwapFunctors]));
    var r2 := r1.(s := Run(r1.s, [SwapFunctors]));
    OneRacy(r2, Assign(0, false));
    RacyConcat(r0, Caught(s, fd, ShutCall) + Plainly([SwapFunctors]), [Assign(0, false)]);
    FreedEarly(After(r2, Assign(0, false)));
    RacyConcat(r0, Caught(s, fd, ShutCall) + Plainly([SwapFunctors]) + [Assign(0, false)],
               [Plain(RunFunctor(true)), Plain(EndDrain), Plain(Reap(0))]);
  }

  /** connectDestroyed is next. */
  predicate DestroyIsNext(u: State) {
    && |u.conns| == 1 && u.conns[0].log == [Up, Down, Closed] && u.conns[0].me == 0
    && u.conns[0].chan.events == NONE && !InMap(u.w, u.conns[0]) && u.held == {}
    && u.w.q.ran == [] && u.w.q.left == [OnConn(Destroy, 0)] && u.todo == [] && u.phase == Draining
  }

  lemma SwapsClosed(u: State)
    requires OneClosed(u)
    ensures Runs(u, [SwapFunctors])
    ensures var t := Run(u, [SwapFunctors]); DestroyIsNext(t) && t.w.q.pending == []
  {
    RunsStep(u, SwapFunctors, []);
    assert [SwapFunctors] + [] == [SwapFunctors];
  }

  lemma FreedEarly(r: Racy)
    requires DestroyIsNext(r.s) && r.s.conns[0].state == Disconnecting && r.passed == map[] && r.s.w.q.pending == [OnConn(Shut, 0)]
    ensures var steps := [Plain(RunFunctor(true)), Plain(EndDrain), Plain(Reap(0))];
            && RacyRuns(r, steps)
            && var u := RacyRun(r, steps).s;
               |u.conns| == 1 && !Alive(u.conns[0]) && OnConn(Shut, 0) in u.w.q.Unrun()
  {
    hide Next, Enabled, OnlyShutLeft, Alive, Queue.Unrun, RacyRuns, RacyRun;
    var f, e, z := RunFunctor(true), EndDrain, Reap(0);
    DestroysIt(r.s);
    FreesIt(Next(r.s, f));
    var r1 := After(r, Plain(f));
    var r2 := After(r1, Plain(e));
    OneRacy(r2, Plain(z));
    RacyStepThen(r1, Plain(e), [Plain(z)]);
    assert [Plain(e)] + [Plain(z)] == [Plain(e), Plain(z)];
    RacyStepThen(r, Plain(f), [Plain(e), Plain(z)]);
    assert [Plain(f)] + [Plain(e), Plain(z)] == [Plain(f), Plain(e), Plain(z)];
  }

  /** Destroyed, its batch at an end, and the raw pointer queued. */
  predicate OnlyShutLeft(u: State) {
    && |u.conns| == 1 && u.conns[0].log == [Up, Down, Closed, Destroyed] && u.conns[0].me == 0
    && !InMap(u.w, u.conns[0]) && u.held == {}
    && u.w.q.left == [] && u.w.q.pending == [OnConn(Shut, 0)] && u.todo == [] && u.phase == Draining
  }

  lemma DestroysIt(u: State)
    requires DestroyIsNext(u) && u.conns[0].state == Disconnecting && u.w.q.pending == [OnConn(Shut, 0)]
    ensures Enabled(u, RunFunctor(true)) && OnlyShutLeft(Next(u, RunFunctor(true)))
  {
    hide RemoveChannel;
  }

  lemma FreesIt(u: State)
    requires OnlyShutLeft(u)
    ensures Enabled(u, EndDrain)
    ensures var t := Next(u, EndDrain);
            && Enabled(t, Reap(0))
            && var v := Next(t, Reap(0)); |v.conns| == 1 && !Alive(v.conns[0]) && OnConn(Shut, 0) in v.w.q.Unrun()
  {
    var t := Next(u, EndDrain);
    assert t.w.q.Owned() == [OnConn(Shut, 0)];
    assert Alive(t.conns[0]) && !Referenced(t, 0);
    var v := Next(t, Reap(0));
    assert v.conns[0].log[4] == Freed && v.w.q.Unrun() == [OnConn(Shut, 0)];
  }

  lemma RacyStepThen(r: Racy, step: RacyStep, rest: seq<RacyStep>)
    requires Possible(r, step) && RacyRuns(After(r, step), rest)
    ensures RacyRuns(r, [step] + rest) && RacyRun(r, [step] + rest) == RacyRun(After(r, step), rest)
  {
    assert ([step] + rest)[1..] == rest;
  }
}
