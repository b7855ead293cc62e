/**
 The loop thread is never stuck and never spins: some step of its own is always possible, each one
 brings the end of the current drain closer, and nobody else can push that end away. So a connection
 that has gone down is torn down, and then freed as soon as the user lets go of it.
 */
module Progress {
  import opened PollerModel
  import opened ConnectionModel
  import opened ServerModel
  import opened LocalInvariant
  import opened ServerInvariant
  import opened ServerTheorems
  import opened Teardown

  predicate LoopStep(step: Step) {
    step.Poll? || step.Advance? || step.SwapFunctors? || step.RunFunctor? || step.EndDrain?
  }

  // ---- never stuck --------------------------------------------------------

  /** What the loop thread does next when the kernel has nothing to offer. */
  function NextOfLoop(s: State, inLoop: bool): Step {
    if s.todo != [] then Advance(-1, inLoop)
    else
      match s.phase
      case Waiting => Poll([])
      case Dispatching => SwapFunctors
      case Draining => if s.w.q.left != [] then RunFunctor(inLoop) else EndDrain
  }

  lemma LoopCanStep(s: State, inLoop: bool)
    requires Inv(s)
    ensures LoopStep(NextOfLoop(s, inLoop)) && Enabled(s, NextOfLoop(s, inLoop))
  {
  }

  /**
   In every reachable state the loop thread can go on, even if every system call fails: no callback
   and no functor refers to a connection that does not exist.
   */
  lemma NeverStuck(s: State, steps: seq<Step>, inLoop: bool)
    requires Initial(s) && Runs(s, steps)
    ensures LoopStep(NextOfLoop(Run(s, steps), inLoop)) && Enabled(Run(s, steps), NextOfLoop(Run(s, steps), inLoop))
  {
    Reached(s, steps);
    LoopCanStep(Run(s, steps), inLoop);
  }

  // ---- never spinning -----------------------------------------------------

  /** More than the work of everything a micro step can put in its place. */
  function Weight(m: Micro): nat {
    match m
    case Dispatch(_, _) => 6
    case CloseOf(_) => 2
    case ReadOf(_, _) => 2
    case WriteOf(_) => 1
    case CloseCallback(_) => 1
    case AcceptRead => 1
    case WakeupRead => 1
  }

  function Work(todo: seq<Micro>): nat {
    if todo == [] then 0 else Weight(todo[0]) + Work(todo[1..])
  }

  function Rank(p: Phase): nat {
    match p
    case Waiting => 0
    case Draining => 1
    case Dispatching => 2
  }

  /** Strictly earlier in the lexicographic order of phase, functors left and callbacks left. */
  predicate Closer(t: State, s: State) {
    || Rank(t.phase) < Rank(s.phase)
    || (t.phase == s.phase && |t.w.q.left| < |s.w.q.left|)
    || (t.phase == s.phase && t.w.q.left == s.w.q.left && Work(t.todo) < Work(s.todo))
  }

  lemma {:induction false} WorkConcat(a: seq<Micro>, b: seq<Micro>)
    ensures Work(a + b) == Work(a) + Work(b)
  {
    if a == [] {
      assert a + b == b;
    } else {
      assert (a + b)[1..] == a[1..] + b;
      WorkConcat(a[1..], b);
    }
  }

  lemma DispatchShrinks(s: State, key: ChanKey, r: Revents)
    ensures Work(Callbacks(s, key, r)) < 6
  {
    var i := if key.ConnChan? then key.conn else 0;
    var a := if Hangs(r) then [CloseOf(i)] else [];
    var b := if Reads(r) then [ReadOf(i, r)] else [];
    var c := if r.pollOut then [WriteOf(i)] else [];
    assert ConnCallbacks(i, r) == a + b + c;
    WorkConcat(a + b, c);
    WorkConcat(a, b);
    assert forall m: Micro :: Work([m]) == Weight(m) + Work([m][1..]);
  }

  /** The batch is the same; functors may have been added to the pending ones. */
  predicate SameBatch(t: State, u: State) {
    u.w.q.left == t.w.q.left && u.w.q.ran == t.w.q.ran && t.w.q.pending <= u.w.q.pending
  }

  lemma CloseShrinks(t: State, i: nat, inLoop: bool)
    requires i < |t.conns|
    ensures var u := Close(t, i, inLoop);
            && u.phase == t.phase && SameBatch(t, u)
            && Work(u.todo) <= Work(t.todo) + 1
  {
  }

  lemma MicroShrinks(t: State, m: Micro, n: int, inLoop: bool)
    requires MicroEnabled(t, m, n)
    ensures var u := DoMicro(t, m, n, inLoop);
            && u.phase == t.phase && SameBatch(t, u)
            && Work(u.todo) < Work(t.todo) + Weight(m)
  {
    hide Close, CloseBegin, HandleWrite, RemoveConnection, Callbacks;
    match m
    case Dispatch(key, r) =>
      DispatchShrinks(t, key, r);
      WorkConcat(Callbacks(t, key, r), t.todo);
    case CloseOf(j) => CloseShrinks(t, j, inLoop);
    case ReadOf(j, _) => CloseShrinks(t, j, inLoop);
    case WriteOf(j) => WriteAppends(At(t, j), n);
    case CloseCallback(j) => CallbacksAppend(At(t, j), inLoop);
    case AcceptRead =>
      if n >= 0 {
        AcceptInTwo(t, n, inLoop);
        CallbacksAppend(At(Constructed(t, n), |t.conns|), inLoop);
      }
    case WakeupRead =>
  }

  lemma FunctorKeepsBatch(t: State, f: Functor, inLoop: bool)
    requires FunctorEnabled(t, f)
    ensures var u := DoFunctor(t, f, inLoop);
            u.phase == t.phase && SameBatch(t, u)
  {
    hide ConnectEstablished, ConnectDestroyed, RemoveConnectionInLoop, ShutdownInLoop, CloseBegin;
    match f
    case Listen =>
    case OnConn(job, j) =>
      CallbacksAppend(At(t, j), inLoop);
      StopsAppend(At(t, j), inLoop);
  }

  /**
   Every step of the loop thread but the poll brings the end of the drain closer; user calls,
   destructors and the start of the acceptor leave the loop's remaining work as it is.
   */
  lemma LoopProgress(s: State, step: Step)
    requires Enabled(s, step)
    ensures var t := Next(s, step);
            && (LoopStep(step) && !step.Poll? ==> Closer(t, s))
            && (!LoopStep(step) ==> t.phase == s.phase && t.w.q.left == s.w.q.left && t.todo == s.todo)
  {
    hide DoMicro, DoFunctor, SendInLoop, Shutdown, ForceClose, Referenced;
    match step
    case Advance(n, inLoop) => MicroShrinks(s.(todo := s.todo[1..]), s.todo[0], n, inLoop);
    case RunFunctor(inLoop) => FunctorKeepsBatch(s.(w := s.w.(q := s.w.q.Take())), s.w.q.left[0], inLoop);
    case User(j, call, inLoop) =>
      StopsAppend(At(s, j), inLoop);
      if call.Send? {
        SendAppends(At(s, j), call.data, call.result);
      }
    case _ =>
  }

  // ---- a closed connection is torn down and freed -------------------------

  lemma {:induction false} RunConcat(s: State, a: seq<Step>, b: seq<Step>)
    requires Runs(s, a) && Runs(Run(s, a), b)
    ensures Runs(s, a + b) && Run(s, a + b) == Run(Run(s, a), b)
    decreases |a|
  {
    hide Next, Enabled;
    if a == [] {
      assert a + b == b;
    } else {
      assert (a + b)[1..] == a[1..] + b;
      RunConcat(Next(s, a[0]), a[1..], b);
    }
  }

  /** The loop by itself finishes the round it is in. */
  lemma {:induction false} DrainCompletes(s: State, inLoop: bool) returns (more: seq<Step>)
    requires Inv(s) && s.phase != Waiting
    ensures Runs(s, more) && forall k :: 0 <= k < |more| ==> LoopStep(more[k])
    ensures var t := Run(s, more); t.drains == s.drains + 1 && t.phase == Waiting
    decreases Rank(s.phase), |s.w.q.left|, Work(s.todo)
  {
    hide Inv, Next, Enabled;
    var step := NextOfLoop(s, inLoop);
    LoopCanStep(s, inLoop);
    var t := Next(s, step);
    StepKeepsInv(s, step);
    LoopProgress(s, step);
    StepCounter(s, step);
    AfterLoopStep(s, inLoop);
    if t.phase == Waiting {
      more := [step];
      assert Runs(t, []) && more[1..] == [];
    } else {
      var rest := DrainCompletes(t, inLoop);
      more := [step] + rest;
      assert more[1..] == rest;
    }
  }

  lemma AfterLoopStep(s: State, inLoop: bool)
    requires Inv(s) && s.phase != Waiting && Enabled(s, NextOfLoop(s, inLoop))
    ensures !NextOfLoop(s, inLoop).Poll?
    ensures Next(s, NextOfLoop(s, inLoop)).phase == Waiting <==> NextOfLoop(s, inLoop) == EndDrain
  {
    StepCounter(s, NextOfLoop(s, inLoop));
  }

  /** From any reachable state the loop by itself gets through one more drain. */
  lemma OneMoreDrain(s: State, inLoop: bool) returns (more: seq<Step>)
    requires Inv(s)
    ensures Runs(s, more) && forall k :: 0 <= k < |more| ==> LoopStep(more[k])
    ensures var t := Run(s, more); t.drains == s.drains + 1 && t.phase == Waiting
  {
    if s.phase == Waiting {
      LoopCanStep(s, inLoop);
      var step := Poll([]);
      var t := Next(s, step);
      StepKeepsInv(s, step);
      var rest := DrainCompletes(t, inLoop);
      more := [step] + rest;
      assert more[1..] == rest;
    } else {
      more := DrainCompletes(s, inLoop);
    }
  }

  /**
   From every reachable state in which a connection is down, the loop alone, with no further event
   from the kernel and whatever isInLoopThread answers, tears it down.
   */
  lemma TeardownHappens(s: State, steps: seq<Step>, i: nat, inLoop: bool) returns (more: seq<Step>)
    requires Initial(s) && Runs(s, steps) && i < |Run(s, steps).conns| && Down in Run(s, steps).conns[i].log
    ensures Runs(Run(s, steps), more) && forall k :: 0 <= k < |more| ==> LoopStep(more[k])
    ensures var t := Run(Run(s, steps), more);
            && t.phase == Waiting && i < |t.conns|
            && [Up, Down, Closed, Destroyed] <= t.conns[i].log && t.conns[i].name !in t.w.connections
  {
    hide Inv, Next, Enabled, Initial;
    var t0 := Run(s, steps);
    Reached(s, steps);
    var a := OneMoreDrain(t0, inLoop);
    RunKeepsInv(t0, a);
    var b := OneMoreDrain(Run(t0, a), inLoop);
    RunKeepsInv(Run(t0, a), b);
    var c := OneMoreDrain(Run(Run(t0, a), b), inLoop);
    RunConcat(Run(t0, a), b, c);
    RunConcat(t0, a, b + c);
    more := a + (b + c);
    TornDownInThreeDrains(s, steps, more, i);
  }

  /** No leak: between rounds, what is freed next is exactly what is destroyed and not held by the user. */
  lemma ReclaimableIff(s: State, steps: seq<Step>, i: nat)
    requires Initial(s) && Runs(s, steps) && i < |Run(s, steps).conns| && Run(s, steps).phase != Draining
    ensures var t := Run(s, steps);
            Enabled(t, Reap(i)) <==> t.conns[i].log == [Up, Down, Closed, Destroyed] && i !in t.held
  {
    Reached(s, steps);
    var t := Run(s, steps);
    if Enabled(t, Reap(i)) {
      ReapStage(t, i);
    } else if t.conns[i].log == [Up, Down, Closed, Destroyed] && i !in t.held {
      NothingQueued(t, i);
    }
  }

  lemma NothingQueued(t: State, i: nat)
    requires Inv(t) && t.phase != Draining && i < |t.conns| && i !in t.held
    requires t.conns[i].log == [Up, Down, Closed, Destroyed]
    ensures Enabled(t, Reap(i))
  {
    assert ShapeAt(t, i);
    LogStages(t.conns[i]);
    assert t.w.q.Owned() == t.w.q.Unrun();
    forall f | f in t.w.q.Owned() ensures !Owns(f, i) {
      if Owns(f, i) {
        JobsContain(t.w.q.Unrun(), i, f.job);
      }
    }
  }
}
