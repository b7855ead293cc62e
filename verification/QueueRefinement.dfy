/**
 The server and the loop among threads have one queue: whatever the server does, its queue moves are a
 run of the thread-level loop, with every push, test and wakeup a step of its own.
 */
module QueueRefinement {
  import opened FunctorQueue
  import opened ConnectionModel
  import opened ServerModel
  import opened ServerInvariant
  import opened ForcedClose
  import W = WakeupModel

  type Thread = W.State<Functor>

  /** The functors themselves, without who queued them and when. */
  function Strip(js: seq<W.Job<Functor>>): seq<Functor> {
    seq(|js|, k requires 0 <= k < |js| => js[k].f)
  }

  function StripQueue(q: Queue<W.Job<Functor>>): Queue<Functor> {
    Queue(Strip(q.pending), Strip(q.ran), Strip(q.left))
  }

  function PcOf(p: Phase): W.Pc {
    match p
    case Waiting => W.Poll
    case Dispatching => W.Handle([])
    case Draining => W.Run
  }

  /** The same queue and the same place in the loop, and no thread half-way through a call. */
  predicate Tracks(s: State, x: Thread) {
    x.pc == PcOf(s.phase) && x.stage == map[] && !x.quit && StripQueue(x.q) == s.w.q
  }

  // ---- pushing ------------------------------------------------------------

  /** queueInLoop from start to end: push, test, and wakeup if the test says so. */
  function Call(cfg: W.Config, x: Thread, who: W.Tid, f: Functor): seq<W.Step<Functor>> {
    if !W.InLoop(cfg, who) || x.calling then [W.Push(who, f), W.Test(who), W.Wakeup(who)] else [W.Push(who, f), W.Test(who)]
  }

  /** A thread may call queueInLoop: the loop thread only from inside a handler or a functor. */
  predicate MayPush(cfg: W.Config, x: Thread, who: W.Tid) {
    x.stage == map[] && (who == cfg.loop ==> x.pc.Handle? || x.pc == W.Run)
  }

  lemma CallRuns(cfg: W.Config, x: Thread, who: W.Tid, f: Functor)
    requires MayPush(cfg, x, who)
    ensures W.Runs(cfg, x, Call(cfg, x, who, f))
    ensures var y := W.After(cfg, x, Call(cfg, x, who, f));
            && y.pc == x.pc && y.stage == map[] && y.quit == x.quit
            && y.q == x.q.Push(W.Job(f, who, x.swaps))
  {
    var x1 := W.Next(cfg, x, W.Push(who, f));
    var x2 := W.Next(cfg, x1, W.Test(who));
    if !W.InLoop(cfg, who) || x.calling {
      W.OneStep(cfg, x2, W.Wakeup(who));
      RunCons(cfg, x1, W.Test(who), [W.Wakeup(who)]);
      RunCons(cfg, x, W.Push(who, f), [W.Test(who), W.Wakeup(who)]);
      assert W.Next(cfg, x2, W.Wakeup(who)).stage == map[];
    } else {
      W.OneStep(cfg, x1, W.Test(who));
      RunCons(cfg, x, W.Push(who, f), [W.Test(who)]);
      assert x2.stage == map[];
    }
  }

  lemma RunCons(cfg: W.Config, x: Thread, step: W.Step<Functor>, rest: seq<W.Step<Functor>>)
    requires W.Enabled(cfg, x, step) && W.Runs(cfg, W.Next(cfg, x, step), rest)
    ensures W.Runs(cfg, x, [step] + rest) && W.After(cfg, x, [step] + rest) == W.After(cfg, W.Next(cfg, x, step), rest)
  {
    assert ([step] + rest)[1..] == rest;
  }

  lemma {:induction false} RunConcat(cfg: W.Config, x: Thread, a: seq<W.Step<Functor>>, b: seq<W.Step<Functor>>)
    requires W.Runs(cfg, x, a) && W.Runs(cfg, W.After(cfg, x, a), b)
    ensures W.Runs(cfg, x, a + b) && W.After(cfg, x, a + b) == W.After(cfg, W.After(cfg, x, a), b)
    decreases |a|
  {
    hide W.Enabled, W.Next;
    if a == [] {
      assert a + b == b;
    } else {
      assert (a + b)[1..] == a[1..] + b;
      RunConcat(cfg, W.Next(cfg, x, a[0]), a[1..], b);
    }
  }

  /** Several functors queued one after the other by one thread. */
  lemma {:induction false} PushAll(cfg: W.Config, x: Thread, who: W.Tid, fs: seq<Functor>) returns (ws: seq<W.Step<Functor>>)
    requires MayPush(cfg, x, who)
    ensures W.Runs(cfg, x, ws)
    ensures var y := W.After(cfg, x, ws);
            && y.pc == x.pc && y.stage == map[] && y.quit == x.quit
            && StripQueue(y.q) == StripQueue(x.q).(pending := Strip(x.q.pending) + fs)
    decreases |fs|
  {
    hide W.Enabled, W.Next;
    if fs == [] {
      ws := [];
      assert Strip(x.q.pending) + fs == Strip(x.q.pending);
    } else {
      CallRuns(cfg, x, who, fs[0]);
      var a := Call(cfg, x, who, fs[0]);
      var y := W.After(cfg, x, a);
      var b := PushAll(cfg, y, who, fs[1..]);
      RunConcat(cfg, x, a, b);
      assert Strip(y.q.pending) == Strip(x.q.pending) + [fs[0]];
      assert Strip(x.q.pending) + [fs[0]] + fs[1..] == Strip(x.q.pending) + fs;
      ws := a + b;
    }
  }

  // ---- steps --------------------------------------------------------------

  /** The steps by which the loop gets from one phase to the next. */
  function Between(step: Step): seq<W.Step<Functor>> {
    match step
    case Poll(_) => [W.PollReturns([])]
    case SwapFunctors => [W.EndHandling, W.SetCalling, W.DoSwap]
    case RunFunctor(_) => [W.RunOne]
    case EndDrain => [W.EndRun, W.ClearCalling, W.CheckQuit]
    case _ => []
  }

  /** The queue after `Between`, before anything is pushed. */
  function QueueBetween(q: Queue<Functor>, step: Step): Queue<Functor>
    requires step.RunFunctor? ==> q.left != []
  {
    match step
    case SwapFunctors => q.Swap()
    case RunFunctor(_) => q.Take()
    case EndDrain => q.Release()
    case _ => q
  }

  lemma BetweenRuns(cfg: W.Config, s: State, step: Step, x: Thread)
    requires Inv(s) && Enabled(s, step) && Tracks(s, x)
    ensures W.Runs(cfg, x, Between(step))
    ensures var y := W.After(cfg, x, Between(step));
            && y.pc == PcOf(Next(s, step).phase) && y.stage == map[] && !y.quit
            && StripQueue(y.q) == QueueBetween(s.w.q, step)
  {
    hide InvBut, Enabled, Next, W.Enabled, W.Next;
    LoopShape(s, step);
    StepReady(s, step);
    match step
    case Poll(_) => PollRuns(cfg, x);
    case RunFunctor(_) => FunctorRuns(cfg, x);
    case SwapFunctors => SwapRuns(cfg, x);
    case EndDrain => EndRuns(cfg, x);
    case _ =>
  }

  lemma StepReady(s: State, step: Step)
    requires Enabled(s, step)
    ensures step.RunFunctor? ==> s.phase == Draining
  {
  }

  lemma PollRuns(cfg: W.Config, x: Thread)
    requires x.pc == W.Poll && x.stage == map[]
    ensures W.Runs(cfg, x, [W.PollReturns([])]) && W.After(cfg, x, [W.PollReturns([])]) == x.(pc := W.Handle([]))
  {
    W.OneStep(cfg, x, W.PollReturns([]));
  }

  lemma FunctorRuns(cfg: W.Config, x: Thread)
    requires x.pc == W.Run && x.stage == map[] && StripQueue(x.q).left != []
    ensures W.Runs(cfg, x, [W.RunOne])
    ensures var y := W.After(cfg, x, [W.RunOne]);
            y.pc == x.pc && y.stage == map[] && y.quit == x.quit && StripQueue(y.q) == StripQueue(x.q).Take()
  {
    W.OneStep(cfg, x, W.RunOne);
  }

  lemma SwapRuns(cfg: W.Config, x: Thread)
    requires x.pc == W.Handle([]) && x.stage == map[]
    ensures W.Runs(cfg, x, [W.EndHandling, W.SetCalling, W.DoSwap])
    ensures var y := W.After(cfg, x, [W.EndHandling, W.SetCalling, W.DoSwap]);
            y.pc == W.Run && y.stage == map[] && y.quit == x.quit && y.q == x.q.Swap()
  {
    var x1 := W.Next(cfg, x, W.EndHandling);
    var x2 := W.Next(cfg, x1, W.SetCalling);
    W.OneStep(cfg, x2, W.DoSwap);
    RunCons(cfg, x1, W.SetCalling, [W.DoSwap]);
    RunCons(cfg, x, W.EndHandling, [W.SetCalling, W.DoSwap]);
  }

  lemma EndRuns(cfg: W.Config, x: Thread)
    requires x.pc == W.Run && x.stage == map[] && !x.quit && StripQueue(x.q).left == []
    ensures W.Runs(cfg, x, [W.EndRun, W.ClearCalling, W.CheckQuit])
    ensures var y := W.After(cfg, x, [W.EndRun, W.ClearCalling, W.CheckQuit]);
            y.pc == W.Poll && y.stage == map[] && !y.quit && y.q == x.q.Release()
  {
    var x1 := W.Next(cfg, x, W.EndRun);
    var x2 := W.Next(cfg, x1, W.ClearCalling);
    W.OneStep(cfg, x2, W.CheckQuit);
    RunCons(cfg, x1, W.ClearCalling, [W.CheckQuit]);
    RunCons(cfg, x, W.EndRun, [W.ClearCalling, W.CheckQuit]);
  }

  /** What the step then pushes. */
  lemma PushedAfter(s: State, step: Step) returns (fs: seq<Functor>)
    requires Inv(s) && Enabled(s, step)
    ensures step.RunFunctor? ==> s.w.q.left != []
    ensures var b := QueueBetween(s.w.q, step); Next(s, step).w.q == b.(pending := b.pending + fs)
  {
    hide Inv, Next, Enabled;
    QueueStep(s, step);
    var p, q := s.w.q, Next(s, step).w.q;
    if step.SwapFunctors? || step.EndDrain? {
      fs := [];
      assert q.pending + [] == q.pending;
    } else {
      fs := q.pending[|p.pending|..];
      assert q.pending == p.pending + fs;
    }
  }

  /** The thread that makes the step's calls: the loop's own, or for user calls and the start, `who`. */
  function Caller(cfg: W.Config, step: Step, who: W.Tid): W.Tid {
    if step.User? || step.Start? then who else cfg.loop
  }

  /** The loop thread is inside a handler or a functor whenever it is the caller. */
  lemma CallerMay(cfg: W.Config, s: State, step: Step, who: W.Tid)
    requires Inv(s) && Enabled(s, step) && (who == cfg.loop ==> s.phase != Waiting)
    ensures Caller(cfg, step, who) == cfg.loop ==>
              Next(s, step).phase != Waiting || step.EndDrain? || step.Reap?
  {
    LoopShape(s, step);
  }

  /** Every step of the server moves the queue as some run of the thread-level loop does. */
  lemma StepTracks(cfg: W.Config, s: State, step: Step, x: Thread, who: W.Tid) returns (ws: seq<W.Step<Functor>>)
    requires Inv(s) && Enabled(s, step) && Tracks(s, x) && (who == cfg.loop ==> s.phase != Waiting)
    ensures W.Runs(cfg, x, ws) && Tracks(Next(s, step), W.After(cfg, x, ws))
  {
    hide Inv, Enabled, Next, W.Enabled, W.Next;
    BetweenRuns(cfg, s, step, x);
    CallerMay(cfg, s, step, who);
    var fs := PushedAfter(s, step);
    var y := W.After(cfg, x, Between(step));
    ws := Between(step);
    if fs != [] {
      NoPushes(s, step);
      var more := PushAll(cfg, y, Caller(cfg, step, who), fs);
      RunConcat(cfg, x, ws, more);
      ws := ws + more;
    } else {
      assert QueueBetween(s.w.q, step).pending + fs == QueueBetween(s.w.q, step).pending;
    }
  }

  /** Finishing a drain, the poll and a destructor queue nothing. */
  lemma NoPushes(s: State, step: Step)
    requires Enabled(s, step)
    ensures step.EndDrain? || step.Reap? || step.Poll? ==>
              step.EndDrain? || Next(s, step).w.q == s.w.q
    ensures step.EndDrain? ==> Next(s, step).w.q == s.w.q.Release()
  {
  }

  // ---- runs ---------------------------------------------------------------

  /** Who makes the user calls: any thread, the loop's own only from inside a callback. */
  predicate Callers(cfg: W.Config, s: State, steps: seq<Step>, whos: seq<W.Tid>)
    requires Runs(s, steps) && |whos| == |steps|
    decreases |steps|
  {
    steps == [] ||
    ((whos[0] == cfg.loop ==> s.phase != Waiting) && Callers(cfg, Next(s, steps[0]), steps[1..], whos[1..]))
  }

  lemma {:induction false} RunTracks(cfg: W.Config, s: State, steps: seq<Step>, whos: seq<W.Tid>, x: Thread)
    returns (ws: seq<W.Step<Functor>>)
    requires Inv(s) && Runs(s, steps) && Tracks(s, x) && |whos| == |steps| && Callers(cfg, s, steps, whos)
    ensures W.Runs(cfg, x, ws) && Tracks(Run(s, steps), W.After(cfg, x, ws))
    decreases |steps|
  {
    hide Inv, Enabled, Next, W.Enabled, W.Next, Tracks;
    if steps == [] {
      ws := [];
    } else {
      var a := StepTracks(cfg, s, steps[0], x, whos[0]);
      StepKeepsInv(s, steps[0]);
      var b := RunTracks(cfg, Next(s, steps[0]), steps[1..], whos[1..], W.After(cfg, x, a));
      RunConcat(cfg, x, a, b);
      ws := a + b;
    }
  }

  /** The loop started and polling. */
  function Started(): seq<W.Step<Functor>> {
    [W.Start, W.CheckQuit]
  }

  lemma StartTracks(cfg: W.Config, s: State)
    requires Initial(s)
    ensures W.Runs(cfg, W.Initial(), Started()) && Tracks(s, W.After(cfg, W.Initial(), Started()))
  {
    var x0: Thread := W.Initial();
    var x1 := W.Next(cfg, x0, W.Start);
    W.OneStep(cfg, x1, W.CheckQuit);
    RunCons(cfg, x0, W.Start, [W.CheckQuit]);
  }

  /**
   Every run of the server, its user calls made by any threads, has the queue of a run of the
   thread-level loop from its own initial state; so what is proved of those runs (order, exactly once,
   wakeups) is true of the server's queue.
   */
  lemma ServerIsLoop(cfg: W.Config, s: State, steps: seq<Step>, whos: seq<W.Tid>) returns (ws: seq<W.Step<Functor>>)
    requires Initial(s) && Runs(s, steps) && |whos| == |steps| && Callers(cfg, s, steps, whos)
    ensures W.Runs(cfg, W.Initial(), ws) && Tracks(Run(s, steps), W.After(cfg, W.Initial(), ws))
  {
    hide Initial, W.Initial, Tracks, W.Enabled, W.Next;
    InitInv(s);
    StartTracks(cfg, s);
    var x := W.After(cfg, W.Initial(), Started());
    var more := RunTracks(cfg, s, steps, whos, x);
    RunConcat(cfg, W.Initial(), Started(), more);
    ws := Started() + more;
  }
}
