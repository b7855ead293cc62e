/**
 The event loop among threads. The loop thread's program counter, the mutex-guarded queue, the
 eventfd counter and the two flags, with every access to shared data a step of its own: another
 thread may come between a push and the test of `callingPendingFunctors_`, and between that test
 and the write to the eventfd.
 */
module WakeupModel {
  import opened FunctorQueue

  type Tid = nat

  /** `owner` is threadId_, the thread that constructed the loop; `loop` is the one running it. */
  datatype Config = Config(owner: Tid, loop: Tid)

  datatype Ready = WakeupFd | OtherFd

  /** Where loopthread is. `Swap` is inside doPendingFunctors with the flag already set. */
  datatype Pc =
    | Begin
    | Check
    | Poll
    | Handle(events: seq<Ready>)
    | Mark
    | Swap
    | Run
    | Clear
    | Exited

  /** Where a thread is inside queueInLoop or quitLoop. */
  datatype Stage = Pushed | Quitting | Waking

  /** A queued functor, who queued it, and how many swaps had happened by then. */
  datatype Job<F> = Job(f: F, who: Tid, era: nat)

  datatype State<F> = State(
    pc: Pc,
    quit: bool,
    calling: bool,
    eventfd: nat,
    q: Queue<Job<F>>,
    stage: map<Tid, Stage>,
    swaps: nat,
    quitters: set<Tid>,
    pushed: seq<Job<F>>,               // history: everything ever queued, in mutex order
    executed: seq<(Job<F>, nat)>)      // history: what ran, and in which drain

  const EVENTFD_MAX := 0xffff_ffff_ffff_fffe

  datatype Step<F> =
    | Start
    | CheckQuit
    | PollReturns(events: seq<Ready>)
    | HandleNext
    | EndHandling
    | SetCalling
    | DoSwap
    | RunOne
    | EndRun
    | ClearCalling
    | Push(who: Tid, f: F)
    | SetQuit(who: Tid)
    | Test(who: Tid)                    // the condition that decides whether to call wakeup
    | Wakeup(who: Tid)

  /** isInLoopThread() as seen by thread `t`. */
  predicate InLoop(cfg: Config, t: Tid) {
    t == cfg.owner
  }

  predicate LoopStep<F>(step: Step<F>) {
    !(step.Push? || step.SetQuit? || step.Test? || step.Wakeup?)
  }

  predicate Enabled<F>(cfg: Config, s: State<F>, step: Step<F>) {
    // The loop thread does nothing else while it is itself inside queueInLoop or quitLoop.
    (LoopStep(step) ==> cfg.loop !in s.stage) &&
    match step
    case Start => s.pc == Begin
    case CheckQuit => s.pc == Check
    case PollReturns(events) => s.pc == Poll && (WakeupFd in events ==> s.eventfd > 0)
    case HandleNext => s.pc.Handle? && s.pc.events != []
    case EndHandling => s.pc == Handle([])
    case SetCalling => s.pc == Mark
    case DoSwap => s.pc == Swap
    case RunOne => s.pc == Run && s.q.left != []
    case EndRun => s.pc == Run && s.q.left == []
    case ClearCalling => s.pc == Clear
    // The loop thread runs user code only inside a handler or a functor.
    case Push(t, _) => t !in s.stage && (t == cfg.loop ==> s.pc.Handle? || s.pc == Run)
    case SetQuit(t) => t !in s.stage && (t == cfg.loop ==> s.pc.Handle? || s.pc == Run)
    case Test(t) => t in s.stage && s.stage[t] != Waking
    case Wakeup(t) => t in s.stage && s.stage[t] == Waking
  }

  function Next<F>(cfg: Config, s: State<F>, step: Step<F>): State<F>
    requires Enabled(cfg, s, step)
  {
    match step
    case Start => s.(quit := false, quitters := {}, pc := Check)
    case CheckQuit => s.(pc := if s.quit then Exited else Poll)
    case PollReturns(events) => s.(pc := Handle(events))
    case HandleNext =>
      // EventLoop::handleRead reads the counter, which resets it.
      s.(eventfd := if s.pc.events[0] == WakeupFd then 0 else s.eventfd, pc := Handle(s.pc.events[1..]))
    case EndHandling => s.(pc := Mark)
    case SetCalling => s.(calling := true, pc := Swap)
    case DoSwap => s.(q := s.q.Swap(), swaps := s.swaps + 1, pc := Run)
    case RunOne => s.(q := s.q.Take(), executed := s.executed + [(s.q.left[0], s.swaps)])
    case EndRun => s.(q := s.q.Release(), pc := Clear)
    case ClearCalling => s.(calling := false, pc := Check)
    case Push(t, f) =>
      var job := Job(f, t, s.swaps);
      s.(q := s.q.Push(job), pushed := s.pushed + [job], stage := s.stage[t := Pushed])
    case SetQuit(t) => s.(quit := true, quitters := s.quitters + {t}, stage := s.stage[t := Quitting])
    case Test(t) =>
      if !InLoop(cfg, t) || (s.stage[t] == Pushed && s.calling) then s.(stage := s.stage[t := Waking])
      else s.(stage := s.stage - {t})
    case Wakeup(t) =>
      // A write that would overflow the counter fails with EAGAIN and leaves it above zero.
      s.(eventfd := if s.eventfd < EVENTFD_MAX then s.eventfd + 1 else s.eventfd, stage := s.stage - {t})
  }

  function Initial<F>(): State<F> {
    State(Begin, false, false, 0, Queue([], [], []), map[], 0, {}, [], [])
  }

  predicate Runs<F>(cfg: Config, s: State<F>, steps: seq<Step<F>>)
    decreases |steps|
  {
    steps == [] || (Enabled(cfg, s, steps[0]) && Runs(cfg, Next(cfg, s, steps[0]), steps[1..]))
  }

  function After<F>(cfg: Config, s: State<F>, steps: seq<Step<F>>): State<F>
    requires Runs(cfg, s, steps)
    decreases |steps|
  {
    if steps == [] then s else After(cfg, Next(cfg, s, steps[0]), steps[1..])
  }

  // ---- FIFO, exactly once -------------------------------------------------

  function Jobs<F>(ran: seq<(Job<F>, nat)>): seq<Job<F>> {
    seq(|ran|, k requires 0 <= k < |ran| => ran[k].0)
  }

  /** Everything queued is, in order, what ran, what is left of the batch and what is pending. */
  ghost predicate Fifo<F(!new)>(s: State<F>) {
    && s.pushed == Jobs(s.executed) + s.q.left + s.q.pending
    && (s.pc != Run ==> s.q.left == [])
    && (forall j :: j in s.q.pending ==> j.era == s.swaps)
    && (forall j :: j in s.q.left ==> j.era + 1 == s.swaps)
    && (forall k :: 0 <= k < |s.executed| ==> s.executed[k].1 == s.executed[k].0.era + 1)
  }

  lemma FifoStep<F(!new)>(cfg: Config, s: State<F>, step: Step<F>)
    requires Fifo(s) && Enabled(cfg, s, step)
    ensures Fifo(Next(cfg, s, step))
  {
  }

  lemma {:induction false} FifoRun<F(!new)>(cfg: Config, s: State<F>, steps: seq<Step<F>>)
    requires Fifo(s) && Runs(cfg, s, steps)
    ensures Fifo(After(cfg, s, steps))
    decreases |steps|
  {
    if steps != [] {
      FifoStep(cfg, s, steps[0]);
      FifoRun(cfg, Next(cfg, s, steps[0]), steps[1..]);
    }
  }

  /**
   In every interleaving, what ran ++ the rest of the batch ++ what is pending is the sequence ever
   queued; and a functor queued after the n-th swap runs in drain n + 1 exactly, so one queued by a
   running functor always waits for a later drain.
   */
  lemma FifoExactlyOnce<F(!new)>(cfg: Config, steps: seq<Step<F>>)
    requires Runs(cfg, Initial(), steps)
    ensures var s := After(cfg, Initial(), steps);
            && s.pushed == Jobs(s.executed) + s.q.left + s.q.pending
            && (forall k :: 0 <= k < |s.executed| ==> s.executed[k].1 == s.executed[k].0.era + 1)
            && (forall j :: j in s.q.left ==> j.era + 1 == s.swaps)
            && (forall j :: j in s.q.pending ==> j.era == s.swaps)
  {
    FifoRun(cfg, Initial(), steps);
  }

  // ---- no lost wakeup -----------------------------------------------------

  /** The callers whose pushes and quits are sure to be noticed. */
  predicate Audible(cfg: Config, t: Tid) {
    !InLoop(cfg, t) || cfg.owner == cfg.loop
  }

  /** Thread `t` is on its way to the eventfd: past its push or its quit, and bound to call wakeup. */
  predicate OnItsWay<F>(cfg: Config, s: State<F>, t: Tid) {
    t in s.stage && (s.stage[t] == Waking || !InLoop(cfg, t) || (t == cfg.loop && s.pc == Run && s.stage[t] == Pushed))
  }

  /** The poll will return: the counter is up, or somebody is about to raise it. */
  ghost predicate WillWake<F(!new)>(cfg: Config, s: State<F>) {
    s.eventfd > 0 || exists t: Tid :: OnItsWay(cfg, s, t)
  }

  /** The loop will swap the queue before it polls again. */
  predicate SwapsFirst(pc: Pc) {
    pc.Handle? || pc == Mark || pc == Swap
  }

  ghost predicate Wakeful<F(!new)>(cfg: Config, s: State<F>) {
    && (s.pc == Swap || s.pc == Run || s.pc == Clear ==> s.calling)
    && (cfg.loop in s.stage ==> s.pc.Handle? || s.pc == Run)
    && (forall j :: j in s.q.pending && Audible(cfg, j.who) && !SwapsFirst(s.pc) ==> WillWake(cfg, s))
    && (forall t :: t in s.quitters && !InLoop(cfg, t) && s.pc == Poll ==> WillWake(cfg, s))
    && (s.quitters != {} <==> s.quit)
  }

  /** Being woken is only ever lost by dispatching the wakeup, after which the loop swaps first. */
  lemma WakeKept<F(!new)>(cfg: Config, s: State<F>, step: Step<F>)
    requires Wakeful(cfg, s) && Enabled(cfg, s, step) && WillWake(cfg, s) && step != HandleNext
    ensures WillWake(cfg, Next(cfg, s, step))
  {
    var t := Next(cfg, s, step);
    if s.eventfd == 0 {
      var x: Tid :| OnItsWay(cfg, s, x);
      if step != Wakeup(x) {
        assert OnItsWay(cfg, t, x);
      }
    }
  }

  lemma WakefulStep<F(!new)>(cfg: Config, s: State<F>, step: Step<F>)
    requires Wakeful(cfg, s) && Enabled(cfg, s, step)
    ensures Wakeful(cfg, Next(cfg, s, step))
  {
    var t := Next(cfg, s, step);
    if WillWake(cfg, s) && step != HandleNext {
      WakeKept(cfg, s, step);
    }
    match step
    case Push(who, f) =>
      assert Audible(cfg, who) && !SwapsFirst(t.pc) ==> OnItsWay(cfg, t, who);
      assert t.q.pending == s.q.pending + [Job(f, who, s.swaps)];
    case SetQuit(who) =>
      assert !InLoop(cfg, who) ==> OnItsWay(cfg, t, who);
    case _ =>
  }

  lemma {:induction false} WakefulRun<F(!new)>(cfg: Config, s: State<F>, steps: seq<Step<F>>)
    requires Wakeful(cfg, s) && Runs(cfg, s, steps)
    ensures Wakeful(cfg, After(cfg, s, steps))
    decreases |steps|
  {
    if steps != [] {
      WakefulStep(cfg, s, steps[0]);
      WakefulRun(cfg, Next(cfg, s, steps[0]), steps[1..]);
    }
  }

  /**
   No lost wakeup, in either wiring: whenever the loop sits in the poll with a functor queued, or a
   quit requested, by anyone but a constructing thread that does not run the loop, the eventfd is
   raised or some thread is bound to raise it.
   */
  lemma NoLostWakeup<F(!new)>(cfg: Config, steps: seq<Step<F>>)
    requires Runs(cfg, Initial(), steps)
    ensures var s := After(cfg, Initial(), steps);
            s.pc == Poll ==>
              && ((exists j :: j in s.q.pending && Audible(cfg, j.who)) ==> WillWake(cfg, s))
              && ((exists t :: t in s.quitters && Audible(cfg, t)) ==> WillWake(cfg, s))
  {
    WakefulRun(cfg, Initial(), steps);
    QuitterRun(cfg, Initial(), steps);
  }

  /** A loop that quits itself does so from a handler or a functor, and then never polls again. */
  ghost predicate SelfQuit<F(!new)>(cfg: Config, s: State<F>) {
    && (s.quitters != {} <==> s.quit)
    && (cfg.loop in s.quitters ==> s.pc != Poll)
    && (cfg.loop in s.stage ==> s.pc.Handle? || s.pc == Run)
  }

  lemma {:induction false} QuitterRun<F(!new)>(cfg: Config, s: State<F>, steps: seq<Step<F>>)
    requires SelfQuit(cfg, s) && Runs(cfg, s, steps)
    ensures SelfQuit(cfg, After(cfg, s, steps))
    decreases |steps|
  {
    if steps != [] {
      QuitterRun(cfg, Next(cfg, s, steps[0]), steps[1..]);
    }
  }

  // ---- the counter --------------------------------------------------------

  /** The step dispatches the wakeup channel. */
  predicate DispatchesWakeup<F>(s: State<F>, step: Step<F>) {
    step.HandleNext? && s.pc.Handle? && s.pc.events != [] && s.pc.events[0] == WakeupFd
  }

  /** How often wakeup was called since the wakeup channel was last dispatched, having been called `n` times before. */
  function WakeupsSince<F>(cfg: Config, s: State<F>, steps: seq<Step<F>>, n: nat): nat
    requires Runs(cfg, s, steps)
    decreases |steps|
  {
    if steps == [] then n
    else
      var now := if DispatchesWakeup(s, steps[0]) then 0 else if steps[0].Wakeup? then n + 1 else n;
      WakeupsSince(cfg, Next(cfg, s, steps[0]), steps[1..], now)
  }

  function Capped(n: nat): nat {
    if n <= 0xffff_ffff_ffff_fffe then n else 0xffff_ffff_ffff_fffe
  }

  lemma {:induction false} CounterRun<F(!new)>(cfg: Config, s: State<F>, steps: seq<Step<F>>, n: nat)
    requires Runs(cfg, s, steps) && s.eventfd == Capped(n)
    ensures After(cfg, s, steps).eventfd == Capped(WakeupsSince(cfg, s, steps, n))
    decreases |steps|
  {
    if steps != [] {
      var now := if DispatchesWakeup(s, steps[0]) then 0 else if steps[0].Wakeup? then n + 1 else n;
      assert Next(cfg, s, steps[0]).eventfd == Capped(now);
      CounterRun(cfg, Next(cfg, s, steps[0]), steps[1..], now);
    }
  }

  /**
   In every run the counter is the number of wakeups since the wakeup channel was last dispatched, up
   to the most it can hold: the dispatch leaves it at 0, and the poll reports the channel again only
   after another wakeup.
   */
  lemma CounterIsWakeups<F(!new)>(cfg: Config, steps: seq<Step<F>>, step: Step<F>)
    requires Runs(cfg, Initial(), steps) && Enabled(cfg, After(cfg, Initial(), steps), step)
    ensures var s := After(cfg, Initial(), steps);
            && s.eventfd == Capped(WakeupsSince(cfg, Initial(), steps, 0))
            && (DispatchesWakeup(s, step) ==> Next(cfg, s, step).eventfd == 0)
            && (step.PollReturns? && WakeupFd in step.events ==> WakeupsSince(cfg, Initial(), steps, 0) > 0)
  {
    CounterRun(cfg, Initial(), steps, 0);
  }

  // ---- exactly when no wakeup is lost -------------------------------------

  predicate PushedBy<F>(steps: seq<Step<F>>, callers: set<Tid>) {
    forall k :: 0 <= k < |steps| && steps[k].Push? ==> steps[k].who in callers
  }

  lemma {:induction false} PendingFrom<F(!new)>(cfg: Config, s: State<F>, steps: seq<Step<F>>, callers: set<Tid>)
    requires Runs(cfg, s, steps) && PushedBy(steps, callers)
    requires forall j :: j in s.q.pending ==> j.who in callers
    ensures forall j :: j in After(cfg, s, steps).q.pending ==> j.who in callers
    decreases |steps|
  {
    if steps != [] {
      assert steps[0].Push? ==> steps[0].who in callers;
      PendingFrom(cfg, Next(cfg, s, steps[0]), steps[1..], callers);
    }
  }

  /** Nothing stays queued behind a sleeping poll. */
  ghost predicate Noticed<F(!new)>(cfg: Config, s: State<F>) {
    s.pc == Poll && s.q.pending != [] ==> WillWake(cfg, s)
  }

  /** The run that loses a wakeup: the constructing thread queues while another thread polls. */
  function SilentPush<F>(cfg: Config, f: F): seq<Step<F>> {
    [Start, CheckQuit, Push(cfg.owner, f), Test(cfg.owner)]
  }

  lemma SilentPushIsLost<F(!new)>(cfg: Config, f: F)
    requires cfg.owner != cfg.loop
    ensures Runs(cfg, Initial(), SilentPush(cfg, f)) && !Noticed(cfg, After(cfg, Initial(), SilentPush(cfg, f)))
  {
    var steps := SilentPush(cfg, f);
    var s0: State<F> := Initial();
    var s1 := Next(cfg, s0, Start);
    var s2 := Next(cfg, s1, CheckQuit);
    var s3 := Next(cfg, s2, Push(cfg.owner, f));
    var s4 := Next(cfg, s3, Test(cfg.owner));
    assert steps[1..] == [CheckQuit, Push(cfg.owner, f), Test(cfg.owner)];
    assert steps[1..][1..] == [Push(cfg.owner, f), Test(cfg.owner)];
    assert steps[1..][1..][1..] == [Test(cfg.owner)];
    assert steps[1..][1..][1..][1..] == [];
    assert s4.stage == map[];
    assert Runs(cfg, s4, []) && Runs(cfg, s3, [Test(cfg.owner)]);
    assert Runs(cfg, s2, steps[1..][1..]) && Runs(cfg, s1, steps[1..]);
    assert After(cfg, s0, steps) == After(cfg, s2, steps[1..][1..]) == After(cfg, s4, []);
  }

  /**
   Exactly which wirings are safe: no run loses a functor's wakeup if and only if the loop runs on
   the thread that constructed it, or that thread never queues anything.
   */
  lemma NoWakeupLostIff<F(!new)>(cfg: Config, callers: set<Tid>, f: F)
    ensures (forall steps: seq<Step<F>> :: Runs(cfg, Initial(), steps) && PushedBy(steps, callers) ==>
               Noticed(cfg, After(cfg, Initial(), steps)))
            <==> (cfg.owner == cfg.loop || cfg.owner !in callers)
  {
    if cfg.owner == cfg.loop || cfg.owner !in callers {
      forall steps: seq<Step<F>> | Runs(cfg, Initial(), steps) && PushedBy(steps, callers)
        ensures Noticed(cfg, After(cfg, Initial(), steps))
      {
        WakefulRun(cfg, Initial(), steps);
        PendingFrom(cfg, Initial(), steps, callers);
        var s := After(cfg, Initial(), steps);
        if s.q.pending != [] {
          assert s.q.pending[0] in s.q.pending;
        }
      }
    } else {
      SilentPushIsLost(cfg, f);
      assert PushedBy(SilentPush(cfg, f), callers);
    }
  }

  // ---- exactly when no quit is lost ---------------------------------------

  predicate QuitBy<F>(steps: seq<Step<F>>, callers: set<Tid>) {
    forall k :: 0 <= k < |steps| && steps[k].SetQuit? ==> steps[k].who in callers
  }

  lemma {:induction false} QuittersFrom<F(!new)>(cfg: Config, s: State<F>, steps: seq<Step<F>>, callers: set<Tid>)
    requires Runs(cfg, s, steps) && QuitBy(steps, callers) && s.quitters <= callers
    ensures After(cfg, s, steps).quitters <= callers
    decreases |steps|
  {
    if steps != [] {
      assert steps[0].SetQuit? ==> steps[0].who in callers;
      QuittersFrom(cfg, Next(cfg, s, steps[0]), steps[1..], callers);
    }
  }

  /** Nobody waits behind a sleeping poll for the loop to quit. */
  ghost predicate QuitNoticed<F(!new)>(cfg: Config, s: State<F>) {
    s.pc == Poll && s.quitters != {} ==> WillWake(cfg, s)
  }

  /** The run that loses a quit: the constructing thread quits the loop while another thread polls. */
  function SilentQuit<F>(cfg: Config): seq<Step<F>> {
    [Start, CheckQuit, SetQuit(cfg.owner), Test(cfg.owner)]
  }

  lemma SilentQuitIsLost<F(!new)>(cfg: Config)
    requires cfg.owner != cfg.loop
    ensures var s0: State<F> := Initial();
            Runs(cfg, s0, SilentQuit(cfg)) && !QuitNoticed(cfg, After(cfg, s0, SilentQuit(cfg)))
  {
    var steps: seq<Step<F>> := SilentQuit(cfg);
    var s0: State<F> := Initial();
    var s1 := Next(cfg, s0, Start);
    var s2 := Next(cfg, s1, CheckQuit);
    var s3 := Next(cfg, s2, SetQuit(cfg.owner));
    var s4 := Next(cfg, s3, Test(cfg.owner));
    assert steps[1..] == [CheckQuit, SetQuit(cfg.owner), Test(cfg.owner)];
    assert steps[1..][1..] == [SetQuit(cfg.owner), Test(cfg.owner)];
    assert steps[1..][1..][1..] == [Test(cfg.owner)];
    assert steps[1..][1..][1..][1..] == [];
    assert s4.stage == map[] && cfg.owner in s4.quitters;
    assert Runs(cfg, s4, []) && Runs(cfg, s3, [Test(cfg.owner)]);
    assert Runs(cfg, s2, steps[1..][1..]) && Runs(cfg, s1, steps[1..]);
    assert After(cfg, s0, steps) == After(cfg, s2, steps[1..][1..]) == After(cfg, s4, []);
  }

  /**
   The same for quitLoop, whose wakeup is skipped by the same test: no run loses a quit if and only if
   the loop runs on the thread that constructed it, or that thread never quits it.
   */
  lemma NoQuitLostIff<F(!new)>(cfg: Config, callers: set<Tid>)
    ensures (forall steps: seq<Step<F>> :: Runs(cfg, Initial(), steps) && QuitBy(steps, callers) ==>
               QuitNoticed(cfg, After(cfg, Initial(), steps)))
            <==> (cfg.owner == cfg.loop || cfg.owner !in callers)
  {
    if cfg.owner == cfg.loop || cfg.owner !in callers {
      forall steps: seq<Step<F>> | Runs(cfg, Initial(), steps) && QuitBy(steps, callers)
        ensures QuitNoticed(cfg, After(cfg, Initial(), steps))
      {
        WakefulRun(cfg, Initial(), steps);
        QuitterRun(cfg, Initial(), steps);
        QuittersFrom(cfg, Initial(), steps, callers);
        var s := After(cfg, Initial(), steps);
        if s.quitters != {} {
          var t :| t in s.quitters;
        }
      }
    } else {
      SilentQuitIsLost<F>(cfg);
      assert QuitBy<F>(SilentQuit(cfg), callers);
    }
  }

  // ---- quitting -----------------------------------------------------------

  function Phase(pc: Pc): nat {
    match pc
    case Begin => 8
    case Poll => 7
    case Handle(_) => 6
    case Mark => 5
    case Swap => 4
    case Run => 3
    case Clear => 2
    case Check => 1
    case Exited => 0
  }

  /** Handlers or functors still to run in the current phase. */
  function Remaining<F>(s: State<F>): nat {
    if s.pc.Handle? then |s.pc.events| else if s.pc == Run then |s.q.left| else 0
  }

  /** Strictly earlier in the lexicographic order of phase and remaining work. */
  predicate Closer<F>(t: State<F>, s: State<F>) {
    Phase(t.pc) < Phase(s.pc) || (Phase(t.pc) == Phase(s.pc) && Remaining(t) < Remaining(s))
  }

  /**
   Once the loop has started and quit is set, every step of the loop thread brings its exit closer,
   no other thread can take that back, and the loop thread is never stuck.
   */
  lemma QuitProgress<F(!new)>(cfg: Config, s: State<F>, step: Step<F>)
    requires s.quit && s.pc != Begin && Enabled(cfg, s, step)
    ensures var t := Next(cfg, s, step);
            && t.quit && t.pc != Begin
            && (LoopStep(step) ==> Closer(t, s))
            && (!LoopStep(step) ==> t.pc == s.pc && Remaining(t) == Remaining(s))
    ensures s.pc != Exited && cfg.loop !in s.stage ==> exists next: Step<F> :: LoopStep(next) && Enabled(cfg, s, next)
  {
    if s.pc != Exited && cfg.loop !in s.stage {
      var next := NextOut(cfg, s);
      assert LoopStep(next) && Enabled(cfg, s, next);
    }
  }

  function PollsIn<F>(steps: seq<Step<F>>): nat {
    if steps == [] then 0 else (if steps[0].PollReturns? then 1 else 0) + PollsIn(steps[1..])
  }

  /** From then on the loop returns from at most one more poll, runs at most one more batch, and never restarts. */
  lemma {:induction false} QuitBounds<F(!new)>(cfg: Config, s: State<F>, steps: seq<Step<F>>)
    requires s.quit && s.pc != Begin && Runs(cfg, s, steps)
    ensures var t := After(cfg, s, steps);
            && t.quit && Phase(t.pc) <= Phase(s.pc)
            && PollsIn(steps) <= (if s.pc == Poll then 1 else 0)
            && t.swaps <= s.swaps + (if Phase(s.pc) >= 4 then 1 else 0)
    decreases |steps|
  {
    if steps != [] {
      QuitProgress(cfg, s, steps[0]);
      QuitBounds(cfg, Next(cfg, s, steps[0]), steps[1..]);
    }
  }

  /** A request to quit is only ever taken back by the start of the loop, which resets the flag. */
  lemma QuitKeptIff<F(!new)>(cfg: Config, s: State<F>, step: Step<F>)
    requires s.quit && Enabled(cfg, s, step)
    ensures Next(cfg, s, step).quit <==> step != Start
  {
  }

  /** The run that forgets a quit: some thread quits the loop before the loop thread has reset the flag. */
  function EarlyQuit<F>(t: Tid): seq<Step<F>> {
    [SetQuit(t), Start]
  }

  lemma EarlyQuitIsForgotten<F(!new)>(cfg: Config, t: Tid)
    requires t != cfg.loop
    ensures var s0: State<F> := Initial();
            Runs(cfg, s0, EarlyQuit(t)) && !After(cfg, s0, EarlyQuit(t)).quit
  {
    var s0: State<F> := Initial();
    var s1 := Next(cfg, s0, SetQuit(t));
    OneStep(cfg, s1, Start);
    assert EarlyQuit<F>(t)[1..] == [Start];
  }

  lemma OneStep<F(!new)>(cfg: Config, s: State<F>, step: Step<F>)
    requires Enabled(cfg, s, step)
    ensures Runs(cfg, s, [step]) && After(cfg, s, [step]) == Next(cfg, s, step)
  {
    assert [step][1..] == [];
  }

  /** In every run: some continuation forgets a quit that is set if and only if the loop has not started. */
  lemma QuitForgottenIff<F(!new)>(cfg: Config, steps: seq<Step<F>>)
    requires Runs(cfg, Initial(), steps) && After(cfg, Initial(), steps).quit
    ensures var s := After(cfg, Initial(), steps);
            (exists more: seq<Step<F>> :: Runs(cfg, s, more) && !After(cfg, s, more).quit) <==> s.pc == Begin
  {
    var s := After(cfg, Initial(), steps);
    if s.pc == Begin {
      QuitterRun(cfg, Initial(), steps);
      OneStep(cfg, s, Start);
      assert !After(cfg, s, [Start]).quit;
    } else {
      forall more: seq<Step<F>> | Runs(cfg, s, more) ensures After(cfg, s, more).quit {
        QuitBounds(cfg, s, more);
      }
    }
  }

  /** What is left of a queueInLoop or quitLoop the loop thread is inside. */
  function StageRank<F>(cfg: Config, s: State<F>): nat {
    if cfg.loop !in s.stage then 0 else if s.stage[cfg.loop] == Waking then 1 else 2
  }

  /** What the loop thread does next on its way out. */
  function NextOut<F>(cfg: Config, s: State<F>): Step<F> {
    if cfg.loop in s.stage then
      if s.stage[cfg.loop] == Waking then Wakeup(cfg.loop) else Test(cfg.loop)
    else
      match s.pc
      case Begin => Start
      case Check => CheckQuit
      case Poll => PollReturns([])
      case Handle(events) => if events == [] then EndHandling else HandleNext
      case Mark => SetCalling
      case Swap => DoSwap
      case Run => if s.q.left == [] then EndRun else RunOne
      case Clear => ClearCalling
      case Exited => Start
  }

  lemma NextOutStep<F(!new)>(cfg: Config, s: State<F>)
    requires s.quit && s.pc != Begin && s.pc != Exited
    ensures var step := NextOut(cfg, s);
            && Enabled(cfg, s, step)
            && var t := Next(cfg, s, step);
               && t.quit && t.pc != Begin
               && (Closer(t, s) || (t.pc == s.pc && Remaining(t) == Remaining(s) && StageRank(cfg, t) < StageRank(cfg, s)))
  {
  }

  /** Once the loop has started and quit is set, the loop thread by itself gets to its exit. */
  lemma {:induction false} QuitReachesExit<F(!new)>(cfg: Config, s: State<F>) returns (more: seq<Step<F>>)
    requires s.quit && s.pc != Begin
    ensures Runs(cfg, s, more) && After(cfg, s, more).pc == Exited
    ensures forall k :: 0 <= k < |more| ==>
              LoopStep(more[k]) || more[k] == Test(cfg.loop) || more[k] == Wakeup(cfg.loop)
    decreases Phase(s.pc), Remaining(s), StageRank(cfg, s)
  {
    if s.pc == Exited {
      more := [];
    } else {
      hide Enabled, Next;
      var step := NextOut(cfg, s);
      NextOutStep(cfg, s);
      var rest := QuitReachesExit(cfg, Next(cfg, s, step));
      more := [step] + rest;
      assert more[1..] == rest;
    }
  }
}
