/**
 The classes and the step machine tell one story: when nothing comes in between, the machine's micro
 steps for one dispatch, or for one functor, add up to what the class methods do in one call.
 */
module Refinement {
  import opened PollerModel
  import opened ConnectionModel
  import opened ServerModel
  import opened Progress
  import BM = BatchModel
  import R = Reactor

  /** The flags of one `revents_` word. */
  function Flags(revents: bv16): Revents {
    Revents(revents & R.EPOLLIN != 0, revents & R.EPOLLPRI != 0, revents & R.EPOLLOUT != 0,
            revents & R.EPOLLHUP != 0, revents & R.EPOLLRDHUP != 0)
  }

  lemma ReadFlags(revents: bv16)
    ensures revents & (R.EPOLLIN | R.EPOLLPRI | R.EPOLLRDHUP) != 0 <==> Reads(Flags(revents))
  {
  }

  /** The connection's share replaced and the micro steps done. */
  function Done(s: State, i: nat, l: Local, rest: seq<Micro>): State
    requires i < |s.conns|
  {
    Put(s, i, l).(todo := rest)
  }

  lemma OneStep(s: State, step: Step)
    requires Enabled(s, step)
    ensures Runs(s, [step]) && Run(s, [step]) == Next(s, step)
  {
    assert [step][1..] == [];
  }

  /** handleClose in one go: the connection callback's half, then the close callback. */
  lemma CloseAlone(s: State, i: nat, m: Micro, inLoop: bool, rest: seq<Micro>) returns (steps: seq<Step>)
    requires i < |s.conns| && s.todo == [m] + rest && (m == CloseOf(i) || (m.ReadOf? && m.conn == i))
    ensures Runs(s, steps) && Run(s, steps) == Done(s, i, HandleClose(At(s, i), inLoop), rest)
  {
    var a := Advance(0, inLoop);
    assert s.todo[1..] == rest;
    OneStep(s, a);
    steps := [a];
    if CanClose(s.conns[i]) {
      var t := Next(s, a);
      assert t.todo == [CloseCallback(i)] + rest && t.todo[1..] == rest;
      assert At(t, i) == CloseBegin(At(s, i), inLoop);
      OneStep(t, a);
      RunConcat(s, [a], [a]);
      steps := [a] + [a];
      assert Next(t, a).conns == Done(s, i, HandleClose(At(s, i), inLoop), rest).conns;
    } else {
      assert s.conns[i := s.conns[i]] == s.conns;
    }
  }

  /** Closing leaves what a later write would need. */
  lemma CloseKeeps(l: Local, inLoop: bool)
    ensures HandleClose(l, inLoop).c.out == l.c.out && HandleClose(l, inLoop).c.writeShut == l.c.writeShut
  {
  }

  lemma ReadKeeps(l: Local, n: int, inLoop: bool)
    ensures HandleRead(l, n, inLoop).c.out == l.c.out && HandleRead(l, n, inLoop).c.writeShut == l.c.writeShut
  {
    hide HandleClose;
    CloseKeeps(l, inLoop);
  }

  /** Running `steps` from `s` settles the micro steps before `rest` with outcome `l` for connection `i`. */
  ghost predicate Settles(s: State, steps: seq<Step>, i: nat, l: Local, rest: seq<Micro>) {
    i < |s.conns| && Runs(s, steps) && Run(s, steps) == Done(s, i, l, rest)
  }

  lemma Settled(s: State, a: seq<Step>, b: seq<Step>, i: nat, k: Local, l: Local, mid: seq<Micro>, rest: seq<Micro>)
    requires Settles(s, a, i, k, mid) && Settles(Run(s, a), b, i, l, rest)
    ensures Settles(s, a + b, i, l, rest)
  {
    hide Runs, Run;
    RunConcat(s, a, b);
    assert s.conns[i := k.c][i := l.c] == s.conns[i := l.c];
  }

  lemma NoSteps(s: State, i: nat)
    requires i < |s.conns|
    ensures Runs(s, []) && Run(s, []) == s == Done(s, i, At(s, i), s.todo)
  {
    assert s.conns[i := s.conns[i]] == s.conns;
  }

  lemma CloseStage(s: State, i: nat, called: bool, inLoop: bool, rest: seq<Micro>) returns (steps: seq<Step>)
    requires i < |s.conns| && s.todo == (if called then [CloseOf(i)] else []) + rest
    ensures Settles(s, steps, i, if called then HandleClose(At(s, i), inLoop) else At(s, i), rest)
  {
    hide HandleClose;
    if called {
      steps := CloseAlone(s, i, CloseOf(i), inLoop, rest);
    } else {
      NoSteps(s, i);
      steps := [];
    }
  }

  lemma ReadStage(s: State, i: nat, r: Revents, n: int, inLoop: bool, rest: seq<Micro>) returns (steps: seq<Step>)
    requires i < |s.conns| && s.todo == (if Reads(r) then [ReadOf(i, r)] else []) + rest
    ensures Settles(s, steps, i, if Reads(r) then HandleRead(At(s, i), n, inLoop) else At(s, i), rest)
  {
    hide HandleClose;
    NoSteps(s, i);
    if Reads(r) && n == 0 {
      steps := CloseAlone(s, i, ReadOf(i, r), inLoop, rest);
    } else if Reads(r) {
      assert s.todo[1..] == rest;
      OneStep(s, Advance(n, inLoop));
      steps := [Advance(n, inLoop)];
    } else {
      steps := [];
    }
  }

  lemma WriteStage(s: State, i: nat, called: bool, n: int, inLoop: bool, rest: seq<Micro>) returns (steps: seq<Step>)
    requires i < |s.conns| && s.todo == (if called then [WriteOf(i)] else []) + rest
    requires n <= |s.conns[i].out| && (s.conns[i].writeShut ==> n <= 0)
    ensures Settles(s, steps, i, if called then HandleWrite(At(s, i), n) else At(s, i), rest)
  {
    hide HandleWrite;
    NoSteps(s, i);
    if called {
      assert s.todo[1..] == rest;
      OneStep(s, Advance(n, inLoop));
      steps := [Advance(n, inLoop)];
    } else {
      steps := [];
    }
  }

  /** What the callbacks of one dispatch add up to, run one after the other. */
  lemma CallbacksSettle(s: State, i: nat, r: Revents, n: int, written: int, inLoop: bool, rest: seq<Micro>)
    returns (steps: seq<Step>)
    requires i < |s.conns| && s.todo == ConnCallbacks(i, r) + rest
    requires written <= |s.conns[i].out| && (s.conns[i].writeShut ==> written <= 0)
    ensures var l := At(s, i);
            var l1 := if Hangs(r) then HandleClose(l, inLoop) else l;
            var l2 := if Reads(r) then HandleRead(l1, n, inLoop) else l1;
            && written <= |l2.c.out|
            && Settles(s, steps, i, if r.pollOut then HandleWrite(l2, written) else l2, rest)
  {
    hide HandleClose, HandleRead, HandleWrite, Run, Runs, Settles;
    var l := At(s, i);
    var l1 := if Hangs(r) then HandleClose(l, inLoop) else l;
    var l2 := if Reads(r) then HandleRead(l1, n, inLoop) else l1;
    CloseKeeps(l, inLoop);
    ReadKeeps(l1, n, inLoop);
    var toWrite := (if r.pollOut then [WriteOf(i)] else []) + rest;
    var toRead := (if Reads(r) then [ReadOf(i, r)] else []) + toWrite;
    assert s.todo == (if Hangs(r) then [CloseOf(i)] else []) + toRead;
    var a := CloseStage(s, i, Hangs(r), inLoop, toRead);
    After(s, a, i, l1, toRead);
    var b := ReadStage(Run(s, a), i, r, n, inLoop, toWrite);
    Settled(s, a, b, i, l1, l2, toRead, toWrite);
    After(s, a + b, i, l2, toWrite);
    var c := WriteStage(Run(s, a + b), i, r.pollOut, written, inLoop, rest);
    Settled(s, a + b, c, i, l2, if r.pollOut then HandleWrite(l2, written) else l2, toWrite, rest);
    steps := a + b + c;
  }

  /** What can be read off a settled state. */
  lemma After(s: State, steps: seq<Step>, i: nat, l: Local, rest: seq<Micro>)
    requires Settles(s, steps, i, l, rest)
    ensures Runs(s, steps) && i < |Run(s, steps).conns| && At(Run(s, steps), i) == l && Run(s, steps).todo == rest
  {
  }

  /** Channel::handleEvent on a connection's channel is the class's HandleEvent, for every event word. */
  lemma DispatchRefines(s: State, i: nat, revents: bv16, n: int, written: int, inLoop: bool, rest: seq<Micro>)
    returns (steps: seq<Step>)
    requires i < |s.conns| && s.todo == [Dispatch(ConnChan(i), Flags(revents))] + rest && Alive(s.conns[i])
    requires written <= |s.conns[i].out| && (s.conns[i].writeShut ==> written <= 0)
    ensures Settles(s, steps, i, R.Dispatched(At(s, i), revents, n, written, inLoop), rest)
  {
    hide HandleClose, HandleWrite, Runs, Run;
    var r, a := Flags(revents), Advance(0, inLoop);
    assert s.todo[1..] == rest;
    OneStep(s, a);
    var t := Next(s, a);
    assert t == s.(todo := ConnCallbacks(i, r) + rest);
    ReadFlags(revents);
    var more := CallbacksSettle(t, i, r, n, written, inLoop, rest);
    NoSteps(s, i);
    RunConcat(s, [a], more);
    steps := [a] + more;
  }

  /** `report` says of descriptors what epoll_wait says of the channels registered for them. */
  predicate Reports(report: seq<(int, Revents)>, events: seq<R.EpollEvent>, p: Poller) {
    && |report| == |events|
    && forall k :: 0 <= k < |events| ==>
         && report[k] == (events[k].ptr.fd, Flags(events[k].events))
         && events[k].ptr.fd in p.epoll && p.epoll[events[k].ptr.fd].key == events[k].ptr.key
  }

  /** The dispatches a poll puts in line are those of the channels fillActiveChannels lists, with the bits left in each. */
  method FillRefines(poller: R.Poller, events: seq<R.EpollEvent>, ghost report: seq<(int, Revents)>, ghost s: State)
    returns (active: seq<R.Channel>)
    requires forall j, k :: 0 <= j < k < |events| ==> events[j].ptr != events[k].ptr
    requires Enabled(s, Poll(report)) && Reports(report, events, s.w.poller)
    modifies (set e | e in events :: e.ptr)`revents
    ensures var todo := Next(s, Poll(report)).todo;
            && |todo| == |active|
            && forall k :: 0 <= k < |active| ==> todo[k] == Dispatch(active[k].key, Flags(active[k].revents))
  {
    active := poller.FillActiveChannels(events, []);
    assert forall k :: 0 <= k < |events| ==> active[0 + k] == events[k].ptr;
  }

  // ---- functors -----------------------------------------------------------

  /** A functor of connection `i`, with the close callback that may follow it, is the class's RunJob. */
  lemma FunctorRefines(t: State, i: nat, job: Job, inLoop: bool) returns (steps: seq<Step>)
    requires i < |t.conns| && t.todo == []
    ensures var u := DoFunctor(t, OnConn(job, i), inLoop);
            Runs(u, steps) && Run(u, steps) == Done(t, i, BM.Performed(At(t, i), job, inLoop), [])
  {
    var u := DoFunctor(t, OnConn(job, i), inLoop);
    assert t.conns[i := t.conns[i]] == t.conns;
    steps := [];
    if job == Force && CanClose(t.conns[i]) {
      assert u.todo == [CloseCallback(i)] && u.todo[1..] == [];
      OneStep(u, Advance(0, inLoop));
      steps := [Advance(0, inLoop)];
      assert At(u, i) == CloseBegin(At(t, i), inLoop);
    }
  }

  /** What functors can touch, and a state with that part replaced. */
  function WholeOf(s: State): BM.Whole {
    BM.Whole(s.w, s.conns, s.acceptor)
  }

  function Embed(s: State, x: BM.Whole): State {
    s.(w := x.w, conns := x.conns, acceptor := x.acceptor)
  }

  /** One functor of the batch, taken and performed. */
  function AfterFirst(s: State, inLoop: bool): BM.Whole
    requires s.w.q.left != [] && FunctorEnabled(s, s.w.q.left[0])
  {
    BM.Perform(BM.WithQueue(WholeOf(s), s.w.q.Take()), s.w.q.left[0], inLoop)
  }

  lemma FirstRefines(s: State, inLoop: bool) returns (steps: seq<Step>)
    requires s.phase == Draining && s.todo == [] && s.w.q.left != [] && FunctorEnabled(s, s.w.q.left[0])
    ensures Runs(s, steps) && Run(s, steps) == Embed(s, AfterFirst(s, inLoop))
  {
    hide BM.Performed;
    var f, t := s.w.q.left[0], s.(w := s.w.(q := s.w.q.Take()));
    OneStep(s, RunFunctor(inLoop));
    steps := [RunFunctor(inLoop)];
    if f.OnConn? {
      var more := FunctorRefines(t, f.conn, f.job, inLoop);
      RunConcat(s, steps, more);
      steps := steps + more;
    }
  }

  predicate AllRunnable(s: State, batch: seq<Functor>) {
    forall f :: f in batch ==> BM.Runnable(|s.conns|, f)
  }

  lemma {:induction false} BatchRefines(s: State, inLoop: bool) returns (steps: seq<Step>)
    requires s.phase == Draining && s.todo == [] && AllRunnable(s, s.w.q.left)
    ensures Runs(s, steps) && Run(s, steps) == Embed(s, BM.PerformAll(WholeOf(s), s.w.q.left, inLoop))
    decreases |s.w.q.left|
  {
    hide BM.Perform, BM.PerformAll, Runs, Run;
    if s.w.q.left == [] {
      BM.PerformNone(WholeOf(s), inLoop);
      RunNothing(s);
      steps := [];
    } else {
      assert s.w.q.left[0] in s.w.q.left && forall f :: f in s.w.q.left[1..] ==> f in s.w.q.left;
      var a := FirstRefines(s, inLoop);
      BM.PerformAllStep(WholeOf(s), s.w.q.left, inLoop);
      var b := BatchRefines(Run(s, a), inLoop);
      RunConcat(s, a, b);
      steps := a + b;
    }
  }

  lemma RunNothing(s: State)
    ensures Runs(s, []) && Run(s, []) == s
  {
  }

  /**
   The loop's step SwapFunctors, one RunFunctor for each functor found with the close callback that may
   follow it, and EndDrain together are the drain that the class's DoPendingFunctors is proved to do.
   */
  lemma DrainRefines(s: State, inLoop: bool) returns (steps: seq<Step>)
    requires s.phase == Dispatching && s.todo == [] && AllRunnable(s, s.w.q.pending)
    ensures Runs(s, steps)
    ensures Run(s, steps) == Embed(s, BM.Drain(WholeOf(s), inLoop)).(phase := Waiting, drains := s.drains + 1)
  {
    hide BM.PerformAll, Runs, Run;
    OneStep(s, SwapFunctors);
    var t := Next(s, SwapFunctors);
    var a := BatchRefines(t, inLoop);
    RunConcat(s, [SwapFunctors], a);
    var u := Run(t, a);
    BM.PerformAllEnds(WholeOf(t), t.w.q.left, inLoop);
    OneStep(u, EndDrain);
    RunConcat(s, [SwapFunctors] + a, [EndDrain]);
    steps := [SwapFunctors] + a + [EndDrain];
  }
}
