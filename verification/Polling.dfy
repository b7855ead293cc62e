/**
 From what epoll_wait reports to what is called: along every run each reported channel is dispatched
 once, in order, with the event word reported for its own descriptor, and nothing is called that the
 word does not ask for.
 */
module Polling {
  import opened PollerModel
  import opened ConnectionModel
  import opened ServerModel
  import opened ServerInvariant
  import opened ServerTheorems

  /** Descriptors and the event words reported for them. */
  type Report = seq<(int, Revents)>

  /** The last report: that of the step, if it is a poll. */
  function Latest(last: Report, step: Step): Report {
    if step.Poll? then step.active else last
  }

  /** The last report of a run that starts with `last`. */
  function LastReport(last: Report, steps: seq<Step>): Report
    decreases |steps|
  {
    if steps == [] then last else LastReport(Latest(last, steps[0]), steps[1..])
  }

  predicate Known(s: State, key: ChanKey) {
    key.ConnChan? ==> key.conn < |s.conns|
  }

  // ---- one poll, one dispatch ---------------------------------------------

  /** A poll puts one dispatch in line for each reported descriptor: for the channel registered there, with its own word. */
  lemma PollReports(s: State, active: Report, k: nat)
    requires Enabled(s, Poll(active)) && k < |active|
    ensures var todo := Next(s, Poll(active)).todo;
            |todo| == |active| && todo[k] == Dispatch(s.w.poller.epoll[active[k].0].key, active[k].1)
  {
  }

  /** In which order the callbacks of one connection come. */
  function Place(m: Micro): int {
    match m
    case CloseOf(_) => 0
    case ReadOf(_, _) => 1
    case WriteOf(_) => 2
    case _ => -1
  }

  /** A connection that still exists is called as the bits ask: hang-up without input, input, output, in this order. */
  lemma WordCalls(s: State, i: nat, r: Revents)
    requires i < |s.conns| && Freed !in s.conns[i].log
    ensures var cbs := Callbacks(s, ConnChan(i), r);
            && (CloseOf(i) in cbs <==> r.hup && !r.pollIn)
            && (ReadOf(i, r) in cbs <==> r.pollIn || r.pri || r.rdhup)
            && (WriteOf(i) in cbs <==> r.pollOut)
            && (forall m :: m in cbs ==> m == CloseOf(i) || m == ReadOf(i, r) || m == WriteOf(i))
            && (forall a, b :: 0 <= a < b < |cbs| ==> Place(cbs[a]) < Place(cbs[b]))
  {
    var x := if r.hup && !r.pollIn then [CloseOf(i)] else [];
    var y := if r.pollIn || r.pri || r.rdhup then [ReadOf(i, r)] else [];
    var z := if r.pollOut then [WriteOf(i)] else [];
    assert Callbacks(s, ConnChan(i), r) == x + y + z;
    assert r.hup && !r.pollIn ==> CloseOf(i) in x;
    assert r.pollIn || r.pri || r.rdhup ==> ReadOf(i, r) in y;
    assert r.pollOut ==> WriteOf(i) in z;
  }

  /** A tied channel whose owner has gone is not called at all, whatever was reported. */
  lemma GoneIsNotCalled(s: State, i: nat, r: Revents)
    requires i < |s.conns| && s.conns[i].chan.tied && Freed in s.conns[i].log
    ensures Callbacks(s, ConnChan(i), r) == []
  {
  }

  /** The wakeup channel and the acceptor's only have a read callback. */
  lemma ReadWordCalls(s: State, r: Revents)
    ensures var asks := r.pollIn || r.pri || r.rdhup;
            && Callbacks(s, AcceptChan, r) == (if asks then [AcceptRead] else [])
            && Callbacks(s, WakeupChan, r) == (if asks then [WakeupRead] else [])
  {
  }

  // ---- only what was reported ---------------------------------------------

  /** The report asks for `m`, by the word for the descriptor of the channel that `m` is about. */
  ghost predicate AskedFor(s: State, m: Micro, last: Report) {
    match m
    case Dispatch(key, r) => Known(s, key) && (ChanOf(s, key).fd, r) in last
    case CloseOf(i) => i < |s.conns| && exists r :: (s.conns[i].chan.fd, r) in last && r.hup && !r.pollIn
    case ReadOf(i, r) => i < |s.conns| && (s.conns[i].chan.fd, r) in last && (r.pollIn || r.pri || r.rdhup)
    case WriteOf(i) => i < |s.conns| && exists r :: (s.conns[i].chan.fd, r) in last && r.pollOut
    case AcceptRead => exists r :: (s.acceptor.fd, r) in last && (r.pollIn || r.pri || r.rdhup)
    case WakeupRead => exists r :: (s.wakeup.fd, r) in last && (r.pollIn || r.pri || r.rdhup)
    case CloseCallback(_) => true
  }

  ghost predicate AllAsked(s: State, todo: seq<Micro>, last: Report) {
    forall m :: m in todo ==> AskedFor(s, m, last)
  }

  /** Channels keep their descriptors. */
  predicate SameFds(s: State, t: State) {
    && t.wakeup.fd == s.wakeup.fd && t.acceptor.fd == s.acceptor.fd
    && |s.conns| <= |t.conns| && forall i :: 0 <= i < |s.conns| ==> t.conns[i].chan.fd == s.conns[i].chan.fd
  }

  lemma StepFds(s: State, step: Step)
    requires Inv(s) && Enabled(s, step)
    ensures SameFds(s, Next(s, step))
  {
    hide Inv, Next, Enabled;
    OwnFds(s, step);
    MoreConns(s, step);
    forall i | 0 <= i < |s.conns| ensures Next(s, step).conns[i].chan.fd == s.conns[i].chan.fd {
      StepTakes(s, step, i);
    }
  }

  lemma OwnFds(s: State, step: Step)
    requires Enabled(s, step)
    ensures Next(s, step).wakeup.fd == s.wakeup.fd && Next(s, step).acceptor.fd == s.acceptor.fd
  {
    hide Referenced;
  }

  lemma MoreConns(s: State, step: Step)
    requires Enabled(s, step)
    ensures |s.conns| <= |Next(s, step).conns|
  {
    hide Referenced;
  }

  lemma AskedKept(s: State, t: State, todo: seq<Micro>, last: Report)
    requires SameFds(s, t) && AllAsked(s, todo, last)
    ensures AllAsked(t, todo, last)
  {
    forall m | m in todo ensures AskedFor(t, m, last) {
      assert AskedFor(s, m, last);
    }
  }

  lemma PollAsks(s: State, active: Report)
    requires Inv(s) && Enabled(s, Poll(active))
    ensures AllAsked(s, Next(s, Poll(active)).todo, active)
  {
    var todo := Next(s, Poll(active)).todo;
    forall m | m in todo ensures AskedFor(s, m, active) {
      var k :| 0 <= k < |todo| && todo[k] == m;
      assert Knows(s, s.w.poller.epoll[active[k].0].key, active[k].0);
      assert active[k] in active && active[k] == (active[k].0, active[k].1);
    }
  }

  /** A dispatch asks for nothing its word does not. */
  lemma CallbacksAsked(s: State, key: ChanKey, r: Revents, last: Report)
    requires AskedFor(s, Dispatch(key, r), last)
    ensures AllAsked(s, Callbacks(s, key, r), last)
  {
    ReadWordCalls(s, r);
    if key.ConnChan? && Freed !in s.conns[key.conn].log {
      WordCalls(s, key.conn, r);
    }
  }

  /** What the loop thread has in front of it after a step other than a poll. */
  lemma TodoAfter(s: State, step: Step)
    requires Inv(s) && Enabled(s, step) && !step.Poll?
    ensures var todo := Next(s, step).todo;
            if step.Advance? && s.todo[0].Dispatch? then
              todo == Callbacks(s, s.todo[0].key, s.todo[0].revents) + s.todo[1..]
            else
              var rest := if step.Advance? then s.todo[1..] else s.todo;
              todo == rest || exists i :: todo == [CloseCallback(i)] + rest
  {
    hide Inv, Referenced, HandleWrite, RemoveConnection, CloseBegin, NewConnection;
    hide ConnectEstablished, ConnectDestroyed, RemoveConnectionInLoop, ShutdownInLoop, SendInLoop, Shutdown, ForceClose;
  }

  lemma StepAsked(s: State, step: Step, last: Report)
    requires Inv(s) && Enabled(s, step) && AllAsked(s, s.todo, last)
    ensures AllAsked(Next(s, step), Next(s, step).todo, Latest(last, step))
  {
    hide Inv, Next, AskedFor, Callbacks;
    var t := Next(s, step);
    StepFds(s, step);
    if step.Poll? {
      PollAsks(s, step.active);
    } else {
      TodoAfter(s, step);
      if step.Advance? && s.todo[0].Dispatch? {
        CallbacksAsked(s, s.todo[0].key, s.todo[0].revents, last);
      }
      forall i ensures AskedFor(s, CloseCallback(i), last) {
        CallbackAsked(s, i, last);
      }
      assert AllAsked(s, t.todo, last);
    }
    AskedKept(s, t, t.todo, Latest(last, step));
  }

  lemma CallbackAsked(s: State, i: nat, last: Report)
    ensures AskedFor(s, CloseCallback(i), last)
  {
  }

  lemma {:induction false} RunAsked(s: State, steps: seq<Step>, last: Report)
    requires Inv(s) && Runs(s, steps) && AllAsked(s, s.todo, last)
    ensures AllAsked(Run(s, steps), Run(s, steps).todo, LastReport(last, steps))
    decreases |steps|
  {
    hide Inv, Next, Enabled, AllAsked;
    if steps != [] {
      StepKeepsInv(s, steps[0]);
      StepAsked(s, steps[0], last);
      RunAsked(Next(s, steps[0]), steps[1..], Latest(last, steps[0]));
    }
  }

  /**
   In every run: whatever the loop thread is about to call, the last poll reported the descriptor of
   that very channel, with bits that call for it. No connection is closed, read or written because of
   what was reported for another.
   */
  lemma CalledByOwnWord(s: State, steps: seq<Step>, m: Micro)
    requires Initial(s) && Runs(s, steps) && m in Run(s, steps).todo
    ensures AskedFor(Run(s, steps), m, LastReport([], steps))
  {
    hide Inv, Runs, Run, AskedFor;
    NothingAsked(s);
    RunAsked(s, steps, []);
  }

  lemma NothingAsked(s: State)
    requires Initial(s)
    ensures Inv(s) && AllAsked(s, s.todo, [])
  {
    InitInv(s);
  }

  // ---- all that was reported ----------------------------------------------

  /** The dispatches that are left. */
  function Dispatches(todo: seq<Micro>): seq<Micro> {
    if todo == [] then [] else (if todo[0].Dispatch? then [todo[0]] else []) + Dispatches(todo[1..])
  }

  /** The dispatches made since the last poll, `done` having been made before the step. */
  function Served(s: State, step: Step, done: seq<Micro>): seq<Micro> {
    if step.Poll? then []
    else if step.Advance? && s.todo != [] && s.todo[0].Dispatch? then done + [s.todo[0]]
    else done
  }

  function ServedIn(s: State, steps: seq<Step>, done: seq<Micro>): seq<Micro>
    requires Runs(s, steps)
    decreases |steps|
  {
    if steps == [] then done else ServedIn(Next(s, steps[0]), steps[1..], Served(s, steps[0], done))
  }

  /** `all` is one dispatch for each reported descriptor, in order: of that descriptor's channel, with its own word. */
  predicate Answers(s: State, all: seq<Micro>, last: Report) {
    && |all| == |last|
    && forall k :: 0 <= k < |all| ==>
         && all[k].Dispatch? && Known(s, all[k].key)
         && ChanOf(s, all[k].key).fd == last[k].0 && all[k].revents == last[k].1
  }

  lemma {:induction false} DispatchesConcat(a: seq<Micro>, b: seq<Micro>)
    ensures Dispatches(a + b) == Dispatches(a) + Dispatches(b)
  {
    if a == [] {
      assert a + b == b;
    } else {
      assert (a + b)[1..] == a[1..] + b;
      DispatchesConcat(a[1..], b);
    }
  }

  lemma {:induction false} OnlyDispatches(todo: seq<Micro>)
    requires forall m :: m in todo ==> m.Dispatch?
    ensures Dispatches(todo) == todo
  {
    if todo != [] {
      OnlyDispatches(todo[1..]);
    }
  }

  lemma {:induction false} NoDispatches(todo: seq<Micro>)
    requires forall m :: m in todo ==> !m.Dispatch?
    ensures Dispatches(todo) == []
  {
    if todo != [] {
      NoDispatches(todo[1..]);
    }
  }

  lemma FirstLeft(todo: seq<Micro>)
    requires todo != []
    ensures Dispatches(todo) == (if todo[0].Dispatch? then [todo[0]] else []) + Dispatches(todo[1..])
  {
  }

  lemma CallbacksDispatchNothing(s: State, key: ChanKey, r: Revents)
    ensures Dispatches(Callbacks(s, key, r)) == []
  {
    NoDispatches(Callbacks(s, key, r));
  }

  /** A step other than a poll moves at most the first dispatch from those left to those made. */
  lemma StepServes(s: State, step: Step, done: seq<Micro>)
    requires Inv(s) && Enabled(s, step) && !step.Poll?
    ensures Served(s, step, done) + Dispatches(Next(s, step).todo) == done + Dispatches(s.todo)
  {
    hide Inv, Next, Callbacks, Dispatches, Referenced;
    var todo, rest := Next(s, step).todo, if step.Advance? then s.todo[1..] else s.todo;
    TodoAfter(s, step);
    if step.Advance? {
      FirstLeft(s.todo);
    }
    if step.Advance? && s.todo[0].Dispatch? {
      var cbs := Callbacks(s, s.todo[0].key, s.todo[0].revents);
      CallbacksDispatchNothing(s, s.todo[0].key, s.todo[0].revents);
      DispatchesConcat(cbs, rest);
      assert done + [s.todo[0]] + Dispatches(rest) == done + ([s.todo[0]] + Dispatches(rest));
    } else if todo != rest {
      var i :| todo == [CloseCallback(i)] + rest;
      DispatchesConcat([CloseCallback(i)], rest);
      NoDispatches([CloseCallback(i)]);
    }
  }

  lemma PollAnswers(s: State, active: Report)
    requires Inv(s) && Enabled(s, Poll(active))
    ensures var t := Next(s, Poll(active)); Answers(t, Dispatches(t.todo), active)
  {
    var t := Next(s, Poll(active));
    OnlyDispatches(t.todo);
    forall k | 0 <= k < |active|
      ensures Known(s, t.todo[k].key) && ChanOf(s, t.todo[k].key).fd == active[k].0 && t.todo[k].revents == active[k].1
    {
      assert Knows(s, s.w.poller.epoll[active[k].0].key, active[k].0);
    }
  }

  lemma AnswersKept(s: State, t: State, all: seq<Micro>, last: Report)
    requires SameFds(s, t) && Answers(s, all, last)
    ensures Answers(t, all, last)
  {
  }

  lemma {:induction false} RunServes(s: State, steps: seq<Step>, done: seq<Micro>, last: Report)
    requires Inv(s) && Runs(s, steps) && Answers(s, done + Dispatches(s.todo), last)
    ensures Answers(Run(s, steps), ServedIn(s, steps, done) + Dispatches(Run(s, steps).todo), LastReport(last, steps))
    decreases |steps|
  {
    hide Inv, Next, Enabled, Answers, SameFds;
    if steps != [] {
      var t := Next(s, steps[0]);
      StepKeepsInv(s, steps[0]);
      if steps[0].Poll? {
        PollAnswers(s, steps[0].active);
        assert [] + Dispatches(t.todo) == Dispatches(t.todo);
      } else {
        StepServes(s, steps[0], done);
        StepFds(s, steps[0]);
        AnswersKept(s, t, done + Dispatches(s.todo), last);
      }
      RunServes(t, steps[1..], Served(s, steps[0], done), Latest(last, steps[0]));
    }
  }

  /**
   In every run: the dispatches made since the last poll, followed by those still to come, are one for
   each reported descriptor, in the order reported, each of the channel with that descriptor and with
   the event word reported for it. So once the loop goes on to its functors, every report was served.
   */
  lemma EachServedOnce(s: State, steps: seq<Step>)
    requires Initial(s) && Runs(s, steps)
    ensures var t, last, done := Run(s, steps), LastReport([], steps), ServedIn(s, steps, []);
            && Answers(t, done + Dispatches(t.todo), last)
            && (Enabled(t, SwapFunctors) ==> Answers(t, done, last))
  {
    hide Inv, Answers;
    InitInv(s);
    NothingToServe(s);
    RunServes(s, steps, [], []);
    if Enabled(Run(s, steps), SwapFunctors) {
      assert ServedIn(s, steps, []) + [] == ServedIn(s, steps, []);
    }
  }

  lemma NothingToServe(s: State)
    requires Initial(s)
    ensures Answers(s, [] + Dispatches(s.todo), [])
  {
  }

  // ---- one word for one descriptor ----------------------------------------

  /** No descriptor is reported twice. */
  predicate Distinct(last: Report) {
    forall j, k :: 0 <= j < k < |last| ==> last[j].0 != last[k].0
  }

  lemma OneWord(last: Report, fd: int, q: Revents, r: Revents)
    requires Distinct(last) && (fd, q) in last && (fd, r) in last
    ensures q == r
  {
    var j :| 0 <= j < |last| && last[j] == (fd, q);
    var k :| 0 <= k < |last| && last[k] == (fd, r);
    assert j == k;
  }

  lemma LatestDistinct(s: State, step: Step, last: Report)
    requires Enabled(s, step) && Distinct(last)
    ensures Distinct(Latest(last, step))
  {
  }
}
