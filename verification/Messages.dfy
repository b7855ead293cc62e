/**
 Messages along whole runs: every dispatch starts on a connection that is up, so a message meets a
 connection that is down exactly when its own dispatch has just taken it down.
 */
module Messages {
  import opened Bytes
  import opened PollerModel
  import opened ConnectionModel
  import opened ServerModel
  import opened ServerInvariant
  import opened ServerTheorems
  import opened Polling

  // ---- what is left of a dispatch -----------------------------------------

  /** One of the callbacks of connection `i`. */
  predicate CallbackOf(m: Micro, i: nat) {
    m == CloseOf(i) || (m.ReadOf? && m.conn == i) || m == WriteOf(i) || m == CloseCallback(i)
  }

  /** `n` may come after `m`: nothing is dispatched, closed or read twice, and no close follows its read. */
  predicate Separate(m: Micro, n: Micro) {
    && (m.Dispatch? && n.Dispatch? ==> m.key != n.key)
    && (m.CloseOf? && n.CloseOf? ==> m.conn != n.conn)
    && (m.ReadOf? && (n.ReadOf? || n.CloseOf?) ==> m.conn != n.conn)
  }

  /** A dispatch still to come finds its connection up, and none of its callbacks has been called yet. */
  ghost predicate DispatchFits(m: Micro, todo: seq<Micro>, conns: seq<Conn>) {
    m.Dispatch? && m.key.ConnChan? ==>
      && m.key.conn < |conns| && CanClose(conns[m.key.conn])
      && forall n :: n in todo ==> !CallbackOf(n, m.key.conn)
  }

  /** A read callback still to come finds its connection down exactly if its close callback has been called. */
  predicate ReadFits(m: Micro, todo: seq<Micro>, conns: seq<Conn>) {
    m.ReadOf? ==>
      && m.conn < |conns|
      && if CloseOf(m.conn) in todo then CanClose(conns[m.conn]) && Hangs(m.revents)
         else conns[m.conn].state == Disconnected <==> Hangs(m.revents)
  }

  ghost predicate Tidy(todo: seq<Micro>, conns: seq<Conn>) {
    && (forall a, b :: 0 <= a < b < |todo| ==> Separate(todo[a], todo[b]))
    && (forall m :: m in todo ==> DispatchFits(m, todo, conns))
    && (forall m :: m in todo ==> ReadFits(m, todo, conns))
  }

  /** Up stays up and down stays down. */
  predicate SameSide(c: Conn, d: Conn) {
    (CanClose(c) <==> CanClose(d)) && (c.state == Disconnected <==> d.state == Disconnected)
  }

  predicate SameSides(c: seq<Conn>, d: seq<Conn>) {
    |c| <= |d| && forall i :: 0 <= i < |c| ==> SameSide(c[i], d[i])
  }

  lemma TidyFor(todo: seq<Micro>, c: seq<Conn>, d: seq<Conn>)
    requires Tidy(todo, c) && SameSides(c, d)
    ensures Tidy(todo, d)
  {
    forall m | m in todo ensures DispatchFits(m, todo, d) && ReadFits(m, todo, d) {
      assert DispatchFits(m, todo, c) && ReadFits(m, todo, c);
    }
  }

  lemma TidyTail(todo: seq<Micro>, conns: seq<Conn>)
    requires Tidy(todo, conns) && todo != [] && !todo[0].CloseOf?
    ensures Tidy(todo[1..], conns)
  {
    var rest := todo[1..];
    assert todo == [todo[0]] + rest;
    forall m | m in rest ensures DispatchFits(m, rest, conns) && ReadFits(m, rest, conns) {
      assert DispatchFits(m, todo, conns) && ReadFits(m, todo, conns);
    }
  }

  lemma {:induction false} SeparateFrom(todo: seq<Micro>, m: Micro)
    requires todo != [] && (forall a, b :: 0 <= a < b < |todo| ==> Separate(todo[a], todo[b])) && m in todo[1..]
    ensures Separate(todo[0], m)
  {
    var k :| 0 <= k < |todo| - 1 && todo[1..][k] == m;
    assert Separate(todo[0], todo[k + 1]);
  }

  /** Connection `i` is closed by the callback at the head: its close callback takes that place. */
  lemma TidyClose(todo: seq<Micro>, c: seq<Conn>, i: nat, d: Conn)
    requires Tidy(todo, c) && todo != [] && i < |c| && d.state == Disconnected
    requires todo[0] == CloseOf(i) || (todo[0].ReadOf? && todo[0].conn == i)
    ensures Tidy([CloseCallback(i)] + todo[1..], c[i := d])
  {
    var rest, all := todo[1..], [CloseCallback(i)] + todo[1..];
    assert todo == [todo[0]] + rest && todo[0] in todo;
    forall m | m in all ensures DispatchFits(m, all, c[i := d]) && ReadFits(m, all, c[i := d]) {
      if m != CloseCallback(i) {
        assert m in rest && DispatchFits(m, todo, c) && ReadFits(m, todo, c);
        SeparateFrom(todo, m);
        if m.ReadOf? && m.conn == i {
          if CloseOf(i) in rest {
            SeparateFrom(todo, CloseOf(i));
          }
        }
        if m.ReadOf? && m.conn != i {
          assert CloseOf(m.conn) in all <==> CloseOf(m.conn) in todo;
        }
      }
    }
  }

  /** A close callback that finds nothing to close. */
  lemma TidySkip(todo: seq<Micro>, c: seq<Conn>, i: nat)
    requires Tidy(todo, c) && todo != [] && todo[0] == CloseOf(i) && i < |c| && !CanClose(c[i])
    ensures Tidy(todo[1..], c)
  {
    var rest := todo[1..];
    assert todo == [todo[0]] + rest && todo[0] in todo;
    forall m | m in rest ensures DispatchFits(m, rest, c) && ReadFits(m, rest, c) {
      assert DispatchFits(m, todo, c) && ReadFits(m, todo, c);
      if m.ReadOf? && m.conn != i {
        assert CloseOf(m.conn) in rest <==> CloseOf(m.conn) in todo;
      }
    }
  }

  /** A dispatch is replaced by the callbacks its event word calls for. */
  lemma TidyDispatch(todo: seq<Micro>, c: seq<Conn>, i: nat, r: Revents)
    requires Tidy(todo, c) && todo != [] && todo[0] == Dispatch(ConnChan(i), r)
    ensures Tidy(ConnCallbacks(i, r) + todo[1..], c)
  {
    hide ConnCallbacks;
    var cbs, rest := ConnCallbacks(i, r), todo[1..];
    var all := cbs + rest;
    assert todo == [todo[0]] + rest && todo[0] in todo;
    assert DispatchFits(todo[0], todo, c);
    NoCallbacks(todo, i);
    CallbackList(i, r);
    SeparateCallbacks(cbs, rest, i);
    forall m | m in all ensures DispatchFits(m, all, c) && ReadFits(m, all, c) {
      if m in rest {
        assert DispatchFits(m, todo, c) && ReadFits(m, todo, c) && !CallbackOf(m, i);
        SeparateFrom(todo, m);
        if m.ReadOf? {
          assert CloseOf(m.conn) in all <==> CloseOf(m.conn) in todo;
        }
      } else {
        assert m in cbs;
        assert CloseOf(i) in all <==> Hangs(r);
      }
    }
  }

  lemma SeparateCallbacks(cbs: seq<Micro>, rest: seq<Micro>, i: nat)
    requires forall m :: m in cbs ==> CallbackOf(m, i) && !m.CloseCallback?
    requires forall n :: n in rest ==> !CallbackOf(n, i)
    requires forall a, b :: 0 <= a < b < |cbs| ==> Separate(cbs[a], cbs[b])
    requires forall a, b :: 0 <= a < b < |rest| ==> Separate(rest[a], rest[b])
    ensures forall a, b :: 0 <= a < b < |cbs + rest| ==> Separate((cbs + rest)[a], (cbs + rest)[b])
  {
    var all := cbs + rest;
    forall a, b | 0 <= a < b < |all| ensures Separate(all[a], all[b]) {
      if b < |cbs| {
        assert all[a] == cbs[a] && all[b] == cbs[b];
      } else if a < |cbs| {
        assert all[a] == cbs[a] && all[a] in cbs && all[b] == rest[b - |cbs|] && all[b] in rest;
      } else {
        assert all[a] == rest[a - |cbs|] && all[b] == rest[b - |cbs|];
      }
    }
  }

  lemma NoCallbacks(todo: seq<Micro>, i: nat)
    requires forall n :: n in todo ==> !CallbackOf(n, i)
    ensures CloseOf(i) !in todo
  {
    assert CallbackOf(CloseOf(i), i);
  }

  lemma CallbackList(i: nat, r: Revents)
    ensures var cbs := ConnCallbacks(i, r);
            && (forall m :: m in cbs ==> (m == CloseOf(i) && Hangs(r)) || (m == ReadOf(i, r) && Reads(r)) || m == WriteOf(i))
            && (CloseOf(i) in cbs <==> Hangs(r))
            && (forall a, b :: 0 <= a < b < |cbs| ==> Separate(cbs[a], cbs[b]))
  {
    var x := if Hangs(r) then [CloseOf(i)] else [];
    var y := if Reads(r) then [ReadOf(i, r)] else [];
    var z := if r.pollOut then [WriteOf(i)] else [];
    assert ConnCallbacks(i, r) == x + y + z;
    if Hangs(r) {
      assert (x + y + z)[0] == CloseOf(i);
    }
  }

  // ---- handlers -----------------------------------------------------------

  /** The handler delivers no message and takes nothing up or down. */
  predicate Quiet(l: Local, m: Local) {
    SameSide(l.c, m.c) && m.c.heard == l.c.heard
  }

  lemma CallsQuiet(l: Local, inLoop: bool, data: seq<byte>, r: WriteResult)
    requires r.Wrote? ==> r.n <= |data|
    ensures Quiet(l, SendInLoop(l, data, r)) && Quiet(l, Shutdown(l, inLoop)) && Quiet(l, ForceClose(l))
    ensures Quiet(l, ShutdownInLoop(l))
  {
    hide SetEvents;
  }

  lemma CallbacksQuiet(l: Local, n: int, inLoop: bool)
    requires n <= |l.c.out|
    ensures Quiet(l, HandleWrite(l, n)) && Quiet(l, RemoveConnection(l, inLoop)) && Quiet(l, RemoveConnectionInLoop(l))
  {
    hide SetEvents;
  }

  lemma LifeUnheard(l: Local, inLoop: bool)
    ensures ConnectEstablished(l, inLoop).c.heard == l.c.heard && ConnectDestroyed(l, inLoop).c.heard == l.c.heard
    ensures CanClose(l.c) ==> CloseBegin(l, inLoop).c.heard == l.c.heard && CloseBegin(l, inLoop).c.state == Disconnected
  {
    hide SetEvents, Remove;
  }

  // ---- steps --------------------------------------------------------------

  /** The step is a read callback of connection `i` that finds bytes. */
  predicate Hears(s: State, step: Step, i: nat) {
    step.Advance? && step.n > 0 && s.todo != [] && s.todo[0].ReadOf? && s.todo[0].conn == i
  }

  /** What the step adds to what connection `i` has heard. */
  function Heard(s: State, step: Step, i: nat): seq<ConnState> {
    if Hears(s, step, i) && i < |s.conns| then [s.conns[i].state] else []
  }

  ghost predicate HeardRight(s: State, step: Step, t: State) {
    |s.conns| <= |t.conns| && forall i :: 0 <= i < |s.conns| ==> t.conns[i].heard == s.conns[i].heard + Heard(s, step, i)
  }

  lemma PutQuiet(s: State, j: nat, m: Local)
    requires j < |s.conns| && Quiet(At(s, j), m)
    ensures SameSides(s.conns, Put(s, j, m).conns)
  {
  }

  lemma PollTidy(s: State, active: seq<(int, Revents)>)
    requires Inv(s) && Enabled(s, Poll(active))
    ensures Tidy(Next(s, Poll(active)).todo, s.conns)
  {
    var p, todo := s.w.poller, Next(s, Poll(active)).todo;
    forall a, b | 0 <= a < b < |todo| ensures Separate(todo[a], todo[b]) {
      assert Knows(s, p.epoll[active[a].0].key, active[a].0);
      assert Knows(s, p.epoll[active[b].0].key, active[b].0);
    }
    forall m | m in todo ensures DispatchFits(m, todo, s.conns) {
      var k :| 0 <= k < |todo| && todo[k] == m;
      if m.key.ConnChan? {
        WatchedIsUp(s, active[k].0);
      }
    }
  }

  lemma WatchedIsUp(s: State, fd: int)
    requires Inv(s) && fd in s.w.poller.epoll && s.w.poller.epoll[fd].key.ConnChan?
    ensures var i := s.w.poller.epoll[fd].key.conn; i < |s.conns| && CanClose(s.conns[i])
  {
    var i := s.w.poller.epoll[fd].key.conn;
    assert Knows(s, ConnChan(i), fd);
    assert Agrees(s.w.poller, s.conns[i].chan) && ShapeAt(s, i);
  }

  lemma MicroTidy(s: State, n: int, inLoop: bool)
    requires Inv(s) && Enabled(s, Advance(n, inLoop)) && Tidy(s.todo, s.conns)
    ensures var t := Next(s, Advance(n, inLoop)); Tidy(t.todo, t.conns)
  {
    hide Inv, HandleWrite, RemoveConnection, CloseBegin, ConnectEstablished, Tidy;
    var t, m := s.(todo := s.todo[1..]), s.todo[0];
    match m
    case Dispatch(key, r) => DispatchTidy(s, key, r);
    case CloseOf(i) => CloseTidy(s, i, inLoop);
    case ReadOf(i, _) =>
      TidyTail(s.todo, s.conns);
      if n > 0 {
        PutQuietDelivered(t, i);
        TidyFor(t.todo, t.conns, Put(t, i, Delivered(At(t, i))).conns);
      } else if n == 0 {
        CloseTidy(s, i, inLoop);
      }
    case WriteOf(i) =>
      TidyTail(s.todo, s.conns);
      CallbacksQuiet(At(t, i), n, inLoop);
      PutQuiet(t, i, HandleWrite(At(t, i), n));
      TidyFor(t.todo, t.conns, Put(t, i, HandleWrite(At(t, i), n)).conns);
    case CloseCallback(i) =>
      TidyTail(s.todo, s.conns);
      CallbacksQuiet(At(t, i), 0, inLoop);
      PutQuiet(t, i, RemoveConnection(At(t, i), inLoop));
      TidyFor(t.todo, t.conns, Put(t, i, RemoveConnection(At(t, i), inLoop)).conns);
    case AcceptRead =>
      TidyTail(s.todo, s.conns);
      TidyFor(t.todo, t.conns, Accept(t, n, inLoop).conns);
    case WakeupRead => TidyTail(s.todo, s.conns);
  }

  lemma PutQuietDelivered(t: State, i: nat)
    requires i < |t.conns|
    ensures SameSides(t.conns, Put(t, i, Delivered(At(t, i))).conns)
  {
  }

  lemma DispatchTidy(s: State, key: ChanKey, r: Revents)
    requires Inv(s) && s.todo != [] && s.todo[0] == Dispatch(key, r) && Tidy(s.todo, s.conns)
    ensures Tidy(Callbacks(s, key, r) + s.todo[1..], s.conns)
  {
    hide Inv;
    TidyTail(s.todo, s.conns);
    if key.ConnChan? {
      TidyDispatch(s.todo, s.conns, key.conn, r);
      assert [] + s.todo[1..] == s.todo[1..];
    } else {
      OtherCallbacksTidy(Callbacks(s, key, r), s.todo[1..], s.conns);
    }
  }

  lemma OtherCallbacksTidy(cbs: seq<Micro>, rest: seq<Micro>, conns: seq<Conn>)
    requires Tidy(rest, conns) && (cbs == [] || cbs == [WakeupRead] || cbs == [AcceptRead])
    ensures Tidy(cbs + rest, conns)
  {
    var all := cbs + rest;
    forall m | m in all ensures DispatchFits(m, all, conns) && ReadFits(m, all, conns) {
      if m in rest {
        assert DispatchFits(m, rest, conns) && ReadFits(m, rest, conns);
      }
    }
    forall a, b | 0 <= a < b < |all| ensures Separate(all[a], all[b]) {
      if a >= |cbs| {
        assert all[a] == rest[a - |cbs|] && all[b] == rest[b - |cbs|];
      }
    }
  }

  /** The loop thread calls handleClose of connection `i`. */
  lemma CloseTidy(s: State, i: nat, inLoop: bool)
    requires s.todo != [] && i < |s.conns| && Tidy(s.todo, s.conns)
    requires s.todo[0] == CloseOf(i) || (s.todo[0].ReadOf? && s.todo[0].conn == i)
    ensures var t := Close(s.(todo := s.todo[1..]), i, inLoop); Tidy(t.todo, t.conns)
  {
    hide Tidy, CloseBegin;
    if CanClose(s.conns[i]) {
      LifeUnheard(At(s, i), inLoop);
      TidyClose(s.todo, s.conns, i, CloseBegin(At(s, i), inLoop).c);
    } else if s.todo[0] == CloseOf(i) {
      TidySkip(s.todo, s.conns, i);
    } else {
      TidyTail(s.todo, s.conns);
    }
  }

  lemma UserSides(s: State, j: nat, call: UserCall, inLoop: bool)
    requires UserEnabled(s, j, call)
    ensures var t := DoUser(s, j, call, inLoop); SameSides(s.conns, t.conns) && HeardRight(s, User(j, call, inLoop), t)
  {
    hide SendInLoop, Shutdown, ForceClose, Referenced;
    CallsQuiet(At(s, j), inLoop, if call.Send? then call.data else [], if call.Send? then call.result else Refused);
  }

  lemma FunctorTidy(t: State, f: Functor, inLoop: bool)
    requires FunctorEnabled(t, f) && t.todo == []
    ensures var u := DoFunctor(t, f, inLoop); Tidy(u.todo, u.conns)
  {
    hide ConnectEstablished, ConnectDestroyed, RemoveConnectionInLoop, ShutdownInLoop, CloseBegin;
  }

  lemma StepTidy(s: State, step: Step)
    requires Inv(s) && Enabled(s, step) && Tidy(s.todo, s.conns)
    ensures Tidy(Next(s, step).todo, Next(s, step).conns)
  {
    hide Inv, Tidy, DoMicro, DoFunctor, DoUser, Referenced;
    match step
    case Poll(active) => PollTidy(s, active);
    case Advance(n, inLoop) => MicroTidy(s, n, inLoop);
    case RunFunctor(inLoop) => FunctorTidy(s.(w := s.w.(q := s.w.q.Take())), s.w.q.left[0], inLoop);
    case User(j, call, inLoop) =>
      UserSides(s, j, call, inLoop);
      UserLeavesTodo(s, j, call, inLoop);
      TidyFor(s.todo, s.conns, Next(s, step).conns);
    case Reap(j) => TidyFor(s.todo, s.conns, Next(s, step).conns);
    case _ =>
  }

  lemma UserLeavesTodo(s: State, j: nat, call: UserCall, inLoop: bool)
    requires UserEnabled(s, j, call)
    ensures DoUser(s, j, call, inLoop).todo == s.todo
  {
  }

  lemma {:induction false} RunTidy(s: State, steps: seq<Step>)
    requires Inv(s) && Runs(s, steps) && Tidy(s.todo, s.conns)
    ensures Tidy(Run(s, steps).todo, Run(s, steps).conns)
    decreases |steps|
  {
    hide Inv, Next, Enabled, Tidy;
    if steps != [] {
      StepKeepsInv(s, steps[0]);
      StepTidy(s, steps[0]);
      RunTidy(Next(s, steps[0]), steps[1..]);
    }
  }

  // ---- what is heard ------------------------------------------------------

  lemma MicroHeard(s: State, n: int, inLoop: bool)
    requires Enabled(s, Advance(n, inLoop))
    ensures HeardRight(s, Advance(n, inLoop), Next(s, Advance(n, inLoop)))
  {
    hide HandleWrite, RemoveConnection, CloseBegin, ConnectEstablished;
    var t, m := s.(todo := s.todo[1..]), s.todo[0];
    match m
    case CloseOf(i) => LifeUnheard(At(t, i), inLoop);
    case ReadOf(i, _) => LifeUnheard(At(t, i), inLoop);
    case WriteOf(i) => CallbacksQuiet(At(t, i), n, inLoop);
    case CloseCallback(i) => CallbacksQuiet(At(t, i), 0, inLoop);
    case _ =>
  }

  lemma FunctorHeard(t: State, f: Functor, inLoop: bool)
    requires FunctorEnabled(t, f)
    ensures var u := DoFunctor(t, f, inLoop);
            |u.conns| == |t.conns| && forall i :: 0 <= i < |t.conns| ==> u.conns[i].heard == t.conns[i].heard
  {
    hide ConnectEstablished, ConnectDestroyed, RemoveConnectionInLoop, ShutdownInLoop, CloseBegin;
    if f.OnConn? {
      var l := At(t, f.conn);
      LifeUnheard(l, inLoop);
      CallbacksQuiet(l, 0, inLoop);
      CallsQuiet(l, inLoop, [], Refused);
    }
  }

  /** Messages are delivered by read callbacks that find bytes, and by nothing else. */
  lemma StepHeard(s: State, step: Step)
    requires Enabled(s, step)
    ensures HeardRight(s, step, Next(s, step))
  {
    hide DoMicro, DoFunctor, DoUser, Referenced;
    match step
    case Advance(n, inLoop) => MicroHeard(s, n, inLoop);
    case RunFunctor(inLoop) => FunctorHeard(s.(w := s.w.(q := s.w.q.Take())), s.w.q.left[0], inLoop);
    case User(j, call, inLoop) => UserSides(s, j, call, inLoop);
    case _ =>
  }

  // ---- theorems -----------------------------------------------------------

  lemma InitTidy(s: State)
    requires Initial(s)
    ensures Tidy(s.todo, s.conns)
  {
  }

  /** In every run a dispatch starts on a connection that is up. */
  lemma DispatchFindsUp(s: State, steps: seq<Step>, i: nat, r: Revents)
    requires Initial(s) && Runs(s, steps)
    requires Run(s, steps).todo != [] && Run(s, steps).todo[0] == Dispatch(ConnChan(i), r)
    ensures i < |Run(s, steps).conns| && CanClose(Run(s, steps).conns[i])
  {
    InitInv(s);
    InitTidy(s);
    RunTidy(s, steps);
    var t := Run(s, steps);
    assert t.todo[0] in t.todo && DispatchFits(t.todo[0], t.todo, t.conns);
  }

  /** The step delivers a message, and EPOLLHUP without EPOLLIN was reported for the connection's own descriptor. */
  ghost predicate HearsHungUp(s: State, step: Step, last: Report, i: nat) {
    Hears(s, step, i) && i < |s.conns| && exists r :: (s.conns[i].chan.fd, r) in last && r.hup && !r.pollIn
  }

  /** A read callback finds its connection down exactly if a hang-up without input was reported for it. */
  lemma ReadFindsDownIff(t: State, i: nat, step: Step, last: Report)
    requires Tidy(t.todo, t.conns) && Hears(t, step, i) && AllAsked(t, t.todo, last) && Distinct(last)
    ensures i < |t.conns| && (t.conns[i].state == Disconnected <==> HearsHungUp(t, step, last, i))
  {
    var m := t.todo[0];
    assert m in t.todo && ReadFits(m, t.todo, t.conns) && AskedFor(t, m, last);
    assert t.todo == [m] + t.todo[1..];
    NoCloseBehind(t.todo);
    forall r | (t.conns[i].chan.fd, r) in last ensures r == m.revents {
      OneWord(last, t.conns[i].chan.fd, r, m.revents);
    }
  }

  lemma NoCloseBehind(todo: seq<Micro>)
    requires todo != [] && todo[0].ReadOf? && (forall a, b :: 0 <= a < b < |todo| ==> Separate(todo[a], todo[b]))
    ensures CloseOf(todo[0].conn) !in todo
  {
    forall k | 0 <= k < |todo| ensures todo[k] != CloseOf(todo[0].conn) {
      if k > 0 {
        assert Separate(todo[0], todo[k]);
      }
    }
  }

  function HeardSoFar(s: State, i: nat): seq<ConnState> {
    if i < |s.conns| then s.conns[i].heard else []
  }

  lemma StepHears(s: State, step: Step, i: nat)
    requires Enabled(s, step)
    ensures HeardSoFar(Next(s, step), i) == HeardSoFar(s, i) + Heard(s, step, i)
  {
    hide Next, Enabled;
    if i < |s.conns| {
      StepHeard(s, step);
    } else {
      NewHeardNothing(s, step, i);
    }
  }

  lemma NewHeardNothing(s: State, step: Step, i: nat)
    requires Enabled(s, step) && i >= |s.conns|
    ensures HeardSoFar(Next(s, step), i) == []
  {
    hide Referenced, HandleWrite, Close, RemoveConnection, SendInLoop, Shutdown, ForceClose, ConnectEstablished;
    if step.Advance? && s.todo[0] == AcceptRead && step.n >= 0 {
      var t := s.(todo := s.todo[1..]);
      AcceptInTwo(t, step.n, step.inLoop);
      LifeUnheard(At(Constructed(t, step.n), |s.conns|), step.inLoop);
    } else {
      SameConns(s, step);
    }
  }

  /** Somewhere along the run, such a step. */
  ghost predicate HungUpRead(s: State, steps: seq<Step>, last: Report, i: nat)
    requires Runs(s, steps)
    decreases |steps|
  {
    && steps != []
    && (HearsHungUp(s, steps[0], last, i) || HungUpRead(Next(s, steps[0]), steps[1..], Latest(last, steps[0]), i))
  }

  lemma {:induction false} RunHears(s: State, steps: seq<Step>, last: Report, i: nat)
    requires Inv(s) && Runs(s, steps) && Tidy(s.todo, s.conns) && AllAsked(s, s.todo, last) && Distinct(last)
    ensures Disconnected in HeardSoFar(Run(s, steps), i)
       <==> Disconnected in HeardSoFar(s, i) || HungUpRead(s, steps, last, i)
    decreases |steps|
  {
    hide Inv, Next, Enabled, Tidy, Hears, HearsHungUp, AllAsked, Distinct;
    if steps != [] {
      StepKeepsInv(s, steps[0]);
      StepTidy(s, steps[0]);
      StepAsked(s, steps[0], last);
      LatestDistinct(s, steps[0], last);
      StepHears(s, steps[0], i);
      HeardDownIff(s, steps[0], last, i);
      RunHears(Next(s, steps[0]), steps[1..], Latest(last, steps[0]), i);
    }
  }

  lemma HeardDownIff(s: State, step: Step, last: Report, i: nat)
    requires Tidy(s.todo, s.conns) && AllAsked(s, s.todo, last) && Distinct(last)
    ensures Disconnected in Heard(s, step, i) <==> HearsHungUp(s, step, last, i)
  {
    hide Tidy, AllAsked, Distinct;
    if Hears(s, step, i) {
      ReadFindsDownIff(s, i, step, last);
    }
  }

  /**
   Over every run: a connection has been handed a message after its DOWN if and only if at some step a
   read callback found bytes and the last poll had reported, for that connection's own descriptor,
   EPOLLHUP without EPOLLIN.
   */
  lemma LateMessageIff(s: State, steps: seq<Step>, i: nat)
    requires Initial(s) && Runs(s, steps) && i < |Run(s, steps).conns|
    ensures Disconnected in Run(s, steps).conns[i].heard <==> HungUpRead(s, steps, [], i)
  {
    InitTidy(s);
    NothingAsked(s);
    RunHears(s, steps, [], i);
  }
}
