/**
 The invariant of the whole server and its preservation by every step.
 */
module ServerInvariant {
  import opened PollerModel
  import opened ConnectionModel
  import opened ServerModel
  import opened LocalInvariant

  predicate Closing(s: State, i: nat) {
    s.todo != [] && s.todo[0] == CloseCallback(i)
  }

  /** `fd` is the descriptor of the channel behind `key`, and the channel's owner still exists. */
  predicate Knows(s: State, key: ChanKey, fd: int) {
    match key
    case WakeupChan => fd == s.wakeup.fd
    case AcceptChan => fd == s.acceptor.fd
    case ConnChan(i) => i < |s.conns| && Alive(s.conns[i]) && s.conns[i].chan.fd == fd
  }

  /** Identities, names and numbering. */
  ghost predicate Named(s: State) {
    && s.w.nextConnId == |s.conns| + 1
    && (forall i :: 0 <= i < |s.conns| ==>
      && s.conns[i].me == i && s.conns[i].chan.key == ConnChan(i)
      && s.conns[i].name == ConnName(s.w.base, i + 1))
    && (forall name :: name in s.w.connections ==>
      s.w.connections[name] < |s.conns| && s.conns[s.w.connections[name]].name == name)
    && (forall f :: f in s.w.q.Owned() ==> FunctorEnabled(s, f))
  }

  /** Descriptors: every table entry has a live owner, live owners have distinct open descriptors. */
  ghost predicate Descriptors(s: State) {
    && (forall fd :: fd in s.w.poller.channels ==> Knows(s, s.w.poller.channels[fd], fd))
    && (forall fd :: fd in s.w.poller.epoll ==> Knows(s, s.w.poller.epoll[fd].key, fd))
    && (forall i :: 0 <= i < |s.conns| && Alive(s.conns[i]) ==>
      && s.conns[i].chan.fd in s.open
      && s.conns[i].chan.fd != s.wakeup.fd && s.conns[i].chan.fd != s.acceptor.fd)
    && (forall i, j :: 0 <= i < j < |s.conns| && Alive(s.conns[i]) && Alive(s.conns[j]) ==>
      s.conns[i].chan.fd != s.conns[j].chan.fd)
    && s.wakeup.fd != s.acceptor.fd && s.wakeup.fd in s.open && s.acceptor.fd in s.open
  }

  ghost predicate Kernel(s: State) {
    && s.w.poller.failed == 0
    && s.wakeup.key == WakeupChan && s.wakeup.events == READ && s.wakeup.index == Added && Agrees(s.w.poller, s.wakeup)
    && s.acceptor.key == AcceptChan && Agrees(s.w.poller, s.acceptor)
    && s.acceptor.events == (if s.acceptor.index == New then NONE else READ) && s.acceptor.index != Deleted
    && (forall i :: 0 <= i < |s.conns| ==> Agrees(s.w.poller, s.conns[i].chan))
  }

  /** A connection the loop thread still has to look at has been established and not destroyed. */
  predicate InService(s: State, i: nat) {
    i < |s.conns| && 1 <= |s.conns[i].log| <= 3
  }

  predicate MicroOk(s: State, m: Micro) {
    match m
    case Dispatch(key, _) => key.ConnChan? ==> InService(s, key.conn)
    case CloseOf(i) => InService(s, i)
    case ReadOf(i, _) => InService(s, i)
    case WriteOf(i) => InService(s, i)
    case CloseCallback(i) => InService(s, i)
    case AcceptRead => true
    case WakeupRead => true
  }

  ghost predicate Control(s: State) {
    && (s.phase == Waiting ==> s.todo == [])
    && (s.phase != Draining ==> s.w.q.left == [] && s.w.q.ran == [])
    && (forall k :: 0 <= k < |s.todo| ==> MicroOk(s, s.todo[k]))
    && (forall k :: 0 < k < |s.todo| ==> !s.todo[k].CloseCallback?)
  }

  predicate ShapeAt(s: State, i: nat)
    requires i < |s.conns|
  {
    LocalShape(At(s, i), Closing(s, i))
  }

  function CountLive(conns: seq<Conn>): int {
    if conns == [] then 0 else CountLive(conns[..|conns| - 1]) + Live(conns[|conns| - 1])
  }

  function CountConnected(conns: seq<Conn>): int {
    if conns == [] then 0
    else CountConnected(conns[..|conns| - 1]) + if conns[|conns| - 1].state == Connected then 1 else 0
  }

  function Limit(w: World): int {
    if w.maxConnections < 0 then 0 else w.maxConnections
  }

  ghost predicate Counts(s: State) {
    && s.w.numConnected == CountLive(s.conns)
    && CountConnected(s.conns) <= Limit(s.w)
  }

  /** Everything but the shape of connection `x` (no connection when `x` is out of range). */
  ghost predicate InvBut(s: State, x: int) {
    && Named(s) && Descriptors(s) && Kernel(s) && Control(s) && Counts(s)
    && (forall i :: 0 <= i < |s.conns| && i != x ==> ShapeAt(s, i))
  }

  ghost predicate Inv(s: State) {
    InvBut(s, -1)
  }

  // ---- counting -----------------------------------------------------------

  lemma {:induction false} CountUpdate(conns: seq<Conn>, i: nat, c: Conn)
    requires i < |conns|
    ensures CountLive(conns[i := c]) == CountLive(conns) + Live(c) - Live(conns[i])
    ensures CountConnected(conns[i := c]) == CountConnected(conns)
              + (if c.state == Connected then 1 else 0) - (if conns[i].state == Connected then 1 else 0)
  {
    var n := |conns| - 1;
    if i == n {
      assert conns[i := c][..n] == conns[..n];
    } else {
      assert conns[i := c][..n] == conns[..n][i := c];
      CountUpdate(conns[..n], i, c);
    }
  }

  lemma {:induction false} CountBounds(conns: seq<Conn>)
    ensures 0 <= CountConnected(conns) <= CountLive(conns)
  {
    if conns != [] {
      CountBounds(conns[..|conns| - 1]);
    }
  }

  // ---- one connection changes ---------------------------------------------

  lemma ReadyAt(s: State, i: nat)
    requires Named(s) && Descriptors(s) && Kernel(s) && i < |s.conns| && Alive(s.conns[i])
    ensures Ready(At(s, i))
  {
    var c := s.conns[i];
    if c.name in s.w.connections {
      NamesDistinct(s.w.base, i + 1, s.w.connections[c.name] + 1);
    }
  }

  /** Nobody else notices a step that is isolated to connection `i`. */
  lemma OthersKeepShape(s: State, i: nat, m: Local, d: nat)
    requires Named(s) && i < |s.conns| && d < |s.conns| && d != i
    requires Isolated(At(s, i), m)
    ensures LocalJobs(Local(m.w, s.conns[d])) == LocalJobs(At(s, d))
    ensures InMap(m.w, s.conns[d]) == InMap(s.w, s.conns[d])
  {
    var extra := m.w.q.pending[|s.w.q.pending|..];
    assert m.w.q.Unrun() == s.w.q.Unrun() + extra;
    JobsConcat(s.w.q.Unrun(), extra, d);
    JobsOfOthers(extra, d);
    if s.conns[d].name == s.conns[i].name {
      NamesDistinct(s.w.base, d + 1, i + 1);
    }
  }

  lemma DescriptorsKept(s: State, i: nat, m: Local)
    requires Named(s) && Descriptors(s) && i < |s.conns| && Alive(s.conns[i]) && Alive(m.c)
    requires Isolated(At(s, i), m)
    ensures Descriptors(Put(s, i, m))
  {
    var t, fdI := Put(s, i, m), s.conns[i].chan.fd;
    forall fd | fd in t.w.poller.channels ensures Knows(t, t.w.poller.channels[fd], fd) {
      if fd != fdI {
        assert Knows(s, s.w.poller.channels[fd], fd);
      }
    }
    forall fd | fd in t.w.poller.epoll ensures Knows(t, t.w.poller.epoll[fd].key, fd) {
      if fd != fdI {
        assert Knows(s, s.w.poller.epoll[fd].key, fd);
      }
    }
  }

  /** A channel on another descriptor, or one whose owner is gone, sees no change. */
  lemma AgreesKept(p: Poller, q: Poller, mine: Chan, ch: Chan)
    requires OnlyFd(p, q, mine) && OwnsFd(p, mine) && Agrees(p, ch) && ch.key != mine.key
    ensures Agrees(q, ch)
  {
  }

  lemma KernelKept(s: State, i: nat, m: Local)
    requires Named(s) && Descriptors(s) && Kernel(s) && i < |s.conns| && Alive(s.conns[i])
    requires Isolated(At(s, i), m)
    ensures Kernel(Put(s, i, m))
  {
    var t, mine := Put(s, i, m), s.conns[i].chan;
    ReadyAt(s, i);
    AgreesKept(s.w.poller, m.w.poller, mine, s.wakeup);
    AgreesKept(s.w.poller, m.w.poller, mine, s.acceptor);
    forall d | 0 <= d < |t.conns| ensures Agrees(t.w.poller, t.conns[d].chan) {
      if d != i {
        AgreesKept(s.w.poller, m.w.poller, mine, s.conns[d].chan);
      }
    }
  }

  lemma NamesKept(s: State, i: nat, m: Local)
    requires Named(s) && i < |s.conns| && Isolated(At(s, i), m)
    ensures Named(Put(s, i, m))
  {
    var t := Put(s, i, m);
    forall f | f in t.w.q.Owned() ensures FunctorEnabled(t, f) {
      var p, q := s.w.q, t.w.q;
      if f in q.ran || f in q.left {
        assert f in p.Owned();
      } else {
        var k :| 0 <= k < |q.pending| && q.pending[k] == f;
        if k < |p.pending| {
          assert f == p.pending[k] && f in p.Owned();
        }
      }
    }
    forall name | name in t.w.connections
      ensures t.w.connections[name] < |t.conns| && t.conns[t.w.connections[name]].name == name
    {
      if name != s.conns[i].name {
        assert name in s.w.connections;
      }
    }
  }

  lemma CountsKept(s: State, i: nat, m: Local)
    requires Counts(s) && i < |s.conns| && Counted(At(s, i), m) && m.w.maxConnections == s.w.maxConnections
    ensures Counts(Put(s, i, m))
  {
    CountUpdate(s.conns, i, m.c);
    CountBounds(s.conns);
    CountBounds(s.conns[i := m.c]);
  }

  lemma ControlKept(s: State, i: nat, m: Local)
    requires Control(s) && i < |s.conns| && m.w.q.left == s.w.q.left && m.w.q.ran == s.w.q.ran
    requires |m.c.log| >= |s.conns[i].log| && (s.todo != [] && InService(s, i) ==> |m.c.log| <= 3)
    ensures Control(Put(s, i, m))
  {
  }

  lemma ShapesKept(s: State, i: nat, m: Local)
    requires Named(s) && i < |s.conns| && Isolated(At(s, i), m) && LocalShape(m, Closing(s, i))
    requires forall d :: 0 <= d < |s.conns| && d != i ==> ShapeAt(s, d)
    ensures forall d :: 0 <= d < |s.conns| ==> ShapeAt(Put(s, i, m), d)
  {
    var t := Put(s, i, m);
    forall d | 0 <= d < |t.conns| ensures ShapeAt(t, d) {
      if d == i {
        assert At(t, i) == m;
      } else {
        OthersKeepShape(s, i, m, d);
        assert At(t, d) == Local(m.w, s.conns[d]);
        assert ShapeAt(s, d);
      }
    }
  }

  /** The outcome `m` of one handler of connection `i` restores the invariant. */
  lemma Lift(s: State, i: nat, m: Local)
    requires i < |s.conns| && InvBut(s, i) && Alive(s.conns[i])
    requires Framed(At(s, i), m) && LocalShape(m, Closing(s, i))
    requires Alive(m.c) && |m.c.log| >= |s.conns[i].log|
    requires s.todo != [] && InService(s, i) ==> |m.c.log| <= 3
    ensures Inv(Put(s, i, m))
  {
    NamesKept(s, i, m);
    DescriptorsKept(s, i, m);
    KernelKept(s, i, m);
    CountsKept(s, i, m);
    ControlKept(s, i, m);
    ShapesKept(s, i, m);
  }

  // ---- steps --------------------------------------------------------------

  /** Prefixes of LIFE, spelled out. */
  lemma LogStages(c: Conn)
    requires c.log <= LIFE
    ensures Alive(c) <==> |c.log| <= 4
    ensures |c.log| <= 5
  {
    assert forall k :: 0 <= k < |c.log| ==> c.log[k] == LIFE[k];
    if |c.log| == 5 {
      assert c.log[4] == Freed;
    }
  }

  /** Moving the loop's control and queue touches nothing else, as long as no connection loses a functor. */
  lemma Recontrol(s: State, t: State, x: int)
    requires InvBut(s, x) && Control(t)
    requires t == s.(w := s.w.(q := t.w.q), todo := t.todo, phase := t.phase, drains := t.drains, held := t.held)
    requires forall f :: f in t.w.q.Owned() ==> FunctorEnabled(s, f)
    requires forall d :: 0 <= d < |s.conns| && d != x ==>
      Closing(t, d) == Closing(s, d) && JobsOf(t.w.q.Unrun(), d) == JobsOf(s.w.q.Unrun(), d)
    ensures InvBut(t, x)
  {
    hide Shape, Agrees;
    assert Named(t);
    assert Descriptors(t) by {
      forall fd | fd in t.w.poller.channels ensures Knows(t, t.w.poller.channels[fd], fd) {
        assert Knows(s, s.w.poller.channels[fd], fd);
      }
      forall fd | fd in t.w.poller.epoll ensures Knows(t, t.w.poller.epoll[fd].key, fd) {
        assert Knows(s, s.w.poller.epoll[fd].key, fd);
      }
    }
    forall d | 0 <= d < |t.conns| && d != x ensures ShapeAt(t, d) {
      assert ShapeAt(s, d);
    }
  }

  lemma CloseKeeps(s: State, i: nat, m: Local)
    requires i < |s.conns| && InvBut(s, i) && Alive(s.conns[i])
    requires forall k :: 0 <= k < |s.todo| ==> !s.todo[k].CloseCallback?
    requires s.phase != Waiting
    requires Framed(At(s, i), m) && LocalShape(m, true) && |s.conns[i].log| == 1
    ensures Inv(Put(s, i, m).(todo := [CloseCallback(i)] + s.todo))
  {
    var todo := [CloseCallback(i)] + s.todo;
    var t := s.(todo := todo);
    forall k | 0 <= k < |todo| ensures MicroOk(t, todo[k]) {
      if k > 0 { assert MicroOk(s, s.todo[k - 1]); }
    }
    assert Control(t);
    Recontrol(s, t, i);
    LogStages(m.c);
    assert At(t, i) == At(s, i);
    Lift(t, i, m);
    assert Put(t, i, m) == Put(s, i, m).(todo := todo);
  }

  lemma UserKeepsInv(s: State, i: nat, call: UserCall, inLoop: bool)
    requires Inv(s) && UserEnabled(s, i, call)
    ensures Inv(DoUser(s, i, call, inLoop))
  {
    var l, closing := At(s, i), Closing(s, i);
    assert ShapeAt(s, i);
    LogStages(s.conns[i]);
    ReadyAt(s, i);
    match call
    case Send(data, r) =>
      SendKeeps(l, data, r, closing);
      Lift(s, i, SendInLoop(l, data, r));
    case CallShutdown =>
      ShutdownKeeps(l, inLoop, closing);
      Lift(s, i, Shutdown(l, inLoop));
    case CallForceClose =>
      ForceCloseKeeps(l, closing);
      Lift(s, i, ForceClose(l));
    case Retain => HeldIrrelevant(s, s.held + {i});
    case Release => HeldIrrelevant(s, s.held - {i});
  }

  lemma HeldIrrelevant(s: State, held: set<nat>)
    requires Inv(s)
    ensures Inv(s.(held := held))
  {
    var t := s.(held := held);
    forall k | 0 <= k < |t.todo| ensures MicroOk(t, t.todo[k]) {
      assert MicroOk(s, s.todo[k]);
    }
    Recontrol(s, t, -1);
  }

  /** Dropping the micro step that is about to run. */
  lemma PopKeeps(s: State)
    requires Inv(s) && s.todo != []
    ensures var t := s.(todo := s.todo[1..]);
            && InvBut(t, if s.todo[0].CloseCallback? then s.todo[0].conn else -1)
            && (forall k :: 0 <= k < |t.todo| ==> !t.todo[k].CloseCallback?)
  {
    var t := s.(todo := s.todo[1..]);
    forall k | 0 <= k < |t.todo| ensures MicroOk(t, t.todo[k]) && !t.todo[k].CloseCallback? {
      assert t.todo[k] == s.todo[k + 1] && MicroOk(s, s.todo[k + 1]);
    }
    Recontrol(s, t, if s.todo[0].CloseCallback? then s.todo[0].conn else -1);
  }

  lemma CloseStepKeeps(s: State, i: nat, inLoop: bool)
    requires Inv(s) && InService(s, i) && s.phase != Waiting
    requires forall k :: 0 <= k < |s.todo| ==> !s.todo[k].CloseCallback?
    ensures Inv(Close(s, i, inLoop))
  {
    hide Counts;
    if CanClose(s.conns[i]) {
      assert ShapeAt(s, i);
      LogStages(s.conns[i]);
      ReadyAt(s, i);
      CloseBeginKeeps(At(s, i), inLoop);
      CloseKeeps(s, i, CloseBegin(At(s, i), inLoop));
    }
  }

  lemma CallbacksOk(s: State, key: ChanKey, r: Revents, m: Micro)
    requires MicroOk(s, Dispatch(key, r)) && m in Callbacks(s, key, r)
    ensures MicroOk(s, m) && !m.CloseCallback?
  {
  }

  lemma DispatchKeeps(s: State, key: ChanKey, r: Revents)
    requires Inv(s) && MicroOk(s, Dispatch(key, r)) && s.phase != Waiting
    requires forall k :: 0 <= k < |s.todo| ==> !s.todo[k].CloseCallback?
    ensures Inv(s.(todo := Callbacks(s, key, r) + s.todo))
  {
    var cbs := Callbacks(s, key, r);
    var t := s.(todo := cbs + s.todo);
    forall k | 0 <= k < |t.todo| ensures MicroOk(t, t.todo[k]) && !t.todo[k].CloseCallback? {
      if k >= |cbs| {
        assert t.todo[k] == s.todo[k - |cbs|] && MicroOk(s, s.todo[k - |cbs|]);
      } else {
        assert t.todo[k] == cbs[k];
        CallbacksOk(s, key, r, t.todo[k]);
      }
    }
    assert Control(t);
    Recontrol(s, t, -1);
  }

  lemma DeliverStepKeeps(t: State, i: nat)
    requires Inv(t) && InService(t, i)
    ensures Inv(Put(t, i, Delivered(At(t, i))))
  {
    assert ShapeAt(t, i);
    LogStages(t.conns[i]);
    ReadyAt(t, i);
    Lift(t, i, Delivered(At(t, i)));
  }

  lemma WriteStepKeeps(t: State, i: nat, n: int)
    requires Inv(t) && InService(t, i) && n <= |t.conns[i].out|
    ensures Inv(Put(t, i, HandleWrite(At(t, i), n)))
  {
    assert ShapeAt(t, i);
    LogStages(t.conns[i]);
    ReadyAt(t, i);
    WriteKeeps(At(t, i), n, Closing(t, i));
    Lift(t, i, HandleWrite(At(t, i), n));
  }

  lemma CloseCallbackStepKeeps(t: State, i: nat, inLoop: bool)
    requires i < |t.conns| && InvBut(t, i) && InService(t, i) && LocalShape(At(t, i), true) && !Closing(t, i)
    ensures Inv(Put(t, i, RemoveConnection(At(t, i), inLoop)))
  {
    LogStages(t.conns[i]);
    ReadyAt(t, i);
    var m := RemoveConnection(At(t, i), inLoop);
    CloseCallbackKeeps(At(t, i), inLoop);
    LogStages(m.c);
    Lift(t, i, m);
  }

  lemma AdvanceKeepsInv(s: State, n: int, inLoop: bool)
    requires Inv(s) && Enabled(s, Advance(n, inLoop))
    requires s.todo[0] != AcceptRead
    ensures Inv(Next(s, Advance(n, inLoop)))
  {
    hide Named, Descriptors, Kernel, Counts, Close, HandleWrite, RemoveConnection;
    var t, m := s.(todo := s.todo[1..]), s.todo[0];
    assert MicroOk(s, m);
    PopKeeps(s);
    match m
    case Dispatch(key, r) => DispatchKeeps(t, key, r);
    case CloseOf(i) => CloseStepKeeps(t, i, inLoop);
    case ReadOf(i, _) => if n > 0 { DeliverStepKeeps(t, i); } else if n == 0 { CloseStepKeeps(t, i, inLoop); }
    case WriteOf(i) => WriteStepKeeps(t, i, n);
    case CloseCallback(i) =>
      assert ShapeAt(s, i) && At(t, i) == At(s, i);
      CloseCallbackStepKeeps(t, i, inLoop);
    case WakeupRead =>
  }

  // ---- accepting ----------------------------------------------------------

  /** The state with connection `n` constructed and mapped, its establishment still to be arranged. */
  function Constructed(s: State, fd: int): State {
    var n := |s.conns|;
    var name := ConnName(s.w.base, s.w.nextConnId);
    s.(w := s.w.(nextConnId := s.w.nextConnId + 1, connections := s.w.connections[name := n]),
       conns := s.conns + [NewConn(n, name, fd)],
       open := s.open + {fd})
  }

  /** Only open descriptors are in the tables. */
  lemma EntriesOpen(s: State, fd: int)
    requires Descriptors(s)
    ensures fd in s.w.poller.channels ==> fd in s.open
    ensures fd in s.w.poller.epoll ==> fd in s.open
  {
  }

  /** newConnection never overwrites a map entry, and an accepted descriptor is in neither table. */
  lemma AcceptIsFresh(s: State, fd: int)
    requires Named(s) && Descriptors(s) && fd !in s.open
    ensures ConnName(s.w.base, s.w.nextConnId) !in s.w.connections
    ensures fd !in s.w.poller.channels && fd !in s.w.poller.epoll
  {
    EntriesOpen(s, fd);
    var name := ConnName(s.w.base, s.w.nextConnId);
    if name in s.w.connections {
      NamesDistinct(s.w.base, s.w.nextConnId, s.w.connections[name] + 1);
    }
  }

  lemma ConstructedShapes(s: State, fd: int)
    requires Inv(s) && fd !in s.open
    ensures var t, n := Constructed(s, fd), |s.conns|;
            && (forall d :: 0 <= d < n ==> ShapeAt(t, d))
            && InMap(t.w, t.conns[n]) && JobsOf(t.w.q.Unrun(), n) == []
  {
    var t, n := Constructed(s, fd), |s.conns|;
    forall d | 0 <= d < n ensures ShapeAt(t, d) {
      assert ShapeAt(s, d);
      if s.conns[d].name == t.conns[n].name {
        NamesDistinct(s.w.base, d + 1, n + 1);
      }
    }
    forall k | 0 <= k < |s.w.q.Unrun()| ensures !(s.w.q.Unrun()[k].OnConn? && s.w.q.Unrun()[k].conn == n) {
      assert s.w.q.Unrun()[k] in s.w.q.Owned();
    }
    JobsOfOthers(s.w.q.Unrun(), n);
  }

  lemma ConstructedNamed(s: State, fd: int)
    requires Named(s) && Descriptors(s) && fd !in s.open
    ensures Named(Constructed(s, fd))
  {
    var t := Constructed(s, fd);
    AcceptIsFresh(s, fd);
    forall f | f in t.w.q.Owned() ensures FunctorEnabled(t, f) {
      assert FunctorEnabled(s, f);
    }
    forall name | name in t.w.connections
      ensures t.w.connections[name] < |t.conns| && t.conns[t.w.connections[name]].name == name
    {
      if name in s.w.connections {
        assert t.conns[s.w.connections[name]] == s.conns[s.w.connections[name]];
      }
    }
    assert forall i :: 0 <= i < |s.conns| ==> t.conns[i] == s.conns[i];
  }

  lemma ConstructedDescriptors(s: State, fd: int)
    requires Descriptors(s) && fd !in s.open
    ensures Descriptors(Constructed(s, fd))
  {
  }

  lemma ConstructedKernel(s: State, fd: int)
    requires Descriptors(s) && Kernel(s) && fd !in s.open
    ensures Kernel(Constructed(s, fd))
  {
  }

  lemma ConstructedKeeps(s: State, fd: int)
    requires Inv(s) && fd !in s.open
    ensures InvBut(Constructed(s, fd), |s.conns|)
  {
    var t, n := Constructed(s, fd), |s.conns|;
    ConstructedShapes(s, fd);
    ConstructedNamed(s, fd);
    ConstructedDescriptors(s, fd);
    ConstructedKernel(s, fd);
    assert t.conns[..|t.conns| - 1] == s.conns;
    forall k | 0 <= k < |t.todo| ensures MicroOk(t, t.todo[k]) {
      assert MicroOk(s, s.todo[k]);
    }
    assert Control(t) && Counts(t);
  }

  /** What newConnection does with the connection it has constructed. */
  function Introduced(l: Local, inLoop: bool): Local {
    if inLoop then ConnectEstablished(l, inLoop) else Queued(l, Establish)
  }

  lemma IntroducedKeeps(l: Local, inLoop: bool)
    requires Ready(l) && LocalJobs(l) == [] && Shape(l.c, InMap(l.w, l.c), [Establish], false)
    ensures var m := Introduced(l, inLoop); Framed(l, m) && LocalShape(m, false) && |m.c.log| <= 1
  {
    assert [Establish] + LocalJobs(l) == [Establish];
    RunningStage(l, Establish);
    if inLoop {
      EstablishKeeps(l, inLoop);
    } else {
      QueuedFramed(l, Establish);
      QueuedJobs(l, Establish);
    }
  }

  /** Acceptor::handleRead is construction followed by introduction. */
  lemma AcceptInTwo(s: State, fd: int, inLoop: bool)
    requires fd >= 0
    ensures var t, n := Constructed(s, fd), |s.conns|;
            Accept(s, fd, inLoop) == Put(t, n, Introduced(At(t, n), inLoop))
  {
  }

  lemma AcceptKeepsInv(s: State, fd: int, inLoop: bool)
    requires Inv(s) && (fd >= 0 ==> fd !in s.open)
    ensures Inv(Accept(s, fd, inLoop))
  {
    if fd >= 0 {
      AcceptInTwo(s, fd, inLoop);
      ConstructedShapes(s, fd);
      ConstructedKeeps(s, fd);
      assert s.todo != [] ==> MicroOk(s, s.todo[0]);
      IntroduceKeepsInv(Constructed(s, fd), |s.conns|, inLoop);
    }
  }

  lemma IntroduceKeepsInv(t: State, n: nat, inLoop: bool)
    requires n < |t.conns| && InvBut(t, n) && !Closing(t, n) && Alive(t.conns[n])
    requires LocalJobs(At(t, n)) == [] && Shape(t.conns[n], InMap(t.w, t.conns[n]), [Establish], false)
    requires t.conns[n].log == []
    ensures Inv(Put(t, n, Introduced(At(t, n), inLoop)))
  {
    ReadyAt(t, n);
    IntroducedKeeps(At(t, n), inLoop);
    LogStages(Introduced(At(t, n), inLoop).c);
    Lift(t, n, Introduced(At(t, n), inLoop));
  }

  // ---- functors -----------------------------------------------------------

  lemma TakeKeeps(s: State)
    requires Inv(s) && s.phase == Draining && s.todo == [] && s.w.q.left != []
    ensures var t, f := s.(w := s.w.(q := s.w.q.Take())), s.w.q.left[0];
            && InvBut(t, if f.OnConn? then f.conn else -1)
            && (f.OnConn? ==> f.conn < |s.conns| && Running(At(t, f.conn), f.job) && Alive(s.conns[f.conn]))
  {
    var t, f := s.(w := s.w.(q := s.w.q.Take())), s.w.q.left[0];
    var p, q := s.w.q, t.w.q;
    assert p.left == [f] + q.left;
    assert p.Unrun() == [f] + q.Unrun();
    assert q.Owned() == p.Owned();
    assert f in p.Owned();
    assert [f][1..] == [];
    forall d: nat ensures JobsOf(p.Unrun(), d) == JobsOf([f], d) + JobsOf(q.Unrun(), d) {
      JobsConcat([f], q.Unrun(), d);
    }
    if f.OnConn? {
      assert ShapeAt(s, f.conn);
      assert JobsOf([f], f.conn) == [f.job];
      LogStages(s.conns[f.conn]);
      assert JobsOf(p.Unrun(), f.conn) != [];
    }
    Recontrol(s, t, if f.OnConn? then f.conn else -1);
  }

  lemma ListenOwns(s: State)
    requires Inv(s)
    ensures OwnsFd(s.w.poller, s.acceptor)
  {
  }

  lemma ListenKernel(s: State)
    requires Inv(s)
    ensures Kernel(DoListen(s)) && Descriptors(DoListen(s))
  {
    var t := DoListen(s);
    var p, q, mine := s.w.poller, t.w.poller, s.acceptor;
    ListenOwns(s);
    assert OnlyFd(p, q, mine) && t.acceptor.fd == mine.fd && t.acceptor.key == mine.key;
    AgreesKept(p, q, mine, s.wakeup);
    forall d | 0 <= d < |t.conns| ensures Agrees(q, t.conns[d].chan) {
      AgreesKept(p, q, mine, s.conns[d].chan);
    }
    assert Kernel(t);
    forall x | x in q.channels ensures Knows(t, q.channels[x], x) {
      if x != mine.fd { assert Knows(s, p.channels[x], x); }
    }
    forall x | x in q.epoll ensures Knows(t, q.epoll[x].key, x) {
      if x != mine.fd { assert Knows(s, p.epoll[x].key, x); }
    }
  }

  lemma ListenKeeps(s: State)
    requires Inv(s)
    ensures Inv(DoListen(s))
  {
    var t := DoListen(s);
    ListenKernel(s);
    forall f | f in t.w.q.Owned() ensures FunctorEnabled(t, f) {
      assert FunctorEnabled(s, f);
    }
    assert Named(t);
    forall d | 0 <= d < |t.conns| ensures ShapeAt(t, d) {
      assert ShapeAt(s, d) && InMap(t.w, t.conns[d]) == InMap(s.w, s.conns[d]);
    }
    forall k | 0 <= k < |t.todo| ensures MicroOk(t, t.todo[k]) {
      assert MicroOk(s, s.todo[k]);
    }
    assert Control(t);
  }

  /** connectEstablished, removeConnectionInLoop and connectDestroyed run from the queue. */
  lemma LifeFunctorKeeps(t: State, i: nat, job: Job, inLoop: bool)
    requires i < |t.conns| && InvBut(t, i) && t.todo == [] && Alive(t.conns[i]) && Running(At(t, i), job)
    requires job == Establish || job == Unmap || job == Destroy
    ensures Inv(DoFunctor(t, OnConn(job, i), inLoop))
  {
    var l := At(t, i);
    ReadyAt(t, i);
    RunningStage(l, job);
    LogStages(l.c);
    match job
    case Establish => EstablishKeeps(l, inLoop); Lift(t, i, ConnectEstablished(l, inLoop));
    case Unmap => UnmapKeeps(l); Lift(t, i, RemoveConnectionInLoop(l));
    case Destroy =>
      DestroyKeeps(l, inLoop);
      LogStages(ConnectDestroyed(l, inLoop).c);
      Lift(t, i, ConnectDestroyed(l, inLoop));
  }

  lemma PlainFunctorKeeps(t: State, i: nat, job: Job, inLoop: bool)
    requires i < |t.conns| && InvBut(t, i) && t.todo == [] && t.phase == Draining
    requires Alive(t.conns[i]) && Running(At(t, i), job)
    requires job == Shut || job == WriteDone || job == Force
    ensures Inv(DoFunctor(t, OnConn(job, i), inLoop))
  {
    var l := At(t, i);
    ReadyAt(t, i);
    RunningStage(l, job);
    LogStages(l.c);
    match job
    case Shut => ShutKeeps(l); Lift(t, i, ShutdownInLoop(l));
    case WriteDone => PlainTaken(l, WriteDone); assert ShapeAt(t, i);
    case Force =>
      ForceKeeps(l, inLoop);
      if CanClose(l.c) {
        CloseKeeps(t, i, CloseBegin(l, inLoop));
      } else {
        assert ShapeAt(t, i);
      }
  }

  lemma FunctorKeepsInv(s: State, inLoop: bool)
    requires Inv(s) && Enabled(s, RunFunctor(inLoop))
    ensures Inv(Next(s, RunFunctor(inLoop)))
  {
    var t, f := s.(w := s.w.(q := s.w.q.Take())), s.w.q.left[0];
    TakeKeeps(s);
    match f
    case Listen => ListenKeeps(t);
    case OnConn(job, i) =>
      if job == Establish || job == Unmap || job == Destroy {
        LifeFunctorKeeps(t, i, job, inLoop);
      } else {
        PlainFunctorKeeps(t, i, job, inLoop);
      }
  }

  // ---- the remaining steps ------------------------------------------------

  lemma PollKeepsInv(s: State, active: seq<(int, Revents)>)
    requires Inv(s) && Enabled(s, Poll(active))
    ensures Inv(Next(s, Poll(active)))
  {
    var t := Next(s, Poll(active));
    var p := s.w.poller;
    forall k | 0 <= k < |t.todo| ensures MicroOk(t, t.todo[k]) && !t.todo[k].CloseCallback? {
      var fd := active[k].0;
      assert Knows(s, p.epoll[fd].key, fd);
      if p.epoll[fd].key.ConnChan? {
        var i := p.epoll[fd].key.conn;
        assert Agrees(p, s.conns[i].chan) && ShapeAt(s, i);
      }
    }
    Recontrol(s, t, -1);
  }

  /** Until its connectDestroyed has run, the map or a queued functor owns the connection, whoever else does. */
  lemma OwnedUntilDestroyed(s: State, i: nat)
    requires Inv(s) && i < |s.conns| && |s.conns[i].log| <= 3
    ensures InMap(s.w, s.conns[i]) || OnConn(Destroy, i) in s.w.q.Unrun()
    ensures Referenced(s, i)
  {
    assert ShapeAt(s, i);
    JobsContain(s.w.q.Unrun(), i, Destroy);
    if |s.conns[i].log| == 3 {
      var jobs := JobsOf(s.w.q.Unrun(), i);
      assert jobs[|jobs| - 1] in jobs;
    }
    if OnConn(Destroy, i) in s.w.q.Unrun() {
      assert OnConn(Destroy, i) in s.w.q.Owned() && Owns(OnConn(Destroy, i), i);
    }
  }

  /** Only a connection whose teardown is complete can lose its last reference. */
  lemma ReapStage(s: State, i: nat)
    requires Inv(s) && i < |s.conns| && Alive(s.conns[i]) && !Referenced(s, i)
    ensures s.conns[i].log == [Up, Down, Closed, Destroyed]
  {
    assert ShapeAt(s, i);
    LogStages(s.conns[i]);
    if |s.conns[i].log| <= 3 {
      OwnedUntilDestroyed(s, i);
    }
  }

  /** The destructor closes, once, an open descriptor that both tables have already forgotten. */
  lemma ReapTables(s: State, i: nat)
    requires Inv(s) && Enabled(s, Reap(i))
    ensures s.conns[i].chan.fd !in s.w.poller.channels && s.conns[i].chan.fd !in s.w.poller.epoll
    ensures s.conns[i].chan.fd in s.open
  {
    ReapStage(s, i);
    assert ShapeAt(s, i) && Agrees(s.w.poller, s.conns[i].chan);
    ReadyAt(s, i);
  }

  lemma ReapDescriptors(s: State, i: nat)
    requires Inv(s) && Enabled(s, Reap(i))
    ensures Descriptors(Next(s, Reap(i)))
  {
    var t := Next(s, Reap(i));
    ReapTables(s, i);
    ReapStage(s, i);
    assert t.conns[i].log[4] == Freed;
    forall x | x in t.w.poller.channels ensures Knows(t, t.w.poller.channels[x], x) {
      assert Knows(s, s.w.poller.channels[x], x);
    }
    forall x | x in t.w.poller.epoll ensures Knows(t, t.w.poller.epoll[x].key, x) {
      assert Knows(s, s.w.poller.epoll[x].key, x);
    }
  }

  lemma ReapControl(s: State, i: nat)
    requires Inv(s) && Enabled(s, Reap(i))
    ensures Named(Next(s, Reap(i))) && Control(Next(s, Reap(i))) && Counts(Next(s, Reap(i)))
  {
    var t := Next(s, Reap(i));
    ReapStage(s, i);
    CountUpdate(s.conns, i, t.conns[i]);
    forall f | f in t.w.q.Owned() ensures FunctorEnabled(t, f) {
      assert FunctorEnabled(s, f);
    }
    forall k | 0 <= k < |t.todo| ensures MicroOk(t, t.todo[k]) {
      assert MicroOk(s, s.todo[k]);
    }
  }

  lemma ReapKeepsInv(s: State, i: nat)
    requires Inv(s) && Enabled(s, Reap(i))
    ensures Inv(Next(s, Reap(i)))
  {
    var t := Next(s, Reap(i));
    ReapStage(s, i);
    ReapDescriptors(s, i);
    ReapControl(s, i);
    assert t.conns[i].log == LIFE;
    forall d | 0 <= d < |t.conns| ensures ShapeAt(t, d) && Agrees(t.w.poller, t.conns[d].chan) {
      assert ShapeAt(s, d) && Agrees(s.w.poller, s.conns[d].chan);
    }
  }

  lemma ListenQueuedKeeps(s: State)
    requires Inv(s)
    ensures Inv(s.(w := s.w.(q := s.w.q.Push(Listen))))
  {
    hide Shape, Agrees, Descriptors, Kernel, Counts;
    var t := s.(w := s.w.(q := s.w.q.Push(Listen)));
    assert t.w.q.Unrun() == s.w.q.Unrun() + [Listen];
    forall d: nat ensures JobsOf(t.w.q.Unrun(), d) == JobsOf(s.w.q.Unrun(), d) {
      JobsConcat(s.w.q.Unrun(), [Listen], d);
      JobsOfOthers([Listen], d);
    }
    forall k | 0 <= k < |t.todo| ensures MicroOk(t, t.todo[k]) {
      assert MicroOk(s, s.todo[k]);
    }
    Recontrol(s, t, -1);
  }

  lemma StartKeepsInv(s: State, inLoop: bool)
    requires Inv(s)
    ensures Inv(Next(s, Start(inLoop)))
  {
    hide Inv;
    if inLoop {
      ListenKeeps(s);
    } else {
      ListenQueuedKeeps(s);
    }
  }

  lemma InitInv(s: State)
    requires Initial(s)
    ensures Inv(s)
  {
  }

  lemma DrainKeepsInv(s: State, step: Step)
    requires Inv(s) && Enabled(s, step) && (step == SwapFunctors || step == EndDrain)
    ensures Inv(Next(s, step))
  {
    var t := Next(s, step);
    assert t.w.q.Unrun() == s.w.q.Unrun();
    Recontrol(s, t, -1);
  }

  /** Every step of the server keeps the invariant. */
  lemma StepKeepsInv(s: State, step: Step)
    requires Inv(s) && Enabled(s, step)
    ensures Inv(Next(s, step))
  {
    match step
    case Start(inLoop) => StartKeepsInv(s, inLoop);
    case Poll(active) => PollKeepsInv(s, active);
    case Advance(n, inLoop) =>
      if s.todo[0] == AcceptRead {
        PopKeeps(s);
        AcceptKeepsInv(s.(todo := s.todo[1..]), n, inLoop);
      } else {
        AdvanceKeepsInv(s, n, inLoop);
      }
    case SwapFunctors => DrainKeepsInv(s, step);
    case EndDrain => DrainKeepsInv(s, step);
    case RunFunctor(inLoop) => FunctorKeepsInv(s, inLoop);
    case User(i, call, inLoop) => UserKeepsInv(s, i, call, inLoop);
    case Reap(i) => ReapKeepsInv(s, i);
  }

  /** Every reachable state satisfies the invariant. */
  lemma {:induction false} RunKeepsInv(s: State, steps: seq<Step>)
    requires Inv(s) && Runs(s, steps)
    ensures Inv(Run(s, steps))
    decreases |steps|
  {
    hide Inv, Next, Enabled;
    if steps != [] {
      StepKeepsInv(s, steps[0]);
      RunKeepsInv(Next(s, steps[0]), steps[1..]);
    }
  }
}
