/**
 The whole server as a step machine. The loop thread polls, dispatches, swaps the functor queue and
 runs the batch; `todo` is what is left of the dispatch or callback it is inside. User calls on a
 connection (from a callback, or another thread, one call at a time) may come between any two steps,
 and the kernel's answers are inputs.
 */
module ServerModel {
  import opened Bytes
  import opened FunctorQueue
  import opened PollerModel
  import opened ConnectionModel

  /** `revents_`, one flag per EPOLL bit the dispatcher looks at. */
  datatype Revents = Revents(pollIn: bool, pri: bool, pollOut: bool, hup: bool, rdhup: bool)

  datatype Micro =
    | Dispatch(key: ChanKey, revents: Revents)
    | CloseOf(conn: nat)
    | ReadOf(conn: nat, revents: Revents)   // with the event word of the dispatch, for the record
    | WriteOf(conn: nat)
    | CloseCallback(conn: nat)   // the last line of handleClose, after the connection callback
    | AcceptRead
    | WakeupRead

  datatype Phase = Waiting | Dispatching | Draining

  /** `held`: connections the user keeps a strong pointer to. `open`: the process's descriptors. */
  datatype State = State(
    w: World,
    conns: seq<Conn>,
    todo: seq<Micro>,
    phase: Phase,
    held: set<nat>,
    open: set<int>,
    wakeup: Chan,
    acceptor: Chan,
    drains: nat)

  datatype UserCall =
    | Send(data: seq<byte>, result: WriteResult)
    | CallShutdown
    | CallForceClose
    | Retain
    | Release

  /** Every step that can reach runInLoop carries the answer of isInLoopThread. */
  datatype Step =
    | Start(inLoop: bool)
    | Poll(active: seq<(int, Revents)>)
    | Advance(n: int, inLoop: bool)     // next micro step; `n` is what read, write or accept returned
    | SwapFunctors
    | RunFunctor(inLoop: bool)
    | EndDrain
    | User(conn: nat, call: UserCall, inLoop: bool)
    | Reap(conn: nat)                   // ~TcpConnection

  function At(s: State, i: nat): Local
    requires i < |s.conns|
  {
    Local(s.w, s.conns[i])
  }

  function Put(s: State, i: nat, l: Local): State
    requires i < |s.conns|
  {
    s.(w := l.w, conns := s.conns[i := l.c])
  }

  predicate InMap(w: World, c: Conn) {
    c.name in w.connections && w.connections[c.name] == c.me
  }

  predicate Alive(c: Conn) {
    Freed !in c.log
  }

  /** A functor that keeps its connection alive: all but the one bound to a raw pointer. */
  predicate Owns(f: Functor, i: nat) {
    f.OnConn? && f.conn == i && f.job != Shut
  }

  predicate Referenced(s: State, i: nat)
    requires i < |s.conns|
  {
    InMap(s.w, s.conns[i]) || i in s.held || exists f :: f in s.w.q.Owned() && Owns(f, i)
  }

  // ---- dispatch -----------------------------------------------------------

  /** The bits that call the close callback. */
  predicate Hangs(r: Revents) {
    r.hup && !r.pollIn
  }

  /** The bits that call the read callback. */
  predicate Reads(r: Revents) {
    r.pollIn || r.pri || r.rdhup
  }

  /** Channel::handleEventWithGuard for a connection: close, read and write callbacks in that order. */
  function ConnCallbacks(i: nat, r: Revents): seq<Micro> {
    (if Hangs(r) then [CloseOf(i)] else [])
    + (if Reads(r) then [ReadOf(i, r)] else [])
    + (if r.pollOut then [WriteOf(i)] else [])
  }

  function Callbacks(s: State, key: ChanKey, r: Revents): seq<Micro> {
    match key
    case WakeupChan => if Reads(r) then [WakeupRead] else []
    case AcceptChan => if Reads(r) then [AcceptRead] else []
    case ConnChan(i) =>
      // Channel::handleEvent: a tied channel is dispatched only while its owner can be locked.
      if i < |s.conns| && (s.conns[i].chan.tied ==> Alive(s.conns[i])) then ConnCallbacks(i, r) else []
  }

  function ActiveChannels(p: Poller, active: seq<(int, Revents)>): seq<Micro>
    requires forall k :: 0 <= k < |active| ==> active[k].0 in p.epoll
  {
    seq(|active|, k requires 0 <= k < |active| => Dispatch(p.epoll[active[k].0].key, active[k].1))
  }

  /** handleClose: the close callback follows once the connection callback is done. */
  function Close(s: State, i: nat, inLoop: bool): State
    requires i < |s.conns|
  {
    if CanClose(s.conns[i]) then
      var t := Put(s, i, CloseBegin(At(s, i), inLoop));
      t.(todo := [CloseCallback(i)] + t.todo)
    else s
  }

  /** Acceptor::handleRead. */
  function Accept(s: State, fd: int, inLoop: bool): State {
    if fd < 0 then s
    else
      var l := NewConnection(s.w, |s.conns|, fd, inLoop);
      s.(w := l.w, conns := s.conns + [l.c], open := s.open + {fd})
  }

  predicate MicroEnabled(s: State, m: Micro, n: int) {
    match m
    case Dispatch(_, _) => true
    case WakeupRead => true
    case AcceptRead => n >= 0 ==> n !in s.open          // the kernel hands out unopened descriptors
    case WriteOf(i) => i < |s.conns| && n <= |s.conns[i].out| && (s.conns[i].writeShut ==> n <= 0)
    case CloseOf(i) => i < |s.conns|
    case ReadOf(i, _) => i < |s.conns|
    case CloseCallback(i) => i < |s.conns|
  }

  function DoMicro(s: State, m: Micro, n: int, inLoop: bool): State
    requires MicroEnabled(s, m, n)
  {
    match m
    case Dispatch(key, r) => s.(todo := Callbacks(s, key, r) + s.todo)
    case CloseOf(i) => Close(s, i, inLoop)
    case ReadOf(i, _) => if n > 0 then Put(s, i, Delivered(At(s, i))) else if n == 0 then Close(s, i, inLoop) else s
    case WriteOf(i) => Put(s, i, HandleWrite(At(s, i), n))
    case CloseCallback(i) => Put(s, i, RemoveConnection(At(s, i), inLoop))
    case AcceptRead => Accept(s, n, inLoop)
    case WakeupRead => s
  }

  // ---- functors and user calls --------------------------------------------

  /** Acceptor::listen. */
  function DoListen(s: State): State {
    var (p, ch) := SetEvents(s.w.poller, s.acceptor, s.acceptor.events.(read := true));
    s.(w := s.w.(poller := p), acceptor := ch)
  }

  predicate FunctorEnabled(s: State, f: Functor) {
    f.OnConn? ==> f.conn < |s.conns|
  }

  function DoFunctor(s: State, f: Functor, inLoop: bool): State
    requires FunctorEnabled(s, f)
  {
    match f
    case Listen => DoListen(s)
    case OnConn(job, i) =>
      match job
      case Establish => Put(s, i, ConnectEstablished(At(s, i), inLoop))
      case Unmap => Put(s, i, RemoveConnectionInLoop(At(s, i)))
      case Destroy => Put(s, i, ConnectDestroyed(At(s, i), inLoop))
      case Force => Close(s, i, inLoop)
      case Shut => Put(s, i, ShutdownInLoop(At(s, i)))
      case WriteDone => s
  }

  /** The user knows a connection from its first callback on, and can only use a pointer it has. */
  predicate UserEnabled(s: State, i: nat, call: UserCall) {
    && i < |s.conns|
    && s.conns[i].log != []
    && Alive(s.conns[i])
    && match call
       case Send(data, r) =>
         && (r.Wrote? ==> r.n <= |data|)
         && (s.conns[i].writeShut ==> r == Broken)     // EPIPE after SHUT_WR
       case Retain => Referenced(s, i)
       case Release => i in s.held
       case CallShutdown => true
       case CallForceClose => true
  }

  function DoUser(s: State, i: nat, call: UserCall, inLoop: bool): State
    requires UserEnabled(s, i, call)
  {
    match call
    case Send(data, r) => Put(s, i, SendInLoop(At(s, i), data, r))
    case CallShutdown => Put(s, i, Shutdown(At(s, i), inLoop))
    case CallForceClose => Put(s, i, ForceClose(At(s, i)))
    case Retain => s.(held := s.held + {i})
    case Release => s.(held := s.held - {i})
  }

  // ---- steps --------------------------------------------------------------

  predicate Enabled(s: State, step: Step) {
    match step
    case Start(_) => true
    case Poll(active) =>
      && s.phase == Waiting
      && (forall k :: 0 <= k < |active| ==> active[k].0 in s.w.poller.epoll)
      // epoll_wait reports a descriptor once.
      && (forall j, k :: 0 <= j < k < |active| ==> active[j].0 != active[k].0)
    case Advance(n, _) => s.todo != [] && MicroEnabled(s, s.todo[0], n)
    case SwapFunctors => s.phase == Dispatching && s.todo == []
    case RunFunctor(_) => s.phase == Draining && s.todo == [] && s.w.q.left != [] && FunctorEnabled(s, s.w.q.left[0])
    case EndDrain => s.phase == Draining && s.todo == [] && s.w.q.left == []
    case User(i, call, _) => UserEnabled(s, i, call)
    // The destructor runs once nothing owns the connection; it may also be delayed here.
    case Reap(i) => i < |s.conns| && Alive(s.conns[i]) && !Referenced(s, i)
  }

  function Next(s: State, step: Step): State
    requires Enabled(s, step)
  {
    match step
    case Start(inLoop) =>
      if inLoop then DoListen(s) else s.(w := s.w.(q := s.w.q.Push(Listen)))
    case Poll(active) =>
      s.(todo := ActiveChannels(s.w.poller, active), phase := Dispatching)
    case Advance(n, inLoop) =>
      DoMicro(s.(todo := s.todo[1..]), s.todo[0], n, inLoop)
    case SwapFunctors =>
      s.(w := s.w.(q := s.w.q.Swap()), phase := Draining)
    case RunFunctor(inLoop) =>
      DoFunctor(s.(w := s.w.(q := s.w.q.Take())), s.w.q.left[0], inLoop)
    case EndDrain =>
      s.(w := s.w.(q := s.w.q.Release()), phase := Waiting, drains := s.drains + 1)
    case User(i, call, inLoop) =>
      DoUser(s, i, call, inLoop)
    case Reap(i) =>
      s.(conns := s.conns[i := s.conns[i].(log := s.conns[i].log + [Freed])], open := s.open - {s.conns[i].chan.fd})
  }

  /** A server just built: the wakeup channel is enabled, nothing else has happened. */
  predicate Initial(s: State) {
    && s.conns == [] && s.todo == [] && s.phase == Waiting && s.held == {} && s.drains == 0
    && s.w.q == Queue([], [], []) && s.w.connections == map[] && s.w.nextConnId == 1 && s.w.numConnected == 0
    && s.wakeup == Chan(WakeupChan, s.wakeup.fd, READ, Added, false)
    && s.acceptor == Chan(AcceptChan, s.acceptor.fd, NONE, New, false)
    && s.wakeup.fd != s.acceptor.fd && {s.wakeup.fd, s.acceptor.fd} <= s.open
    && s.w.poller == Poller(map[s.wakeup.fd := WakeupChan], map[s.wakeup.fd := Reg(WakeupChan, READ)], 0)
  }

  /** `steps` is a run from `s`. */
  predicate Runs(s: State, steps: seq<Step>)
    decreases |steps|
  {
    steps == [] || (Enabled(s, steps[0]) && Runs(Next(s, steps[0]), steps[1..]))
  }

  function Run(s: State, steps: seq<Step>): State
    requires Runs(s, steps)
    decreases |steps|
  {
    if steps == [] then s else Run(Next(s, steps[0]), steps[1..])
  }
}
