/**
 The server as one connection sees it: a table of what each kind of step does to the connection's
 state, callback history, write side and map entry, and which functors it queues. The table is written
 down apart from the handlers; every step of every run follows it.
 */
module Transitions {
  import opened Bytes
  import opened PollerModel
  import opened ConnectionModel
  import opened Outcomes
  import opened ServerModel
  import opened LocalInvariant
  import opened ServerInvariant
  import opened ServerTheorems
  import opened Completion

  /** What a step means to one connection. */
  datatype Cause =
    | Nothing
    | Waits                  // accepted off the loop's thread
    | Greets                 // connectEstablished
    | Closes                 // handleClose, up to the connection callback
    | CallsBack              // its close callback
    | Unmaps                 // removeConnectionInLoop from the queue
    | Destroys               // connectDestroyed
    | Writes(n: int)         // handleWrite
    | HalfCloses             // shutdownInLoop from the queue
    | Stops                  // the user's shutdown
    | Forces                 // the user's forceClose
    | Sends(data: seq<byte>, result: WriteResult)
    | Reaps                  // the destructor

  function CauseOf(s: State, step: Step, i: nat): Cause {
    match step
    case Advance(n, _) => if s.todo == [] then Nothing else MicroCause(s.todo[0], n, i)
    case RunFunctor(_) => if s.w.q.left == [] then Nothing else JobCause(s.w.q.left[0], i)
    case User(j, call, _) => if j == i then CallCause(call) else Nothing
    case Reap(j) => if j == i then Reaps else Nothing
    case _ => Nothing
  }

  function CallCause(call: UserCall): Cause {
    match call
    case Send(data, r) => Sends(data, r)
    case CallShutdown => Stops
    case CallForceClose => Forces
    case _ => Nothing
  }

  function MicroCause(m: Micro, n: int, i: nat): Cause {
    match m
    case CloseOf(j) => if j == i then Closes else Nothing
    case ReadOf(j, _) => if j == i && n == 0 then Closes else Nothing
    case WriteOf(j) => if j == i then Writes(n) else Nothing
    case CloseCallback(j) => if j == i then CallsBack else Nothing
    case _ => Nothing
  }

  function JobCause(f: Functor, i: nat): Cause {
    if !f.OnConn? || f.conn != i then Nothing
    else
      match f.job
      case Establish => Greets
      case Unmap => Unmaps
      case Destroy => Destroys
      case Force => Closes
      case Shut => HalfCloses
      case WriteDone => Nothing
  }

  /** What the step leaves behind, and which functors of the connection it puts at the end of the queue. */
  datatype Effect = Effect(state: ConnState, log: seq<Event>, writeShut: bool, mapped: bool, queued: seq<Job>)

  /** `room`: fewer connections than the limit. `done`: there is a write-complete callback. */
  function Table(c: Conn, mapped: bool, cause: Cause, room: bool, done: bool, inLoop: bool): Effect {
    var same := Effect(c.state, c.log, c.writeShut, mapped, []);
    match cause
    case Nothing => same
    case Waits => same.(queued := [Establish])
    case Greets =>
      if room then same.(state := Connected, log := c.log + [Up])
      else if inLoop then same.(state := Disconnecting, log := c.log + [Up], writeShut := true, queued := [Force])
      else same.(state := Disconnecting, log := c.log + [Up], queued := [Shut, Force])
    case Closes => if c.state == Disconnected then same else same.(state := Disconnected, log := c.log + [Down])
    case CallsBack =>
      if inLoop then same.(log := c.log + [Closed], mapped := false, queued := [Destroy])
      else same.(log := c.log + [Closed], queued := [Unmap])
    case Unmaps => same.(mapped := false, queued := [Destroy])
    case Destroys => same.(log := c.log + [Destroyed])
    case Writes(n) =>
      if c.out == [] || n != |c.out| || !c.chan.events.write then same
      else same.(writeShut := c.writeShut || c.state == Disconnecting, queued := if done then [WriteDone] else [])
    case HalfCloses => same.(writeShut := c.writeShut || !c.chan.events.write)
    case Stops =>
      if c.state != Connected then same
      else if inLoop then same.(state := Disconnecting, writeShut := c.writeShut || !c.chan.events.write)
      else same.(state := Disconnecting, queued := [Shut])
    case Forces =>
      if c.state == Connected || c.state == Disconnecting then same.(state := Disconnecting, queued := [Force]) else same
    case Sends(data, r) =>
      if c.state != Disconnected && !c.chan.events.write && c.out == [] && r == Wrote(|data|) && done then
        same.(queued := [WriteDone])
      else same
    case Reaps => same.(log := c.log + [Freed])
  }

  function Bound(jobs: seq<Job>, i: nat): seq<Functor> {
    seq(|jobs|, k requires 0 <= k < |jobs| => OnConn(jobs[k], i))
  }

  predicate OnlyName(v: World, w: World, name: string) {
    && (forall x :: x in v.connections && x != name ==> x in w.connections && w.connections[x] == v.connections[x])
    && (forall x :: x in w.connections && x != name ==> x in v.connections)
  }

  /** A handler of one connection had this effect, and none on the functors and the map entries of others. */
  predicate Has(l: Local, m: Local, e: Effect) {
    && m.c.state == e.state && m.c.log == e.log && m.c.writeShut == e.writeShut && InMap(m.w, m.c) == e.mapped
    && m.w.q.pending == l.w.q.pending + Bound(e.queued, l.c.me)
    && m.c.me == l.c.me && m.c.name == l.c.name && OnlyName(l.w, m.w, l.c.name)
  }

  function Expected(l: Local, cause: Cause, inLoop: bool): Effect {
    Table(l.c, InMap(l.w, l.c), cause, l.w.numConnected < l.w.maxConnections, l.w.hasWriteDone, inLoop)
  }

  // ---- handlers -----------------------------------------------------------

  lemma EstablishFollows(l: Local, inLoop: bool)
    requires !l.c.chan.events.write
    ensures Has(l, ConnectEstablished(l, inLoop), Expected(l, Greets, inLoop))
  {
    hide SetEvents;
    MaskIsSet(l.w.poller, l.c.chan.(tied := true), l.c.chan.events.(read := true));
  }

  lemma CloseBeginFollows(l: Local, inLoop: bool)
    requires CanClose(l.c)
    ensures Has(l, CloseBegin(l, inLoop), Expected(l, Closes, inLoop))
  {
    hide SetEvents;
  }

  lemma RemoveFollows(l: Local, inLoop: bool)
    ensures Has(l, RemoveConnection(l, inLoop), Expected(l, CallsBack, inLoop))
    ensures Has(l, RemoveConnectionInLoop(l), Expected(l, Unmaps, inLoop))
  {
  }

  lemma DestroyFollows(l: Local, inLoop: bool)
    requires l.c.state != Connected
    ensures Has(l, ConnectDestroyed(l, inLoop), Expected(l, Destroys, inLoop))
  {
    hide Remove;
  }

  lemma WriteFollows(l: Local, n: int, inLoop: bool)
    requires n <= |l.c.out|
    ensures Has(l, HandleWrite(l, n), Expected(l, Writes(n), inLoop))
  {
    hide SetEvents;
    MaskIsSet(l.w.poller, l.c.chan, l.c.chan.events.(write := false));
  }

  lemma StopsFollow(l: Local, inLoop: bool)
    ensures Has(l, Shutdown(l, inLoop), Expected(l, Stops, inLoop))
    ensures Has(l, ForceClose(l), Expected(l, Forces, inLoop))
  {
  }

  lemma RestFollows(l: Local, inLoop: bool)
    ensures Has(l, ShutdownInLoop(l), Expected(l, HalfCloses, inLoop))
    ensures Has(l, Queued(l, Establish), Expected(l, Waits, inLoop))
    ensures Has(l, Delivered(l), Expected(l, Nothing, inLoop)) && Has(l, l, Expected(l, Nothing, inLoop))
  {
  }

  lemma SendFollows(l: Local, data: seq<byte>, r: WriteResult, inLoop: bool)
    requires r.Wrote? ==> r.n <= |data|
    ensures Has(l, SendInLoop(l, data, r), Expected(l, Sends(data, r), inLoop))
  {
    SendTouches(l, data, r);
  }

  // ---- lifting ------------------------------------------------------------

  function InLoopOf(step: Step): bool {
    match step
    case Start(b) => b
    case Advance(_, b) => b
    case RunFunctor(b) => b
    case User(_, _, b) => b
    case _ => false
  }

  /** Between `s` and `t`, this happened to connection `i`. */
  predicate Happened(s: State, t: State, i: nat, e: Effect) {
    && i < |t.conns|
    && var d := t.conns[i];
       Effect(d.state, d.log, d.writeShut, InMap(t.w, d), JobsOf(NewlyQueued(s.w.q.pending, t.w.q.pending), i)) == e
  }

  lemma {:induction false} JobsOfBound(jobs: seq<Job>, j: nat, i: nat)
    ensures JobsOf(Bound(jobs, j), i) == if i == j then jobs else []
  {
    if jobs != [] {
      assert Bound(jobs, j)[1..] == Bound(jobs[1..], j);
      JobsOfBound(jobs[1..], j, i);
    }
  }

  predicate Known(s: State) {
    forall j :: 0 <= j < |s.conns| ==> s.conns[j].me == j && s.conns[j].name == ConnName(s.w.base, j + 1)
  }

  lemma PutHappened(s: State, j: nat, m: Local, cause: Cause, inLoop: bool, i: nat)
    requires Known(s) && i < |s.conns| && j < |s.conns| && Has(At(s, j), m, Expected(At(s, j), cause, inLoop))
    ensures Happened(s, Put(s, j, m), i, Expected(At(s, i), if i == j then cause else Nothing, inLoop))
  {
    hide Table, ConnName;
    var e := Expected(At(s, j), cause, inLoop);
    assert NewlyQueued(s.w.q.pending, m.w.q.pending) == Bound(e.queued, j);
    JobsOfBound(e.queued, j, i);
    if i != j {
      if s.conns[i].name == s.conns[j].name {
        NamesDistinct(s.w.base, i + 1, j + 1);
      }
      NothingExpected(At(s, i), inLoop);
    }
  }

  lemma NothingExpected(l: Local, inLoop: bool)
    ensures Expected(l, Nothing, inLoop) == Effect(l.c.state, l.c.log, l.c.writeShut, InMap(l.w, l.c), [])
  {
  }

  /** Nothing about connections, map or queue changed. */
  lemma SameHappened(s: State, t: State, i: nat, inLoop: bool)
    requires i < |s.conns| && t.conns == s.conns && t.w.connections == s.w.connections && t.w.q.pending == s.w.q.pending
    ensures Happened(s, t, i, Expected(At(s, i), Nothing, inLoop))
  {
    assert NewlyQueued(s.w.q.pending, s.w.q.pending) == [];
  }

  lemma CloseHappened(t: State, j: nat, inLoop: bool, i: nat)
    requires Known(t) && i < |t.conns| && j < |t.conns| && (CanClose(t.conns[j]) || t.conns[j].state == Disconnected)
    ensures Happened(t, Close(t, j, inLoop), i, Expected(At(t, i), if i == j then Closes else Nothing, inLoop))
  {
    hide CloseBegin, Has;
    if CanClose(t.conns[j]) {
      CloseBeginFollows(At(t, j), inLoop);
      PutHappened(t, j, CloseBegin(At(t, j), inLoop), Closes, inLoop, i);
    } else {
      SameHappened(t, t, i, inLoop);
    }
  }

  lemma MicroHappened(t: State, m: Micro, n: int, inLoop: bool, i: nat)
    requires Known(t) && MicroEnabled(t, m, n) && i < |t.conns| && (m == AcceptRead ==> n < 0)
    requires m.CloseOf? || m.ReadOf? ==> CanClose(t.conns[m.conn]) || t.conns[m.conn].state == Disconnected
    ensures Happened(t, DoMicro(t, m, n, inLoop), i, Expected(At(t, i), MicroCause(m, n, i), inLoop))
  {
    hide Close, HandleWrite, RemoveConnection, Has, Happened, Expected, Known;
    match m
    case CloseOf(j) => CloseHappened(t, j, inLoop, i);
    case ReadOf(j, _) =>
      if n > 0 {
        RestFollows(At(t, j), inLoop);
        PutHappened(t, j, Delivered(At(t, j)), Nothing, inLoop, i);
      } else if n == 0 {
        CloseHappened(t, j, inLoop, i);
      } else {
        SameHappened(t, t, i, inLoop);
      }
    case WriteOf(j) =>
      WriteFollows(At(t, j), n, inLoop);
      PutHappened(t, j, HandleWrite(At(t, j), n), Writes(n), inLoop, i);
    case CloseCallback(j) =>
      RemoveFollows(At(t, j), inLoop);
      PutHappened(t, j, RemoveConnection(At(t, j), inLoop), CallsBack, inLoop, i);
    case Dispatch(key, r) => SameHappened(t, DoMicro(t, m, n, inLoop), i, inLoop);
    case _ => SameHappened(t, t, i, inLoop);
  }

  lemma FunctorHappened(t: State, f: Functor, inLoop: bool, i: nat)
    requires Known(t) && FunctorEnabled(t, f) && i < |t.conns|
    requires f.OnConn? && f.job == Establish ==> !t.conns[f.conn].chan.events.write
    requires f.OnConn? && f.job == Destroy ==> t.conns[f.conn].state != Connected
    requires f.OnConn? && f.job == Force ==> CanClose(t.conns[f.conn]) || t.conns[f.conn].state == Disconnected
    ensures Happened(t, DoFunctor(t, f, inLoop), i, Expected(At(t, i), JobCause(f, i), inLoop))
  {
    hide Close, ConnectEstablished, ConnectDestroyed, RemoveConnectionInLoop, ShutdownInLoop, Has, Happened, Expected, Known;
    match f
    case Listen => SameHappened(t, DoListen(t), i, inLoop);
    case OnConn(job, j) =>
      match job {
        case Establish =>
          EstablishFollows(At(t, j), inLoop);
          PutHappened(t, j, ConnectEstablished(At(t, j), inLoop), Greets, inLoop, i);
        case Unmap =>
          RemoveFollows(At(t, j), inLoop);
          PutHappened(t, j, RemoveConnectionInLoop(At(t, j)), Unmaps, inLoop, i);
        case Destroy =>
          DestroyFollows(At(t, j), inLoop);
          PutHappened(t, j, ConnectDestroyed(At(t, j), inLoop), Destroys, inLoop, i);
        case Force => CloseHappened(t, j, inLoop, i);
        case Shut =>
          RestFollows(At(t, j), inLoop);
          PutHappened(t, j, ShutdownInLoop(At(t, j)), HalfCloses, inLoop, i);
        case WriteDone => SameHappened(t, t, i, inLoop);
      }
  }

  lemma UserHappened(s: State, j: nat, call: UserCall, inLoop: bool, i: nat)
    requires Known(s) && UserEnabled(s, j, call) && i < |s.conns|
    ensures Happened(s, DoUser(s, j, call, inLoop), i, Expected(At(s, i), CauseOf(s, User(j, call, inLoop), i), inLoop))
  {
    hide SendInLoop, Shutdown, ForceClose, Referenced, Has, Happened, Expected, Known;
    StopsFollow(At(s, j), inLoop);
    match call
    case Send(data, r) =>
      SendFollows(At(s, j), data, r, inLoop);
      PutHappened(s, j, SendInLoop(At(s, j), data, r), Sends(data, r), inLoop, i);
    case CallShutdown => PutHappened(s, j, Shutdown(At(s, j), inLoop), Stops, inLoop, i);
    case CallForceClose => PutHappened(s, j, ForceClose(At(s, j)), Forces, inLoop, i);
    case _ => SameHappened(s, DoUser(s, j, call, inLoop), i, inLoop);
  }

  lemma ReapHappened(s: State, j: nat, i: nat)
    requires Enabled(s, Reap(j)) && i < |s.conns|
    ensures Happened(s, Next(s, Reap(j)), i, Expected(At(s, i), if i == j then Reaps else Nothing, false))
  {
    hide Referenced;
    assert NewlyQueued(s.w.q.pending, s.w.q.pending) == [];
  }

  /** What the handlers may rely on in a reachable state. */
  lemma Stages(s: State, i: nat)
    requires Inv(s) && i < |s.conns|
    ensures s.conns[i].state == Connecting <==> s.conns[i].log == []
    ensures s.conns[i].state == Connecting ==> s.conns[i].chan.events == NONE
    ensures s.conns[i].state == Connected ==> s.conns[i].log == [Up]
  {
    assert ShapeAt(s, i);
  }

  lemma AllKnown(s: State)
    requires Inv(s)
    ensures Known(s)
  {
  }

  lemma HeadStage(s: State)
    requires Inv(s) && s.todo != [] && (s.todo[0].CloseOf? || s.todo[0].ReadOf?)
    ensures var j := s.todo[0].conn; j < |s.conns| && (CanClose(s.conns[j]) || s.conns[j].state == Disconnected)
  {
    assert MicroOk(s, s.todo[0]);
    Stages(s, s.todo[0].conn);
  }

  lemma FunctorStage(s: State)
    requires Inv(s) && s.phase == Draining && s.todo == [] && s.w.q.left != [] && FunctorEnabled(s, s.w.q.left[0])
    requires s.w.q.left[0].OnConn?
    ensures var f := s.w.q.left[0]; var c := s.conns[f.conn];
            && (f.job == Establish ==> c.log == [])
            && (f.job == Destroy ==> |c.log| == 3)
            && (f.job == Force ==> |c.log| == 1 || |c.log| == 3)
  {
    var f := s.w.q.left[0];
    TakeKeeps(s);
    RunningStage(At(s.(w := s.w.(q := s.w.q.Take())), f.conn), f.job);
  }

  lemma StepHappened(s: State, step: Step, i: nat)
    requires Inv(s) && Enabled(s, step) && i < |s.conns|
    requires !(step.Advance? && s.todo[0] == AcceptRead && step.n >= 0)
    ensures Happened(s, Next(s, step), i, Expected(At(s, i), CauseOf(s, step, i), InLoopOf(step)))
  {
    hide Inv, DoMicro, DoFunctor, DoUser, Referenced, Happened, Table, Known;
    AllKnown(s);
    match step
    case Advance(n, inLoop) =>
      var t := s.(todo := s.todo[1..]);
      if s.todo[0].CloseOf? || s.todo[0].ReadOf? {
        HeadStage(s);
      }
      StillKnown(s, t);
      MicroHappened(t, s.todo[0], n, inLoop, i);
      HappenedSince(s, t, Next(s, step), i, MicroCause(s.todo[0], n, i), inLoop);
    case RunFunctor(inLoop) =>
      var t, f := s.(w := s.w.(q := s.w.q.Take())), s.w.q.left[0];
      StillKnown(s, t);
      if f.OnConn? {
        FunctorStage(s);
        Stages(s, f.conn);
      }
      FunctorHappened(t, f, inLoop, i);
      HappenedSince(s, t, Next(s, step), i, JobCause(f, i), inLoop);
    case User(j, call, inLoop) => UserHappened(s, j, call, inLoop, i);
    case Reap(j) => ReapHappened(s, j, i);
    case Start(inLoop) => StartHappened(s, inLoop, i);
    case SwapFunctors => SwapHappened(s, i);
    case _ => SameHappened(s, Next(s, step), i, InLoopOf(step));
  }

  lemma StillKnown(s: State, t: State)
    requires Known(s) && t.conns == s.conns && t.w.base == s.w.base
    ensures Known(t)
  {
  }

  /** Taking the head of the dispatch or of the batch changes nothing the table looks at. */
  lemma HappenedSince(s: State, t: State, u: State, i: nat, cause: Cause, inLoop: bool)
    requires i < |s.conns| && t.conns == s.conns && t.w.q.pending == s.w.q.pending
    requires t.w == s.w.(q := t.w.q)
    requires Happened(t, u, i, Expected(At(t, i), cause, inLoop))
    ensures Happened(s, u, i, Expected(At(s, i), cause, inLoop))
  {
  }

  lemma StartHappened(s: State, inLoop: bool, i: nat)
    requires i < |s.conns|
    ensures Happened(s, Next(s, Start(inLoop)), i, Expected(At(s, i), Nothing, inLoop))
  {
    if inLoop {
      SameHappened(s, DoListen(s), i, inLoop);
    } else {
      assert NewlyQueued(s.w.q.pending, s.w.q.pending + [Functor.Listen]) == [Functor.Listen];
    }
  }

  lemma SwapHappened(s: State, i: nat)
    requires Enabled(s, SwapFunctors) && i < |s.conns|
    ensures Happened(s, Next(s, SwapFunctors), i, Expected(At(s, i), Nothing, false))
  {
    assert NewlyQueued(s.w.q.pending, []) == [];
  }

  // ---- newcomers ----------------------------------------------------------

  predicate IsAccept(s: State, step: Step) {
    step.Advance? && s.todo != [] && s.todo[0] == AcceptRead && step.n >= 0
  }

  /** A connection as newConnection makes it. */
  function Newcomer(s: State, fd: int): Conn {
    NewConn(|s.conns|, s.w.base + Decimal(s.w.nextConnId), fd)
  }

  lemma ConstructedHappened(s: State, fd: int, i: nat, inLoop: bool)
    requires Inv(s) && fd !in s.open && i < |s.conns|
    ensures var u := Constructed(s, fd);
            && Known(u) && InMap(u.w, u.conns[|s.conns|])
            && Expected(At(u, i), Nothing, inLoop) == Expected(At(s, i), Nothing, inLoop)
  {
    hide ConnName;
    ConstructedNamed(s, fd);
    if s.conns[i].name == ConnName(s.w.base, s.w.nextConnId) {
      NamesDistinct(s.w.base, i + 1, s.w.nextConnId);
    }
  }

  lemma IntroducedFollows(l: Local, inLoop: bool)
    requires !l.c.chan.events.write
    ensures Has(l, Introduced(l, inLoop), Expected(l, if inLoop then Greets else Waits, inLoop))
  {
    hide Has, ConnectEstablished;
    if inLoop {
      EstablishFollows(l, inLoop);
    } else {
      RestFollows(l, inLoop);
    }
  }

  /** Accepting makes one connection more, which is greeted at once or waits for it; the others see nothing of it. */
  lemma AcceptHappened(s: State, fd: int, inLoop: bool, i: nat)
    requires Inv(s) && fd >= 0 && fd !in s.open && i <= |s.conns|
    ensures var n, t := |s.conns|, Accept(s, fd, inLoop);
            && |t.conns| == n + 1
            && var c := if i < n then s.conns[i] else Newcomer(s, fd);
               var mapped := i < n ==> InMap(s.w, s.conns[i]);
               Happened(s, t, i, Table(c, mapped, if i < n then Nothing else if inLoop then Greets else Waits,
                                       s.w.numConnected < s.w.maxConnections, s.w.hasWriteDone, inLoop))
  {
    hide Inv, Has, Happened, Table, NewConn, ConnName, Introduced;
    var n, u := |s.conns|, Constructed(s, fd);
    AcceptInTwo(s, fd, inLoop);
    NewcomerAt(s, fd);
    if i < n {
      ConstructedHappened(s, fd, i, inLoop);
    } else {
      NewcomerMapped(s, fd);
    }
    IntroducedFollows(At(u, n), inLoop);
    PutHappened(u, n, Introduced(At(u, n), inLoop), if inLoop then Greets else Waits, inLoop, i);
    AfterConstruction(s, u, Put(u, n, Introduced(At(u, n), inLoop)), i,
      Expected(At(u, i), if i == n then (if inLoop then Greets else Waits) else Nothing, inLoop));
  }

  lemma NewcomerAt(s: State, fd: int)
    ensures var u := Constructed(s, fd); u.conns[|s.conns|] == Newcomer(s, fd) && !Newcomer(s, fd).chan.events.write
    ensures forall i :: 0 <= i < |s.conns| ==> Constructed(s, fd).conns[i] == s.conns[i]
  {
  }

  lemma NewcomerMapped(s: State, fd: int)
    requires Inv(s) && fd !in s.open
    ensures var u := Constructed(s, fd); Known(u) && InMap(u.w, u.conns[|s.conns|])
  {
    ConstructedNamed(s, fd);
  }

  lemma AfterConstruction(s: State, u: State, t: State, i: nat, e: Effect)
    requires u.w.q == s.w.q && Happened(u, t, i, e)
    ensures Happened(s, t, i, e)
  {
  }

  // ---- theorems -----------------------------------------------------------

  /** In every run, every step does to every connection exactly what the table says. */
  lemma FollowsTable(s: State, steps: seq<Step>, step: Step, i: nat)
    requires Initial(s) && Runs(s, steps) && Enabled(Run(s, steps), step) && i < |Run(s, steps).conns|
    ensures var t := Run(s, steps); var u := Next(t, step);
            var room := t.w.numConnected < t.w.maxConnections;
            && i < |u.conns|
            && var d := u.conns[i];
               Effect(d.state, d.log, d.writeShut, InMap(u.w, d), JobsOf(QueuedBy(t, step), i))
                 == Table(t.conns[i], InMap(t.w, t.conns[i]), CauseOf(t, step, i), room, t.w.hasWriteDone, InLoopOf(step))
  {
    hide Inv, Initial, Runs, Run, Table, CauseOf;
    Reached(s, steps);
    ExistingFollow(Run(s, steps), step, i);
  }

  lemma Popped(t: State)
    requires Inv(t) && t.todo != [] && t.todo[0] == AcceptRead
    ensures Inv(t.(todo := t.todo[1..]))
  {
    PopKeeps(t);
  }

  lemma ExistingFollow(t: State, step: Step, i: nat)
    requires Inv(t) && Enabled(t, step) && i < |t.conns|
    ensures Happened(t, Next(t, step), i, Expected(At(t, i), CauseOf(t, step, i), InLoopOf(step)))
  {
    hide Inv, Accept, Happened, Table;
    if IsAccept(t, step) {
      var p := t.(todo := t.todo[1..]);
      Popped(t);
      AcceptHappened(p, step.n, step.inLoop, i);
      HappenedSince(t, p, Next(t, step), i, Nothing, step.inLoop);
    } else {
      StepHappened(t, step, i);
    }
  }

  /**
   And connections come into being by accepting a descriptor only, one at a time: named after the next
   number, in the map, and from there on as the table says, established at once or waiting for it.
   */
  lemma NewcomersFollowTable(s: State, steps: seq<Step>, step: Step)
    requires Initial(s) && Runs(s, steps) && Enabled(Run(s, steps), step)
    ensures var t := Run(s, steps); var u, n := Next(t, step), |t.conns|;
            var room := t.w.numConnected < t.w.maxConnections;
            && (|u.conns| != n <==> IsAccept(t, step))
            && (IsAccept(t, step) ==>
              && |u.conns| == n + 1
              && var d := u.conns[n];
                 && d.me == n && d.name == t.w.base + Decimal(t.w.nextConnId) && d.chan.fd == step.n
                 && u.w.nextConnId == t.w.nextConnId + 1
                 && Effect(d.state, d.log, d.writeShut, InMap(u.w, d), JobsOf(QueuedBy(t, step), n))
                      == Table(Newcomer(t, step.n), true, if step.inLoop then Greets else Waits, room,
                               t.w.hasWriteDone, step.inLoop))
  {
    hide Inv, Initial, Runs, Run, Table, Next, Enabled;
    Reached(s, steps);
    var t := Run(s, steps);
    if IsAccept(t, step) {
      AcceptFollows(t, step);
    } else {
      NoNewcomer(t, step);
    }
  }

  lemma NoNewcomer(t: State, step: Step)
    requires Enabled(t, step) && !IsAccept(t, step)
    ensures |Next(t, step).conns| == |t.conns|
  {
    SameConns(t, step);
  }

  lemma AcceptFollows(t: State, step: Step)
    requires Inv(t) && Enabled(t, step) && IsAccept(t, step)
    ensures var u, n := Next(t, step), |t.conns|;
            && |u.conns| == n + 1
            && u.conns[n].me == n && u.conns[n].name == t.w.base + Decimal(t.w.nextConnId) && u.conns[n].chan.fd == step.n
            && u.w.nextConnId == t.w.nextConnId + 1
            && Happened(t, u, n, Table(Newcomer(t, step.n), true, if step.inLoop then Greets else Waits,
                                       t.w.numConnected < t.w.maxConnections, t.w.hasWriteDone, step.inLoop))
  {
    hide Inv, Happened, Table, Decimal, ConnectEstablished;
    var p := t.(todo := t.todo[1..]);
    Popped(t);
    AcceptHappened(p, step.n, step.inLoop, |t.conns|);
    AcceptInTwo(p, step.n, step.inLoop);
    IntroducedNames(At(Constructed(p, step.n), |t.conns|), step.inLoop);
    AfterConstruction(t, p, Next(t, step), |t.conns|,
      Table(Newcomer(p, step.n), true, if step.inLoop then Greets else Waits,
            p.w.numConnected < p.w.maxConnections, p.w.hasWriteDone, step.inLoop));
  }

  lemma IntroducedNames(l: Local, inLoop: bool)
    ensures var m := Introduced(l, inLoop);
            && m.c.me == l.c.me && m.c.name == l.c.name && m.c.chan.fd == l.c.chan.fd && m.w.nextConnId == l.w.nextConnId
  {
  }

  /** The acceptor listens once a start has run on the loop's thread, or the functor queued by another start has. */
  lemma ListensIff(s: State, step: Step)
    requires Enabled(s, step)
    ensures var t := Next(s, step);
            var started := step == Start(true) || (step.RunFunctor? && s.w.q.left[0] == Functor.Listen);
            && t.acceptor.events.read == (s.acceptor.events.read || started)
            && (step.Start? ==> QueuedBy(s, step) == if step.inLoop then [] else [Functor.Listen])
  {
    hide Referenced;
  }

  /** In every reachable state: reading is watched for while the connection is up, writing while it is up with bytes left. */
  lemma InterestIsBacklog(s: State, steps: seq<Step>, i: nat)
    requires Initial(s) && Runs(s, steps) && i < |Run(s, steps).conns|
    ensures var c := Run(s, steps).conns[i]; c.chan.events == Mask(CanClose(c), CanClose(c) && c.out != [])
  {
    hide Runs, Run, Initial;
    Reached(s, steps);
    EventsAt(Run(s, steps), i);
  }

  lemma EventsAt(s: State, i: nat)
    requires Inv(s) && i < |s.conns|
    ensures var c := s.conns[i]; c.chan.events == Mask(CanClose(c), CanClose(c) && c.out != [])
  {
    assert ShapeAt(s, i);
  }

  // ---- what is kept and what is open --------------------------------------

  /** A connection is held from the user's taking a pointer to it until the user drops that pointer. */
  lemma HeldStep(s: State, step: Step, i: nat)
    requires Enabled(s, step)
    ensures var takes := step.User? && step.conn == i && step.call.Retain?;
            var drops := step.User? && step.conn == i && step.call.Release?;
            i in Next(s, step).held <==> takes || (i in s.held && !drops)
  {
    hide Referenced;
  }

  /** Connection `i` has not been freed, and this is its descriptor. */
  predicate Owner(s: State, i: nat, fd: int) {
    i < |s.conns| && Alive(s.conns[i]) && s.conns[i].chan.fd == fd
  }

  /** The open descriptors are those of `base` and those of the connections that have not been freed. */
  ghost predicate OpenIs(s: State, base: set<int>) {
    && (forall fd :: fd in s.open <==> fd in base || exists i: nat :: Owner(s, i, fd))
    && (forall i: nat, fd :: Owner(s, i, fd) ==> fd !in base)
  }

  /** Only the destructor frees a connection, and no step changes its descriptor. */
  lemma StepFrees(s: State, step: Step, i: nat)
    requires Inv(s) && Enabled(s, step) && i < |s.conns|
    ensures var t := Next(s, step);
            && i < |t.conns| && t.conns[i].chan.fd == s.conns[i].chan.fd
            && (Alive(t.conns[i]) <==> Alive(s.conns[i]) && step != Reap(i))
  {
    hide Inv, Next, Enabled, InMap;
    ExistingFollow(s, step, i);
    StepTakes(s, step, i);
    ReapIsReap(s, step, i);
    assert Next(s, step).conns[i].log == Expected(At(s, i), CauseOf(s, step, i), InLoopOf(step)).log;
  }

  lemma ReapIsReap(s: State, step: Step, i: nat)
    ensures CauseOf(s, step, i) == Reaps <==> step == Reap(i)
  {
  }

  lemma StepOpens(s: State, step: Step)
    requires Inv(s) && Enabled(s, step)
    ensures var t := Next(s, step);
            if IsAccept(s, step) then
              && step.n !in s.open && t.open == s.open + {step.n}
              && |t.conns| == |s.conns| + 1 && t.conns[|s.conns|].chan.fd == step.n
            else
              && |t.conns| == |s.conns|
              && t.open == if step.Reap? then s.open - {s.conns[step.conn].chan.fd} else s.open
  {
    hide Inv, Referenced;
    if IsAccept(s, step) {
      AcceptFollows(s, step);
    } else {
      NoNewcomer(s, step);
    }
  }

  lemma NewcomerLives(s: State, step: Step)
    requires Inv(s) && Enabled(s, step) && IsAccept(s, step)
    ensures var t := Next(s, step); |s.conns| < |t.conns| && Alive(t.conns[|s.conns|])
  {
    hide Inv, Next, Enabled, InMap, Decimal;
    AcceptFollows(s, step);
    var e := Table(Newcomer(s, step.n), true, if step.inLoop then Greets else Waits,
                   s.w.numConnected < s.w.maxConnections, s.w.hasWriteDone, step.inLoop);
    assert Next(s, step).conns[|s.conns|].log == e.log;
  }

  /** The owners after a step: a newcomer more, or a freed connection less. */
  lemma StepOwners(s: State, step: Step, i: nat, fd: int)
    requires Inv(s) && Enabled(s, step)
    ensures Owner(Next(s, step), i, fd)
       <==> (Owner(s, i, fd) && step != Reap(i)) || (IsAccept(s, step) && i == |s.conns| && fd == step.n)
    ensures Owner(s, i, fd) && step.Reap? ==> (fd == s.conns[step.conn].chan.fd <==> step.conn == i)
  {
    hide Inv, Next, Enabled, Alive;
    StepOpens(s, step);
    if i < |s.conns| {
      StepFrees(s, step, i);
    } else if IsAccept(s, step) {
      NewcomerLives(s, step);
    }
    if step.Reap? {
      ReapedAlone(s, step.conn);
    }
  }

  lemma ReapedAlone(s: State, i: nat)
    requires Inv(s) && Enabled(s, Reap(i))
    ensures Owner(s, i, s.conns[i].chan.fd)
    ensures forall j: nat :: j < |s.conns| && j != i && Alive(s.conns[j]) ==> s.conns[j].chan.fd != s.conns[i].chan.fd
  {
  }

  lemma OpenStep(s: State, step: Step, base: set<int>)
    requires Inv(s) && Enabled(s, step) && OpenIs(s, base)
    ensures OpenIs(Next(s, step), base)
  {
    hide Inv, Next, Enabled, Owner;
    var t := Next(s, step);
    StepOpens(s, step);
    if step.Reap? {
      ReapedAlone(s, step.conn);
    }
    forall fd ensures fd in t.open <==> fd in base || exists i: nat :: Owner(t, i, fd) {
      if i: nat :| Owner(s, i, fd) {
        StepOwners(s, step, i, fd);
      }
      StepOwners(s, step, |s.conns|, fd);
      if i: nat :| Owner(t, i, fd) {
        StepOwners(s, step, i, fd);
      }
    }
    forall i: nat, fd | Owner(t, i, fd) ensures fd !in base {
      StepOwners(s, step, i, fd);
    }
  }

  lemma {:induction false} RunOpens(s: State, steps: seq<Step>, base: set<int>)
    requires Inv(s) && Runs(s, steps) && OpenIs(s, base)
    ensures OpenIs(Run(s, steps), base)
    decreases |steps|
  {
    hide Inv, Next, Enabled, OpenIs;
    if steps != [] {
      StepKeepsInv(s, steps[0]);
      OpenStep(s, steps[0], base);
      RunOpens(Next(s, steps[0]), steps[1..], base);
    }
  }

  /** In every run no descriptor leaks and none is closed early: open are the first ones and the live connections'. */
  lemma OpenExactly(s: State, steps: seq<Step>)
    requires Initial(s) && Runs(s, steps)
    ensures OpenIs(Run(s, steps), s.open)
  {
    hide Inv;
    InitInv(s);
    RunOpens(s, steps, s.open);
  }
}
