/**
 The write-complete callback: which steps of the server queue it, out of all of them.
 */
module Completion {
  import opened Bytes
  import opened PollerModel
  import opened ConnectionModel
  import opened ServerModel
  import opened ServerInvariant
  import opened ServerTheorems

  /** The functors a step adds to the queue. */
  function QueuedBy(s: State, step: Step): seq<Functor>
    requires Enabled(s, step)
  {
    NewlyQueued(s.w.q.pending, Next(s, step).w.q.pending)
  }

  function NewlyQueued(p: seq<Functor>, q: seq<Functor>): seq<Functor> {
    if |p| <= |q| then q[|p|..] else []
  }

  /** The wire has grown, and now carries everything that was accepted. */
  predicate CatchesUp(c: Conn, d: Conn) {
    d.wire != c.wire && d.wire == d.accepted
  }

  /** An empty message that write(2) took. */
  predicate SendsNothing(s: State, step: Step, i: nat) {
    && step.User? && step.conn == i && step.call.Send? && step.call.data == [] && step.call.result.Wrote?
    && i < |s.conns| && s.conns[i].state != Disconnected && WritesDirectly(s.conns[i])
  }

  // ---- handlers that write ------------------------------------------------

  /** What a handler that may write queues. */
  predicate Notifies(l: Local, m: Local, done: bool) {
    m.w.q.pending == l.w.q.pending + if l.w.hasWriteDone && done then [OnConn(WriteDone, l.c.me)] else []
  }

  lemma WriteNotifies(l: Local, n: int)
    requires n <= |l.c.out| && l.c.wire + l.c.out == l.c.accepted
    ensures Notifies(l, HandleWrite(l, n), CatchesUp(l.c, HandleWrite(l, n).c))
  {
    hide UpdateChannel;
    var m := HandleWrite(l, n);
    if l.c.chan.events.write && n > 0 {
      assert m.c.wire == l.c.wire + l.c.out[..n] && m.c.accepted == l.c.accepted;
      assert |m.c.wire| == |m.c.accepted| <==> n == |l.c.out|;
      if n == |l.c.out| {
        assert l.c.out[..n] == l.c.out;
      }
    }
  }

  predicate SendsDirectly(l: Local, r: WriteResult) {
    l.c.state != Disconnected && WritesDirectly(l.c) && r.Wrote?
  }

  lemma SendQueues(l: Local, data: seq<byte>, r: WriteResult)
    requires r.Wrote? ==> r.n <= |data|
    ensures var m := SendInLoop(l, data, r);
            && Notifies(l, m, SendsDirectly(l, r) && r.n == |data|)
            && m.c.wire == (if SendsDirectly(l, r) then l.c.wire + data[..r.n] else l.c.wire)
            && (SendsDirectly(l, r) ==> m.c.accepted == l.c.accepted + data)
  {
    hide UpdateChannel;
  }

  lemma SendNotifies(l: Local, data: seq<byte>, r: WriteResult)
    requires (r.Wrote? ==> r.n <= |data|) && l.c.wire + l.c.out == l.c.accepted
    ensures var m := SendInLoop(l, data, r);
            Notifies(l, m, CatchesUp(l.c, m.c) || (data == [] && SendsDirectly(l, r)))
  {
    hide SendInLoop;
    SendQueues(l, data, r);
    var m := SendInLoop(l, data, r);
    if SendsDirectly(l, r) {
      assert l.c.wire + [] == l.c.wire;
      assert |m.c.wire| == |m.c.accepted| <==> r.n == |data|;
      if r.n == |data| {
        assert data[..r.n] == data;
      }
    }
  }

  // ---- handlers that do not -----------------------------------------------

  predicate Mute(l: Local, m: Local) {
    && m.c.wire == l.c.wire
    && forall f :: f in NewlyQueued(l.w.q.pending, m.w.q.pending) ==> f.OnConn? && f.job != WriteDone
  }

  lemma EstablishMute(l: Local, inLoop: bool)
    ensures Mute(l, ConnectEstablished(l, inLoop))
  {
    hide SetEvents;
  }

  lemma DestroyMute(l: Local, inLoop: bool)
    ensures Mute(l, ConnectDestroyed(l, inLoop))
  {
    hide SetEvents, Remove;
  }

  lemma ClosesMute(l: Local, inLoop: bool)
    ensures Mute(l, RemoveConnection(l, inLoop)) && Mute(l, RemoveConnectionInLoop(l))
    ensures CanClose(l.c) ==> Mute(l, CloseBegin(l, inLoop))
  {
    hide UpdateChannel;
  }

  lemma StopsMute(l: Local, inLoop: bool)
    ensures Mute(l, Shutdown(l, inLoop)) && Mute(l, ForceClose(l)) && Mute(l, ShutdownInLoop(l)) && Mute(l, Delivered(l))
  {
  }

  // ---- steps --------------------------------------------------------------

  /** From `s` to `t`, the callback of connection `i` was queued exactly if `done`, and then nothing else. */
  predicate NotifiedIff(s: State, t: State, i: nat, done: bool) {
    var added := NewlyQueued(s.w.q.pending, t.w.q.pending);
    && (OnConn(WriteDone, i) in added <==> s.w.hasWriteDone && done)
    && (OnConn(WriteDone, i) in added ==> added == [OnConn(WriteDone, i)])
  }

  lemma PutMute(s: State, j: nat, m: Local, i: nat)
    requires i < |s.conns| && j < |s.conns| && Mute(At(s, j), m)
    ensures NotifiedIff(s, Put(s, j, m), i, CatchesUp(s.conns[i], Put(s, j, m).conns[i]))
  {
  }

  lemma PutNotifies(s: State, j: nat, m: Local, done: bool, i: nat)
    requires i < |s.conns| && j < |s.conns| && s.conns[j].me == j && Notifies(At(s, j), m, done)
    ensures NotifiedIff(s, Put(s, j, m), i, i == j && done)
  {
    var p, q := s.w.q.pending, m.w.q.pending;
    assert NewlyQueued(p, q) == if s.w.hasWriteDone && done then [OnConn(WriteDone, j)] else [];
  }

  lemma MicroNotifies(t: State, m: Micro, n: int, inLoop: bool, i: nat)
    requires MicroEnabled(t, m, n) && i < |t.conns|
    requires forall j :: 0 <= j < |t.conns| ==> t.conns[j].me == j && t.conns[j].wire + t.conns[j].out == t.conns[j].accepted
    ensures var u := DoMicro(t, m, n, inLoop);
            i < |u.conns| && NotifiedIff(t, u, i, CatchesUp(t.conns[i], u.conns[i]))
  {
    hide CloseBegin, HandleWrite, RemoveConnection, ConnectEstablished, Mute;
    match m
    case CloseOf(j) => CloseNotifies(t, j, inLoop, i);
    case ReadOf(j, _) =>
      if n > 0 {
        StopsMute(At(t, j), inLoop);
        PutMute(t, j, Delivered(At(t, j)), i);
      } else {
        CloseNotifies(t, j, inLoop, i);
      }
    case WriteOf(j) =>
      WriteNotifies(At(t, j), n);
      PutNotifies(t, j, HandleWrite(At(t, j), n), CatchesUp(t.conns[j], HandleWrite(At(t, j), n).c), i);
    case CloseCallback(j) =>
      ClosesMute(At(t, j), inLoop);
      PutMute(t, j, RemoveConnection(At(t, j), inLoop), i);
    case AcceptRead =>
      if n >= 0 {
        AcceptInTwo(t, n, inLoop);
        AcceptNotifies(t, n, inLoop, i);
      }
    case _ =>
  }

  lemma CloseNotifies(t: State, j: nat, inLoop: bool, i: nat)
    requires j < |t.conns| && i < |t.conns|
    ensures var u := Close(t, j, inLoop); NotifiedIff(t, u, i, CatchesUp(t.conns[i], u.conns[i]))
  {
    hide CloseBegin, Mute;
    ClosesMute(At(t, j), inLoop);
    if CanClose(t.conns[j]) {
      PutMute(t, j, CloseBegin(At(t, j), inLoop), i);
    }
  }

  lemma AcceptNotifies(t: State, fd: int, inLoop: bool, i: nat)
    requires fd >= 0 && i < |t.conns|
    ensures var u := Constructed(t, fd); var n := |t.conns|;
            NotifiedIff(t, Put(u, n, Introduced(At(u, n), inLoop)), i, false)
  {
    var u, n := Constructed(t, fd), |t.conns|;
    if inLoop {
      EstablishMute(At(u, n), inLoop);
    }
  }

  lemma FunctorNotifies(t: State, f: Functor, inLoop: bool, i: nat)
    requires FunctorEnabled(t, f) && i < |t.conns|
    ensures var u := DoFunctor(t, f, inLoop);
            i < |u.conns| && NotifiedIff(t, u, i, CatchesUp(t.conns[i], u.conns[i]))
  {
    hide ConnectEstablished, ConnectDestroyed, RemoveConnectionInLoop, ShutdownInLoop, CloseBegin, Mute;
    match f
    case Listen =>
    case OnConn(job, j) =>
      EstablishMute(At(t, j), inLoop);
      DestroyMute(At(t, j), inLoop);
      ClosesMute(At(t, j), inLoop);
      StopsMute(At(t, j), inLoop);
      match job {
        case Establish => PutMute(t, j, ConnectEstablished(At(t, j), inLoop), i);
        case Unmap => PutMute(t, j, RemoveConnectionInLoop(At(t, j)), i);
        case Destroy => PutMute(t, j, ConnectDestroyed(At(t, j), inLoop), i);
        case Force => CloseNotifies(t, j, inLoop, i);
        case Shut => PutMute(t, j, ShutdownInLoop(At(t, j)), i);
        case WriteDone =>
      }
  }

  lemma UserNotifies(s: State, j: nat, call: UserCall, inLoop: bool, i: nat)
    requires UserEnabled(s, j, call) && i < |s.conns| && s.conns[j].me == j
    requires s.conns[j].wire + s.conns[j].out == s.conns[j].accepted
    ensures var u := DoUser(s, j, call, inLoop);
            && i < |u.conns|
            && NotifiedIff(s, u, i, CatchesUp(s.conns[i], u.conns[i]) || SendsNothing(s, User(j, call, inLoop), i))
  {
    hide SendInLoop, Shutdown, ForceClose, Mute, Referenced;
    StopsMute(At(s, j), inLoop);
    match call
    case Send(data, r) =>
      SendNotifies(At(s, j), data, r);
      var m := SendInLoop(At(s, j), data, r);
      PutNotifies(s, j, m, CatchesUp(s.conns[j], m.c) || (data == [] && SendsDirectly(At(s, j), r)), i);
    case CallShutdown => PutMute(s, j, Shutdown(At(s, j), inLoop), i);
    case CallForceClose => PutMute(s, j, ForceClose(At(s, j)), i);
    case _ =>
  }

  lemma WholeWires(s: State)
    requires Inv(s)
    ensures forall j :: 0 <= j < |s.conns| ==> s.conns[j].me == j && s.conns[j].wire + s.conns[j].out == s.conns[j].accepted
  {
    forall j | 0 <= j < |s.conns| ensures s.conns[j].me == j && s.conns[j].wire + s.conns[j].out == s.conns[j].accepted {
      assert ShapeAt(s, j);
    }
  }

  lemma StepNotifies(s: State, step: Step, i: nat)
    requires Inv(s) && Enabled(s, step) && i < |s.conns|
    ensures var t := Next(s, step);
            i < |t.conns| && NotifiedIff(s, t, i, CatchesUp(s.conns[i], t.conns[i]) || SendsNothing(s, step, i))
  {
    hide Inv, DoMicro, DoFunctor, DoUser, Referenced;
    WholeWires(s);
    match step
    case Advance(n, inLoop) => MicroNotifies(s.(todo := s.todo[1..]), s.todo[0], n, inLoop, i);
    case RunFunctor(inLoop) => FunctorNotifies(s.(w := s.w.(q := s.w.q.Take())), s.w.q.left[0], inLoop, i);
    case User(j, call, inLoop) => UserNotifies(s, j, call, inLoop, i);
    case _ =>
  }

  /**
   Of all the steps the server can take, the write-complete callback of a connection is queued by
   exactly those, once each, after which every accepted byte is on the wire and was not before; and by
   a send of an empty message that write(2) took.
   */
  lemma WriteCompletion(s: State, steps: seq<Step>, step: Step, i: nat)
    requires Initial(s) && Runs(s, steps) && Enabled(Run(s, steps), step) && i < |Run(s, steps).conns|
    ensures var t := Run(s, steps); var u := Next(t, step);
            && i < |u.conns|
            && (OnConn(WriteDone, i) in QueuedBy(t, step) <==>
              t.w.hasWriteDone && (CatchesUp(t.conns[i], u.conns[i]) || SendsNothing(t, step, i)))
            && (OnConn(WriteDone, i) in QueuedBy(t, step) ==> QueuedBy(t, step) == [OnConn(WriteDone, i)])
  {
    hide Inv, Next, Enabled;
    Reached(s, steps);
    StepNotifies(Run(s, steps), step, i);
  }
}
