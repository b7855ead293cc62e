/**
 What holds of one connection in every reachable state, and that each handler keeps it.
 */
module LocalInvariant {
  import opened Bytes
  import opened PollerModel
  import opened ConnectionModel
  import opened ServerModel

  /** The queued functors of connection `i`, oldest first. */
  function JobsOf(fs: seq<Functor>, i: nat): seq<Job> {
    if fs == [] then []
    else (if fs[0].OnConn? && fs[0].conn == i then [fs[0].job] else []) + JobsOf(fs[1..], i)
  }

  /** Functors that leave the connection registered. */
  predicate Plain(jobs: seq<Job>) {
    forall j :: j in jobs ==> j == WriteDone || j == Force || j == Shut
  }

  /** A half-closing connection is never stuck: something will shut the write side or close it. */
  predicate Progressing(c: Conn, jobs: seq<Job>) {
    c.writeShut || c.out != [] || Shut in jobs || Force in jobs
  }

  /**
   The life of a connection as an automaton over its callback history: what state, map entry, queued
   functors and channel index go with each prefix of LIFE. `closing` says the loop thread is between
   the connection callback and the close callback of this connection's handleClose.
   */
  predicate Shape(c: Conn, inMap: bool, jobs: seq<Job>, closing: bool) {
    && c.wire + c.out == c.accepted
    && c.log <= LIFE
    && (closing <==> |c.log| == 2)
    && match |c.log|
       case 0 =>
         && c.state == Connecting && inMap && jobs == [Establish]
         && c.chan.index == New && c.chan.events == NONE && !c.chan.tied && c.out == [] && !c.writeShut
       case 1 =>
         && CanClose(c) && inMap && Plain(jobs)
         && c.chan.index == Added && c.chan.events.read && c.chan.tied
         && (c.chan.events.write <==> c.out != [])
         && (c.writeShut ==> c.state == Disconnecting && c.out == [])
         && (c.state == Connected ==> Force !in jobs && Shut !in jobs)
         && (c.state == Disconnecting ==> Progressing(c, jobs))
       case 2 =>
         c.state == Disconnected && inMap && Plain(jobs) && c.chan.index == Deleted && c.chan.events == NONE && c.chan.tied
       case 3 =>
         && c.state == Disconnected && c.chan.index == Deleted && c.chan.events == NONE && c.chan.tied
         && jobs != [] && Plain(jobs[..|jobs| - 1])
         && jobs[|jobs| - 1] == if inMap then Unmap else Destroy
       case _ =>
         c.state == Disconnected && c.chan.index == New && c.chan.events == NONE && c.chan.tied && !inMap && jobs == []
  }

  function LocalJobs(l: Local): seq<Job> {
    JobsOf(l.w.q.Unrun(), l.c.me)
  }

  predicate LocalShape(l: Local, closing: bool) {
    Shape(l.c, InMap(l.w, l.c), LocalJobs(l), closing)
  }

  function Live(c: Conn): int {
    if CanClose(c) then 1 else 0
  }

  /** A handler touched only its own connection's share of the common state. */
  ghost predicate Isolated(l: Local, m: Local) {
    && m.c.me == l.c.me && m.c.name == l.c.name && m.c.chan.key == l.c.chan.key && m.c.chan.fd == l.c.chan.fd
    && OnlyFd(l.w.poller, m.w.poller, l.c.chan) && Agrees(m.w.poller, m.c.chan)
    && m.w.q.left == l.w.q.left && m.w.q.ran == l.w.q.ran && l.w.q.pending <= m.w.q.pending
    && (forall k :: |l.w.q.pending| <= k < |m.w.q.pending| ==>
      m.w.q.pending[k].OnConn? && m.w.q.pending[k].conn == l.c.me)
    && (forall name :: name != l.c.name ==>
      && (name in m.w.connections <==> name in l.w.connections)
      && (name in l.w.connections ==> m.w.connections[name] == l.w.connections[name]))
    && (l.c.name in m.w.connections ==> m.w.connections[l.c.name] == l.c.me)
    && m.w.base == l.w.base && m.w.maxConnections == l.w.maxConnections && m.w.nextConnId == l.w.nextConnId
    && m.w.hasWriteDone == l.w.hasWriteDone
  }

  /** MyServer's counter follows the connections, and no connection becomes usable beyond the limit. */
  ghost predicate Counted(l: Local, m: Local) {
    && m.w.numConnected - l.w.numConnected == Live(m.c) - Live(l.c)
    && (m.c.state == Connected && l.c.state != Connected ==> m.w.numConnected <= m.w.maxConnections)
  }

  ghost predicate Framed(l: Local, m: Local) {
    Isolated(l, m) && Counted(l, m)
  }

  /** What a handler may rely on about the common state. */
  ghost predicate Ready(l: Local) {
    && OwnsFd(l.w.poller, l.c.chan) && Agrees(l.w.poller, l.c.chan)
    && (l.c.name in l.w.connections ==> l.w.connections[l.c.name] == l.c.me)
  }

  lemma {:induction false} JobsConcat(a: seq<Functor>, b: seq<Functor>, i: nat)
    ensures JobsOf(a + b, i) == JobsOf(a, i) + JobsOf(b, i)
  {
    if a == [] {
      assert a + b == b;
    } else {
      assert (a + b)[1..] == a[1..] + b;
      JobsConcat(a[1..], b, i);
    }
  }

  lemma {:induction false} JobsOfOthers(fs: seq<Functor>, i: nat)
    requires forall k :: 0 <= k < |fs| ==> !(fs[k].OnConn? && fs[k].conn == i)
    ensures JobsOf(fs, i) == []
  {
    if fs != [] {
      JobsOfOthers(fs[1..], i);
    }
  }

  lemma {:induction false} JobsContain(fs: seq<Functor>, i: nat, j: Job)
    ensures j in JobsOf(fs, i) <==> OnConn(j, i) in fs
  {
    if fs != [] {
      assert fs == [fs[0]] + fs[1..];
      JobsContain(fs[1..], i, j);
    }
  }

  lemma QueuedJobs(l: Local, j: Job)
    ensures LocalJobs(Queued(l, j)) == LocalJobs(l) + [j]
  {
    var f := OnConn(j, l.c.me);
    assert Queued(l, j).w.q.Unrun() == l.w.q.Unrun() + [f];
    JobsConcat(l.w.q.Unrun(), [f], l.c.me);
  }

  // ---- frames of the building blocks --------------------------------------

  lemma FramedTrans(l: Local, k: Local, m: Local)
    requires Isolated(l, k) && Isolated(k, m)
    ensures Isolated(l, m)
    ensures Counted(l, k) && Counted(k, m) ==> Counted(l, m)
  {
  }

  lemma QueuedFramed(l: Local, j: Job)
    requires Ready(l)
    ensures Framed(l, Queued(l, j)) && Ready(Queued(l, j))
  {
  }

  /** Changing the interest of a registered channel, or registering a new one. */
  lemma EventsFramed(l: Local, m: Mask)
    requires Ready(l) && (l.c.chan.index == Added || (l.c.chan.index == New && m != NONE))
    ensures var k := WithEvents(l, m);
            && Framed(l, k) && Ready(k)
            && k.w == l.w.(poller := k.w.poller)
            && k.c == l.c.(chan := l.c.chan.(events := m, index := if m == NONE then Deleted else Added))
  {
    hide SetEvents, Agrees;
    UpdateKeepsAgreementIff(l.w.poller, l.c.chan, m);
  }

  // ---- handlers keep the shape --------------------------------------------

  lemma SendKeeps(l: Local, data: seq<byte>, r: WriteResult, closing: bool)
    requires Ready(l) && LocalShape(l, closing) && l.c.log != []
    requires (r.Wrote? ==> r.n <= |data|) && (l.c.writeShut ==> r == Broken)
    ensures var m := SendInLoop(l, data, r); Framed(l, m) && LocalShape(m, closing) && m.c.log == l.c.log
  {
    if l.c.state != Disconnected && Accepts(l.c, r) {
      var direct := WritesDirectly(l.c) && r.Wrote?;
      var n := if direct then r.n else 0;
      if n == |data| {
        SendWhole(l, data, r);
      } else {
        var wire := if direct then l.c.wire + data[..n] else l.c.wire;
        assert wire == l.c.wire + data[..n];
        SendBuffers(l, data, n, wire);
      }
    }
  }

  /** The message went out whole, or was empty. */
  lemma SendWhole(l: Local, data: seq<byte>, r: WriteResult)
    requires Ready(l) && LocalShape(l, false) && Accepts(l.c, r) && l.c.log != []
    requires r.Wrote? ==> r.n <= |data|
    requires (WritesDirectly(l.c) && r == Wrote(|data|)) || data == []
    ensures var m := SendInLoop(l, data, r); Framed(l, m) && LocalShape(m, false) && m.c.log == l.c.log
  {
    var m := SendInLoop(l, data, r);
    assert data[..|data|] == data;
    QueuedFramed(l, WriteDone);
    QueuedJobs(l, WriteDone);
    assert m.c.out == l.c.out && m.c.accepted == l.c.accepted + data;
    assert m.c.wire + m.c.out == m.c.accepted by {
      assert l.c.out == [] || data == [];
      assert l.c.wire + l.c.out + data == l.c.wire + data + l.c.out;
      assert m.c.wire == l.c.wire + data;
    }
  }

  /** The buffering half of sendInLoop, after `n` bytes went out directly. */
  lemma SendBuffers(l: Local, data: seq<byte>, n: nat, wire: seq<byte>)
    requires Ready(l) && LocalShape(l, false) && |l.c.log| == 1 && !l.c.writeShut
    requires n < |data| && (n > 0 ==> WritesDirectly(l.c))
    requires wire == l.c.wire + data[..n]
    ensures var m := Buffered(l.(c := l.c.(wire := wire, accepted := l.c.accepted + data)), data[n..]);
            Framed(l, m) && LocalShape(m, false)
  {
    var k := l.(c := l.c.(wire := wire, accepted := l.c.accepted + data, out := l.c.out + data[n..]));
    EventsFramed(k, k.c.chan.events.(write := true));
    assert k.c.wire + k.c.out == k.c.accepted by {
      if n == 0 {
        assert l.c.wire + data[..n] == l.c.wire && data[n..] == data;
        assert l.c.wire + (l.c.out + data) == l.c.wire + l.c.out + data;
      } else {
        assert l.c.out == [] && l.c.wire + [] == l.c.wire;
        assert l.c.wire + data[..n] + ([] + data[n..]) == l.c.wire + (data[..n] + data[n..]);
      }
    }
  }

  lemma ShutdownKeeps(l: Local, inLoop: bool, closing: bool)
    requires Ready(l) && LocalShape(l, closing)
    ensures var m := Shutdown(l, inLoop); Framed(l, m) && LocalShape(m, closing) && m.c.log == l.c.log && Ready(m)
  {
    if l.c.state == Connected {
      QueuedJobs(l.(c := l.c.(state := Disconnecting)), Shut);
    }
  }

  lemma ForceCloseKeeps(l: Local, closing: bool)
    requires Ready(l) && LocalShape(l, closing)
    ensures var m := ForceClose(l); Framed(l, m) && LocalShape(m, closing) && m.c.log == l.c.log
  {
    if CanClose(l.c) {
      QueuedJobs(l.(c := l.c.(state := Disconnecting)), Force);
    }
  }

  lemma WriteKeeps(l: Local, n: int, closing: bool)
    requires Ready(l) && LocalShape(l, closing) && n <= |l.c.out| && l.c.log != []
    ensures var m := HandleWrite(l, n); Framed(l, m) && LocalShape(m, closing) && m.c.log == l.c.log
  {
    if l.c.chan.events.write && n > 0 {
      var l1 := l.(c := l.c.(wire := l.c.wire + l.c.out[..n], out := l.c.out[n..]));
      assert l1.c.wire + l1.c.out == l.c.accepted by {
        assert l.c.out[..n] + l.c.out[n..] == l.c.out;
        assert l1.c.wire + l1.c.out == l.c.wire + (l.c.out[..n] + l.c.out[n..]);
      }
      if l1.c.out == [] {
        var e := l1.c.chan.events.(write := false);
        EventsFramed(l1, e);
        var l2 := WithEvents(l1, e);
        QueuedFramed(l2, WriteDone);
        QueuedJobs(l2, WriteDone);
        var l3 := if l2.w.hasWriteDone then Queued(l2, WriteDone) else l2;
        assert Framed(l, l2);
        assert Framed(l2, l3);
        FramedTrans(l, l2, l3);
      }
    }
  }

  lemma CloseBeginKeeps(l: Local, inLoop: bool)
    requires Ready(l) && CanClose(l.c) && l.c.log == [Up] && l.c.chan.index == Added && l.c.chan.tied
    requires l.c.wire + l.c.out == l.c.accepted && InMap(l.w, l.c) && Plain(LocalJobs(l))
    ensures var m := CloseBegin(l, inLoop); Framed(l, m) && LocalShape(m, true) && m.c.log == l.c.log + [Down]
  {
  }

  lemma CloseCallbackKeeps(l: Local, inLoop: bool)
    requires Ready(l) && LocalShape(l, true)
    ensures var m := RemoveConnection(l, inLoop); Framed(l, m) && LocalShape(m, false) && m.c.log == l.c.log + [Closed]
  {
    assert l.c.log == [Up, Down];
    QueuedJobs(l, Unmap);
    QueuedJobs(l, Destroy);
  }

  /** `jobs` has lost its oldest entry `j`, which is about to run. */
  ghost predicate Running(l: Local, j: Job) {
    Shape(l.c, InMap(l.w, l.c), [j] + LocalJobs(l), false)
  }

  /** Which functors can be at the head of a connection's queue at which point of its life. */
  lemma RunningStage(l: Local, j: Job)
    requires Running(l, j)
    ensures j == Establish ==> l.c.log == [] && LocalJobs(l) == []
    ensures j == Unmap || j == Destroy ==> |l.c.log| == 3 && LocalJobs(l) == [] && (InMap(l.w, l.c) <==> j == Unmap)
    ensures j == WriteDone || j == Force || j == Shut ==> |l.c.log| == 1 || (|l.c.log| == 3 && LocalJobs(l) != [])
  {
    var jobs := [j] + LocalJobs(l);
    assert jobs[0] == j && jobs[0] in jobs && jobs[1..] == LocalJobs(l);
    if |l.c.log| == 3 && LocalJobs(l) != [] {
      var front := jobs[..|jobs| - 1];
      assert front[0] == j && front[0] in front;
    }
  }

  /** connectEstablished up to the moment the connection is counted. */
  function Greeted(l: Local): Local {
    var l1 := WithEvents(l.(c := l.c.(state := Connected, chan := l.c.chan.(tied := true))), l.c.chan.events.(read := true));
    l1.(w := l1.w.(numConnected := l1.w.numConnected + 1), c := l1.c.(log := l1.c.log + [Up]))
  }

  lemma GreetedKeeps(l: Local)
    requires Ready(l) && Running(l, Establish)
    ensures var m := Greeted(l);
            && Isolated(l, m) && Ready(m) && LocalShape(m, false) && m.c.log == l.c.log + [Up] && m.c.state == Connected
            && m.w.numConnected == l.w.numConnected + 1 && Live(l.c) == 0
  {
    RunningStage(l, Establish);
    EventsFramed(l.(c := l.c.(state := Connected, chan := l.c.chan.(tied := true))), READ);
    assert l.c.log == [] && [Up] <= LIFE;
    assert LocalJobs(Greeted(l)) == [];
  }

  lemma EstablishKeeps(l: Local, inLoop: bool)
    requires Ready(l) && Running(l, Establish)
    ensures var m := ConnectEstablished(l, inLoop); Framed(l, m) && LocalShape(m, false) && m.c.log == l.c.log + [Up]
  {
    GreetedKeeps(l);
    var g, m := Greeted(l), ConnectEstablished(l, inLoop);
    if g.w.numConnected > g.w.maxConnections {
      var k := Shutdown(g, inLoop);
      ShutdownKeeps(g, inLoop, false);
      ForceCloseKeeps(k, false);
      FramedTrans(g, k, m);
      FramedTrans(l, g, m);
      assert m == ForceClose(k) && m.c.state == Disconnecting;
    }
  }

  lemma UnmapKeeps(l: Local)
    requires Ready(l) && Running(l, Unmap)
    ensures var m := RemoveConnectionInLoop(l); Framed(l, m) && LocalShape(m, false) && m.c.log == l.c.log
  {
    RunningStage(l, Unmap);
    QueuedJobs(l, Destroy);
  }

  lemma DestroyKeeps(l: Local, inLoop: bool)
    requires Ready(l) && Running(l, Destroy)
    ensures var m := ConnectDestroyed(l, inLoop); Framed(l, m) && LocalShape(m, false) && m.c.log == l.c.log + [Destroyed]
  {
    RunningStage(l, Destroy);
    assert l.c.log == [Up, Down, Closed];
  }

  /** Taking a plain functor off the queue loses at most the promise that something finishes a half-close. */
  lemma PlainTaken(l: Local, j: Job)
    requires Running(l, j) && (j == WriteDone || j == Force || j == Shut)
    ensures |l.c.log| == 1 ==>
              CanClose(l.c) && InMap(l.w, l.c) && Plain(LocalJobs(l)) && (l.c.state == Connected ==> j == WriteDone)
    ensures |l.c.log| == 3 || j == WriteDone || l.c.state == Connected || Progressing(l.c, LocalJobs(l)) ==>
              LocalShape(l, false)
  {
    RunningStage(l, j);
    if |l.c.log| == 3 {
      PlainTakenLate(l, j);
    } else {
      var jobs, rest := [j] + LocalJobs(l), LocalJobs(l);
      assert jobs[0] == j && jobs[0] in jobs && jobs[1..] == rest;
      assert forall x :: x in rest ==> x in jobs;
      assert forall x :: x in jobs ==> x == j || x in rest;
    }
  }

  lemma PlainTakenLate(l: Local, j: Job)
    requires Running(l, j) && |l.c.log| == 3 && LocalJobs(l) != []
    ensures LocalShape(l, false)
  {
    var jobs, rest := [j] + LocalJobs(l), LocalJobs(l);
    var front, inner := jobs[..|jobs| - 1], rest[..|rest| - 1];
    assert front[1..] == inner;
    forall x | x in inner ensures x == WriteDone || x == Force || x == Shut {
      assert x in front[1..];
      assert x in front;
    }
    assert Plain(inner);
    assert jobs[|jobs| - 1] == rest[|rest| - 1];
  }

  lemma ShutKeeps(l: Local)
    requires Ready(l) && Running(l, Shut)
    ensures var m := ShutdownInLoop(l); Framed(l, m) && LocalShape(m, false) && m.c.log == l.c.log
  {
    PlainTaken(l, Shut);
    RunningStage(l, Shut);
  }

  lemma ForceKeeps(l: Local, inLoop: bool)
    requires Ready(l) && Running(l, Force)
    ensures !CanClose(l.c) ==> LocalShape(l, false)
    ensures CanClose(l.c) ==>
              var m := CloseBegin(l, inLoop); Framed(l, m) && LocalShape(m, true) && m.c.log == l.c.log + [Down]
  {
    PlainTaken(l, Force);
    RunningStage(l, Force);
    if CanClose(l.c) {
      assert l.c.log == [Up];
      CloseBeginKeeps(l, inLoop);
    }
  }
}
