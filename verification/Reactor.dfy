/**
 The reactor's classes, method by method as in the source, each proved to do to its fields exactly
 what the corresponding function of PollerModel, ConnectionModel and FunctorQueue does to their
 values. The kernel's answers and the answer of isInLoopThread are parameters.
 */
module Reactor {
  import opened Bytes
  import opened FunctorQueue
  import PM = PollerModel
  import CM = ConnectionModel
  import BM = BatchModel
  import opened Outcomes
  import opened BufferClass

  const NONE_EVENT: bv16 := 0
  const READ_EVENT: bv16 := 0x3     // EPOLLIN | EPOLLPRI
  const WRITE_EVENT: bv16 := 0x4    // EPOLLOUT

  const EPOLLIN: bv16 := 0x1
  const EPOLLPRI: bv16 := 0x2
  const EPOLLOUT: bv16 := 0x4
  const EPOLLERR: bv16 := 0x8
  const EPOLLHUP: bv16 := 0x10
  const EPOLLRDHUP: bv16 := 0x2000

  class Channel {
    const key: PM.ChanKey
    const fd: int
    var events: bv16
    var revents: bv16                // what the last poll reported
    var index: PM.Index
    var tied: bool

    constructor (key: PM.ChanKey, fd: int)
      ensures Valid() && View() == PM.Chan(key, fd, PM.NONE, PM.New, false)
    {
      this.key, this.fd := key, fd;
      events, revents, index, tied := NONE_EVENT, 0, PM.New, false;
    }

    ghost predicate Valid()
      reads this
    {
      events == 0 || events == READ_EVENT || events == WRITE_EVENT || events == 0x7
    }

    function View(): PM.Chan
      reads this
    {
      PM.Chan(key, fd, PM.Mask(IsReading(), IsWriting()), index, tied)
    }

    predicate IsWriting()
      reads this
    {
      events & WRITE_EVENT != 0
    }

    predicate IsReading()
      reads this
    {
      events & READ_EVENT != 0
    }

    predicate IsNoneEvent()
      reads this
      ensures Valid() ==> (IsNoneEvent() <==> View().events == PM.NONE)
    {
      events == NONE_EVENT
    }

    method EnableReading(poller: Poller)
      requires Valid() && poller.Knows(this)
      modifies this`events, this`index, poller
      ensures Valid() && poller.Knows(this) && poller.OnlyGains(this)
      ensures (poller.View(), View()) == PM.SetEvents(old(poller.View()), old(View()), old(View()).events.(read := true))
    {
      events := events | READ_EVENT;
      poller.UpdateChannel(this);
    }

    method EnableWriting(poller: Poller)
      requires Valid() && poller.Knows(this)
      modifies this`events, this`index, poller
      ensures Valid() && poller.Knows(this) && poller.OnlyGains(this)
      ensures (poller.View(), View()) == PM.SetEvents(old(poller.View()), old(View()), old(View()).events.(write := true))
    {
      events := events | WRITE_EVENT;
      poller.UpdateChannel(this);
    }

    method DisableWriting(poller: Poller)
      requires Valid() && poller.Knows(this)
      modifies this`events, this`index, poller
      ensures Valid() && poller.Knows(this) && poller.OnlyGains(this)
      ensures (poller.View(), View()) == PM.SetEvents(old(poller.View()), old(View()), old(View()).events.(write := false))
    {
      events := events & !WRITE_EVENT;
      poller.UpdateChannel(this);
    }

    method DisableAll(poller: Poller)
      requires Valid() && poller.Knows(this)
      modifies this`events, this`index, poller
      ensures Valid() && poller.Knows(this) && poller.OnlyGains(this)
      ensures (poller.View(), View()) == PM.SetEvents(old(poller.View()), old(View()), PM.NONE)
    {
      events := NONE_EVENT;
      poller.UpdateChannel(this);
    }

    method Remove(poller: Poller)
      requires Valid() && poller.Knows(this)
      modifies this`index, poller
      ensures Valid() && poller.Knows(this) && poller.OnlyGains(this)
      ensures (poller.View(), View()) == PM.Remove(old(poller.View()), old(View()))
    {
      if IsNoneEvent() {
        poller.RemoveChannel(this);
      }
    }
  }

  /** `epoll_event`: the pointer the kernel was given and the bits it reports. */
  datatype EpollEvent = EpollEvent(ptr: Channel, events: bv16)

  class Poller {
    var channels: map<int, Channel>
    var epoll: map<int, PM.Reg>      // the kernel's side
    var failed: nat

    constructor ()
      ensures View() == PM.Poller(map[], map[], 0)
    {
      channels, epoll, failed := map[], map[], 0;
    }

    function View(): PM.Poller
      reads this
    {
      PM.Poller(map fd | fd in channels :: channels[fd].key, epoll, failed)
    }

    /** A key stands for one channel object: no other channel in the table bears it. */
    ghost predicate Knows(ch: Channel)
      reads this
    {
      forall fd :: fd in channels && channels[fd].key == ch.key ==> channels[fd] == ch
    }

    /** No channel object but `ch` is new in the table. */
    twostate predicate OnlyGains(ch: Channel)
      reads this
    {
      forall fd :: fd in channels ==>
        channels[fd] == ch || (fd in old(channels) && channels[fd] == old(channels)[fd])
    }

    /**
     fillActiveChannels: every reported channel gets the bits reported for it, and the channels are to
     be dispatched in the order reported. epoll_wait reports a channel once.
     */
    method FillActiveChannels(events: seq<EpollEvent>, activeChannels: seq<Channel>) returns (active: seq<Channel>)
      requires forall j, k :: 0 <= j < k < |events| ==> events[j].ptr != events[k].ptr
      modifies (set e | e in events :: e.ptr)`revents
      ensures |active| == |activeChannels| + |events| && active[..|activeChannels|] == activeChannels
      ensures forall k :: 0 <= k < |events| ==>
                active[|activeChannels| + k] == events[k].ptr && events[k].ptr.revents == events[k].events
    {
      active := activeChannels;
      for i := 0 to |events|
        invariant |active| == |activeChannels| + i && active[..|activeChannels|] == activeChannels
        invariant forall k :: 0 <= k < i ==>
                    active[|activeChannels| + k] == events[k].ptr && events[k].ptr.revents == events[k].events
      {
        var channel := events[i].ptr;
        channel.revents := events[i].events;
        active := active + [channel];
      }
    }

    /**
     Poller::update. epoll_ctl refuses to add a descriptor it watches and to change or drop one it
     does not; otherwise it registers the channel with its current mask, or forgets the descriptor.
     */
    method Update(op: PM.Ctl, ch: Channel)
      modifies this`epoll, this`failed
      ensures View() == PM.EpollCtl(old(View()), op, ch.View())
      ensures failed == old(failed) + if op.Add? <==> ch.fd in old(epoll) then 1 else 0
      ensures failed > old(failed) ==> epoll == old(epoll)
      ensures failed == old(failed) ==>
                && (ch.fd in epoll <==> !op.Del?)
                && (ch.fd in epoll ==> epoll[ch.fd] == PM.Reg(ch.key, ch.View().events))
      ensures forall fd :: fd != ch.fd ==>
                (fd in epoll <==> fd in old(epoll)) && (fd in epoll ==> epoll[fd] == old(epoll)[fd])
    {
      var event := PM.Reg(ch.key, ch.View().events);
      match op
      case Add =>
        if ch.fd in epoll { failed := failed + 1; } else { epoll := epoll[ch.fd := event]; }
      case Mod =>
        if ch.fd !in epoll { failed := failed + 1; } else { epoll := epoll[ch.fd := event]; }
      case Del =>
        if ch.fd !in epoll { failed := failed + 1; } else { epoll := epoll - {ch.fd}; }
    }

    method UpdateChannel(ch: Channel)
      requires ch.Valid() && Knows(ch)
      modifies this, ch`index
      ensures Knows(ch) && OnlyGains(ch)
      ensures (View(), ch.View()) == PM.UpdateChannel(old(View()), old(ch.View()))
    {
      ghost var before := View();
      if ch.index == PM.New || ch.index == PM.Deleted {
        if ch.index == PM.New {
          if ch.fd !in channels {
            channels := channels[ch.fd := ch];
            assert View().channels == before.channels[ch.fd := ch.key];
          }
        } else {
          if ch.fd in channels && channels[ch.fd] == ch {
            return;
          }
        }
        Update(PM.Add, ch);
        ch.index := PM.Added;
      } else {
        if ch.fd in channels && channels[ch.fd] == ch {
          if ch.IsNoneEvent() {
            Update(PM.Del, ch);
            ch.index := PM.Deleted;
          } else {
            Update(PM.Mod, ch);
          }
        }
      }
    }

    method RemoveChannel(ch: Channel)
      requires ch.Valid() && Knows(ch)
      modifies this, ch`index
      ensures Knows(ch) && OnlyGains(ch)
      ensures (View(), ch.View()) == PM.RemoveChannel(old(View()), old(ch.View()))
    {
      ghost var before := View();
      if ch.fd in channels && channels[ch.fd] == ch {
        if ch.IsNoneEvent() {
          if ch.index == PM.Added || ch.index == PM.Deleted {
            channels := channels - {ch.fd};
            assert View().channels == before.channels - {ch.fd};
            if ch.index == PM.Added {
              Update(PM.Del, ch);
            }
            ch.index := PM.New;
          }
        }
      }
    }
  }

  /** Queued functors, bound to connection objects. */
  datatype Task = OnConn(job: CM.Job, conn: TcpConnection) | Listen(acceptor: Acceptor)
  {
    function View(): CM.Functor {
      match this
      case OnConn(job, conn) => CM.OnConn(job, conn.id)
      case Listen(_) => CM.Listen
    }
  }

  function ViewAll(ts: seq<Task>): seq<CM.Functor> {
    seq(|ts|, k requires 0 <= k < |ts| => ts[k].View())
  }

  class EventLoop {
    const poller: Poller
    var pendingFunctors: seq<Task>
    var ran: seq<Task>               // doPendingFunctors' local vector, split at the running functor
    var left: seq<Task>
    var callingPendingFunctors: bool
    var eventfd: nat                 // what has been written to wakeupFd_ and not read

    constructor (poller: Poller)
      ensures this.poller == poller && Queue() == FunctorQueue.Queue([], [], []) && eventfd == 0
    {
      this.poller := poller;
      pendingFunctors, ran, left, callingPendingFunctors, eventfd := [], [], [], false, 0;
    }

    function Queue(): FunctorQueue.Queue<CM.Functor>
      reads this
    {
      FunctorQueue.Queue(ViewAll(pendingFunctors), ViewAll(ran), ViewAll(left))
    }

    /** Only functors of `conn` were queued, and nothing else about the queue changed. */
    twostate predicate Extended(conn: TcpConnection)
      reads this
    {
      && ran == old(ran) && left == old(left) && callingPendingFunctors == old(callingPendingFunctors)
      && |old(pendingFunctors)| <= |pendingFunctors|
      && (forall k :: 0 <= k < |old(pendingFunctors)| ==> pendingFunctors[k] == old(pendingFunctors)[k])
      && (forall k :: |old(pendingFunctors)| <= k < |pendingFunctors| ==>
        pendingFunctors[k].OnConn? && pendingFunctors[k].conn == conn)
    }

    /** `inLoop` is what isInLoopThread answers. */
    method QueueInLoop(cb: Task, inLoop: bool)
      modifies this`pendingFunctors, this`eventfd
      ensures Queue() == old(Queue()).Push(cb.View()) && pendingFunctors == old(pendingFunctors) + [cb]
      ensures eventfd == old(eventfd) + if !inLoop || callingPendingFunctors then 1 else 0
    {
      pendingFunctors := pendingFunctors + [cb];
      if !inLoop || callingPendingFunctors {
        Wakeup();
      }
    }

    method Wakeup()
      modifies this`eventfd
      ensures eventfd == old(eventfd) + 1
    {
      eventfd := eventfd + 1;
    }

    /** EventLoop::handleRead resets the counter. */
    method HandleRead()
      modifies this`eventfd
      ensures eventfd == 0
    {
      eventfd := 0;
    }

    /** `functors[i]()`. */
    method RunTask(ghost server: TcpServer, ghost objs: seq<TcpConnection>, task: Task, inLoop: bool)
      requires server.loop == this && server.Sound(objs) && server.TaskOk(objs, task)
      modifies server.Parts(objs)
      ensures server.Sound(objs) && server.SameArrays(objs)
      ensures ran == old(ran) && left == old(left) && callingPendingFunctors == old(callingPendingFunctors)
      ensures server.Whole(objs) == BM.Perform(old(server.Whole(objs)), task.View(), inLoop)
    {
      hide BM.Perform;
      match task
      case OnConn(job, conn) => RunOnConn(server, objs, job, conn, inLoop);
      case Listen(acceptor) => RunListen(server, objs, acceptor, inLoop);
    }

    method RunOnConn(ghost server: TcpServer, ghost objs: seq<TcpConnection>, job: CM.Job, conn: TcpConnection, inLoop: bool)
      requires server.loop == this && server.Sound(objs) && server.TaskOk(objs, OnConn(job, conn))
      modifies server.Parts(objs)
      ensures server.Sound(objs) && server.SameArrays(objs)
      ensures ran == old(ran) && left == old(left) && callingPendingFunctors == old(callingPendingFunctors)
      ensures server.Whole(objs) == BM.Perform(old(server.Whole(objs)), CM.OnConn(job, conn.id), inLoop)
    {
      hide BM.Performed, ViewAll, TcpServer.Whole, TcpServer.Views;
      server.Disjoint(objs, conn);
      server.WholeAt(objs, conn);
      conn.RunJob(job, inLoop);
      assert server.Untouched(objs, conn);
      conn.Ran(objs);
    }

    method RunListen(ghost server: TcpServer, ghost objs: seq<TcpConnection>, acceptor: Acceptor, inLoop: bool)
      requires server.loop == this && server.Sound(objs) && acceptor == server.acceptor
      modifies server.Parts(objs)
      ensures server.Sound(objs) && server.SameArrays(objs)
      ensures ran == old(ran) && left == old(left) && callingPendingFunctors == old(callingPendingFunctors)
      ensures server.Whole(objs) == BM.Perform(old(server.Whole(objs)), CM.Listen, inLoop)
    {
      hide BM.Listening, Listening;
      acceptor.Listen();
      assert server.Untouched(objs, null);
      server.Listened(objs);
    }

    /** `functors.swap(pendingFunctors_)`. */
    method SwapTasks(ghost server: TcpServer, ghost objs: seq<TcpConnection>)
      requires server.loop == this && server.Sound(objs)
      modifies this`pendingFunctors, this`ran, this`left, this`callingPendingFunctors
      ensures server.Sound(objs) && ran == [] && left == old(pendingFunctors) && callingPendingFunctors
      ensures server.Whole(objs) == BM.WithQueue(old(server.Whole(objs)), old(Queue()).Swap())
    {
      callingPendingFunctors := true;
      ran, left, pendingFunctors := [], pendingFunctors, [];
      assert server.Untouched(objs, null);
      server.QueueMoved(objs);
    }

    /** The next functor of the batch. */
    method TakeTask(ghost server: TcpServer, ghost objs: seq<TcpConnection>) returns (task: Task)
      requires server.loop == this && server.Sound(objs) && left != []
      modifies this`ran, this`left
      ensures server.Sound(objs) && left == old(left)[1..] && task == old(left)[0] && server.TaskOk(objs, task)
      ensures server.Whole(objs) == BM.WithQueue(old(server.Whole(objs)), old(Queue()).Take())
    {
      task := left[0];
      TakeViews(ran, left);
      ran, left := ran + [task], left[1..];
      assert server.Untouched(objs, null);
      server.QueueMoved(objs);
    }

    /** The local vector goes out of scope. */
    method ReleaseTasks(ghost server: TcpServer, ghost objs: seq<TcpConnection>)
      requires server.loop == this && server.Sound(objs)
      modifies this`ran, this`left, this`callingPendingFunctors
      ensures server.Sound(objs) && ran == [] && left == [] && !callingPendingFunctors
      ensures server.Whole(objs) == BM.WithQueue(old(server.Whole(objs)), old(Queue()).Release())
    {
      callingPendingFunctors := false;
      ran, left := [], [];
      assert server.Untouched(objs, null);
      server.QueueMoved(objs);
    }

    /** One turn of the loop over the batch. */
    method RunNext(ghost server: TcpServer, ghost objs: seq<TcpConnection>, inLoop: bool)
      requires server.loop == this && server.Sound(objs) && left != []
      modifies server.Parts(objs)
      ensures server.Sound(objs) && server.SameArrays(objs)
      ensures ViewAll(left) == ViewAll(old(left))[1..] && |left| < |old(left)|
      ensures var x := old(server.Whole(objs));
              server.Whole(objs) == BM.Perform(BM.WithQueue(x, x.w.q.Take()), ViewAll(old(left))[0], inLoop)
    {
      hide BM.Perform, TcpServer.Parts, TcpServer.Sound, TcpServer.Whole;
      TakeViews(ran, left);
      var task := TakeTask(server, objs);
      RunTask(server, objs, task, inLoop);
    }

    /** The loop over the batch. */
    method RunBatch(ghost server: TcpServer, ghost objs: seq<TcpConnection>, inLoop: bool)
      requires server.loop == this && server.Sound(objs)
      modifies server.Parts(objs)
      ensures server.Sound(objs) && left == []
      ensures server.Whole(objs) == old(BM.PerformAll(server.Whole(objs), ViewAll(left), inLoop))
    {
      hide BM.Perform, BM.WithQueue, BM.PerformAll, TcpServer.Parts, TcpServer.Sound, TcpServer.Whole;
      while left != []
        invariant server.Sound(objs) && server.SameArrays(objs)
        invariant BM.PerformAll(server.Whole(objs), ViewAll(left), inLoop)
               == old(BM.PerformAll(server.Whole(objs), ViewAll(left), inLoop))
        decreases |left|
      {
        BM.PerformAllStep(server.Whole(objs), ViewAll(left), inLoop);
        RunNext(server, objs, inLoop);
      }
      BM.PerformNone(server.Whole(objs), inLoop);
    }

    /**
     Swap, run the batch, let it go. The outcome is the batch performed once and in order on the state
     found; what the functors queue is left for the next drain.
     */
    method DoPendingFunctors(ghost server: TcpServer, ghost objs: seq<TcpConnection>, inLoop: bool)
      requires server.loop == this && server.Sound(objs)
      modifies server.Parts(objs)
      ensures server.Sound(objs) && ran == [] && left == [] && !callingPendingFunctors
      ensures server.Whole(objs) == BM.Drain(old(server.Whole(objs)), inLoop)
    {
      hide BM.Perform, BM.PerformAll;
      SwapTasks(server, objs);
      RunBatch(server, objs, inLoop);
      ReleaseTasks(server, objs);
    }
  }

  lemma TakeViews(ran: seq<Task>, left: seq<Task>)
    requires left != []
    ensures ViewAll(ran + [left[0]]) == ViewAll(ran) + [ViewAll(left)[0]] && ViewAll(left[1..]) == ViewAll(left)[1..]
  {
  }

  function Listening(p: PM.Poller, ch: PM.Chan): (PM.Poller, PM.Chan) {
    PM.SetEvents(p, ch, ch.events.(read := true))
  }

  class Acceptor {
    const loop: EventLoop
    const acceptChannel: Channel

    constructor (loop: EventLoop, fd: int)
      ensures this.loop == loop && fresh(acceptChannel) && acceptChannel.Valid()
      ensures acceptChannel.View() == PM.Chan(PM.AcceptChan, fd, PM.NONE, PM.New, false)
    {
      this.loop := loop;
      acceptChannel := new Channel(PM.AcceptChan, fd);
    }

    method Listen()
      requires acceptChannel.Valid() && loop.poller.Knows(acceptChannel)
      modifies acceptChannel, loop.poller
      ensures acceptChannel.Valid() && loop.poller.Knows(acceptChannel) && loop.poller.OnlyGains(acceptChannel)
      ensures (loop.poller.View(), acceptChannel.View())
           == Listening(old(loop.poller.View()), old(acceptChannel.View()))
    {
      acceptChannel.EnableReading(loop.poller);
    }
  }

  class MyServer {
    var numConnected: int
    const maxConnections: int
    var flag: bool                   // no connection has become the host yet
    var hostPtr: TcpConnection?

    constructor (maxCon: int)
      ensures numConnected == 0 && maxConnections == maxCon && flag && hostPtr == null
    {
      numConnected, maxConnections, flag, hostPtr := 0, maxCon, true, null;
    }

    /** The first connection within the limit becomes the host. */
    method OnConnection(conn: TcpConnection, inLoop: bool)
      requires conn.Valid() && conn.connectionCallback == this
      modifies conn.Footprint()
      ensures conn.Valid() && conn.Contained()
      ensures conn.L() == CM.OnConnection(old(conn.L()), inLoop)
      ensures var hosts := old(conn.state) == CM.Connected && old(numConnected) < maxConnections && old(flag);
              hostPtr == (if hosts then conn else old(hostPtr)) && flag == (old(flag) && !hosts)
    {
      hide CM.Shutdown, CM.ForceClose;
      if conn.state == CM.Connected {
        conn.log := conn.log + [CM.Up];
        numConnected := numConnected + 1;
        if numConnected > maxConnections {
          conn.Shutdown(inLoop);
          conn.ForceClose(inLoop);
        } else if flag {
          flag := false;
          hostPtr := conn;
        }
      } else {
        conn.log := conn.log + [CM.Down];
        numConnected := numConnected - 1;
      }
    }
  }

  class TcpServer {
    const loop: EventLoop
    const my: MyServer
    const acceptor: Acceptor
    const base: string
    const hasWriteDone: bool
    var connections: map<string, TcpConnection>
    var nextConnId: nat

    constructor (loop: EventLoop, my: MyServer, fd: int, base: string, hasWriteDone: bool)
      ensures this.loop == loop && this.my == my && this.base == base && this.hasWriteDone == hasWriteDone
      ensures connections == map[] && nextConnId == 1
      ensures acceptor.loop == loop && fresh(acceptor.acceptChannel) && acceptor.acceptChannel.Valid()
      ensures acceptor.acceptChannel.View() == PM.Chan(PM.AcceptChan, fd, PM.NONE, PM.New, false)
    {
      this.loop, this.my, this.base, this.hasWriteDone := loop, my, base, hasWriteDone;
      acceptor := new Acceptor(loop, fd);
      connections, nextConnId := map[], 1;
    }

    /** `objs` are all the connections there have been, by number. */
    ghost predicate TaskOk(objs: seq<TcpConnection>, task: Task) {
      match task
      case OnConn(_, conn) => conn.id < |objs| && objs[conn.id] == conn
      case Listen(a) => a == acceptor
    }

    /** The objects are the server's own, share nothing they should not, and the queue is about them. */
    ghost predicate Sound(objs: seq<TcpConnection>)
      reads this, loop, loop.poller, acceptor.acceptChannel
      reads set c | c in objs :: c
      reads set c | c in objs :: c.channel
      reads set c | c in objs :: c.outputBuffer
    {
      && acceptor.loop == loop && acceptor.acceptChannel.Valid() && acceptor.acceptChannel.key == PM.AcceptChan
      && loop.poller.Knows(acceptor.acceptChannel)
      && (forall i :: 0 <= i < |objs| ==> objs[i].id == i)
      && (forall c :: c in objs ==> c.closeCallback == this && c.loop == loop && c.Valid())
      && (forall c, d :: c in objs && d in objs && c != d ==>
        c.outputBuffer != d.outputBuffer && c.outputBuffer.buffer != d.outputBuffer.buffer)
      && (forall t :: t in loop.pendingFunctors ==> TaskOk(objs, t))
      && (forall t :: t in loop.left ==> TaskOk(objs, t))
    }

    /** Everything a functor may change. */
    ghost function Parts(objs: seq<TcpConnection>): (parts: set<object>)
      reads set c | c in objs :: c.outputBuffer
      ensures {this, loop, loop.poller, my, acceptor.acceptChannel} <= parts
    {
      {this, loop, loop.poller, my, acceptor.acceptChannel}
      + (set c | c in objs :: c) + (set c | c in objs :: c.channel)
      + (set c | c in objs :: c.outputBuffer) + (set c | c in objs :: c.outputBuffer.buffer)
    }

    /** Arrays that were replaced are new ones. */
    twostate predicate SameArrays(objs: seq<TcpConnection>)
      reads set c | c in objs :: c.outputBuffer
    {
      forall o :: o in Parts(objs) && o !in old(Parts(objs)) ==> fresh(o)
    }

    ghost function Views(objs: seq<TcpConnection>): (s: seq<CM.Conn>)
      requires forall c :: c in objs ==> c.outputBuffer.Valid()
      reads set c | c in objs :: c
      reads set c | c in objs :: c.channel
      reads set c | c in objs :: c.outputBuffer
      reads set c | c in objs :: c.outputBuffer.buffer
      ensures |s| == |objs| && forall i :: 0 <= i < |objs| ==> objs[i] in objs && s[i] == objs[i].View()
      decreases |objs|
    {
      if objs == [] then []
      else
        var n := |objs| - 1;
        assert objs[n] in objs && forall c :: c in objs[..n] ==> c in objs;
        Views(objs[..n]) + [objs[n].View()]
    }

    lemma RunnableViews(objs: seq<TcpConnection>, tasks: seq<Task>)
      requires forall t :: t in tasks ==> TaskOk(objs, t)
      ensures forall f :: f in ViewAll(tasks) ==> BM.Runnable(|objs|, f)
    {
      forall k | 0 <= k < |tasks| ensures BM.Runnable(|objs|, ViewAll(tasks)[k]) {
        assert tasks[k] in tasks;
      }
    }

    /** The values behind the objects. */
    ghost function Whole(objs: seq<TcpConnection>): (x: BM.Whole)
      reads this, loop, loop.poller, my, acceptor.acceptChannel
      reads set c | c in objs :: c
      reads set c | c in objs :: c.channel
      reads set c | c in objs :: c.outputBuffer
      reads set c | c in objs :: c.outputBuffer.buffer
      requires Sound(objs)
      ensures |x.conns| == |objs| && x.w.q == loop.Queue()
      ensures forall f :: f in x.w.q.pending ==> BM.Runnable(|objs|, f)
      ensures forall f :: f in x.w.q.left ==> BM.Runnable(|objs|, f)
    {
      RunnableViews(objs, loop.pendingFunctors);
      RunnableViews(objs, loop.left);
      BM.Whole(World(), Views(objs), acceptor.acceptChannel.View())
    }

    /** No other connection and no other channel was touched. */
    twostate predicate Untouched(objs: seq<TcpConnection>, conn: TcpConnection?)
      reads set c | c in objs :: c
      reads set c | c in objs :: c.channel
      reads set c | c in objs :: c.outputBuffer
      reads set c | c in objs :: c.outputBuffer.buffer
    {
      forall d :: d in objs && d != conn && old(d.outputBuffer.Valid()) && old(d.channel.Valid()) ==>
        && d.channel.Valid() && d.outputBuffer.Valid() && d.outputBuffer.buffer == old(d.outputBuffer.buffer)
        && d.View() == old(d.View())
    }

    lemma WholeAt(objs: seq<TcpConnection>, conn: TcpConnection)
      requires Sound(objs) && conn.id < |objs| && objs[conn.id] == conn
      ensures CM.Local(Whole(objs).w, Whole(objs).conns[conn.id]) == conn.L()
    {
    }

    lemma Disjoint(objs: seq<TcpConnection>, conn: TcpConnection)
      requires Sound(objs) && conn in objs
      ensures forall d :: d in objs && d != conn ==>
        d !in conn.Footprint() && d.channel !in conn.Footprint() && d.outputBuffer !in conn.Footprint()
        && d.outputBuffer.buffer !in conn.Footprint()
      ensures acceptor.acceptChannel !in conn.Footprint() && conn.Footprint() <= Parts(objs)
    {
      forall d | d in objs && d != conn ensures d.channel !in conn.Footprint() {
        assert d.channel.key == PM.ConnChan(d.id);
      }
    }

    /** Functors moved about inside the loop leave all the objects in order. */
    twostate lemma QueueMoved(objs: seq<TcpConnection>)
      requires old(Sound(objs)) && Untouched(objs, null)
      requires acceptor.acceptChannel.Valid() && acceptor.acceptChannel.View() == old(acceptor.acceptChannel.View())
      requires loop.poller.channels == old(loop.poller.channels)
      requires World() == old(World()).(q := loop.Queue())
      requires forall t :: t in loop.pendingFunctors ==> TaskOk(objs, t)
      requires forall t :: t in loop.left ==> TaskOk(objs, t)
      ensures Sound(objs) && SameArrays(objs)
      ensures Whole(objs) == BM.WithQueue(old(Whole(objs)), loop.Queue())
    {
      assert Views(objs) == old(Views(objs));
    }

    /** Listening from the queue leaves all the objects in order. */
    twostate lemma ListenedSound(objs: seq<TcpConnection>)
      requires old(Sound(objs)) && Untouched(objs, null)
      requires loop.pendingFunctors == old(loop.pendingFunctors) && loop.left == old(loop.left)
      requires acceptor.acceptChannel.Valid() && loop.poller.Knows(acceptor.acceptChannel)
      requires loop.poller.OnlyGains(acceptor.acceptChannel)
      ensures Sound(objs) && SameArrays(objs)
    {
    }

    twostate lemma Listened(objs: seq<TcpConnection>)
      requires old(Sound(objs)) && Untouched(objs, null)
      requires loop.pendingFunctors == old(loop.pendingFunctors) && loop.left == old(loop.left)
      requires World() == old(World()).(poller := loop.poller.View())
      requires acceptor.acceptChannel.Valid() && loop.poller.Knows(acceptor.acceptChannel)
      requires loop.poller.OnlyGains(acceptor.acceptChannel)
      requires (loop.poller.View(), acceptor.acceptChannel.View())
            == Listening(old(loop.poller.View()), old(acceptor.acceptChannel.View()))
      ensures Sound(objs) && SameArrays(objs)
      ensures Whole(objs) == BM.Listening(old(Whole(objs)))
    {
      hide PM.SetEvents;
      ListenedSound(objs);
      assert Views(objs) == old(Views(objs));
    }

    /** Start listening, now or from the queue. */
    method Start(inLoop: bool)
      requires acceptor.loop == loop && acceptor.acceptChannel.Valid() && loop.poller.Knows(acceptor.acceptChannel)
      modifies acceptor.acceptChannel, loop.poller, loop`pendingFunctors, loop`eventfd
      ensures acceptor.acceptChannel.Valid() && loop.poller.Knows(acceptor.acceptChannel)
      ensures loop.Queue() == if inLoop then old(loop.Queue()) else old(loop.Queue()).Push(CM.Listen)
      ensures (loop.poller.View(), acceptor.acceptChannel.View())
           == if inLoop then Listening(old(loop.poller.View()), old(acceptor.acceptChannel.View()))
              else (old(loop.poller.View()), old(acceptor.acceptChannel.View()))
    {
      // runInLoop
      if inLoop {
        acceptor.Listen();
      } else {
        loop.QueueInLoop(Listen(acceptor), inLoop);
      }
    }

    function World(): CM.World
      reads this, loop, loop.poller, my
    {
      CM.World(loop.Queue(), loop.poller.View(), map name | name in connections :: connections[name].id,
               nextConnId, base, hasWriteDone, my.numConnected, my.maxConnections)
    }

    method RemoveConnectionInLoop(conn: TcpConnection, inLoop: bool)
      requires conn.Valid() && conn.closeCallback == this
      modifies this`connections, loop`pendingFunctors, loop`eventfd
      ensures conn.Valid() && conn.Contained()
      ensures conn.L() == CM.RemoveConnectionInLoop(old(conn.L()))
    {
      ghost var before := World().connections;
      connections := connections - {conn.name};
      assert World().connections == before - {conn.name};
      loop.QueueInLoop(OnConn(CM.Destroy, conn), inLoop);
    }

    /** The close callback. */
    method RemoveConnection(conn: TcpConnection, inLoop: bool)
      requires conn.Valid() && conn.closeCallback == this
      modifies this`connections, loop`pendingFunctors, loop`eventfd, conn`log
      ensures conn.Valid() && conn.Contained()
      ensures conn.L() == CM.RemoveConnection(old(conn.L()), inLoop)
    {
      conn.log := conn.log + [CM.Closed];
      // runInLoop
      if inLoop {
        RemoveConnectionInLoop(conn, inLoop);
      } else {
        loop.QueueInLoop(OnConn(CM.Unmap, conn), inLoop);
      }
    }

    method Register(conn: TcpConnection)
      modifies this`connections
      ensures World() == old(World()).(connections := old(World()).connections[conn.name := conn.id])
    {
      ghost var before := World().connections;
      connections := connections[conn.name := conn];
      assert World().connections == before[conn.name := conn.id];
    }

    /** The first half of newConnection: name, number, object and map entry. */
    method MakeConnection(me: nat, sockfd: int) returns (conn: TcpConnection)
      requires forall fd :: fd in loop.poller.channels ==> loop.poller.channels[fd].key != PM.ConnChan(me)
      modifies this`connections, this`nextConnId
      ensures fresh(conn) && conn.Valid() && conn.closeCallback == this
      ensures fresh(conn.channel) && fresh(conn.outputBuffer) && fresh(conn.outputBuffer.buffer)
      ensures conn.L() == CM.MakeConnection(old(World()), me, sockfd)
    {
      hide CM.ConnName, CM.Decimal, ViewAll;
      var connName := CM.ConnName(base, nextConnId);
      nextConnId := nextConnId + 1;
      ghost var before := World();
      conn := new TcpConnection(me, this, connName, sockfd);
      assert World() == before;
      Register(conn);
    }

    /** `me` names the new object apart from every other; its channel is not in the poller's table. */
    method NewConnection(me: nat, sockfd: int, inLoop: bool) returns (conn: TcpConnection)
      requires forall fd :: fd in loop.poller.channels ==> loop.poller.channels[fd].key != PM.ConnChan(me)
      modifies this, loop, loop.poller, my
      ensures fresh(conn) && conn.Valid() && conn.closeCallback == this
      ensures conn.L() == CM.NewConnection(old(World()), me, sockfd, inLoop)
    {
      hide CM.ConnectEstablished, CM.MakeConnection, CM.Queued;
      conn := MakeConnection(me, sockfd);
      conn.Introduce(inLoop);
    }
  }

  class TcpConnection {
    const id: nat
    const name: string
    const loop: EventLoop
    const channel: Channel
    const outputBuffer: Buffer
    const connectionCallback: MyServer
    const closeCallback: TcpServer
    var state: CM.ConnState
    var writeShut: bool              // socket_ has been shut down for writing
    ghost var wire: seq<byte>
    ghost var accepted: seq<byte>
    var log: seq<CM.Event>
    var heard: seq<CM.ConnState>     // the state at each message callback

    constructor (id: nat, server: TcpServer, name: string, sockfd: int)
      requires forall fd :: fd in server.loop.poller.channels ==> server.loop.poller.channels[fd].key != PM.ConnChan(id)
      ensures Valid() && fresh(channel) && fresh(outputBuffer) && fresh(outputBuffer.buffer)
      ensures closeCallback == server && this.id == id && this.name == name
      ensures View() == CM.NewConn(id, name, sockfd)
    {
      this.id, this.name := id, name;
      loop, connectionCallback, closeCallback := server.loop, server.my, server;
      channel := new Channel(PM.ConnChan(id), sockfd);
      outputBuffer := new Buffer();
      state, writeShut, wire, accepted, log, heard := CM.Connecting, false, [], [], [], [];
    }

    ghost function Footprint(): set<object>
      reads outputBuffer
    {
      {this, channel, loop, loop.poller, outputBuffer, outputBuffer.buffer, connectionCallback, closeCallback}
    }

    ghost predicate Valid()
      reads this, channel, outputBuffer, loop.poller
    {
      && channel.Valid() && channel.key == PM.ConnChan(id) && outputBuffer.Valid()
      && loop == closeCallback.loop && connectionCallback == closeCallback.my
      && loop.poller.Knows(channel)
    }

    /** What every method of this connection leaves alone: other functors, other channels, old arrays. */
    twostate predicate Contained()
      reads channel, outputBuffer, loop, loop.poller
    {
      && channel.revents == old(channel.revents)
      && (outputBuffer.buffer == old(outputBuffer.buffer) || fresh(outputBuffer.buffer))
      && loop.Extended(this) && loop.poller.OnlyGains(channel)
    }

    ghost function View(): CM.Conn
      requires outputBuffer.Valid()
      reads this, channel, outputBuffer, outputBuffer.buffer
    {
      CM.Conn(id, name, state, channel.View(), outputBuffer.Content(), writeShut, wire, accepted, log, heard)
    }

    /** This connection and the state it shares. */
    ghost function L(): CM.Local
      requires outputBuffer.Valid() && closeCallback.loop == loop && closeCallback.my == connectionCallback
      reads Footprint(), outputBuffer
    {
      CM.Local(closeCallback.World(), View())
    }

    /** `r` is what write(2) returns if it is tried. */
    method SendInLoop(data: seq<byte>, r: CM.WriteResult, inLoop: bool)
      requires Valid() && (r.Wrote? ==> r.n <= |data|)
      modifies Footprint()
      ensures Valid() && Contained()
      ensures L() == CM.SendInLoop(old(L()), data, r)
      ensures var idle := old(!channel.IsWriting() && outputBuffer.ReadableBytes() == 0);
              var up, was := old(state) != CM.Disconnected, old(outputBuffer.Content());
              && accepted == old(accepted) + (if up && !(idle && r == CM.Broken) then data else [])
              && wire == old(wire) + (if up && idle && r.Wrote? then data[..r.n] else [])
              && outputBuffer.Content() == was + (if !up || (idle && r == CM.Broken) then []
                                                  else if idle && r.Wrote? then data[r.n..] else data)
              && (outputBuffer.Content() != was ==> channel.IsWriting())
    {
      hide CM.TakenOn, CM.WrittenNow, ViewAll;
      ghost var l := L();
      SendAccounts(l, data, r);
      assert [] + data == data;
      var nwrote := 0;
      var remaining := |data|;
      var faultError := false;
      if state == CM.Disconnected {
        return;
      }
      if !channel.IsWriting() && outputBuffer.ReadableBytes() == 0 {
        assert CM.WritesDirectly(l.c);
        match r
        case Wrote(n) =>
          nwrote := n;
          remaining := |data| - n;
          NoteWritten(data, n, inLoop);
        case Refused =>
        case Broken => faultError := true;
      } else {
        assert !CM.WritesDirectly(l.c);
      }
      assert L() == if CM.WritesDirectly(l.c) && r.Wrote? then CM.WrittenNow(l, data, nwrote) else l;
      if !faultError {
        TakeOn(data, nwrote, remaining);
      }
    }

    /** The first `n` bytes of `data` went straight out. */
    method NoteWritten(data: seq<byte>, n: nat, inLoop: bool)
      requires Valid() && n <= |data|
      modifies this`wire, loop`pendingFunctors, loop`eventfd
      ensures Valid() && Contained()
      ensures L() == CM.WrittenNow(old(L()), data, n)
    {
      wire := wire + data[..n];
      if n == |data| && closeCallback.hasWriteDone {
        loop.QueueInLoop(OnConn(CM.WriteDone, this), inLoop);
      }
    }

    /** The tail of sendInLoop. */
    method TakeOn(data: seq<byte>, nwrote: nat, remaining: nat)
      requires Valid() && nwrote + remaining == |data|
      modifies this`accepted, channel, loop.poller, outputBuffer, outputBuffer.buffer
      ensures Valid() && Contained()
      ensures L() == CM.TakenOn(old(L()), data, nwrote)
    {
      accepted := accepted + data;
      if remaining > 0 {
        BufferOutput(data[nwrote..]);
      }
    }

    method BufferOutput(rest: seq<byte>)
      requires Valid()
      modifies channel, loop.poller, outputBuffer, outputBuffer.buffer
      ensures Valid() && Contained()
      ensures L() == CM.Buffered(old(L()), rest)
    {
      outputBuffer.Append(rest);
      if !channel.IsWriting() {
        channel.EnableWriting(loop.poller);
      }
    }

    method ForceClose(inLoop: bool)
      requires Valid()
      modifies this`state, loop`pendingFunctors, loop`eventfd
      ensures Valid() && Contained()
      ensures L() == CM.ForceClose(old(L()))
    {
      if state == CM.Connected || state == CM.Disconnecting {
        state := CM.Disconnecting;
        loop.QueueInLoop(OnConn(CM.Force, this), inLoop);
      }
    }

    method ForceCloseInLoop(inLoop: bool)
      requires Valid()
      modifies Footprint()
      ensures Valid() && Contained()
      ensures L() == CM.HandleClose(old(L()), inLoop)
    {
      if state == CM.Connected || state == CM.Disconnecting {
        HandleClose(inLoop);
      }
    }

    method Shutdown(inLoop: bool)
      requires Valid()
      modifies this`state, this`writeShut, loop`pendingFunctors, loop`eventfd
      ensures Valid() && Contained()
      ensures L() == CM.Shutdown(old(L()), inLoop)
    {
      if state == CM.Connected {
        state := CM.Disconnecting;
        // runInLoop
        if inLoop {
          ShutdownInLoop();
        } else {
          loop.QueueInLoop(OnConn(CM.Shut, this), inLoop);
        }
      }
    }

    method ShutdownInLoop()
      requires Valid()
      modifies this`writeShut
      ensures Valid() && Contained()
      ensures L() == CM.ShutdownInLoop(old(L()))
    {
      if !channel.IsWriting() {
        writeShut := true;
      }
    }

    /** newConnection's last line: runInLoop of connectEstablished. */
    method Introduce(inLoop: bool)
      requires Valid()
      modifies Footprint()
      ensures Valid() && Contained()
      ensures L() == if inLoop then CM.ConnectEstablished(old(L()), inLoop) else CM.Queued(old(L()), CM.Establish)
    {
      if inLoop {
        ConnectEstablished(inLoop);
      } else {
        loop.QueueInLoop(OnConn(CM.Establish, this), inLoop);
      }
    }

    method ConnectEstablished(inLoop: bool)
      requires Valid()
      modifies Footprint()
      ensures Valid() && Contained()
      ensures L() == CM.ConnectEstablished(old(L()), inLoop)
    {
      hide PM.SetEvents, CM.OnConnection;
      state := CM.Connected;
      channel.tied := true;
      channel.EnableReading(loop.poller);
      connectionCallback.OnConnection(this, inLoop);
    }

    method ConnectDestroyed(inLoop: bool)
      requires Valid()
      modifies Footprint()
      ensures Valid() && Contained()
      ensures L() == CM.ConnectDestroyed(old(L()), inLoop)
    {
      hide PM.SetEvents, PM.Remove, CM.OnConnection;
      if state == CM.Connected {
        state := CM.Disconnected;
        channel.DisableAll(loop.poller);
        connectionCallback.OnConnection(this, inLoop);
      }
      channel.Remove(loop.poller);
      log := log + [CM.Destroyed];
    }

    /** `n` is what read(2) returned. */
    method HandleRead(n: int, inLoop: bool)
      requires Valid()
      modifies Footprint()
      ensures Valid() && Contained()
      ensures L() == CM.HandleRead(old(L()), n, inLoop)
    {
      if n > 0 {
        // messageCallback_
        heard := heard + [state];
      } else if n == 0 {
        HandleClose(inLoop);
      } else {
        HandleError();
      }
    }

    /** Only logs. */
    method HandleError() {
    }

    /** `n` is what write(2) returned for the buffered bytes. */
    method HandleWrite(n: int, inLoop: bool)
      requires Valid() && n <= outputBuffer.ReadableBytes()
      modifies Footprint()
      ensures Valid() && Contained()
      ensures L() == CM.HandleWrite(old(L()), n)
      ensures var taken := if old(channel.IsWriting()) && n > 0 then n else 0;
              && wire == old(wire) + old(outputBuffer.Content())[..taken]
              && outputBuffer.Content() == old(outputBuffer.Content())[taken..]
    {
      hide CM.Drained;
      WriteAccounts(L(), n);
      if channel.IsWriting() {
        if n > 0 {
          wire := wire + outputBuffer.Content()[..n];
          outputBuffer.Retrieve(n);
          if outputBuffer.ReadableBytes() == 0 {
            Drained(inLoop);
          }
        }
      }
    }

    /** The part of handleWrite for an output buffer that has become empty. */
    method Drained(inLoop: bool)
      requires Valid()
      modifies this`writeShut, channel, loop.poller, loop`pendingFunctors, loop`eventfd
      ensures Valid() && Contained()
      ensures L() == CM.Drained(old(L()))
    {
      hide PM.SetEvents;
      channel.DisableWriting(loop.poller);
      if closeCallback.hasWriteDone {
        loop.QueueInLoop(OnConn(CM.WriteDone, this), inLoop);
      }
      if state == CM.Disconnecting {
        ShutdownInLoop();
      }
    }

    method HandleClose(inLoop: bool)
      requires Valid()
      modifies Footprint()
      ensures Valid() && Contained()
      ensures L() == CM.HandleClose(old(L()), inLoop)
    {
      hide PM.SetEvents, CM.OnConnection, CM.RemoveConnection;
      if state == CM.Connected || state == CM.Disconnecting {
        state := CM.Disconnected;
        channel.DisableAll(loop.poller);
        connectionCallback.OnConnection(this, inLoop);
        closeCallback.RemoveConnection(this, inLoop);
      }
    }

    /**
     Channel::handleEventWithGuard with this connection's callbacks: close, read and write in that
     order, whatever bits the poll left in the channel; `n` and `written` are what read(2) and write(2) return if called.
     */
    method HandleEvent(n: int, written: int, inLoop: bool)
      requires Valid() && written <= outputBuffer.ReadableBytes()
      modifies Footprint()
      ensures Valid() && Contained()
      ensures L() == Dispatched(old(L()), channel.revents, n, written, inLoop)
    {
      hide Answered, CM.HandleWrite;
      AnswerKeepsOutput(L(), channel.revents, n, inLoop);
      HandleInput(n, inLoop);
      if channel.revents & EPOLLOUT != 0 {
        HandleWrite(written, inLoop);
      }
    }

    /** All but the last callback. */
    method HandleInput(n: int, inLoop: bool)
      requires Valid()
      modifies Footprint()
      ensures Valid() && Contained()
      ensures L() == Answered(old(L()), channel.revents, n, inLoop)
    {
      hide CM.HandleClose, CM.HandleRead;
      if channel.revents & EPOLLHUP != 0 && channel.revents & EPOLLIN == 0 {
        HandleClose(inLoop);
      }
      if channel.revents & EPOLLERR != 0 {
        HandleError();
      }
      if channel.revents & (EPOLLIN | EPOLLPRI | EPOLLRDHUP) != 0 {
        HandleRead(n, inLoop);
      }
    }

    /** A functor of this connection is run from the queue. */
    method RunJob(job: CM.Job, inLoop: bool)
      requires Valid()
      modifies Footprint()
      ensures Valid() && Contained()
      ensures L() == BM.Performed(old(L()), job, inLoop)
    {
      hide CM.ConnectEstablished, CM.RemoveConnectionInLoop, CM.ConnectDestroyed, CM.HandleClose, CM.ShutdownInLoop;
      match job
      case Establish => ConnectEstablished(inLoop);
      case Unmap => closeCallback.RemoveConnectionInLoop(this, inLoop);
      case Destroy => ConnectDestroyed(inLoop);
      case Force => ForceCloseInLoop(inLoop);
      case Shut => ShutdownInLoop();
      case WriteDone =>
    }

    /** A functor of one connection leaves all the objects in order. */
    twostate lemma RanSound(objs: seq<TcpConnection>)
      requires old(closeCallback.Sound(objs)) && this in objs && closeCallback.Untouched(objs, this)
      requires closeCallback.acceptor.acceptChannel.Valid() && Valid() && Contained()
      ensures closeCallback.Sound(objs) && closeCallback.SameArrays(objs)
    {
    }

    twostate lemma RanViews(objs: seq<TcpConnection>)
      requires old(closeCallback.Sound(objs)) && closeCallback.Sound(objs) && id < |objs| && objs[id] == this
      requires closeCallback.Untouched(objs, this)
      ensures closeCallback.Views(objs) == old(closeCallback.Views(objs))[id := View()]
    {
    }

    twostate lemma Ran(objs: seq<TcpConnection>)
      requires old(closeCallback.Sound(objs)) && this in objs && closeCallback.Untouched(objs, this)
      requires var ch := closeCallback.acceptor.acceptChannel; ch.Valid() && ch.View() == old(ch.View())
      requires Valid() && Contained()
      ensures closeCallback.Sound(objs) && closeCallback.SameArrays(objs)
      ensures var x := old(closeCallback.Whole(objs));
              closeCallback.Whole(objs) == BM.Whole(L().w, x.conns[id := L().c], x.acceptor)
    {
      RanSound(objs);
      RanViews(objs);
    }
  }

  /** What the close and the read callback of one dispatch do. */
  function Answered(l: CM.Local, revents: bv16, n: int, inLoop: bool): CM.Local {
    var l1 := if revents & EPOLLHUP != 0 && revents & EPOLLIN == 0 then CM.HandleClose(l, inLoop) else l;
    if revents & (EPOLLIN | EPOLLPRI | EPOLLRDHUP) != 0 then CM.HandleRead(l1, n, inLoop) else l1
  }

  lemma CloseKeepsOutput(l: CM.Local, inLoop: bool)
    ensures CM.HandleClose(l, inLoop).c.out == l.c.out
  {
  }

  lemma AnswerKeepsOutput(l: CM.Local, revents: bv16, n: int, inLoop: bool)
    ensures Answered(l, revents, n, inLoop).c.out == l.c.out
  {
    hide CM.HandleClose;
    CloseKeepsOutput(l, inLoop);
    CloseKeepsOutput(CM.HandleClose(l, inLoop), inLoop);
  }

  function Dispatched(l: CM.Local, revents: bv16, n: int, written: int, inLoop: bool): CM.Local
    requires written <= |l.c.out|
  {
    AnswerKeepsOutput(l, revents, n, inLoop);
    var m := Answered(l, revents, n, inLoop);
    if revents & EPOLLOUT != 0 then CM.HandleWrite(m, written) else m
  }

  lemma CloseOutcome(l: CM.Local, inLoop: bool)
    ensures var m := CM.HandleClose(l, inLoop);
            if CM.CanClose(l.c) then
              && m.c.log == l.c.log + [CM.Down, CM.Closed] && m.c.state == CM.Disconnected
              && m.c.wire == l.c.wire && m.c.heard == l.c.heard && !m.c.chan.events.write
            else m == l
  {
  }

  /**
   One dispatch closes a connection at most once, even when it calls handleClose twice: it does so
   exactly when the connection can be closed and the bits ask for it. Bytes are written exactly if EPOLLOUT
   was reported, there were bytes to write, and the dispatch has not closed the connection.
   A message is heard whenever read(2) yields one, and by a connection that this dispatch has already
   taken down exactly when the hang-up came without EPOLLIN.
   */
  lemma DispatchClosesOnce(l: CM.Local, revents: bv16, n: int, written: int, inLoop: bool)
    requires written <= |l.c.out|
    ensures var m := Dispatched(l, revents, n, written, inLoop);
            var hangs := revents & EPOLLHUP != 0 && revents & EPOLLIN == 0;
            var readable := revents & (EPOLLIN | EPOLLPRI | EPOLLRDHUP) != 0;
            var closes := CM.CanClose(l.c) && (hangs || (readable && n == 0));
            var writes := revents & EPOLLOUT != 0 && !closes && l.c.chan.events.write && written > 0;
            && (if closes then m.c.log == l.c.log + [CM.Down, CM.Closed] && m.c.state == CM.Disconnected
                else m.c.log == l.c.log)
            && m.c.wire == (if writes then l.c.wire + l.c.out[..written] else l.c.wire)
            && m.c.heard == l.c.heard +
                 if !readable || n <= 0 then [] else [if CM.CanClose(l.c) && hangs then CM.Disconnected else l.c.state]
  {
    hide CM.HandleClose, CM.HandleWrite;
    var l1 := if revents & EPOLLHUP != 0 && revents & EPOLLIN == 0 then CM.HandleClose(l, inLoop) else l;
    CloseOutcome(l, inLoop);
    CloseOutcome(l1, inLoop);
    AnswerKeepsOutput(l, revents, n, inLoop);
    WriteAccounts(Answered(l, revents, n, inLoop), written);
  }
}
