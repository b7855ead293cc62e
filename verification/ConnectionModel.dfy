/**
 One connection and the loop state it shares with the rest of the server. Each function below is
 one method of TcpConnection, TcpServer or MyServer as a transformation of that pair; what
 `isInLoopThread()` answers is a parameter, so every result holds for either answer.
 */
module ConnectionModel {
  import opened Bytes
  import opened FunctorQueue
  import opened PollerModel

  datatype ConnState = Disconnected | Connecting | Connected | Disconnecting

  /** Member functions bound into queued functors. */
  datatype Job =
    | Establish      // connectEstablished
    | Unmap          // removeConnectionInLoop
    | Destroy        // connectDestroyed
    | Force          // forceCloseInLoop
    | Shut           // shutdownInLoop, bound to a raw `this`
    | WriteDone      // the user's write-complete callback

  datatype Functor = OnConn(job: Job, conn: nat) | Listen

  /** What a connection's owner observes, in order. */
  datatype Event = Up | Down | Closed | Destroyed | Freed

  const LIFE: seq<Event> := [Up, Down, Closed, Destroyed, Freed]

  /**
   `me` is the object's identity. `wire` and `accepted` are history: the bytes the kernel took and
   the messages send agreed to deliver; `log` is the callback history, and `heard` the state of the
   connection at each message callback.
   */
  datatype Conn = Conn(
    me: nat,
    name: string,
    state: ConnState,
    chan: Chan,
    out: seq<byte>,
    writeShut: bool,
    wire: seq<byte>,
    accepted: seq<byte>,
    log: seq<Event>,
    heard: seq<ConnState>)

  /** The singletons: EventLoop's queue, Poller, TcpServer's map and counter, MyServer's counters. */
  datatype World = World(
    q: Queue<Functor>,
    poller: Poller,
    connections: map<string, nat>,
    nextConnId: nat,
    base: string,
    hasWriteDone: bool,
    numConnected: int,
    maxConnections: int)

  datatype Local = Local(w: World, c: Conn)

  /** The outcome of one write(2): `Refused` is EWOULDBLOCK or any errno that is not a broken pipe. */
  datatype WriteResult = Wrote(n: nat) | Refused | Broken

  function Queued(l: Local, j: Job): Local {
    l.(w := l.w.(q := l.w.q.Push(OnConn(j, l.c.me))))
  }

  function WithEvents(l: Local, m: Mask): Local {
    var (p, ch) := SetEvents(l.w.poller, l.c.chan, m);
    Local(l.w.(poller := p), l.c.(chan := ch))
  }

  // ---- sending ------------------------------------------------------------

  /** Whether sendInLoop tries the socket before buffering. */
  predicate WritesDirectly(c: Conn) {
    !c.chan.events.write && c.out == []
  }

  /** Whether sendInLoop takes responsibility for the message. */
  predicate Accepts(c: Conn, r: WriteResult) {
    c.state != Disconnected && !(WritesDirectly(c) && r == Broken)
  }

  /** Keep `rest` for later and make sure the socket is watched for writing. */
  function Buffered(l: Local, rest: seq<byte>): Local {
    var l1 := l.(c := l.c.(out := l.c.out + rest));
    if l1.c.chan.events.write then l1 else WithEvents(l1, l1.c.chan.events.(write := true))
  }

  /** The socket took the first `n` bytes of a message at once. */
  function WrittenNow(l: Local, data: seq<byte>, n: nat): Local
    requires n <= |data|
  {
    var l1 := l.(c := l.c.(wire := l.c.wire + data[..n]));
    if n == |data| && l.w.hasWriteDone then Queued(l1, WriteDone) else l1
  }

  /** The message is accepted; what the socket did not take is buffered. */
  function TakenOn(l: Local, data: seq<byte>, n: nat): Local
    requires n <= |data|
  {
    var l1 := l.(c := l.c.(accepted := l.c.accepted + data));
    if n == |data| then l1 else Buffered(l1, data[n..])
  }

  function SendInLoop(l: Local, data: seq<byte>, r: WriteResult): Local
    requires r.Wrote? ==> r.n <= |data|
  {
    if l.c.state == Disconnected then l
    else
      var direct := WritesDirectly(l.c) && r.Wrote?;
      var n := if direct then r.n else 0;
      var l1 := if direct then WrittenNow(l, data, n) else l;
      if Accepts(l.c, r) then TakenOn(l1, data, n) else l1
  }

  function ShutdownInLoop(l: Local): Local {
    if l.c.chan.events.write then l else l.(c := l.c.(writeShut := true))
  }

  /** The last buffered byte is out. */
  function Drained(l: Local): Local {
    var l1 := WithEvents(l, l.c.chan.events.(write := false));
    var l2 := if l1.w.hasWriteDone then Queued(l1, WriteDone) else l1;
    if l2.c.state == Disconnecting then ShutdownInLoop(l2) else l2
  }

  /** `n` is what write(2) returned for the buffered bytes. */
  function HandleWrite(l: Local, n: int): Local
    requires n <= |l.c.out|
  {
    if !l.c.chan.events.write || n <= 0 then l
    else
      var l1 := l.(c := l.c.(wire := l.c.wire + l.c.out[..n], out := l.c.out[n..]));
      if l1.c.out == [] then Drained(l1) else l1
  }

  // ---- closing ------------------------------------------------------------

  function ForceClose(l: Local): Local {
    if l.c.state == Connected || l.c.state == Disconnecting then
      Queued(l.(c := l.c.(state := Disconnecting)), Force)
    else l
  }

  function Shutdown(l: Local, inLoop: bool): Local {
    if l.c.state == Connected then
      var l1 := l.(c := l.c.(state := Disconnecting));
      if inLoop then ShutdownInLoop(l1) else Queued(l1, Shut)
    else l
  }

  /** MyServer::onConnection, the connection callback. */
  function OnConnection(l: Local, inLoop: bool): Local {
    if l.c.state == Connected then
      var l1 := l.(w := l.w.(numConnected := l.w.numConnected + 1), c := l.c.(log := l.c.log + [Up]));
      if l1.w.numConnected > l1.w.maxConnections then ForceClose(Shutdown(l1, inLoop)) else l1
    else
      l.(w := l.w.(numConnected := l.w.numConnected - 1), c := l.c.(log := l.c.log + [Down]))
  }

  function ConnectEstablished(l: Local, inLoop: bool): Local {
    var l1 := l.(c := l.c.(state := Connected, chan := l.c.chan.(tied := true)));
    OnConnection(WithEvents(l1, l1.c.chan.events.(read := true)), inLoop)
  }

  function ConnectDestroyed(l: Local, inLoop: bool): Local {
    var l1 :=
      if l.c.state == Connected then OnConnection(WithEvents(l.(c := l.c.(state := Disconnected)), NONE), inLoop)
      else l;
    var (p, ch) := Remove(l1.w.poller, l1.c.chan);
    Local(l1.w.(poller := p), l1.c.(chan := ch, log := l1.c.log + [Destroyed]))
  }

  function RemoveConnectionInLoop(l: Local): Local {
    Queued(l.(w := l.w.(connections := l.w.connections - {l.c.name})), Destroy)
  }

  /** TcpServer::removeConnection, the close callback. */
  function RemoveConnection(l: Local, inLoop: bool): Local {
    var l1 := l.(c := l.c.(log := l.c.log + [Closed]));
    if inLoop then RemoveConnectionInLoop(l1) else Queued(l1, Unmap)
  }

  predicate CanClose(c: Conn) {
    c.state == Connected || c.state == Disconnecting
  }

  /** handleClose up to and including the connection callback. */
  function CloseBegin(l: Local, inLoop: bool): Local
    requires CanClose(l.c)
  {
    OnConnection(WithEvents(l.(c := l.c.(state := Disconnected)), NONE), inLoop)
  }

  /** handleClose as a whole, when nothing else runs between its two callbacks. */
  function HandleClose(l: Local, inLoop: bool): Local {
    if CanClose(l.c) then RemoveConnection(CloseBegin(l, inLoop), inLoop) else l
  }

  // ---- reading ------------------------------------------------------------

  /** The message callback; the user sees the connection as it is now. */
  function Delivered(l: Local): Local {
    l.(c := l.c.(heard := l.c.heard + [l.c.state]))
  }

  /** handleRead, with `n` what read(2) returned and nothing else running meanwhile. */
  function HandleRead(l: Local, n: int, inLoop: bool): Local {
    if n > 0 then Delivered(l) else if n == 0 then HandleClose(l, inLoop) else l
  }

  // ---- opening ------------------------------------------------------------

  function Digit(d: nat): char
    requires d < 10
  {
    ['0', '1', '2', '3', '4', '5', '6', '7', '8', '9'][d]
  }

  /** "%d" of a non-negative number. */
  function Decimal(n: nat): (r: string)
    ensures r != []
  {
    if n < 10 then [Digit(n)] else Decimal(n / 10) + [Digit(n % 10)]
  }

  /** `name_ + "-" + hostport_ + "#" + nextConnId_`. */
  function ConnName(base: string, id: nat): string {
    base + Decimal(id)
  }

  function NewConn(me: nat, name: string, fd: int): Conn {
    Conn(me, name, Connecting, Chan(ConnChan(me), fd, NONE, New, false), [], false, [], [], [], [])
  }

  /** A connection object for an accepted descriptor, numbered, named and in the map. */
  function MakeConnection(w: World, me: nat, fd: int): Local {
    var name := ConnName(w.base, w.nextConnId);
    Local(w.(nextConnId := w.nextConnId + 1, connections := w.connections[name := me]), NewConn(me, name, fd))
  }

  /** TcpServer::newConnection. */
  function NewConnection(w: World, me: nat, fd: int, inLoop: bool): Local {
    var l := MakeConnection(w, me, fd);
    if inLoop then ConnectEstablished(l, inLoop) else Queued(l, Establish)
  }

  predicate Digits(s: string) {
    forall k :: 0 <= k < |s| ==> '0' <= s[k] <= '9'
  }

  /** The number a string of digits stands for. */
  function Value(s: string): nat
    requires Digits(s)
  {
    if s == [] then 0 else 10 * Value(s[..|s| - 1]) + (s[|s| - 1] as int - '0' as int)
  }

  /** A number is written with digits, without leading zeros, and reads back as itself. */
  lemma {:induction false} DecimalReadsBack(n: nat)
    ensures var s := Decimal(n); Digits(s) && Value(s) == n && (|s| > 1 ==> s[0] != '0')
  {
    var s := Decimal(n);
    if n >= 10 {
      DecimalReadsBack(n / 10);
      assert s[..|s| - 1] == Decimal(n / 10);
      assert |Decimal(n / 10)| == 1 ==> Value(Decimal(n / 10)) == Decimal(n / 10)[0] as int - '0' as int;
    }
  }

  /** Distinct connection numbers give distinct names. */
  lemma NamesDistinct(base: string, m: nat, n: nat)
    requires ConnName(base, m) == ConnName(base, n)
    ensures m == n
  {
    assert ConnName(base, m)[|base|..] == Decimal(m);
    assert ConnName(base, n)[|base|..] == Decimal(n);
    DecimalReadsBack(m);
    DecimalReadsBack(n);
  }
}
