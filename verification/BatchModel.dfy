/**
 What one functor does, and what a whole drain does, to the values behind the server's objects.
 */
module BatchModel {
  import opened FunctorQueue
  import opened PollerModel
  import opened ConnectionModel

  /** Everything a functor can touch. */
  datatype Whole = Whole(w: World, conns: seq<Conn>, acceptor: Chan)

  function Performed(l: Local, job: Job, inLoop: bool): Local {
    match job
    case Establish => ConnectEstablished(l, inLoop)
    case Unmap => RemoveConnectionInLoop(l)
    case Destroy => ConnectDestroyed(l, inLoop)
    case Force => HandleClose(l, inLoop)
    case Shut => ShutdownInLoop(l)
    case WriteDone => l
  }

  /** The functor's connection is one of the `n` there are. */
  predicate Runnable(n: nat, f: Functor) {
    f.OnConn? ==> f.conn < n
  }

  /** Acceptor::listen. */
  function Listening(x: Whole): Whole {
    var (p, ch) := SetEvents(x.w.poller, x.acceptor, x.acceptor.events.(read := true));
    x.(w := x.w.(poller := p), acceptor := ch)
  }

  function Perform(x: Whole, f: Functor, inLoop: bool): (y: Whole)
    requires Runnable(|x.conns|, f)
    ensures |y.conns| == |x.conns|
  {
    match f
    case Listen => Listening(x)
    case OnConn(job, i) =>
      var l := Performed(Local(x.w, x.conns[i]), job, inLoop);
      Whole(l.w, x.conns[i := l.c], x.acceptor)
  }

  function WithQueue(x: Whole, q: Queue<Functor>): Whole {
    x.(w := x.w.(q := q))
  }

  /** Take the functors off the batch one at a time and perform each. */
  function PerformAll(x: Whole, batch: seq<Functor>, inLoop: bool): (y: Whole)
    requires forall f :: f in batch ==> Runnable(|x.conns|, f)
    requires x.w.q.left == batch
    ensures |y.conns| == |x.conns|
    decreases |batch|
  {
    if batch == [] then x
    else
      var taken := WithQueue(x, x.w.q.Take());
      PerformKeepsBatch(taken, batch[0], inLoop);
      PerformAll(Perform(taken, batch[0], inLoop), batch[1..], inLoop)
  }

  lemma PerformedKeepsBatch(l: Local, job: Job, inLoop: bool)
    ensures Performed(l, job, inLoop).w.q.left == l.w.q.left && Performed(l, job, inLoop).w.q.ran == l.w.q.ran
  {
  }

  /** Functors only add to the pending half of the queue. */
  lemma PerformKeepsBatch(x: Whole, f: Functor, inLoop: bool)
    requires Runnable(|x.conns|, f)
    ensures Perform(x, f, inLoop).w.q.left == x.w.q.left && Perform(x, f, inLoop).w.q.ran == x.w.q.ran
  {
    hide Performed;
    if f.OnConn? {
      PerformedKeepsBatch(Local(x.w, x.conns[f.conn]), f.job, inLoop);
    }
  }

  lemma PerformNone(x: Whole, inLoop: bool)
    requires x.w.q.left == []
    ensures PerformAll(x, [], inLoop) == x
  {
  }

  lemma PerformAllStep(x: Whole, batch: seq<Functor>, inLoop: bool)
    requires batch != [] && x.w.q.left == batch && forall f :: f in batch ==> Runnable(|x.conns|, f)
    ensures var y := Perform(WithQueue(x, x.w.q.Take()), batch[0], inLoop);
            && y.w.q.left == batch[1..]
            && PerformAll(x, batch, inLoop) == PerformAll(y, batch[1..], inLoop)
  {
    PerformKeepsBatch(WithQueue(x, x.w.q.Take()), batch[0], inLoop);
  }

  /** The batch is used up. */
  lemma {:induction false} PerformAllEnds(x: Whole, batch: seq<Functor>, inLoop: bool)
    requires x.w.q.left == batch && forall f :: f in batch ==> Runnable(|x.conns|, f)
    ensures PerformAll(x, batch, inLoop).w.q.left == []
    decreases |batch|
  {
    hide Perform;
    if batch != [] {
      PerformAllStep(x, batch, inLoop);
      PerformAllEnds(Perform(WithQueue(x, x.w.q.Take()), batch[0], inLoop), batch[1..], inLoop);
    }
  }

  /** doPendingFunctors: swap, perform the batch, release it. */
  function Drain(x: Whole, inLoop: bool): (y: Whole)
    requires forall f :: f in x.w.q.pending ==> Runnable(|x.conns|, f)
  {
    var z := PerformAll(WithQueue(x, x.w.q.Swap()), x.w.q.pending, inLoop);
    WithQueue(z, z.w.q.Release())
  }
}
