/**
 The loop's functor queue: `pendingFunctors_` together with the batch that
 `doPendingFunctors` has swapped out, split into the part already run (kept
 alive until the local vector is destroyed) and the part still to run.
 */
module FunctorQueue {

  datatype Queue<F> = Queue(pending: seq<F>, ran: seq<F>, left: seq<F>)
  {
    /** Everything queued and not yet run, oldest first. */
    function Unrun(): seq<F> {
      left + pending
    }

    /** Everything the two vectors still own. */
    function Owned(): seq<F> {
      ran + left + pending
    }

    function Push(f: F): Queue<F> {
      this.(pending := pending + [f])
    }

    /** `functors.swap(pendingFunctors_)` with an empty local vector. */
    function Swap(): Queue<F> {
      Queue([], [], pending)
    }

    /** Start running the oldest functor of the batch. */
    function Take(): Queue<F>
      requires left != []
    {
      this.(ran := ran + [left[0]], left := left[1..])
    }

    /** The local vector goes out of scope. */
    function Release(): Queue<F> {
      this.(ran := [], left := [])
    }
  }

}
