/**
 The sizes and indices of a Buffer, without its bytes: what each operation does to them, and how
 far the array can grow over a run.
 */
module BufferLayout {

  const CHEAP_PREPEND := 8
  const INITIAL_SIZE := 1024
  const EXTRA := 65536   // sizeof extrabuf in readFd

  datatype Layout = Layout(size: nat, reader: nat, writer: nat)
  {
    predicate Valid() {
      reader <= writer <= size && CHEAP_PREPEND <= size
    }

    function Readable(): int {
      writer - reader
    }

    function Writable(): int {
      size - writer
    }

    /** makeSpace: grow the array, or slide the content down to kCheapPrepend. */
    function MakeSpace(len: nat): Layout
      requires Valid()
    {
      if Writable() + reader < len + CHEAP_PREPEND then this.(size := writer + len)
      else Layout(size, CHEAP_PREPEND, CHEAP_PREPEND + writer - reader)
    }

    function Ensure(len: nat): Layout
      requires Valid()
    {
      if Writable() < len then MakeSpace(len) else this
    }

    function Append(len: nat): Layout
      requires Valid()
    {
      var l := Ensure(len);
      l.(writer := l.writer + len)
    }

    function Retrieve(len: nat): Layout
      requires Valid()
    {
      if len < Readable() then this.(reader := reader + len)
      else this.(reader := CHEAP_PREPEND, writer := CHEAP_PREPEND)
    }

    /** readFd after readv returned n >= 0. */
    function ReadFd(n: nat): Layout
      requires Valid()
    {
      if n <= Writable() then this.(writer := writer + n)
      else this.(writer := size).Append(n - Writable())
    }

    /** The most readv can return for the segments readFd offers. */
    function ReadLimit(): int {
      if Writable() < EXTRA then Writable() + EXTRA else Writable()
    }
  }

  function Fresh(initialSize: nat): Layout {
    Layout(CHEAP_PREPEND + initialSize, CHEAP_PREPEND, CHEAP_PREPEND)
  }

  datatype Op =
    | DoAppend(len: nat)
    | DoEnsure(len: nat)
    | DoHasWritten(len: nat)
    | DoRetrieve(len: nat)
    | DoUnwrite(len: nat)
    | DoPrepend(len: nat)
    | DoReadFd(n: nat)

  /** The assertions the operations make about their arguments. */
  predicate Allowed(l: Layout, op: Op) {
    match op
    case DoAppend(_) => true
    case DoEnsure(_) => true
    case DoHasWritten(len) => len <= l.Writable()
    case DoRetrieve(len) => len <= l.Readable()
    case DoUnwrite(len) => len <= l.Readable()
    case DoPrepend(len) => len <= l.reader
    case DoReadFd(n) => n <= l.ReadLimit()
  }

  function Apply(l: Layout, op: Op): Layout
    requires l.Valid() && Allowed(l, op)
  {
    match op
    case DoAppend(len) => l.Append(len)
    case DoEnsure(len) => l.Ensure(len)
    case DoHasWritten(len) => l.(writer := l.writer + len)
    case DoRetrieve(len) => l.Retrieve(len)
    case DoUnwrite(len) => l.(writer := l.writer - len)
    case DoPrepend(len) => l.(reader := l.reader - len)
    case DoReadFd(n) => l.ReadFd(n)
  }

  /** The bytes an operation wants to have in the buffer at once: content plus what it makes room for. */
  function Demand(l: Layout, op: Op): int {
    match op
    case DoAppend(len) => l.Readable() + len
    case DoEnsure(len) => l.Readable() + len
    case DoReadFd(n) => l.Readable() + n
    case _ => l.Readable()
  }

  lemma ApplyValid(l: Layout, op: Op)
    requires l.Valid() && Allowed(l, op)
    ensures Apply(l, op).Valid()
  {
  }

  predicate Runs(l: Layout, ops: seq<Op>)
    requires l.Valid()
    decreases |ops|
  {
    ops == [] || (Allowed(l, ops[0]) && (ApplyValid(l, ops[0]); Runs(Apply(l, ops[0]), ops[1..])))
  }

  function Run(l: Layout, ops: seq<Op>): (r: Layout)
    requires l.Valid() && Runs(l, ops)
    ensures r.Valid()
    decreases |ops|
  {
    if ops == [] then l else (ApplyValid(l, ops[0]); Run(Apply(l, ops[0]), ops[1..]))
  }

  /** The largest demand of a run. */
  function Peak(l: Layout, ops: seq<Op>): int
    requires l.Valid() && Runs(l, ops)
    decreases |ops|
  {
    if ops == [] then 0
    else
      ApplyValid(l, ops[0]);
      var rest := Peak(Apply(l, ops[0]), ops[1..]);
      if Demand(l, ops[0]) > rest then Demand(l, ops[0]) else rest
  }

  function Max(a: int, b: int): int {
    if a < b then b else a
  }

  lemma {:induction false} SizeBound(l: Layout, ops: seq<Op>, bound: int)
    requires l.Valid() && Runs(l, ops) && l.size <= bound && 2 * Peak(l, ops) + 7 <= bound
    ensures Run(l, ops).size <= bound
    decreases |ops|
  {
    if ops != [] {
      ApplyValid(l, ops[0]);
      SizeBound(Apply(l, ops[0]), ops[1..], bound);
    }
  }

  /**
   The space bound: over any run of a new buffer, the array never exceeds what it started with or
   twice the peak demand plus 7, whichever is larger.
   */
  lemma SpaceBound(initialSize: nat, ops: seq<Op>)
    requires Runs(Fresh(initialSize), ops)
    ensures Run(Fresh(initialSize), ops).size
              <= Max(CHEAP_PREPEND + initialSize, 2 * Peak(Fresh(initialSize), ops) + 7)
  {
    SizeBound(Fresh(initialSize), ops, Max(CHEAP_PREPEND + initialSize, 2 * Peak(Fresh(initialSize), ops) + 7));
  }

  /** The array grows exactly when neither the tail nor the whole slack has room. */
  lemma AppendGrowsIff(l: Layout, len: nat)
    requires l.Valid()
    ensures l.Append(len).size >= l.size
    ensures l.Append(len).size > l.size <==> l.Writable() < len && l.Readable() + len + CHEAP_PREPEND > l.size
    ensures l.Append(len).Readable() == l.Readable() + len
  {
  }

  /**
   Where an append puts things: in the tail if that has room; else with the content moved down to
   offset 8 if there is room in all; else in an array that it fills to its last byte.
   */
  lemma AppendMoves(l: Layout, len: nat)
    requires l.Valid()
    ensures var m := l.Append(len);
            if l.writer + len <= l.size then m == Layout(l.size, l.reader, l.writer + len)
            else if l.writer - l.reader + len + 8 <= l.size then m == Layout(l.size, 8, 8 + l.writer - l.reader + len)
            else m == Layout(l.writer + len, l.reader, l.writer + len)
  {
  }

  /** What retrieving leaves: the prepend room is 8 again once nothing is left. */
  lemma RetrieveMoves(l: Layout, len: nat)
    requires l.Valid() && len <= l.Readable()
    ensures l.Retrieve(len) == if len == l.writer - l.reader then Layout(l.size, 8, 8)
                               else Layout(l.size, l.reader + len, l.writer)
  {
  }

  /** readFd is an append of what was read, but for a tail that the first segment fills before more room is made. */
  lemma ReadFdMoves(l: Layout, n: nat)
    requires l.Valid() && n <= l.ReadLimit()
    ensures var m := l.ReadFd(n);
            && m.Readable() == l.Readable() + n
            && (l.writer + n <= l.size ==> m == Layout(l.size, l.reader, l.writer + n))
            && (l.writer + n > l.size ==>
              m == if l.Readable() + n + 8 <= l.size then Layout(l.size, 8, 8 + l.Readable() + n)
                   else Layout(l.writer + n, l.reader, l.writer + n))
            && l.ReadLimit() == l.size - l.writer + (if l.size - l.writer < 65536 then 65536 else 0)
  {
  }
}
