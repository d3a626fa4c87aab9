/** The sequential object that `LockFreeQueue` is meant to be: a FIFO sequence of pointers
    on which `enqueue`, `dequeue` and `empty` act atomically. */
module QueueSpec {

  /** The element type must be nullable, because `dequeue` returns `nullptr` on an empty queue. */
  datatype Ptr = Null | Ptr(address: nat)

  datatype Call = Enqueue(value: Ptr) | Dequeue | IsEmpty

  datatype Ret = Unit | Got(value: Ptr) | Flag(empty: bool)

  /** The contents after one call. */
  function After(q: seq<Ptr>, c: Call): seq<Ptr> {
    match c
    case Enqueue(v) => q + [v]
    case Dequeue => if q == [] then [] else q[1..]
    case IsEmpty => q
  }

  /** What the call returns. */
  function Returns(q: seq<Ptr>, c: Call): Ret {
    match c
    case Enqueue(_) => Unit
    case Dequeue => Got(if q == [] then Null else q[0])
    case IsEmpty => Flag(q == [])
  }
}
