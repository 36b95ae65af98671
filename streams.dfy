/** Go channels, seen from the side that writes them: a channel is the
    sequence of values sent on it so far plus whether it has been closed.
    Sending on a closed channel and closing it twice both panic in Go, so
    both operations require an open channel; any caller that meets them therefore
    closes every channel at most once and never writes after closing it.
    Goroutine scheduling and blocking are not modelled: a reader is taken
    to see exactly `items`, in order. */
module Streams {

  class Chan<T> {
    var items: seq<T>
    var closed: bool

    /** `make(chan T)`. */
    constructor ()
      ensures items == [] && !closed
    {
      items := [];
      closed := false;
    }

    /** `ch <- x`. */
    method Send(x: T)
      requires !closed
      modifies this
      ensures items == old(items) + [x] && !closed
    {
      items := items + [x];
    }

    /** `close(ch)`. */
    method Close()
      requires !closed
      modifies this
      ensures closed && items == old(items)
    {
      closed := true;
    }
  }

  /** `sync.WaitGroup`, seen from a worker: the counter it decrements. */
  class WaitGroup {
    var count: int

    constructor (n: int)
      ensures count == n
    {
      count := n;
    }

    /** `wg.Done()`; a negative counter panics in Go. */
    method Done()
      requires count > 0
      modifies this
      ensures count == old(count) - 1
    {
      count := count - 1;
    }
  }
}
