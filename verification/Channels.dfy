/** Go channels as values: a bounded buffer and the number of times `close` was called on it. */
module Channels {

  /** `closes` counts calls of `close`; a second call would panic, so a correct program keeps it at most one. */
  datatype Chan<T> = Chan(buf: seq<T>, cap: nat, closes: nat) {

    predicate IsOpen() { closes == 0 }

    predicate IsFull() { |buf| >= cap }

    /** A send on an open channel with room; callers test both first. */
    function Sent(x: T): Chan<T> { this.(buf := buf + [x]) }

    function Taken(): Chan<T>
      requires buf != []
    {
      this.(buf := buf[1..])
    }

    function Closed(): Chan<T> { this.(closes := closes + 1) }
  }
}
