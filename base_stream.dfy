/** The open/closed lifecycle every stream inherits. */
module BaseStreams {

  class BaseStream {
    var closed: bool

    /** A new stream starts open. */
    constructor ()
      ensures !closed
    {
      closed := false;
    }

    /** Reports the lifecycle state; changes nothing. */
    method IsClosed() returns (b: bool)
      ensures b <==> closed
    {
      b := closed;
    }

    /**
     * Closes the stream. The only assignment to `closed` sets it to true, so a closed
     * stream stays closed, and closing it again leaves the state as it was.
     */
    method Close()
      modifies this
      ensures closed
      ensures old(closed) ==> unchanged(this)
    {
      if !closed {
        closed := true;
      }
    }
  }
}
