/** The client's per-stream receive queue (stream.go): a bounded queue and a
    close-once error cell. The value-level operations are the atomic effects of the
    queue; the connection's step relation is built from them. */
module StreamQueue {
  import opened Frames

  /** Non-nil errors a stream can be closed with. */
  datatype StreamErr = ErrClosed | ErrStreamFull | ErrTooLong | ErrConn(code: nat)

  /** `closed` is None while recvClose is open, and otherwise holds recvErr. */
  datatype StreamState = StreamState(id: StreamID, cap: nat, queue: seq<Frame>, closed: Option<StreamErr>)

  function NewStream(id: StreamID, cap: nat): StreamState {
    StreamState(id, cap, [], None)
  }

  function CloseWithError(s: StreamState, err: Option<StreamErr>): StreamState {
    if s.closed.Some? then s else s.(closed := Some(err.GetOr(ErrClosed)))
  }

  function Enqueue(s: StreamState, f: Frame): StreamState
    requires |s.queue| < s.cap
  {
    s.(queue := s.queue + [f])
  }

  function Dequeue(s: StreamState): StreamState
    requires s.queue != []
  {
    s.(queue := s.queue[1..])
  }
}
