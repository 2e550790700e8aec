/** The client end of a connection (client.go, stream.go) as a state machine whose
    steps are the code's atomic regions: a lock region, one select, one channel
    operation, one frame read. Any number of callers run concurrently with the
    receive loop, with Close and with a peer that may send any frames at all.

    A stream is named by its allocation number n, because its 32-bit id can be
    reused: stream n carries id IdOf(n). */
module ClientConn {
  import opened Frames
  import opened StreamQueue

  /** Who uses a stream: a unary call (dispatch) or a ClientStream. */
  datatype Desc = Unary | Streaming(client: bool, server: bool)

  /** What one dispatch or RecvMsg call gave its caller. */
  datatype Outcome =
    | Reply(status: Status, data: Bytes)
    | Msg(data: Bytes)
    | EndOfStream
    | StatusErr(status: Status)
    | ProtocolErr
    | StreamFailed(err: StreamErr)
    | Cancelled
    | ConnClosed

  /** Where the stream's caller is: inside createStream, turned away by it, between
      calls (or waiting in a select), in deleteStream before or after the map entry is
      removed, or finished. */
  datatype Phase = Opening | TurnedAway | Ready | Deleting | Closing | Over

  /** A stream object with its caller, followed by history: how many lookups came
      before registration, frames queued, frames taken, messages sent, what the
      calls returned, and how often its delivery timed out. */
  datatype Obj = Obj(
    st: StreamState, desc: Desc, req: Request, phase: Phase, localClosed: bool,
    regAt: nat, accepted: seq<Frame>, taken: seq<Frame>, sent: seq<Bytes>,
    results: seq<Outcome>, timeouts: nat)

  /** sendLock: free, or held by createStream before and after the allocation. */
  datatype SendLock = Free | Held(desc: Desc, req: Request) | Allocated(n: nat)

  /** Where the receive loop is. `Selecting` is the second select of stream.receive,
      `Waiting` the innermost one with the timer. */
  datatype Loop =
    | Top | Reading | Have(f: Frame)
    | Delivering(n: nat, f: Frame) | Selecting(n: nat, f: Frame) | Waiting(n: nat, f: Frame)
    | Exited(err: StreamErr) | Cleaning(err: StreamErr) | Finished

  /** A frame on the wire with the stream that sent it. */
  datatype Sent = Sent(n: nat, frame: Frame)

  /** `out` is everything written to the connection and `looked` every frame looked
      up in the stream map, both in order. */
  datatype Client = Client(
    nextID: StreamID, streams: map<StreamID, nat>, objs: seq<Obj>, lock: SendLock,
    ctxDone: bool, connClosed: bool, broken: bool, loop: Loop,
    out: seq<Sent>, looked: seq<Frame>)

  const UNARY_BUFFER := 1
  const STREAM_BUFFER := 64

  /** The id of allocation n: the counter starts at 1 and goes up by 2, wrapping at 32 bits. */
  function IdOf(n: nat): StreamID {
    if n == 0 then 1 else (IdOf(n - 1) + 2) % ID_SPACE
  }

  function BufferFor(desc: Desc): nat {
    if desc.Unary? then UNARY_BUFFER else STREAM_BUFFER
  }

  function RequestFlags(desc: Desc): Flags {
    match desc
    case Unary => NO_FLAGS
    case Streaming(client, _) => if client then Flags(false, true, false) else Flags(true, false, false)
  }

  const CLOSE_FLAGS := Flags(true, false, true)

  ghost predicate Init(c: Client) {
    c == Client(1, map[], [], Free, false, false, false, Top, [], [])
  }

  /** The regions of createStream. */
  datatype CreateAct =
    | Lock(desc: Desc, req: Request)
    | Alloc
    | Abort
    | FirstSend
    | FirstSendFail(breaks: bool)

  /** What the caller of one stream does: SendMsg and CloseSend; taking a message, the
      stream's error, or giving up; the two halves of deleteStream; RecvMsg once more. */
  datatype CallAct =
    | SendMsg(data: Bytes)
    | CloseSend
    | Take
    | TakeErr
    | CancelCall
    | ConnDone
    | DeleteEntry
    | DeleteClose
    | RecvAfterEnd

  /** The ways through stream.receive, and closing on an oversized frame. */
  datatype DeliverAct = Poison | Open | Push | Drop | Wait | Timeout

  /** The rest of receiveLoop and run. */
  datatype LoopAct =
    | Stop
    | Go
    | Read(f: Frame)
    | ReadErr(err: StreamErr)
    | Lookup
    | RunClose
    | Cleanup

  /** A write that breaks the connection, and the two halves of Close. */
  datatype ConnAct = SendFail | CancelCtx | CloseConn

  datatype Action =
    | Create(ca: CreateAct)
    | Call(n: nat, ka: CallAct)
    | Deliver(da: DeliverAct)
    | Loop(la: LoopAct)
    | Conn(na: ConnAct)

  /** What dispatch or RecvMsg makes of a message, and whether the stream is then deleted. */
  function Decode(desc: Desc, f: Frame): (Outcome, bool) {
    match (desc, f)
    case (Unary, ResponseFrame(_, status, data)) => (Reply(status, data), true)
    case (Unary, _) => (ProtocolErr, true)
    case (Streaming(_, _), ResponseFrame(_, status, data)) =>
      if status == OK then (Msg(data), true) else (StatusErr(status), false)
    case (Streaming(_, server), DataFrame(_, flags, data)) =>
      if !server then (ProtocolErr, true)
      else if flags.remoteClosed && flags.noData then (EndOfStream, true)
      else (Msg(data), flags.remoteClosed)
    case _ => (ProtocolErr, false)
  }

  // ---- what frames mean to a caller, by the protocol ----

  /** Data is expected by a caller with a streaming server only. */
  predicate Expected(desc: Desc, f: Frame) {
    f.ResponseFrame? || (f.DataFrame? && desc.Streaming? && desc.server)
  }

  /** The end without a message: data closed by the remote, with the mark that there is none. */
  predicate EndMark(desc: Desc, f: Frame) {
    Expected(desc, f) && f.DataFrame? && f.flags.remoteClosed && f.flags.noData
  }

  /** The status of a response that is not OK. */
  function ErrorIn(f: Frame): Option<Status> {
    if f.ResponseFrame? && f.status != OK then Some(f.status) else None
  }

  /** The message of an OK response, or of data that is no mere end. */
  function MessageIn(desc: Desc, f: Frame): Option<Bytes> {
    if Expected(desc, f) && !EndMark(desc, f) && ErrorIn(f).None? then Some(f.data) else None
  }

  /** After such a frame a streaming caller deletes its stream. */
  predicate Ending(desc: Desc, f: Frame) {
    if f.ResponseFrame? then f.status == OK
    else f.DataFrame? && (!Expected(desc, f) || f.flags.remoteClosed)
  }

  /** RecvMsg may return r for f, and delete the stream or not. */
  predicate ReadsAs(desc: Desc, f: Frame, r: Outcome, deletes: bool) {
    && (deletes <==> Ending(desc, f))
    && (r == ProtocolErr <==> !Expected(desc, f))
    && (r == EndOfStream <==> EndMark(desc, f))
    && ErrorIn(f) == (if r.StatusErr? then Some(r.status) else None)
    && MessageIn(desc, f) == (if r.Msg? then Some(r.data) else None)
  }

  /** What RecvMsg makes of a frame is what the frame means. */
  lemma {:induction false} DecodeMeans(desc: Desc, f: Frame)
    requires desc.Streaming?
    ensures ReadsAs(desc, f, Decode(desc, f).0, Decode(desc, f).1)
  {
  }

  /** A unary call returns the response, or complains of any other frame. */
  function ReplyIn(f: Frame): Outcome {
    if f.ResponseFrame? then Reply(f.status, f.data) else ProtocolErr
  }

  /** The flags of a request: none for a unary call; otherwise the stream is left open for a
      client side, and closed without one. */
  predicate Announces(desc: Desc, flags: Flags) {
    && (flags.remoteOpen <==> desc.Streaming? && desc.client)
    && (flags.remoteClosed <==> desc.Streaming? && !desc.client)
    && !flags.noData
  }

  predicate CanWrite(c: Client) {
    c.lock.Free? && !c.broken && !c.connClosed
  }

  predicate HasSender(o: Obj) {
    Opened(o) && o.desc.Streaming? && o.desc.client && !o.localClosed
  }

  /** createStream has returned this stream to its caller. */
  predicate Opened(o: Obj) {
    !o.phase.Opening? && !o.phase.TurnedAway?
  }

  predicate InDelivery(loop: Loop) {
    loop.Delivering? || AtSelect(loop)
  }

  predicate AtSelect(loop: Loop) {
    loop.Selecting? || loop.Waiting?
  }

  predicate CreateEnabled(c: Client, a: CreateAct) {
    match a
    case Lock(_, _) => c.lock.Free? && !c.ctxDone
    case Alloc => c.lock.Held? && !c.ctxDone
    case Abort => c.lock.Held? && c.ctxDone
    case FirstSend => c.lock.Allocated? && c.lock.n < |c.objs| && !c.broken && !c.connClosed
    case FirstSendFail(_) => c.lock.Allocated? && c.lock.n < |c.objs|
  }

  predicate CallEnabled(c: Client, o: Obj, a: CallAct) {
    match a
    case SendMsg(data) => CanWrite(c) && HasSender(o) && |data| <= LENGTH_MAX
    case CloseSend => CanWrite(c) && HasSender(o)
    case Take => o.phase.Ready? && o.st.queue != []
    case TakeErr => o.phase.Ready? && o.st.queue == [] && o.st.closed.Some?
    case CancelCall => o.phase.Ready?
    case ConnDone => o.phase.Ready? && o.desc.Unary? && c.ctxDone
    case DeleteEntry => o.phase.Deleting?
    case DeleteClose => o.phase.Closing?
    case RecvAfterEnd => o.phase.Over? && o.desc.Streaming?
  }

  predicate DeliverEnabled(loop: Loop, ctxDone: bool, o: Obj, a: DeliverAct) {
    match a
    case Poison => loop.Delivering? && loop.f.TooLong?
    case Open => loop.Delivering? && !loop.f.TooLong? && o.st.closed.None?
    case Push => AtSelect(loop) && |o.st.queue| < o.st.cap
    case Drop =>
      || (loop.Delivering? && !loop.f.TooLong? && o.st.closed.Some?)
      || (AtSelect(loop) && (o.st.closed.Some? || ctxDone))
    case Wait => loop.Selecting? && !ctxDone && o.st.closed.None? && |o.st.queue| >= o.st.cap
    case Timeout => loop.Waiting?
  }

  /** The errors filterCloseErr makes of a failed recv. */
  predicate OfConnection(err: StreamErr) {
    err.ErrClosed? || err.ErrConn?
  }

  predicate LoopEnabled(c: Client, a: LoopAct) {
    match a
    case Stop => c.loop.Top? && c.ctxDone
    case Go => c.loop.Top? && !c.ctxDone
    case Read(_) => c.loop.Reading?
    case ReadErr(err) => c.loop.Reading? && OfConnection(err)
    case Lookup => c.loop.Have?
    case RunClose => c.loop.Exited? && c.ctxDone && c.connClosed
    case Cleanup => c.loop.Cleaning?
  }

  predicate ConnEnabled(c: Client, a: ConnAct) {
    match a
    case SendFail => c.lock.Free?
    case CancelCtx => !c.ctxDone
    case CloseConn => c.ctxDone && !c.connClosed
  }

  predicate Enabled(c: Client, a: Action) {
    match a
    case Create(ca) => CreateEnabled(c, ca)
    case Call(n, ka) => n < |c.objs| && CallEnabled(c, c.objs[n], ka)
    case Deliver(da) =>
      InDelivery(c.loop) && c.loop.n < |c.objs| && DeliverEnabled(c.loop, c.ctxDone, c.objs[c.loop.n], da)
    case Loop(la) => LoopEnabled(c, la)
    case Conn(na) => ConnEnabled(c, na)
  }

  /** The stream object createStream registers. */
  function NewObj(c: Client, desc: Desc, req: Request): Obj {
    Obj(NewStream(c.nextID, BufferFor(desc)), desc, req, Opening, false, |c.looked|, [], [], [], [], 0)
  }

  /** The frame that opens a stream. */
  function FirstFrame(o: Obj): Frame {
    RequestFrame(o.st.id, RequestFlags(o.desc), o.req)
  }

  /** A call on `o` that returned `r` without a message; dispatch then deletes the stream. */
  function Ended(o: Obj, r: Outcome): Obj {
    o.(results := o.results + [r], phase := if o.desc.Unary? then Deleting else o.phase)
  }

  function Took(o: Obj): Obj
    requires o.st.queue != []
  {
    var f := o.st.queue[0];
    var (r, deletes) := Decode(o.desc, f);
    o.(st := Dequeue(o.st), taken := o.taken + [f], results := o.results + [r],
       phase := if deletes then Deleting else o.phase)
  }

  function ClosedBy(o: Obj, err: Option<StreamErr>): Obj {
    o.(st := CloseWithError(o.st, err))
  }

  /** The caller's effect on its own stream. */
  function CallNext(o: Obj, a: CallAct): Obj
    requires a.Take? ==> o.st.queue != []
    requires a.TakeErr? ==> o.st.closed.Some?
  {
    match a
    case SendMsg(data) => o.(sent := o.sent + [data])
    case CloseSend => o.(localClosed := true)
    case Take => Took(o)
    case TakeErr => Ended(o, StreamFailed(o.st.closed.value))
    case CancelCall => Ended(o, Cancelled)
    case ConnDone => Ended(o, ConnClosed)
    case DeleteEntry => o.(phase := Closing)
    case DeleteClose => ClosedBy(o, None).(phase := Over)
    case RecvAfterEnd => Ended(o, EndOfStream)
  }

  function CallWrites(o: Obj, a: CallAct): Option<Frame> {
    match a
    case SendMsg(data) => Some(DataFrame(o.st.id, NO_FLAGS, data))
    case CloseSend => Some(DataFrame(o.st.id, CLOSE_FLAGS, []))
    case _ => None
  }

  /** The receive loop's effect on the stream it is delivering `f` to. */
  function DeliverNext(o: Obj, f: Frame, a: DeliverAct): Obj
    requires a.Push? ==> |o.st.queue| < o.st.cap
  {
    match a
    case Poison => ClosedBy(o, Some(ErrTooLong))
    case Push => o.(st := Enqueue(o.st, f), accepted := o.accepted + [f])
    case Timeout => ClosedBy(o, Some(ErrStreamFull)).(timeouts := o.timeouts + 1)
    case _ => o
  }

  function DeliverLoop(loop: Loop, a: DeliverAct): Loop
    requires InDelivery(loop)
  {
    match a
    case Open => Selecting(loop.n, loop.f)
    case Wait => Waiting(loop.n, loop.f)
    case _ => Top
  }

  function Record(out: seq<Sent>, n: nat, w: Option<Frame>): seq<Sent> {
    if w.Some? then out + [Sent(n, w.value)] else out
  }

  /** cleanupStreams: every registered stream is closed and the map emptied under one lock. */
  function CloseAll(objs: seq<Obj>, which: set<nat>, err: StreamErr): seq<Obj> {
    seq(|objs|, i requires 0 <= i < |objs| => if i in which then ClosedBy(objs[i], Some(err)) else objs[i])
  }

  function CreateApply(c: Client, a: CreateAct): Client
    requires CreateEnabled(c, a)
  {
    match a
    case Lock(desc, req) => c.(lock := Held(desc, req))
    case Alloc =>
      c.(objs := c.objs + [NewObj(c, c.lock.desc, c.lock.req)],
         streams := c.streams[c.nextID := |c.objs|],
         nextID := (c.nextID + 2) % ID_SPACE,
         lock := Allocated(|c.objs|))
    case Abort => c.(lock := Free)
    case FirstSend =>
      var n := c.lock.n;
      c.(out := c.out + [Sent(n, FirstFrame(c.objs[n]))], objs := c.objs[n := c.objs[n].(phase := Ready)], lock := Free)
    case FirstSendFail(breaks) =>
      var n := c.lock.n;
      c.(objs := c.objs[n := c.objs[n].(phase := TurnedAway)], lock := Free, broken := c.broken || breaks)
  }

  function CallApply(c: Client, n: nat, a: CallAct): Client
    requires n < |c.objs| && CallEnabled(c, c.objs[n], a)
  {
    var o := c.objs[n];
    c.(objs := c.objs[n := CallNext(o, a)],
       out := Record(c.out, n, CallWrites(o, a)),
       streams := if a.DeleteEntry? then c.streams - {o.st.id} else c.streams)
  }

  function DeliverApply(c: Client, a: DeliverAct): Client
    requires InDelivery(c.loop) && c.loop.n < |c.objs| && DeliverEnabled(c.loop, c.ctxDone, c.objs[c.loop.n], a)
  {
    var n := c.loop.n;
    c.(objs := c.objs[n := DeliverNext(c.objs[n], c.loop.f, a)], loop := DeliverLoop(c.loop, a))
  }

  function LoopApply(c: Client, a: LoopAct): Client
    requires LoopEnabled(c, a)
  {
    match a
    case Stop => c.(loop := Exited(ErrClosed))
    case Go => c.(loop := Reading)
    case Read(f) => c.(loop := Have(f))
    case ReadErr(err) => c.(loop := Exited(err))
    case Lookup =>
      var f := c.loop.f;
      c.(looked := c.looked + [f],
         loop := if f.id in c.streams then Delivering(c.streams[f.id], f) else Top)
    case RunClose => c.(loop := Cleaning(c.loop.err))
    case Cleanup =>
      c.(objs := CloseAll(c.objs, c.streams.Values, c.loop.err), streams := map[], loop := Finished)
  }

  function ConnApply(c: Client, a: ConnAct): Client
    requires ConnEnabled(c, a)
  {
    match a
    case SendFail => c.(broken := true)
    case CancelCtx => c.(ctxDone := true)
    case CloseConn => c.(connClosed := true)
  }

  function Apply(c: Client, a: Action): Client
    requires Enabled(c, a)
  {
    match a
    case Create(ca) => CreateApply(c, ca)
    case Call(n, ka) => CallApply(c, n, ka)
    case Deliver(da) => DeliverApply(c, da)
    case Loop(la) => LoopApply(c, la)
    case Conn(na) => ConnApply(c, na)
  }

  /** A run: a start state, then one enabled step after another. */
  ghost predicate IsRun(states: seq<Client>, acts: seq<Action>) {
    && |states| == |acts| + 1
    && Init(states[0])
    && (forall i {:trigger acts[i]} :: 0 <= i < |acts| ==>
          Enabled(states[i], acts[i]) && states[i + 1] == Apply(states[i], acts[i]))
  }

  ghost predicate Reachable(c: Client) {
    exists states, acts :: IsRun(states, acts) && c == states[|acts|]
  }

  /** A run goes on. */
  lemma {:induction false} ReachableStep(c: Client, a: Action)
    requires Reachable(c) && Enabled(c, a)
    ensures Reachable(Apply(c, a))
  {
    var states, acts :| IsRun(states, acts) && c == states[|acts|];
    var states', acts' := states + [Apply(c, a)], acts + [a];
    forall i | 0 <= i < |acts'| ensures Enabled(states'[i], acts'[i]) && states'[i + 1] == Apply(states'[i], acts'[i]) {
      if i < |acts| {
        assert acts'[i] == acts[i];
      }
    }
    assert IsRun(states', acts');
  }

  /** A property that no step of any run can break. */
  ghost predicate Invariant(p: Client -> bool) {
    && (forall c :: Init(c) ==> p(c))
    && (forall c, a {:trigger p(c), Enabled(c, a)} :: p(c) && Enabled(c, a) ==> p(Apply(c, a)))
  }

  /** Every invariant holds: another way to say that a state is reachable, which is easier to
      carry along. */
  ghost predicate Lawful(c: Client) {
    forall p: Client -> bool :: Invariant(p) ==> p(c)
  }

  lemma {:induction false} LawfulStart(c: Client)
    requires Init(c)
    ensures Lawful(c)
  {
  }

  lemma {:induction false} LawfulStep(c: Client, a: Action)
    requires Lawful(c) && Enabled(c, a)
    ensures Lawful(Apply(c, a))
  {
    forall p: Client -> bool | Invariant(p) ensures p(Apply(c, a)) {
      assert p(c);
    }
  }

  lemma {:induction false} LawfulIsReachable(c: Client)
    ensures Lawful(c) <==> Reachable(c)
  {
    var p := (x: Client) => Reachable(x);
    if Lawful(c) {
      forall x, a | p(x) && Enabled(x, a) ensures p(Apply(x, a)) {
        ReachableStep(x, a);
      }
      forall x | Init(x) ensures p(x) {
        assert IsRun([x], []);
      }
      assert Invariant(p) && p(c);
    }
    if Reachable(c) {
      var states, acts :| IsRun(states, acts) && c == states[|acts|];
      LawfulAt(states, acts, |acts|);
    }
  }

  lemma {:induction false} LawfulAt(states: seq<Client>, acts: seq<Action>, i: nat)
    requires IsRun(states, acts) && i <= |acts|
    ensures Lawful(states[i])
    decreases i
  {
    if i == 0 {
      LawfulStart(states[0]);
    } else {
      var j: nat := i - 1;
      LawfulAt(states, acts, j);
      var a := acts[j];
      LawfulStep(states[j], a);
    }
  }
}
