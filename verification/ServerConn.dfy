/** The server end of a connection as a state machine: the receiver goroutine and the
    sender loop of serverConn.run (server.go), and the handler goroutines started by
    serviceSet.handle (services.go). A step is one atomic action of one of them: a
    channel rendezvous, one select, a map Store or Delete, an atomic add, one frame. The
    peer may send any frames.

    Handlers are numbered in the order they were started, and a handler is the record of
    its goroutine, its streamHandler and what it did. */
module ServerConn {
  import opened Frames

  datatype StreamInfo = StreamInfo(client: bool, server: bool)

  datatype ServiceDesc = ServiceDesc(methods: set<string>, streams: map<string, StreamInfo>)

  type Services = map<string, ServiceDesc>

  datatype Kind = Method | Stream(info: StreamInfo)

  /** What serviceSet.handle finds for a request: methods first, then streams. */
  function Resolve(svc: Services, req: Request): Option<Kind> {
    if req.service !in svc then None
    else if req.procedure in svc[req.service].methods then Some(Method)
    else if req.procedure in svc[req.service].streams then Some(Stream(svc[req.service].streams[req.procedure]))
    else None
  }

  // ---- what a request asks for, by the registered services ----

  /** The service has a unary method of that name. */
  predicate NamesMethod(svc: Services, req: Request) {
    req.service in svc && req.procedure in svc[req.service].methods
  }

  /** The service has a stream of that name and no unary method. */
  predicate NamesStream(svc: Services, req: Request) {
    req.service in svc && req.procedure !in svc[req.service].methods && req.procedure in svc[req.service].streams
  }

  /** The request is for such a procedure, registered just so. */
  predicate Serves(svc: Services, req: Request, kind: Kind) {
    match kind
    case Method => NamesMethod(svc, req)
    case Stream(info) => NamesStream(svc, req) && svc[req.service].streams[req.procedure] == info
  }

  predicate Unknown(svc: Services, req: Request) {
    !NamesMethod(svc, req) && !NamesStream(svc, req)
  }

  /** handle finds what is registered, and nothing exactly if nothing is. */
  lemma {:induction false} ResolveMeans(svc: Services, req: Request)
    ensures forall kind :: Resolve(svc, req) == Some(kind) <==> Serves(svc, req, kind)
    ensures Resolve(svc, req) == None <==> Unknown(svc, req)
  {
  }

  /** A handler goroutine: running the method, blocked in respond for a message or for its
      result, answered, or turned away because the connection was done. */
  datatype HPhase = Working | Sending(msg: Option<Bytes>) | Returning | Answered | Dropped

  /** `final` is the result the method returned. History: `fed` everything put in the
      queue, `taken` what RecvMsg returned, `sent` the messages the sender loop accepted,
      whether a data() call failed, whether RecvMsg returned io.EOF, how often the queue
      was closed and by which frame. */
  datatype Handler = Handler(
    id: StreamID, kind: Kind, reqAt: nat, req: Request,
    queue: seq<Bytes>, cap: nat, remoteClosed: bool, ctxDone: bool, phase: HPhase,
    final: Option<(Status, Option<Bytes>)>,
    fed: seq<Bytes>, taken: seq<Bytes>, sent: seq<Option<Bytes>>,
    feedErr: bool, sawEOF: bool, closes: nat, closedAt: nat)

  /** Who produced a response: a handler, or the rejection of the k-th frame received. */
  datatype Origin = FromHandler(h: nat) | FromFrame(k: nat)

  datatype Resp = Resp(
    id: StreamID, status: Status, data: Option<Bytes>, streaming: bool, closeStream: bool, origin: Origin)

  /** streamHandler.data: the remoteClosed check, the first select, the one with the timer. */
  datatype Stage = Check | Choose | Full

  /** The receiver goroutine; in `Blocked` it waits in recv, in `Cut` the connection has failed
      under it, and after `Got` it works on the last frame received. */
  datatype Receiver =
    | AtTop | Blocked | Cut(eof: bool) | Got
    | Rejecting(reason: Reason)
    | Starting(h: nat, stage: Stage)
    | Storing(h: nat)
    | Counting(h: nat)
    | Feeding(h: nat, stage: Stage)
    | Finishing(h: nat)
    | Gone

  /** The sender loop. `idle` is whether the shutdown case is enabled. */
  datatype Sender =
    | Loading | Selecting(idle: bool)
    | Writing(r: Resp) | Deleting(r: Resp) | Subtracting
    | Leaving | Left | Closed

  /** `errBox` is the recvErr channel (is the error an end of file?), `errSeen` whether
      the loop has set it to nil. History: frames received, responses accepted by the
      sender loop and responses written, rejections by frame index, additions to and
      subtractions from `active`, and handlers whose initial data could not be queued. */
  datatype Server = Server(
    svc: Services, rp: Receiver, lastID: StreamID, streams: map<StreamID, nat>, active: int,
    handlers: seq<Handler>, sp: Sender, shutdown: bool, done: bool,
    errBox: Option<bool>, errSeen: bool,
    inLog: seq<Frame>, acc: seq<Resp>, out: seq<Resp>, rejected: map<nat, Reason>,
    adds: nat, decs: nat, startFails: nat)

  const STREAM_BUFFER := 64

  function NewServer(svc: Services): Server {
    Server(svc, AtTop, 0, map[], 0, [], Loading, false, false, None, false, [], [], [], map[], 0, 0, 0)
  }

  ghost predicate Init(s: Server) {
    s == NewServer(s.svc)
  }

  datatype RecvAct =
    | Quit
    | Proceed
    | Read(f: Frame)
    | Break(eof: bool)
    | ReadErr(eof: bool)
    | Dispatch
    | FeedCheck
    | Feed
    | FeedWait
    | FeedErr
    | Finish
    | Store
    | Count
    | DropReject

  datatype SendAct =
    | Load
    | AcceptReject
    | Accept(h: nat)
    | Write
    | WriteFail
    | Delete
    | Subtract
    | SeeErr
    | SeeShutdown
    | CloseDone
    | CloseConn

  datatype HandlerAct =
    | HSend(msg: Option<Bytes>)
    | HRecv
    | HRecvEOF
    | HReturn(status: Status, data: Option<Bytes>)
    | HDrop
    | HCtxDone

  datatype Action =
    | Recv(ra: RecvAct)
    | Send(sa: SendAct)
    | Handle(h: nat, ha: HandlerAct)
    | Shutdown

  // ---- responses ----

  function MessageResp(h: nat, o: Handler, msg: Option<Bytes>): Resp {
    Resp(o.id, OK, msg, true, false, FromHandler(h))
  }

  function FinalResp(h: nat, o: Handler): Resp
    requires o.final.Some?
  {
    Resp(o.id, o.final.value.0, o.final.value.1, o.kind.Stream? && o.kind.info.server, true, FromHandler(h))
  }

  function RejectResp(k: nat, id: StreamID, reason: Reason): Resp {
    Resp(id, Rejected(reason), None, false, true, FromFrame(k))
  }

  /** The frame the sender loop writes for a response. */
  function FrameOf(r: Resp): Frame {
    if !r.streaming || r.status != OK then ResponseFrame(r.id, r.status, r.data.GetOr([]))
    else DataFrame(r.id, Flags(r.closeStream, false, r.data.None?), r.data.GetOr([]))
  }

  // ---- the receiver ----

  function Last(s: Server): Frame
    requires s.inLog != []
  {
    s.inLog[|s.inLog| - 1]
  }

  /** Whether handle queues the request's payload: an empty payload arrives as nil. */
  predicate HasInitial(kind: Kind, req: Request) {
    kind.Stream? && (req.payload != [] || !kind.info.client)
  }

  function NewHandler(s: Server, id: StreamID, kind: Kind, req: Request): Handler
    requires s.inLog != []
  {
    Handler(id, kind, |s.inLog| - 1, req,
            [], if kind.Stream? && !kind.info.client then 1 else STREAM_BUFFER, false, false, Working, None,
            [], [], [], false, false, 0, 0)
  }

  /** The data the receiver is putting into handler h's queue. */
  function FeedData(s: Server, o: Handler): Bytes {
    if s.rp.Starting? then o.req.payload
    else if s.inLog != [] && Last(s).DataFrame? then Last(s).data
    else []
  }

  predicate InFeed(rp: Receiver) {
    rp.Starting? || rp.Feeding?
  }

  function WithStage(rp: Receiver, stage: Stage): Receiver
    requires InFeed(rp)
  {
    if rp.Starting? then Starting(rp.h, stage) else Feeding(rp.h, stage)
  }

  function AfterFeed(rp: Receiver): Receiver
    requires InFeed(rp)
  {
    if rp.Starting? then Storing(rp.h) else Finishing(rp.h)
  }

  predicate Stopping(s: Server) {
    s.shutdown || s.done
  }

  /** The nil handler stored for a unary request takes no data; peers do not send any. */
  predicate NilHandler(s: Server, id: StreamID) {
    id in s.streams && s.streams[id] < |s.handlers| && s.handlers[s.streams[id]].kind.Method?
  }

  predicate FeedEnabled(rp: Receiver, o: Handler, a: RecvAct)
    requires InFeed(rp)
  {
    match a
    case FeedCheck => rp.stage.Check? && !o.remoteClosed
    case Feed => !rp.stage.Check? && |o.queue| < o.cap
    case FeedWait => rp.stage.Choose? && |o.queue| >= o.cap && !o.ctxDone
    case FeedErr => (rp.stage.Check? && o.remoteClosed) || (!rp.stage.Check? && o.ctxDone) || rp.stage.Full?
    case _ => false
  }

  predicate RecvEnabled(s: Server, a: RecvAct) {
    match a
    case Quit => s.rp.AtTop? && Stopping(s)
    case Proceed => s.rp.AtTop? && !Stopping(s)
    case Read(_) => s.rp.Blocked?
    case Break(_) => s.rp.Blocked?
    case ReadErr(eof) => s.rp == Cut(eof) || (s.rp.Blocked? && s.sp.Closed? && !eof)
    case Dispatch => s.rp.Got? && s.inLog != [] && !(Last(s).DataFrame? && NilHandler(s, Last(s).id))
    case Finish => s.rp.Finishing? && s.inLog != [] && Last(s).DataFrame? && s.rp.h < |s.handlers|
    case Store => s.rp.Storing? && s.rp.h < |s.handlers|
    case Count => s.rp.Counting?
    case DropReject => s.rp.Rejecting? && Stopping(s)
    case _ => InFeed(s.rp) && s.rp.h < |s.handlers| && FeedEnabled(s.rp, s.handlers[s.rp.h], a)
  }

  function Reject(s: Server, reason: Reason): Server
    requires s.inLog != []
  {
    s.(rp := Rejecting(reason), rejected := s.rejected[|s.inLog| - 1 := reason])
  }

  function Start(s: Server, id: StreamID, kind: Kind, req: Request): Server
    requires s.inLog != []
  {
    var h := |s.handlers|;
    s.(handlers := s.handlers + [NewHandler(s, id, kind, req)],
       rp := if HasInitial(kind, req) then Starting(h, Check) else Storing(h))
  }

  /** What the receiver makes of the frame it has read: turn it down (perhaps after
      recording its id), go on to another phase, or start a handler under its id. */
  datatype Verdict =
    | TurnDown(lastID: StreamID, reason: Reason)
    | MoveOn(rp: Receiver)
    | Begin(kind: Kind, req: Request)

  function Judge(s: Server): Verdict
    requires s.inLog != []
  {
    var f := Last(s);
    if f.TooLong? then TurnDown(s.lastID, OverLimit)
    else if f.id % 2 != 1 then TurnDown(s.lastID, MustBeOdd)
    else if f.DataFrame? then
      if f.id !in s.streams then TurnDown(s.lastID, NotActive)
      else if f.flags.noData then MoveOn(Finishing(s.streams[f.id]))
      else MoveOn(Feeding(s.streams[f.id], Check))
    else if f.OpensStream() then
      if f.id <= s.lastID then TurnDown(s.lastID, MustIncrement)
      else if f.BadRequestFrame? then TurnDown(f.id, BadBody)
      else
        match Resolve(s.svc, f.req)
        case None => TurnDown(f.id, Unimplemented)
        case Some(kind) => Begin(kind, f.req)
    else MoveOn(AtTop)
  }

  function Follow(s: Server, v: Verdict): Server
    requires s.inLog != []
  {
    match v
    case TurnDown(id, reason) => Reject(s.(lastID := id), reason)
    case MoveOn(rp) => s.(rp := rp)
    case Begin(kind, req) => Start(s.(lastID := Last(s).id), Last(s).id, kind, req)
  }

  function Queued(o: Handler, data: Bytes): Handler {
    o.(queue := o.queue + [data], fed := o.fed + [data])
  }

  /** closeSend: closes the queue unless it is closed. */
  function SendClosed(o: Handler, at: nat): Handler {
    if o.remoteClosed then o else o.(remoteClosed := true, closes := o.closes + 1, closedAt := at)
  }

  function FeedApply(s: Server, a: RecvAct): Server
    requires InFeed(s.rp) && s.rp.h < |s.handlers| && FeedEnabled(s.rp, s.handlers[s.rp.h], a) && s.inLog != []
  {
    var h := s.rp.h;
    var o := s.handlers[h];
    match a
    case FeedCheck => s.(rp := WithStage(s.rp, Choose))
    case FeedWait => s.(rp := WithStage(s.rp, Full))
    case Feed => s.(handlers := s.handlers[h := Queued(o, FeedData(s, o))], rp := AfterFeed(s.rp))
    case FeedErr =>
      var s1 := s.(handlers := s.handlers[h := o.(feedErr := true)],
                   startFails := s.startFails + if s.rp.Starting? then 1 else 0);
      Reject(s1, if s.rp.Starting? then StartError else DataError)
  }

  /** The end of a data frame: close the queue if the frame says so. */
  function FinishApply(s: Server): Server
    requires s.rp.Finishing? && s.inLog != [] && Last(s).DataFrame? && s.rp.h < |s.handlers|
  {
    var h := s.rp.h;
    var f := Last(s);
    var o := s.handlers[h];
    var bad := f.flags.remoteClosed && |f.data| > 0;
    s.(handlers := s.handlers[h := if f.flags.remoteClosed then SendClosed(o, |s.inLog| - 1) else o],
       rp := if bad then Rejecting(CloseWithData) else AtTop,
       rejected := if bad then s.rejected[|s.inLog| - 1 := CloseWithData] else s.rejected)
  }

  function RecvApply(s: Server, a: RecvAct): Server
    requires RecvEnabled(s, a)
    requires InFeed(s.rp) ==> s.inLog != []
  {
    match a
    case Quit => s.(rp := Gone)
    case Proceed => s.(rp := Blocked)
    case Read(f) => s.(rp := Got, inLog := s.inLog + [f])
    case Break(eof) => s.(rp := Cut(eof))
    case ReadErr(eof) => s.(rp := Gone, errBox := Some(eof))
    case Dispatch => Follow(s, Judge(s))
    case Finish => FinishApply(s)
    case Store => s.(streams := s.streams[s.handlers[s.rp.h].id := s.rp.h], rp := Counting(s.rp.h))
    case Count => s.(active := s.active + 1, adds := s.adds + 1, rp := AtTop)
    case DropReject => s.(rp := Gone)
    case _ => FeedApply(s, a)
  }

  // ---- handlers ----

  /** What a method can return: a message for OK from a unary one, nothing with an error. */
  predicate CanReturn(kind: Kind, status: Status, data: Option<Bytes>) {
    (status != OK ==> data.None?) && (kind.Method? && status == OK ==> data.Some?)
  }

  predicate HandleEnabled(s: Server, o: Handler, a: HandlerAct) {
    match a
    case HSend(_) => o.phase.Working? && o.kind.Stream?
    case HRecv => o.phase.Working? && o.kind.Stream? && o.queue != []
    case HRecvEOF => o.phase.Working? && o.kind.Stream? && o.queue == [] && o.remoteClosed
    case HReturn(status, data) => o.phase.Working? && CanReturn(o.kind, status, data)
    case HDrop => (o.phase.Sending? || o.phase.Returning?) && s.done
    case HCtxDone => true
  }

  function HandleNext(o: Handler, a: HandlerAct): Handler
    requires a.HRecv? ==> o.queue != []
  {
    match a
    case HSend(msg) => o.(phase := Sending(msg))
    case HRecv => o.(queue := o.queue[1..], taken := o.taken + [o.queue[0]])
    case HRecvEOF => o.(sawEOF := true)
    case HReturn(status, data) => o.(phase := Returning, final := Some((status, data)))
    case HDrop => o.(phase := if o.phase.Sending? then Working else Dropped)
    case HCtxDone => o.(ctxDone := true)
  }

  function HandleApply(s: Server, h: nat, a: HandlerAct): Server
    requires h < |s.handlers| && HandleEnabled(s, s.handlers[h], a)
  {
    s.(handlers := s.handlers[h := HandleNext(s.handlers[h], a)])
  }

  // ---- the sender loop ----

  predicate CanAccept(o: Handler) {
    o.phase.Sending? || (o.phase.Returning? && o.final.Some?)
  }

  function Offered(h: nat, o: Handler): Resp
    requires CanAccept(o)
  {
    if o.phase.Sending? then MessageResp(h, o, o.phase.msg) else FinalResp(h, o)
  }

  function Accepted(o: Handler): Handler
    requires CanAccept(o)
  {
    if o.phase.Sending? then o.(phase := Working, sent := o.sent + [o.phase.msg]) else o.(phase := Answered)
  }

  predicate SendEnabled(s: Server, a: SendAct) {
    match a
    case Load => s.sp.Loading?
    case AcceptReject => s.sp.Selecting? && s.rp.Rejecting? && s.inLog != []
    case Accept(h) => s.sp.Selecting? && h < |s.handlers| && CanAccept(s.handlers[h])
    case Write => s.sp.Writing?
    case WriteFail => s.sp.Writing?
    case Delete => s.sp.Deleting?
    case Subtract => s.sp.Subtracting?
    case SeeErr => s.sp.Selecting? && !s.errSeen && (s.errBox.Some? || s.rp.Gone?)
    case SeeShutdown => s.sp == Selecting(true) && s.shutdown
    case CloseDone => s.sp.Leaving?
    case CloseConn => s.sp.Left?
  }

  function Take(s: Server, r: Resp): Server {
    s.(sp := Writing(r), acc := s.acc + [r])
  }

  function SendApply(s: Server, a: SendAct): Server
    requires SendEnabled(s, a)
  {
    match a
    case Load => s.(sp := Selecting(s.active <= 0))
    case AcceptReject => Take(s, RejectResp(|s.inLog| - 1, Last(s).id, s.rp.reason)).(rp := AtTop)
    case Accept(h) =>
      var o := s.handlers[h];
      Take(s, Offered(h, o)).(handlers := s.handlers[h := Accepted(o)])
    case Write => s.(out := s.out + [s.sp.r], sp := if s.sp.r.closeStream then Deleting(s.sp.r) else Loading)
    case WriteFail => s.(sp := Leaving)
    case Delete => s.(streams := s.streams - {s.sp.r.id}, sp := Subtracting)
    case Subtract => s.(active := s.active - 1, decs := s.decs + 1, sp := Loading)
    case SeeErr => s.(errSeen := true, sp := if s.errBox.Some? && s.errBox.value then Leaving else Loading)
    case SeeShutdown => s.(sp := Leaving)
    case CloseDone => s.(sp := Left, done := true)
    case CloseConn => s.(sp := Closed)
  }

  // ---- the connection ----

  predicate Enabled(s: Server, a: Action) {
    match a
    case Recv(ra) => RecvEnabled(s, ra) && (InFeed(s.rp) ==> s.inLog != [])
    case Send(sa) => SendEnabled(s, sa)
    case Handle(h, ha) => h < |s.handlers| && HandleEnabled(s, s.handlers[h], ha)
    case Shutdown => !s.shutdown
  }

  function Apply(s: Server, a: Action): Server
    requires Enabled(s, a)
  {
    match a
    case Recv(ra) => RecvApply(s, ra)
    case Send(sa) => SendApply(s, sa)
    case Handle(h, ha) => HandleApply(s, h, ha)
    case Shutdown => s.(shutdown := true)
  }

  ghost predicate IsRun(states: seq<Server>, acts: seq<Action>) {
    && |states| == |acts| + 1
    && Init(states[0])
    && (forall i {:trigger acts[i]} :: 0 <= i < |acts| ==>
          Enabled(states[i], acts[i]) && states[i + 1] == Apply(states[i], acts[i]))
  }

  ghost predicate Reachable(s: Server) {
    exists states, acts :: IsRun(states, acts) && s == states[|acts|]
  }

  /** A run goes on. */
  lemma {:induction false} ReachableStep(s: Server, a: Action)
    requires Reachable(s) && Enabled(s, a)
    ensures Reachable(Apply(s, a))
  {
    var states, acts :| IsRun(states, acts) && s == states[|acts|];
    var states', acts' := states + [Apply(s, a)], acts + [a];
    forall i | 0 <= i < |acts'| ensures Enabled(states'[i], acts'[i]) && states'[i + 1] == Apply(states'[i], acts'[i]) {
      if i < |acts| {
        assert acts'[i] == acts[i];
      }
    }
    assert IsRun(states', acts');
  }

  /** A property that no step of any run can break. */
  ghost predicate Invariant(p: Server -> bool) {
    && (forall s :: Init(s) ==> p(s))
    && (forall s, a {:trigger p(s), Enabled(s, a)} :: p(s) && Enabled(s, a) ==> p(Apply(s, a)))
  }

  /** Every invariant holds: another way to say that a state is reachable, which is easier to
      carry along. */
  ghost predicate Lawful(s: Server) {
    forall p: Server -> bool :: Invariant(p) ==> p(s)
  }

  lemma {:induction false} LawfulStart(s: Server)
    requires Init(s)
    ensures Lawful(s)
  {
  }

  lemma {:induction false} LawfulStep(s: Server, a: Action)
    requires Lawful(s) && Enabled(s, a)
    ensures Lawful(Apply(s, a))
  {
    forall p: Server -> bool | Invariant(p) ensures p(Apply(s, a)) {
      assert p(s);
    }
  }

  lemma {:induction false} LawfulIsReachable(s: Server)
    ensures Lawful(s) <==> Reachable(s)
  {
    var p := (x: Server) => Reachable(x);
    if Lawful(s) {
      forall x, a | p(x) && Enabled(x, a) ensures p(Apply(x, a)) {
        ReachableStep(x, a);
      }
      forall x | Init(x) ensures p(x) {
        assert IsRun([x], []);
      }
      assert Invariant(p) && p(s);
    }
    if Reachable(s) {
      var states, acts :| IsRun(states, acts) && s == states[|acts|];
      LawfulAt(states, acts, |acts|);
    }
  }

  lemma {:induction false} LawfulAt(states: seq<Server>, acts: seq<Action>, i: nat)
    requires IsRun(states, acts) && i <= |acts|
    ensures Lawful(states[i])
    decreases i
  {
    if i == 0 {
      LawfulStart(states[0]);
    } else {
      var j: nat := i - 1;
      LawfulAt(states, acts, j);
      var a := acts[j];
      LawfulStep(states[j], a);
    }
  }
}
