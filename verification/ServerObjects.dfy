/** The server connection's objects as the code has them: the handler's queue with its
    remoteClosed flag, and the variables of serverConn.run that its two goroutines share.
    Every method is one region of the code and is proved to take exactly the steps of the
    machine in ServerConn: `model` is the machine's state, reachable whenever `Valid` holds.

    Data that is queued sits in the pooled buffer it was received in until the handler
    unmarshals it. `Backed` and `Holding` say that each such buffer is on loan to its place in
    its queue and still has the bytes that were received. */
module ServerObjects {
  import opened Frames
  import opened Framing
  import opened BufferLife
  import opened BufferPool
  import opened WireCodec
  import opened Messages
  import Channel
  import M = ServerConn

  /** What RecvMsg will unmarshal: the request's own payload, which was copied when the request
      was decoded, or the payload of a data frame. */
  datatype Item = Initial(data: Bytes) | Wire(payload: Payload)

  ghost predicate Carried(pool: Pool, item: Item, data: Bytes, holder: Holder)
    reads pool`loans, pool.loans.Keys
  {
    match item
    case Initial(d) => d == data
    case Wire(p) => Lent(pool, p, holder) && Contents(p) == data
  }

  /** streamHandler: its receive queue, the flag closeSend sets, and its context. `first`
      counts the items taken, `closes` how often the queue was closed. */
  class StreamHandler {
    const cap: nat
    var queue: seq<Item>
    var remoteClosed: bool
    var ctxDone: bool
    ghost const pool: Pool
    ghost const number: nat
    ghost var recv: seq<Bytes>
    ghost var first: nat
    ghost var closes: nat

    constructor (cap: nat, ghost pool: Pool, ghost number: nat)
      ensures this.cap == cap && recv == [] && !remoteClosed && !ctxDone && closes == 0
      ensures this.pool == pool && this.number == number && Backed()
    {
      this.cap := cap;
      this.pool := pool;
      this.number := number;
      queue := [];
      recv := [];
      first := 0;
      closes := 0;
      remoteClosed := false;
      ctxDone := false;
    }

    ghost predicate Shows(o: M.Handler)
      reads this
    {
      && cap == o.cap && recv == o.queue && remoteClosed == o.remoteClosed && ctxDone == o.ctxDone
      && closes == o.closes
    }

    ghost predicate Backed()
      reads this`queue, this`recv, this`first, pool`loans, pool.loans.Keys
    {
      && |queue| == |recv|
      && forall i :: 0 <= i < |queue| ==> Carried(pool, queue[i], recv[i], InQueue(this, first + i))
    }

    /** closeSend: only the first call closes the queue. */
    method CloseSend()
      modifies this`remoteClosed, this`closes
      ensures remoteClosed && closes == if old(remoteClosed) then old(closes) else old(closes) + 1
    {
      if !remoteClosed {
        remoteClosed := true;
        closes := closes + 1;
      }
    }

    /** The receiver that read the item puts it into the queue. */
    method Enqueue(item: Item, ghost data: Bytes, ghost loop: object)
      requires pool.Sound() && Backed() && Carried(pool, item, data, InLoop(loop))
      modifies this`queue, this`recv, pool`loans
      ensures pool.Sound() && Backed() && queue == old(queue) + [item] && recv == old(recv) + [data]
      ensures KeptFor(old(pool.loans), pool.loans, {loop})
      ensures forall b :: b in old(pool.loans) && old(pool.loans)[b] != InLoop(loop) ==>
                b in pool.loans && pool.loans[b] == old(pool.loans)[b]
    {
      ghost var k := first + |queue|;
      queue := queue + [item];
      recv := recv + [data];
      if item.Wire? && item.payload.Some? {
        pool.Pass(item.payload.value.buf, InQueue(this, k));
      }
      StillQueued();
    }

    /** The oldest item is taken, and with it the right to read and return its buffer. */
    method Dequeue() returns (item: Item, ghost data: Bytes)
      requires Backed() && queue != []
      modifies this`queue, this`recv, this`first
      ensures Backed() && queue == old(queue)[1..] && recv == old(recv)[1..] && first == old(first) + 1
      ensures item == old(queue)[0] && data == old(recv)[0] && Carried(pool, item, data, InQueue(this, first - 1))
    {
      item, data := queue[0], recv[0];
      assert Carried(pool, queue[0], recv[0], InQueue(this, first + 0));
      queue := queue[1..];
      recv := recv[1..];
      first := first + 1;
      assert forall i :: 0 <= i < |queue| ==> queue[i] == old(queue)[i + 1] && recv[i] == old(recv)[i + 1];
    }

    /** Whatever others do with buffers that are theirs, the queue's items stay. */
    twostate lemma {:induction false} StillBacked()
      requires old(Backed()) && queue == old(queue) && recv == old(recv) && first == old(first)
      requires forall k: nat, b :: b in old(pool.loans) && old(pool.loans)[b] == InQueue(this, k) && k >= first ==>
                 b in pool.loans && pool.loans[b] == old(pool.loans)[b] && b[..] == old(b[..])
      ensures Backed()
    {
      forall i | 0 <= i < |queue| ensures Carried(pool, queue[i], recv[i], InQueue(this, first + i)) {
        assert old(Carried(pool, queue[i], recv[i], InQueue(this, first + i)));
        if queue[i].Wire? && queue[i].payload.Some? {
          var p := queue[i].payload.value;
          assert old(pool.loans)[p.buf] == InQueue(this, first + i);
          assert p.buf[..p.len] == p.buf[..][..p.len];
        }
      }
    }

    /** The items queued before stay where they were. */
    twostate lemma {:induction false} StillQueued()
      requires old(Backed()) && first == old(first) && |queue| == |recv| == |old(queue)| + 1
      requires queue[..|old(queue)|] == old(queue) && recv[..|old(recv)|] == old(recv)
      requires forall k: nat, b :: b in old(pool.loans) && old(pool.loans)[b] == InQueue(this, k) ==>
                 b in pool.loans && pool.loans[b] == old(pool.loans)[b] && b[..] == old(b[..])
      requires var k := |queue| - 1; Carried(pool, queue[k], recv[k], InQueue(this, first + k))
      ensures Backed()
    {
      forall i | 0 <= i < |queue| - 1 ensures Carried(pool, queue[i], recv[i], InQueue(this, first + i)) {
        assert queue[i] == old(queue)[i] && recv[i] == old(recv)[i];
        assert old(Carried(pool, queue[i], recv[i], InQueue(this, first + i)));
        if queue[i].Wire? && queue[i].payload.Some? {
          var p := queue[i].payload.value;
          assert old(pool.loans)[p.buf] == InQueue(this, first + i);
          assert p.buf[..p.len] == p.buf[..][..p.len];
        }
      }
    }
  }

  class ServerConn {
    var services: M.Services
    var lastStreamID: StreamID
    var streams: map<StreamID, StreamHandler?>
    var active: int
    var written: seq<Frame>
    const channel: Channel.Conn
    const pool: Pool
    const codec: Codec
    ghost var made: seq<StreamHandler?>
    ghost var model: M.Server

    ghost function Made(): set<StreamHandler>
      reads this`made
    {
      set sh: StreamHandler | sh in made
    }

    ghost predicate Valid()
      reads this, Made()
    {
      Shows(model.handlers, model.lastID)
    }

    /** The fields are the machine's, with handlers for its handlers and id for its last id. */
    ghost predicate Shows(handlers: seq<M.Handler>, id: StreamID)
      reads this, Made()
    {
      && M.Lawful(model)
      && services == model.svc && lastStreamID == id && active == model.active
      && Wrote(written, model.out)
      && Numbered(made) && Views(made, handlers)
      && Tracks(streams, made, model.streams)
    }

    /** All buffers are where they should be: the queues' items are backed by buffers on loan,
        and the pool is sound. */
    ghost predicate Holding()
      reads this`made, pool, pool.loans.Keys, channel, Made()
    {
      && pool.Sound() && channel.Valid() && channel.Apart(pool)
      && forall h :: 0 <= h < |made| && made[h] != null ==> made[h].pool == pool && made[h].Backed()
    }

    constructor (services: M.Services, channel: Channel.Conn, pool: Pool, codec: Codec)
      requires pool.Sound() && channel.Valid() && channel.Apart(pool)
      ensures Valid() && Holding() && M.Init(model) && this.services == services
      ensures this.channel == channel && this.pool == pool && this.codec == codec
    {
      this.services := services;
      this.channel := channel;
      this.pool := pool;
      this.codec := codec;
      lastStreamID := 0;
      streams := map[];
      active := 0;
      written := [];
      made := [];
      model := M.NewServer(services);
      new;
      M.LawfulStart(model);
    }

    /** The machine moves. */
    ghost method Step(a: M.Action)
      requires M.Lawful(model) && M.Enabled(model, a)
      modifies this`model
      ensures M.Lawful(model) && M.Enabled(old(model), a) && model == M.Apply(old(model), a)
    {
      M.LawfulStep(model, a);
      model := M.Apply(model, a);
    }

    // ---- buffers ----

    /** All queues are as before, and so are their buffers. */
    twostate lemma {:induction false} AllBacked()
      requires made == old(made) && old(Holding()) && unchanged(Made())
      requires forall b :: b in old(pool.loans) && old(pool.loans)[b].InQueue? ==>
                 b in pool.loans && pool.loans[b] == old(pool.loans)[b] && b[..] == old(b[..])
      ensures forall h :: 0 <= h < |made| && made[h] != null ==> made[h].Backed()
    {
      forall h | 0 <= h < |made| && made[h] != null ensures made[h].Backed() {
        assert made[h] in Made();
        made[h].StillBacked();
      }
    }

    /** All queues but that of handler h are as before, and so are their buffers. */
    twostate lemma {:induction false} OthersBacked(h: nat)
      requires made == old(made) && old(Holding()) && h < |made| && made[h] != null && unchanged(Made() - {made[h]})
      requires forall b :: b in old(pool.loans) && old(pool.loans)[b].InQueue? && old(pool.loans)[b].q != made[h] ==>
                 b in pool.loans && pool.loans[b] == old(pool.loans)[b] && b[..] == old(b[..])
      requires made[h].Backed()
      ensures forall g :: 0 <= g < |made| && made[g] != null ==> made[g].Backed()
    {
      forall g | 0 <= g < |made| && made[g] != null ensures made[g].Backed() {
        if made[g] != made[h] {
          assert made[g] in Made() - {made[h]};
          made[g].StillBacked();
        }
      }
    }

    /** What another connection that shares the pool does leaves this one's buffers alone: it
        keeps to its own loans, and the buffers new to the pool are new. */
    twostate lemma {:induction false} Undisturbed(others: set<object>)
      requires old(Holding()) && made == old(made) && unchanged(Made()) && unchanged(channel) && pool.Sound()
      requires this !in others && others !! Made()
      requires KeptFor(old(pool.loans), pool.loans, others) && fresh(pool.seen - old(pool.seen))
      requires forall b :: b in old(pool.loans) ==> b[..] == old(b[..])
      ensures Holding()
    {
      forall h | 0 <= h < |made| && made[h] != null ensures made[h].Backed() {
        assert made[h] in Made();
        made[h].StillBacked();
      }
    }

    /** recv, by the receiver, which then holds the payload of the message read. */
    method Receive(pick: nat) returns (msg: Msg, err: Option<Received>, ghost r: Received)
      requires Holding()
      modifies channel`input, channel.hrbuf, pool, pool.Free()
      ensures Holding() && Framing.Recv(old(channel.input)) == (r, channel.input)
      ensures err == if r.Message? then None else Some(r)
      ensures r.Oversized? ==> msg.h == r.h
      ensures r.Message? ==> msg.h == r.h && Carries(pool, codec, msg, Decode(codec, r), InLoop(this))
      ensures KeptFor(old(pool.loans), pool.loans, {}) && fresh(pool.seen - old(pool.seen))
      ensures forall b :: b in old(pool.loans) ==> b[..] == old(b[..])
    {
      var h, p;
      h, p, err, r := channel.Recv(pool, pick, InLoop(this));
      AllBacked();
      msg := Msg(h, p);
    }

    /** Unmarshalling a request and returning its buffer, whether it can be read or not. */
    method DecodeRequest(msg: Msg, ghost f: Frame) returns (req: Option<Request>)
      requires Holding() && Carries(pool, codec, msg, f, InLoop(this)) && msg.h.kind == REQUEST
      modifies pool
      ensures Holding() && req == if f.RequestFrame? then Some(f.req) else None
      ensures KeptFor(old(pool.loans), pool.loans, {this}) && pool.seen == old(pool.seen)
    {
      HeaderTells(codec, msg.h, Contents(msg.payload));
      var bytes := pool.Load(msg.payload);
      req := codec.getRequest(bytes);
      pool.Putmbuf(msg.payload);
      AllBacked();
    }

    /** The receiver's item goes into the queue of handler h. */
    method Push(sh: StreamHandler, item: Item, ghost data: Bytes, ghost h: nat)
      requires Holding() && h < |made| && made[h] == sh && Carried(pool, item, data, InLoop(this))
      modifies sh`queue, sh`recv, pool`loans
      ensures Holding() && sh.queue == old(sh.queue) + [item] && sh.recv == old(sh.recv) + [data]
      ensures KeptFor(old(pool.loans), pool.loans, {this}) && pool.seen == old(pool.seen)
    {
      sh.Enqueue(item, data, this);
      OthersBacked(h);
    }

    /** The oldest item leaves the queue of handler h. */
    method Pop(sh: StreamHandler, ghost h: nat) returns (item: Item, ghost data: Bytes)
      requires Holding() && h < |made| && made[h] == sh && sh.queue != []
      modifies sh`queue, sh`recv, sh`first
      ensures Holding() && sh.queue == old(sh.queue)[1..] && old(sh.recv) == [data] + sh.recv && sh.first > 0
      ensures Carried(pool, item, data, InQueue(sh, sh.first - 1))
    {
      item, data := sh.Dequeue();
      OthersBacked(h);
    }

    /** The handler's unmarshal of the item it has taken: the buffer is read and returned. */
    method Unmarshal(sh: StreamHandler, item: Item, ghost data: Bytes, ghost h: nat) returns (bytes: Bytes)
      requires Valid() && Holding() && h < |made| && made[h] == sh && sh.first > 0
      requires Carried(pool, item, data, InQueue(sh, sh.first - 1))
      modifies pool
      ensures Valid() && Holding() && bytes == data
      ensures KeptFor(old(pool.loans), pool.loans, {sh}) && pool.seen == old(pool.seen)
    {
      match item {
        case Initial(d) => bytes := d;
        case Wire(p) =>
          bytes := pool.Load(p);
          pool.Putmbuf(p);
      }
      sh.StillBacked();
      OthersBacked(h);
    }

    // ---- the receiver ----

    ghost method StepCut(eof: bool)
      requires Valid() && model.rp.Blocked?
      modifies this`model
      ensures Valid() && model == old(model).(rp := M.Gone, errBox := Some(eof))
    {
      Step(M.Recv(M.Break(eof)));
      Step(M.Recv(M.ReadErr(eof)));
    }

    ghost method StepRead(f: Frame)
      requires Valid() && model.rp.Blocked?
      modifies this`model
      ensures Valid() && model == old(model).(rp := M.Got, inLog := old(model).inLog + [f])
    {
      Step(M.Recv(M.Read(f)));
    }

    /** recv and the test of its error: one that is no status ends the receiver (was it an end
        of file?); otherwise the next frame f is at hand. */
    method ReadFrame(pick: nat, eof: bool) returns (msg: Msg, err: Option<Received>, ghost f: Frame)
      requires Valid() && Holding() && model.rp.Blocked?
      modifies this`model, channel`input, channel.hrbuf, pool, pool.Free()
      ensures Valid() && Holding()
      ensures err.Some? && Terminal(err.value) ==> model.rp.Gone? && model.errBox == Some(eof)
      ensures err.Some? && Terminal(err.value) ==> Framing.Recv(old(channel.input)) == (err.value, channel.input)
      ensures err.None? || !Terminal(err.value) ==>
                && model == old(model).(rp := M.Got, inLog := old(model).inLog + [f]) && M.Last(model) == f
                && (exists r :: Framing.Recv(old(channel.input)) == (r, channel.input)
                               && !Terminal(r) && f == Decode(codec, r))
                && msg.h.id == f.id && (err.Some? <==> f.TooLong?)
                && (err.None? ==> Carries(pool, codec, msg, f, InLoop(this)))
      ensures KeptFor(old(pool.loans), pool.loans, {}) && fresh(pool.seen - old(pool.seen))
      ensures forall b :: b in old(pool.loans) ==> b[..] == old(b[..])
    {
      ghost var r;
      msg, err, r := Receive(pick);
      assert Valid();
      f := if Terminal(r) then OtherFrame(0) else Decode(codec, r);
      if err.Some? && !err.value.Oversized? {
        StepCut(eof);
      } else {
        StepRead(f);
      }
    }

    /** serviceSet.handle up to the start of the goroutine: methods before streams. */
    method Handle(req: Request) returns (found: bool, sh: StreamHandler?, ghost kind: M.Kind)
      ensures found <==> M.NamesMethod(services, req) || M.NamesStream(services, req)
      ensures found ==> M.Serves(services, req, kind) && Begun(sh, kind, pool, |made|)
      ensures sh != null ==> found && fresh(sh)
    {
      if req.service !in services {
        return false, null, M.Method;
      }
      var srv := services[req.service];
      if req.procedure in srv.methods {
        return true, null, M.Method;
      }
      if req.procedure in srv.streams {
        sh := new StreamHandler(if srv.streams[req.procedure].client then M.STREAM_BUFFER else 1, pool, |made|);
        return true, sh, M.Stream(srv.streams[req.procedure]);
      }
      return false, null, M.Method;
    }

    /** A request: its id must be new, its body readable, and its method known. */
    method OnRequest(msg: Msg, ghost f: Frame) returns (reason: Option<Reason>, sh: StreamHandler?, ghost v: M.Verdict)
      requires Holding() && Carries(pool, codec, msg, f, InLoop(this)) && msg.h.kind == REQUEST && f.id % 2 == 1
      requires services == model.svc && lastStreamID == model.lastID && model.inLog != [] && f == M.Last(model)
      modifies this`lastStreamID, pool
      ensures Holding() && v == M.Judge(model)
      ensures if v.TurnDown? then reason == Some(v.reason) && lastStreamID == v.lastID
              else v.Begin? && reason == None && lastStreamID == f.id
      ensures v.Begin? ==> Begun(sh, v.kind, pool, |made|) && (sh != null ==> fresh(sh))
      ensures KeptFor(old(pool.loans), pool.loans, {this}) && pool.seen == old(pool.seen)
    {
      HeaderTells(codec, msg.h, Contents(msg.payload));
      sh := null;
      if msg.h.id <= lastStreamID {
        return Some(MustIncrement), null, M.TurnDown(lastStreamID, MustIncrement);
      }
      lastStreamID := msg.h.id;
      var req := DecodeRequest(msg, f);
      if req.None? {
        return Some(BadBody), null, M.TurnDown(f.id, BadBody);
      }
      var found;
      ghost var kind;
      found, sh, kind := Handle(req.value);
      if !found {
        return Some(Unimplemented), null, M.TurnDown(f.id, Unimplemented);
      }
      return None, sh, M.Begin(kind, req.value);
    }

    /** What the receiver makes of what recv returned. */
    method Examine(msg: Msg, err: Option<Received>, ghost f: Frame)
      returns (reason: Option<Reason>, sh: StreamHandler?, ghost v: M.Verdict)
      requires Holding() && msg.h.id == f.id && (err.Some? <==> f.TooLong?)
      requires err.None? ==> Carries(pool, codec, msg, f, InLoop(this))
      requires services == model.svc && lastStreamID == model.lastID && model.inLog != [] && f == M.Last(model)
      requires Tracks(streams, made, model.streams)
      modifies this`lastStreamID, pool
      ensures Holding() && v == M.Judge(model)
      ensures if v.TurnDown? then reason == Some(v.reason) && lastStreamID == v.lastID
              else reason == None && lastStreamID == if v.Begin? then f.id else old(lastStreamID)
      ensures v.Begin? ==> Begun(sh, v.kind, pool, |made|) && (sh != null ==> fresh(sh))
      ensures v.MoveOn? && (v.rp.Feeding? || v.rp.Finishing?) ==>
                && v.rp.h < |made| && sh == made[v.rp.h]
                && Carries(pool, codec, msg, f, InLoop(this))
      ensures KeptFor(old(pool.loans), pool.loans, {this}) && pool.seen == old(pool.seen)
    {
      if err.Some? {
        return Some(OverLimit), null, M.TurnDown(lastStreamID, OverLimit);
      }
      HeaderTells(codec, msg.h, Contents(msg.payload));
      if msg.h.id % 2 != 1 {
        return Some(MustBeOdd), null, M.TurnDown(lastStreamID, MustBeOdd);
      }
      if msg.h.kind == DATA {
        if msg.h.id !in streams {
          return Some(NotActive), null, M.TurnDown(lastStreamID, NotActive);
        }
        ghost var h := model.streams[f.id];
        return None, streams[msg.h.id], M.MoveOn(if f.flags.noData then M.Finishing(h) else M.Feeding(h, M.Check));
      }
      if msg.h.kind == REQUEST {
        reason, sh, v := OnRequest(msg, f);
        return;
      }
      return None, null, M.MoveOn(M.AtTop);
    }

    /** The verdict is carried out: a new handler, or nil for a unary request, is remembered. */
    ghost method Obey(v: M.Verdict, sh: StreamHandler?)
      requires M.RecvEnabled(model, M.Dispatch) && v == M.Judge(model)
      requires match v
        case TurnDown(id, _) => Shows(model.handlers, id)
        case MoveOn(_) => Shows(model.handlers, model.lastID)
        case Begin(_, _) => Shows(model.handlers, M.Last(model).id)
      requires v.Begin? ==> Begun(sh, v.kind, pool, |made|)
      requires Holding()
      modifies this`made, this`model
      ensures Valid() && Holding() && model == M.Follow(old(model), v)
      ensures made == if v.Begin? then old(made) + [sh] else old(made)
      ensures match v
        case TurnDown(_, reason) => model.rp == M.Rejecting(reason)
        case MoveOn(rp) => model.rp == rp && !rp.Rejecting?
        case Begin(_, _) => model.rp.Starting? || model.rp.Storing?
    {
      if v.Begin? {
        Remember(v, sh);
      } else {
        StepDispatch(v);
      }
    }

    ghost method Remember(v: M.Verdict, sh: StreamHandler?)
      requires M.RecvEnabled(model, M.Dispatch) && v == M.Judge(model) && v.Begin?
      requires Shows(model.handlers, M.Last(model).id) && Holding() && Begun(sh, v.kind, pool, |made|)
      modifies this`made, this`model
      ensures Valid() && Holding() && model == M.Follow(old(model), v)
      ensures made == old(made) + [sh] && (model.rp.Starting? || model.rp.Storing?)
    {
      made := made + [sh];
      StepDispatch(v);
    }

    ghost method StepDispatch(v: M.Verdict)
      requires M.Lawful(model) && M.RecvEnabled(model, M.Dispatch) && v == M.Judge(model)
      modifies this`model
      ensures M.Lawful(model) && old(model).inLog != [] && model == M.Follow(old(model), v)
      ensures model.svc == old(model).svc && model.streams == old(model).streams && model.out == old(model).out
      ensures model.active == old(model).active
      ensures match v
        case TurnDown(id, reason) =>
          model.lastID == id && model.rp == M.Rejecting(reason) && model.handlers == old(model).handlers
        case MoveOn(rp) =>
          model.lastID == old(model).lastID && model.rp == rp && !rp.Rejecting? && model.handlers == old(model).handlers
        case Begin(kind, req) =>
          && model.lastID == M.Last(old(model)).id && (model.rp.Starting? || model.rp.Storing?)
          && model.handlers == old(model).handlers + [M.NewHandler(old(model), M.Last(old(model)).id, kind, req)]
    {
      Step(M.Recv(M.Dispatch));
    }

    /** One turn of the receiver after recv: the message is turned down, or sh is the stream
        whose data it is, still in the receiver's hands, or the handler of a new request. */
    method OnFrame(msg: Msg, err: Option<Received>, ghost f: Frame) returns (reason: Option<Reason>, sh: StreamHandler?)
      requires Valid() && Holding() && M.RecvEnabled(model, M.Dispatch) && f == M.Last(model)
      requires msg.h.id == f.id && (err.Some? <==> f.TooLong?)
      requires err.None? ==> Carries(pool, codec, msg, f, InLoop(this))
      modifies this`lastStreamID, this`made, this`model, pool
      ensures Valid() && Holding() && model == M.Follow(old(model), M.Judge(old(model)))
      ensures if reason.Some? then model.rp == M.Rejecting(reason.value) else !model.rp.Rejecting?
      ensures model.rp.Feeding? || model.rp.Finishing? ==>
                && model.rp.h < |made| && made[model.rp.h] == sh
                && Carries(pool, codec, msg, f, InLoop(this))
      ensures KeptFor(old(pool.loans), pool.loans, {this}) && pool.seen == old(pool.seen)
    {
      ghost var v;
      reason, sh, v := Examine(msg, err, f);
      Obey(v, sh);
    }

    /** One handler's object has changed, and the machine's record of it is still to follow. */
    twostate lemma {:induction false} OneChanges(h: nat)
      requires old(Valid()) && unchanged(this) && h < |made| && made[h] != null && unchanged(Made() - {made[h]})
      ensures forall o: M.Handler {:trigger View(made[h], o)} :: View(made[h], o) ==>
                Shows(model.handlers[h := o], model.lastID)
    {
      forall o: M.Handler | View(made[h], o) ensures Shows(model.handlers[h := o], model.lastID) {
        forall g | 0 <= g < |made| ensures View(made[g], model.handlers[h := o][g]) {
          if g != h && made[g] != null {
            assert made[g] in Made() - {made[h]};
            assert old(View(made[g], model.handlers[g]));
          }
        }
      }
    }

    /** The receiver is putting data into sh's queue. */
    ghost predicate FeedingTo(sh: StreamHandler)
      reads this
    {
      && M.InFeed(model.rp) && model.inLog != [] && |made| == |model.handlers|
      && model.rp.h < |made| && made[model.rp.h] == sh
    }

    /** What a step of data does to the machine's record of the handler. */
    ghost function Fed(a: M.RecvAct): M.Handler
      requires M.InFeed(model.rp) && model.rp.h < |model.handlers|
      reads this
    {
      var o := model.handlers[model.rp.h];
      if a.Feed? then M.Queued(o, M.FeedData(model, o)) else if a.FeedErr? then o.(feedErr := true) else o
    }

    /** The handler being fed has changed, and the machine follows. */
    ghost method StepFeed(a: M.RecvAct)
      requires M.InFeed(model.rp) && model.inLog != [] && model.rp.h < |model.handlers|
      requires M.FeedEnabled(model.rp, model.handlers[model.rp.h], a)
      requires Shows(model.handlers[model.rp.h := Fed(a)], model.lastID)
      modifies this`model
      ensures Valid() && FeedStep(old(model), a, model)
    {
      Step(M.Recv(a));
    }

    /** The first test of streamHandler.data. */
    method DataCheck(sh: StreamHandler) returns (ok: bool)
      requires Valid() && FeedingTo(sh) && model.rp.stage.Check?
      modifies this`model
      ensures Valid() && ok == !sh.remoteClosed && FeedStep(old(model), if ok then M.FeedCheck else M.FeedErr, model)
    {
      ghost var h := model.rp.h;
      assert View(made[h], model.handlers[h]);
      ok := !sh.remoteClosed;
      OneChanges(h);
      assert View(made[h], Fed(if ok then M.FeedCheck else M.FeedErr));
      StepFeed(if ok then M.FeedCheck else M.FeedErr);
    }

    /** The cases of data's two selects. A failed call leaves the item to the garbage collector. */
    method SelectCase(sh: StreamHandler, item: Item, ghost data: Bytes, ghost h: nat) returns (ghost a: M.RecvAct)
      requires Holding() && h < |made| && made[h] == sh && Carried(pool, item, data, InLoop(this))
      modifies sh`queue, sh`recv, pool`loans
      ensures Holding()
      ensures if a.Feed? then |old(sh.recv)| < sh.cap && sh.recv == old(sh.recv) + [data] else sh.recv == old(sh.recv)
      ensures a.Feed? || (a.FeedErr? && sh.ctxDone) || (a.FeedWait? && |sh.recv| >= sh.cap && !sh.ctxDone)
      ensures KeptFor(old(pool.loans), pool.loans, {this}) && pool.seen == old(pool.seen)
    {
      assert |sh.queue| == |sh.recv|;
      if {
        case |sh.queue| < sh.cap =>
          Push(sh, item, data, h);
          a := M.Feed;
        case sh.ctxDone => a := M.FeedErr;
        case |sh.queue| >= sh.cap && !sh.ctxDone => a := M.FeedWait;
      }
    }

    method WaitCase(sh: StreamHandler, item: Item, ghost data: Bytes, ghost h: nat) returns (ghost a: M.RecvAct)
      requires Holding() && h < |made| && made[h] == sh && Carried(pool, item, data, InLoop(this))
      modifies sh`queue, sh`recv, pool`loans
      ensures Holding()
      ensures if a.Feed? then |old(sh.recv)| < sh.cap && sh.recv == old(sh.recv) + [data] else sh.recv == old(sh.recv)
      ensures a.Feed? || a.FeedErr?
      ensures KeptFor(old(pool.loans), pool.loans, {this}) && pool.seen == old(pool.seen)
    {
      assert |sh.queue| == |sh.recv|;
      if {
        case |sh.queue| < sh.cap =>
          Push(sh, item, data, h);
          a := M.Feed;
        case true => a := M.FeedErr;
      }
    }

    /** The first select of data, whose default is taken only if no other case is ready. */
    method DataSelect(sh: StreamHandler, item: Item, ghost data: Bytes) returns (ghost a: M.RecvAct)
      requires Valid() && Holding() && FeedingTo(sh) && model.rp.stage.Choose?
      requires data == M.FeedData(model, model.handlers[model.rp.h]) && Carried(pool, item, data, InLoop(this))
      modifies this`model, sh`queue, sh`recv, pool`loans
      ensures Valid() && Holding() && FeedStep(old(model), a, model)
      ensures a.Feed? || a.FeedErr? || a.FeedWait?
      ensures KeptFor(old(pool.loans), pool.loans, {this}) && pool.seen == old(pool.seen)
    {
      ghost var h := model.rp.h;
      assert View(made[h], model.handlers[h]);
      a := SelectCase(sh, item, data, h);
      OneChanges(h);
      assert View(made[h], Fed(a));
      StepFeed(a);
    }

    /** Its second, where the timer may fire at any moment. */
    method DataWait(sh: StreamHandler, item: Item, ghost data: Bytes) returns (ghost a: M.RecvAct)
      requires Valid() && Holding() && FeedingTo(sh) && model.rp.stage.Full?
      requires data == M.FeedData(model, model.handlers[model.rp.h]) && Carried(pool, item, data, InLoop(this))
      modifies this`model, sh`queue, sh`recv, pool`loans
      ensures Valid() && Holding() && FeedStep(old(model), a, model)
      ensures a.Feed? || a.FeedErr?
      ensures KeptFor(old(pool.loans), pool.loans, {this}) && pool.seen == old(pool.seen)
    {
      ghost var h := model.rp.h;
      assert View(made[h], model.handlers[h]);
      a := WaitCase(sh, item, data, h);
      OneChanges(h);
      assert View(made[h], Fed(a));
      StepFeed(a);
    }

    /** The receiver is at the end of a data frame. */
    ghost predicate Ending()
      reads this
    {
      model.rp.Finishing? && model.inLog != [] && M.Last(model).DataFrame? && model.rp.h < |model.handlers|
    }

    /** What the end of a data frame does to the machine's record of the handler. */
    ghost function Finished(): M.Handler
      requires Ending()
      reads this
    {
      var o := model.handlers[model.rp.h];
      if M.Last(model).flags.remoteClosed then M.SendClosed(o, |model.inLog| - 1) else o
    }

    ghost method StepFinish()
      requires Ending() && Shows(model.handlers[model.rp.h := Finished()], model.lastID)
      modifies this`model
      ensures Valid() && old(Ending()) && model == M.FinishApply(old(model))
      ensures model.rp.Rejecting? <==> M.Last(old(model)).flags.remoteClosed && |M.Last(old(model)).data| > 0
    {
      Step(M.Recv(M.Finish));
    }

    /** The end of a data frame: its flags may close the handler's queue. By then the payload may
        have been returned: of it only the length is used. */
    method EndData(sh: StreamHandler, flags: byte, length: nat) returns (reason: Option<Reason>)
      requires Valid() && Ending() && model.rp.h < |made| && made[model.rp.h] == sh
      requires var f := M.Last(model); FlagsOf(flags) == f.flags && length == |f.data|
      modifies this`model, sh`remoteClosed, sh`closes
      ensures Valid() && old(Ending()) && model == M.FinishApply(old(model))
      ensures reason == if FlagsOf(flags).remoteClosed && length > 0 then Some(CloseWithData) else None
      ensures reason.Some? <==> model.rp.Rejecting?
      ensures sh.remoteClosed == (old(sh.remoteClosed) || FlagsOf(flags).remoteClosed)
      ensures sh.closes == if sh.remoteClosed && !old(sh.remoteClosed) then old(sh.closes) + 1 else old(sh.closes)
    {
      ghost var h := model.rp.h;
      assert View(made[h], model.handlers[h]);
      reason := None;
      if FlagsOf(flags).remoteClosed {
        sh.CloseSend();
        reason := if length > 0 then Some(CloseWithData) else None;
      }
      OneChanges(h);
      assert View(made[h], Finished());
      StepFinish();
    }

    /** After handle has returned: Store, then the counter. Between the two the sender loop
        may run. */
    method Store(id: StreamID, sh: StreamHandler?)
      requires Valid() && M.RecvEnabled(model, M.Store) && model.handlers[model.rp.h].id == id
      requires model.rp.h < |made| && made[model.rp.h] == sh
      modifies this`model, this`streams
      ensures Valid() && model == M.Apply(old(model), M.Recv(M.Store)) && streams == old(streams)[id := sh]
    {
      streams := streams[id := sh];
      Step(M.Recv(M.Store));
    }

    method Count()
      requires Valid() && model.rp.Counting?
      modifies this`model, this`active
      ensures Valid() && model == M.Apply(old(model), M.Recv(M.Count)) && active == old(active) + 1
    {
      active := active + 1;
      Step(M.Recv(M.Count));
    }

    // ---- the sender loop and the handlers ----

    /** The top of the sender loop: is the connection idle? */
    method LoadActive() returns (idle: bool)
      requires Valid() && model.sp.Loading?
      modifies this`model
      ensures Valid() && model == M.Apply(old(model), M.Send(M.Load)) && (idle <==> active <= 0)
    {
      idle := active <= 0;
      Step(M.Send(M.Load));
    }

    /** The recvErr case of the sender loop: is the loop to return? It is exactly if the
        receiver's error was an end of file; any other error, or none, and it goes on. */
    method TakeError(eof: bool) returns (stop: bool)
      requires Valid() && model.sp.Selecting? && !model.errSeen && (model.errBox.Some? || model.rp.Gone?)
      requires eof <==> model.errBox == Some(true)
      modifies this`model
      ensures Valid() && model.errSeen && (stop <==> old(model).errBox == Some(true))
      ensures if stop then model.sp.Leaving? else model.sp.Loading?
      ensures model == old(model).(errSeen := true, sp := model.sp)
    {
      Step(M.Send(M.SeeErr));
      return eof;
    }

    /** The response case of the sender loop: the frame is written, and after a closing
        response the stream is deleted and the counter decremented. */
    method SendResponse(r: M.Resp)
      requires Valid() && model.sp == M.Writing(r)
      modifies this`model, this`streams, this`active, this`written
      ensures Valid() && model.sp.Loading? && written == old(written) + [M.FrameOf(r)]
      ensures streams == if r.closeStream then old(streams) - {r.id} else old(streams)
      ensures active == if r.closeStream then old(active) - 1 else old(active)
      ensures model.out == old(model).out + [r]
    {
      if !r.streaming || r.status != OK {
        written := written + [ResponseFrame(r.id, r.status, r.data.GetOr([]))];
      } else {
        written := written + [DataFrame(r.id, Flags(r.closeStream, false, r.data.None?), r.data.GetOr([]))];
      }
      Step(M.Send(M.Write));
      if r.closeStream {
        EndStream(r);
      }
    }

    /** After a closing response. */
    method EndStream(r: M.Resp)
      requires Valid() && model.sp == M.Deleting(r)
      modifies this`model, this`streams, this`active
      ensures Valid() && model.sp.Loading? && model.out == old(model).out
      ensures streams == old(streams) - {r.id} && active == old(active) - 1
    {
      streams := streams - {r.id};
      Step(M.Send(M.Delete));
      active := active - 1;
      Step(M.Send(M.Subtract));
    }

    /** A handler has received something, and the machine follows. */
    ghost method StepHandler(h: nat, a: M.HandlerAct)
      requires h < |model.handlers| && M.HandleEnabled(model, model.handlers[h], a) && (a.HRecv? || a.HRecvEOF?)
      requires Shows(model.handlers[h := M.HandleNext(model.handlers[h], a)], model.lastID)
      modifies this`model
      ensures Valid() && |model.handlers| == |old(model).handlers|
      ensures model.handlers[h] == M.HandleNext(old(model).handlers[h], a)
    {
      Step(M.Handle(h, a));
    }

    /** The handler's RecvMsg takes the oldest item. */
    method TakeItem(sh: StreamHandler, ghost h: nat) returns (msg: Bytes)
      requires Valid() && Holding() && h < |made| && made[h] == sh && model.handlers[h].phase.Working?
      requires sh.queue != []
      modifies this`model, sh`queue, sh`recv, sh`first, pool
      ensures Valid() && Holding() && |model.handlers| == |old(model).handlers|
      ensures old(sh.recv) == [msg] + sh.recv
      ensures model.handlers[h].taken == old(model).handlers[h].taken + [msg]
      ensures KeptFor(old(pool.loans), pool.loans, {sh}) && pool.seen == old(pool.seen)
    {
      assert View(made[h], model.handlers[h]);
      var item; ghost var data;
      item, data := Pop(sh, h);
      OneChanges(h);
      assert View(made[h], M.HandleNext(model.handlers[h], M.HRecv));
      StepHandler(h, M.HRecv);
      msg := Unmarshal(sh, item, data, h);
    }

    /** The handler's RecvMsg once one of its cases is ready; None is an error of its context. */
    method RecvMsg(sh: StreamHandler, ghost h: nat) returns (msg: Option<Bytes>, eof: bool)
      requires Valid() && Holding() && h < |made| && made[h] == sh && model.handlers[h].phase.Working?
      requires sh.queue != [] || sh.remoteClosed || sh.ctxDone
      modifies this`model, sh`queue, sh`recv, sh`first, pool
      ensures Valid() && Holding() && |model.handlers| == |old(model).handlers|
      ensures msg.Some? ==> old(sh.recv) == [msg.value] + sh.recv && !eof
      ensures msg.Some? ==> model.handlers[h].taken == old(model).handlers[h].taken + [msg.value]
      ensures msg.None? ==> sh.recv == old(sh.recv) && model.handlers[h].taken == old(model).handlers[h].taken
      ensures eof ==> msg.None? && sh.recv == [] && sh.remoteClosed
      ensures KeptFor(old(pool.loans), pool.loans, {sh}) && pool.seen == old(pool.seen)
    {
      assert View(made[h], model.handlers[h]);
      if {
        case sh.queue != [] =>
          var bytes := TakeItem(sh, h);
          return Some(bytes), false;
        case sh.queue == [] && sh.remoteClosed =>
          OneChanges(h);
          assert View(made[h], M.HandleNext(model.handlers[h], M.HRecvEOF));
          StepHandler(h, M.HRecvEOF);
          return None, true;
        case sh.ctxDone =>
          return None, false;
      }
    }
  }

  ghost predicate FeedStep(s: M.Server, a: M.RecvAct, s': M.Server) {
    && M.InFeed(s.rp) && s.rp.h < |s.handlers| && s.inLog != []
    && M.FeedEnabled(s.rp, s.handlers[s.rp.h], a)
    && s' == M.FeedApply(s, a)
  }

  /** The object made for a request of this kind. */
  ghost predicate Begun(sh: StreamHandler?, kind: M.Kind, pool: Pool, number: nat)
    reads if sh == null then {} else {sh}
  {
    && (sh == null <==> kind.Method?)
    && (sh != null ==>
          && sh.pool == pool && sh.number == number
          && sh.queue == [] && sh.recv == [] && !sh.remoteClosed && !sh.ctxDone && sh.closes == 0
          && sh.cap == if kind.info.client then 64 else 1)
  }

  ghost predicate View(sh: StreamHandler?, o: M.Handler)
    reads if sh == null then {} else {sh}
  {
    (sh == null <==> o.kind.Method?) && (sh != null ==> sh.Shows(o))
  }

  ghost predicate Views(made: seq<StreamHandler?>, handlers: seq<M.Handler>)
    reads set sh: StreamHandler | sh in made
  {
    |made| == |handlers| && forall h :: 0 <= h < |made| ==> View(made[h], handlers[h])
  }

  ghost predicate Numbered(made: seq<StreamHandler?>) {
    forall h :: 0 <= h < |made| && made[h] != null ==> made[h].number == h
  }

  ghost predicate Wrote(written: seq<Frame>, out: seq<M.Resp>) {
    |written| == |out| && forall i :: 0 <= i < |out| ==> written[i] == M.FrameOf(out[i])
  }

  /** The stream table holds the handlers that the machine's table numbers, and nil for a
      unary request. */
  ghost predicate Tracks(streams: map<StreamID, StreamHandler?>, made: seq<StreamHandler?>,
      numbers: map<StreamID, nat>) {
    && streams.Keys == numbers.Keys
    && forall id :: id in streams ==> numbers[id] < |made| && made[numbers[id]] == streams[id]
  }
}
