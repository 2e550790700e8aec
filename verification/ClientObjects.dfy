/** The client's objects as the code has them: a stream with its queue and error cell, the
    connection with its map of streams, and a ClientStream with its two flags. Every method is
    one atomic region of the code, or a short sequence of them, and is proved to take exactly
    the steps of the machine in ClientConn: `model` is the machine's state, and it is reachable
    whenever `Valid` holds, so every theorem about reachable states speaks about these objects.

    What a stream queues are messages whose payloads sit in pooled buffers, and `recv` says
    which frames they are. `Backed` holds as long as each of those buffers is on loan to its
    place in its queue and still has the bytes that were received. */
module ClientObjects {
  import opened Frames
  import opened StreamQueue
  import opened Framing
  import opened BufferLife
  import opened BufferPool
  import opened WireCodec
  import opened Messages
  import Channel
  import M = ClientConn

  /** Errors of SendMsg and CloseSend. */
  datatype SendErr = NotStreaming | AlreadyClosed | SendFailed

  /** `first` counts the messages taken, `number` the streams made before this one. */
  class Stream {
    const id: StreamID
    const cap: nat
    var queue: seq<Msg>
    var recvErr: Option<StreamErr>
    ghost const pool: Pool
    ghost const codec: Codec
    ghost const number: nat
    ghost var recv: seq<Frame>
    ghost var first: nat

    ghost function View(): StreamState
      reads this
    {
      StreamState(id, cap, recv, recvErr)
    }

    ghost predicate Backed()
      reads this`queue, this`recv, this`first, pool`loans, pool.loans.Keys
    {
      && |queue| == |recv|
      && forall i :: 0 <= i < |queue| ==>
           && Lent(pool, queue[i].payload, InQueue(this, first + i))
           && Carries(pool, codec, queue[i], recv[i], InQueue(this, first + i))
    }

    constructor (id: StreamID, cap: nat, ghost pool: Pool, ghost codec: Codec, ghost number: nat)
      ensures View() == NewStream(id, cap) && Backed()
      ensures this.pool == pool && this.codec == codec && this.number == number
      ensures queue == [] && recv == []
    {
      this.id := id;
      this.cap := cap;
      this.pool := pool;
      this.codec := codec;
      this.number := number;
      queue := [];
      recv := [];
      first := 0;
      recvErr := None;
    }

    /** The loop that read the message puts it into the queue. */
    method Enqueue(msg: Msg, ghost f: Frame, ghost loop: object)
      requires pool.Sound() && Backed() && Carries(pool, codec, msg, f, InLoop(loop))
      modifies this`queue, this`recv, pool`loans
      ensures pool.Sound() && Backed() && queue == old(queue) + [msg] && recv == old(recv) + [f]
      ensures KeptFor(old(pool.loans), pool.loans, {loop})
      ensures forall b :: b in old(pool.loans) && old(pool.loans)[b] != InLoop(loop) ==>
                b in pool.loans && pool.loans[b] == old(pool.loans)[b]
    {
      ghost var k := first + |queue|;
      queue := queue + [msg];
      recv := recv + [f];
      if msg.payload.Some? {
        pool.Pass(msg.payload.value.buf, InQueue(this, k));
      }
      StillQueued();
    }

    /** The messages queued before stay where they were. */
    twostate lemma {:induction false} StillQueued()
      requires old(Backed()) && first == old(first) && |queue| == |recv| == |old(queue)| + 1
      requires queue[..|old(queue)|] == old(queue) && recv[..|old(recv)|] == old(recv)
      requires forall k: nat, b :: b in old(pool.loans) && old(pool.loans)[b] == InQueue(this, k) ==>
                 b in pool.loans && pool.loans[b] == old(pool.loans)[b] && b[..] == old(b[..])
      requires var k := |queue| - 1;
               && Lent(pool, queue[k].payload, InQueue(this, first + k))
               && Carries(pool, codec, queue[k], recv[k], InQueue(this, first + k))
      ensures Backed()
    {
      forall i | 0 <= i < |queue| - 1
        ensures Lent(pool, queue[i].payload, InQueue(this, first + i))
        ensures Carries(pool, codec, queue[i], recv[i], InQueue(this, first + i))
      {
        assert queue[i] == old(queue)[i] && recv[i] == old(recv)[i];
        var p := queue[i].payload;
        if p.Some? {
          assert old(pool.loans)[p.value.buf] == InQueue(this, first + i);
          assert p.value.buf[..p.value.len] == p.value.buf[..][..p.value.len];
        }
      }
    }

    /** The oldest message is taken, and with it the right to read and return its buffer. */
    method Dequeue() returns (msg: Msg, ghost f: Frame)
      requires Backed() && queue != []
      modifies this`queue, this`recv, this`first
      ensures Backed() && queue == old(queue)[1..] && recv == old(recv)[1..] && first == old(first) + 1
      ensures msg == old(queue)[0] && f == old(recv)[0] && Carries(pool, codec, msg, f, InQueue(this, first - 1))
    {
      msg, f := queue[0], recv[0];
      assert Carries(pool, codec, queue[0], recv[0], InQueue(this, first + 0));
      queue := queue[1..];
      recv := recv[1..];
      first := first + 1;
      assert forall i :: 0 <= i < |queue| ==> queue[i] == old(queue)[i + 1] && recv[i] == old(recv)[i + 1];
    }

    /** Whatever others do with buffers that are theirs, the queue's messages stay. */
    twostate lemma {:induction false} StillBacked()
      requires old(Backed()) && queue == old(queue) && recv == old(recv) && first == old(first)
      requires forall k: nat, b :: b in old(pool.loans) && old(pool.loans)[b] == InQueue(this, k) && k >= first ==>
                 b in pool.loans && pool.loans[b] == old(pool.loans)[b] && b[..] == old(b[..])
      ensures Backed()
    {
      forall i | 0 <= i < |queue| ensures Carries(pool, codec, queue[i], recv[i], InQueue(this, first + i)) {
        assert old(Carries(pool, codec, queue[i], recv[i], InQueue(this, first + i)));
        var p := queue[i].payload;
        if p.Some? {
          assert old(pool.loans)[p.value.buf] == InQueue(this, first + i);
          assert p.value.buf[..p.value.len] == p.value.buf[..][..p.value.len];
        }
      }
    }

    /** The first call decides the error; a nil error means ErrClosed. */
    method CloseWithError(err: Option<StreamErr>)
      modifies this`recvErr
      ensures View() == StreamQueue.CloseWithError(old(View()), err)
    {
      if recvErr.None? {
        recvErr := Some(if err.Some? then err.value else ErrClosed);
      }
    }
  }

  class Client {
    var nextStreamID: StreamID
    var streams: map<StreamID, Stream>
    var ctxDone: bool
    var connClosed: bool
    var written: seq<Frame>
    const channel: Channel.Conn
    const pool: Pool
    const codec: Codec
    ghost var made: seq<Stream>
    ghost var model: M.Client

    ghost function Made(): set<Stream>
      reads this`made
    {
      set s | s in made
    }

    ghost predicate Valid()
      reads this, Made()
    {
      Shows(model.objs)
    }

    /** The fields are the machine's, with objs for its streams. */
    ghost predicate Shows(objs: seq<M.Obj>)
      reads this, Made()
    {
      && M.Lawful(model)
      && nextStreamID == model.nextID && ctxDone == model.ctxDone && connClosed == model.connClosed
      && Wrote(written, model.out)
      && Distinct(made) && Views(made, objs)
      && Tracks(streams, made, model.streams)
    }

    /** All buffers are where they should be: the queues' messages are backed by buffers on
        loan, and the pool is sound. */
    ghost predicate Holding()
      reads this`made, pool, pool.loans.Keys, channel, Made()
    {
      && pool.Sound() && channel.Valid() && channel.Apart(pool)
      && forall n :: 0 <= n < |made| ==> made[n].pool == pool && made[n].codec == codec && made[n].Backed()
    }

    constructor (channel: Channel.Conn, pool: Pool, codec: Codec)
      requires pool.Sound() && channel.Valid() && channel.Apart(pool)
      ensures Valid() && Holding() && M.Init(model) && made == []
      ensures this.channel == channel && this.pool == pool && this.codec == codec
    {
      this.channel := channel;
      this.pool := pool;
      this.codec := codec;
      nextStreamID := 1;
      streams := map[];
      ctxDone := false;
      connClosed := false;
      written := [];
      made := [];
      model := M.Client(1, map[], [], M.Free, false, false, false, M.Top, [], []);
      new;
      M.LawfulStart(model);
    }

    /** The machine moves. */
    ghost method Step(a: M.Action)
      requires M.Lawful(model) && M.Enabled(model, a)
      modifies this`model
      ensures M.Lawful(model) && M.Enabled(old(model), a) && model == M.Apply(old(model), a)
    {
      M.LawfulStep(model, a);
      model := M.Apply(model, a);
    }

    /** The stream being delivered to has changed, and the machine follows. */
    ghost method StepDeliver(a: M.DeliverAct)
      requires M.InDelivery(model.loop) && model.loop.n < |model.objs|
      requires M.DeliverEnabled(model.loop, ctxDone, model.objs[model.loop.n], a)
      requires Shows(model.objs[model.loop.n := M.DeliverNext(model.objs[model.loop.n], model.loop.f, a)])
      modifies this`model
      ensures Valid() && DeliverStep(old(model), a, model)
    {
      Step(M.Deliver(a));
    }

    /** createStream takes sendLock. */
    ghost method StepLock(desc: M.Desc, req: Request)
      requires M.Lawful(model) && model.lock.Free? && !model.ctxDone
      modifies this`model
      ensures M.Lawful(model) && model == old(model).(lock := M.Held(desc, req))
    {
      Step(M.Create(M.Lock(desc, req)));
    }

    /** The locked region of createStream, with sendLock held: the next id, unless the
        connection is done. */
    method Allocate(recvBuf: nat) returns (s: Stream?)
      requires Valid() && Holding() && model.lock.Held? && recvBuf == M.BufferFor(model.lock.desc)
      modifies this
      ensures Valid() && model == M.Apply(old(model), M.Create(if old(ctxDone) then M.Abort else M.Alloc))
      ensures Holding()
      ensures old(ctxDone) ==> s == null && made == old(made)
      ensures !old(ctxDone) ==> s != null && fresh(s) && made == old(made) + [s] && streams == old(streams)[s.id := s]
    {
      if ctxDone {
        Step(M.Create(M.Abort));
        return null;
      }
      s := Register(recvBuf);
    }

    /** That region when the connection is not done. */
    method Register(recvBuf: nat) returns (s: Stream)
      requires Valid() && Holding() && model.lock.Held? && recvBuf == M.BufferFor(model.lock.desc) && !ctxDone
      modifies this`streams, this`nextStreamID, this`made, this`model
      ensures Valid() && Holding() && M.CreateEnabled(old(model), M.Alloc)
      ensures model == M.CreateApply(old(model), M.Alloc)
      ensures fresh(s) && made == old(made) + [s] && streams == old(streams)[s.id := s] && s.id == old(nextStreamID)
      ensures model.lock == M.Allocated(|old(made)|) && |model.objs| == |made|
      ensures model.objs[|old(made)|].desc == old(model.lock).desc && model.objs[|old(made)|].req == old(model.lock).req
      ensures model.broken == old(model).broken
    {
      s := NewStream(recvBuf);
      Step(M.Create(M.Alloc));
    }

    /** The new object, in the map under the next id. */
    method NewStream(recvBuf: nat) returns (s: Stream)
      requires Holding()
      modifies this`streams, this`nextStreamID, this`made
      ensures Holding() && fresh(s) && s.View() == StreamQueue.NewStream(old(nextStreamID), recvBuf)
      ensures made == old(made) + [s] && s.number == |old(made)| && streams == old(streams)[s.id := s]
      ensures nextStreamID == (old(nextStreamID) + 2) % ID_SPACE
    {
      s := new Stream(nextStreamID, recvBuf, pool, codec, |made|);
      streams := streams[s.id := s];
      nextStreamID := (nextStreamID + 2) % ID_SPACE;
      made := made + [s];
      OneMoreBacked();
    }

    /** A new stream's queue is empty, and all others are as before. */
    twostate lemma {:induction false} OneMoreBacked()
      requires |made| == |old(made)| + 1 && made[..|made| - 1] == old(made) && old(Holding()) && unchanged(old(Made()))
      requires pool.loans == old(pool.loans) && unchanged(old(pool.loans.Keys))
      requires var s := made[|made| - 1]; s.pool == pool && s.codec == codec && s.Backed()
      ensures forall n :: 0 <= n < |made| ==> made[n].pool == pool && made[n].codec == codec && made[n].Backed()
    {
      forall n | 0 <= n < |made| - 1 ensures made[n].pool == pool && made[n].codec == codec && made[n].Backed() {
        assert made[n] == old(made)[n] && made[n] in old(Made());
        made[n].StillBacked();
      }
    }

    /** createStream when nothing else happens meanwhile: sendLock is held from before the
        id is taken until the first frame is written. A stream whose first frame could not be
        written stays in the map. */
    method CreateStream(desc: M.Desc, req: Request, sent: bool) returns (s: Stream?, wrote: bool)
      requires Valid() && Holding() && model.lock.Free? && (sent ==> M.CanWrite(model))
      modifies this`model, this`streams, this`nextStreamID, this`made, this`written
      ensures Valid() && Holding() && model.lock.Free? && (s == null <==> ctxDone) && (wrote <==> s != null && sent)
      ensures s == null ==> model == old(model) && written == old(written)
      ensures s != null ==> Created(s, old(made), old(streams), old(nextStreamID), sent) && fresh(s)
      ensures if s != null && sent then Requested(old(written), written, s.id, desc, req) else written == old(written)
    {
      if ctxDone {
        return null, false;
      }
      s := OpenStream(desc, req, sent);
      wrote := sent;
    }

    /** One request frame more is written, with the flags that desc calls for. */
    ghost predicate Requested(before: seq<Frame>, after: seq<Frame>, id: StreamID, desc: M.Desc, req: Request) {
      && |after| == |before| + 1 && after[..|before|] == before
      && var f := after[|before|];
         f.RequestFrame? && f.id == id && f.req == req && M.Announces(desc, f.flags)
    }

    /** s is the newest stream, registered under its id whether its request was sent or not. */
    ghost predicate Created(s: Stream, made0: seq<Stream>, streams0: map<StreamID, Stream>, id: StreamID, sent: bool)
      reads this
    {
      && made == made0 + [s] && s.id == id && streams == streams0[id := s]
      && |model.objs| == |made| && model.objs[|made0|].phase == if sent then M.Ready else M.TurnedAway
    }

    method OpenStream(desc: M.Desc, req: Request, sent: bool) returns (s: Stream)
      requires Valid() && Holding() && model.lock.Free? && !ctxDone && (sent ==> M.CanWrite(model))
      modifies this`model, this`streams, this`nextStreamID, this`made, this`written
      ensures Valid() && Holding() && model.lock.Free? && fresh(s)
      ensures Created(s, old(made), old(streams), old(nextStreamID), sent)
      ensures written == old(written) + if sent then [RequestFrame(s.id, M.RequestFlags(desc), req)] else []
    {
      StepLock(desc, req);
      s := Register(M.BufferFor(desc));
      SendFirst(s, desc, req, sent);
    }

    /** The end of createStream: the request goes out under the id just taken. */
    method SendFirst(s: Stream, desc: M.Desc, req: Request, sent: bool)
      requires Valid() && Holding() && model.lock.Allocated? && model.lock.n < |made| && made[model.lock.n] == s
      requires model.objs[model.lock.n].desc == desc && model.objs[model.lock.n].req == req
      requires sent ==> !model.broken && !connClosed
      modifies this`model, this`written
      ensures Valid() && Holding() && model.lock.Free? && |model.objs| == |old(model).objs|
      ensures model.objs[old(model).lock.n].phase == if sent then M.Ready else M.TurnedAway
      ensures written == if sent then old(written) + [RequestFrame(s.id, M.RequestFlags(desc), req)] else old(written)
    {
      assert s.View() == model.objs[model.lock.n].st;
      if sent {
        written := written + [RequestFrame(s.id, M.RequestFlags(desc), req)];
        Step(M.Create(M.FirstSend));
      } else {
        Step(M.Create(M.FirstSendFail(true)));
      }
    }

    /** recv, by the receive loop, which then holds the payload of the message read. */
    method Receive(pick: nat) returns (msg: Msg, err: Option<Received>, ghost r: Received)
      requires Holding()
      modifies channel`input, channel.hrbuf, pool, pool.Free()
      ensures Holding() && Framing.Recv(old(channel.input)) == (r, channel.input)
      ensures err == if r.Message? then None else Some(r)
      ensures r.Oversized? ==> msg.h == r.h
      ensures r.Message? ==> msg.h == r.h && Carries(pool, codec, msg, Decode(codec, r), InLoop(this))
      ensures KeptFor(old(pool.loans), pool.loans, {}) && fresh(pool.seen - old(pool.seen))
      ensures forall b :: b in old(pool.loans) ==> b[..] == old(b[..])
    {
      var h, p;
      h, p, err, r := channel.Recv(pool, pick, InLoop(this));
      AllBacked();
      msg := Msg(h, p);
    }

    /** One turn of the receive loop up to the lookup: an error that ends the loop (e, after
        rewriting), or the next frame f. */
    method ReadMessage(pick: nat, e: StreamErr) returns (msg: Msg, err: Option<Received>, ghost f: Frame)
      requires Valid() && Holding() && model.loop.Reading? && M.OfConnection(e)
      modifies this`model, channel`input, channel.hrbuf, pool, pool.Free()
      ensures Valid() && Holding()
      ensures err.Some? && Terminal(err.value) ==> model == M.Apply(old(model), M.Loop(M.ReadErr(e)))
      ensures err.Some? && Terminal(err.value) ==> Framing.Recv(old(channel.input)) == (err.value, channel.input)
      ensures err.None? || !Terminal(err.value) ==>
                && model == M.Apply(old(model), M.Loop(M.Read(f)))
                && (exists r :: Framing.Recv(old(channel.input)) == (r, channel.input)
                               && !Terminal(r) && f == Decode(codec, r))
                && msg.h.id == f.id && (err.Some? <==> f.TooLong?)
                && (err.None? ==> Carries(pool, codec, msg, f, InLoop(this)))
      ensures KeptFor(old(pool.loans), pool.loans, {}) && fresh(pool.seen - old(pool.seen))
      ensures forall b :: b in old(pool.loans) ==> b[..] == old(b[..])
    {
      ghost var r;
      msg, err, r := Receive(pick);
      assert Valid();
      f := if Terminal(r) then OtherFrame(0) else Decode(codec, r);
      StepRead(if Terminal(r) then M.ReadErr(e) else M.Read(f));
    }

    ghost method StepRead(a: M.LoopAct)
      requires Valid() && model.loop.Reading? && (a.Read? || (a.ReadErr? && M.OfConnection(a.err)))
      modifies this`model
      ensures Valid() && model == M.Apply(old(model), M.Loop(a))
    {
      Step(M.Loop(a));
    }

    /** All queues are as before, and so are their buffers. */
    twostate lemma {:induction false} AllBacked()
      requires made == old(made) && old(Holding()) && unchanged(Made())
      requires forall b :: b in old(pool.loans) ==>
                 b in pool.loans && pool.loans[b] == old(pool.loans)[b] && b[..] == old(b[..])
      ensures forall n :: 0 <= n < |made| ==> made[n].Backed()
    {
      forall n | 0 <= n < |made| ensures made[n].Backed() {
        assert made[n] in Made();
        made[n].StillBacked();
      }
    }

    /** All queues but that of stream n are as before, and so are their buffers. */
    twostate lemma {:induction false} OthersBacked(n: nat)
      requires made == old(made) && old(Holding()) && n < |made| && unchanged(Made() - {made[n]})
      requires forall b :: b in old(pool.loans) && old(pool.loans)[b].InQueue? && old(pool.loans)[b].q != made[n] ==>
                 b in pool.loans && pool.loans[b] == old(pool.loans)[b] && b[..] == old(b[..])
      requires made[n].Backed()
      ensures forall m :: 0 <= m < |made| ==> made[m].Backed()
    {
      forall m | 0 <= m < |made| ensures made[m].Backed() {
        if made[m] != made[n] {
          assert made[m] in Made() - {made[n]};
          made[m].StillBacked();
        }
      }
    }

    /** What another connection that shares the pool does leaves this one's buffers alone: it
        keeps to its own loans, and the buffers new to the pool are new. */
    twostate lemma {:induction false} Undisturbed(others: set<object>)
      requires old(Holding()) && made == old(made) && unchanged(Made()) && unchanged(channel) && pool.Sound()
      requires this !in others && others !! Made()
      requires KeptFor(old(pool.loans), pool.loans, others) && fresh(pool.seen - old(pool.seen))
      requires forall b :: b in old(pool.loans) ==> b[..] == old(b[..])
      ensures Holding()
    {
      forall n | 0 <= n < |made| ensures made[n].Backed() {
        assert made[n] in Made();
        made[n].StillBacked();
      }
    }

    /** getStream, by the receive loop for the frame it has read. */
    method GetStream(sid: StreamID) returns (s: Stream?)
      requires Valid() && model.loop.Have? && model.loop.f.id == sid
      modifies this`model
      ensures Valid() && model == M.Apply(old(model), M.Loop(M.Lookup))
      ensures if s == null then model.loop.Top? else model.loop.Delivering? && made[model.loop.n] == s
    {
      s := if sid in streams then streams[sid] else null;
      Step(M.Loop(M.Lookup));
    }

    /** One stream has changed, and the machine's record of it is still to follow. */
    twostate lemma {:induction false} OneChanges(n: nat)
      requires old(Valid()) && unchanged(this) && n < |made| && unchanged(Made() - {made[n]})
      ensures forall o: M.Obj {:trigger o.st} :: o.st == made[n].View() ==> Shows(model.objs[n := o])
    {
      forall o: M.Obj | o.st == made[n].View() ensures Shows(model.objs[n := o]) {
        forall i | 0 <= i < |made| ensures made[i].View() == model.objs[n := o][i].st {
          if i != n {
            assert made[i] in Made() - {made[n]};
            assert old(made[i].View() == model.objs[i].st);
          }
        }
      }
    }

    /** The receive loop is delivering to s. */
    ghost predicate InDelivery(s: Stream)
      reads this
    {
      M.InDelivery(model.loop) && model.loop.n < |made| && model.loop.n < |model.objs| && made[model.loop.n] == s
    }

    /** The receive loop's frame was oversized: its stream is closed with the error. */
    method Poison(s: Stream)
      requires Valid() && InDelivery(s) && M.DeliverEnabled(model.loop, ctxDone, model.objs[model.loop.n], M.Poison)
      modifies this`model, s`recvErr
      ensures Valid() && DeliverStep(old(model), M.Poison, model)
    {
      ghost var n := model.loop.n;
      s.CloseWithError(Some(ErrTooLong));
      OneChanges(n);
      StepDeliver(M.Poison);
    }

    /** The first select of receive: is the stream closed? */
    method ReceiveCheck(s: Stream) returns (open: bool)
      requires Valid() && model.loop.Delivering? && !model.loop.f.TooLong? && InDelivery(s)
      modifies this`model
      ensures open <==> s.recvErr.None?
      ensures Valid() && DeliverStep(old(model), if open then M.Open else M.Drop, model)
    {
      ghost var n := model.loop.n;
      open := s.recvErr.None?;
      OneChanges(n);
      StepDeliver(if open then M.Open else M.Drop);
    }

    /** The loop's message goes into the queue of stream n. */
    method Push(s: Stream, msg: Msg, ghost f: Frame, ghost n: nat)
      requires Holding() && n < |made| && made[n] == s && Carries(pool, codec, msg, f, InLoop(this))
      modifies s`queue, s`recv, pool`loans
      ensures Holding() && s.queue == old(s.queue) + [msg] && s.recv == old(s.recv) + [f]
      ensures KeptFor(old(pool.loans), pool.loans, {this}) && pool.seen == old(pool.seen)
    {
      s.Enqueue(msg, f, this);
      OthersBacked(n);
    }

    /** What the cases of receive's selects do to the queue and the error cell. */
    ghost predicate Case(a: M.DeliverAct, before: StreamState, f: Frame, now: StreamState)
      reads this`ctxDone
    {
      match a
      case Push => |before.queue| < before.cap && now == StreamQueue.Enqueue(before, f)
      case Drop => (before.closed.Some? || ctxDone) && now == before
      case Wait => before.closed.None? && |before.queue| >= before.cap && !ctxDone && now == before
      case Timeout => now == StreamQueue.CloseWithError(before, Some(ErrStreamFull))
      case _ => false
    }

    /** The cases of the second select; the default is taken only if no other is ready. */
    method SelectCase(s: Stream, msg: Msg, ghost f: Frame, ghost n: nat) returns (ghost a: M.DeliverAct)
      requires Holding() && n < |made| && made[n] == s && Carries(pool, codec, msg, f, InLoop(this))
      modifies s`queue, s`recv, pool`loans
      ensures Holding() && Case(a, old(s.View()), f, s.View()) && !a.Timeout?
      ensures KeptFor(old(pool.loans), pool.loans, {this}) && pool.seen == old(pool.seen)
    {
      if {
        case s.recvErr.Some? => a := M.Drop;
        case |s.queue| < s.cap =>
          Push(s, msg, f, n);
          a := M.Push;
        case ctxDone => a := M.Drop;
        case s.recvErr.None? && |s.queue| >= s.cap && !ctxDone => a := M.Wait;
      }
    }

    /** The cases of the third, where the timer may fire at any moment. */
    method WaitCase(s: Stream, msg: Msg, ghost f: Frame, ghost n: nat) returns (ghost a: M.DeliverAct)
      requires Holding() && n < |made| && made[n] == s && Carries(pool, codec, msg, f, InLoop(this))
      modifies s`queue, s`recv, s`recvErr, pool`loans
      ensures Holding() && Case(a, old(s.View()), f, s.View()) && !a.Wait?
      ensures KeptFor(old(pool.loans), pool.loans, {this}) && pool.seen == old(pool.seen)
    {
      if {
        case s.recvErr.Some? => a := M.Drop;
        case |s.queue| < s.cap =>
          Push(s, msg, f, n);
          a := M.Push;
        case ctxDone => a := M.Drop;
        case true =>
          s.CloseWithError(Some(ErrStreamFull));
          a := M.Timeout;
      }
    }

    /** The second select of receive. */
    method ReceiveSelect(s: Stream, msg: Msg, ghost f: Frame) returns (ghost a: M.DeliverAct)
      requires Valid() && Holding() && model.loop.Selecting? && InDelivery(s)
      requires f == model.loop.f && Carries(pool, codec, msg, f, InLoop(this))
      modifies this`model, s`queue, s`recv, pool`loans
      ensures Valid() && Holding() && DeliverStep(old(model), a, model)
      ensures a.Push? || a.Drop? || a.Wait?
      ensures KeptFor(old(pool.loans), pool.loans, {this}) && pool.seen == old(pool.seen)
    {
      ghost var n := model.loop.n;
      assert s.View() == model.objs[n].st;
      a := SelectCase(s, msg, f, n);
      OneChanges(n);
      StepDeliver(a);
    }

    /** The third. */
    method ReceiveWait(s: Stream, msg: Msg, ghost f: Frame) returns (ghost a: M.DeliverAct)
      requires Valid() && Holding() && model.loop.Waiting? && InDelivery(s)
      requires f == model.loop.f && Carries(pool, codec, msg, f, InLoop(this))
      modifies this`model, s`queue, s`recv, s`recvErr, pool`loans
      ensures Valid() && Holding() && DeliverStep(old(model), a, model)
      ensures a.Push? || a.Drop? || a.Timeout?
      ensures KeptFor(old(pool.loans), pool.loans, {this}) && pool.seen == old(pool.seen)
    {
      ghost var n := model.loop.n;
      assert s.View() == model.objs[n].st;
      a := WaitCase(s, msg, f, n);
      OneChanges(n);
      StepDeliver(a);
    }

    /** The oldest message leaves the queue of stream n. */
    method Pop(s: Stream, ghost n: nat) returns (msg: Msg, ghost f: Frame)
      requires Holding() && n < |made| && made[n] == s && s.queue != []
      modifies s`queue, s`recv, s`first
      ensures Holding() && s.queue == old(s.queue)[1..] && old(s.recv) == [f] + s.recv && s.first > 0
      ensures msg == old(s.queue)[0] && Carries(pool, codec, msg, f, InQueue(s, s.first - 1))
    {
      msg, f := s.Dequeue();
      OthersBacked(n);
    }

    /** A caller takes the oldest message of its stream. */
    method TakeMessage(s: Stream, ghost n: nat) returns (msg: Msg, ghost f: Frame)
      requires Valid() && Holding() && n < |made| && s == made[n] && model.objs[n].phase.Ready? && s.queue != []
      modifies this`model, s`queue, s`recv, s`first
      ensures Valid() && Holding() && old(s.recv) == [f] + s.recv && s.first > 0
      ensures msg == old(s.queue)[0] && Carries(pool, codec, msg, f, InQueue(s, s.first - 1))
      ensures |model.objs| == |old(model).objs| && old(model).objs[n].st.queue != []
      ensures old(model).objs[n].st.queue[0] == f
      ensures model == old(model).(objs := old(model).objs[n := M.Took(old(model).objs[n])])
    {
      assert s.View() == model.objs[n].st;
      msg, f := Pop(s, n);
      OneChanges(n);
      StepTake(n);
    }

    /** Stream n's queue is a message shorter, and the machine follows. */
    ghost method StepTake(n: nat)
      requires n < |model.objs| && model.objs[n].phase.Ready? && model.objs[n].st.queue != []
      requires Shows(model.objs[n := M.Took(model.objs[n])])
      modifies this`model
      ensures Valid() && model == old(model).(objs := old(model).objs[n := M.Took(old(model).objs[n])])
    {
      Step(M.Call(n, M.Take));
    }

    /** Unmarshalling the payload of a message taken from s. */
    method Unmarshal(p: Payload, s: Stream) returns (bytes: Bytes)
      requires Holding() && s.first > 0 && Lent(pool, p, InQueue(s, s.first - 1))
      modifies pool`log
      ensures Holding() && bytes == Contents(p)
    {
      bytes := pool.Load(p);
    }

    /** putmbuf of the payload of the message last taken from stream n. */
    method PutBack(p: Payload, s: Stream, ghost n: nat)
      requires Holding() && n < |made| && made[n] == s && s.first > 0 && Lent(pool, p, InQueue(s, s.first - 1))
      modifies pool
      ensures Holding() && (p.Some? ==> p.value.buf !in pool.loans)
      ensures KeptFor(old(pool.loans), pool.loans, {s}) && pool.seen == old(pool.seen)
    {
      pool.Putmbuf(p);
      s.StillBacked();
      OthersBacked(n);
    }

    /** deleteStream: the map entry under the lock, then the stream. */
    method DeleteStream(s: Stream, ghost n: nat)
      requires Valid() && Holding() && n < |made| && s == made[n] && model.objs[n].phase.Deleting?
      modifies this`model, this`streams, s`recvErr
      ensures Valid() && Holding() && |model.objs| == |old(model).objs| && s.id !in streams && s.recvErr.Some?
      ensures model == old(model).(
                objs := old(model).objs[n := M.ClosedBy(old(model).objs[n], None).(phase := M.Over)],
                streams := old(model).streams - {s.id})
    {
      DeleteEntry(s, n);
      CloseDeleted(s, n);
    }

    /** Its first half. */
    method DeleteEntry(s: Stream, ghost n: nat)
      requires Valid() && Holding() && n < |made| && s == made[n] && model.objs[n].phase.Deleting?
      modifies this`model, this`streams
      ensures Valid() && Holding() && s.id !in streams && model.objs[n].st == s.View()
      ensures model == old(model).(
                objs := old(model).objs[n := old(model).objs[n].(phase := M.Closing)],
                streams := old(model).streams - {s.id})
    {
      assert s.View() == model.objs[n].st;
      streams := streams - {s.id};
      Step(M.Call(n, M.DeleteEntry));
    }

    /** Its second half. */
    method CloseDeleted(s: Stream, ghost n: nat)
      requires Valid() && Holding() && n < |made| && s == made[n] && model.objs[n].phase.Closing?
      modifies this`model, s`recvErr
      ensures Valid() && Holding() && s.recvErr.Some? && |model.objs| == |old(model).objs|
      ensures model == old(model).(objs := old(model).objs[n := M.ClosedBy(old(model).objs[n], None).(phase := M.Over)])
    {
      assert s.View() == model.objs[n].st;
      s.CloseWithError(None);
      OneChanges(n);
      StepClose(n);
    }

    /** Stream n is closed, and the machine follows. */
    ghost method StepClose(n: nat)
      requires n < |model.objs| && model.objs[n].phase.Closing?
      requires Shows(model.objs[n := M.ClosedBy(model.objs[n], None).(phase := M.Over)])
      modifies this`model
      ensures Valid()
      ensures model == old(model).(objs := old(model).objs[n := M.ClosedBy(old(model).objs[n], None).(phase := M.Over)])
    {
      Step(M.Call(n, M.DeleteClose));
    }

    /** A caller's wait ends without a message. */
    ghost method EndCall(n: nat, a: M.CallAct, r: M.Outcome)
      requires Valid() && n < |made| && M.CallEnabled(model, model.objs[n], a)
      requires match a
        case RecvAfterEnd => r == M.EndOfStream
        case CancelCall => r == M.Cancelled
        case ConnDone => r == M.ConnClosed
        case TakeErr => r == M.StreamFailed(model.objs[n].st.closed.value)
        case _ => false
      modifies this`model
      ensures Valid() && model == old(model).(objs := old(model).objs[n := M.Ended(old(model).objs[n], r)])
    {
      Step(M.Call(n, a));
    }

    /** The select of dispatch and RecvMsg once one of its cases is ready: an outcome without
        a message, or the message taken. Only dispatch watches the connection's context. */
    method Select(s: Stream, ghost n: nat, cancelled: bool, unary: bool)
      returns (r: M.Outcome, msg: Option<Msg>, ghost f: Frame)
      requires Valid() && Holding() && n < |made| && s == made[n]
      requires model.objs[n].desc.Unary? == unary && model.objs[n].phase.Ready?
      requires cancelled || (unary && ctxDone) || s.queue != [] || s.recvErr.Some?
      modifies this`model, s`queue, s`recv, s`first
      ensures Valid() && Holding()
      ensures msg.Some? ==>
                && old(s.recv) == [f] + s.recv && s.first > 0
                && Carries(pool, codec, msg.value, f, InQueue(s, s.first - 1))
                && old(model).objs[n].st.queue != [] && old(model).objs[n].st.queue[0] == f
                && model.objs == old(model).objs[n := M.Took(old(model).objs[n])]
      ensures msg.None? ==>
                s.View() == old(s.View()) && model.objs == old(model).objs[n := M.Ended(old(model).objs[n], r)]
      ensures msg.None? ==>
                || (r.Cancelled? && cancelled)
                || (r.ConnClosed? && unary && ctxDone)
                || (r.StreamFailed? && s.recv == [] && s.recvErr == Some(r.err))
    {
      assert s.View() == model.objs[n].st;
      var take; ghost var a;
      take, r, a := Pick(s, cancelled, unary);
      if !take {
        EndCall(n, a, r);
        return r, None, OtherFrame(0);
      }
      var m;
      m, f := TakeMessage(s, n);
      return r, Some(m), f;
    }

    /** Which case of that select is taken, when several may be ready. */
    method Pick(s: Stream, cancelled: bool, unary: bool) returns (take: bool, r: M.Outcome, ghost a: M.CallAct)
      requires cancelled || (unary && ctxDone) || s.queue != [] || s.recvErr.Some?
      ensures take ==> s.queue != []
      ensures !take ==>
                || (r.Cancelled? && a.CancelCall? && cancelled)
                || (r.ConnClosed? && a.ConnDone? && unary && ctxDone)
                || (r.StreamFailed? && a.TakeErr? && s.queue == [] && s.recvErr == Some(r.err))
    {
      take, r, a := false, M.Cancelled, M.CancelCall;
      if {
        case cancelled =>
        case unary && ctxDone => r, a := M.ConnClosed, M.ConnDone;
        case s.recvErr.Some? && s.queue == [] => r, a := M.StreamFailed(s.recvErr.value), M.TakeErr;
        case s.queue != [] => take := true;
      }
    }

    /** RecvMsg reads a response and returns its buffer. */
    method ReadResponse(s: Stream, ghost n: nat, msg: Msg, ghost f: Frame) returns (resp: Option<(Status, Bytes)>)
      requires Holding() && n < |made| && made[n] == s && s.first > 0 && msg.h.kind == RESPONSE
      requires Carries(pool, codec, msg, f, InQueue(s, s.first - 1))
      modifies pool
      ensures Holding() && resp == if f.ResponseFrame? then Some((f.status, f.data)) else None
      ensures KeptFor(old(pool.loans), pool.loans, {s}) && pool.seen == old(pool.seen)
    {
      HeaderTells(codec, msg.h, Contents(msg.payload));
      var bytes := Unmarshal(msg.payload, s);
      resp := codec.getResponse(bytes);
      PutBack(msg.payload, s, n);
    }

    /** RecvMsg reads data and returns its buffer. */
    method ReadData(s: Stream, ghost n: nat, msg: Msg, ghost f: Frame) returns (bytes: Bytes)
      requires Holding() && n < |made| && made[n] == s && s.first > 0 && msg.h.kind == DATA
      requires Carries(pool, codec, msg, f, InQueue(s, s.first - 1))
      modifies pool
      ensures Holding() && f.DataFrame? && bytes == f.data
      ensures KeptFor(old(pool.loans), pool.loans, {s}) && pool.seen == old(pool.seen)
    {
      HeaderTells(codec, msg.h, Contents(msg.payload));
      bytes := Unmarshal(msg.payload, s);
      PutBack(msg.payload, s, n);
    }

    /** dispatch reads the response and returns its buffer, whatever the message was. */
    method DecodeReply(s: Stream, ghost n: nat, msg: Msg, ghost f: Frame) returns (r: M.Outcome)
      requires Holding() && n < |made| && made[n] == s && s.first > 0
      requires Carries(pool, codec, msg, f, InQueue(s, s.first - 1))
      modifies pool
      ensures Holding() && r == if f.ResponseFrame? then M.Reply(f.status, f.data) else M.ProtocolErr
      ensures KeptFor(old(pool.loans), pool.loans, {s}) && pool.seen == old(pool.seen)
    {
      HeaderTells(codec, msg.h, Contents(msg.payload));
      r := M.ProtocolErr;
      if msg.h.kind == RESPONSE {
        var bytes := Unmarshal(msg.payload, s);
        var resp := codec.getResponse(bytes);
        if resp.Some? {
          r := M.Reply(resp.value.0, resp.value.1);
        }
      }
      PutBack(msg.payload, s, n);
    }

    /** What dispatch returns. */
    method SelectReply(s: Stream, ghost n: nat, cancelled: bool) returns (r: M.Outcome)
      requires Valid() && Holding() && n < |made| && s == made[n]
      requires model.objs[n].desc.Unary? && model.objs[n].phase.Ready?
      requires cancelled || ctxDone || s.queue != [] || s.recvErr.Some?
      modifies this`model, s`queue, s`recv, s`first, pool
      ensures Valid() && Holding()
      ensures model.objs[n].phase.Deleting? && model.objs[n].results == old(model).objs[n].results + [r]
      ensures r.Cancelled? ==> cancelled
      ensures r.ConnClosed? ==> ctxDone
      ensures r.StreamFailed? ==> old(s.recv) == [] && old(s.recvErr) == Some(r.err)
      ensures !r.Cancelled? && !r.ConnClosed? && !r.StreamFailed? ==>
                && old(s.recv) != [] && s.recv == old(s.recv)[1..]
                && r == var f := old(s.recv)[0]; if f.ResponseFrame? then M.Reply(f.status, f.data) else M.ProtocolErr
      ensures KeptFor(old(pool.loans), pool.loans, {s}) && pool.seen == old(pool.seen)
    {
      var msg; ghost var f;
      r, msg, f := Select(s, n, cancelled, true);
      if msg.None? {
        return r;
      }
      r := DecodeReply(s, n, msg.value, f);
      assert Valid();
    }

    /** dispatch after createStream: whatever the outcome, the stream is deleted. */
    method AwaitReply(s: Stream, ghost n: nat, cancelled: bool) returns (r: M.Outcome)
      requires Valid() && Holding() && n < |made| && s == made[n]
      requires model.objs[n].desc.Unary? && model.objs[n].phase.Ready?
      requires cancelled || ctxDone || s.queue != [] || s.recvErr.Some?
      modifies this`model, this`streams, s`queue, s`recv, s`first, s`recvErr, pool
      ensures Valid() && Holding()
      ensures model.objs[n].phase.Over? && model.objs[n].results == old(model).objs[n].results + [r]
      ensures s.id !in streams && s.recvErr.Some?
      ensures KeptFor(old(pool.loans), pool.loans, {s}) && pool.seen == old(pool.seen)
    {
      r := SelectReply(s, n, cancelled);
      DeleteStream(s, n);
    }

    /** One turn of cleanupStreams. */
    method CloseEntry(sid: StreamID, err: StreamErr, ghost objs: seq<M.Obj>, ghost which: set<nat>, ghost k: nat)
      requires Distinct(made) && Views(made, M.CloseAll(objs, which, err))
      requires sid in streams && k < |made| && streams[sid] == made[k]
      modifies this`streams, Made()`recvErr
      ensures streams == old(streams) - {sid} && Views(made, M.CloseAll(objs, which + {k}, err))
    {
      streams[sid].CloseWithError(Some(err));
      streams := streams - {sid};
      ghost var now := M.CloseAll(objs, which, err);
      CloseAllMore(objs, which, err, k);
      forall i | 0 <= i < |made| ensures made[i].View() == now[k := M.ClosedBy(now[k], Some(err))][i].st {
        assert old(made[i].View()) == now[i].st;
        assert i != k ==> made[i].View() == old(made[i].View());
      }
    }

    /** The loop of cleanupStreams, visiting the streams in any order. */
    method CloseRegistered(err: StreamErr, ghost objs: seq<M.Obj>, ghost numbers: map<StreamID, nat>)
      requires Tracks(streams, made, numbers) && Distinct(made) && Views(made, objs)
      modifies this`streams, Made()`recvErr
      ensures streams == map[] && Views(made, M.CloseAll(objs, numbers.Values, err))
    {
      ghost var which: set<nat> := {};
      assert M.CloseAll(objs, which, err) == objs;
      assert Remaining(streams, made, numbers, which);
      while streams != map[]
        invariant Remaining(streams, made, numbers, which)
        invariant Views(made, M.CloseAll(objs, which, err))
        decreases streams.Keys
      {
        var sid :| sid in streams;
        ghost var k := numbers[sid];
        RemainingLess(streams, made, numbers, which, sid);
        CloseEntry(sid, err, objs, which, k);
        which := which + {k};
      }
      NoneRemaining(made, numbers, which);
    }

    /** cleanupStreams. */
    method CleanupStreams(err: StreamErr)
      requires Valid() && model.loop == M.Cleaning(err)
      modifies this`model, this`streams, Made()`recvErr
      ensures Valid() && streams == map[] && model == M.Apply(old(model), M.Loop(M.Cleanup))
    {
      CloseRegistered(err, model.objs, model.streams);
      Step(M.Loop(M.Cleanup));
    }

    /** Close, which only its first call performs. */
    method Close()
      requires Valid()
      modifies this`model, this`ctxDone, this`connClosed
      ensures Valid() && ctxDone && connClosed
      ensures model == old(model).(ctxDone := true, connClosed := true)
    {
      if !ctxDone {
        ctxDone := true;
        Step(M.Conn(M.CancelCtx));
      }
      if !connClosed {
        connClosed := true;
        Step(M.Conn(M.CloseConn));
      }
    }
  }

  /** In the loop of cleanupStreams: what is left of the map, and the streams closed so far. */
  ghost predicate Remaining(streams: map<StreamID, Stream>, made: seq<Stream>, numbers: map<StreamID, nat>,
      which: set<nat>) {
    && which <= numbers.Values
    && (forall id :: id in streams ==> id in numbers && numbers[id] < |made| && made[numbers[id]] == streams[id])
    && (forall id :: id in numbers ==> id in streams || numbers[id] in which)
  }

  lemma {:induction false} RemainingLess(streams: map<StreamID, Stream>, made: seq<Stream>,
      numbers: map<StreamID, nat>, which: set<nat>, sid: StreamID)
    requires Remaining(streams, made, numbers, which) && sid in streams
    ensures sid in numbers && numbers[sid] < |made| && made[numbers[sid]] == streams[sid]
    ensures Remaining(streams - {sid}, made, numbers, which + {numbers[sid]})
  {
  }

  lemma {:induction false} NoneRemaining(made: seq<Stream>, numbers: map<StreamID, nat>, which: set<nat>)
    requires Remaining(map[], made, numbers, which)
    ensures which == numbers.Values
  {
  }

  lemma {:induction false} CloseAllMore(objs: seq<M.Obj>, which: set<nat>, err: StreamErr, k: nat)
    requires k < |objs|
    ensures var now := M.CloseAll(objs, which, err);
            now[k := M.ClosedBy(now[k], Some(err))] == M.CloseAll(objs, which + {k}, err)
  {
    var now, next := M.CloseAll(objs, which, err), M.CloseAll(objs, which + {k}, err);
    var more := now[k := M.ClosedBy(now[k], Some(err))];
    forall i | 0 <= i < |objs| ensures more[i] == next[i] {
      if i == k {
        var o := objs[k];
        assert k in which ==> M.ClosedBy(M.ClosedBy(o, Some(err)), Some(err)) == M.ClosedBy(o, Some(err));
      }
    }
  }

  /** A ClientStream; n is its stream's allocation number. */
  class ClientStream {
    const s: Stream
    const desc: M.Desc
    var localClosed: bool
    var remoteClosed: bool
    ghost const n: nat

    ghost predicate Valid(c: Client)
      reads this, c
    {
      && n < |c.made| && c.made[n] == s && n < |c.model.objs|
      && c.model.objs[n].desc == desc && desc.Streaming?
      && c.model.objs[n].localClosed == localClosed
      && c.model.objs[n].phase == if remoteClosed then M.Over else M.Ready
    }

    /** The result of NewStream. */
    constructor (c: Client, s: Stream, desc: M.Desc, ghost n: nat)
      requires c.Valid() && n < |c.made| && c.made[n] == s && desc.Streaming?
      requires c.model.objs[n].desc == desc && c.model.objs[n].phase.Ready? && !c.model.objs[n].localClosed
      ensures Valid(c) && this.s == s && this.desc == desc && !localClosed && !remoteClosed
    {
      this.s := s;
      this.desc := desc;
      this.n := n;
      localClosed := false;
      remoteClosed := false;
    }

    method CloseSend(c: Client, sent: bool) returns (err: Option<SendErr>)
      requires c.Valid() && Valid(c) && c.model.lock.Free? && (sent ==> M.CanWrite(c.model))
      modifies this`localClosed, c`model, c`written
      ensures c.Valid() && Valid(c)
      ensures err == if !desc.client then Some(NotStreaming)
                     else if old(localClosed) then Some(AlreadyClosed)
                     else if !sent then Some(SendFailed)
                     else None
      ensures localClosed == (old(localClosed) || err.None?)
      ensures c.written == if err.None? then old(c.written) + [DataFrame(s.id, M.CLOSE_FLAGS, [])] else old(c.written)
    {
      if !desc.client {
        return Some(NotStreaming);
      }
      if localClosed {
        return Some(AlreadyClosed);
      }
      if !sent {
        c.Step(M.Conn(M.SendFail));
        return Some(SendFailed);
      }
      assert s.View() == c.model.objs[n].st;
      c.written := c.written + [DataFrame(s.id, M.CLOSE_FLAGS, [])];
      c.Step(M.Call(n, M.CloseSend));
      localClosed := true;
      return None;
    }

    method SendMsg(c: Client, data: Bytes, sent: bool) returns (err: Option<SendErr>)
      requires c.Valid() && Valid(c) && c.model.lock.Free? && (sent ==> M.CanWrite(c.model) && |data| <= LENGTH_MAX)
      modifies c`model, c`written
      ensures c.Valid() && Valid(c)
      ensures err == if !desc.client then Some(NotStreaming)
                     else if localClosed then Some(AlreadyClosed)
                     else if !sent then Some(SendFailed)
                     else None
      ensures c.written == if err.None? then old(c.written) + [DataFrame(s.id, NO_FLAGS, data)] else old(c.written)
      ensures n < |c.model.objs| && c.model.objs[n].sent == old(c.model).objs[n].sent + if err.None? then [data] else []
    {
      if !desc.client {
        return Some(NotStreaming);
      }
      if localClosed {
        return Some(AlreadyClosed);
      }
      if !sent {
        if |data| <= LENGTH_MAX {
          c.Step(M.Conn(M.SendFail));
        }
        return Some(SendFailed);
      }
      assert s.View() == c.model.objs[n].st;
      c.written := c.written + [DataFrame(s.id, NO_FLAGS, data)];
      c.Step(M.Call(n, M.SendMsg(data)));
      return None;
    }

    /** RecvMsg once one of its cases is ready; until then it waits. */
    method RecvMsg(c: Client, cancelled: bool) returns (r: M.Outcome)
      requires c.Valid() && c.Holding() && Valid(c)
      requires remoteClosed || cancelled || s.queue != [] || s.recvErr.Some?
      modifies this`remoteClosed, c`model, c`streams, s`queue, s`recv, s`first, s`recvErr, c.pool
      ensures c.Valid() && c.Holding() && Valid(c)
      ensures c.model.objs[n].results == old(c.model).objs[n].results + [r]
      ensures old(remoteClosed) ==> r == M.EndOfStream && s.View() == old(s.View())
      ensures r.StreamFailed? ==> old(s.recv) == [] && old(s.recvErr) == Some(r.err) && s.View() == old(s.View())
      ensures !old(remoteClosed) && !r.StreamFailed? && !r.Cancelled? ==>
                && old(s.recv) != [] && s.recv == old(s.recv)[1..]
                && M.ReadsAs(desc, old(s.recv)[0], r, remoteClosed)
      ensures remoteClosed && !old(remoteClosed) ==> s.id !in c.streams && s.recvErr.Some?
      ensures KeptFor(old(c.pool.loans), c.pool.loans, {s}) && c.pool.seen == old(c.pool.seen)
    {
      if remoteClosed {
        c.EndCall(n, M.RecvAfterEnd, M.EndOfStream);
        return M.EndOfStream;
      }
      r := RecvNext(c, cancelled);
    }

    /** RecvMsg before the end. */
    method RecvNext(c: Client, cancelled: bool) returns (r: M.Outcome)
      requires c.Valid() && c.Holding() && Valid(c) && !remoteClosed
      requires cancelled || s.queue != [] || s.recvErr.Some?
      modifies this`remoteClosed, c`model, c`streams, s`queue, s`recv, s`first, s`recvErr, c.pool
      ensures c.Valid() && c.Holding() && Valid(c)
      ensures c.model.objs[n].results == old(c.model).objs[n].results + [r]
      ensures r.StreamFailed? ==> old(s.recv) == [] && old(s.recvErr) == Some(r.err) && s.View() == old(s.View())
      ensures !r.StreamFailed? && !r.Cancelled? ==>
                && old(s.recv) != [] && s.recv == old(s.recv)[1..]
                && M.ReadsAs(desc, old(s.recv)[0], r, remoteClosed)
      ensures remoteClosed ==> s.id !in c.streams && s.recvErr.Some?
      ensures KeptFor(old(c.pool.loans), c.pool.loans, {s}) && c.pool.seen == old(c.pool.seen)
    {
      var msg; ghost var f;
      r, msg, f := c.Select(s, n, cancelled, false);
      if msg.None? {
        return r;
      }
      r := Interpret(c, msg.value, f);
    }

    /** The stream has ended: it is deleted, and RecvMsg remembers. */
    method Finish(c: Client)
      requires c.Valid() && c.Holding() && Current(c) && c.model.objs[n].phase.Deleting?
      modifies this`remoteClosed, c`model, c`streams, s`recvErr
      ensures c.Valid() && c.Holding() && Valid(c) && remoteClosed
      ensures c.model.objs[n].results == old(c.model).objs[n].results
      ensures s.id !in c.streams && s.recvErr.Some?
    {
      c.DeleteStream(s, n);
      remoteClosed := true;
    }

    /** The stream ends here, or it does not. */
    method Conclude(c: Client, ends: bool)
      requires c.Valid() && c.Holding() && Current(c) && !remoteClosed
      requires c.model.objs[n].phase == if ends then M.Deleting else M.Ready
      modifies this`remoteClosed, c`model, c`streams, s`recvErr
      ensures c.Valid() && c.Holding() && Valid(c) && remoteClosed == ends
      ensures c.model.objs[n].results == old(c.model).objs[n].results
      ensures remoteClosed ==> s.id !in c.streams && s.recvErr.Some?
    {
      if ends {
        Finish(c);
      }
    }

    /** The stream is the client's, and a message of it is being looked at. */
    ghost predicate Current(c: Client)
      reads this, c
    {
      && n < |c.made| && c.made[n] == s && n < |c.model.objs|
      && c.model.objs[n].desc == desc && desc.Streaming? && c.model.objs[n].localClosed == localClosed
    }

    /** The rest of RecvMsg, for the message it has taken: the buffer is returned once it has
        been read, and left to the garbage collector if it is not read. */
    method Interpret(c: Client, msg: Msg, ghost f: Frame) returns (r: M.Outcome)
      requires c.Valid() && c.Holding() && Current(c) && !remoteClosed
      requires s.first > 0 && Carries(c.pool, c.codec, msg, f, InQueue(s, s.first - 1))
      requires c.model.objs[n].phase == if M.Decode(desc, f).1 then M.Deleting else M.Ready
      modifies this`remoteClosed, c`model, c`streams, s`recvErr, c.pool
      ensures c.Valid() && c.Holding() && Valid(c)
      ensures r == M.Decode(desc, f).0 && M.ReadsAs(desc, f, r, remoteClosed)
      ensures c.model.objs[n].results == old(c.model).objs[n].results
      ensures remoteClosed ==> s.id !in c.streams && s.recvErr.Some?
      ensures KeptFor(old(c.pool.loans), c.pool.loans, {s}) && c.pool.seen == old(c.pool.seen)
    {
      var ends;
      r, ends := Classify(c, msg, f);
      Conclude(c, ends);
      r := ReadOrEnd(c, msg, f, r);
      M.DecodeMeans(desc, f);
    }

    /** Whether a message ends the stream, and what it means unless it is data that is still
        to be read. */
    method Classify(c: Client, msg: Msg, ghost f: Frame) returns (r: M.Outcome, ends: bool)
      requires c.Valid() && c.Holding() && Current(c)
      requires s.first > 0 && Carries(c.pool, c.codec, msg, f, InQueue(s, s.first - 1))
      modifies c.pool
      ensures c.Valid() && Current(c) && c.Holding() && ends == M.Decode(desc, f).1
      ensures if msg.h.kind == DATA && desc.server then Carries(c.pool, c.codec, msg, f, InQueue(s, s.first - 1))
              else r == M.Decode(desc, f).0
      ensures KeptFor(old(c.pool.loans), c.pool.loans, {s}) && c.pool.seen == old(c.pool.seen)
    {
      HeaderTells(c.codec, msg.h, Contents(msg.payload));
      r, ends := M.ProtocolErr, false;
      if msg.h.kind == RESPONSE {
        var resp := c.ReadResponse(s, n, msg, f);
        if resp.Some? {
          ends := resp.value.0 == OK;
          r := if ends then M.Msg(resp.value.1) else M.StatusErr(resp.value.0);
        }
      } else if msg.h.kind == DATA {
        ends := !desc.server || FlagsOf(msg.h.flags).remoteClosed;
      }
    }

    /** Data for a server-streaming caller: the end, or a message. */
    method ReadOrEnd(c: Client, msg: Msg, ghost f: Frame, r: M.Outcome) returns (r': M.Outcome)
      requires c.Valid() && Valid(c) && c.Holding() && s.first > 0
      requires if msg.h.kind == DATA && desc.server then Carries(c.pool, c.codec, msg, f, InQueue(s, s.first - 1))
               else r == M.Decode(desc, f).0
      modifies c.pool
      ensures c.Valid() && Valid(c) && c.Holding() && r' == M.Decode(desc, f).0
      ensures KeptFor(old(c.pool.loans), c.pool.loans, {s}) && c.pool.seen == old(c.pool.seen)
    {
      if msg.h.kind != DATA || !desc.server {
        return r;
      }
      HeaderTells(c.codec, msg.h, Contents(msg.payload));
      var flags := FlagsOf(msg.h.flags);
      if flags.remoteClosed && flags.noData {
        return M.EndOfStream;
      }
      var bytes := c.ReadData(s, n, msg, f);
      r' := M.Msg(bytes);
    }
  }

  ghost predicate DeliverStep(c: M.Client, a: M.DeliverAct, c': M.Client) {
    && M.InDelivery(c.loop) && c.loop.n < |c.objs|
    && M.DeliverEnabled(c.loop, c.ctxDone, c.objs[c.loop.n], a)
    && c' == M.DeliverApply(c, a)
  }

  ghost predicate Distinct(made: seq<Stream>) {
    forall n :: 0 <= n < |made| ==> made[n].number == n
  }

  /** Each object's fields are what the machine says of it. */
  ghost predicate Views(made: seq<Stream>, objs: seq<M.Obj>)
    reads set s | s in made
  {
    |made| == |objs| && forall n :: 0 <= n < |made| ==> made[n].View() == objs[n].st
  }

  ghost predicate Wrote(written: seq<Frame>, out: seq<M.Sent>) {
    |written| == |out| && forall i :: 0 <= i < |out| ==> written[i] == out[i].frame
  }

  /** The map of streams holds the objects that the machine's map numbers. */
  ghost predicate Tracks(streams: map<StreamID, Stream>, made: seq<Stream>, numbers: map<StreamID, nat>) {
    && streams.Keys == numbers.Keys
    && forall id :: id in streams ==> numbers[id] < |made| && made[numbers[id]] == streams[id]
  }
}
