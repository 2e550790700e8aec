/** What a streaming handler's RecvMsg returns, in terms of the frames received. */
module ServerFeeds {
  import opened Frames
  import opened ServerConn
  import opened ServerIds

  predicate CarriesData(f: Frame, id: StreamID) {
    f.id == id && f.DataFrame? && !f.flags.noData
  }

  /** What a stream starts with: its request's payload, which is a message unless the client
      is streaming and sends none with its request. */
  function Opens(kind: Kind, payload: Bytes): seq<Bytes> {
    match kind
    case Method => []
    case Stream(info) => if info.client && payload == [] then [] else [payload]
  }

  /** What the frames `fs` should have fed the handler of the request at index reqAt: what its
      stream starts with and the messages of later data frames. */
  ghost function Due(fs: seq<Frame>, kind: Kind, req: Request, reqAt: nat, id: StreamID): seq<Bytes> {
    if |fs| <= reqAt + 1 then Opens(kind, req.payload)
    else
      var f := fs[|fs| - 1];
      var front := Due(fs[..|fs| - 1], kind, req, reqAt, id);
      if CarriesData(f, id) then front + [f.data] else front
  }

  lemma DueSnoc(fs: seq<Frame>, f: Frame, kind: Kind, req: Request, reqAt: nat, id: StreamID)
    requires reqAt < |fs|
    ensures Due(fs + [f], kind, req, reqAt, id) ==
            if CarriesData(f, id) then Due(fs, kind, req, reqAt, id) + [f.data] else Due(fs, kind, req, reqAt, id)
  {
    assert (fs + [f])[..|fs|] == fs;
  }

  /** The messages of the data frames of one stream. */
  ghost function Carried(fs: seq<Frame>, id: StreamID): seq<Bytes> {
    if fs == [] then []
    else
      var f := fs[|fs| - 1];
      Carried(fs[..|fs| - 1], id) + (if f.id == id && f.DataFrame? && !f.flags.noData then [f.data] else [])
  }

  lemma {:induction false} DueIs(fs: seq<Frame>, kind: Kind, req: Request, reqAt: nat, id: StreamID)
    requires reqAt < |fs|
    ensures Due(fs, kind, req, reqAt, id) == Opens(kind, req.payload) + Carried(fs[reqAt + 1..], id)
  {
    if |fs| > reqAt + 1 {
      var front := fs[..|fs| - 1];
      DueIs(front, kind, req, reqAt, id);
      assert fs[reqAt + 1..][..|fs| - reqAt - 2] == front[reqAt + 1..];
    }
  }

  /** The frames the receiver is done with, as far as handlers' queues go. */
  ghost function Processed(rp: Receiver, inLog: seq<Frame>): seq<Frame> {
    if (rp.Got? || rp.Feeding?) && inLog != [] then inLog[..|inLog| - 1] else inLog
  }

  predicate Engaged(rp: Receiver, h: nat) {
    (OnRequest(rp) || OnData(rp)) && rp.h == h
  }

  /** As long as no data() call failed, a handler has been fed exactly what it should,
      unless the sender loop removed its stream: then a prefix, from what the stream starts
      with on. */
  ghost predicate FedRight(o: Handler, expected: seq<Bytes>, removed: bool, starting: bool) {
    if starting then o.fed == [] && !o.feedErr && !o.remoteClosed
    else !o.feedErr ==>
           o.fed <= expected && (o.fed == expected || removed) && Opens(o.kind, o.req.payload) <= o.fed
  }

  ghost predicate QueueRight(inLog: seq<Frame>, o: Handler) {
    && o.fed == o.taken + o.queue
    && (o.sawEOF ==> o.remoteClosed && o.queue == [])
    && o.closes == (if o.remoteClosed then 1 else 0)
    && (o.remoteClosed ==>
          && o.reqAt < o.closedAt < |inLog|
          && inLog[o.closedAt].DataFrame? && inLog[o.closedAt].id == o.id && inLog[o.closedAt].flags.remoteClosed
          && (!o.feedErr ==> o.fed == Due(inLog[..o.closedAt + 1], o.kind, o.req, o.reqAt, o.id)))
  }

  ghost predicate Removed(s: Server, h: nat)
    requires h < |s.handlers|
  {
    s.handlers[h].id !in s.streams && !Engaged(s.rp, h)
  }

  ghost predicate FeedRight(s: Server, h: nat)
    requires h < |s.handlers|
  {
    var o := s.handlers[h];
    && QueueRight(s.inLog, o)
    && FedRight(o, Due(Processed(s.rp, s.inLog), o.kind, o.req, o.reqAt, o.id), Removed(s, h),
                s.rp.Starting? && s.rp.h == h)
  }

  ghost predicate FeedInv(s: Server) {
    && (forall h :: 0 <= h < |s.handlers| ==> FeedRight(s, h))
    && (InFeed(s.rp) && !s.rp.stage.Check? && s.rp.h < |s.handlers| ==> !s.handlers[s.rp.h].remoteClosed)
  }

  // ---- one handler at a time ----

  lemma {:induction false} QueueGrows(inLog: seq<Frame>, f: Frame, o: Handler)
    requires QueueRight(inLog, o)
    ensures QueueRight(inLog + [f], o)
  {
    if o.remoteClosed {
      assert (inLog + [f])[..o.closedAt + 1] == inLog[..o.closedAt + 1];
    }
  }

  lemma {:induction false} HandleQueue(inLog: seq<Frame>, s: Server, o: Handler, a: HandlerAct)
    requires QueueRight(inLog, o) && HandleEnabled(s, o, a)
    ensures QueueRight(inLog, HandleNext(o, a))
  {
    var o' := HandleNext(o, a);
    if a.HRecv? {
      assert o.taken + o.queue == (o.taken + [o.queue[0]]) + o.queue[1..];
    }
  }

  lemma {:induction false} FeedQueue(inLog: seq<Frame>, o: Handler, data: Bytes)
    requires QueueRight(inLog, o) && !o.remoteClosed
    ensures QueueRight(inLog, Queued(o, data))
  {
    assert o.taken + (o.queue + [data]) == (o.taken + o.queue) + [data];
  }

  lemma {:induction false} CloseQueue(inLog: seq<Frame>, o: Handler)
    requires QueueRight(inLog, o) && inLog != [] && o.reqAt < |inLog| - 1
    requires var f := inLog[|inLog| - 1]; f.DataFrame? && f.id == o.id && f.flags.remoteClosed
    requires !o.feedErr ==> o.fed == Due(inLog, o.kind, o.req, o.reqAt, o.id)
    ensures QueueRight(inLog, SendClosed(o, |inLog| - 1))
  {
    assert inLog[..|inLog| - 1 + 1] == inLog;
  }

  lemma {:induction false} AllQueues(s: Server)
    requires FeedInv(s)
    ensures forall h :: 0 <= h < |s.handlers| ==> QueueRight(s.inLog, s.handlers[h])
  {
    forall h | 0 <= h < |s.handlers| ensures QueueRight(s.inLog, s.handlers[h]) {
      assert FeedRight(s, h);
    }
  }

  /** A step after which every handler has been fed what it had been, the same frames are
      processed, and no stream comes back. */
  ghost predicate Feedless(s: Server, s': Server) {
    && |s'.handlers| == |s.handlers| && s'.inLog == s.inLog
    && Processed(s'.rp, s'.inLog) == Processed(s.rp, s.inLog)
    && (forall h :: 0 <= h < |s.handlers| ==>
          && SameRequest(s.handlers[h], s'.handlers[h])
          && s'.handlers[h].fed == s.handlers[h].fed && s'.handlers[h].feedErr == s.handlers[h].feedErr
          && s'.handlers[h].remoteClosed == s.handlers[h].remoteClosed
          && QueueRight(s'.inLog, s'.handlers[h])
          && (Removed(s, h) ==> Removed(s', h)))
    && (s.rp.Starting? <==> s'.rp.Starting?) && (s.rp.Starting? ==> s.rp.h == s'.rp.h)
    && (InFeed(s'.rp) && !s'.rp.stage.Check? ==>
          s.rp == s'.rp || (s'.rp.h < |s.handlers| && !s.handlers[s'.rp.h].remoteClosed))
  }

  lemma {:induction false} FeedlessKeeps(s: Server, s': Server)
    requires FeedInv(s) && Feedless(s, s')
    ensures FeedInv(s')
  {
    forall h: nat | h < |s'.handlers| ensures FeedRight(s', h) {
      assert FeedRight(s, h);
      assert SameRequest(s.handlers[h], s'.handlers[h]);
    }
  }

  lemma {:induction false} ReadFeeds(s: Server, s': Server, f: Frame)
    requires FeedInv(s) && s.rp.Blocked? && s'.rp.Got? && s'.inLog == s.inLog + [f]
    requires s'.handlers == s.handlers && s'.streams == s.streams
    ensures FeedInv(s')
  {
    assert s'.inLog[..|s'.inLog| - 1] == s.inLog;
    forall h: nat | h < |s'.handlers| ensures FeedRight(s', h) {
      assert FeedRight(s, h);
      QueueGrows(s.inLog, f, s.handlers[h]);
    }
  }

  /** One more frame is processed without feeding `o`. */
  lemma {:induction false} FrameProcessed(o: Handler, done: seq<Frame>, f: Frame, removed: bool, removed': bool)
    requires o.reqAt < |done|
    requires FedRight(o, Due(done, o.kind, o.req, o.reqAt, o.id), removed, false)
    requires removed ==> removed'
    requires CarriesData(f, o.id) ==> removed'
    ensures FedRight(o, Due(done + [f], o.kind, o.req, o.reqAt, o.id), removed', false)
  {
    DueSnoc(done, f, o.kind, o.req, o.reqAt, o.id);
  }

  /** The receiver is done with the frame at hand and handler h was not fed by it. */
  ghost predicate Passes(s: Server, s': Server, h: nat) {
    && h < |s.handlers| && h < |s'.handlers| && s'.handlers[h] == s.handlers[h]
    && s.inLog != [] && s'.inLog == s.inLog
    && (s.rp.Got? || s.rp.Feeding?) && !s'.rp.Got? && !s'.rp.Feeding?
    && s.handlers[h].reqAt < |s.inLog| - 1
    && !(s'.rp.Starting? && s'.rp.h == h)
    && (Removed(s, h) ==> Removed(s', h))
    && (CarriesData(Last(s), s.handlers[h].id) ==> Removed(s', h))
  }

  lemma {:induction false} PassingKeeps(s: Server, s': Server, h: nat)
    requires Passes(s, s', h) && FeedRight(s, h)
    ensures FeedRight(s', h)
  {
    assert s.inLog[..|s.inLog| - 1] + [Last(s)] == s.inLog;
    FrameProcessed(s.handlers[h], Processed(s.rp, s.inLog), Last(s), Removed(s, h), Removed(s', h));
  }

  lemma {:induction false} TurnDownPasses(s: Server, id: StreamID, reason: Reason, h: nat)
    requires IdInv(s) && s.rp.Got? && Judge(s) == TurnDown(id, reason) && h < |s.handlers|
    ensures Passes(s, Follow(s, TurnDown(id, reason)), h)
  {
    assert HandlerRight(s.svc, s.inLog, s.lastID, s.handlers[h]);
  }

  lemma {:induction false} TurnDownFeeds(s: Server, id: StreamID, reason: Reason)
    requires FeedInv(s) && IdInv(s) && s.rp.Got? && Judge(s) == TurnDown(id, reason)
    ensures FeedInv(Follow(s, TurnDown(id, reason)))
  {
    var s' := Follow(s, TurnDown(id, reason));
    forall h: nat | h < |s'.handlers| ensures FeedRight(s', h) {
      assert FeedRight(s, h);
      TurnDownPasses(s, id, reason, h);
      PassingKeeps(s, s', h);
    }
  }

  /** The frame is not for any queue: ignored, or marked as carrying no data. */
  lemma {:induction false} MoveOnPasses(s: Server, rp: Receiver, h: nat)
    requires IdInv(s) && s.rp.Got? && Judge(s) == MoveOn(rp) && !rp.Feeding? && h < |s.handlers|
    ensures rp == AtTop || rp == Finishing(s.streams[Last(s).id])
    ensures rp.Finishing? && rp.h == h ==> !Removed(s, h)
    ensures !(rp.Finishing? && rp.h == h) ==> Passes(s, s.(rp := rp), h)
  {
    assert HandlerRight(s.svc, s.inLog, s.lastID, s.handlers[h]);
  }

  /** A no-data frame for h changes nothing in what h should have been fed. */
  lemma {:induction false} NoDataKeeps(s: Server, s': Server, h: nat)
    requires h < |s.handlers| && s.inLog != [] && s.handlers[h].reqAt < |s.inLog| - 1
    requires s.rp.Got? && FeedRight(s, h) && !Removed(s, h)
    requires Last(s).DataFrame? && Last(s).flags.noData
    requires s'.rp == Finishing(h) && s'.inLog == s.inLog && s'.handlers == s.handlers && s'.streams == s.streams
    ensures FeedRight(s', h)
  {
    assert s.inLog[..|s.inLog| - 1] + [Last(s)] == s.inLog;
    FrameProcessed(s.handlers[h], Processed(s.rp, s.inLog), Last(s), false, false);
  }

  lemma {:induction false} StartFeedingKeeps(s: Server, s': Server, h: nat)
    requires h < |s.handlers| && s.inLog != [] && FeedRight(s, h) && s.rp.Got?
    requires s'.rp.Feeding? && s'.inLog == s.inLog && s'.handlers == s.handlers && s'.streams == s.streams
    requires s'.rp.h == h ==> s.handlers[h].id in s.streams
    ensures FeedRight(s', h)
  {
  }

  lemma {:induction false} StartFeeding(s: Server, s': Server)
    requires FeedInv(s) && StreamsRight(s) && s.rp.Got? && s.inLog != [] && Last(s).id in s.streams
    requires s'.rp == Feeding(s.streams[Last(s).id], Check)
    requires s'.inLog == s.inLog && s'.handlers == s.handlers && s'.streams == s.streams
    ensures FeedInv(s')
  {
    forall h: nat | h < |s'.handlers| ensures FeedRight(s', h) {
      assert FeedRight(s, h);
      StartFeedingKeeps(s, s', h);
    }
  }

  lemma {:induction false} MoveOnFeeds(s: Server, rp: Receiver)
    requires FeedInv(s) && IdInv(s) && s.rp.Got? && Judge(s) == MoveOn(rp)
    ensures FeedInv(Follow(s, MoveOn(rp)))
  {
    if rp.Feeding? {
      StartFeeding(s, Follow(s, MoveOn(rp)));
    } else {
      var s' := Follow(s, MoveOn(rp));
      forall h: nat | h < |s'.handlers| ensures FeedRight(s', h) {
        assert FeedRight(s, h);
        MoveOnPasses(s, rp, h);
        if rp.Finishing? && rp.h == h {
          assert HandlerRight(s.svc, s.inLog, s.lastID, s.handlers[h]);
          NoDataKeeps(s, s', h);
        } else {
          PassingKeeps(s, s', h);
        }
      }
    }
  }

  lemma {:induction false} NewHandlerFeeds(s: Server, s': Server, h: nat)
    requires s.inLog != [] && s'.inLog == s.inLog && h < |s'.handlers| && OnRequest(s'.rp) && s'.rp.h == h
    requires s'.handlers[h] == NewHandler(s, s'.handlers[h].id, s'.handlers[h].kind, s'.handlers[h].req)
    requires s'.rp.Starting? || (s'.rp.Storing? && !HasInitial(s'.handlers[h].kind, s'.handlers[h].req))
    ensures FeedRight(s', h)
  {
  }

  lemma {:induction false} BeginPasses(s: Server, kind: Kind, req: Request, h: nat)
    requires IdInv(s) && s.rp.Got? && Judge(s) == Begin(kind, req) && h < |s.handlers|
    ensures Passes(s, Follow(s, Begin(kind, req)), h)
  {
    assert HandlerRight(s.svc, s.inLog, s.lastID, s.handlers[h]);
  }

  lemma {:induction false} BeginFeeds(s: Server, kind: Kind, req: Request)
    requires FeedInv(s) && IdInv(s) && s.rp.Got? && Judge(s) == Begin(kind, req)
    ensures FeedInv(Follow(s, Begin(kind, req)))
  {
    var s' := Follow(s, Begin(kind, req));
    forall h: nat | h < |s'.handlers| ensures FeedRight(s', h) {
      if h < |s.handlers| {
        assert FeedRight(s, h);
        BeginPasses(s, kind, req, h);
        PassingKeeps(s, s', h);
      } else {
        NewHandlerFeeds(s, s', h);
      }
    }
  }

  lemma {:induction false} DispatchFeeds(s: Server)
    requires FeedInv(s) && IdInv(s) && RecvEnabled(s, Dispatch)
    ensures FeedInv(Follow(s, Judge(s)))
  {
    match Judge(s)
    case TurnDown(id, reason) => TurnDownFeeds(s, id, reason);
    case MoveOn(rp) => MoveOnFeeds(s, rp);
    case Begin(kind, req) => BeginFeeds(s, kind, req);
  }

  /** Queueing the request's payload. */
  lemma {:induction false} InitialQueued(s: Server, s': Server, h: nat)
    requires h < |s.handlers| && s.rp.Starting? && s.rp.h == h && FeedRight(s, h) && s.inLog != []
    requires HasInitial(s.handlers[h].kind, s.handlers[h].req) && s.handlers[h].reqAt == |s.inLog| - 1
    requires s'.inLog == s.inLog && s'.rp == Storing(h) && h < |s'.handlers|
    requires s'.handlers[h] == Queued(s.handlers[h], s.handlers[h].req.payload)
    ensures FeedRight(s', h)
  {
    var o := s.handlers[h];
    FeedQueue(s.inLog, o, o.req.payload);
  }

  /** Queueing a data frame's message. */
  lemma {:induction false} MessageQueued(s: Server, s': Server, h: nat)
    requires h < |s.handlers| && s.rp.Feeding? && s.rp.h == h && FeedRight(s, h) && s.inLog != []
    requires !s.handlers[h].remoteClosed
    requires s.handlers[h].reqAt < |s.inLog| - 1
    requires Last(s).DataFrame? && !Last(s).flags.noData && Last(s).id == s.handlers[h].id
    requires s'.inLog == s.inLog && s'.rp == Finishing(h) && h < |s'.handlers|
    requires s'.handlers[h] == Queued(s.handlers[h], Last(s).data)
    ensures FeedRight(s', h)
  {
    var o := s.handlers[h];
    var done := Processed(s.rp, s.inLog);
    assert done + [Last(s)] == s.inLog;
    FeedQueue(s.inLog, o, Last(s).data);
    DueSnoc(done, Last(s), o.kind, o.req, o.reqAt, o.id);
  }

  /** After one step of feeding h0, the other handlers are as they were. */
  lemma {:induction false} OthersKeep(s: Server, s': Server, h0: nat, h: nat)
    requires InFeed(s.rp) && s.rp.h == h0 && h0 < |s.handlers| && h < |s.handlers| && h != h0
    requires FeedRight(s, h) && s.inLog != []
    requires s.rp.Feeding? ==> Last(s).id != s.handlers[h].id && s.handlers[h].reqAt < |s.inLog| - 1
    requires h < |s'.handlers| && s'.handlers[h] == s.handlers[h] && s'.inLog == s.inLog && s'.streams == s.streams
    requires s'.rp == AfterFeed(s.rp) || s'.rp.Rejecting?
    ensures FeedRight(s', h)
  {
    if s.rp.Feeding? {
      PassingKeeps(s, s', h);
    }
  }

  lemma {:induction false} OtherIds(s: Server, h: nat)
    requires IdInv(s) && s.rp.Feeding? && h < |s.handlers| && h != s.rp.h
    ensures Last(s).id != s.handlers[h].id && s.handlers[h].reqAt < |s.inLog| - 1
  {
    assert HandlerRight(s.svc, s.inLog, s.lastID, s.handlers[h]);
    SameHandler(s.handlers, s.rp.h, h);
  }

  lemma {:induction false} FeedFeeds(s: Server, s': Server)
    requires FeedInv(s) && IdInv(s) && InFeed(s.rp) && s.rp.h < |s.handlers|
    requires FeedEnabled(s.rp, s.handlers[s.rp.h], Feed) && s' == FeedApply(s, Feed)
    ensures FeedInv(s')
  {
    var h0 := s.rp.h;
    forall h: nat | h < |s'.handlers| ensures FeedRight(s', h) {
      assert FeedRight(s, h);
      if h != h0 {
        if s.rp.Feeding? {
          OtherIds(s, h);
        }
        OthersKeep(s, s', h0, h);
      } else if s.rp.Starting? {
        InitialQueued(s, s', h);
      } else {
        MessageQueued(s, s', h);
      }
    }
  }

  lemma {:induction false} FeedErrFeeds(s: Server, s': Server)
    requires FeedInv(s) && IdInv(s) && InFeed(s.rp) && s.rp.h < |s.handlers|
    requires FeedEnabled(s.rp, s.handlers[s.rp.h], FeedErr) && s' == FeedApply(s, FeedErr)
    ensures FeedInv(s')
  {
    var h0 := s.rp.h;
    forall h: nat | h < |s'.handlers| ensures FeedRight(s', h) {
      assert FeedRight(s, h);
      if h != h0 {
        if s.rp.Feeding? {
          OtherIds(s, h);
        }
        OthersKeep(s, s', h0, h);
      }
    }
  }

  lemma {:induction false} FinishKeepsQueue(s: Server, s': Server, h: nat)
    requires s.rp.Finishing? && s.inLog != [] && h < |s.handlers| && FeedRight(s, h)
    requires h < |s'.handlers| && s'.inLog == s.inLog && s'.streams == s.streams && (s'.rp.AtTop? || s'.rp.Rejecting?)
    requires s'.handlers[h] == s.handlers[h]
    ensures FeedRight(s', h)
  {
  }

  lemma {:induction false} FinishCloses(s: Server, s': Server, h: nat)
    requires s.rp.Finishing? && s.inLog != [] && h < |s.handlers| && FeedRight(s, h) && s.rp.h == h
    requires h < |s'.handlers| && s'.inLog == s.inLog && s'.streams == s.streams && (s'.rp.AtTop? || s'.rp.Rejecting?)
    requires s'.handlers[h] == SendClosed(s.handlers[h], |s.inLog| - 1)
    requires Last(s).DataFrame? && Last(s).flags.remoteClosed && Last(s).id == s.handlers[h].id
    requires s.handlers[h].reqAt < |s.inLog| - 1
    ensures FeedRight(s', h)
  {
    CloseQueue(s.inLog, s.handlers[h]);
  }

  lemma {:induction false} FinishFeeds(s: Server, s': Server)
    requires FeedInv(s) && ReceiverRight(s) && RecvEnabled(s, Finish) && s' == FinishApply(s)
    ensures FeedInv(s')
  {
    forall h: nat | h < |s'.handlers| ensures FeedRight(s', h) {
      assert FeedRight(s, h);
      if h == s.rp.h && Last(s).flags.remoteClosed {
        FinishCloses(s, s', h);
      } else {
        FinishKeepsQueue(s, s', h);
      }
    }
  }

  /** A step that leaves all handlers alone. */
  lemma {:induction false} HandlersAlone(s: Server, s': Server)
    requires FeedInv(s) && s'.handlers == s.handlers && s'.inLog == s.inLog
    requires Processed(s'.rp, s'.inLog) == Processed(s.rp, s.inLog)
    requires forall h :: 0 <= h < |s.handlers| && Removed(s, h) ==> Removed(s', h)
    requires (s.rp.Starting? <==> s'.rp.Starting?) && (s.rp.Starting? ==> s.rp.h == s'.rp.h)
    requires InFeed(s'.rp) && !s'.rp.stage.Check? ==>
               s.rp == s'.rp || (s'.rp.h < |s.handlers| && !s.handlers[s'.rp.h].remoteClosed)
    ensures FeedInv(s')
  {
    AllQueues(s);
    FeedlessKeeps(s, s');
  }

  lemma {:induction false} StageFeeds(s: Server, a: RecvAct)
    requires FeedInv(s) && RecvEnabled(s, a) && (a.FeedCheck? || a.FeedWait?) && s.inLog != []
    ensures FeedInv(RecvApply(s, a))
  {
    HandlersAlone(s, RecvApply(s, a));
  }

  lemma {:induction false} StoreFeeds(s: Server)
    requires FeedInv(s) && Increasing(s.handlers) && RecvEnabled(s, Store)
    ensures FeedInv(RecvApply(s, Store))
  {
    var s' := RecvApply(s, Store);
    var g := s.rp.h;
    forall h | 0 <= h < |s.handlers| && Removed(s, h) ensures Removed(s', h) {
      SameHandler(s.handlers, g, h);
    }
    HandlersAlone(s, s');
  }

  lemma {:induction false} RestFeeds(s: Server, a: RecvAct)
    requires FeedInv(s) && RecvEnabled(s, a)
    requires a.Quit? || a.Proceed? || a.Break? || a.ReadErr? || a.DropReject? || a.Count?
    ensures FeedInv(RecvApply(s, a))
  {
    HandlersAlone(s, RecvApply(s, a));
  }

  lemma {:induction false} RecvFeeds(s: Server, a: RecvAct)
    requires FeedInv(s) && IdInv(s) && RecvEnabled(s, a)
    ensures FeedInv(RecvApply(s, a))
  {
    match a
    case Read(f) => ReadFeeds(s, RecvApply(s, a), f);
    case Dispatch => DispatchFeeds(s);
    case Feed => FeedFeeds(s, RecvApply(s, a));
    case FeedErr => FeedErrFeeds(s, RecvApply(s, a));
    case Finish => FinishFeeds(s, RecvApply(s, a));
    case FeedCheck => StageFeeds(s, a);
    case FeedWait => StageFeeds(s, a);
    case Store => StoreFeeds(s);
    case _ => RestFeeds(s, a);
  }

  lemma {:induction false} AcceptQueue(inLog: seq<Frame>, o: Handler)
    requires QueueRight(inLog, o) && CanAccept(o)
    ensures QueueRight(inLog, Accepted(o)) && SameRequest(o, Accepted(o))
    ensures Accepted(o).fed == o.fed && Accepted(o).feedErr == o.feedErr && Accepted(o).remoteClosed == o.remoteClosed
  {
  }

  lemma {:induction false} AcceptFeeds(s: Server, h: nat)
    requires FeedInv(s) && SendEnabled(s, Accept(h))
    ensures FeedInv(SendApply(s, Accept(h)))
  {
    AllQueues(s);
    AcceptQueue(s.inLog, s.handlers[h]);
    FeedlessKeeps(s, SendApply(s, Accept(h)));
  }

  lemma {:induction false} SendFeeds(s: Server, a: SendAct)
    requires FeedInv(s) && SendEnabled(s, a)
    ensures FeedInv(SendApply(s, a))
  {
    if a.Accept? {
      AcceptFeeds(s, a.h);
    } else {
      HandlersAlone(s, SendApply(s, a));
    }
  }

  lemma {:induction false} HandleFeedless(s: Server, h: nat, a: HandlerAct)
    requires FeedInv(s) && h < |s.handlers| && HandleEnabled(s, s.handlers[h], a)
    ensures Feedless(s, HandleApply(s, h, a))
  {
    AllQueues(s);
    HandleQueue(s.inLog, s, s.handlers[h], a);
  }

  lemma {:induction false} FeedInvStep(s: Server, a: Action)
    requires FeedInv(s) && IdInv(s) && Enabled(s, a)
    ensures FeedInv(Apply(s, a))
  {
    match a
    case Recv(ra) => RecvFeeds(s, ra);
    case Send(sa) => SendFeeds(s, sa);
    case Handle(h, ha) =>
      HandleFeedless(s, h, ha);
      FeedlessKeeps(s, HandleApply(s, h, ha));
    case Shutdown => HandlersAlone(s, Apply(s, a));
  }
}
