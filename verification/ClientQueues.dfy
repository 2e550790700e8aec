/** What a client stream delivers to its caller: the order and completeness of its
    messages, the close cause, the timeouts, and what is left at shutdown. */
module ClientQueues {
  import opened Frames
  import opened StreamQueue
  import opened ClientConn
  import opened ClientIds

  /** The frames for stream n that were looked up since it was registered. */
  ghost function Arrivals(looked: seq<Frame>, o: Obj): seq<Frame>
    requires o.regAt <= |looked|
  {
    OnId(looked[o.regAt..], o.st.id)
  }

  ghost predicate Registered(c: Client, n: nat) {
    IdOf(n) in c.streams && c.streams[IdOf(n)] == n
  }

  /** The loop stops at the next check of the context. */
  predicate Winding(loop: Loop) {
    loop.Top? || loop.Exited? || loop.Cleaning? || loop.Finished?
  }

  predicate Target(loop: Loop, n: nat) {
    InDelivery(loop) && loop.n == n
  }

  predicate Selected(loop: Loop, n: nat) {
    AtSelect(loop) && loop.n == n
  }

  /** The queue has taken every arrival, up to the frame in flight, unless the stream can
      take no more: it is closed, gone from the map, or the connection is winding up. */
  ghost predicate GapFree(loop: Loop, ctxDone: bool, registered: bool, n: nat, o: Obj, arr: seq<Frame>) {
    if Target(loop, n) then
      && arr != [] && arr[|arr| - 1] == loop.f
      && var before := arr[..|arr| - 1];
      && o.accepted <= before
      && (o.accepted == before || (loop.Delivering? && o.st.closed.Some?))
    else
      && o.accepted <= arr
      && (o.accepted == arr || o.st.closed.Some? || !registered || (ctxDone && Winding(loop)))
  }

  /** Who can close: a stream closed before its caller deletes it was closed by the
      receive loop, which is then not about to queue anything on it. */
  ghost predicate Settled(loop: Loop, n: nat, o: Obj, arr: seq<Frame>) {
    && (o.st.closed.Some? && !o.phase.Over? ==> !Selected(loop, n))
    && (forall e :: StreamFailed(e) in o.results ==>
          o.st.closed == Some(e) && o.st.queue == [] && !Selected(loop, n))
    && o.timeouts <= 1
    && (o.timeouts == 1 ==> o.st.closed.Some? && !Selected(loop, n) && |arr| > o.st.cap)
    && (loop.Waiting? && loop.n == n ==> |o.accepted| >= o.st.cap)
  }

  /** The messages RecvMsg returned, in order. */
  ghost function Messages(results: seq<Outcome>): seq<Bytes> {
    if results == [] then []
    else
      var last := results[|results| - 1];
      Messages(results[..|results| - 1]) + (if last.Msg? then [last.data] else [])
  }

  lemma MessagesSnoc(results: seq<Outcome>, r: Outcome)
    ensures Messages(results + [r]) == Messages(results) + (if r.Msg? then [r.data] else [])
  {
    assert (results + [r])[..|results|] == results;
  }

  /** The messages in a sequence of frames. */
  ghost function Payloads(desc: Desc, fs: seq<Frame>): seq<Bytes> {
    if fs == [] then []
    else
      var m := MessageIn(desc, fs[|fs| - 1]);
      Payloads(desc, fs[..|fs| - 1]) + (if m.Some? then [m.value] else [])
  }

  lemma PayloadsSnoc(desc: Desc, fs: seq<Frame>, f: Frame)
    ensures Payloads(desc, fs + [f]) ==
            Payloads(desc, fs) + (if MessageIn(desc, f).Some? then [MessageIn(desc, f).value] else [])
  {
    assert (fs + [f])[..|fs|] == fs;
  }

  /** Calls and queue agree: what was queued is what was taken plus what waits; a unary
      call takes at most one message and returns once; RecvMsg returned exactly the
      messages taken; and the caller deletes the stream exactly when it has taken a
      message that ends it. */
  ghost predicate CallerRight(o: Obj) {
    && o.accepted == o.taken + o.st.queue
    && |o.st.queue| <= o.st.cap
    && (!Opened(o) ==> o.taken == [] && o.results == [])
    && (o.desc.Unary? ==> UnaryRight(o))
    && (o.desc.Streaming? ==> StreamingRight(o))
  }

  ghost predicate UnaryRight(o: Obj) {
    && (o.phase.Ready? ==> o.taken == [] && o.results == [])
    && |o.taken| <= 1 && |o.results| <= 1
    && (o.taken == [] || o.results == [ReplyIn(o.taken[0])])
    && (o.taken == [] ==> forall r :: r in o.results ==> !r.Reply?)
  }

  ghost predicate StreamingRight(o: Obj) {
    && Messages(o.results) == Payloads(o.desc, o.taken)
    && (forall i :: 0 <= i < |o.taken| - 1 ==> !Ending(o.desc, o.taken[i]))
    && (o.phase.Deleting? || o.phase.Closing? || o.phase.Over? <==>
          o.taken != [] && Ending(o.desc, o.taken[|o.taken| - 1]))
  }

  ghost predicate Aimed(c: Client) {
    && (InDelivery(c.loop) ==> c.loop.n < |c.objs| && c.loop.f.id == IdOf(c.loop.n))
    && (AtSelect(c.loop) ==> !c.loop.f.TooLong?)
    && (forall n :: 0 <= n < |c.objs| ==> c.objs[n].regAt <= |c.looked|)
  }

  ghost predicate StreamRight(c: Client, n: nat)
    requires n < |c.objs| && c.objs[n].regAt <= |c.looked|
  {
    var o := c.objs[n];
    && GapFree(c.loop, c.ctxDone, Registered(c, n), n, o, Arrivals(c.looked, o))
    && Settled(c.loop, n, o, Arrivals(c.looked, o))
    && CallerRight(o)
  }

  ghost predicate QueueInv(c: Client) {
    Aimed(c) && forall n :: 0 <= n < |c.objs| ==> StreamRight(c, n)
  }

  // ---- one stream at a time ----

  /** o' is o after its caller has taken f. */
  ghost predicate Taken(o: Obj, o': Obj, f: Frame) {
    && o'.desc == o.desc && o'.taken == o.taken + [f] && o'.results == o.results + [Decode(o.desc, f).0]
    && o'.phase == (if Decode(o.desc, f).1 then Deleting else o.phase)
  }

  lemma {:induction false} TakeKeepsStreaming(o: Obj, o': Obj, f: Frame)
    requires o.phase.Ready? && o.desc.Streaming? && StreamingRight(o) && Taken(o, o', f)
    ensures StreamingRight(o')
  {
    DecodeMeans(o.desc, f);
    PayloadsSnoc(o.desc, o.taken, f);
    MessagesSnoc(o.results, Decode(o.desc, f).0);
    assert o.taken != [] ==> !Ending(o.desc, o.taken[|o.taken| - 1]);
    assert o'.taken[|o'.taken| - 1] == f;
  }

  lemma {:induction false} TakeKeepsUnary(o: Obj, o': Obj, f: Frame)
    requires o.phase.Ready? && o.desc.Unary? && UnaryRight(o) && Taken(o, o', f)
    ensures UnaryRight(o')
  {
    assert o'.taken == [f] && o'.results == [Decode(o.desc, f).0] == [ReplyIn(f)];
  }

  lemma {:induction false} TookTakes(o: Obj)
    requires o.st.queue != []
    ensures var o' := Took(o);
            && Taken(o, o', o.st.queue[0])
            && o'.accepted == o.accepted && o'.st.queue == o.st.queue[1..] && o'.st.cap == o.st.cap
  {
  }

  lemma {:induction false} TakenKeepsCaller(o: Obj, o': Obj, f: Frame)
    requires o.phase.Ready? && o.st.queue == [f] + o'.st.queue && CallerRight(o)
    requires Taken(o, o', f) && o'.accepted == o.accepted && o'.st.cap == o.st.cap
    ensures CallerRight(o')
  {
    TakenAndQueued(o.taken, f, o'.st.queue);
    if o.desc.Streaming? {
      TakeKeepsStreaming(o, o', f);
    } else {
      TakeKeepsUnary(o, o', f);
    }
  }

  lemma {:induction false} TakenAndQueued(taken: seq<Frame>, f: Frame, rest: seq<Frame>)
    ensures taken + ([f] + rest) == (taken + [f]) + rest
  {
  }

  lemma {:induction false} TakeKeepsCaller(o: Obj)
    requires o.phase.Ready? && o.st.queue != [] && CallerRight(o)
    ensures CallerRight(Took(o))
  {
    TookTakes(o);
    TakenKeepsCaller(o, Took(o), o.st.queue[0]);
  }

  lemma {:induction false} EndKeepsCaller(o: Obj, r: Outcome)
    requires o.phase.Ready? || (o.phase.Over? && o.desc.Streaming?)
    requires CallerRight(o) && !r.Msg? && !r.Reply?
    ensures CallerRight(Ended(o, r))
  {
    MessagesSnoc(o.results, r);
  }

  lemma {:induction false} CallKeepsCaller(c: Client, o: Obj, a: CallAct)
    requires CallEnabled(c, o, a) && CallerRight(o)
    ensures CallerRight(CallNext(o, a))
  {
    match a
    case SendMsg(_) =>
    case CloseSend =>
    case Take => TakeKeepsCaller(o);
    case TakeErr => EndKeepsCaller(o, StreamFailed(o.st.closed.value));
    case CancelCall => EndKeepsCaller(o, Cancelled);
    case ConnDone => EndKeepsCaller(o, ConnClosed);
    case DeleteEntry =>
    case DeleteClose =>
    case RecvAfterEnd => EndKeepsCaller(o, EndOfStream);
  }

  lemma {:induction false} DeliverKeepsCaller(o: Obj, f: Frame, a: DeliverAct)
    requires a.Push? ==> |o.st.queue| < o.st.cap
    requires CallerRight(o)
    ensures CallerRight(DeliverNext(o, f, a))
  {
    assert o.taken + (o.st.queue + [f]) == (o.taken + o.st.queue) + [f];
  }

  /** Step effects on a stream that neither queue nor look up anything. */
  lemma {:induction false} GapFreeMono(
    loop: Loop, ctxDone: bool, ctxDone': bool, reg: bool, reg': bool, n: nat, o: Obj, o': Obj, arr: seq<Frame>)
    requires GapFree(loop, ctxDone, reg, n, o, arr)
    requires o'.accepted == o.accepted && (o.st.closed.Some? ==> o'.st.closed.Some?)
    requires (reg' ==> reg) && (ctxDone ==> ctxDone')
    ensures GapFree(loop, ctxDone', reg', n, o', arr)
  {
  }

  lemma {:induction false} CallKeepsSettled(c: Client, n: nat, o: Obj, a: CallAct, arr: seq<Frame>)
    requires CallEnabled(c, o, a) && Settled(c.loop, n, o, arr)
    ensures Settled(c.loop, n, CallNext(o, a), arr)
  {
    var o' := CallNext(o, a);
    forall e | StreamFailed(e) in o'.results && StreamFailed(e) !in o.results
      ensures a.TakeErr? && o.st.closed == Some(e)
    {
    }
  }

  lemma {:induction false} DeliverKeepsStream(loop: Loop, ctxDone: bool, reg: bool, o: Obj, a: DeliverAct,
      arr: seq<Frame>)
    requires InDelivery(loop) && DeliverEnabled(loop, ctxDone, o, a)
    requires GapFree(loop, ctxDone, reg, loop.n, o, arr) && Settled(loop, loop.n, o, arr) && CallerRight(o)
    ensures GapFree(DeliverLoop(loop, a), ctxDone, reg, loop.n, DeliverNext(o, loop.f, a), arr)
    ensures Settled(DeliverLoop(loop, a), loop.n, DeliverNext(o, loop.f, a), arr)
  {
    DeliverKeepsGapFree(loop, ctxDone, reg, o, a, arr);
    DeliverKeepsSettled(loop, ctxDone, reg, o, a, arr);
  }

  lemma {:induction false} DeliverKeepsSettled(loop: Loop, ctxDone: bool, reg: bool, o: Obj, a: DeliverAct,
      arr: seq<Frame>)
    requires InDelivery(loop) && DeliverEnabled(loop, ctxDone, o, a)
    requires GapFree(loop, ctxDone, reg, loop.n, o, arr) && Settled(loop, loop.n, o, arr) && CallerRight(o)
    ensures Settled(DeliverLoop(loop, a), loop.n, DeliverNext(o, loop.f, a), arr)
  {
  }

  lemma {:induction false} DeliverKeepsGapFree(loop: Loop, ctxDone: bool, reg: bool, o: Obj, a: DeliverAct,
      arr: seq<Frame>)
    requires InDelivery(loop) && DeliverEnabled(loop, ctxDone, o, a)
    requires GapFree(loop, ctxDone, reg, loop.n, o, arr) && Settled(loop, loop.n, o, arr)
    ensures GapFree(DeliverLoop(loop, a), ctxDone, reg, loop.n, DeliverNext(o, loop.f, a), arr)
  {
    assert arr == arr[..|arr| - 1] + [arr[|arr| - 1]];
  }

  /** The loop moves on and stream n is not its target. */
  lemma {:induction false} LoopMoves(loop: Loop, loop': Loop, ctxDone: bool, reg: bool, n: nat, o: Obj, arr: seq<Frame>)
    requires GapFree(loop, ctxDone, reg, n, o, arr) && Settled(loop, n, o, arr)
    requires !Target(loop, n) && !Target(loop', n)
    requires Winding(loop) && ctxDone ==> Winding(loop')
    ensures GapFree(loop', ctxDone, reg, n, o, arr) && Settled(loop', n, o, arr)
  {
  }

  lemma {:induction false} LookupMoves(loop: Loop, loop': Loop, ctxDone: bool, reg: bool, n: nat, o: Obj,
      arr: seq<Frame>, arr': seq<Frame>)
    requires loop.Have? && (loop' == Top || loop' == Delivering(n, loop.f) || (loop'.Delivering? && loop'.n != n))
    requires GapFree(loop, ctxDone, reg, n, o, arr) && Settled(loop, n, o, arr)
    requires arr' == arr || (arr' == arr + [loop.f] && (loop' == Delivering(n, loop.f) || !reg))
    requires loop' == Delivering(n, loop.f) ==> reg && arr' == arr + [loop.f]
    ensures GapFree(loop', ctxDone, reg, n, o, arr') && Settled(loop', n, o, arr')
  {
    if arr' == arr + [loop.f] {
      assert arr'[..|arr'| - 1] == arr;
    }
  }

  /** cleanupStreams, for a stream that was registered and one that was not. */
  lemma {:induction false} CleanupMoves(loop: Loop, ctxDone: bool, reg: bool, n: nat, o: Obj, o': Obj,
      err: StreamErr, arr: seq<Frame>)
    requires loop.Cleaning? && GapFree(loop, ctxDone, reg, n, o, arr) && Settled(loop, n, o, arr) && CallerRight(o)
    requires o' == o || o' == ClosedBy(o, Some(err))
    ensures GapFree(Finished, ctxDone, false, n, o', arr) && Settled(Finished, n, o', arr) && CallerRight(o')
  {
  }

  /** createStream hands the stream to its caller, or turns the caller away. */
  lemma {:induction false} OpeningMoves(loop: Loop, ctxDone: bool, reg: bool, n: nat, o: Obj, o': Obj, arr: seq<Frame>)
    requires GapFree(loop, ctxDone, reg, n, o, arr) && Settled(loop, n, o, arr) && CallerRight(o)
    requires o.phase.Opening? && (o' == o.(phase := Ready) || o' == o.(phase := TurnedAway))
    ensures GapFree(loop, ctxDone, reg, n, o', arr) && Settled(loop, n, o', arr) && CallerRight(o')
  {
  }

  lemma {:induction false} QueueInvCall(c: Client, n: nat, a: CallAct)
    requires n < |c.objs| && CallEnabled(c, c.objs[n], a) && QueueInv(c)
    ensures QueueInv(CallApply(c, n, a))
  {
    var c' := CallApply(c, n, a);
    var o := c.objs[n];
    assert StreamRight(c, n);
    CallKeepsCaller(c, o, a);
    CallKeepsSettled(c, n, o, a, Arrivals(c.looked, o));
    forall m: nat | m < |c'.objs| ensures c'.objs[m].regAt <= |c'.looked| && StreamRight(c', m) {
      assert StreamRight(c, m);
      assert m != n ==> c'.objs[m] == c.objs[m];
      CallKeepsStream(c, c', m);
    }
  }

  /** After a call on some stream, seen from stream m. */
  lemma {:induction false} CallKeepsStream(c: Client, c': Client, m: nat)
    requires c'.loop == c.loop && c'.looked == c.looked && c'.ctxDone == c.ctxDone
    requires |c'.objs| == |c.objs| && m < |c.objs|
    requires Registered(c', m) ==> Registered(c, m)
    requires c.objs[m].regAt <= |c.looked| && StreamRight(c, m)
    requires c'.objs[m].regAt == c.objs[m].regAt && c'.objs[m].st.id == c.objs[m].st.id
    requires c'.objs[m].accepted == c.objs[m].accepted
    requires c.objs[m].st.closed.Some? ==> c'.objs[m].st.closed.Some?
    requires CallerRight(c'.objs[m])
    requires Settled(c.loop, m, c'.objs[m], Arrivals(c.looked, c.objs[m]))
    ensures c'.objs[m].regAt <= |c'.looked| && StreamRight(c', m)
  {
    GapFreeMono(c.loop, c.ctxDone, c'.ctxDone, Registered(c, m), Registered(c', m), m,
                c.objs[m], c'.objs[m], Arrivals(c.looked, c.objs[m]));
  }

  lemma {:induction false} QueueInvDeliver(c: Client, a: DeliverAct)
    requires Enabled(c, Deliver(a)) && QueueInv(c)
    ensures QueueInv(DeliverApply(c, a))
  {
    var c' := DeliverApply(c, a);
    var n := c.loop.n;
    assert StreamRight(c, n);
    DeliverKeepsCaller(c.objs[n], c.loop.f, a);
    DeliverKeepsStream(c.loop, c.ctxDone, Registered(c, n), c.objs[n], a, Arrivals(c.looked, c.objs[n]));
    forall m: nat | m < |c'.objs| ensures c'.objs[m].regAt <= |c'.looked| && StreamRight(c', m) {
      if m != n {
        OthersKept(c, c', n, m);
      }
    }
  }

  lemma {:induction false} OthersKept(c: Client, c': Client, n: nat, m: nat)
    requires InDelivery(c.loop) && c.loop.n == n && Aimed(c)
    requires c'.loop == Top || (AtSelect(c'.loop) && c'.loop.n == n)
    requires m < |c.objs| && m < |c'.objs| && m != n && c'.objs[m] == c.objs[m]
    requires c'.looked == c.looked && c'.streams == c.streams && c'.ctxDone == c.ctxDone
    requires StreamRight(c, m)
    ensures c'.objs[m].regAt <= |c'.looked| && StreamRight(c', m)
  {
    LoopMoves(c.loop, c'.loop, c.ctxDone, Registered(c, m), m, c.objs[m], Arrivals(c.looked, c.objs[m]));
  }

  lemma {:induction false} ArrivalsGrow(looked: seq<Frame>, f: Frame, o: Obj)
    requires o.regAt <= |looked|
    ensures Arrivals(looked + [f], o) == Arrivals(looked, o) + (if f.id == o.st.id then [f] else [])
  {
    assert (looked + [f])[o.regAt..] == looked[o.regAt..] + [f];
    OnIdSnoc(looked[o.regAt..], f, o.st.id);
  }

  lemma {:induction false} LookupKeepsStream(c: Client, c': Client, m: nat)
    requires LoopEnabled(c, Lookup) && c' == LoopApply(c, Lookup) && Mapped(c)
    requires m < |c.objs| && c.objs[m].st.id == IdOf(m) && c.objs[m].regAt <= |c.looked| && StreamRight(c, m)
    ensures StreamRight(c', m)
  {
    var o := c.objs[m];
    ArrivalsGrow(c.looked, c.loop.f, o);
    LookupMoves(c.loop, c'.loop, c.ctxDone, Registered(c, m), m, o, Arrivals(c.looked, o), Arrivals(c'.looked, o));
  }

  lemma {:induction false} LookupAims(c: Client, c': Client)
    requires LoopEnabled(c, Lookup) && c' == LoopApply(c, Lookup) && Mapped(c) && Aimed(c)
    ensures Aimed(c') && c'.objs == c.objs
  {
  }

  lemma {:induction false} QueueInvLookup(c: Client, c': Client)
    requires LoopEnabled(c, Lookup) && c' == LoopApply(c, Lookup)
    requires QueueInv(c) && Numbered(c) && Mapped(c)
    ensures QueueInv(c')
  {
    LookupAims(c, c');
    forall m: nat | m < |c'.objs| ensures StreamRight(c', m) {
      assert StreamRight(c, m);
      LookupKeepsStream(c, c', m);
    }
  }

  lemma {:induction false} QueueInvCleanup(c: Client)
    requires LoopEnabled(c, Cleanup) && QueueInv(c)
    ensures QueueInv(LoopApply(c, Cleanup))
  {
    var c' := LoopApply(c, Cleanup);
    forall m: nat | m < |c'.objs| ensures c'.objs[m].regAt <= |c'.looked| && StreamRight(c', m) {
      assert StreamRight(c, m);
      CleanupMoves(c.loop, c.ctxDone, Registered(c, m), m, c.objs[m], c'.objs[m], c.loop.err,
                   Arrivals(c.looked, c.objs[m]));
    }
  }

  lemma {:induction false} QueueInvLoop(c: Client, a: LoopAct)
    requires LoopEnabled(c, a) && QueueInv(c) && Numbered(c) && Mapped(c)
    ensures QueueInv(LoopApply(c, a))
  {
    if a.Lookup? {
      QueueInvLookup(c, LoopApply(c, a));
    } else if a.Cleanup? {
      QueueInvCleanup(c);
    } else {
      var c' := LoopApply(c, a);
      forall m: nat | m < |c'.objs| ensures c'.objs[m].regAt <= |c'.looked| && StreamRight(c', m) {
        assert StreamRight(c, m);
        LoopMoves(c.loop, c'.loop, c.ctxDone, Registered(c, m), m, c.objs[m], Arrivals(c.looked, c.objs[m]));
      }
    }
  }

  lemma {:induction false} QueueInvAlloc(c: Client)
    requires CreateEnabled(c, Alloc) && QueueInv(c) && Numbered(c)
    ensures QueueInv(CreateApply(c, Alloc))
  {
    var c' := CreateApply(c, Alloc);
    forall m: nat | m < |c'.objs| ensures c'.objs[m].regAt <= |c'.looked| && StreamRight(c', m) {
      if m < |c.objs| {
        assert StreamRight(c, m) && c'.objs[m] == c.objs[m];
        GapFreeMono(c.loop, c.ctxDone, c.ctxDone, Registered(c, m), Registered(c', m), m,
                    c.objs[m], c.objs[m], Arrivals(c.looked, c.objs[m]));
      }
    }
  }

  lemma {:induction false} QueueInvCreate(c: Client, a: CreateAct)
    requires CreateEnabled(c, a) && QueueInv(c) && Numbered(c) && LockRight(c)
    ensures QueueInv(CreateApply(c, a))
  {
    if a.Alloc? {
      QueueInvAlloc(c);
    } else {
      var c' := CreateApply(c, a);
      forall m: nat | m < |c'.objs| ensures c'.objs[m].regAt <= |c'.looked| && StreamRight(c', m) {
        assert StreamRight(c, m);
        if c'.objs[m] != c.objs[m] {
          OpeningMoves(c.loop, c.ctxDone, Registered(c, m), m, c.objs[m], c'.objs[m],
                       Arrivals(c.looked, c.objs[m]));
        }
      }
    }
  }

  lemma {:induction false} QueueInvConn(c: Client, a: ConnAct)
    requires ConnEnabled(c, a) && QueueInv(c)
    ensures QueueInv(ConnApply(c, a))
  {
    var c' := ConnApply(c, a);
    forall m: nat | m < |c'.objs| ensures c'.objs[m].regAt <= |c'.looked| && StreamRight(c', m) {
      assert StreamRight(c, m);
      GapFreeMono(c.loop, c.ctxDone, c'.ctxDone, Registered(c, m), Registered(c', m), m,
                  c.objs[m], c'.objs[m], Arrivals(c.looked, c.objs[m]));
    }
  }

  lemma {:induction false} QueueInvStep(c: Client, a: Action)
    requires Enabled(c, a) && QueueInv(c) && Numbered(c) && Mapped(c) && LockRight(c)
    ensures QueueInv(Apply(c, a))
  {
    match a
    case Create(ca) => QueueInvCreate(c, ca);
    case Call(n, ka) => QueueInvCall(c, n, ka);
    case Deliver(da) => QueueInvDeliver(c, da);
    case Loop(la) => QueueInvLoop(c, la);
    case Conn(na) => QueueInvConn(c, na);
  }
}
