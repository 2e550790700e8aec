/** The client's guarantees over every run, against a peer that may send anything. */
module ClientTheorems {
  import opened Frames
  import opened StreamQueue
  import opened ClientConn
  import opened ClientIds
  import opened ClientQueues

  /** No other stream has stream n's id. */
  ghost predicate Alone(c: Client, n: nat) {
    forall m: nat :: m < |c.objs| && IdOf(m) == IdOf(n) ==> m == n
  }

  /** Before ids are reused, all streams are. */
  lemma {:induction false} AloneBeforeWrap(c: Client, n: nat)
    requires n < |c.objs| <= HALF_SPACE
    ensures Alone(c, n)
  {
    forall m: nat | m < |c.objs| && IdOf(m) == IdOf(n) ensures m == n {
      IdBeforeWrap(m);
      IdBeforeWrap(n);
    }
  }

  /** A stream whose id is its own is registered or closed, or it is between the two halves
      of its own caller's deleteStream. */
  ghost predicate Accounted(c: Client, n: nat)
    requires n < |c.objs|
  {
    Registered(c, n) || c.objs[n].st.closed.Some? || c.objs[n].phase.Closing?
  }

  ghost predicate ShutInv(c: Client) {
    && (c.connClosed ==> c.ctxDone)
    && (c.loop.Cleaning? || c.loop.Finished? ==> c.ctxDone)
    && (c.loop.Finished? ==> c.streams == map[])
    && (forall n :: 0 <= n < |c.objs| && Alone(c, n) ==> Accounted(c, n))
  }

  ghost predicate ClientInv(c: Client) {
    WireInv(c) && QueueInv(c) && ShutInv(c)
  }

  lemma {:induction false} AllocAccounts(c: Client)
    requires CreateEnabled(c, Alloc) && Numbered(c) && ShutInv(c)
    ensures ShutInv(CreateApply(c, Alloc))
  {
    var c' := CreateApply(c, Alloc);
    forall n: nat | n < |c'.objs| && Alone(c', n) ensures Accounted(c', n) {
      if n < |c.objs| {
        assert Alone(c, n) && Accounted(c, n) && c'.objs[n] == c.objs[n];
        assert IdOf(|c.objs|) != IdOf(n);
      }
    }
  }

  lemma {:induction false} CallAccounts(c: Client, m: nat, a: CallAct)
    requires m < |c.objs| && CallEnabled(c, c.objs[m], a) && Numbered(c) && ShutInv(c)
    ensures ShutInv(CallApply(c, m, a))
  {
    var c' := CallApply(c, m, a);
    forall n: nat | n < |c'.objs| && Alone(c', n) ensures Accounted(c', n) {
      assert Alone(c, n) && Accounted(c, n);
      assert n != m ==> IdOf(m) != IdOf(n) && c'.objs[n] == c.objs[n];
    }
  }

  lemma {:induction false} CleanupAccounts(c: Client)
    requires LoopEnabled(c, Cleanup) && ShutInv(c)
    ensures ShutInv(LoopApply(c, Cleanup))
  {
    var c' := LoopApply(c, Cleanup);
    forall n: nat | n < |c'.objs| && Alone(c', n) ensures Accounted(c', n) {
      assert Alone(c, n) && Accounted(c, n);
      assert Registered(c, n) ==> n in c.streams.Values;
    }
  }

  /** A step that leaves the map and the objects' fates alone. */
  lemma {:induction false} FatesKept(c: Client, c': Client)
    requires ShutInv(c) && c'.streams == c.streams && |c'.objs| == |c.objs|
    requires forall n :: 0 <= n < |c.objs| ==>
               (c.objs[n].st.closed.Some? ==> c'.objs[n].st.closed.Some?)
               && (c.objs[n].phase.Closing? ==> c'.objs[n].phase.Closing?)
    requires c'.ctxDone == c.ctxDone || c'.ctxDone
    requires c'.connClosed ==> c'.ctxDone
    requires c'.loop.Cleaning? || c'.loop.Finished? ==> c'.ctxDone
    requires c'.loop.Finished? ==> c.loop.Finished?
    ensures ShutInv(c')
  {
    forall n: nat | n < |c'.objs| && Alone(c', n) ensures Accounted(c', n) {
      assert Alone(c, n) && Accounted(c, n);
    }
  }

  lemma {:induction false} ShutInvCreate(c: Client, a: CreateAct)
    requires CreateEnabled(c, a) && Numbered(c) && LockRight(c) && ShutInv(c)
    ensures ShutInv(CreateApply(c, a))
  {
    if a.Alloc? {
      AllocAccounts(c);
    } else {
      FatesKept(c, CreateApply(c, a));
    }
  }

  lemma {:induction false} ShutInvLoop(c: Client, a: LoopAct)
    requires LoopEnabled(c, a) && ShutInv(c)
    ensures ShutInv(LoopApply(c, a))
  {
    if a.Cleanup? {
      CleanupAccounts(c);
    } else {
      FatesKept(c, LoopApply(c, a));
    }
  }

  lemma {:induction false} ShutInvStep(c: Client, a: Action)
    requires Enabled(c, a) && Numbered(c) && LockRight(c) && ShutInv(c)
    ensures ShutInv(Apply(c, a))
  {
    match a
    case Create(ca) => ShutInvCreate(c, ca);
    case Call(n, ka) => CallAccounts(c, n, ka);
    case Deliver(da) => FatesKept(c, DeliverApply(c, da));
    case Loop(la) => ShutInvLoop(c, la);
    case Conn(na) => FatesKept(c, ConnApply(c, na));
  }

  lemma {:induction false} ClientInvInit(c: Client)
    requires Init(c)
    ensures ClientInv(c)
  {
  }

  lemma {:induction false} ClientInvStep(c: Client, a: Action)
    requires Enabled(c, a) && ClientInv(c)
    ensures ClientInv(Apply(c, a))
  {
    WireInvStep(c, a);
    QueueInvStep(c, a);
    ShutInvStep(c, a);
  }

  lemma {:induction false} ClientInvAt(states: seq<Client>, acts: seq<Action>, i: nat)
    requires IsRun(states, acts) && i <= |acts|
    ensures ClientInv(states[i])
    decreases i
  {
    if i == 0 {
      ClientInvInit(states[0]);
    } else {
      ClientInvAt(states, acts, i - 1);
      ClientInvStep(states[i - 1], acts[i - 1]);
    }
  }

  lemma {:induction false} ClientInvHolds(c: Client)
    requires Reachable(c)
    ensures ClientInv(c)
  {
    var states, acts :| IsRun(states, acts) && c == states[|acts|];
    ClientInvAt(states, acts, |acts|);
  }

  // ---- ids and frame language ----

  /** Every id is odd, also after the counter wraps. */
  lemma {:induction false} IdsOdd(c: Client)
    requires Reachable(c)
    ensures c.nextID % 2 == 1
    ensures forall f :: f in Wire(c.out) ==> f.id % 2 == 1
  {
    ClientInvHolds(c);
    IdIsOdd(|c.objs|);
    forall i | 0 <= i < |c.out| ensures c.out[i].frame.id % 2 == 1 {
      IdIsOdd(c.out[i].n);
    }
  }

  /** For the first 2^31 allocations, request ids on the wire strictly increase,
      whatever callers and failed sends interleave. */
  lemma {:induction false} RequestsIncrease(c: Client, i: nat, j: nat)
    requires Reachable(c) && |c.objs| <= HALF_SPACE
    requires i < j < |c.out| && Wire(c.out)[i].RequestFrame? && Wire(c.out)[j].RequestFrame?
    ensures Wire(c.out)[i].id < Wire(c.out)[j].id
  {
    ClientInvHolds(c);
    IdBeforeWrap(c.out[i].n);
    IdBeforeWrap(c.out[j].n);
  }

  /** The client side of the frame language, on the wire itself. */
  lemma {:induction false} ClientLanguage(c: Client, n: nat)
    requires Reachable(c) && |c.objs| <= HALF_SPACE && n < |c.objs|
    ensures OnId(Wire(c.out), IdOf(n)) == Spoken(c.objs[n])
    ensures !HasClientSide(c.objs[n].desc) ==> |Spoken(c.objs[n])| <= 1
  {
    ClientInvHolds(c);
    OnIdIsOf(c.out, n);
    assert MayHaveSent(c.objs[n]);
  }

  /** The rules of the protocol for the i-th of the frames a stream has written: the request
      comes first and once, remains open exactly if the stream has a client side, and closes
      the side of a stream without one; data never opens anything; and nothing follows a
      frame with remote closed, which as data carries none. */
  ghost predicate Orderly(o: Obj, fs: seq<Frame>, i: nat)
    requires i < |fs|
  {
    var f := fs[i];
    if i == 0 then
      && f.RequestFrame? && f.req == o.req && Announces(o.desc, f.flags)
      && (f.flags.remoteClosed || o.desc.Unary? ==> |fs| == 1)
    else
      && f.DataFrame? && !f.flags.remoteOpen
      && (f.flags.remoteClosed <==> f.flags.noData)
      && (f.flags.remoteClosed <==> i - 1 == |o.sent|)
      && (if f.flags.remoteClosed then f.data == [] && i == |fs| - 1 else i <= |o.sent| && f.data == o.sent[i - 1])
  }

  lemma {:induction false} SpokenOrderly(o: Obj, i: nat)
    requires MayHaveSent(o) && i < |Spoken(o)|
    ensures 1 <= i <= |o.sent| + 1 || i == 0
    ensures Orderly(o, Spoken(o), i)
  {
  }

  /** What a stream has written keeps the rules, frame by frame, and is complete: the request,
      every message sent, and the close if its caller has closed its side. */
  lemma {:induction false} WireOrderly(c: Client, n: nat)
    requires Reachable(c) && |c.objs| <= HALF_SPACE && n < |c.objs|
    ensures var fs, o := OnId(Wire(c.out), IdOf(n)), c.objs[n];
            && (forall i :: 0 <= i < |fs| ==> fs[i].id == IdOf(n) && Orderly(o, fs, i))
            && |fs| == (if Opened(o) then 1 else 0) + |o.sent| + (if o.localClosed then 1 else 0)
  {
    ClientLanguage(c, n);
    ClientInvHolds(c);
    var fs, o := OnId(Wire(c.out), IdOf(n)), c.objs[n];
    OnIdMembers(Wire(c.out), IdOf(n));
    assert MayHaveSent(o);
    forall i | 0 <= i < |fs| ensures fs[i].id == IdOf(n) && Orderly(o, fs, i) {
      assert fs[i] in fs;
      SpokenOrderly(o, i);
    }
  }

  /** So a frame with remote closed is the last its stream writes. */
  lemma {:induction false} RemoteClosedIsLast(c: Client, n: nat, i: nat)
    requires Reachable(c) && |c.objs| <= HALF_SPACE && n < |c.objs| && i < |OnId(Wire(c.out), IdOf(n))|
    ensures var fs := OnId(Wire(c.out), IdOf(n));
            (fs[i].RequestFrame? || fs[i].DataFrame?) && (fs[i].flags.remoteClosed ==> i == |fs| - 1)
  {
    WireOrderly(c, n);
    assert Orderly(c.objs[n], OnId(Wire(c.out), IdOf(n)), i);
  }

  // ---- delivery ----

  /** No gaps: the messages a caller has taken from a stream are, in order, a prefix of
      the frames that arrived for its id since it was registered. */
  lemma {:induction false} NoGaps(c: Client, n: nat)
    requires Reachable(c) && n < |c.objs|
    ensures c.objs[n].regAt <= |c.looked|
    ensures c.objs[n].taken <= Arrivals(c.looked, c.objs[n])
    ensures c.objs[n].desc.Streaming? ==>
              Messages(c.objs[n].results) == Payloads(c.objs[n].desc, c.objs[n].taken)
  {
    ClientInvHolds(c);
    assert StreamRight(c, n);
    var arr := Arrivals(c.looked, c.objs[n]);
    assert c.objs[n].accepted <= arr;
  }

  /** Drain before error: once a call has returned the stream's error, every message ever
      queued has been taken, and the error is the close cause. */
  lemma {:induction false} DrainBeforeError(c: Client, n: nat, e: StreamErr)
    requires Reachable(c) && n < |c.objs| && StreamFailed(e) in c.objs[n].results
    ensures c.objs[n].taken == c.objs[n].accepted && c.objs[n].st.queue == []
    ensures c.objs[n].st.closed == Some(e)
  {
    ClientInvHolds(c);
    assert StreamRight(c, n);
  }

  /** How a stream object may change in one step: its close cause, once set, and what
      its calls returned stay; and only a delivery past the first select queues anything. */
  ghost predicate Evolves(o: Obj, o': Obj, selected: bool) {
    && (o.st.closed.Some? ==> o'.st.closed == o.st.closed)
    && o.results <= o'.results
    && (selected || o'.accepted == o.accepted)
  }

  lemma {:induction false} CallEvolves(o: Obj, a: CallAct)
    requires a.Take? ==> o.st.queue != []
    requires a.TakeErr? ==> o.st.closed.Some?
    ensures Evolves(o, CallNext(o, a), false)
  {
  }

  lemma {:induction false} DeliverEvolves(o: Obj, f: Frame, a: DeliverAct)
    requires a.Push? ==> |o.st.queue| < o.st.cap
    ensures Evolves(o, DeliverNext(o, f, a), a.Push?)
  {
  }

  lemma {:induction false} LoopEvolves(c: Client, n: nat, a: LoopAct)
    requires LoopEnabled(c, a) && n < |c.objs|
    ensures n < |LoopApply(c, a).objs| && Evolves(c.objs[n], LoopApply(c, a).objs[n], false)
  {
  }

  lemma {:induction false} StepEvolves(c: Client, n: nat, a: Action)
    requires Enabled(c, a) && n < |c.objs|
    ensures n < |Apply(c, a).objs| && Evolves(c.objs[n], Apply(c, a).objs[n], Selected(c.loop, n))
  {
    match a
    case Create(ca) =>
    case Call(m, ka) => CallEvolves(c.objs[m], ka);
    case Deliver(da) => DeliverEvolves(c.objs[c.loop.n], c.loop.f, da);
    case Loop(la) => LoopEvolves(c, n, la);
    case Conn(na) =>
  }

  /** ... and from then on no step queues anything on it or changes the cause. */
  lemma {:induction false} NothingAfterError(c: Client, n: nat, e: StreamErr, a: Action)
    requires Reachable(c) && n < |c.objs| && StreamFailed(e) in c.objs[n].results && Enabled(c, a)
    ensures n < |Apply(c, a).objs| && Apply(c, a).objs[n].accepted == c.objs[n].accepted
    ensures Apply(c, a).objs[n].st.closed == Some(e)
    ensures StreamFailed(e) in Apply(c, a).objs[n].results
  {
    DrainBeforeError(c, n, e);
    ErrorIsSettled(c, n, e);
    StepEvolves(c, n, a);
  }

  lemma {:induction false} ErrorIsSettled(c: Client, n: nat, e: StreamErr)
    requires Reachable(c) && n < |c.objs| && StreamFailed(e) in c.objs[n].results
    ensures !Selected(c.loop, n)
  {
    ClientInvHolds(c);
    assert StreamRight(c, n);
  }

  /** The first close cause of a stream never changes. */
  lemma {:induction false} CloseCauseStable(c: Client, n: nat, a: Action)
    requires Enabled(c, a) && n < |c.objs| && c.objs[n].st.closed.Some?
    ensures n < |Apply(c, a).objs| && Apply(c, a).objs[n].st.closed == c.objs[n].st.closed
  {
    StepEvolves(c, n, a);
  }

  // ---- slow consumers ----

  ghost function TotalTimeouts(objs: seq<Obj>): nat {
    if objs == [] then 0 else TotalTimeouts(objs[..|objs| - 1]) + objs[|objs| - 1].timeouts
  }

  lemma {:induction false} AtMostOneEach(objs: seq<Obj>)
    requires forall n :: 0 <= n < |objs| ==> objs[n].timeouts <= 1
    ensures TotalTimeouts(objs) <= |objs|
  {
    if objs != [] {
      AtMostOneEach(objs[..|objs| - 1]);
    }
  }

  /** Over a whole run the receive loop waits out at most one timer per stream. */
  lemma {:induction false} TimeoutsBounded(c: Client)
    requires Reachable(c)
    ensures TotalTimeouts(c.objs) <= |c.objs|
  {
    ClientInvHolds(c);
    forall n: nat | n < |c.objs| ensures c.objs[n].timeouts <= 1 {
      assert StreamRight(c, n);
    }
    AtMostOneEach(c.objs);
  }

  /** The timer fires only for a stream that was sent more than its queue holds: one message for
      a unary call, and 64 otherwise. */
  lemma {:induction false} TimeoutForCause(c: Client, n: nat)
    requires Reachable(c) && n < |c.objs| && c.objs[n].timeouts > 0
    ensures c.objs[n].regAt <= |c.looked|
    ensures |Arrivals(c.looked, c.objs[n])| > if c.objs[n].desc.Unary? then 1 else 64
  {
    ClientInvHolds(c);
    assert StreamRight(c, n);
  }

  /** The receive loop alone takes the steps of `path`. */
  ghost predicate LoopAlone(c: Client, path: seq<DeliverAct>, c': Client)
    decreases |path|
  {
    if path == [] then c == c'
    else Enabled(c, Deliver(path[0])) && LoopAlone(DeliverApply(c, path[0]), path[1..], c')
  }

  /** A delivery in progress ends within three steps of the receive loop, without any
      step by the stream's caller or anyone else. */
  lemma {:induction false} DeliveryFinishesAlone(c: Client) returns (path: seq<DeliverAct>, c': Client)
    requires Reachable(c) && InDelivery(c.loop)
    ensures |path| <= 3 && LoopAlone(c, path, c') && c'.loop.Top?
  {
    ClientInvHolds(c);
    path, c' := DeliveryPath(c);
  }

  lemma {:induction false} DeliveryPath(c: Client) returns (path: seq<DeliverAct>, c': Client)
    requires InDelivery(c.loop) && c.loop.n < |c.objs|
    ensures |path| <= (if c.loop.Delivering? then 3 else if c.loop.Selecting? then 2 else 1)
    ensures LoopAlone(c, path, c') && c'.loop.Top?
    decreases if c.loop.Delivering? then 3 else if c.loop.Selecting? then 2 else 1
  {
    var st := c.objs[c.loop.n].st;
    var a :=
      if c.loop.Waiting? then Timeout
      else if c.loop.Delivering? then
        if c.loop.f.TooLong? then Poison else if st.closed.Some? then Drop else Open
      else if st.closed.Some? || c.ctxDone then Drop
      else if |st.queue| < st.cap then Push else Wait;
    var c1 := DeliverApply(c, a);
    if c1.loop.Top? {
      path, c' := [a], c1;
      assert LoopAlone(c1, [], c');
    } else {
      var rest;
      rest, c' := DeliveryPath(c1);
      path := [a] + rest;
      assert path[1..] == rest;
    }
  }

  /** How many steps of the receive loop are left of a delivery, at most. */
  function Rank(loop: Loop): nat {
    if loop.Delivering? then 3 else if loop.Selecting? then 2 else if loop.Waiting? then 1 else 0
  }

  /** Whatever the consumer, its callers and the rest of the client do meanwhile: a delivery
      in progress always has an enabled step of the loop, each such step brings its end
      nearer, and no other step touches it. */
  lemma {:induction false} DeliveryAdvances(c: Client, a: Action)
    requires Reachable(c) && InDelivery(c.loop) && Enabled(c, a)
    ensures exists da :: Enabled(c, Deliver(da))
    ensures a.Deliver? ==> Rank(Apply(c, a).loop) < Rank(c.loop)
    ensures !a.Deliver? ==> Apply(c, a).loop == c.loop
  {
    DeliveryEnabled(c);
    match a
    case Create(ca) => assert CreateApply(c, ca).loop == c.loop;
    case Call(n, ka) => assert CallApply(c, n, ka).loop == c.loop;
    case Deliver(da) => RankFalls(c, da);
    case Loop(_) =>
    case Conn(_) =>
  }

  lemma {:induction false} DeliveryEnabled(c: Client)
    requires Reachable(c) && InDelivery(c.loop)
    ensures exists da :: Enabled(c, Deliver(da))
  {
    ClientInvHolds(c);
    var path, c' := DeliveryPath(c);
    assert path != [] && Enabled(c, Deliver(path[0]));
  }

  lemma {:induction false} RankFalls(c: Client, a: DeliverAct)
    requires Enabled(c, Deliver(a))
    ensures Rank(DeliverApply(c, a).loop) < Rank(c.loop)
  {
  }

  /** The loop's own steps in a stretch of a run. */
  ghost function Deliveries(acts: seq<Action>): nat {
    if acts == [] then 0 else Deliveries(acts[..|acts| - 1]) + (if acts[|acts| - 1].Deliver? then 1 else 0)
  }

  /** So in any stretch of a run that begins with a delivery and in which it has not ended,
      however the steps of others interleave, the loop has taken at most two steps, and the
      third at the latest ends it. */
  lemma {:induction false} DeliveryBounded(states: seq<Client>, acts: seq<Action>)
    requires |states| == |acts| + 1 && Reachable(states[0])
    requires forall i {:trigger acts[i]} :: 0 <= i < |acts| ==>
               Enabled(states[i], acts[i]) && states[i + 1] == Apply(states[i], acts[i])
    requires forall i :: 0 <= i < |states| ==> InDelivery(states[i].loop)
    ensures Reachable(states[|acts|])
    ensures Deliveries(acts) + Rank(states[|acts|].loop) <= Rank(states[0].loop) <= 3
  {
    if acts != [] {
      var k: nat := |acts| - 1;
      DeliveryBounded(states[..|acts|], acts[..k]);
      assert states[..|acts|][k] == states[k];
      var a := acts[k];
      ReachableStep(states[k], a);
      DeliveryAdvances(states[k], a);
    }
  }

  // ---- shutdown ----

  /** When cleanupStreams runs, whatever raced with it before, every stream in the map and
      every stream whose id is its own ends up closed by its first cause or else by the
      connection's error, except for one that its own caller has unregistered and is about
      to close. */
  lemma {:induction false} CleanupCloses(c: Client, n: nat)
    requires Reachable(c) && LoopEnabled(c, Cleanup) && n < |c.objs|
    ensures var st, st' := c.objs[n].st, LoopApply(c, Cleanup).objs[n].st;
            && (n in c.streams.Values ==> st'.closed == Some(st.closed.GetOr(c.loop.err)))
            && (Alone(c, n) ==>
                  st'.closed == Some(st.closed.GetOr(c.loop.err)) || (st' == st && c.objs[n].phase.Closing?))
  {
    ClientInvHolds(c);
    if Alone(c, n) {
      assert Accounted(c, n);
      assert Registered(c, n) ==> n in c.streams.Values;
    }
  }

  /** No orphan: once cleanup has run the map is empty, whatever creates, closes and
      deletes raced with it; every stream whose id is its own is closed or about to be
      closed by its own caller, and a caller waiting for a message on it can proceed. */
  lemma {:induction false} NoOrphans(c: Client)
    requires Reachable(c) && c.loop.Finished?
    ensures c.streams == map[]
    ensures forall n :: 0 <= n < |c.objs| && Alone(c, n) ==>
              && (c.objs[n].st.closed.Some? || c.objs[n].phase.Closing?)
              && (c.objs[n].phase.Ready? ==> Enabled(c, Call(n, Take)) || Enabled(c, Call(n, TakeErr)))
  {
    ClientInvHolds(c);
    forall n: nat | n < |c.objs| && Alone(c, n) ensures c.objs[n].st.closed.Some? || c.objs[n].phase.Closing? {
      assert Accounted(c, n);
    }
  }

  /** A stream whose first send failed stays registered until it is closed, which only its id's
      frames and cleanup can do. */
  lemma {:induction false} TurnedAwayStays(c: Client, n: nat)
    requires Reachable(c) && n < |c.objs| && c.objs[n].phase.TurnedAway? && Alone(c, n)
    ensures Registered(c, n) || c.objs[n].st.closed.Some?
  {
    ClientInvHolds(c);
    assert Accounted(c, n);
  }

  /** A response ends the caller's stream exactly if its status is OK. */
  lemma {:induction false} ResponseEnds(c: Client, n: nat)
    requires Reachable(c) && n < |c.objs| && c.objs[n].desc.Streaming? && c.objs[n].taken != []
    requires c.objs[n].taken[|c.objs[n].taken| - 1].ResponseFrame?
    ensures c.objs[n].phase.Deleting? || c.objs[n].phase.Closing? || c.objs[n].phase.Over? <==>
            c.objs[n].taken[|c.objs[n].taken| - 1].status == OK
  {
    ClientInvHolds(c);
    assert StreamRight(c, n);
  }

  /** ... and the map stays empty for ever. */
  lemma {:induction false} MapStaysEmpty(c: Client, a: Action)
    requires Reachable(c) && c.loop.Finished? && Enabled(c, a)
    ensures Apply(c, a).loop.Finished? && Apply(c, a).streams == map[]
  {
    ClientInvHolds(c);
  }
}
