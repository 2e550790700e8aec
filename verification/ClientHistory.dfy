/** What a client's state remembers is what was done: every stream sends what its caller sent,
    under the description it was created with, and fails with the error that ended the
    connection. */
module ClientHistory {
  import opened Frames
  import opened StreamQueue
  import opened ClientConn
  import CI = ClientIds
  import CQ = ClientQueues
  import CT = ClientTheorems

  /** The messages that the caller of stream n passed to SendMsg, one for each call that
      succeeded. */
  ghost function SendsOf(acts: seq<Action>, n: nat): seq<Bytes> {
    if acts == [] then []
    else
      var a := acts[|acts| - 1];
      SendsOf(acts[..|acts| - 1], n) + (if a.Call? && a.n == n && a.ka.SendMsg? then [a.ka.data] else [])
  }

  lemma {:induction false} SendsOfNext(acts: seq<Action>, j: nat, n: nat)
    requires j < |acts|
    ensures var a := acts[j];
            SendsOf(acts[..j + 1], n) ==
            SendsOf(acts[..j], n) + (if a.Call? && a.n == n && a.ka.SendMsg? then [a.ka.data] else [])
    ensures Call(n, CloseSend) in acts[..j + 1] <==> Call(n, CloseSend) in acts[..j] || acts[j] == Call(n, CloseSend)
  {
    assert acts[..j + 1][..j] == acts[..j];
    assert acts[..j + 1] == acts[..j] + [acts[j]];
  }

  /** What a step does to the voice of stream n. */
  ghost predicate Speaks(o: Obj, o': Obj, a: Action, n: nat) {
    && o'.desc == o.desc && o'.req == o.req
    && o'.sent == o.sent + (if a.Call? && a.n == n && a.ka.SendMsg? then [a.ka.data] else [])
    && (o'.localClosed <==> o.localClosed || a == Call(n, CloseSend))
  }

  lemma {:induction false} CallSpeaks(o: Obj, n: nat, a: CallAct)
    requires a.Take? ==> o.st.queue != []
    requires a.TakeErr? ==> o.st.closed.Some?
    ensures Speaks(o, CallNext(o, a), Call(n, a), n)
  {
  }

  lemma {:induction false} DeliverSpeaks(o: Obj, f: Frame, a: DeliverAct, n: nat)
    requires a.Push? ==> |o.st.queue| < o.st.cap
    ensures Speaks(o, DeliverNext(o, f, a), Deliver(a), n)
  {
  }

  lemma {:induction false} CreateSpeaks(c: Client, a: CreateAct, n: nat)
    requires CreateEnabled(c, a) && n < |c.objs|
    ensures Speaks(c.objs[n], CreateApply(c, a).objs[n], Create(a), n)
  {
  }

  lemma {:induction false} StepSpeaks(c: Client, a: Action, n: nat)
    requires Enabled(c, a) && n < |c.objs|
    ensures |c.objs| <= |Apply(c, a).objs| && Speaks(c.objs[n], Apply(c, a).objs[n], a, n)
  {
    match a
    case Create(ca) => CreateSpeaks(c, ca, n);
    case Call(m, ka) => CallSpeaks(c.objs[m], m, ka);
    case Deliver(da) => DeliverSpeaks(c.objs[c.loop.n], c.loop.f, da, n);
    case Loop(_) =>
    case Conn(_) =>
  }

  /** A step allocates at most one stream, which has said nothing. */
  lemma {:induction false} StepAllocates(c: Client, a: Action, n: nat)
    requires Enabled(c, a) && |c.objs| <= n < |Apply(c, a).objs|
    ensures a == Create(Alloc) && n == |c.objs| && c.lock.Held?
    ensures var o := Apply(c, a).objs[n];
            && o.sent == [] && !o.localClosed && o.desc == c.lock.desc && o.req == c.lock.req
            && o.results == []
  {
    match a
    case Create(ca) => CreateAllocates(c, ca, n);
    case Call(_, _) =>
    case Deliver(_) =>
    case Loop(_) =>
    case Conn(_) =>
  }

  lemma {:induction false} CreateAllocates(c: Client, a: CreateAct, n: nat)
    requires CreateEnabled(c, a) && |c.objs| <= n < |CreateApply(c, a).objs|
    ensures a == Alloc && n == |c.objs|
    ensures var o := CreateApply(c, a).objs[n];
            && o.sent == [] && !o.localClosed && o.desc == c.lock.desc && o.req == c.lock.req
            && o.results == []
  {
  }

  /** In every run a stream has sent exactly the messages of its SendMsg calls, in order, all
      within the size limit, and has closed its side exactly if CloseSend succeeded. */
  lemma {:induction false} SentIsWhatWasSent(states: seq<Client>, acts: seq<Action>, i: nat, n: nat)
    requires IsRun(states, acts) && i <= |acts|
    ensures if n < |states[i].objs| then
              && states[i].objs[n].sent == SendsOf(acts[..i], n)
              && (states[i].objs[n].localClosed <==> Call(n, CloseSend) in acts[..i])
            else SendsOf(acts[..i], n) == [] && Call(n, CloseSend) !in acts[..i]
    ensures forall d :: d in SendsOf(acts[..i], n) ==> |d| <= 4194304
    decreases i
  {
    if i > 0 {
      var j: nat := i - 1;
      SentIsWhatWasSent(states, acts, j, n);
      SendsOfNext(acts, j, n);
      var a := acts[j];
      if n < |states[j].objs| {
        StepSpeaks(states[j], a, n);
      } else if n < |states[i].objs| {
        StepAllocates(states[j], a, n);
      }
    }
  }

  // ---- who created a stream ----

  lemma {:induction false} StepLocks(c: Client, a: Action)
    requires Enabled(c, a) && Apply(c, a).lock.Held?
    ensures Apply(c, a).lock == c.lock
            || a == Create(Lock(Apply(c, a).lock.desc, Apply(c, a).lock.req))
  {
    match a
    case Create(_) =>
    case Call(_, _) =>
    case Deliver(_) =>
    case Loop(_) =>
    case Conn(_) =>
  }

  /** Who holds sendLock took it, and has held it since. */
  lemma {:induction false} HeldBy(states: seq<Client>, acts: seq<Action>, i: nat) returns (p: nat)
    requires IsRun(states, acts) && i <= |acts| && states[i].lock.Held?
    ensures p < i && acts[p] == Create(Lock(states[i].lock.desc, states[i].lock.req))
    ensures forall k :: p < k <= i ==> states[k].lock == states[i].lock
    decreases i
  {
    p := i - 1;
    var a := acts[p];
    StepLocks(states[p], a);
    if states[p].lock == states[i].lock {
      p := HeldBy(states, acts, p);
    }
  }

  /** Stream n has the description and the request of the createStream call that allocated it,
      which held the lock from its first step on. */
  lemma {:induction false} CreatedBy(states: seq<Client>, acts: seq<Action>, i: nat, n: nat) returns (p: nat, q: nat)
    requires IsRun(states, acts) && i <= |acts| && n < |states[i].objs|
    ensures p < q < i && acts[q] == Create(Alloc) && |states[q].objs| == n
    ensures acts[p] == Create(Lock(states[i].objs[n].desc, states[i].objs[n].req))
    ensures forall k :: p < k <= q ==> states[k].lock == states[q].lock && states[k].lock.Held?
    decreases i
  {
    var j: nat := i - 1;
    var a := acts[j];
    if n < |states[j].objs| {
      p, q := CreatedBy(states, acts, j, n);
      StepSpeaks(states[j], a, n);
    } else {
      StepAllocates(states[j], a, n);
      p := HeldBy(states, acts, j);
      q := j;
    }
  }

  // ---- the error of a connection ----

  predicate Carries(loop: Loop, err: StreamErr) {
    (loop.Exited? || loop.Cleaning?) && loop.err == err
  }

  /** The receive loop stopped with err: recv returned it, or the client was closed. */
  predicate Stops(a: Action, err: StreamErr) {
    a == Loop(ReadErr(err)) || (a == Loop(Stop) && err == ErrClosed)
  }

  lemma {:induction false} LoopStops(c: Client, a: LoopAct, err: StreamErr)
    requires LoopEnabled(c, a) && Carries(LoopApply(c, a).loop, err)
    ensures Carries(c.loop, err) || Stops(Loop(a), err)
  {
  }

  lemma {:induction false} StepStops(c: Client, a: Action, err: StreamErr)
    requires Enabled(c, a) && Carries(Apply(c, a).loop, err)
    ensures Carries(c.loop, err) || Stops(a, err)
  {
    match a
    case Create(_) =>
    case Call(_, _) =>
    case Deliver(_) =>
    case Loop(la) => LoopStops(c, la, err);
    case Conn(_) =>
  }

  lemma {:induction false} LoopError(states: seq<Client>, acts: seq<Action>, i: nat, err: StreamErr) returns (j: nat)
    requires IsRun(states, acts) && i <= |acts| && Carries(states[i].loop, err)
    ensures j < i && Stops(acts[j], err)
    decreases i
  {
    j := i - 1;
    var a := acts[j];
    StepStops(states[j], a, err);
    if !Stops(a, err) {
      j := LoopError(states, acts, j, err);
    }
  }

  predicate ClosedWith(o: Obj, code: nat) {
    o.st.closed == Some(ErrConn(code))
  }

  lemma {:induction false} CallCloses(o: Obj, a: CallAct, code: nat)
    requires a.Take? ==> o.st.queue != []
    requires a.TakeErr? ==> o.st.closed.Some?
    ensures ClosedWith(CallNext(o, a), code) ==> ClosedWith(o, code)
  {
  }

  lemma {:induction false} CreateCloses(c: Client, a: CreateAct, n: nat, code: nat)
    requires CreateEnabled(c, a) && n < |CreateApply(c, a).objs| && ClosedWith(CreateApply(c, a).objs[n], code)
    ensures n < |c.objs| && ClosedWith(c.objs[n], code)
  {
  }

  lemma {:induction false} LoopCloses(c: Client, a: LoopAct, n: nat, code: nat)
    requires LoopEnabled(c, a) && n < |LoopApply(c, a).objs| && ClosedWith(LoopApply(c, a).objs[n], code)
    ensures n < |c.objs| && (ClosedWith(c.objs[n], code) || Carries(c.loop, ErrConn(code)))
  {
  }

  lemma {:induction false} DeliverCloses(o: Obj, f: Frame, a: DeliverAct, code: nat)
    requires a.Push? ==> |o.st.queue| < o.st.cap
    ensures ClosedWith(DeliverNext(o, f, a), code) ==> ClosedWith(o, code)
  {
  }

  lemma {:induction false} StepCloses(c: Client, a: Action, n: nat, code: nat)
    requires Enabled(c, a) && n < |Apply(c, a).objs| && ClosedWith(Apply(c, a).objs[n], code)
    ensures (n < |c.objs| && ClosedWith(c.objs[n], code)) || Carries(c.loop, ErrConn(code))
  {
    match a
    case Create(ca) => CreateCloses(c, ca, n, code);
    case Call(m, ka) => CallCloses(c.objs[m], ka, code);
    case Deliver(da) => DeliverCloses(c.objs[c.loop.n], c.loop.f, da, code);
    case Loop(la) => LoopCloses(c, la, n, code);
    case Conn(_) =>
  }

  /** A stream closed with a connection error has the error that recv returned. */
  lemma {:induction false} ConnErrorIsRecvs(states: seq<Client>, acts: seq<Action>, i: nat, n: nat, code: nat)
    returns (j: nat)
    requires IsRun(states, acts) && i <= |acts| && n < |states[i].objs| && ClosedWith(states[i].objs[n], code)
    ensures j < i && acts[j] == Loop(ReadErr(ErrConn(code)))
    decreases i
  {
    j := i - 1;
    var a := acts[j];
    StepCloses(states[j], a, n, code);
    if n < |states[j].objs| && ClosedWith(states[j].objs[n], code) {
      j := ConnErrorIsRecvs(states, acts, j, n, code);
    } else {
      j := LoopError(states, acts, j, ErrConn(code));
    }
  }

  // ---- calls given up ----

  /** A step of its own caller at most adds to what its calls returned. */
  lemma {:induction false} StepReturns(c: Client, a: Action, n: nat)
    requires Enabled(c, a) && n < |c.objs|
    ensures Apply(c, a).objs[n].results != c.objs[n].results ==> a.Call? && a.n == n
  {
    match a
    case Create(ca) => CreateReturns(c, ca, n);
    case Call(_, _) =>
    case Deliver(da) => DeliverReturns(c.objs[c.loop.n], c.loop.f, da);
    case Loop(_) =>
    case Conn(_) =>
  }

  lemma {:induction false} CreateReturns(c: Client, a: CreateAct, n: nat)
    requires CreateEnabled(c, a) && n < |c.objs|
    ensures CreateApply(c, a).objs[n].results == c.objs[n].results
  {
  }

  lemma {:induction false} DeliverReturns(o: Obj, f: Frame, a: DeliverAct)
    requires a.Push? ==> |o.st.queue| < o.st.cap
    ensures DeliverNext(o, f, a).results == o.results
  {
  }

  lemma {:induction false} CallReturns(o: Obj, a: CallAct)
    requires a.Take? ==> o.st.queue != []
    requires a.TakeErr? ==> o.st.closed.Some?
    ensures Cancelled in CallNext(o, a).results <==> Cancelled in o.results || a.CancelCall?
  {
    if a.Take? {
      assert !Decode(o.desc, o.st.queue[0]).0.Cancelled?;
    }
  }

  /** A call says that it was cancelled exactly if its caller's context was done. */
  lemma {:induction false} CancelledByCaller(states: seq<Client>, acts: seq<Action>, i: nat, n: nat)
    requires IsRun(states, acts) && i <= |acts| && n < |states[i].objs|
    ensures Cancelled in states[i].objs[n].results <==> Call(n, CancelCall) in acts[..i]
    decreases i
  {
    var j: nat := i - 1;
    var a := acts[j];
    assert acts[..i] == acts[..j] + [a];
    if n < |states[j].objs| {
      CancelledByCaller(states, acts, j, n);
      StepReturns(states[j], a, n);
      if a.Call? && a.n == n {
        CallReturns(states[j].objs[n], a.ka);
      }
    } else {
      NoCallYet(states, acts, j, n);
      StepAllocates(states[j], a, n);
    }
  }

  lemma {:induction false} NoCallYet(states: seq<Client>, acts: seq<Action>, i: nat, n: nat)
    requires IsRun(states, acts) && i <= |acts| && n >= |states[i].objs|
    ensures Call(n, CancelCall) !in acts[..i]
    decreases i
  {
    if i > 0 {
      var j: nat := i - 1;
      var a := acts[j];
      ObjsGrow(states[j], a);
      NoCallYet(states, acts, j, n);
      assert acts[..i] == acts[..j] + [a];
    }
  }

  lemma {:induction false} ObjsGrow(c: Client, a: Action)
    requires Enabled(c, a)
    ensures |c.objs| <= |Apply(c, a).objs|
  {
    match a
    case Create(_) =>
    case Call(_, _) =>
    case Deliver(_) =>
    case Loop(_) =>
    case Conn(_) =>
  }

  // ---- deleted streams ----

  /** Its caller has taken the stream out of the map, and when it is done has closed it. */
  ghost predicate GoneRight(c: Client, n: nat)
    requires n < |c.objs|
  {
    var o := c.objs[n];
    && (o.phase.Closing? || o.phase.Over? ==> !CQ.Registered(c, n))
    && (o.phase.Over? ==> o.st.closed.Some?)
  }

  ghost predicate GoneInv(c: Client) {
    forall n :: 0 <= n < |c.objs| ==> GoneRight(c, n)
  }

  lemma {:induction false} CreateGone(c: Client, a: CreateAct)
    requires CreateEnabled(c, a) && GoneInv(c)
    ensures GoneInv(CreateApply(c, a))
  {
    var c' := CreateApply(c, a);
    forall n: nat | n < |c'.objs| ensures GoneRight(c', n) {
      assert n < |c.objs| ==> GoneRight(c, n);
    }
  }

  /** The caller's own step. */
  lemma {:induction false} CallFate(c: Client, o: Obj, a: CallAct)
    requires CallEnabled(c, o, a)
    ensures var o' := CallNext(o, a);
            && (o'.phase.Closing? ==> o.phase.Closing? || a.DeleteEntry?)
            && (o'.phase.Over? ==> o.phase.Over? || (o.phase.Closing? && o'.st.closed.Some?))
            && (o.st.closed.Some? ==> o'.st.closed.Some?)
  {
  }

  lemma {:induction false} CallGone(c: Client, m: nat, a: CallAct)
    requires m < |c.objs| && CallEnabled(c, c.objs[m], a) && GoneInv(c) && CI.Numbered(c)
    ensures GoneInv(CallApply(c, m, a))
  {
    var c' := CallApply(c, m, a);
    CallFate(c, c.objs[m], a);
    forall n: nat | n < |c'.objs| ensures GoneRight(c', n) {
      assert GoneRight(c, n);
      assert n != m ==> c'.objs[n] == c.objs[n];
    }
  }

  lemma {:induction false} LoopGone(c: Client, a: LoopAct)
    requires LoopEnabled(c, a) && GoneInv(c)
    ensures GoneInv(LoopApply(c, a))
  {
    var c' := LoopApply(c, a);
    forall n: nat | n < |c'.objs| ensures GoneRight(c', n) {
      assert GoneRight(c, n);
    }
  }

  lemma {:induction false} DeliverFate(o: Obj, f: Frame, a: DeliverAct)
    requires a.Push? ==> |o.st.queue| < o.st.cap
    ensures DeliverNext(o, f, a).phase == o.phase && (o.st.closed.Some? ==> DeliverNext(o, f, a).st.closed.Some?)
  {
  }

  lemma {:induction false} DeliverGone(c: Client, a: DeliverAct)
    requires Enabled(c, Deliver(a)) && GoneInv(c)
    ensures GoneInv(DeliverApply(c, a))
  {
    var c' := DeliverApply(c, a);
    DeliverFate(c.objs[c.loop.n], c.loop.f, a);
    forall n: nat | n < |c'.objs| ensures GoneRight(c', n) {
      assert GoneRight(c, n);
    }
  }

  lemma {:induction false} GoneInvStep(c: Client, a: Action)
    requires Enabled(c, a) && GoneInv(c) && CI.Numbered(c)
    ensures GoneInv(Apply(c, a))
  {
    match a
    case Create(ca) => CreateGone(c, ca);
    case Call(n, ka) => CallGone(c, n, ka);
    case Deliver(da) => DeliverGone(c, da);
    case Loop(la) => LoopGone(c, la);
    case Conn(na) =>
      forall n: nat | n < |c.objs| ensures GoneRight(ConnApply(c, na), n) {
        assert GoneRight(c, n);
      }
  }

  lemma {:induction false} GoneInvAt(states: seq<Client>, acts: seq<Action>, i: nat)
    requires IsRun(states, acts) && i <= |acts|
    ensures GoneInv(states[i])
    decreases i
  {
    if i > 0 {
      var j: nat := i - 1;
      GoneInvAt(states, acts, j);
      CT.ClientInvAt(states, acts, j);
      var a := acts[j];
      GoneInvStep(states[j], a);
    }
  }

  /** A stream whose caller is done with it is not in the map, and it is closed. */
  lemma {:induction false} DoneIsDeleted(c: Client, n: nat)
    requires Reachable(c) && n < |c.objs| && c.objs[n].phase.Over?
    ensures !(IdOf(n) in c.streams && c.streams[IdOf(n)] == n) && c.objs[n].st.closed.Some?
  {
    var states, acts :| IsRun(states, acts) && c == states[|acts|];
    GoneInvAt(states, acts, |acts|);
    assert GoneRight(c, n);
  }

  // ---- after a failure, after a close ----

  /** After a failed write, and after the connection was closed, nothing is written. */
  lemma {:induction false} NothingWrittenAfter(c: Client, a: Action)
    requires Enabled(c, a) && (c.broken || c.connClosed)
    ensures var c' := Apply(c, a); c'.out == c.out && (c'.broken || c'.connClosed)
  {
    match a
    case Create(_) =>
    case Call(n, ka) => CallWritesNothing(c, n, ka);
    case Deliver(_) =>
    case Loop(_) =>
    case Conn(_) =>
  }

  lemma {:induction false} CallWritesNothing(c: Client, n: nat, a: CallAct)
    requires n < |c.objs| && CallEnabled(c, c.objs[n], a) && (c.broken || c.connClosed)
    ensures CallApply(c, n, a).out == c.out
  {
  }

  /** A write fails part of the way, or the connection is closed. */
  predicate Fails(a: Action) {
    a == Create(FirstSendFail(true)) || a == Conn(SendFail) || a == Conn(CloseConn)
  }

  lemma {:induction false} StepFails(c: Client, a: Action)
    requires Enabled(c, a) && Fails(a)
    ensures var c' := Apply(c, a); c'.out == c.out && (c'.broken || c'.connClosed)
  {
  }

  /** In every run: what is on the wire when a write fails, or the connection is closed, is all
      there will be. */
  lemma {:induction false} WireEnds(states: seq<Client>, acts: seq<Action>, j: nat, i: nat)
    requires IsRun(states, acts) && j < i <= |acts| && Fails(acts[j])
    ensures states[i].out == states[j].out && (states[i].broken || states[i].connClosed)
    decreases i
  {
    var k: nat := i - 1;
    var a := acts[k];
    if j < k {
      WireEnds(states, acts, j, k);
      NothingWrittenAfter(states[k], a);
    } else {
      StepFails(states[k], a);
    }
  }

  /** A client that was closed stays closed. */
  lemma {:induction false} ClosedStays(states: seq<Client>, acts: seq<Action>, j: nat, i: nat)
    requires IsRun(states, acts) && j < i <= |acts| && acts[j] == Conn(CancelCtx)
    ensures states[i].ctxDone
    decreases i
  {
    var k: nat := i - 1;
    var a := acts[k];
    if j < k {
      ClosedStays(states, acts, j, k);
      ClosedStep(states[k], a);
    }
  }

  lemma {:induction false} ClosedStep(c: Client, a: Action)
    requires Enabled(c, a) && c.ctxDone
    ensures Apply(c, a).ctxDone
  {
    match a
    case Create(_) =>
    case Call(_, _) =>
    case Deliver(_) =>
    case Loop(_) =>
    case Conn(_) =>
  }

  /** Streams are cleaned up only after the connection was closed. */
  lemma {:induction false} CleanupAfterClose(states: seq<Client>, acts: seq<Action>, i: nat)
    requires IsRun(states, acts) && i <= |acts|
    ensures states[i].loop.Cleaning? || states[i].loop.Finished? ==> states[i].connClosed
    decreases i
  {
    if i > 0 {
      var j: nat := i - 1;
      var a := acts[j];
      CleanupAfterClose(states, acts, j);
      StepCleans(states[j], a);
    }
  }

  predicate Winds(loop: Loop) {
    loop.Cleaning? || loop.Finished?
  }

  lemma {:induction false} LoopCleans(c: Client, a: LoopAct)
    requires LoopEnabled(c, a)
    ensures LoopApply(c, a).connClosed == c.connClosed
    ensures Winds(LoopApply(c, a).loop) ==> Winds(c.loop) || c.connClosed
  {
  }

  lemma {:induction false} StepCleans(c: Client, a: Action)
    requires Enabled(c, a)
    ensures c.connClosed ==> Apply(c, a).connClosed
    ensures Winds(Apply(c, a).loop) ==> Winds(c.loop) || c.connClosed
  {
    match a
    case Create(_) =>
    case Call(_, _) =>
    case Deliver(_) =>
    case Loop(la) => LoopCleans(c, la);
    case Conn(_) =>
  }

  /** After Close the receive loop reads at most the frame it is waiting for. */
  lemma {:induction false} NoReadAfterClose(c: Client, a: Action)
    requires Enabled(c, a) && c.ctxDone && !c.loop.Reading?
    ensures Apply(c, a).ctxDone && !Apply(c, a).loop.Reading?
  {
    match a
    case Create(_) =>
    case Call(_, _) =>
    case Deliver(_) =>
    case Loop(_) =>
    case Conn(_) =>
  }
}
