/** What a caller is told: which errors its calls return, when they report the end, and what a
    stream is closed with. */
module ClientOutcomes {
  import opened Frames
  import opened StreamQueue
  import opened ClientConn
  import opened ClientIds
  import opened ClientQueues
  import CT = ClientTheorems

  /** The statuses RecvMsg returned as errors, in order. */
  ghost function Statuses(results: seq<Outcome>): seq<Status> {
    if results == [] then []
    else
      var last := results[|results| - 1];
      Statuses(results[..|results| - 1]) + (if last.StatusErr? then [last.status] else [])
  }

  lemma StatusesSnoc(results: seq<Outcome>, r: Outcome)
    ensures Statuses(results + [r]) == Statuses(results) + (if r.StatusErr? then [r.status] else [])
  {
    assert (results + [r])[..|results|] == results;
  }

  lemma {:induction false} StatusesHave(results: seq<Outcome>, st: Status)
    ensures st in Statuses(results) <==> StatusErr(st) in results
  {
    if results != [] {
      var front, last := results[..|results| - 1], results[|results| - 1];
      StatusesHave(front, st);
      assert results == front + [last];
    }
  }

  /** The statuses of the responses among the frames that are not OK. */
  ghost function ErrorsIn(fs: seq<Frame>): seq<Status> {
    if fs == [] then []
    else
      var e := ErrorIn(fs[|fs| - 1]);
      ErrorsIn(fs[..|fs| - 1]) + (if e.Some? then [e.value] else [])
  }

  lemma ErrorsSnoc(fs: seq<Frame>, f: Frame)
    ensures ErrorsIn(fs + [f]) == ErrorsIn(fs) + (if ErrorIn(f).Some? then [ErrorIn(f).value] else [])
  {
    assert (fs + [f])[..|fs|] == fs;
  }

  lemma {:induction false} ErrorsHave(fs: seq<Frame>, st: Status)
    ensures st in ErrorsIn(fs) <==> exists i :: 0 <= i < |fs| && ErrorIn(fs[i]) == Some(st)
  {
    if fs != [] {
      var front := fs[..|fs| - 1];
      ErrorsHave(front, st);
      if st in ErrorsIn(front) {
        var i :| 0 <= i < |front| && ErrorIn(front[i]) == Some(st);
        assert ErrorIn(fs[i]) == Some(st);
      }
      if i :| 0 <= i < |fs| && ErrorIn(fs[i]) == Some(st) {
        assert i < |front| ==> ErrorIn(front[i]) == Some(st);
      }
    }
  }

  predicate Ended(phase: Phase) {
    phase.Deleting? || phase.Closing? || phase.Over?
  }

  ghost predicate Confused(o: Obj) {
    exists i :: 0 <= i < |o.taken| && !Expected(o.desc, o.taken[i])
  }

  ghost predicate Marked(o: Obj) {
    o.taken != [] && EndMark(o.desc, o.taken[|o.taken| - 1])
  }

  /** The errors a streaming caller got are those of its frames, in order; a protocol error
      stands for a frame it does not expect; and io.EOF for the end of its stream. */
  ghost predicate StreamingTold(o: Obj) {
    && Statuses(o.results) == ErrorsIn(o.taken)
    && (ProtocolErr in o.results <==> Confused(o))
    && (Marked(o) ==> EndOfStream in o.results)
    && (EndOfStream in o.results ==> Ended(o.phase) && (Marked(o) || o.phase.Over?))
    && ConnClosed !in o.results
  }

  ghost predicate Told(o: Obj, ctxDone: bool) {
    && (o.desc.Streaming? ==> StreamingTold(o))
    && (o.desc.Unary? && ProtocolErr in o.results ==> o.taken != [])
    && (ConnClosed in o.results ==> ctxDone)
    && (!Opened(o) ==> o.results == [] && o.taken == [])
  }

  ghost predicate Oversized(arr: seq<Frame>) {
    exists i :: 0 <= i < |arr| && arr[i].TooLong?
  }

  /** Who closed a stream: an oversized frame of its own, the timer, its own caller, or cleanup
      with the error that ended the receive loop. */
  ghost predicate Cause(loop: Loop, o: Obj, arr: seq<Frame>) {
    o.st.closed.Some? ==>
      match o.st.closed.value
      case ErrTooLong => Oversized(arr)
      case ErrStreamFull => o.timeouts > 0
      case ErrClosed => o.phase.Over? || loop.Finished?
      case ErrConn(_) => loop.Finished?
  }

  ghost predicate Outcomes(c: Client, n: nat)
    requires n < |c.objs|
  {
    var o := c.objs[n];
    Told(o, c.ctxDone) && (o.regAt <= |c.looked| ==> Cause(c.loop, o, Arrivals(c.looked, o)))
  }

  ghost predicate OutcomeInv(c: Client) {
    && (c.loop.Exited? || c.loop.Cleaning? ==> OfConnection(c.loop.err))
    && forall n :: 0 <= n < |c.objs| ==> Outcomes(c, n)
  }

  // ---- one stream at a time ----

  lemma {:induction false} TakeTold(o: Obj, o': Obj, f: Frame)
    requires o.desc.Streaming? && o.phase.Ready? && StreamingTold(o) && Taken(o, o', f)
    ensures StreamingTold(o')
  {
    DecodeMeans(o.desc, f);
    StatusesSnoc(o.results, Decode(o.desc, f).0);
    ErrorsSnoc(o.taken, f);
    ConfusedSnoc(o, o', f);
  }

  lemma {:induction false} ConfusedSnoc(o: Obj, o': Obj, f: Frame)
    requires o'.desc == o.desc && o'.taken == o.taken + [f]
    ensures Confused(o') <==> Confused(o) || !Expected(o.desc, f)
  {
    assert o'.taken[|o.taken|] == f;
    assert forall i :: 0 <= i < |o.taken| ==> o'.taken[i] == o.taken[i];
  }

  lemma {:induction false} EndedTold(o: Obj, r: Outcome)
    requires o.desc.Streaming? && StreamingTold(o)
    requires (o.phase.Ready? && (r.StreamFailed? || r.Cancelled?)) || (o.phase.Over? && r.EndOfStream?)
    ensures StreamingTold(ClientConn.Ended(o, r))
  {
    StatusesSnoc(o.results, r);
  }

  lemma {:induction false} TakeToldUnary(o: Obj, o': Obj, f: Frame, ctxDone: bool)
    requires o.desc.Unary? && o.phase.Ready? && Told(o, ctxDone) && Taken(o, o', f)
    ensures Told(o', ctxDone)
  {
    assert Decode(o.desc, f).0 != ConnClosed;
  }

  lemma {:induction false} TakeToldAny(o: Obj, o': Obj, f: Frame, ctxDone: bool)
    requires o.phase.Ready? && Told(o, ctxDone) && Taken(o, o', f)
    ensures Told(o', ctxDone)
  {
    if o.desc.Unary? {
      TakeToldUnary(o, o', f, ctxDone);
    } else {
      TakeTold(o, o', f);
    }
  }

  /** Two states of one stream in which its caller has been told the same. */
  ghost predicate SameTold(o: Obj, o': Obj) {
    && o'.desc == o.desc && o'.taken == o.taken && o'.results == o.results
    && (Opened(o) <==> Opened(o')) && (Ended(o.phase) ==> Ended(o'.phase)) && (o.phase.Over? ==> o'.phase.Over?)
  }

  lemma {:induction false} SameToldKeeps(o: Obj, o': Obj, ctxDone: bool)
    requires Told(o, ctxDone) && SameTold(o, o')
    ensures Told(o', ctxDone)
  {
  }

  lemma {:induction false} CallTellsNothing(c: Client, o: Obj, a: CallAct)
    requires CallEnabled(c, o, a) && (a.SendMsg? || a.CloseSend? || a.DeleteEntry? || a.DeleteClose?)
    ensures SameTold(o, CallNext(o, a))
  {
  }

  lemma {:induction false} CallTold(c: Client, o: Obj, a: CallAct)
    requires CallEnabled(c, o, a) && Told(o, c.ctxDone)
    ensures Told(CallNext(o, a), c.ctxDone)
  {
    match a
    case Take =>
      TookTakes(o);
      TakeToldAny(o, Took(o), o.st.queue[0], c.ctxDone);
    case TakeErr => EndsTold(o, StreamFailed(o.st.closed.value), c.ctxDone);
    case CancelCall => EndsTold(o, Cancelled, c.ctxDone);
    case ConnDone => EndsTold(o, ConnClosed, c.ctxDone);
    case RecvAfterEnd => EndsTold(o, EndOfStream, c.ctxDone);
    case _ =>
      CallTellsNothing(c, o, a);
      SameToldKeeps(o, CallNext(o, a), c.ctxDone);
  }

  lemma {:induction false} EndsTold(o: Obj, r: Outcome, ctxDone: bool)
    requires Opened(o) && Told(o, ctxDone)
    requires o.desc.Streaming? ==>
               (o.phase.Ready? && (r.StreamFailed? || r.Cancelled?)) || (o.phase.Over? && r.EndOfStream?)
    requires !r.ProtocolErr? && (r.ConnClosed? ==> ctxDone)
    ensures Told(ClientConn.Ended(o, r), ctxDone)
  {
    if o.desc.Streaming? {
      EndedTold(o, r);
    }
  }

  lemma {:induction false} CallCause(c: Client, o: Obj, a: CallAct, loop: Loop, arr: seq<Frame>)
    requires CallEnabled(c, o, a) && Cause(loop, o, arr)
    ensures Cause(loop, CallNext(o, a), arr)
  {
  }

  lemma {:induction false} DeliverCause(loop: Loop, loop': Loop, ctxDone: bool, o: Obj, a: DeliverAct, arr: seq<Frame>)
    requires InDelivery(loop) && DeliverEnabled(loop, ctxDone, o, a) && Cause(loop, o, arr) && !loop'.Finished?
    requires arr != [] && arr[|arr| - 1] == loop.f
    ensures Cause(loop', DeliverNext(o, loop.f, a), arr)
  {
    if a.Poison? {
      assert arr[|arr| - 1].TooLong?;
    }
  }

  lemma {:induction false} OversizedGrows(arr: seq<Frame>, arr': seq<Frame>)
    requires arr <= arr' && Oversized(arr)
    ensures Oversized(arr')
  {
    var i :| 0 <= i < |arr| && arr[i].TooLong?;
    assert arr'[i].TooLong?;
  }

  // ---- steps ----

  lemma {:induction false} CallOutcomes(c: Client, n: nat, a: CallAct)
    requires n < |c.objs| && CallEnabled(c, c.objs[n], a) && OutcomeInv(c)
    ensures OutcomeInv(CallApply(c, n, a))
  {
    var c' := CallApply(c, n, a);
    forall m | 0 <= m < |c'.objs| ensures Outcomes(c', m) {
      assert Outcomes(c, m);
      if m == n {
        CallTold(c, c.objs[n], a);
        CallKeepsPlace(c.objs[n], a);
        if c.objs[n].regAt <= |c.looked| {
          CallCause(c, c.objs[n], a, c.loop, Arrivals(c.looked, c.objs[n]));
        }
      }
    }
  }

  lemma {:induction false} CallKeepsPlace(o: Obj, a: CallAct)
    requires a.Take? ==> o.st.queue != []
    requires a.TakeErr? ==> o.st.closed.Some?
    ensures CallNext(o, a).regAt == o.regAt && CallNext(o, a).st.id == o.st.id
  {
  }

  lemma {:induction false} CreateOutcomes(c: Client, a: CreateAct)
    requires CreateEnabled(c, a) && OutcomeInv(c) && LockRight(c)
    ensures OutcomeInv(CreateApply(c, a))
  {
    var c' := CreateApply(c, a);
    forall m | 0 <= m < |c'.objs| ensures Outcomes(c', m) {
      if m < |c.objs| {
        assert Outcomes(c, m);
        CreateKeepsStream(c, a, m);
      }
    }
  }

  lemma {:induction false} CreateKeepsStream(c: Client, a: CreateAct, m: nat)
    requires CreateEnabled(c, a) && m < |c.objs| && LockRight(c)
    ensures var o, o' := c.objs[m], CreateApply(c, a).objs[m];
            && o'.st == o.st && o'.desc == o.desc && o'.regAt == o.regAt && o'.taken == o.taken
            && o'.results == o.results && o'.timeouts == o.timeouts && (o.phase == o'.phase || o.phase.Opening?)
  {
  }

  lemma {:induction false} DeliverOutcome(c: Client, c': Client, a: DeliverAct)
    requires Enabled(c, Deliver(a)) && Outcomes(c, c.loop.n) && StreamPlace(c)
    requires c'.objs == c.objs[c.loop.n := DeliverNext(c.objs[c.loop.n], c.loop.f, a)]
    requires c'.looked == c.looked && c'.ctxDone == c.ctxDone && c'.loop == DeliverLoop(c.loop, a)
    ensures Outcomes(c', c.loop.n)
  {
    var n := c.loop.n;
    DeliverSame(c.objs[n], c.loop.f, a);
    SameToldKeeps(c.objs[n], c'.objs[n], c.ctxDone);
    if c.objs[n].regAt <= |c.looked| {
      DeliverCause(c.loop, c'.loop, c.ctxDone, c.objs[n], a, Arrivals(c.looked, c.objs[n]));
    }
  }

  /** The frame in flight is the last arrival of its stream. */
  ghost predicate StreamPlace(c: Client)
    requires InDelivery(c.loop) && c.loop.n < |c.objs|
  {
    var o := c.objs[c.loop.n];
    o.regAt <= |c.looked| ==>
      var arr := Arrivals(c.looked, o);
      arr != [] && arr[|arr| - 1] == c.loop.f
  }

  lemma {:induction false} DeliverSame(o: Obj, f: Frame, a: DeliverAct)
    requires a.Push? ==> |o.st.queue| < o.st.cap
    ensures SameTold(o, DeliverNext(o, f, a))
    ensures DeliverNext(o, f, a).regAt == o.regAt && DeliverNext(o, f, a).st.id == o.st.id
  {
  }

  lemma {:induction false} DeliverOutcomes(c: Client, a: DeliverAct)
    requires Enabled(c, Deliver(a)) && OutcomeInv(c) && QueueInv(c)
    ensures OutcomeInv(DeliverApply(c, a))
  {
    var c', n := DeliverApply(c, a), c.loop.n;
    assert StreamRight(c, n);
    forall m: nat | m < |c'.objs| ensures Outcomes(c', m) {
      assert Outcomes(c, m);
      if m == n {
        DeliverOutcome(c, c', a);
      }
    }
  }

  lemma {:induction false} LookupOutcomes(c: Client)
    requires LoopEnabled(c, Lookup) && OutcomeInv(c)
    requires forall n :: 0 <= n < |c.objs| ==> c.objs[n].regAt <= |c.looked|
    ensures OutcomeInv(LoopApply(c, Lookup))
  {
    var c' := LoopApply(c, Lookup);
    forall m | 0 <= m < |c'.objs| ensures Outcomes(c', m) {
      assert Outcomes(c, m);
      var o := c.objs[m];
      if o.regAt <= |c.looked| {
        ArrivalsGrow(c.looked, c.loop.f, o);
        if Oversized(Arrivals(c.looked, o)) {
          OversizedGrows(Arrivals(c.looked, o), Arrivals(c'.looked, o));
        }
      }
    }
  }

  lemma {:induction false} LoopOutcomes(c: Client, a: LoopAct)
    requires LoopEnabled(c, a) && OutcomeInv(c)
    requires forall n :: 0 <= n < |c.objs| ==> c.objs[n].regAt <= |c.looked|
    ensures OutcomeInv(LoopApply(c, a))
  {
    if a.Lookup? {
      LookupOutcomes(c);
    } else {
      var c' := LoopApply(c, a);
      forall m | 0 <= m < |c'.objs| ensures Outcomes(c', m) {
        assert Outcomes(c, m);
      }
    }
  }

  lemma {:induction false} OutcomeInvStep(c: Client, a: Action)
    requires Enabled(c, a) && OutcomeInv(c) && CT.ClientInv(c)
    ensures OutcomeInv(Apply(c, a))
  {
    match a
    case Create(ca) => CreateOutcomes(c, ca);
    case Call(n, ka) => CallOutcomes(c, n, ka);
    case Deliver(da) => DeliverOutcomes(c, da);
    case Loop(la) => LoopOutcomes(c, la);
    case Conn(na) => ConnOutcomes(c, na);
  }

  lemma {:induction false} ConnOutcomes(c: Client, a: ConnAct)
    requires ConnEnabled(c, a) && OutcomeInv(c)
    ensures OutcomeInv(ConnApply(c, a))
  {
    var c' := ConnApply(c, a);
    forall m | 0 <= m < |c'.objs| ensures Outcomes(c', m) {
      assert Outcomes(c, m);
    }
  }

  lemma {:induction false} OutcomeInvAt(states: seq<Client>, acts: seq<Action>, i: nat)
    requires IsRun(states, acts) && i <= |acts|
    ensures OutcomeInv(states[i])
    decreases i
  {
    if i > 0 {
      var j: nat := i - 1;
      OutcomeInvAt(states, acts, j);
      CT.ClientInvAt(states, acts, j);
      var a := acts[j];
      OutcomeInvStep(states[j], a);
    }
  }

  lemma {:induction false} OutcomeInvHolds(c: Client)
    requires Reachable(c)
    ensures OutcomeInv(c)
  {
    var states, acts :| IsRun(states, acts) && c == states[|acts|];
    OutcomeInvAt(states, acts, |acts|);
  }

  // ---- what callers are told ----

  /** The errors a streaming caller got are exactly the statuses of the responses it took that
      are not OK, in order. */
  lemma {:induction false} ErrorsTold(c: Client, n: nat)
    requires Reachable(c) && n < |c.objs| && c.objs[n].desc.Streaming?
    ensures Statuses(c.objs[n].results) == ErrorsIn(c.objs[n].taken)
    ensures forall i :: 0 <= i < |c.objs[n].taken|
                        && c.objs[n].taken[i].ResponseFrame? && c.objs[n].taken[i].status != OK ==>
              StatusErr(c.objs[n].taken[i].status) in c.objs[n].results
  {
    OutcomeInvHolds(c);
    assert Outcomes(c, n);
    var o := c.objs[n];
    forall i | 0 <= i < |o.taken| && o.taken[i].ResponseFrame? && o.taken[i].status != OK
      ensures StatusErr(o.taken[i].status) in o.results
    {
      ErrorsHave(o.taken, o.taken[i].status);
      StatusesHave(o.results, o.taken[i].status);
    }
  }

  /** io.EOF means the end: the stream is deleted or being deleted by its caller, and it is the
      first io.EOF only if the last frame was the mark of the end; and after that mark
      RecvMsg has returned io.EOF. */
  lemma {:induction false} EndTold(c: Client, n: nat)
    requires Reachable(c) && n < |c.objs| && c.objs[n].desc.Streaming?
    ensures EndOfStream in c.objs[n].results ==> Ended(c.objs[n].phase) && (Marked(c.objs[n]) || c.objs[n].phase.Over?)
    ensures Marked(c.objs[n]) ==> EndOfStream in c.objs[n].results
  {
    OutcomeInvHolds(c);
    assert Outcomes(c, n);
  }

  /** A caller with a streaming server is done with its stream exactly if the last frame it
      took was an OK response or data closed by the remote; one without, also after any data. */
  lemma {:induction false} DoneTold(c: Client, n: nat)
    requires Reachable(c) && n < |c.objs| && c.objs[n].desc.Streaming?
    ensures Ended(c.objs[n].phase) <==>
              c.objs[n].taken != []
              && var f := c.objs[n].taken[|c.objs[n].taken| - 1];
                 || (f.ResponseFrame? && f.status == OK)
                 || (f.DataFrame? && (f.flags.remoteClosed || !c.objs[n].desc.server))
  {
    CT.ClientInvHolds(c);
    assert StreamRight(c, n);
  }

  /** A streaming caller sees a protocol error exactly if it took a frame that is neither a
      response nor data it may expect. */
  lemma {:induction false} ProtocolTold(c: Client, n: nat)
    requires Reachable(c) && n < |c.objs| && c.objs[n].desc.Streaming?
    ensures ProtocolErr in c.objs[n].results <==>
              exists i :: 0 <= i < |c.objs[n].taken| && !c.objs[n].taken[i].ResponseFrame?
                          && !(c.objs[n].taken[i].DataFrame? && c.objs[n].desc.server)
  {
    OutcomeInvHolds(c);
    assert Outcomes(c, n);
    var o := c.objs[n];
    if Confused(o) {
      var i :| 0 <= i < |o.taken| && !Expected(o.desc, o.taken[i]);
      assert !o.taken[i].ResponseFrame? && !(o.taken[i].DataFrame? && o.desc.server);
    }
    if i :| 0 <= i < |o.taken| && !o.taken[i].ResponseFrame? && !(o.taken[i].DataFrame? && o.desc.server) {
      assert !Expected(o.desc, o.taken[i]);
    }
  }

  /** A unary call takes at most one frame, returns a response as it is and complains of any
      other frame, and says that the connection is closed only if it is. */
  lemma {:induction false} UnaryTold(c: Client, n: nat)
    requires Reachable(c) && n < |c.objs| && c.objs[n].desc.Unary?
    ensures |c.objs[n].taken| <= 1 && |c.objs[n].results| <= 1
    ensures c.objs[n].taken != [] ==>
              var f := c.objs[n].taken[0];
              c.objs[n].results == [if f.ResponseFrame? then Reply(f.status, f.data) else ProtocolErr]
    ensures ProtocolErr in c.objs[n].results ==> c.objs[n].taken != []
    ensures ConnClosed in c.objs[n].results ==> c.ctxDone
  {
    CT.ClientInvHolds(c);
    OutcomeInvHolds(c);
    assert StreamRight(c, n) && Outcomes(c, n);
  }

  /** Why a stream is closed: ErrTooLong for an oversized frame of its own, ErrStreamFull for a
      timer that fired, and anything else by its own caller or by cleanup. */
  lemma {:induction false} CloseTold(c: Client, n: nat)
    requires Reachable(c) && n < |c.objs| && c.objs[n].regAt <= |c.looked|
    ensures c.objs[n].st.closed == Some(ErrTooLong) ==>
              exists i :: 0 <= i < |Arrivals(c.looked, c.objs[n])| && Arrivals(c.looked, c.objs[n])[i].TooLong?
    ensures c.objs[n].st.closed == Some(ErrStreamFull) ==> c.objs[n].timeouts == 1
    ensures c.objs[n].st.closed == Some(ErrClosed) ==> c.objs[n].phase.Over? || c.loop.Finished?
    ensures c.objs[n].st.closed.Some? && c.objs[n].st.closed.value.ErrConn? ==> c.loop.Finished?
  {
    CT.ClientInvHolds(c);
    OutcomeInvHolds(c);
    assert StreamRight(c, n) && Outcomes(c, n);
  }
}
