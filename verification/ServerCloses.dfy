/** How the input of a streaming handler ends: every close frame closes its queue or is turned
    down, data fails only for cause, and a deleted stream stays deleted. */
module ServerCloses {
  import opened Frames
  import opened ServerConn
  import opened ServerIds
  import opened ServerFeeds
  import ST = ServerTheorems

  /** The number of frames the receiver is done with. */
  ghost function DoneWith(s: Server): int {
    if s.rp.Got? || OnData(s.rp) then |s.inLog| - 1 else |s.inLog|
  }

  predicate CloseFrame(f: Frame, id: StreamID) {
    f.DataFrame? && f.id == id && f.flags.remoteClosed
  }

  /** Frame k, a close frame for handler h, closed its queue, and was turned down exactly if it
      had data; unless it was turned down before that. */
  ghost predicate FrameRight(s: Server, h: nat, k: nat)
    requires h < |s.handlers| && k < |s.inLog|
  {
    CloseFrame(s.inLog[k], s.handlers[h].id) ==>
      if k !in s.rejected then s.handlers[h].remoteClosed && s.inLog[k].data == []
      else s.rejected[k] == CloseWithData ==> s.handlers[h].remoteClosed
  }

  ghost predicate CloseInv(s: Server) {
    forall h: nat, k: nat :: h < |s.handlers| && s.handlers[h].reqAt < k < DoneWith(s) && k < |s.inLog| ==>
      FrameRight(s, h, k)
  }

  /** The data frames done with before, and the handlers there were, are as they were, except that
      queues may have been closed. */
  ghost predicate Keeps(s: Server, s': Server) {
    && s.inLog <= s'.inLog && |s.handlers| <= |s'.handlers| && DoneWith(s) <= DoneWith(s')
    && (forall k: nat :: k < DoneWith(s) && k < |s.inLog| && s.inLog[k].DataFrame? ==>
          (k in s.rejected <==> k in s'.rejected) && (k in s.rejected ==> s'.rejected[k] == s.rejected[k]))
    && (forall h :: 0 <= h < |s.handlers| ==>
          && SameRequest(s.handlers[h], s'.handlers[h])
          && (s.handlers[h].remoteClosed ==> s'.handlers[h].remoteClosed))
    && (forall h :: |s.handlers| <= h < |s'.handlers| ==> s'.handlers[h].reqAt >= DoneWith(s') - 1)
  }

  lemma {:induction false} FrameKept(s: Server, s': Server, h: nat, k: nat)
    requires Keeps(s, s') && h < |s.handlers| && k < |s.inLog| && k < DoneWith(s) && FrameRight(s, h, k)
    ensures FrameRight(s', h, k)
  {
    assert SameRequest(s.handlers[h], s'.handlers[h]);
  }

  /** A step that is done with one frame more, or none. */
  lemma {:induction false} CloseKept(s: Server, s': Server)
    requires CloseInv(s) && Keeps(s, s')
    requires forall h: nat, k: nat :: h < |s.handlers| && DoneWith(s) <= k < DoneWith(s') && k < |s'.inLog| ==>
               FrameRight(s', h, k)
    ensures CloseInv(s')
  {
    forall h: nat, k: nat | h < |s'.handlers| && s'.handlers[h].reqAt < k < DoneWith(s') && k < |s'.inLog|
      ensures FrameRight(s', h, k)
    {
      if h < |s.handlers| && k < DoneWith(s) {
        assert SameRequest(s.handlers[h], s'.handlers[h]);
        FrameKept(s, s', h, k);
      }
    }
  }

  lemma {:induction false} JudgeRejects(s: Server)
    requires s.rp.Got? && s.inLog != []
    ensures match Judge(s)
            case TurnDown(_, reason) => reason != CloseWithData
            case MoveOn(rp) => OnData(rp) || (rp == AtTop && !Last(s).DataFrame?)
            case Begin(_, _) => !Last(s).DataFrame?
  {
  }

  lemma {:induction false} TurnDownCloses(s: Server, id: StreamID, reason: Reason)
    requires CloseInv(s) && RejectsRight(s) && s.rp.Got? && s.inLog != [] && reason != CloseWithData
    ensures CloseInv(Follow(s, TurnDown(id, reason)))
  {
    CloseKept(s, Follow(s, TurnDown(id, reason)));
  }

  lemma {:induction false} MoveOnCloses(s: Server, rp: Receiver)
    requires CloseInv(s) && s.rp.Got? && s.inLog != []
    requires OnData(rp) || (rp == AtTop && !Last(s).DataFrame?)
    ensures CloseInv(Follow(s, MoveOn(rp)))
  {
    CloseKept(s, Follow(s, MoveOn(rp)));
  }

  lemma {:induction false} BeginCloses(s: Server, kind: Kind, req: Request)
    requires CloseInv(s) && s.rp.Got? && s.inLog != [] && !Last(s).DataFrame?
    ensures CloseInv(Follow(s, Begin(kind, req)))
  {
    CloseKept(s, Follow(s, Begin(kind, req)));
  }

  lemma {:induction false} DispatchCloses(s: Server)
    requires CloseInv(s) && RejectsRight(s) && RecvEnabled(s, Dispatch)
    ensures CloseInv(Follow(s, Judge(s)))
  {
    JudgeRejects(s);
    match Judge(s)
    case TurnDown(id, reason) => TurnDownCloses(s, id, reason);
    case MoveOn(rp) => MoveOnCloses(s, rp);
    case Begin(kind, req) => BeginCloses(s, kind, req);
  }

  /** closeSend at the end of a data frame: what it does to the stream's own handler ... */
  lemma {:induction false} FinishKeeps(s: Server)
    requires RecvEnabled(s, Finish) && RejectsRight(s)
    ensures Keeps(s, FinishApply(s)) && FinishApply(s).inLog == s.inLog && |FinishApply(s).handlers| == |s.handlers|
    ensures FinishApply(s).handlers[s.rp.h].id == s.handlers[s.rp.h].id && DoneWith(FinishApply(s)) == |s.inLog|
    ensures FrameRight(FinishApply(s), s.rp.h, |s.inLog| - 1)
  {
  }

  /** ... and none of it to another's. */
  lemma {:induction false} FinishCloses(s: Server)
    requires CloseInv(s) && IdInv(s) && RecvEnabled(s, Finish)
    ensures CloseInv(FinishApply(s))
  {
    FinishKeeps(s);
    var last: nat := |s.inLog| - 1;
    forall h: nat | h < |s.handlers| ensures FrameRight(FinishApply(s), h, last) {
      OneFinished(s, FinishApply(s), h);
    }
    CloseKept(s, FinishApply(s));
  }

  lemma {:induction false} OneFinished(s: Server, s': Server, h: nat)
    requires Increasing(s.handlers) && ReceiverRight(s) && s.rp.Finishing? && s.rp.h < |s.handlers| && h < |s.handlers|
    requires Keeps(s, s') && s'.inLog == s.inLog && s.inLog != [] && FrameRight(s', s.rp.h, |s.inLog| - 1)
    ensures FrameRight(s', h, |s.inLog| - 1)
  {
    assert SameRequest(s.handlers[h], s'.handlers[h]);
    if s.handlers[h].id == Last(s).id {
      SameHandler(s.handlers, s.rp.h, h);
    }
  }

  lemma {:induction false} FeedErrKeeps(s: Server)
    requires InFeed(s.rp) && s.rp.h < |s.handlers| && s.inLog != []
    requires FeedEnabled(s.rp, s.handlers[s.rp.h], FeedErr) && (s.rp.Starting? ==> !Last(s).DataFrame?)
    ensures var s', last := FeedApply(s, FeedErr), |s.inLog| - 1;
            && Keeps(s, s') && s'.inLog == s.inLog && |s'.handlers| == |s.handlers|
            && last in s'.rejected && s'.rejected[last] != CloseWithData && DoneWith(s') == |s.inLog|
  {
  }

  lemma {:induction false} FeedErrCloses(s: Server)
    requires CloseInv(s) && IdInv(s) && InFeed(s.rp) && s.rp.h < |s.handlers| && s.inLog != []
    requires FeedEnabled(s.rp, s.handlers[s.rp.h], FeedErr)
    ensures CloseInv(FeedApply(s, FeedErr))
  {
    assert HandlerRight(s.svc, s.inLog, s.lastID, s.handlers[s.rp.h]);
    FeedErrKeeps(s);
    CloseKept(s, FeedApply(s, FeedErr));
  }

  lemma {:induction false} FeedCloses(s: Server, a: RecvAct)
    requires CloseInv(s) && InFeed(s.rp) && s.rp.h < |s.handlers| && s.inLog != []
    requires FeedEnabled(s.rp, s.handlers[s.rp.h], a) && !a.FeedErr?
    ensures CloseInv(FeedApply(s, a))
  {
    CloseKept(s, FeedApply(s, a));
  }

  lemma {:induction false} RestCloses(s: Server, a: RecvAct)
    requires CloseInv(s) && RecvEnabled(s, a) && !a.Dispatch? && !a.Finish? && !IsFeed(a)
    ensures CloseInv(RecvApply(s, a))
  {
    CloseKept(s, RecvApply(s, a));
  }

  lemma {:induction false} RecvCloses(s: Server, a: RecvAct)
    requires CloseInv(s) && IdInv(s) && RecvEnabled(s, a) && (InFeed(s.rp) ==> s.inLog != [])
    ensures CloseInv(RecvApply(s, a))
  {
    if a.Dispatch? {
      DispatchCloses(s);
    } else if a.Finish? {
      FinishCloses(s);
    } else if a.FeedErr? {
      FeedErrCloses(s);
    } else if IsFeed(a) {
      FeedCloses(s, a);
    } else {
      RestCloses(s, a);
    }
  }

  lemma {:induction false} AcceptCloses(s: Server, h: nat)
    requires CloseInv(s) && SendEnabled(s, Accept(h))
    ensures CloseInv(SendApply(s, Accept(h)))
  {
    CloseKept(s, SendApply(s, Accept(h)));
  }

  lemma {:induction false} SendCloses(s: Server, a: SendAct)
    requires CloseInv(s) && SendEnabled(s, a)
    ensures CloseInv(SendApply(s, a))
  {
    if a.Accept? {
      AcceptCloses(s, a.h);
    } else {
      CloseKept(s, SendApply(s, a));
    }
  }

  lemma {:induction false} HandleCloses(s: Server, h: nat, a: HandlerAct)
    requires CloseInv(s) && h < |s.handlers| && HandleEnabled(s, s.handlers[h], a)
    ensures CloseInv(HandleApply(s, h, a))
  {
    CloseKept(s, HandleApply(s, h, a));
  }

  lemma {:induction false} CloseInvStep(s: Server, a: Action)
    requires Enabled(s, a) && CloseInv(s) && IdInv(s)
    ensures CloseInv(Apply(s, a))
  {
    match a
    case Recv(ra) => RecvCloses(s, ra);
    case Send(sa) => SendCloses(s, sa);
    case Handle(h, ha) => HandleCloses(s, h, ha);
    case Shutdown => CloseKept(s, Apply(s, a));
  }

  lemma {:induction false} InvsAt(states: seq<Server>, acts: seq<Action>, i: nat)
    requires IsRun(states, acts) && i <= |acts|
    ensures IdInv(states[i]) && FeedInv(states[i])
  {
    ST.ServerInvAt(states, acts, i);
  }

  lemma {:induction false} CloseInvAt(states: seq<Server>, acts: seq<Action>, i: nat)
    requires IsRun(states, acts) && i <= |acts|
    ensures CloseInv(states[i])
    decreases i
  {
    if i > 0 {
      var j: nat := i - 1;
      CloseInvAt(states, acts, j);
      InvsAt(states, acts, j);
      var a := acts[j];
      CloseInvStep(states[j], a);
    }
  }

  /** Every close frame the receiver is done with has closed its handler's queue, so that the
      handler can see io.EOF once it has read everything; only one that was turned down as
      not active, or whose data could not be queued, has not. It is turned down for its data
      exactly if it has some. */
  lemma {:induction false} CloseArrives(s: Server, h: nat, k: nat)
    requires Reachable(s) && h < |s.handlers| && s.handlers[h].reqAt < k < DoneWith(s)
    ensures k < |s.inLog|
    ensures CloseFrame(s.inLog[k], s.handlers[h].id) ==>
              || (k in s.rejected && (s.rejected[k] == NotActive || s.rejected[k] == DataError))
              || (s.handlers[h].remoteClosed
                  && (if k in s.rejected then s.rejected[k] == CloseWithData && s.inLog[k].data != []
                      else s.inLog[k].data == []))
  {
    var states, acts :| IsRun(states, acts) && s == states[|acts|];
    CloseInvAt(states, acts, |acts|);
    ST.ServerInvHolds(s);
    assert FrameRight(s, h, k);
    assert k in s.rejected ==> Cause(s.svc, s.inLog, k, s.rejected[k]);
    assert HandlerRight(s.svc, s.inLog, s.lastID, s.handlers[h]);
  }

  // ---- when data cannot be queued ----

  /** A data() call of the handler failed only if its context was done, its queue was closed,
      or its queue had been full. */
  ghost predicate FeedErrRight(o: Handler) {
    o.feedErr ==> o.ctxDone || o.remoteClosed || |o.fed| >= o.cap
  }

  ghost predicate FullRight(s: Server) {
    InFeed(s.rp) && s.rp.stage.Full? && s.rp.h < |s.handlers| ==>
      |s.handlers[s.rp.h].fed| >= s.handlers[s.rp.h].cap
  }

  ghost predicate FailInv(s: Server) {
    FullRight(s) && forall h :: 0 <= h < |s.handlers| ==> FeedErrRight(s.handlers[h])
  }

  /** Handlers only gain reasons, and none fails. */
  ghost predicate Gains(o: Handler, o': Handler) {
    && o'.cap == o.cap && |o.fed| <= |o'.fed| && (o'.feedErr ==> o.feedErr)
    && (o.ctxDone ==> o'.ctxDone) && (o.remoteClosed ==> o'.remoteClosed)
  }

  ghost predicate AllGain(s: Server, s': Server) {
    && |s'.handlers| >= |s.handlers|
    && (forall h :: 0 <= h < |s.handlers| ==> Gains(s.handlers[h], s'.handlers[h]))
    && (forall h :: |s.handlers| <= h < |s'.handlers| ==> !s'.handlers[h].feedErr)
  }

  lemma {:induction false} GainsKeep(s: Server, s': Server)
    requires FailInv(s) && AllGain(s, s')
    requires InFeed(s'.rp) && s'.rp.stage.Full? ==> s'.rp == s.rp && s.rp.h < |s.handlers|
    ensures FailInv(s')
  {
    forall h | 0 <= h < |s'.handlers| ensures FeedErrRight(s'.handlers[h]) {
      if h < |s.handlers| {
        assert FeedErrRight(s.handlers[h]) && Gains(s.handlers[h], s'.handlers[h]);
      }
    }
    if InFeed(s'.rp) && s'.rp.stage.Full? {
      assert Gains(s.handlers[s.rp.h], s'.handlers[s.rp.h]);
    }
  }

  lemma {:induction false} FollowGains(s: Server, v: Verdict)
    requires s.inLog != []
    ensures AllGain(s, Follow(s, v))
    ensures var rp := Follow(s, v).rp; InFeed(rp) && rp.stage.Full? ==> v == MoveOn(rp)
  {
  }

  lemma {:induction false} DispatchFails(s: Server)
    requires FailInv(s) && RecvEnabled(s, Dispatch)
    ensures FailInv(Follow(s, Judge(s)))
  {
    FollowGains(s, Judge(s));
    GainsKeep(s, Follow(s, Judge(s)));
  }

  lemma {:induction false} FeedErrFails(s: Server)
    requires FailInv(s) && InFeed(s.rp) && s.rp.h < |s.handlers| && s.inLog != []
    requires FeedEnabled(s.rp, s.handlers[s.rp.h], FeedErr)
    ensures FailInv(FeedApply(s, FeedErr))
  {
    var s', g := FeedApply(s, FeedErr), s.rp.h;
    forall h | 0 <= h < |s'.handlers| ensures FeedErrRight(s'.handlers[h]) {
      assert FeedErrRight(s.handlers[h]);
    }
  }

  lemma {:induction false} FeedWaitFails(s: Server)
    requires FailInv(s) && InFeed(s.rp) && s.rp.h < |s.handlers| && s.inLog != []
    requires FeedEnabled(s.rp, s.handlers[s.rp.h], FeedWait) && QueueRight(s.inLog, s.handlers[s.rp.h])
    ensures FailInv(FeedApply(s, FeedWait))
  {
  }

  lemma {:induction false} FeedFails(s: Server, a: RecvAct)
    requires FailInv(s) && FeedInv(s) && InFeed(s.rp) && s.rp.h < |s.handlers| && s.inLog != []
    requires FeedEnabled(s.rp, s.handlers[s.rp.h], a)
    ensures FailInv(FeedApply(s, a))
  {
    if a.FeedErr? {
      FeedErrFails(s);
    } else if a.FeedWait? {
      assert FeedRight(s, s.rp.h);
      FeedWaitFails(s);
    } else {
      GainsKeep(s, FeedApply(s, a));
    }
  }

  lemma {:induction false} RestFails(s: Server, a: RecvAct)
    requires FailInv(s) && RecvEnabled(s, a) && !a.Dispatch? && !IsFeed(a)
    ensures FailInv(RecvApply(s, a))
  {
    GainsKeep(s, RecvApply(s, a));
  }

  lemma {:induction false} SendFails(s: Server, a: SendAct)
    requires FailInv(s) && ReceiverRight(s) && SendEnabled(s, a)
    ensures FailInv(SendApply(s, a))
  {
    GainsKeep(s, SendApply(s, a));
  }

  lemma {:induction false} HandleFails(s: Server, h: nat, a: HandlerAct)
    requires FailInv(s) && ReceiverRight(s) && h < |s.handlers| && HandleEnabled(s, s.handlers[h], a)
    ensures FailInv(HandleApply(s, h, a))
  {
    GainsKeep(s, HandleApply(s, h, a));
  }

  lemma {:induction false} FailInvStep(s: Server, a: Action)
    requires Enabled(s, a) && FailInv(s) && FeedInv(s) && IdInv(s)
    ensures FailInv(Apply(s, a))
  {
    match a
    case Recv(ra) =>
      if ra.Dispatch? {
        DispatchFails(s);
      } else if IsFeed(ra) {
        FeedFails(s, ra);
      } else {
        RestFails(s, ra);
      }
    case Send(sa) => SendFails(s, sa);
    case Handle(h, ha) => HandleFails(s, h, ha);
    case Shutdown =>
  }

  lemma {:induction false} FailInvAt(states: seq<Server>, acts: seq<Action>, i: nat)
    requires IsRun(states, acts) && i <= |acts|
    ensures FailInv(states[i])
    decreases i
  {
    if i > 0 {
      var j: nat := i - 1;
      FailInvAt(states, acts, j);
      InvsAt(states, acts, j);
      var a := acts[j];
      FailInvStep(states[j], a);
    }
  }

  /** Data is refused only for cause: the handler's context is done, its stream was closed
      before, or its queue of 64 places, or of one without a streaming client, was full. */
  lemma {:induction false} DataFailsForCause(s: Server, h: nat)
    requires Reachable(s) && h < |s.handlers| && s.handlers[h].kind.Stream? && s.handlers[h].feedErr
    ensures var o := s.handlers[h];
            o.ctxDone || o.remoteClosed || |o.fed| >= (if o.kind.info.client then 64 else 1)
  {
    var states, acts :| IsRun(states, acts) && s == states[|acts|];
    FailInvAt(states, acts, |acts|);
    ST.HandlerRegistered(s, h);
    assert FeedErrRight(s.handlers[h]);
  }

  // ---- deleted streams ----

  predicate Stores(s: Server, a: Action, id: StreamID) {
    a == Recv(Store) && s.rp.Storing? && s.rp.h < |s.handlers| && s.handlers[s.rp.h].id == id
  }

  lemma {:induction false} GoneStays(s: Server, a: Action, id: StreamID)
    requires Enabled(s, a) && id !in s.streams && !Stores(s, a, id)
    ensures id !in Apply(s, a).streams
  {
    match a
    case Recv(ra) => RecvTable(s, ra, id);
    case Send(sa) => SendTable(s, sa);
    case Handle(_, _) =>
    case Shutdown =>
  }

  lemma {:induction false} SendTable(s: Server, a: SendAct)
    requires SendEnabled(s, a)
    ensures SendApply(s, a).streams.Keys <= s.streams.Keys
  {
  }

  lemma {:induction false} FollowTable(s: Server, v: Verdict)
    requires s.inLog != []
    ensures Follow(s, v).streams == s.streams
  {
  }

  lemma {:induction false} FeedTable(s: Server, a: RecvAct)
    requires InFeed(s.rp) && s.rp.h < |s.handlers| && FeedEnabled(s.rp, s.handlers[s.rp.h], a) && s.inLog != []
    ensures FeedApply(s, a).streams == s.streams
  {
  }

  lemma {:induction false} RecvTable(s: Server, a: RecvAct, id: StreamID)
    requires RecvEnabled(s, a) && (InFeed(s.rp) ==> s.inLog != []) && id !in s.streams && !Stores(s, Recv(a), id)
    ensures id !in RecvApply(s, a).streams
  {
    if a.Dispatch? {
      FollowTable(s, Judge(s));
    } else if IsFeed(a) {
      FeedTable(s, a);
    }
  }

  /** After the sender loop has deleted a stream, its id is not in the table again unless its
      own handler is stored after that: the race in which a handler answers before it is
      stored. */
  lemma {:induction false} DeletedStays(states: seq<Server>, acts: seq<Action>, j: nat, i: nat)
    requires IsRun(states, acts) && j < i <= |acts| && acts[j] == Send(Delete) && states[j].sp.Deleting?
    requires forall k {:trigger acts[k]} :: j < k < i ==> !Stores(states[k], acts[k], states[j].sp.r.id)
    ensures states[j].sp.r.id !in states[i].streams
    decreases i
  {
    var k: nat := i - 1;
    var a := acts[k];
    if j < k {
      DeletedStays(states, acts, j, k);
      GoneStays(states[k], a, states[j].sp.r.id);
    }
  }
}
