/** Which requests the server accepts, under which ids, and why it rejects a frame. */
module ServerIds {
  import opened Frames
  import opened ServerConn

  /** Receiver phases between frames. */
  predicate AtRest(rp: Receiver) {
    rp.AtTop? || rp.Blocked? || rp.Cut? || rp.Gone?
  }

  predicate OnRequest(rp: Receiver) {
    rp.Starting? || rp.Storing? || rp.Counting?
  }

  predicate OnData(rp: Receiver) {
    rp.Feeding? || rp.Finishing?
  }

  /** A handler stands for one accepted request frame: odd id, known procedure, and a queue of
      the size its client side calls for. */
  ghost predicate HandlerRight(svc: Services, inLog: seq<Frame>, lastID: StreamID, o: Handler) {
    && o.reqAt < |inLog|
    && inLog[o.reqAt].RequestFrame? && inLog[o.reqAt].id == o.id && inLog[o.reqAt].req == o.req
    && Serves(svc, o.req, o.kind)
    && (o.kind.Stream? ==> o.cap == if o.kind.info.client then 64 else 1)
    && o.id % 2 == 1 && o.id <= lastID
  }

  ghost predicate HandlersRight(s: Server) {
    && (forall h :: 0 <= h < |s.handlers| ==> HandlerRight(s.svc, s.inLog, s.lastID, s.handlers[h]))
    && (s.rp.Got? ==> forall h :: 0 <= h < |s.handlers| ==> s.handlers[h].reqAt < |s.inLog| - 1)
  }

  /** Accepted ids strictly increase, so they are never reused. */
  ghost predicate Increasing(hs: seq<Handler>) {
    forall i, j :: 0 <= i < j < |hs| ==> hs[i].id < hs[j].id && hs[i].reqAt < hs[j].reqAt
  }

  lemma {:induction false} SameHandler(hs: seq<Handler>, g: nat, h: nat)
    requires Increasing(hs) && g < |hs| && h < |hs|
    ensures hs[g].id == hs[h].id ==> g == h
  {
  }

  ghost predicate StreamsRight(s: Server) {
    forall id :: id in s.streams ==> s.streams[id] < |s.handlers| && s.handlers[s.streams[id]].id == id
  }

  ghost predicate ReceiverRight(s: Server) {
    && (!AtRest(s.rp) ==> s.inLog != [])
    && (OnRequest(s.rp) ==> s.rp.h == |s.handlers| - 1 && s.rp.h >= 0 && s.handlers[s.rp.h].reqAt == |s.inLog| - 1)
    && (OnData(s.rp) ==>
          && s.rp.h < |s.handlers| && Last(s).DataFrame?
          && s.handlers[s.rp.h].id == Last(s).id
          && s.handlers[s.rp.h].kind.Stream?
          && s.handlers[s.rp.h].reqAt < |s.inLog| - 1)
    && (s.rp.Feeding? ==> !Last(s).flags.noData)
    && (s.rp.Starting? ==> HasInitial(s.handlers[s.rp.h].kind, s.handlers[s.rp.h].req))
  }

  /** The frames whose id the receiver has already compared with lastID. */
  ghost function Seen(s: Server): int {
    if s.rp.Got? then |s.inLog| - 1 else |s.inLog|
  }

  ghost predicate LastRight(s: Server) {
    || s.lastID == 0
    || exists j :: 0 <= j < Seen(s) && j < |s.inLog| && s.inLog[j].OpensStream() && s.inLog[j].id == s.lastID
  }

  /** What a rejection reason says about the frame it rejects. */
  ghost predicate Cause(svc: Services, inLog: seq<Frame>, k: nat, reason: Reason)
    requires k < |inLog|
  {
    var f := inLog[k];
    match reason
    case MustBeOdd => f.id % 2 == 0
    case NotActive => f.DataFrame?
    case DataError => f.DataFrame?
    case CloseWithData => f.DataFrame? && f.flags.remoteClosed && f.data != []
    case MustIncrement => f.OpensStream() && exists j :: 0 <= j < k && inLog[j].OpensStream() && inLog[j].id >= f.id
    case BadBody => f.BadRequestFrame?
    case Unimplemented => f.RequestFrame? && Unknown(svc, f.req)
    case StartError => f.RequestFrame? && NamesStream(svc, f.req)
    case OverLimit => f.TooLong?
  }

  ghost predicate RejectsRight(s: Server) {
    && (forall k :: k in s.rejected ==> k < |s.inLog| && Cause(s.svc, s.inLog, k, s.rejected[k]))
    && (s.rp.Got? || OnRequest(s.rp) || OnData(s.rp) ==> |s.inLog| - 1 !in s.rejected)
    && (s.rp.Rejecting? ==> |s.inLog| - 1 in s.rejected && s.rejected[|s.inLog| - 1] == s.rp.reason)
    && (forall h :: 0 <= h < |s.handlers| && s.handlers[h].reqAt in s.rejected ==>
          s.rejected[s.handlers[h].reqAt] == StartError)
  }

  ghost predicate IdInv(s: Server) {
    && HandlersRight(s) && Increasing(s.handlers) && StreamsRight(s) && ReceiverRight(s) && LastRight(s)
    && RejectsRight(s)
  }

  predicate SameRequest(o: Handler, o': Handler) {
    o.id == o'.id && o.kind == o'.kind && o.reqAt == o'.reqAt && o.req == o'.req && o.cap == o'.cap
  }

  /** The receiver goes to rest or on with the same handler. */
  predicate WorksOn(rp: Receiver, rp': Receiver) {
    || rp' == rp || AtRest(rp')
    || (InFeed(rp) && (rp' == AfterFeed(rp) || exists st :: rp' == WithStage(rp, st)))
    || (rp.Storing? && rp' == Counting(rp.h))
  }

  ghost predicate Quiet(s: Server, s': Server) {
    && s'.svc == s.svc && s'.inLog == s.inLog && s'.rejected == s.rejected && s'.lastID == s.lastID
    && |s'.handlers| == |s.handlers|
    && (forall h :: 0 <= h < |s.handlers| ==> SameRequest(s.handlers[h], s'.handlers[h]))
    && WorksOn(s.rp, s'.rp) && (s'.rp.Got? ==> s.rp.Got?) && (s.rp.Got? ==> s'.rp.Got?)
    && (forall id :: id in s'.streams ==>
          (id in s.streams && s'.streams[id] == s.streams[id])
          || (s'.streams[id] < |s.handlers| && s.handlers[s'.streams[id]].id == id))
  }

  lemma {:induction false} QuietKeeps(s: Server, s': Server)
    requires IdInv(s) && Quiet(s, s')
    ensures IdInv(s')
  {
    forall h | 0 <= h < |s.handlers| ensures SameRequest(s.handlers[h], s'.handlers[h]) {
    }
    assert HandlersRight(s') && Increasing(s'.handlers) && LastRight(s');
    assert ReceiverRight(s');
    assert StreamsRight(s') && RejectsRight(s');
  }

  lemma {:induction false} ReadKeeps(s: Server, f: Frame)
    requires IdInv(s) && s.rp.Blocked?
    ensures IdInv(RecvApply(s, Read(f)))
  {
    var s' := RecvApply(s, Read(f));
    forall k | k in s'.rejected ensures Cause(s'.svc, s'.inLog, k, s'.rejected[k]) {
      assert Cause(s.svc, s.inLog, k, s.rejected[k]);
      if s.rejected[k].MustIncrement? {
        var j :| 0 <= j < k && s.inLog[j].OpensStream() && s.inLog[j].id >= s.inLog[k].id;
        assert s'.inLog[j] == s.inLog[j];
      }
    }
    forall h | 0 <= h < |s'.handlers| ensures HandlerRight(s'.svc, s'.inLog, s'.lastID, s'.handlers[h]) {
      assert HandlerRight(s.svc, s.inLog, s.lastID, s.handlers[h]);
    }
    if s.lastID != 0 {
      var j :| 0 <= j < Seen(s) && j < |s.inLog| && s.inLog[j].OpensStream() && s.inLog[j].id == s.lastID;
      assert s'.inLog[j] == s.inLog[j];
    }
  }

  /** The frame at hand is rejected, and perhaps a handler has changed beside its request. */
  ghost predicate Rejects(s: Server, s': Server, reason: Reason) {
    && s'.svc == s.svc && s'.inLog == s.inLog && s'.streams == s.streams && s.inLog != []
    && |s'.handlers| == |s.handlers|
    && (forall h :: 0 <= h < |s.handlers| ==> SameRequest(s.handlers[h], s'.handlers[h]))
    && s'.rp == Rejecting(reason) && s'.rejected == s.rejected[|s.inLog| - 1 := reason]
  }

  lemma {:induction false} RejectsKeepsParts(s: Server, s': Server, reason: Reason)
    requires IdInv(s) && Rejects(s, s', reason) && s'.lastID >= s.lastID
    ensures HandlersRight(s') && Increasing(s'.handlers) && StreamsRight(s') && ReceiverRight(s')
  {
    forall h | 0 <= h < |s.handlers| ensures HandlerRight(s'.svc, s'.inLog, s'.lastID, s'.handlers[h]) {
      assert HandlerRight(s.svc, s.inLog, s.lastID, s.handlers[h]) && SameRequest(s.handlers[h], s'.handlers[h]);
    }
  }

  lemma {:induction false} RejectsKeepsRejects(s: Server, s': Server, reason: Reason)
    requires IdInv(s) && Rejects(s, s', reason)
    requires s.rp.Got? || s.rp.Starting? || OnData(s.rp)
    requires Cause(s.svc, s.inLog, |s.inLog| - 1, reason) && (s.rp.Starting? ==> reason == StartError)
    ensures RejectsRight(s')
  {
    forall h: nat | h < |s'.handlers| && s'.handlers[h].reqAt in s'.rejected
      ensures s'.rejected[s'.handlers[h].reqAt] == StartError
    {
      StartErrorOnly(s, s', reason, h);
    }
  }

  lemma {:induction false} StartErrorOnly(s: Server, s': Server, reason: Reason, h: nat)
    requires IdInv(s) && Rejects(s, s', reason) && h < |s'.handlers| && s'.handlers[h].reqAt in s'.rejected
    requires s.rp.Got? || s.rp.Starting? || OnData(s.rp)
    requires s.rp.Starting? ==> reason == StartError
    requires OnData(s.rp) ==> Cause(s.svc, s.inLog, |s.inLog| - 1, reason)
    ensures s'.rejected[s'.handlers[h].reqAt] == StartError
  {
    assert SameRequest(s.handlers[h], s'.handlers[h]);
    assert HandlerRight(s.svc, s.inLog, s.lastID, s.handlers[h]);
  }

  /** Rejecting the frame at hand, whichever check failed. */
  lemma {:induction false} RejectsKeeps(s: Server, s': Server, reason: Reason)
    requires IdInv(s) && Rejects(s, s', reason) && s'.lastID == s.lastID
    requires s.rp.Got? || s.rp.Starting? || OnData(s.rp)
    requires Cause(s.svc, s.inLog, |s.inLog| - 1, reason) && (s.rp.Starting? ==> reason == StartError)
    ensures IdInv(s')
  {
    RejectsKeepsParts(s, s', reason);
    RejectsKeepsRejects(s, s', reason);
    assert Seen(s) <= Seen(s');
  }

  /** Rejecting a request under a new id, which lastStreamID then remembers. */
  lemma {:induction false} NewIdKeeps(s: Server, s': Server, reason: Reason)
    requires IdInv(s) && s.rp.Got? && Rejects(s, s', reason)
    requires Last(s).OpensStream() && s'.lastID == Last(s).id > s.lastID
    requires Cause(s.svc, s.inLog, |s.inLog| - 1, reason)
    ensures IdInv(s')
  {
    RejectsKeepsParts(s, s', reason);
    RejectsKeepsRejects(s, s', reason);
    assert s'.inLog[|s.inLog| - 1].OpensStream();
  }

  lemma {:induction false} NewIdOpens(s: Server, reason: Reason)
    requires IdInv(s) && s.rp.Got? && Last(s).OpensStream() && Last(s).id > s.lastID
    requires Cause(s.svc, s.inLog, |s.inLog| - 1, reason)
    ensures IdInv(Reject(s.(lastID := Last(s).id), reason))
  {
    NewIdKeeps(s, Reject(s.(lastID := Last(s).id), reason), reason);
  }

  /** A request that passes every check starts a handler under a new, larger id. */
  lemma {:induction false} StartKeeps(s: Server, kind: Kind)
    requires IdInv(s) && s.rp.Got? && Last(s).RequestFrame? && Last(s).id > s.lastID && Last(s).id % 2 == 1
    requires Resolve(s.svc, Last(s).req) == Some(kind)
    ensures IdInv(Start(s.(lastID := Last(s).id), Last(s).id, kind, Last(s).req))
  {
    var k := |s.inLog| - 1;
    var s1 := s.(lastID := Last(s).id);
    var s' := Start(s1, Last(s).id, kind, Last(s).req);
    assert s'.handlers == s.handlers + [NewHandler(s1, Last(s).id, kind, Last(s).req)];
    forall h | 0 <= h < |s'.handlers| ensures HandlerRight(s'.svc, s'.inLog, s'.lastID, s'.handlers[h]) {
      if h < |s.handlers| {
        assert HandlerRight(s.svc, s.inLog, s.lastID, s.handlers[h]);
      }
    }
    forall h | 0 <= h < |s.handlers| ensures s'.handlers[h] == s.handlers[h] && s.handlers[h].id <= s.lastID {
      assert HandlerRight(s.svc, s.inLog, s.lastID, s.handlers[h]);
    }
    assert s'.inLog[k].OpensStream();
    assert Increasing(s'.handlers);
    assert LastRight(s') && ReceiverRight(s');
    assert StreamsRight(s') && RejectsRight(s');
  }

  /** Looking up the handler of a data frame. */
  lemma {:induction false} LookupKeeps(s: Server, rp': Receiver)
    requires IdInv(s) && s.rp.Got? && Last(s).DataFrame? && Last(s).id in s.streams && !NilHandler(s, Last(s).id)
    requires rp' == Finishing(s.streams[Last(s).id])
             || (rp' == Feeding(s.streams[Last(s).id], Check) && !Last(s).flags.noData)
    ensures IdInv(s.(rp := rp'))
  {
    var s' := s.(rp := rp');
    assert HandlersRight(s') && StreamsRight(s') && LastRight(s') && RejectsRight(s');
  }

  lemma {:induction false} IgnoreKeeps(s: Server)
    requires IdInv(s) && s.rp.Got?
    ensures IdInv(s.(rp := AtTop)) || Last(s).OpensStream()
  {
    var s' := s.(rp := AtTop);
    assert HandlersRight(s') && StreamsRight(s') && ReceiverRight(s') && RejectsRight(s');
    assert LastRight(s');
  }

  lemma {:induction false} RejectHereKeeps(s: Server, reason: Reason)
    requires IdInv(s) && s.rp.Got? && Judge(s) == TurnDown(s.lastID, reason)
    ensures IdInv(Follow(s, Judge(s)))
  {
    if reason == MustIncrement {
      var j :| 0 <= j < Seen(s) && j < |s.inLog| && s.inLog[j].OpensStream() && s.inLog[j].id == s.lastID;
      assert s.inLog[j].id >= Last(s).id;
    }
    assert Cause(s.svc, s.inLog, |s.inLog| - 1, reason);
    RejectsKeeps(s, Follow(s, Judge(s)), reason);
  }

  lemma {:induction false} DispatchKeeps(s: Server)
    requires IdInv(s) && RecvEnabled(s, Dispatch)
    ensures IdInv(Follow(s, Judge(s)))
  {
    match Judge(s)
    case TurnDown(id, reason) =>
      if id == s.lastID {
        RejectHereKeeps(s, reason);
      } else {
        NewIdOpens(s, reason);
      }
    case MoveOn(rp) =>
      if rp == AtTop {
        IgnoreKeeps(s);
      } else {
        LookupKeeps(s, rp);
      }
    case Begin(kind, _) => StartKeeps(s, kind);
  }

  lemma {:induction false} FeedIsQuiet(s: Server, a: RecvAct)
    requires InFeed(s.rp) && s.rp.h < |s.handlers| && FeedEnabled(s.rp, s.handlers[s.rp.h], a) && s.inLog != []
    requires !a.FeedErr?
    ensures Quiet(s, FeedApply(s, a))
  {
  }

  lemma {:induction false} FeedErrRejects(s: Server)
    requires InFeed(s.rp) && s.rp.h < |s.handlers| && FeedEnabled(s.rp, s.handlers[s.rp.h], FeedErr) && s.inLog != []
    ensures Rejects(s, FeedApply(s, FeedErr), if s.rp.Starting? then StartError else DataError)
    ensures FeedApply(s, FeedErr).lastID == s.lastID
  {
  }

  lemma {:induction false} FeedErrKeeps(s: Server)
    requires IdInv(s) && InFeed(s.rp) && s.rp.h < |s.handlers| && FeedEnabled(s.rp, s.handlers[s.rp.h], FeedErr)
    ensures IdInv(FeedApply(s, FeedErr))
  {
    assert HandlerRight(s.svc, s.inLog, s.lastID, s.handlers[s.rp.h]);
    FeedErrRejects(s);
    RejectsKeeps(s, FeedApply(s, FeedErr), if s.rp.Starting? then StartError else DataError);
  }

  lemma {:induction false} FeedKeeps(s: Server, a: RecvAct)
    requires IdInv(s) && InFeed(s.rp) && s.rp.h < |s.handlers| && FeedEnabled(s.rp, s.handlers[s.rp.h], a)
    ensures IdInv(FeedApply(s, a))
  {
    if a.FeedErr? {
      FeedErrKeeps(s);
    } else {
      FeedIsQuiet(s, a);
      QuietKeeps(s, FeedApply(s, a));
    }
  }

  lemma {:induction false} FinishRejects(s: Server)
    requires RecvEnabled(s, Finish) && Last(s).flags.remoteClosed && |Last(s).data| > 0
    ensures Rejects(s, FinishApply(s), CloseWithData) && FinishApply(s).lastID == s.lastID
  {
  }

  lemma {:induction false} FinishBadKeeps(s: Server)
    requires IdInv(s) && RecvEnabled(s, Finish) && Last(s).flags.remoteClosed && |Last(s).data| > 0
    ensures IdInv(FinishApply(s))
  {
    FinishRejects(s);
    RejectsKeeps(s, FinishApply(s), CloseWithData);
  }

  lemma {:induction false} FinishIsQuiet(s: Server)
    requires RecvEnabled(s, Finish) && !(Last(s).flags.remoteClosed && |Last(s).data| > 0)
    ensures Quiet(s, FinishApply(s))
  {
  }

  lemma {:induction false} FinishKeeps(s: Server)
    requires IdInv(s) && RecvEnabled(s, Finish)
    ensures IdInv(FinishApply(s))
  {
    if Last(s).flags.remoteClosed && |Last(s).data| > 0 {
      FinishBadKeeps(s);
    } else {
      FinishIsQuiet(s);
      QuietKeeps(s, FinishApply(s));
    }
  }

  predicate IsFeed(a: RecvAct) {
    a.FeedCheck? || a.Feed? || a.FeedWait? || a.FeedErr?
  }

  lemma {:induction false} QuietRecv(s: Server, a: RecvAct)
    requires RecvEnabled(s, a) && !a.Read? && !a.Dispatch? && !a.Finish? && !IsFeed(a)
    ensures Quiet(s, RecvApply(s, a))
  {
  }

  lemma {:induction false} RecvKeeps(s: Server, a: RecvAct)
    requires IdInv(s) && RecvEnabled(s, a)
    ensures IdInv(RecvApply(s, a))
  {
    if a.Read? {
      ReadKeeps(s, a.f);
    } else if a.Dispatch? {
      DispatchKeeps(s);
    } else if a.Finish? {
      FinishKeeps(s);
    } else if IsFeed(a) {
      FeedKeeps(s, a);
    } else {
      QuietRecv(s, a);
      QuietKeeps(s, RecvApply(s, a));
    }
  }

  lemma {:induction false} SendIsQuiet(s: Server, a: SendAct)
    requires SendEnabled(s, a)
    ensures Quiet(s, SendApply(s, a))
  {
  }

  lemma {:induction false} IdInvStep(s: Server, a: Action)
    requires IdInv(s) && Enabled(s, a)
    ensures IdInv(Apply(s, a))
  {
    match a
    case Recv(ra) => RecvKeeps(s, ra);
    case Send(sa) =>
      SendIsQuiet(s, sa);
      QuietKeeps(s, SendApply(s, sa));
    case Handle(h, ha) => QuietKeeps(s, HandleApply(s, h, ha));
    case Shutdown => QuietKeeps(s, Apply(s, a));
  }
}
