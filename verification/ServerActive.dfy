/** The `active` counter that decides between the active and the idle state. */
module ServerActive {
  import opened Frames
  import opened ServerConn
  import opened ServerIds
  import opened ServerAnswers

  function One(b: bool): nat {
    if b then 1 else 0
  }

  ghost function CountAnswered(hs: seq<Handler>): nat {
    if hs == [] then 0 else CountAnswered(hs[..|hs| - 1]) + One(hs[|hs| - 1].phase.Answered?)
  }

  lemma {:induction false} CountUpdate(hs: seq<Handler>, h: nat, o: Handler)
    requires h < |hs|
    ensures CountAnswered(hs[h := o]) + One(hs[h].phase.Answered?) == CountAnswered(hs) + One(o.phase.Answered?)
  {
    var k := |hs| - 1;
    if h < k {
      CountUpdate(hs[..k], h, o);
      assert hs[h := o][..k] == hs[..k][h := o];
    } else {
      assert hs[h := o][..k] == hs[..k];
    }
  }

  lemma CountSnoc(hs: seq<Handler>, o: Handler)
    ensures CountAnswered(hs + [o]) == CountAnswered(hs) + One(o.phase.Answered?)
  {
    assert (hs + [o])[..|hs|] == hs;
  }

  lemma {:induction false} CountSame(hs: seq<Handler>, hs': seq<Handler>)
    requires |hs| == |hs'| && forall i :: 0 <= i < |hs| ==> hs[i].phase.Answered? == hs'[i].phase.Answered?
    ensures CountAnswered(hs) == CountAnswered(hs')
  {
    if hs != [] {
      CountSame(hs[..|hs| - 1], hs'[..|hs| - 1]);
    }
  }

  lemma {:induction false} CountBound(hs: seq<Handler>)
    ensures CountAnswered(hs) <= |hs|
    ensures CountAnswered(hs) == |hs| <==> forall i :: 0 <= i < |hs| ==> hs[i].phase.Answered?
  {
    if hs != [] {
      CountBound(hs[..|hs| - 1]);
    }
  }

  /** Closing responses taken, and those among them that are rejections. */
  ghost function Closings(acc: seq<Resp>): nat {
    if acc == [] then 0 else Closings(acc[..|acc| - 1]) + One(acc[|acc| - 1].closeStream)
  }

  ghost function Rejections(acc: seq<Resp>): nat {
    if acc == [] then 0 else Rejections(acc[..|acc| - 1]) + One(acc[|acc| - 1].origin.FromFrame?)
  }

  lemma ClosingsSnoc(acc: seq<Resp>, r: Resp)
    ensures Closings(acc + [r]) == Closings(acc) + One(r.closeStream)
    ensures Rejections(acc + [r]) == Rejections(acc) + One(r.origin.FromFrame?)
  {
    assert (acc + [r])[..|acc|] == acc;
  }

  lemma {:induction false} NoRejections(acc: seq<Resp>)
    requires forall i :: 0 <= i < |acc| ==> acc[i].origin.FromHandler?
    ensures Rejections(acc) == 0
  {
    if acc != [] {
      NoRejections(acc[..|acc| - 1]);
    }
  }

  /** A closing response has been taken and not yet subtracted. */
  predicate Owing(sp: Sender) {
    (sp.Writing? && sp.r.closeStream) || sp.Deleting? || sp.Subtracting?
  }

  predicate Over(sp: Sender) {
    sp.Leaving? || sp.Left? || sp.Closed?
  }

  ghost predicate AnyRejected(rejected: map<nat, Reason>) {
    exists k :: k in rejected
  }

  ghost predicate ActiveInv(s: Server) {
    && s.active == s.adds - s.decs
    && |s.handlers| == s.adds + s.startFails + One(OnRequest(s.rp))
    && Closings(s.acc) == CountAnswered(s.handlers) + Rejections(s.acc)
    && (!Over(s.sp) ==> Closings(s.acc) == s.decs + One(Owing(s.sp)))
    && s.decs <= Closings(s.acc)
    && (s.startFails > 0 ==> AnyRejected(s.rejected))
    && (s.sp.Deleting? ==> s.sp.r.closeStream)
  }

  /** The bookkeeping of a receiver step. */
  ghost predicate CountsRequests(s: Server, s': Server) {
    && s'.acc == s.acc && s'.sp == s.sp && s'.decs == s.decs
    && s'.active - s'.adds == s.active - s.adds
    && |s'.handlers| - s'.adds - s'.startFails - One(OnRequest(s'.rp))
       == |s.handlers| - s.adds - s.startFails - One(OnRequest(s.rp))
    && (AnyRejected(s.rejected) ==> AnyRejected(s'.rejected))
    && (s'.startFails > s.startFails ==> AnyRejected(s'.rejected))
    && CountAnswered(s'.handlers) == CountAnswered(s.handlers)
  }

  lemma {:induction false} DispatchCounts(s: Server, v: Verdict)
    requires s.rp.Got? && s.inLog != [] && v == Judge(s)
    ensures CountsRequests(s, Follow(s, v))
  {
    match v
    case TurnDown(_, _) => assert |s.inLog| - 1 in Follow(s, v).rejected;
    case MoveOn(_) =>
    case Begin(kind, req) => CountSnoc(s.handlers, NewHandler(s.(lastID := Last(s).id), Last(s).id, kind, req));
  }

  lemma {:induction false} FeedErrCounts(s: Server)
    requires InFeed(s.rp) && s.rp.h < |s.handlers| && FeedEnabled(s.rp, s.handlers[s.rp.h], FeedErr) && s.inLog != []
    ensures CountsRequests(s, FeedApply(s, FeedErr))
  {
    var h := s.rp.h;
    var s' := FeedApply(s, FeedErr);
    CountUpdate(s.handlers, h, s.handlers[h].(feedErr := true));
    assert |s.inLog| - 1 in s'.rejected;
  }

  lemma {:induction false} FeedCounts(s: Server, a: RecvAct)
    requires InFeed(s.rp) && s.rp.h < |s.handlers| && FeedEnabled(s.rp, s.handlers[s.rp.h], a) && s.inLog != []
    requires !a.FeedErr?
    ensures CountsRequests(s, FeedApply(s, a))
  {
    var h := s.rp.h;
    if a.Feed? {
      CountUpdate(s.handlers, h, Queued(s.handlers[h], FeedData(s, s.handlers[h])));
    }
  }

  lemma {:induction false} RejectCounts(s: Server, reason: Reason)
    requires s.inLog != [] && !OnRequest(s.rp)
    ensures CountsRequests(s, Reject(s, reason))
  {
    assert |s.inLog| - 1 in Reject(s, reason).rejected;
  }

  lemma {:induction false} FinishCountsHandlers(s: Server)
    requires RecvEnabled(s, Finish)
    ensures CountAnswered(FinishApply(s).handlers) == CountAnswered(s.handlers)
  {
    CountSame(s.handlers, FinishApply(s).handlers);
  }

  lemma {:induction false} FinishCounts(s: Server)
    requires RecvEnabled(s, Finish)
    ensures CountsRequests(s, FinishApply(s))
  {
    FinishCountsHandlers(s);
    RejectCounts(s, CloseWithData);
  }

  lemma {:induction false} RecvCounts(s: Server, a: RecvAct)
    requires RecvEnabled(s, a) && (InFeed(s.rp) ==> s.inLog != [])
    ensures CountsRequests(s, RecvApply(s, a))
  {
    match a
    case Dispatch => DispatchCounts(s, Judge(s));
    case Finish => FinishCounts(s);
    case FeedCheck => FeedCounts(s, a);
    case Feed => FeedCounts(s, a);
    case FeedWait => FeedCounts(s, a);
    case FeedErr => FeedErrCounts(s);
    case _ =>
  }

  lemma {:induction false} OfferCloses(h: nat, o: Handler)
    requires CanAccept(o)
    ensures Offered(h, o).closeStream <==> Accepted(o).phase.Answered?
    ensures Offered(h, o).origin == FromHandler(h) && !o.phase.Answered?
  {
  }

  /** The sender loop takes `r`, by which `answered` more handlers are answered. */
  lemma {:induction false} TakeCounts(s: Server, s': Server, r: Resp)
    requires ActiveInv(s) && s.sp.Selecting?
    requires s'.sp == Writing(r) && s'.acc == s.acc + [r]
    requires s'.active == s.active && s'.adds == s.adds && s'.decs == s.decs && s'.startFails == s.startFails
    requires s'.rejected == s.rejected && |s'.handlers| == |s.handlers| && OnRequest(s'.rp) == OnRequest(s.rp)
    requires CountAnswered(s'.handlers) + One(r.origin.FromFrame?) == CountAnswered(s.handlers) + One(r.closeStream)
    ensures ActiveInv(s')
  {
    ClosingsSnoc(s.acc, r);
  }

  lemma {:induction false} AcceptCounts(s: Server, h: nat)
    requires SendEnabled(s, Accept(h)) && ActiveInv(s)
    ensures ActiveInv(SendApply(s, Accept(h)))
  {
    var o := s.handlers[h];
    OfferCloses(h, o);
    CountUpdate(s.handlers, h, Accepted(o));
    TakeCounts(s, SendApply(s, Accept(h)), Offered(h, o));
  }

  lemma {:induction false} AcceptRejectCounts(s: Server)
    requires SendEnabled(s, AcceptReject) && ActiveInv(s)
    ensures ActiveInv(SendApply(s, AcceptReject))
  {
    TakeCounts(s, SendApply(s, AcceptReject), RejectResp(|s.inLog| - 1, Last(s).id, s.rp.reason));
  }

  /** The sender loop moves without taking a response; it may pay what it owes. */
  lemma {:induction false} MoveCounts(s: Server, s': Server)
    requires ActiveInv(s) && s'.acc == s.acc && s'.handlers == s.handlers && s'.rejected == s.rejected
    requires s'.adds == s.adds && s'.startFails == s.startFails && s'.rp == s.rp
    requires s'.active == s.active - (s'.decs - s.decs) && s.decs <= s'.decs
    requires Over(s'.sp) || !Over(s.sp)
    requires s'.decs + One(!Over(s'.sp) && Owing(s'.sp)) == s.decs + One(Owing(s.sp))
             || (Over(s'.sp) && s'.decs == s.decs)
    requires s'.sp.Deleting? ==> s'.sp.r.closeStream
    ensures ActiveInv(s')
  {
  }

  lemma {:induction false} PayCounts(s: Server, a: SendAct)
    requires SendEnabled(s, a) && ActiveInv(s) && (a.Write? || a.Delete? || a.Subtract?)
    ensures ActiveInv(SendApply(s, a))
  {
    match a
    case Write => MoveCounts(s, SendApply(s, Write));
    case Delete => MoveCounts(s, SendApply(s, Delete));
    case Subtract => MoveCounts(s, SendApply(s, Subtract));
  }

  lemma {:induction false} LoopCounts(s: Server, a: SendAct)
    requires SendEnabled(s, a) && ActiveInv(s)
    requires a.Load? || a.WriteFail? || a.SeeErr? || a.SeeShutdown? || a.CloseDone? || a.CloseConn?
    ensures ActiveInv(SendApply(s, a))
  {
    match a
    case Load => MoveCounts(s, SendApply(s, Load));
    case SeeErr => MoveCounts(s, SendApply(s, SeeErr));
    case WriteFail => MoveCounts(s, SendApply(s, WriteFail));
    case SeeShutdown => MoveCounts(s, SendApply(s, SeeShutdown));
    case CloseDone => MoveCounts(s, SendApply(s, CloseDone));
    case CloseConn => MoveCounts(s, SendApply(s, CloseConn));
  }

  lemma {:induction false} SendCounts(s: Server, a: SendAct)
    requires SendEnabled(s, a) && ActiveInv(s)
    ensures ActiveInv(SendApply(s, a))
  {
    if a.Accept? {
      AcceptCounts(s, a.h);
    } else if a.AcceptReject? {
      AcceptRejectCounts(s);
    } else if a.Write? || a.Delete? || a.Subtract? {
      PayCounts(s, a);
    } else {
      LoopCounts(s, a);
    }
  }

  lemma {:induction false} HandleCounts(s: Server, h: nat, a: HandlerAct)
    requires h < |s.handlers| && HandleEnabled(s, s.handlers[h], a) && ActiveInv(s)
    ensures ActiveInv(HandleApply(s, h, a))
  {
    CountUpdate(s.handlers, h, HandleNext(s.handlers[h], a));
  }

  lemma {:induction false} ActiveInvStep(s: Server, a: Action)
    requires Enabled(s, a) && ActiveInv(s)
    ensures ActiveInv(Apply(s, a))
  {
    match a
    case Recv(ra) => RecvCounts(s, ra);
    case Send(sa) => SendCounts(s, sa);
    case Handle(h, ha) => HandleCounts(s, h, ha);
    case Shutdown =>
  }
}
