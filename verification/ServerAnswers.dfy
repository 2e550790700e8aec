/** Which responses the sender loop takes and writes, and in what order. */
module ServerAnswers {
  import opened Frames
  import opened ServerConn
  import opened ServerIds

  /** The responses of one origin, in the order they were taken. */
  ghost function By(acc: seq<Resp>, o: Origin): seq<Resp> {
    if acc == [] then []
    else
      var last := acc[|acc| - 1];
      var front := By(acc[..|acc| - 1], o);
      if last.origin == o then front + [last] else front
  }

  lemma BySnoc(acc: seq<Resp>, r: Resp, o: Origin)
    ensures By(acc + [r], o) == By(acc, o) + (if r.origin == o then [r] else [])
  {
    assert (acc + [r])[..|acc|] == acc;
  }

  lemma {:induction false} ByNone(acc: seq<Resp>, o: Origin)
    requires forall i :: 0 <= i < |acc| ==> acc[i].origin != o
    ensures By(acc, o) == []
  {
    if acc != [] {
      ByNone(acc[..|acc| - 1], o);
    }
  }

  lemma {:induction false} ByHas(acc: seq<Resp>, o: Origin, i: nat)
    requires i < |acc| && acc[i].origin == o
    ensures acc[i] in By(acc, o)
  {
    if i < |acc| - 1 {
      ByHas(acc[..|acc| - 1], o, i);
    }
  }

  ghost function MessageResps(h: nat, o: Handler): seq<Resp> {
    seq(|o.sent|, i requires 0 <= i < |o.sent| => MessageResp(h, o, o.sent[i]))
  }

  /** Everything the sender loop takes from a handler: its messages and then, once, its result. */
  ghost function Answers(h: nat, o: Handler): seq<Resp> {
    MessageResps(h, o) + (if o.phase.Answered? && o.final.Some? then [FinalResp(h, o)] else [])
  }

  ghost predicate Shaped(o: Handler) {
    && (o.kind.Method? ==> o.sent == [] && !o.phase.Sending?)
    && (o.phase.Returning? || o.phase.Answered? || o.phase.Dropped? <==> o.final.Some?)
    && (o.final.Some? ==> CanReturn(o.kind, o.final.value.0, o.final.value.1))
  }

  ghost predicate EntryRight(s: Server, r: Resp) {
    match r.origin
    case FromHandler(h) => h < |s.handlers| && r.id == s.handlers[h].id
    case FromFrame(k) => k < |s.inLog| && k in s.rejected && r == RejectResp(k, s.inLog[k].id, s.rejected[k])
  }

  /** The frame at hand has not been answered by a rejection. */
  ghost predicate LastUnanswered(s: Server) {
    !AtRest(s.rp) && s.inLog != [] ==> By(s.acc, FromFrame(|s.inLog| - 1)) == []
  }

  ghost predicate HandlersAnswered(s: Server) {
    forall h :: 0 <= h < |s.handlers| ==>
      Shaped(s.handlers[h]) && By(s.acc, FromHandler(h)) == Answers(h, s.handlers[h])
  }

  ghost predicate EntriesRight(s: Server) {
    && (forall i :: 0 <= i < |s.acc| ==> EntryRight(s, s.acc[i]))
    && (forall k: nat :: |By(s.acc, FromFrame(k))| <= 1)
  }

  ghost predicate OutRight(s: Server) {
    && s.out <= s.acc
    && (s.sp.Writing? ==> s.acc == s.out + [s.sp.r])
    && (s.sp.Loading? || s.sp.Selecting? || s.sp.Deleting? || s.sp.Subtracting? ==> s.acc == s.out)
    && (s.sp.Deleting? ==> s.acc != [] && s.acc[|s.acc| - 1] == s.sp.r)
  }

  ghost predicate AnswerInv(s: Server) {
    HandlersAnswered(s) && EntriesRight(s) && LastUnanswered(s) && OutRight(s)
  }

  /** Two states of one handler with the same responses taken. */
  ghost predicate SameAnswers(o: Handler, o': Handler) {
    && o.id == o'.id && o.kind == o'.kind && o.sent == o'.sent
    && (o.phase.Answered? <==> o'.phase.Answered?)
    && (o.final.Some? ==> o'.final == o.final)
  }

  /** A step by which the sender loop takes no response. */
  ghost predicate NoneTaken(s: Server, s': Server) {
    && s'.acc == s.acc
    && |s.handlers| <= |s'.handlers|
    && (forall h :: 0 <= h < |s.handlers| ==> SameAnswers(s.handlers[h], s'.handlers[h]) && Shaped(s'.handlers[h]))
    && (forall h :: |s.handlers| <= h < |s'.handlers| ==>
          Shaped(s'.handlers[h]) && s'.handlers[h].sent == [] && !s'.handlers[h].phase.Answered?)
    && s.inLog <= s'.inLog
    && (forall k :: k in s.rejected ==> k in s'.rejected && s'.rejected[k] == s.rejected[k])
    && (AtRest(s'.rp) || (!AtRest(s.rp) && s'.inLog == s.inLog) || |s'.inLog| == |s.inLog| + 1)
  }

  lemma {:induction false} NoneTakenKeeps(s: Server, s': Server)
    requires AnswerInv(s) && NoneTaken(s, s') && OutRight(s')
    ensures AnswerInv(s')
  {
    forall h: nat | h < |s'.handlers| ensures By(s'.acc, FromHandler(h)) == Answers(h, s'.handlers[h]) {
      if h < |s.handlers| {
        assert SameAnswers(s.handlers[h], s'.handlers[h]);
        assert MessageResps(h, s.handlers[h]) == MessageResps(h, s'.handlers[h]);
      } else {
        forall i | 0 <= i < |s.acc| ensures s.acc[i].origin != FromHandler(h) {
          assert EntryRight(s, s.acc[i]);
        }
        ByNone(s.acc, FromHandler(h));
      }
    }
    forall i | 0 <= i < |s'.acc| ensures EntryRight(s', s'.acc[i]) {
      assert EntryRight(s, s.acc[i]);
    }
    if !AtRest(s'.rp) && |s'.inLog| == |s.inLog| + 1 {
      var k := |s.inLog|;
      forall i | 0 <= i < |s.acc| ensures s.acc[i].origin != FromFrame(k) {
        assert EntryRight(s, s.acc[i]);
      }
      ByNone(s.acc, FromFrame(k));
    }
  }

  lemma {:induction false} HandleTakesNone(s: Server, h: nat, a: HandlerAct)
    requires h < |s.handlers| && HandleEnabled(s, s.handlers[h], a) && HandlersAnswered(s)
    ensures NoneTaken(s, HandleApply(s, h, a))
  {
    assert Shaped(s.handlers[h]);
  }

  /** A change to what one handler has been fed. */
  predicate SameConduct(o: Handler, o': Handler) {
    o.id == o'.id && o.kind == o'.kind && o.sent == o'.sent && o.phase == o'.phase && o.final == o'.final
  }

  predicate Idle(o: Handler) {
    o.sent == [] && o.phase.Working? && o.final.None?
  }

  /** What a receiver step leaves alone: the sender loop, and how handlers have answered. */
  ghost predicate Receives(s: Server, s': Server) {
    && s'.acc == s.acc && s'.out == s.out && s'.sp == s.sp
    && |s.handlers| <= |s'.handlers|
    && (forall h :: 0 <= h < |s.handlers| ==> SameConduct(s.handlers[h], s'.handlers[h]))
    && (forall h :: |s.handlers| <= h < |s'.handlers| ==> Idle(s'.handlers[h]))
    && s.inLog <= s'.inLog
    && (forall k :: k in s.rejected && (AtRest(s.rp) || k != |s.inLog| - 1) ==>
          k in s'.rejected && s'.rejected[k] == s.rejected[k])
    && (AtRest(s'.rp) || (!AtRest(s.rp) && s'.inLog == s.inLog) || |s'.inLog| == |s.inLog| + 1)
  }

  lemma {:induction false} ReceivesTakesNone(s: Server, s': Server)
    requires Receives(s, s') && HandlersAnswered(s)
    requires s.inLog != [] && !AtRest(s.rp) && !s.rp.Rejecting? ==> |s.inLog| - 1 !in s.rejected
    requires s.rp.Rejecting? ==> s'.rejected == s.rejected
    ensures NoneTaken(s, s')
  {
    forall h | 0 <= h < |s.handlers| ensures SameAnswers(s.handlers[h], s'.handlers[h]) && Shaped(s'.handlers[h]) {
      assert SameConduct(s.handlers[h], s'.handlers[h]) && Shaped(s.handlers[h]);
    }
  }

  lemma {:induction false} RejectReceives(s: Server, id: StreamID, reason: Reason)
    requires !AtRest(s.rp) && s.inLog != []
    ensures Receives(s, Reject(s.(lastID := id), reason))
  {
  }

  lemma {:induction false} StartReceives(s: Server, id: StreamID, kind: Kind, req: Request)
    requires !AtRest(s.rp) && s.inLog != []
    ensures Receives(s, Start(s.(lastID := id), id, kind, req))
  {
  }

  lemma {:induction false} MoveReceives(s: Server, rp': Receiver)
    requires !AtRest(s.rp)
    ensures Receives(s, s.(rp := rp'))
  {
  }

  lemma {:induction false} DispatchReceives(s: Server, v: Verdict)
    requires s.rp.Got? && s.inLog != []
    ensures Receives(s, Follow(s, v))
  {
    match v
    case TurnDown(id, reason) => RejectReceives(s, id, reason);
    case MoveOn(rp) => MoveReceives(s, rp);
    case Begin(kind, req) => StartReceives(s, Last(s).id, kind, req);
  }

  lemma {:induction false} FeedReceives(s: Server, a: RecvAct)
    requires InFeed(s.rp) && s.rp.h < |s.handlers| && FeedEnabled(s.rp, s.handlers[s.rp.h], a) && s.inLog != []
    ensures Receives(s, FeedApply(s, a))
  {
  }

  lemma {:induction false} FinishReceives(s: Server)
    requires RecvEnabled(s, Finish)
    ensures Receives(s, FinishApply(s))
  {
  }

  lemma {:induction false} RecvReceives(s: Server, a: RecvAct)
    requires RecvEnabled(s, a) && (InFeed(s.rp) ==> s.inLog != [])
    ensures Receives(s, RecvApply(s, a))
    ensures s.rp.Rejecting? ==> RecvApply(s, a).rejected == s.rejected
  {
    match a
    case Dispatch => DispatchReceives(s, Judge(s));
    case Finish => FinishReceives(s);
    case FeedCheck => FeedReceives(s, a);
    case Feed => FeedReceives(s, a);
    case FeedWait => FeedReceives(s, a);
    case FeedErr => FeedReceives(s, a);
    case _ =>
  }

  lemma {:induction false} AcceptedShape(o: Handler)
    requires Shaped(o) && CanAccept(o)
    ensures Shaped(Accepted(o))
  {
  }

  /** Taking a response appends exactly it to what its handler has answered. */
  lemma {:induction false} AcceptedAnswers(h: nat, o: Handler)
    requires Shaped(o) && CanAccept(o)
    ensures Answers(h, Accepted(o)) == Answers(h, o) + [Offered(h, o)]
  {
    if o.phase.Sending? {
      assert MessageResps(h, Accepted(o)) == MessageResps(h, o) + [Offered(h, o)];
    } else {
      assert MessageResps(h, Accepted(o)) == MessageResps(h, o);
    }
  }

  lemma {:induction false} AcceptHandlers(s: Server, h: nat)
    requires HandlersAnswered(s) && h < |s.handlers| && CanAccept(s.handlers[h])
    ensures HandlersAnswered(s.(acc := s.acc + [Offered(h, s.handlers[h])],
                                handlers := s.handlers[h := Accepted(s.handlers[h])]))
  {
    var o := s.handlers[h];
    var r := Offered(h, o);
    var hs := s.handlers[h := Accepted(o)];
    assert Shaped(o);
    AcceptedShape(o);
    AcceptedAnswers(h, o);
    forall g: nat | g < |hs| ensures By(s.acc + [r], FromHandler(g)) == Answers(g, hs[g]) {
      BySnoc(s.acc, r, FromHandler(g));
    }
  }

  lemma {:induction false} AcceptEntries(s: Server, h: nat)
    requires EntriesRight(s) && h < |s.handlers| && CanAccept(s.handlers[h])
    ensures EntriesRight(s.(acc := s.acc + [Offered(h, s.handlers[h])],
                            handlers := s.handlers[h := Accepted(s.handlers[h])]))
  {
    var r := Offered(h, s.handlers[h]);
    var s' := s.(acc := s.acc + [r], handlers := s.handlers[h := Accepted(s.handlers[h])]);
    forall i | 0 <= i < |s'.acc| ensures EntryRight(s', s'.acc[i]) {
      assert i < |s.acc| ==> EntryRight(s, s.acc[i]);
    }
    forall k: nat ensures By(s'.acc, FromFrame(k)) == By(s.acc, FromFrame(k)) {
      BySnoc(s.acc, r, FromFrame(k));
    }
  }

  lemma {:induction false} SenderMoves(s: Server, s': Server)
    requires HandlersAnswered(s) && EntriesRight(s) && LastUnanswered(s)
    requires s'.handlers == s.handlers && s'.acc == s.acc && s'.inLog == s.inLog
    requires s'.rejected == s.rejected && s'.rp == s.rp
    ensures HandlersAnswered(s') && EntriesRight(s') && LastUnanswered(s')
  {
    forall i | 0 <= i < |s'.acc| ensures EntryRight(s', s'.acc[i]) {
      assert EntryRight(s, s.acc[i]);
    }
  }

  /** The rendezvous of respond with the sender loop. */
  lemma {:induction false} AcceptKeeps(s: Server, h: nat)
    requires AnswerInv(s) && SendEnabled(s, Accept(h))
    ensures AnswerInv(SendApply(s, Accept(h)))
  {
    var o := s.handlers[h];
    AcceptHandlers(s, h);
    AcceptEntries(s, h);
    var s1 := s.(acc := s.acc + [Offered(h, o)], handlers := s.handlers[h := Accepted(o)]);
    AcceptUnanswered(s, s1, Offered(h, o));
    AcceptOut(s, h);
    SenderMoves(s1, SendApply(s, Accept(h)));
  }

  lemma {:induction false} AcceptUnanswered(s: Server, s': Server, r: Resp)
    requires LastUnanswered(s) && r.origin.FromHandler?
    requires s'.acc == s.acc + [r] && s'.inLog == s.inLog && s'.rp == s.rp
    ensures LastUnanswered(s')
  {
    if s.inLog != [] {
      BySnoc(s.acc, r, FromFrame(|s.inLog| - 1));
    }
  }

  lemma {:induction false} AcceptOut(s: Server, h: nat)
    requires OutRight(s) && SendEnabled(s, Accept(h))
    ensures OutRight(SendApply(s, Accept(h)))
  {
  }

  /** The rendezvous of sendStatus with the sender loop. */
  lemma {:induction false} AcceptRejectKeeps(s: Server)
    requires AnswerInv(s) && RejectsRight(s) && SendEnabled(s, AcceptReject)
    ensures AnswerInv(SendApply(s, AcceptReject))
  {
    var s' := SendApply(s, AcceptReject);
    var r := RejectResp(|s.inLog| - 1, Last(s).id, s.rp.reason);
    forall g: nat | g < |s'.handlers| ensures By(s'.acc, FromHandler(g)) == Answers(g, s'.handlers[g]) {
      BySnoc(s.acc, r, FromHandler(g));
    }
    forall i | 0 <= i < |s'.acc| ensures EntryRight(s', s'.acc[i]) {
      if i < |s.acc| {
        assert EntryRight(s, s.acc[i]);
      }
    }
    forall k: nat ensures |By(s'.acc, FromFrame(k))| <= 1 {
      BySnoc(s.acc, r, FromFrame(k));
    }
  }

  lemma {:induction false} AllShaped(s: Server)
    requires HandlersAnswered(s)
    ensures forall h :: 0 <= h < |s.handlers| ==> Shaped(s.handlers[h])
  {
  }

  lemma {:induction false} SendTakesNone(s: Server, a: SendAct)
    requires OutRight(s) && SendEnabled(s, a) && !a.Accept? && !a.AcceptReject?
    requires forall h :: 0 <= h < |s.handlers| ==> Shaped(s.handlers[h])
    ensures NoneTaken(s, SendApply(s, a)) && OutRight(SendApply(s, a))
  {
  }

  lemma {:induction false} SendKeeps(s: Server, a: SendAct)
    requires AnswerInv(s) && RejectsRight(s) && SendEnabled(s, a)
    ensures AnswerInv(SendApply(s, a))
  {
    if a.Accept? {
      AcceptKeeps(s, a.h);
    } else if a.AcceptReject? {
      AcceptRejectKeeps(s);
    } else {
      AllShaped(s);
      SendTakesNone(s, a);
      NoneTakenKeeps(s, SendApply(s, a));
    }
  }

  lemma {:induction false} RecvAnswers(s: Server, a: RecvAct)
    requires AnswerInv(s) && RejectsRight(s) && RecvEnabled(s, a) && (InFeed(s.rp) ==> s.inLog != [])
    ensures AnswerInv(RecvApply(s, a))
  {
    RecvReceives(s, a);
    ReceivesTakesNone(s, RecvApply(s, a));
    NoneTakenKeeps(s, RecvApply(s, a));
  }

  lemma {:induction false} AnswerInvStep(s: Server, a: Action)
    requires AnswerInv(s) && IdInv(s) && Enabled(s, a)
    ensures AnswerInv(Apply(s, a))
  {
    match a
    case Recv(ra) => RecvAnswers(s, ra);
    case Send(sa) => SendKeeps(s, sa);
    case Handle(h, ha) => HandleAnswers(s, h, ha);
    case Shutdown => ShutdownAnswers(s);
  }

  lemma {:induction false} HandleAnswers(s: Server, h: nat, a: HandlerAct)
    requires AnswerInv(s) && h < |s.handlers| && HandleEnabled(s, s.handlers[h], a)
    ensures AnswerInv(HandleApply(s, h, a))
  {
    HandleTakesNone(s, h, a);
    NoneTakenKeeps(s, HandleApply(s, h, a));
  }

  lemma {:induction false} ShutdownAnswers(s: Server)
    requires AnswerInv(s)
    ensures AnswerInv(s.(shutdown := true))
  {
    AllShaped(s);
    NoneTakenKeeps(s, s.(shutdown := true));
  }
}
