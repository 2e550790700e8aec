/** Frames that come for a stream after its handler has answered, and what the two
    rejections of data frames say about the handler they meet. */
module ServerLate {
  import opened Frames
  import opened ServerConn
  import opened ServerIds
  import opened ServerAnswers

  ghost predicate RejectedOn(s: Server, k: nat, id: StreamID) {
    k in s.rejected && k < |s.inLog| && s.inLog[k].id == id
  }

  /** If any frame of handler h's stream was turned down, it was for being too late: it came
      after the request, and no stream was active. */
  ghost predicate OnlyLate(s: Server, h: nat)
    requires h < |s.handlers|
  {
    forall k: nat :: RejectedOn(s, k, s.handlers[h].id) ==> s.rejected[k] == NotActive && k > s.handlers[h].reqAt
  }

  /** Handler h is in the stream table or on its way there. */
  ghost predicate Listed(s: Server, h: nat)
    requires h < |s.handlers|
  {
    || (s.handlers[h].id in s.streams && s.streams[s.handlers[h].id] == h)
    || ((s.rp.Starting? || s.rp.Storing?) && s.rp.h == h)
  }

  ghost predicate LateRight(s: Server, h: nat)
    requires h < |s.handlers|
  {
    OnlyLate(s, h) && !s.handlers[h].phase.Answered? ==>
      Listed(s, h) && forall k: nat :: !RejectedOn(s, k, s.handlers[h].id)
  }

  /** No response of a handler follows the rejection of a late frame. */
  ghost predicate OrderRight(s: Server) {
    forall i, j :: 0 <= i < j < |s.acc| && s.acc[i].origin.FromFrame? && s.acc[j].origin.FromHandler?
                   && s.acc[j].origin.h < |s.handlers| && s.acc[i].id == s.acc[j].id ==>
      !OnlyLate(s, s.acc[j].origin.h)
  }

  /** A failed data() leaves its mark on the handler. */
  ghost predicate FailedFeed(s: Server, k: nat) {
    exists h :: 0 <= h < |s.handlers| && k < |s.inLog| && s.handlers[h].id == s.inLog[k].id
                && s.handlers[h].feedErr && s.handlers[h].reqAt < k
  }

  ghost predicate LateInv(s: Server) {
    && (forall h :: 0 <= h < |s.handlers| ==> LateRight(s, h))
    && OrderRight(s)
    && (forall k :: k in s.rejected && s.rejected[k] == DataError ==> FailedFeed(s, k))
  }

  // ---- steps ----

  /** Frames, rejections and handlers are only added, and handlers keep their requests. */
  ghost predicate Grows(s: Server, s': Server) {
    && s.inLog <= s'.inLog
    && (forall k :: k in s.rejected ==> k in s'.rejected && s'.rejected[k] == s.rejected[k])
    && |s.handlers| <= |s'.handlers|
    && (forall h :: 0 <= h < |s.handlers| ==>
          && SameRequest(s.handlers[h], s'.handlers[h])
          && (s.handlers[h].feedErr ==> s'.handlers[h].feedErr))
  }

  lemma {:induction false} LateShrinks(s: Server, s': Server, h: nat)
    requires Grows(s, s') && h < |s.handlers| && OnlyLate(s', h)
    ensures OnlyLate(s, h)
  {
    forall k: nat | RejectedOn(s, k, s.handlers[h].id) ensures s.rejected[k] == NotActive && k > s.handlers[h].reqAt {
      assert SameRequest(s.handlers[h], s'.handlers[h]);
      assert RejectedOn(s', k, s'.handlers[h].id);
    }
  }

  lemma {:induction false} OrderKept(s: Server, s': Server)
    requires Grows(s, s') && s'.acc == s.acc && OrderRight(s)
    requires forall i :: 0 <= i < |s.acc| ==> EntryRight(s, s.acc[i])
    ensures OrderRight(s')
  {
    forall i, j | 0 <= i < j < |s.acc| && s.acc[i].origin.FromFrame? && s.acc[j].origin.FromHandler?
                  && s.acc[j].origin.h < |s'.handlers| && s.acc[i].id == s.acc[j].id
      ensures !OnlyLate(s', s.acc[j].origin.h)
    {
      assert EntryRight(s, s.acc[j]);
      if OnlyLate(s', s.acc[j].origin.h) {
        LateShrinks(s, s', s.acc[j].origin.h);
      }
    }
  }

  lemma {:induction false} FailedFeedKept(s: Server, s': Server, k: nat)
    requires Grows(s, s') && FailedFeed(s, k)
    ensures FailedFeed(s', k)
  {
    var h :| 0 <= h < |s.handlers| && k < |s.inLog| && s.handlers[h].id == s.inLog[k].id
             && s.handlers[h].feedErr && s.handlers[h].reqAt < k;
    assert SameRequest(s.handlers[h], s'.handlers[h]);
  }

  /** A step that turns nothing down and forgets no handler that has not answered. */
  ghost predicate Harmless(s: Server, s': Server) {
    && Grows(s, s') && |s'.handlers| == |s.handlers| && s'.rejected == s.rejected
    && (s'.inLog == s.inLog || exists f :: s'.inLog == s.inLog + [f])
    && (forall h :: 0 <= h < |s.handlers| ==>
          && (s.handlers[h].phase.Answered? ==> s'.handlers[h].phase.Answered?)
          && (OnlyLate(s, h) && Listed(s, h) && !s'.handlers[h].phase.Answered? ==> Listed(s', h)))
  }

  lemma {:induction false} HarmlessKeeps(s: Server, s': Server)
    requires LateInv(s) && Harmless(s, s') && forall k :: k in s.rejected ==> k < |s.inLog|
    ensures forall h :: 0 <= h < |s'.handlers| ==> LateRight(s', h)
    ensures forall k :: k in s'.rejected && s'.rejected[k] == DataError ==> FailedFeed(s', k)
  {
    forall h | 0 <= h < |s'.handlers| ensures LateRight(s', h) {
      assert LateRight(s, h) && SameRequest(s.handlers[h], s'.handlers[h]);
      if OnlyLate(s', h) && !s'.handlers[h].phase.Answered? {
        LateShrinks(s, s', h);
        forall k: nat ensures !RejectedOn(s', k, s'.handlers[h].id) {
          assert !RejectedOn(s, k, s.handlers[h].id);
        }
      }
    }
    forall k | k in s'.rejected && s'.rejected[k] == DataError ensures FailedFeed(s', k) {
      FailedFeedKept(s, s', k);
    }
  }

  /** The frame at hand is turned down. */
  lemma {:induction false} RejectKeepsLate(s: Server, s': Server, reason: Reason, h: nat)
    requires IdInv(s) && Rejects(s, s', reason) && Grows(s, s') && h < |s.handlers| && LateRight(s, h)
    requires s'.handlers[h].phase == s.handlers[h].phase
    requires s.rp.Storing? || s.rp.Starting? ==> reason == StartError && s.rp.h < |s.handlers|
    requires reason == NotActive ==> s.rp.Got? && Last(s).id !in s.streams
    ensures LateRight(s', h)
  {
    assert SameRequest(s.handlers[h], s'.handlers[h]);
    if OnlyLate(s', h) && !s'.handlers[h].phase.Answered? {
      LateShrinks(s, s', h);
      var last := |s.inLog| - 1;
      assert RejectedOn(s', last, s.inLog[last].id);
      forall k: nat ensures !RejectedOn(s', k, s'.handlers[h].id) {
        assert k == last || !RejectedOn(s, k, s.handlers[h].id);
      }
    }
  }

  lemma {:induction false} RejectLate(s: Server, s': Server, reason: Reason)
    requires IdInv(s) && EntriesRight(s) && LateInv(s) && Rejects(s, s', reason) && Grows(s, s') && s'.acc == s.acc
    requires forall h :: 0 <= h < |s.handlers| ==> s'.handlers[h].phase == s.handlers[h].phase
    requires s.rp.Got? || s.rp.Starting? || OnData(s.rp)
    requires s.rp.Starting? ==> reason == StartError
    requires reason == NotActive ==> s.rp.Got? && Last(s).id !in s.streams
    requires reason == DataError ==> FailedFeed(s', |s.inLog| - 1)
    ensures LateInv(s')
  {
    forall h | 0 <= h < |s'.handlers| ensures LateRight(s', h) {
      RejectKeepsLate(s, s', reason, h);
    }
    OrderKept(s, s');
    forall k | k in s'.rejected && s'.rejected[k] == DataError ensures FailedFeed(s', k) {
      if k in s.rejected && k != |s.inLog| - 1 {
        FailedFeedKept(s, s', k);
      }
    }
  }

  lemma {:induction false} RejectedBefore(s: Server, s': Server, reason: Reason)
    requires IdInv(s) && Rejects(s, s', reason) && (s.rp.Got? || s.rp.Starting? || OnData(s.rp))
    requires forall h :: 0 <= h < |s.handlers| && s.handlers[h].feedErr ==> s'.handlers[h].feedErr
    ensures Grows(s, s')
  {
  }

  lemma {:induction false} FeedErrLate(s: Server)
    requires IdInv(s) && EntriesRight(s) && LateInv(s) && InFeed(s.rp)
    requires s.rp.h < |s.handlers| && FeedEnabled(s.rp, s.handlers[s.rp.h], FeedErr)
    ensures LateInv(FeedApply(s, FeedErr))
  {
    var reason := if s.rp.Starting? then StartError else DataError;
    FeedErrRejects(s);
    var s' := FeedApply(s, FeedErr);
    FeedErrMarks(s);
    RejectedBefore(s, s', reason);
    RejectLate(s, s', reason);
  }

  lemma {:induction false} FeedErrMarks(s: Server)
    requires IdInv(s) && InFeed(s.rp) && s.rp.h < |s.handlers| && FeedEnabled(s.rp, s.handlers[s.rp.h], FeedErr)
    ensures var s' := FeedApply(s, FeedErr);
            && s'.acc == s.acc && |s'.handlers| == |s.handlers|
            && (forall h :: 0 <= h < |s.handlers| ==> s'.handlers[h].phase == s.handlers[h].phase)
            && (forall h :: 0 <= h < |s.handlers| && s.handlers[h].feedErr ==> s'.handlers[h].feedErr)
            && (s.rp.Feeding? ==> FailedFeed(s', |s.inLog| - 1))
  {
    var s' := FeedApply(s, FeedErr);
    assert s'.handlers[s.rp.h].feedErr;
  }

  lemma {:induction false} FinishBadLate(s: Server)
    requires IdInv(s) && EntriesRight(s) && LateInv(s) && RecvEnabled(s, Finish)
    requires Last(s).flags.remoteClosed && |Last(s).data| > 0
    ensures LateInv(FinishApply(s))
  {
    FinishRejects(s);
    FinishMarks(s);
    RejectedBefore(s, FinishApply(s), CloseWithData);
    RejectLate(s, FinishApply(s), CloseWithData);
  }

  lemma {:induction false} FinishMarks(s: Server)
    requires RecvEnabled(s, Finish)
    ensures var s' := FinishApply(s);
            && s'.acc == s.acc && s'.streams == s.streams && s'.inLog == s.inLog && |s'.handlers| == |s.handlers|
            && (forall h :: 0 <= h < |s.handlers| ==>
                  && SameRequest(s.handlers[h], s'.handlers[h])
                  && s'.handlers[h].phase == s.handlers[h].phase && s'.handlers[h].feedErr == s.handlers[h].feedErr)
  {
  }

  lemma {:induction false} TurnDownLate(s: Server, id: StreamID, reason: Reason)
    requires IdInv(s) && EntriesRight(s) && LateInv(s) && s.rp.Got? && Judge(s) == TurnDown(id, reason)
    ensures LateInv(Follow(s, Judge(s)))
  {
    var s' := Reject(s.(lastID := id), reason);
    RejectedBefore(s, s', reason);
    RejectLate(s, s', reason);
  }

  /** A new handler is on its way into the table, and nothing came before its request. */
  lemma {:induction false} StartLate(s: Server, s': Server)
    requires IdInv(s) && EntriesRight(s) && LateInv(s) && s.rp.Got?
    requires s'.inLog == s.inLog && s'.rejected == s.rejected && s'.streams == s.streams && s'.acc == s.acc
    requires |s'.handlers| == |s.handlers| + 1 && s'.handlers[..|s.handlers|] == s.handlers
    requires s'.handlers[|s.handlers|].reqAt == |s.inLog| - 1
    requires s'.rp == Starting(|s.handlers|, Check) || s'.rp == Storing(|s.handlers|)
    ensures LateInv(s')
  {
    assert forall h :: 0 <= h < |s.handlers| ==> s'.handlers[h] == s'.handlers[..|s.handlers|][h];
    forall h | 0 <= h < |s'.handlers| ensures LateRight(s', h) {
      if h < |s.handlers| {
        assert LateRight(s, h);
        if OnlyLate(s', h) {
          LateShrinks(s, s', h);
          forall k: nat ensures RejectedOn(s', k, s'.handlers[h].id) ==> RejectedOn(s, k, s.handlers[h].id) {
          }
        }
      }
    }
    OrderKept(s, s');
    forall k | k in s'.rejected && s'.rejected[k] == DataError ensures FailedFeed(s', k) {
      FailedFeedKept(s, s', k);
    }
  }

  lemma {:induction false} DispatchLate(s: Server)
    requires IdInv(s) && EntriesRight(s) && LateInv(s) && RecvEnabled(s, Dispatch)
    ensures LateInv(Follow(s, Judge(s)))
  {
    match Judge(s)
    case TurnDown(id, reason) => TurnDownLate(s, id, reason);
    case MoveOn(rp) =>
      HarmlessKeeps(s, s.(rp := rp));
      OrderKept(s, s.(rp := rp));
    case Begin(kind, req) =>
      StartLate(s, Start(s.(lastID := Last(s).id), Last(s).id, kind, req));
  }

  lemma {:induction false} RecvHarmless(s: Server, a: RecvAct)
    requires IdInv(s) && RecvEnabled(s, a) && !a.Dispatch? && !a.Finish? && !IsFeed(a)
    ensures Harmless(s, RecvApply(s, a)) && RecvApply(s, a).acc == s.acc
  {
    if a.Store? {
      StoreHarmless(s);
    } else {
      RecvMarks(s, a);
    }
  }

  lemma {:induction false} RecvMarks(s: Server, a: RecvAct)
    requires IdInv(s) && RecvEnabled(s, a) && !a.Dispatch? && !a.Finish? && !IsFeed(a) && !a.Store?
    ensures var s' := RecvApply(s, a);
            && s'.acc == s.acc && s'.handlers == s.handlers && s'.streams == s.streams && s'.rejected == s.rejected
            && (s'.inLog == s.inLog || exists f :: s'.inLog == s.inLog + [f])
            && !s.rp.Starting? && !s.rp.Storing?
  {
  }

  lemma {:induction false} StoreHarmless(s: Server)
    requires IdInv(s) && RecvEnabled(s, Store)
    ensures Harmless(s, RecvApply(s, Store)) && RecvApply(s, Store).acc == s.acc
  {
    var s' := RecvApply(s, Store);
    forall h | 0 <= h < |s.handlers| && Listed(s, h) ensures Listed(s', h) {
      SameHandler(s.handlers, s.rp.h, h);
    }
  }

  lemma {:induction false} FeedHarmless(s: Server, a: RecvAct)
    requires IdInv(s) && InFeed(s.rp) && s.rp.h < |s.handlers|
    requires FeedEnabled(s.rp, s.handlers[s.rp.h], a) && !a.FeedErr?
    ensures Harmless(s, FeedApply(s, a)) && FeedApply(s, a).acc == s.acc
  {
    FeedMarks(s, a);
  }

  lemma {:induction false} FeedMarks(s: Server, a: RecvAct)
    requires InFeed(s.rp) && s.rp.h < |s.handlers| && FeedEnabled(s.rp, s.handlers[s.rp.h], a) && s.inLog != []
    requires !a.FeedErr?
    ensures var s' := FeedApply(s, a);
            && s'.acc == s.acc && s'.streams == s.streams && s'.inLog == s.inLog && s'.rejected == s.rejected
            && |s'.handlers| == |s.handlers|
            && (s.rp.Starting? ==> (s'.rp.Starting? || s'.rp.Storing?) && s'.rp.h == s.rp.h)
            && (forall h :: 0 <= h < |s.handlers| ==>
                  && SameRequest(s.handlers[h], s'.handlers[h])
                  && s'.handlers[h].phase == s.handlers[h].phase && s'.handlers[h].feedErr == s.handlers[h].feedErr)
  {
  }

  lemma {:induction false} FinishHarmless(s: Server)
    requires IdInv(s) && RecvEnabled(s, Finish) && !(Last(s).flags.remoteClosed && |Last(s).data| > 0)
    ensures Harmless(s, FinishApply(s)) && FinishApply(s).acc == s.acc
  {
    FinishMarks(s);
  }

  lemma {:induction false} HarmlessRecv(s: Server, s': Server)
    requires IdInv(s) && EntriesRight(s) && LateInv(s) && Harmless(s, s') && s'.acc == s.acc
    ensures LateInv(s')
  {
    HarmlessKeeps(s, s');
    OrderKept(s, s');
  }

  lemma {:induction false} RecvLate(s: Server, a: RecvAct)
    requires IdInv(s) && EntriesRight(s) && LateInv(s) && RecvEnabled(s, a)
    ensures LateInv(RecvApply(s, a))
  {
    if a.Dispatch? {
      DispatchLate(s);
    } else if a.FeedErr? {
      FeedErrLate(s);
    } else if IsFeed(a) {
      FeedHarmless(s, a);
      HarmlessRecv(s, FeedApply(s, a));
    } else if a.Finish? {
      if Last(s).flags.remoteClosed && |Last(s).data| > 0 {
        FinishBadLate(s);
      } else {
        FinishHarmless(s);
        HarmlessRecv(s, FinishApply(s));
      }
    } else {
      RecvHarmless(s, a);
      HarmlessRecv(s, RecvApply(s, a));
    }
  }

  lemma {:induction false} OrderSnoc(s: Server, s': Server, r: Resp)
    requires Grows(s, s') && s'.acc == s.acc + [r] && OrderRight(s)
    requires forall i :: 0 <= i < |s.acc| ==> EntryRight(s, s.acc[i])
    requires r.origin.FromHandler? && r.origin.h < |s'.handlers| && OnlyLate(s', r.origin.h) ==>
               forall i :: 0 <= i < |s.acc| && s.acc[i].origin.FromFrame? ==> s.acc[i].id != r.id
    ensures OrderRight(s')
  {
    forall i, j | 0 <= i < j < |s'.acc| && s'.acc[i].origin.FromFrame? && s'.acc[j].origin.FromHandler?
                  && s'.acc[j].origin.h < |s'.handlers| && s'.acc[i].id == s'.acc[j].id
      ensures !OnlyLate(s', s'.acc[j].origin.h)
    {
      assert s'.acc[i] == s.acc[i];
      if j < |s.acc| {
        assert s'.acc[j] == s.acc[j] && EntryRight(s, s.acc[j]);
        if OnlyLate(s', s.acc[j].origin.h) {
          LateShrinks(s, s', s.acc[j].origin.h);
        }
      }
    }
  }

  lemma {:induction false} AcceptHarmless(s: Server, h: nat)
    requires SendEnabled(s, Accept(h))
    ensures Harmless(s, SendApply(s, Accept(h))) && SendApply(s, Accept(h)).acc == s.acc + [Offered(h, s.handlers[h])]
    ensures !s.handlers[h].phase.Answered? && Offered(h, s.handlers[h]).id == s.handlers[h].id
    ensures Offered(h, s.handlers[h]).origin == FromHandler(h)
  {
  }

  lemma {:induction false} AcceptLate(s: Server, h: nat)
    requires IdInv(s) && EntriesRight(s) && LateInv(s) && SendEnabled(s, Accept(h))
    ensures LateInv(SendApply(s, Accept(h)))
  {
    var s' := SendApply(s, Accept(h));
    AcceptHarmless(s, h);
    HarmlessKeeps(s, s');
    if OnlyLate(s', h) {
      LateShrinks(s, s', h);
      assert LateRight(s, h);
      forall i | 0 <= i < |s.acc| && s.acc[i].origin.FromFrame? ensures s.acc[i].id != s.handlers[h].id {
        assert EntryRight(s, s.acc[i]);
        assert !RejectedOn(s, s.acc[i].origin.k, s.handlers[h].id);
      }
    }
    OrderSnoc(s, s', Offered(h, s.handlers[h]));
  }

  lemma {:induction false} AcceptRejectLate(s: Server)
    requires IdInv(s) && EntriesRight(s) && LateInv(s) && SendEnabled(s, AcceptReject)
    ensures LateInv(SendApply(s, AcceptReject))
  {
    var s' := SendApply(s, AcceptReject);
    assert Harmless(s, s');
    HarmlessKeeps(s, s');
    OrderSnoc(s, s', RejectResp(|s.inLog| - 1, Last(s).id, s.rp.reason));
  }

  /** The entry that is deleted belongs to a handler that has answered, or to one whose
      stream was closed by a rejection that was not late. */
  lemma {:induction false} DeletedAnswered(s: Server, h: nat)
    requires IdInv(s) && AnswerInv(s) && LateInv(s) && s.sp.Deleting? && s.sp.r.closeStream
    requires h < |s.handlers| && s.handlers[h].id == s.sp.r.id && OnlyLate(s, h)
    ensures s.handlers[h].phase.Answered?
  {
    var r := s.sp.r;
    var i := |s.acc| - 1;
    assert EntryRight(s, r) && LateRight(s, h);
    match r.origin
    case FromHandler(g) =>
      SameHandler(s.handlers, g, h);
      ByHas(s.acc, r.origin, i);
      assert r in Answers(h, s.handlers[h]);
    case FromFrame(k) => assert RejectedOn(s, k, s.handlers[h].id);
  }

  lemma {:induction false} DeleteHarmless(s: Server)
    requires SendEnabled(s, Delete)
    requires forall h :: 0 <= h < |s.handlers| && s.handlers[h].id == s.sp.r.id && OnlyLate(s, h) ==>
              s.handlers[h].phase.Answered?
    ensures Harmless(s, SendApply(s, Delete)) && SendApply(s, Delete).acc == s.acc
  {
  }

  lemma {:induction false} SendHarmless(s: Server, a: SendAct)
    requires SendEnabled(s, a) && !a.Accept? && !a.AcceptReject? && !a.Delete?
    ensures Harmless(s, SendApply(s, a)) && SendApply(s, a).acc == s.acc
  {
  }

  lemma {:induction false} SendLate(s: Server, a: SendAct)
    requires IdInv(s) && AnswerInv(s) && LateInv(s) && (s.sp.Deleting? ==> s.sp.r.closeStream) && SendEnabled(s, a)
    ensures LateInv(SendApply(s, a))
  {
    if a.Accept? {
      AcceptLate(s, a.h);
    } else if a.AcceptReject? {
      AcceptRejectLate(s);
    } else {
      if a.Delete? {
        forall h | 0 <= h < |s.handlers| && s.handlers[h].id == s.sp.r.id && OnlyLate(s, h)
          ensures s.handlers[h].phase.Answered?
        {
          DeletedAnswered(s, h);
        }
        DeleteHarmless(s);
      } else {
        SendHarmless(s, a);
      }
      HarmlessRecv(s, SendApply(s, a));
    }
  }

  lemma {:induction false} HandleHarmless(s: Server, h: nat, a: HandlerAct)
    requires h < |s.handlers| && HandleEnabled(s, s.handlers[h], a)
    ensures Harmless(s, HandleApply(s, h, a)) && HandleApply(s, h, a).acc == s.acc
  {
  }

  lemma {:induction false} LateInvStep(s: Server, a: Action)
    requires IdInv(s) && AnswerInv(s) && LateInv(s) && (s.sp.Deleting? ==> s.sp.r.closeStream) && Enabled(s, a)
    ensures LateInv(Apply(s, a))
  {
    match a
    case Recv(ra) => RecvLate(s, ra);
    case Send(sa) => SendLate(s, sa);
    case Handle(h, ha) =>
      HandleHarmless(s, h, ha);
      HarmlessRecv(s, HandleApply(s, h, ha));
    case Shutdown => HarmlessRecv(s, s.(shutdown := true));
  }
}
