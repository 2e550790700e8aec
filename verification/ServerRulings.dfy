/** Which frames the server accepts, decided by the received frames alone: the receiver's one
    variable lastStreamID stands for the whole history of opening frames. */
module ServerRulings {
  import opened Frames
  import opened ServerConn
  import opened ServerIds
  import ST = ServerTheorems

  predicate Opener(f: Frame) {
    f.OpensStream() && f.id % 2 == 1
  }

  /** An earlier opening frame had this id or a larger one. */
  ghost predicate Stale(inLog: seq<Frame>, k: nat)
    requires k < |inLog|
  {
    exists j :: 0 <= j < k && Opener(inLog[j]) && inLog[j].id >= inLog[k].id
  }

  /** What becomes of frame k as far as the frames decide it: None is no objection. Whether
      data is accepted depends on the handlers as well. */
  ghost function Ruling(svc: Services, inLog: seq<Frame>, k: nat): Option<Reason>
    requires k < |inLog|
  {
    var f := inLog[k];
    if f.TooLong? then Some(OverLimit)
    else if f.id % 2 != 1 then Some(MustBeOdd)
    else if !f.OpensStream() then None
    else if Stale(inLog, k) then Some(MustIncrement)
    else if f.BadRequestFrame? then Some(BadBody)
    else if Unknown(svc, f.req) then Some(Unimplemented)
    else None
  }

  ghost predicate HasHandler(s: Server, k: nat) {
    exists h :: 0 <= h < |s.handlers| && s.handlers[h].reqAt == k
  }

  ghost predicate Ruled(s: Server, k: nat)
    requires k < |s.inLog|
  {
    match Ruling(s.svc, s.inLog, k)
    case Some(r) => k in s.rejected && s.rejected[k] == r
    case None => s.inLog[k].OpensStream() ==> HasHandler(s, k)
  }

  /** lastStreamID is the largest id of the opening frames judged so far. */
  ghost predicate LastIsMax(s: Server) {
    && (forall j :: 0 <= j < Seen(s) && j < |s.inLog| && Opener(s.inLog[j]) ==> s.inLog[j].id <= s.lastID)
    && (s.lastID == 0
        || exists j :: 0 <= j < Seen(s) && j < |s.inLog| && Opener(s.inLog[j]) && s.inLog[j].id == s.lastID)
  }

  ghost predicate RulingInv(s: Server) {
    (forall k :: 0 <= k < Seen(s) && k < |s.inLog| ==> Ruled(s, k)) && LastIsMax(s)
  }

  /** Frames, rejections and handlers are only ever added. */
  ghost predicate Adds(s: Server, s': Server) {
    && s'.svc == s.svc && s.inLog <= s'.inLog
    && (forall k :: k in s.rejected ==> k in s'.rejected && s'.rejected[k] == s.rejected[k])
    && |s.handlers| <= |s'.handlers|
    && (forall h :: 0 <= h < |s.handlers| ==> s'.handlers[h].reqAt == s.handlers[h].reqAt)
  }

  lemma {:induction false} RulingFixed(svc: Services, a: seq<Frame>, b: seq<Frame>, k: nat)
    requires a <= b && k < |a|
    ensures Ruling(svc, a, k) == Ruling(svc, b, k)
  {
  }

  lemma {:induction false} RuledStays(s: Server, s': Server, k: nat)
    requires Adds(s, s') && k < |s.inLog| && Ruled(s, k)
    ensures Ruled(s', k)
  {
    RulingFixed(s.svc, s.inLog, s'.inLog, k);
    if HasHandler(s, k) {
      var h :| 0 <= h < |s.handlers| && s.handlers[h].reqAt == k;
      assert s'.handlers[h].reqAt == k;
    }
  }

  lemma {:induction false} AddsKeeps(s: Server, s': Server)
    requires RulingInv(s) && Adds(s, s') && s'.lastID == s.lastID && Seen(s') == Seen(s)
    ensures RulingInv(s')
  {
    forall k | 0 <= k < Seen(s') && k < |s'.inLog| ensures Ruled(s', k) {
      RuledStays(s, s', k);
    }
  }

  lemma {:induction false} StaleIsLast(s: Server)
    requires s.rp.Got? && s.inLog != [] && LastIsMax(s) && Opener(Last(s))
    ensures Stale(s.inLog, |s.inLog| - 1) <==> Last(s).id <= s.lastID
  {
  }

  lemma {:induction false} DispatchAdds(s: Server)
    requires s.rp.Got? && s.inLog != [] && RejectsRight(s)
    ensures Adds(s, Follow(s, Judge(s)))
    ensures Follow(s, Judge(s)).inLog == s.inLog
  {
    FollowAdds(s, Judge(s));
  }

  lemma {:induction false} FollowAdds(s: Server, v: Verdict)
    requires s.inLog != [] && |s.inLog| - 1 !in s.rejected
    ensures Adds(s, Follow(s, v)) && Follow(s, v).inLog == s.inLog
  {
  }

  /** Turned down after its id was recorded. */
  predicate TurnedDownLater(v: Verdict) {
    v.TurnDown? && (v.reason == BadBody || v.reason == Unimplemented)
  }

  /** The receiver's judgement of a frame is its ruling. */
  lemma {:induction false} JudgeRules(s: Server)
    requires s.rp.Got? && s.inLog != [] && LastIsMax(s)
    ensures var k := |s.inLog| - 1;
            match Ruling(s.svc, s.inLog, k)
            case Some(r) => Judge(s) == TurnDown(if r == BadBody || r == Unimplemented then Last(s).id else s.lastID, r)
            case None => Last(s).OpensStream() ==> Judge(s).Begin?
    ensures Opener(Last(s)) && !Stale(s.inLog, |s.inLog| - 1) <==> Judge(s).Begin? || TurnedDownLater(Judge(s))
  {
    if Opener(Last(s)) {
      StaleIsLast(s);
    }
  }

  lemma {:induction false} LastRuled(s: Server)
    requires s.rp.Got? && s.inLog != [] && LastIsMax(s)
    ensures Ruled(Follow(s, Judge(s)), |s.inLog| - 1)
  {
    JudgeRules(s);
    var v, s' := Judge(s), Follow(s, Judge(s));
    assert s'.inLog == s.inLog && s'.svc == s.svc;
    if v.Begin? {
      assert s'.handlers[|s.handlers|].reqAt == |s.inLog| - 1;
    }
  }

  /** The id a verdict leaves in lastStreamID. */
  function IdAfter(s: Server, v: Verdict): StreamID
    requires s.inLog != []
  {
    match v
    case TurnDown(id, _) => id
    case MoveOn(_) => s.lastID
    case Begin(_, _) => Last(s).id
  }

  lemma {:induction false} FollowSets(s: Server, v: Verdict)
    requires s.inLog != [] && (v.MoveOn? ==> !v.rp.Got?)
    ensures var s' := Follow(s, v); s'.inLog == s.inLog && !s'.rp.Got? && s'.lastID == IdAfter(s, v)
  {
  }

  lemma {:induction false} JudgedLast(s: Server)
    requires s.rp.Got? && s.inLog != [] && LastIsMax(s)
    ensures var s' := Follow(s, Judge(s));
            && s'.inLog == s.inLog && !s'.rp.Got?
            && s'.lastID == (if Opener(Last(s)) && Last(s).id > s.lastID then Last(s).id else s.lastID)
  {
    var v := Judge(s);
    assert v.MoveOn? ==> !v.rp.Got?;
    assert IdAfter(s, v) == if Opener(Last(s)) && Last(s).id > s.lastID then Last(s).id else s.lastID;
    FollowSets(s, v);
  }

  lemma {:induction false} LastGrows(s: Server, s': Server)
    requires s.rp.Got? && s.inLog != [] && LastIsMax(s) && s'.inLog == s.inLog && !s'.rp.Got?
    requires s'.lastID == (if Opener(Last(s)) && Last(s).id > s.lastID then Last(s).id else s.lastID)
    ensures LastIsMax(s')
  {
    if s'.lastID != s.lastID {
      assert Opener(s'.inLog[|s.inLog| - 1]);
    }
  }

  lemma {:induction false} DispatchLast(s: Server)
    requires s.rp.Got? && s.inLog != [] && LastIsMax(s)
    ensures LastIsMax(Follow(s, Judge(s)))
  {
    JudgedLast(s);
    LastGrows(s, Follow(s, Judge(s)));
  }

  lemma {:induction false} DispatchRules(s: Server)
    requires s.rp.Got? && s.inLog != [] && RulingInv(s) && RejectsRight(s)
    ensures RulingInv(Follow(s, Judge(s)))
  {
    var s' := Follow(s, Judge(s));
    DispatchAdds(s);
    LastRuled(s);
    DispatchLast(s);
    forall k: nat | k < |s'.inLog| ensures Ruled(s', k) {
      if k < |s.inLog| - 1 {
        RuledStays(s, s', k);
      }
    }
  }

  lemma {:induction false} FeedAdds(s: Server, a: RecvAct)
    requires InFeed(s.rp) && s.rp.h < |s.handlers| && FeedEnabled(s.rp, s.handlers[s.rp.h], a) && s.inLog != []
    requires IdInv(s)
    ensures var s' := FeedApply(s, a); Adds(s, s') && s'.lastID == s.lastID && Seen(s') == Seen(s)
  {
  }

  lemma {:induction false} RecvAdds(s: Server, a: RecvAct)
    requires RecvEnabled(s, a) && (InFeed(s.rp) ==> s.inLog != []) && IdInv(s) && !a.Dispatch?
    ensures var s' := RecvApply(s, a); Adds(s, s') && s'.lastID == s.lastID && Seen(s') == Seen(s)
  {
    if InFeed(s.rp) {
      FeedAdds(s, a);
    }
  }

  lemma {:induction false} SendAdds(s: Server, a: SendAct)
    requires SendEnabled(s, a)
    ensures var s' := SendApply(s, a); Adds(s, s') && s'.lastID == s.lastID && Seen(s') == Seen(s)
  {
  }

  lemma {:induction false} RulingInvStep(s: Server, a: Action)
    requires Enabled(s, a) && IdInv(s) && RulingInv(s)
    ensures RulingInv(Apply(s, a))
  {
    match a
    case Recv(ra) =>
      if ra.Dispatch? {
        DispatchRules(s);
      } else {
        RecvAdds(s, ra);
        AddsKeeps(s, RecvApply(s, ra));
      }
    case Send(sa) =>
      SendAdds(s, sa);
      AddsKeeps(s, SendApply(s, sa));
    case Handle(h, ha) => AddsKeeps(s, HandleApply(s, h, ha));
    case Shutdown => AddsKeeps(s, s.(shutdown := true));
  }

  lemma {:induction false} IdsAt(states: seq<Server>, acts: seq<Action>, i: nat)
    requires IsRun(states, acts) && i <= |acts|
    ensures IdInv(states[i])
  {
    ST.ServerInvAt(states, acts, i);
  }

  lemma {:induction false} RulingInvAt(states: seq<Server>, acts: seq<Action>, i: nat)
    requires IsRun(states, acts) && i <= |acts|
    ensures RulingInv(states[i])
    decreases i
  {
    if i > 0 {
      var j: nat := i - 1;
      RulingInvAt(states, acts, j);
      IdsAt(states, acts, j);
      var a := acts[j];
      RulingInvStep(states[j], a);
    }
  }

  lemma {:induction false} OnlyStartError(s: Server, k: nat)
    requires RejectsRight(s)
    ensures HasHandler(s, k) && k in s.rejected ==> s.rejected[k] == StartError
  {
  }

  /** In every reachable state, each frame the receiver is past was treated as its ruling
      says: turned down for that reason exactly, or else, if it opens a stream, given a
      handler; and then the only rejection possible is that its payload did not fit. */
  lemma {:induction false} FramesRuled(s: Server, k: nat)
    requires Reachable(s) && k < Seen(s) && k < |s.inLog|
    ensures match Ruling(s.svc, s.inLog, k)
            case Some(r) => k in s.rejected && s.rejected[k] == r && !HasHandler(s, k)
            case None =>
              s.inLog[k].OpensStream() ==> HasHandler(s, k) && (k in s.rejected ==> s.rejected[k] == StartError)
  {
    RulingHolds(s);
    assert Ruled(s, k);
    OnlyStartError(s, k);
  }

  lemma {:induction false} RulingHolds(s: Server)
    requires Reachable(s)
    ensures RulingInv(s) && RejectsRight(s)
  {
    var states, acts :| IsRun(states, acts) && s == states[|acts|];
    RulingInvAt(states, acts, |acts|);
    ST.ServerInvAt(states, acts, |acts|);
  }
}
