/** A run that meets the lower bound of the `active` counter: a unary request whose handler
    answers before the receiver has stored it. */
module ServerWitness {
  import opened Frames
  import opened ServerConn

  const SVC: Services := map["s" := ServiceDesc({"m"}, map[])]
  const CALL := RequestFrame(1, NO_FLAGS, Request("s", "m", []))

  /** The receiver reads the request ... */
  lemma {:induction false} RequestRead() returns (s: Server)
    ensures Reachable(s) && s.rp.Got? && s.inLog == [CALL] && s.svc == SVC && s.lastID == 0
    ensures s.sp.Loading? && s.active == 0 && s.rejected == map[] && s.handlers == []
  {
    var s0 := NewServer(SVC);
    assert IsRun([s0], []);
    ReachableStep(s0, Recv(Proceed));
    var s1 := Apply(s0, Recv(Proceed));
    ReachableStep(s1, Recv(Read(CALL)));
    s := Apply(s1, Recv(Read(CALL)));
  }

  /** ... and starts its handler. */
  lemma {:induction false} RequestTaken(s: Server) returns (t: Server)
    requires Reachable(s) && s.rp.Got? && s.inLog == [CALL] && s.svc == SVC && s.lastID == 0
    requires s.sp.Loading? && s.active == 0 && s.rejected == map[] && s.handlers == []
    ensures Reachable(t) && t.rp == Storing(0) && t.sp.Loading? && t.active == 0 && t.rejected == map[]
    ensures |t.handlers| == 1 && t.handlers[0].phase.Working? && t.handlers[0].kind == Method
  {
    assert Judge(s) == Begin(Method, CALL.req);
    ReachableStep(s, Recv(Dispatch));
    t := Apply(s, Recv(Dispatch));
  }

  /** The handler answers and the sender loop takes the answer. */
  lemma {:induction false} AnswerTaken(s: Server) returns (t: Server)
    requires Reachable(s) && s.rp == Storing(0) && s.sp.Loading? && s.rejected == map[]
    requires |s.handlers| == 1 && s.handlers[0].phase.Working? && s.handlers[0].kind == Method
    ensures Reachable(t) && t.rp == Storing(0) && t.sp.Writing? && t.sp.r.closeStream
    ensures t.rejected == map[] && t.active == s.active
  {
    ReachableStep(s, Handle(0, HReturn(OK, Some([]))));
    var s1 := Apply(s, Handle(0, HReturn(OK, Some([]))));
    ReachableStep(s1, Send(Load));
    var s2 := Apply(s1, Send(Load));
    ReachableStep(s2, Send(Accept(0)));
    t := Apply(s2, Send(Accept(0)));
  }

  /** The counter goes below zero although nothing was rejected, so -1 is the exact bound. */
  lemma {:induction false} ActiveBelowZero()
    ensures exists s :: Reachable(s) && s.rejected == map[] && s.active == -1
  {
    var r := RequestRead();
    var s := RequestTaken(r);
    var t := AnswerTaken(s);
    ReachableStep(t, Send(Write));
    var t1 := Apply(t, Send(Write));
    ReachableStep(t1, Send(Delete));
    var t2 := Apply(t1, Send(Delete));
    ReachableStep(t2, Send(Subtract));
    assert Apply(t2, Send(Subtract)).active == -1;
  }
}
