/** A run in which a unary call completes: the theorems about results are not empty. */
module SystemWitness {
  import opened Frames
  import opened StreamQueue
  import opened System
  import C = ClientConn
  import S = ServerConn
  import CI = ClientIds
  import ST = ServerTheorems
  import W = ServerWitness

  lemma {:induction false} ReachableStep(y: Sys, a: Step)
    requires Reachable(y) && Enabled(y, a)
    ensures Reachable(Apply(y, a))
  {
    var states, acts :| IsRun(states, acts) && y == states[|acts|];
    var states', acts' := states + [Apply(y, a)], acts + [a];
    forall i | 0 <= i < |acts'| ensures Enabled(states'[i], acts'[i]) && states'[i + 1] == Apply(states'[i], acts'[i]) {
      if i < |acts| {
        assert acts'[i] == acts[i];
      }
    }
    assert IsRun(states', acts');
  }

  const REQ := Request("s", "m", [])
  const ANSWER := S.Resp(1, OK, Some([7]), false, true, S.FromHandler(0))

  /** One caller, its request written and nothing read. */
  ghost predicate Asked(c: C.Client) {
    && |c.objs| == 1 && c.objs[0].phase.Ready? && c.objs[0].desc.Unary? && c.objs[0].results == []
    && c.objs[0].st == NewStream(1, 1) && c.streams == map[1 := 0]
    && c.out == [C.Sent(0, W.CALL)] && c.loop.Top? && !c.ctxDone && c.looked == []
  }

  lemma {:induction false} Ask() returns (y: Sys)
    ensures Reachable(y) && Asked(y.c)
    ensures y.s == S.NewServer(W.SVC)
  {
    var c0 := C.Client(1, map[], [], C.Free, false, false, false, C.Top, [], []);
    var s0 := S.NewServer(W.SVC);
    var y0 := Sys(c0, s0);
    assert IsRun([y0], []);
    ReachableStep(y0, ClientStep(C.Create(C.Lock(C.Unary, REQ))));
    var y1 := Apply(y0, ClientStep(C.Create(C.Lock(C.Unary, REQ))));
    ReachableStep(y1, ClientStep(C.Create(C.Alloc)));
    var y2 := Apply(y1, ClientStep(C.Create(C.Alloc)));
    ReachableStep(y2, ClientStep(C.Create(C.FirstSend)));
    y := Apply(y2, ClientStep(C.Create(C.FirstSend)));
  }

  /** The server reads the request ... */
  lemma {:induction false} Serve(y: Sys) returns (z: Sys)
    requires Reachable(y) && Asked(y.c)
    requires y.s == S.NewServer(W.SVC)
    ensures Reachable(z) && z.c == y.c && z.s.rp.Got? && z.s.inLog == [W.CALL] && z.s.svc == W.SVC && z.s.lastID == 0
    ensures z.s.sp.Loading? && z.s.handlers == [] && z.s.out == []
  {
    ReachableStep(y, ServerStep(S.Recv(S.Proceed)));
    var y1 := Apply(y, ServerStep(S.Recv(S.Proceed)));
    assert CI.Wire(y.c.out)[0] == W.CALL;
    ReachableStep(y1, ServerStep(S.Recv(S.Read(W.CALL))));
    z := Apply(y1, ServerStep(S.Recv(S.Read(W.CALL))));
  }

  /** ... its handler returns ... */
  lemma {:induction false} Handle(y: Sys) returns (z: Sys)
    requires Reachable(y) && y.s.rp.Got? && y.s.inLog == [W.CALL] && y.s.svc == W.SVC && y.s.lastID == 0
    requires y.s.sp.Loading? && y.s.handlers == [] && y.s.out == []
    ensures Reachable(z) && z.c == y.c && z.s.sp.Loading? && z.s.out == []
    ensures |z.s.handlers| == 1 && z.s.handlers[0].phase.Returning?
    ensures z.s.handlers[0].kind == S.Method && z.s.handlers[0].id == 1
    ensures z.s.handlers[0].final == Some((OK, Some([7])))
  {
    assert S.Judge(y.s) == S.Begin(S.Method, W.CALL.req);
    ReachableStep(y, ServerStep(S.Recv(S.Dispatch)));
    var y1 := Apply(y, ServerStep(S.Recv(S.Dispatch)));
    ReachableStep(y1, ServerStep(S.Handle(0, S.HReturn(OK, Some([7])))));
    z := Apply(y1, ServerStep(S.Handle(0, S.HReturn(OK, Some([7])))));
  }

  /** ... and the sender loop writes the answer. */
  lemma {:induction false} Answer(y: Sys) returns (z: Sys)
    requires Reachable(y) && y.s.sp.Loading? && y.s.out == []
    requires |y.s.handlers| == 1 && y.s.handlers[0].phase.Returning?
    requires y.s.handlers[0].kind == S.Method && y.s.handlers[0].id == 1
    requires y.s.handlers[0].final == Some((OK, Some([7])))
    ensures Reachable(z) && z.c == y.c && z.s.out == [ANSWER]
  {
    ReachableStep(y, ServerStep(S.Send(S.Load)));
    var y1 := Apply(y, ServerStep(S.Send(S.Load)));
    ReachableStep(y1, ServerStep(S.Send(S.Accept(0))));
    var y2 := Apply(y1, ServerStep(S.Send(S.Accept(0))));
    ReachableStep(y2, ServerStep(S.Send(S.Write)));
    z := Apply(y2, ServerStep(S.Send(S.Write)));
  }

  /** The client's receive loop finds the stream ... */
  lemma {:induction false} Hear(y: Sys) returns (z: Sys)
    requires Reachable(y) && Asked(y.c) && y.s.out == [ANSWER]
    ensures Reachable(z) && z.c == y.c.(loop := C.Delivering(0, S.FrameOf(ANSWER)), looked := [S.FrameOf(ANSWER)])
  {
    ReachableStep(y, ClientStep(C.Loop(C.Go)));
    var y1 := Apply(y, ClientStep(C.Loop(C.Go)));
    ST.WireOfSnoc([], ANSWER);
    ReachableStep(y1, ClientStep(C.Loop(C.Read(S.FrameOf(ANSWER)))));
    var y2 := Apply(y1, ClientStep(C.Loop(C.Read(S.FrameOf(ANSWER)))));
    ReachableStep(y2, ClientStep(C.Loop(C.Lookup)));
    z := Apply(y2, ClientStep(C.Loop(C.Lookup)));
  }

  /** ... and the caller gets its reply. */
  lemma {:induction false} Deliver(y: Sys) returns (z: Sys)
    requires Reachable(y) && y.c.loop == C.Delivering(0, S.FrameOf(ANSWER))
    requires |y.c.objs| == 1 && y.c.objs[0].phase.Ready? && y.c.objs[0].desc.Unary? && y.c.objs[0].results == []
    requires y.c.objs[0].st == NewStream(1, 1)
    ensures Reachable(z) && |z.c.objs| == 1 && z.c.objs[0].results == [C.Reply(OK, [7])]
  {
    ReachableStep(y, ClientStep(C.Deliver(C.Open)));
    var y1 := Apply(y, ClientStep(C.Deliver(C.Open)));
    ReachableStep(y1, ClientStep(C.Deliver(C.Push)));
    var y2 := Apply(y1, ClientStep(C.Deliver(C.Push)));
    ReachableStep(y2, ClientStep(C.Call(0, C.Take)));
    z := Apply(y2, ClientStep(C.Call(0, C.Take)));
  }

  /** A call can complete. */
  lemma {:induction false} CallCompletes()
    ensures exists y :: Reachable(y) && |y.c.objs| == 1 && y.c.objs[0].results == [C.Reply(OK, [7])]
  {
    var y1 := Ask();
    var y2 := Serve(y1);
    var y3 := Handle(y2);
    var y4 := Answer(y3);
    var y5 := Hear(y4);
    var y6 := Deliver(y5);
  }
}
