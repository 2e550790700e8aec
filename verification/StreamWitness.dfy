/** A run in which a streaming call with an empty request completes: the handler reads the
    request, its message arrives, and then the end. */
module StreamWitness {
  import opened Frames
  import opened StreamQueue
  import opened System
  import C = ClientConn
  import S = ServerConn
  import CI = ClientIds
  import ST = ServerTheorems
  import opened SystemWitness

  const SVC: S.Services := map["s" := S.ServiceDesc({}, map["t" := S.StreamInfo(false, true)])]
  const DESC := C.Streaming(false, true)
  const REQ := Request("s", "t", [])
  const OPENING := RequestFrame(1, Flags(true, false, false), REQ)
  const MESSAGE := DataFrame(1, NO_FLAGS, [5])
  const ENDING := DataFrame(1, Flags(true, false, true), [])

  /** A caller between calls that has taken every frame looked up. */
  ghost predicate Waiting(c: C.Client) {
    && |c.objs| == 1 && c.objs[0].phase.Ready? && c.objs[0].desc == DESC
    && c.objs[0].st == NewStream(1, 64) && c.streams == map[1 := 0] && c.loop.Top? && !c.ctxDone
  }

  /** The request is written ... */
  lemma {:induction false} Asks() returns (y: Sys)
    ensures Reachable(y) && Waiting(y.c) && y.c.objs[0].results == [] && y.c.looked == []
    ensures y.c.out == [C.Sent(0, OPENING)] && y.s == S.NewServer(SVC)
  {
    var c0 := C.Client(1, map[], [], C.Free, false, false, false, C.Top, [], []);
    var s0 := S.NewServer(SVC);
    var y0 := Sys(c0, s0);
    assert IsRun([y0], []);
    ReachableStep(y0, ClientStep(C.Create(C.Lock(DESC, REQ))));
    var y1 := Apply(y0, ClientStep(C.Create(C.Lock(DESC, REQ))));
    ReachableStep(y1, ClientStep(C.Create(C.Alloc)));
    var y2 := Apply(y1, ClientStep(C.Create(C.Alloc)));
    ReachableStep(y2, ClientStep(C.Create(C.FirstSend)));
    y := Apply(y2, ClientStep(C.Create(C.FirstSend)));
  }

  /** ... read, and given to a handler ... */
  lemma {:induction false} Starts(y: Sys) returns (z: Sys)
    requires Reachable(y) && y.c.out == [C.Sent(0, OPENING)] && y.s == S.NewServer(SVC)
    ensures Reachable(z) && z.c == y.c && z.s.sp.Loading? && z.s.out == [] && z.s.rp == S.Starting(0, S.Check)
    ensures z.s.inLog == [OPENING] && |z.s.handlers| == 1
    ensures var o := z.s.handlers[0];
            o.phase.Working? && o.kind == S.Stream(S.StreamInfo(false, true)) && o.id == 1 && o.req == REQ
            && o.queue == [] && o.cap == 1 && !o.remoteClosed && !o.ctxDone && o.taken == []
  {
    ReachableStep(y, ServerStep(S.Recv(S.Proceed)));
    var y1 := Apply(y, ServerStep(S.Recv(S.Proceed)));
    assert CI.Wire(y.c.out)[0] == OPENING;
    ReachableStep(y1, ServerStep(S.Recv(S.Read(OPENING))));
    var y2 := Apply(y1, ServerStep(S.Recv(S.Read(OPENING))));
    assert S.Judge(y2.s) == S.Begin(S.Stream(S.StreamInfo(false, true)), REQ);
    ReachableStep(y2, ServerStep(S.Recv(S.Dispatch)));
    z := Apply(y2, ServerStep(S.Recv(S.Dispatch)));
  }

  /** ... whose RecvMsg returns the empty message, ... */
  lemma {:induction false} Reads(y: Sys) returns (z: Sys)
    requires Reachable(y) && y.s.sp.Loading? && y.s.out == [] && y.s.rp == S.Starting(0, S.Check)
    requires y.s.inLog == [OPENING] && |y.s.handlers| == 1
    requires var o := y.s.handlers[0];
             o.phase.Working? && o.kind == S.Stream(S.StreamInfo(false, true)) && o.id == 1 && o.req == REQ
             && o.queue == [] && o.cap == 1 && !o.remoteClosed && !o.ctxDone && o.taken == []
    ensures Reachable(z) && z.c == y.c && Working(z.s) && z.s.out == []
  {
    ReachableStep(y, ServerStep(S.Recv(S.FeedCheck)));
    var y1 := Apply(y, ServerStep(S.Recv(S.FeedCheck)));
    ReachableStep(y1, ServerStep(S.Recv(S.Feed)));
    var y2 := Apply(y1, ServerStep(S.Recv(S.Feed)));
    ReachableStep(y2, ServerStep(S.Handle(0, S.HRecv)));
    z := Apply(y2, ServerStep(S.Handle(0, S.HRecv)));
  }

  /** The sender loop writes what handler 0 offers. */
  lemma {:induction false} Writes(y: Sys) returns (z: Sys)
    requires Reachable(y) && y.s.sp.Loading? && |y.s.handlers| == 1 && S.CanAccept(y.s.handlers[0])
    ensures Reachable(z) && z.c == y.c && z.s.handlers == [S.Accepted(y.s.handlers[0])]
    ensures var r := S.Offered(0, y.s.handlers[0]);
            ST.WireOf(z.s.out) == ST.WireOf(y.s.out) + [S.FrameOf(r)] && (!r.closeStream ==> z.s.sp.Loading?)
  {
    ReachableStep(y, ServerStep(S.Send(S.Load)));
    var y1 := Apply(y, ServerStep(S.Send(S.Load)));
    ReachableStep(y1, ServerStep(S.Send(S.Accept(0))));
    var y2 := Apply(y1, ServerStep(S.Send(S.Accept(0))));
    ReachableStep(y2, ServerStep(S.Send(S.Write)));
    z := Apply(y2, ServerStep(S.Send(S.Write)));
    ST.WireOfSnoc(y2.s.out, y2.s.sp.r);
  }

  /** A handler at work that has read the request. */
  ghost predicate Working(s: S.Server) {
    && s.sp.Loading? && |s.handlers| == 1
    && var o := s.handlers[0];
       o.phase.Working? && o.kind == S.Stream(S.StreamInfo(false, true)) && o.id == 1 && o.taken == [[]]
  }

  /** ... which sends a message ... */
  lemma {:induction false} Sends(y: Sys) returns (z: Sys)
    requires Reachable(y) && Working(y.s) && y.s.out == []
    ensures Reachable(z) && z.c == y.c && Working(z.s) && ST.WireOf(z.s.out) == [MESSAGE]
  {
    ReachableStep(y, ServerStep(S.Handle(0, S.HSend(Some([5])))));
    z := Writes(Apply(y, ServerStep(S.Handle(0, S.HSend(Some([5]))))));
  }

  /** ... and returns. */
  lemma {:induction false} Returns(y: Sys) returns (z: Sys)
    requires Reachable(y) && Working(y.s) && ST.WireOf(y.s.out) == [MESSAGE]
    ensures Reachable(z) && z.c == y.c && ST.WireOf(z.s.out) == [MESSAGE, ENDING]
    ensures |z.s.handlers| == 1 && z.s.handlers[0].taken == [[]]
  {
    ReachableStep(y, ServerStep(S.Handle(0, S.HReturn(OK, None))));
    z := Writes(Apply(y, ServerStep(S.Handle(0, S.HReturn(OK, None)))));
  }

  /** The receive loop finds the stream for the next frame ... */
  lemma {:induction false} Finds(y: Sys, f: Frame) returns (z: Sys)
    requires Reachable(y) && Waiting(y.c) && f.id == 1
    requires Next(ST.WireOf(y.s.out), y.c.looked, f)
    ensures Reachable(z) && z.s == y.s && z.c == y.c.(loop := C.Delivering(0, f), looked := y.c.looked + [f])
  {
    ReachableStep(y, ClientStep(C.Loop(C.Go)));
    var y1 := Apply(y, ClientStep(C.Loop(C.Go)));
    assert ReadLog(y1.c) == y.c.looked;
    ReachableStep(y1, ClientStep(C.Loop(C.Read(f))));
    var y2 := Apply(y1, ClientStep(C.Loop(C.Read(f))));
    ReachableStep(y2, ClientStep(C.Loop(C.Lookup)));
    z := Apply(y2, ClientStep(C.Loop(C.Lookup)));
  }

  /** ... and its caller takes it. */
  lemma {:induction false} Takes(y: Sys, f: Frame) returns (z: Sys)
    requires Reachable(y) && y.c.loop == C.Delivering(0, f) && f.DataFrame? && !y.c.ctxDone
    requires |y.c.objs| == 1 && y.c.objs[0].phase.Ready? && y.c.objs[0].desc == DESC
    requires y.c.objs[0].st == NewStream(1, 64) && y.c.streams == map[1 := 0]
    ensures Reachable(z) && z.s == y.s && z.c.looked == y.c.looked && |z.c.objs| == 1
    ensures z.c.objs[0].results == y.c.objs[0].results + [C.Decode(DESC, f).0]
    ensures !C.Decode(DESC, f).1 ==> Waiting(z.c)
  {
    ReachableStep(y, ClientStep(C.Deliver(C.Open)));
    var y1 := Apply(y, ClientStep(C.Deliver(C.Open)));
    ReachableStep(y1, ClientStep(C.Deliver(C.Push)));
    var y2 := Apply(y1, ClientStep(C.Deliver(C.Push)));
    ReachableStep(y2, ClientStep(C.Call(0, C.Take)));
    z := Apply(y2, ClientStep(C.Call(0, C.Take)));
  }

  /** Both frames are taken. */
  lemma {:induction false} Hears(y: Sys) returns (z: Sys)
    requires Reachable(y) && Waiting(y.c) && y.c.objs[0].results == [] && y.c.looked == []
    requires ST.WireOf(y.s.out) == [MESSAGE, ENDING]
    ensures Reachable(z) && z.s == y.s && |z.c.objs| == 1 && z.c.objs[0].results == [C.Msg([5]), C.EndOfStream]
  {
    var y1 := Finds(y, MESSAGE);
    var y2 := Takes(y1, MESSAGE);
    var y3 := Finds(y2, ENDING);
    z := Takes(y3, ENDING);
  }

  /** A streaming call can complete, also with an empty request. */
  lemma {:induction false} StreamCompletes()
    ensures exists y :: Reachable(y) && |y.c.objs| == 1 && |y.s.handlers| == 1 && y.s.handlers[0].taken == [[]]
                        && y.c.objs[0].results == [C.Msg([5]), C.EndOfStream]
  {
    var y1 := Asks();
    var y2 := Starts(y1);
    var y3 := Reads(y2);
    var y4 := Sends(y3);
    var y5 := Returns(y4);
    var y6 := Hears(y5);
  }
}
