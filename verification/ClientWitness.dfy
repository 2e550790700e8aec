/** Two runs of a client against a peer that answers as it likes. */
module ClientWitness {
  import opened Frames
  import opened StreamQueue
  import opened ClientConn
  import opened ClientQueues

  const DESC := Streaming(true, true)
  const REQ := Request("s", "m", [])
  const ERROR := ResponseFrame(1, Failed(13), [])

  /** One stream has been allocated and its request not yet sent. */
  lemma {:induction false} Allocated() returns (c: Client)
    ensures Reachable(c) && c.lock == ClientConn.Allocated(0) && c.streams == map[1 := 0] && |c.objs| == 1
    ensures c.objs[0].st == NewStream(1, 64) && c.objs[0].desc == DESC
    ensures c.objs[0].phase.Opening? && c.objs[0].taken == []
    ensures !c.broken && !c.connClosed && !c.ctxDone && c.loop.Top?
  {
    var c0 := Client(1, map[], [], Free, false, false, false, Top, [], []);
    assert IsRun([c0], []);
    ReachableStep(c0, Create(Lock(DESC, REQ)));
    var c1 := Apply(c0, Create(Lock(DESC, REQ)));
    ReachableStep(c1, Create(Alloc));
    c := Apply(c1, Create(Alloc));
  }

  /** A first send fails, and the stream stays in the map, open. */
  lemma {:induction false} LeftRegistered()
    ensures exists c :: Reachable(c) && |c.objs| == 1 && c.objs[0].phase.TurnedAway?
                        && Registered(c, 0) && c.objs[0].st.closed.None?
  {
    var c := Allocated();
    ReachableStep(c, Create(FirstSendFail(false)));
    var d := Apply(c, Create(FirstSendFail(false)));
    assert IdOf(0) == 1;
    assert Registered(d, 0);
  }

  /** The peer answers a streaming call with an error. */
  lemma {:induction false} ErrorRead(c: Client) returns (d: Client)
    requires Reachable(c) && c.lock == ClientConn.Allocated(0) && c.streams == map[1 := 0] && |c.objs| == 1
    requires c.objs[0].st == NewStream(1, 64) && c.objs[0].desc == DESC && c.objs[0].taken == []
    requires !c.broken && !c.connClosed && !c.ctxDone && c.loop.Top?
    ensures Reachable(d) && d.loop == Delivering(0, ERROR) && d.streams == map[1 := 0] && |d.objs| == 1
    ensures d.objs[0].st == NewStream(1, 64) && d.objs[0].desc == DESC
    ensures d.objs[0].phase.Ready? && d.objs[0].taken == []
  {
    ReachableStep(c, Create(FirstSend));
    var c1 := Apply(c, Create(FirstSend));
    ReachableStep(c1, Loop(Go));
    var c2 := Apply(c1, Loop(Go));
    ReachableStep(c2, Loop(Read(ERROR)));
    var c3 := Apply(c2, Loop(Read(ERROR)));
    ReachableStep(c3, Loop(Lookup));
    d := Apply(c3, Loop(Lookup));
  }

  /** The caller takes that response, and its stream is still registered and open. */
  lemma {:induction false} OpenAfterError()
    ensures exists c :: Reachable(c) && |c.objs| == 1 && c.objs[0].taken == [ERROR] && c.objs[0].phase.Ready?
                        && c.objs[0].st.closed.None? && Registered(c, 0)
  {
    var c := Allocated();
    var d := ErrorRead(c);
    ReachableStep(d, Deliver(Open));
    var d1 := Apply(d, Deliver(Open));
    ReachableStep(d1, Deliver(Push));
    var d2 := Apply(d1, Deliver(Push));
    ReachableStep(d2, Call(0, Take));
    var d3 := Apply(d2, Call(0, Take));
    assert IdOf(0) == 1;
    assert Registered(d3, 0);
  }
}
