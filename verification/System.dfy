/** A client and a server joined by a connection: two reliable ordered wires whose
    failure is permanent. A receiver reads the next frame the other side has written; a
    connection error can hit a reader at any time and ends its loop. */
module System {
  import opened Frames
  import C = ClientConn
  import S = ServerConn
  import CI = ClientIds
  import CQ = ClientQueues
  import CT = ClientTheorems
  import SI = ServerIds
  import SA = ServerAnswers
  import ST = ServerTheorems

  datatype Sys = Sys(c: C.Client, s: S.Server)

  datatype Step = ClientStep(ca: C.Action) | ServerStep(sa: S.Action)

  /** The frames the client has read. */
  ghost function ReadLog(c: C.Client): seq<Frame> {
    c.looked + (if c.loop.Have? then [c.loop.f] else [])
  }

  ghost predicate Next(wire: seq<Frame>, read: seq<Frame>, f: Frame) {
    |read| < |wire| && wire[|read|] == f
  }

  ghost predicate Enabled(y: Sys, a: Step) {
    match a
    case ClientStep(ca) =>
      && C.Enabled(y.c, ca)
      && (ca.Loop? && ca.la.Read? ==> Next(ST.WireOf(y.s.out), ReadLog(y.c), ca.la.f))
    case ServerStep(sa) =>
      && S.Enabled(y.s, sa)
      && (sa.Recv? && sa.ra.Read? ==> Next(CI.Wire(y.c.out), y.s.inLog, sa.ra.f))
  }

  ghost function Apply(y: Sys, a: Step): Sys
    requires Enabled(y, a)
  {
    match a
    case ClientStep(ca) => y.(c := C.Apply(y.c, ca))
    case ServerStep(sa) => y.(s := S.Apply(y.s, sa))
  }

  ghost predicate Init(y: Sys) {
    C.Init(y.c) && S.Init(y.s)
  }

  ghost predicate IsRun(states: seq<Sys>, acts: seq<Step>) {
    && |states| == |acts| + 1
    && Init(states[0])
    && (forall i {:trigger acts[i]} :: 0 <= i < |acts| ==>
          Enabled(states[i], acts[i]) && states[i + 1] == Apply(states[i], acts[i]))
  }

  ghost predicate Reachable(y: Sys) {
    exists states, acts :: IsRun(states, acts) && y == states[|acts|]
  }

  // ---- the invariant ----

  /** Each side has read a prefix of what the other wrote. */
  ghost predicate WiresRight(y: Sys) {
    y.s.inLog <= CI.Wire(y.c.out) && ReadLog(y.c) <= ST.WireOf(y.s.out)
  }

  ghost predicate EarlierId(id: StreamID, n: nat) {
    exists m :: 0 <= m < n && C.IdOf(m) == id
  }

  /** No frame looked up before stream n was registered carries a later stream's id. */
  ghost predicate Fresh(c: C.Client) {
    forall n, i :: 0 <= n < |c.objs| && 0 <= i < c.objs[n].regAt && i < |c.looked| ==> EarlierId(c.looked[i].id, n)
  }

  ghost predicate SysInv(y: Sys) {
    CT.ClientInv(y.c) && ST.ServerInv(y.s) && WiresRight(y) && Fresh(y.c)
  }

  /** A frame is read, looked up, or neither. */
  lemma {:induction false} ClientReads(c: C.Client, a: C.Action)
    requires C.Enabled(c, a)
    ensures var c' := C.Apply(c, a);
            && c.out <= c'.out && c.looked <= c'.looked
            && ReadLog(c') == (if a.Loop? && a.la.Read? then ReadLog(c) + [a.la.f] else ReadLog(c))
  {
    match a
    case Create(ca) =>
    case Call(_, ka) =>
    case Deliver(_) =>
    case Loop(la) =>
      if la.Lookup? {
        assert ReadLog(C.LoopApply(c, la)) == ReadLog(c);
      }
    case Conn(_) =>
  }

  lemma {:induction false} ServerReads(s: S.Server, a: S.Action)
    requires S.Enabled(s, a)
    ensures var s' := S.Apply(s, a);
            && s.out <= s'.out
            && s'.inLog == (if a.Recv? && a.ra.Read? then s.inLog + [a.ra.f] else s.inLog)
  {
    match a
    case Recv(ra) => ReceiverReads(s, ra);
    case Send(sa) => SenderReads(s, sa);
    case Handle(_, _) =>
    case Shutdown =>
  }

  lemma {:induction false} SenderReads(s: S.Server, a: S.SendAct)
    requires S.SendEnabled(s, a)
    ensures s.out <= S.SendApply(s, a).out && S.SendApply(s, a).inLog == s.inLog
  {
  }

  lemma {:induction false} ReceiverReads(s: S.Server, a: S.RecvAct)
    requires S.RecvEnabled(s, a) && (S.InFeed(s.rp) ==> s.inLog != [])
    ensures S.RecvApply(s, a).out == s.out
    ensures S.RecvApply(s, a).inLog == (if a.Read? then s.inLog + [a.f] else s.inLog)
  {
    if a.Dispatch? {
      FollowReads(s, S.Judge(s));
    } else if SI.IsFeed(a) {
      FeedReads(s, a);
    }
  }

  lemma {:induction false} FollowReads(s: S.Server, v: S.Verdict)
    requires s.inLog != []
    ensures S.Follow(s, v).inLog == s.inLog && S.Follow(s, v).out == s.out
  {
  }

  lemma {:induction false} FeedReads(s: S.Server, a: S.RecvAct)
    requires S.InFeed(s.rp) && s.rp.h < |s.handlers| && S.FeedEnabled(s.rp, s.handlers[s.rp.h], a) && s.inLog != []
    ensures S.FeedApply(s, a).inLog == s.inLog && S.FeedApply(s, a).out == s.out
  {
  }

  lemma {:induction false} WireGrows(a: seq<C.Sent>, b: seq<C.Sent>)
    requires a <= b
    ensures CI.Wire(a) <= CI.Wire(b)
  {
  }

  lemma {:induction false} WiresStep(y: Sys, a: Step)
    requires WiresRight(y) && Enabled(y, a)
    ensures WiresRight(Apply(y, a))
  {
    match a
    case ClientStep(ca) => ClientWires(y, ca);
    case ServerStep(sa) => ServerWires(y, sa);
  }

  lemma {:induction false} ClientWires(y: Sys, a: C.Action)
    requires WiresRight(y) && Enabled(y, ClientStep(a))
    ensures WiresRight(Apply(y, ClientStep(a)))
  {
    ClientReads(y.c, a);
    WireGrows(y.c.out, C.Apply(y.c, a).out);
  }

  lemma {:induction false} ServerWires(y: Sys, a: S.Action)
    requires WiresRight(y) && Enabled(y, ServerStep(a))
    ensures WiresRight(Apply(y, ServerStep(a)))
  {
    ServerReads(y.s, a);
    ST.WireOfPrefix(y.s.out, S.Apply(y.s, a).out);
  }

  /** Every frame the server writes answers a frame it has received. */
  lemma {:induction false} WrittenIds(s: S.Server, acc: seq<S.Resp>, i: nat)
    requires SI.IdInv(s) && i < |ST.WireOf(acc)|
    requires forall j :: 0 <= j < |acc| ==> SA.EntryRight(s, acc[j])
    ensures exists k :: 0 <= k < |s.inLog| && s.inLog[k].id == ST.WireOf(acc)[i].id
  {
    ST.WireOfLength(acc);
    var front := acc[..|acc| - 1];
    ST.WireOfLength(front);
    if i < |front| {
      WrittenIds(s, front, i);
    } else {
      var r := acc[|acc| - 1];
      assert SA.EntryRight(s, r);
      if r.origin.FromHandler? {
        assert SI.HandlerRight(s.svc, s.inLog, s.lastID, s.handlers[r.origin.h]);
        assert s.inLog[s.handlers[r.origin.h].reqAt].id == r.id;
      } else {
        assert s.inLog[r.origin.k].id == r.id;
      }
    }
  }

  /** So every frame the client reads carries the id of a stream it has allocated. */
  lemma {:induction false} ReadIdsKnown(y: Sys, i: nat)
    requires SysInv(y) && i < |y.c.looked|
    ensures EarlierId(y.c.looked[i].id, |y.c.objs|)
  {
    var wire := ST.WireOf(y.s.out);
    assert y.c.looked[i] == ReadLog(y.c)[i] == wire[i];
    forall j | 0 <= j < |y.s.out| ensures SA.EntryRight(y.s, y.s.out[j]) {
      assert y.s.out[j] == y.s.acc[j];
    }
    WrittenIds(y.s, y.s.out, i);
    var k :| 0 <= k < |y.s.inLog| && y.s.inLog[k].id == wire[i].id;
    assert y.s.inLog[k] == CI.Wire(y.c.out)[k];
    assert C.IdOf(y.c.out[k].n) == wire[i].id;
  }

  /** regAt never changes, and a new stream's is the present. */
  lemma {:induction false} RegAtKept(c: C.Client, a: C.Action, n: nat)
    requires C.Enabled(c, a) && n < |C.Apply(c, a).objs|
    ensures n < |c.objs| ==> C.Apply(c, a).objs[n].regAt == c.objs[n].regAt
    ensures n >= |c.objs| ==> n == |c.objs| && C.Apply(c, a).objs[n].regAt == |c.looked|
  {
    match a
    case Create(ca) => CreateKeepsRegAt(c, ca, n);
    case Call(m, ka) => CallKeepsRegAt(c.objs[m], ka);
    case Deliver(da) => DeliverKeepsRegAt(c.objs[c.loop.n], c.loop.f, da);
    case Loop(la) => LoopKeepsRegAt(c, la, n);
    case Conn(_) =>
  }

  lemma {:induction false} CreateKeepsRegAt(c: C.Client, a: C.CreateAct, n: nat)
    requires C.CreateEnabled(c, a) && n < |C.CreateApply(c, a).objs|
    ensures n < |c.objs| ==> C.CreateApply(c, a).objs[n].regAt == c.objs[n].regAt
    ensures n >= |c.objs| ==> n == |c.objs| && C.CreateApply(c, a).objs[n].regAt == |c.looked|
  {
  }

  lemma {:induction false} LoopKeepsRegAt(c: C.Client, a: C.LoopAct, n: nat)
    requires C.LoopEnabled(c, a) && n < |C.LoopApply(c, a).objs|
    ensures n < |c.objs| && C.LoopApply(c, a).objs[n].regAt == c.objs[n].regAt
  {
  }

  lemma {:induction false} DeliverKeepsRegAt(o: C.Obj, f: Frame, a: C.DeliverAct)
    requires a.Push? ==> |o.st.queue| < o.st.cap
    ensures C.DeliverNext(o, f, a).regAt == o.regAt
  {
  }

  lemma {:induction false} CallKeepsRegAt(o: C.Obj, a: C.CallAct)
    requires a.Take? ==> o.st.queue != []
    requires a.TakeErr? ==> o.st.closed.Some?
    ensures C.CallNext(o, a).regAt == o.regAt
  {
  }

  lemma {:induction false} FreshStep(y: Sys, a: C.Action)
    requires SysInv(y) && C.Enabled(y.c, a)
    ensures Fresh(C.Apply(y.c, a))
  {
    var c' := C.Apply(y.c, a);
    ClientReads(y.c, a);
    forall n, i | 0 <= n < |c'.objs| && 0 <= i < c'.objs[n].regAt && i < |c'.looked|
      ensures EarlierId(c'.looked[i].id, n)
    {
      RegAtKept(y.c, a, n);
      if n < |y.c.objs| {
        assert CQ.StreamRight(y.c, n);
        assert EarlierId(y.c.looked[i].id, n);
      } else {
        ReadIdsKnown(y, i);
      }
      assert c'.looked[i] == y.c.looked[i];
    }
  }

  lemma {:induction false} SysInvStep(y: Sys, a: Step)
    requires SysInv(y) && Enabled(y, a)
    ensures SysInv(Apply(y, a))
  {
    WiresStep(y, a);
    match a
    case ClientStep(ca) =>
      CT.ClientInvStep(y.c, ca);
      FreshStep(y, ca);
    case ServerStep(sa) =>
      ST.ServerInvStep(y.s, sa);
  }

  lemma {:induction false} InitWires(y: Sys)
    requires Init(y)
    ensures WiresRight(y) && Fresh(y.c)
  {
  }

  lemma {:induction false} StartInv(y: Sys)
    requires Init(y)
    ensures SysInv(y)
  {
    InitWires(y);
    CT.ClientInvInit(y.c);
    ST.ServerInvInit(y.s);
  }

  lemma {:induction false} RunStarts(states: seq<Sys>, acts: seq<Step>, i: nat)
    requires IsRun(states, acts) && i == 0
    ensures SysInv(states[i])
  {
    StartInv(states[i]);
  }

  lemma {:induction false} RunGoesOn(states: seq<Sys>, acts: seq<Step>, j: nat, i: nat)
    requires IsRun(states, acts) && i == j + 1 <= |acts| && SysInv(states[j])
    ensures SysInv(states[i])
  {
    SysInvStep(states[j], acts[j]);
  }

  lemma {:induction false} SysInvAt(states: seq<Sys>, acts: seq<Step>, i: nat)
    requires IsRun(states, acts) && i <= |acts|
    ensures SysInv(states[i])
    decreases i
  {
    if i == 0 {
      RunStarts(states, acts, i);
    } else {
      var j: nat := i - 1;
      SysInvAt(states, acts, j);
      RunGoesOn(states, acts, j, i);
    }
  }

  lemma {:induction false} SysInvHolds(y: Sys)
    requires Reachable(y)
    ensures SysInv(y)
  {
    var states, acts :| IsRun(states, acts) && y == states[|acts|];
    SysInvAt(states, acts, |acts|);
  }

  // ---- each side by itself ----

  lemma {:induction false} SidesReachableAt(states: seq<Sys>, acts: seq<Step>, i: nat)
    requires IsRun(states, acts) && i <= |acts|
    ensures C.Reachable(states[i].c) && S.Reachable(states[i].s)
    decreases i
  {
    if i == 0 {
      assert C.IsRun([states[0].c], []);
      assert S.IsRun([states[0].s], []);
    } else {
      var j: nat := i - 1;
      SidesReachableAt(states, acts, j);
      var a := acts[j];
      SideSteps(states[j], a);
    }
  }

  lemma {:induction false} SideSteps(y: Sys, a: Step)
    requires C.Reachable(y.c) && S.Reachable(y.s) && Enabled(y, a)
    ensures C.Reachable(Apply(y, a).c) && S.Reachable(Apply(y, a).s)
  {
    match a
    case ClientStep(ca) => C.ReachableStep(y.c, ca);
    case ServerStep(sa) => S.ReachableStep(y.s, sa);
  }

  /** What holds of every run of one side holds of it in every run of both. */
  lemma {:induction false} SidesReachable(y: Sys)
    requires Reachable(y)
    ensures C.Reachable(y.c) && S.Reachable(y.s)
  {
    var states, acts :| IsRun(states, acts) && y == states[|acts|];
    SidesReachableAt(states, acts, |acts|);
  }
}
