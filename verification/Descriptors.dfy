/** Callers that describe a method as it is registered: what they call is what is served, and
    the handler gets their request. */
module Descriptors {
  import opened Frames
  import C = ClientConn
  import S = ServerConn
  import CO = ClientOutcomes
  import SI = ServerIds
  import SA = ServerAnswers
  import SF = ServerFeeds
  import ST = ServerTheorems
  import opened System
  import opened Correlation
  import opened Transparency

  /** The caller describes the procedure it calls as it is registered. */
  predicate Agrees(svc: S.Services, o: C.Obj) {
    match o.desc
    case Unary => !S.NamesStream(svc, o.req)
    case Streaming(client, server) =>
      S.NamesStream(svc, o.req) && svc[o.req.service].streams[o.req.procedure] == S.StreamInfo(client, server)
  }

  /** Data comes from the handler of a stream that has sent messages or is server-streaming. */
  lemma {:induction false} DataOrigin(s: S.Server, i: nat) returns (h: nat)
    requires ST.ServerInv(s) && i < |s.acc| && !S.FrameOf(s.acc[i]).ResponseFrame?
    ensures S.FrameOf(s.acc[i]).DataFrame? && h < |s.handlers| && s.handlers[h].id == S.FrameOf(s.acc[i]).id
    ensures s.handlers[h].kind.Stream? && (s.handlers[h].kind.info.server || s.handlers[h].sent != [])
  {
    var r := s.acc[i];
    assert SA.EntryRight(s, r);
    h := r.origin.h;
    SA.ByHas(s.acc, r.origin, i);
    assert r in SA.Answers(h, s.handlers[h]);
    assert SA.Shaped(s.handlers[h]);
  }

  /** A handler serves the request of the one stream that has its id. */
  lemma {:induction false} ServesCaller(y: Sys, n: nat, h: nat)
    requires Reachable(y) && BeforeWrap(y) && n < |y.c.objs| && h < |y.s.handlers|
    requires y.s.handlers[h].id == C.IdOf(n)
    ensures y.s.handlers[h].req == y.c.objs[n].req && S.Serves(y.s.svc, y.c.objs[n].req, y.s.handlers[h].kind)
  {
    ClientToServer(y, h);
    IdsDiffer(ClientOf(y, h), n);
    SysInvHolds(y);
    assert SI.HandlerRight(y.s.svc, y.s.inLog, y.s.lastID, y.s.handlers[h]);
  }

  /** Data that a caller has taken was sent by a handler of its stream. */
  lemma {:induction false} DataTaken(y: Sys, n: nat, i: nat) returns (h: nat)
    requires Reachable(y) && BeforeWrap(y) && n < |y.c.objs| && i < |y.c.objs[n].taken|
    requires !y.c.objs[n].taken[i].ResponseFrame?
    ensures h < |y.s.handlers| && y.s.handlers[h].id == C.IdOf(n) && y.c.objs[n].taken[i].DataFrame?
    ensures y.s.handlers[h].kind.Stream? && (y.s.handlers[h].kind.info.server || y.s.handlers[h].sent != [])
  {
    SysInvHolds(y);
    CallerHears(y, n);
    var f := y.c.objs[n].taken[i];
    OnIdMembers(ST.WireOf(y.s.out), C.IdOf(n));
    assert f in OnId(ST.WireOf(y.s.out), C.IdOf(n));
    var j := WireHasOrigin(y.s.out, f);
    assert y.s.out[j] == y.s.acc[j];
    h := DataOrigin(y.s, j);
  }

  /** A caller that describes its method as it is registered never gets a protocol error,
      unless the handler of a stream that is not server-streaming has sent messages. */
  lemma {:induction false} AgreeingCaller(y: Sys, n: nat)
    requires Reachable(y) && BeforeWrap(y) && n < |y.c.objs| && Agrees(y.s.svc, y.c.objs[n])
    requires C.ProtocolErr in y.c.objs[n].results
    ensures y.c.objs[n].desc.Streaming? && !y.c.objs[n].desc.server
    ensures exists h :: 0 <= h < |y.s.handlers| && y.s.handlers[h].id == C.IdOf(n) && y.s.handlers[h].sent != []
  {
    SidesReachable(y);
    var o := y.c.objs[n];
    if o.desc.Unary? {
      CO.UnaryTold(y.c, n);
      var h := DataTaken(y, n, 0);
      ServesCaller(y, n, h);
      assert false;
    } else {
      CO.ProtocolTold(y.c, n);
      var i :| 0 <= i < |o.taken| && !o.taken[i].ResponseFrame? && !(o.taken[i].DataFrame? && o.desc.server);
      var h := DataTaken(y, n, i);
      ServesCaller(y, n, h);
      assert y.s.handlers[h].sent != [];
    }
  }

  /** The request of a streaming caller is the first thing in its handler's queue, even an
      empty one if the client side does not stream, and then come the messages it has sent. */
  lemma {:induction false} RequestArrives(y: Sys, n: nat, h: nat)
    requires Reachable(y) && BeforeWrap(y) && n < |y.c.objs| && h < |y.s.handlers|
    requires y.s.handlers[h].id == C.IdOf(n) && y.s.handlers[h].kind.Stream?
    requires !y.s.handlers[h].feedErr && !ST.BeingStarted(y.s, h)
    ensures var o, c := y.s.handlers[h], y.c.objs[n];
            if o.kind.info.client && c.req.payload == [] then o.fed <= c.sent
            else o.fed != [] && o.fed[0] == c.req.payload && o.fed[1..] <= c.sent
  {
    ServesCaller(y, n, h);
    FedIsSent(y, h);
    ClientToServer(y, h);
    IdsDiffer(ClientOf(y, h), n);
    var o, c := y.s.handlers[h], y.c.objs[n];
    ST.AfterFirst(o.fed, SF.Opens(o.kind, c.req.payload), c.sent);
  }

  lemma {:induction false} FedIsSent(y: Sys, h: nat)
    requires Reachable(y) && BeforeWrap(y) && h < |y.s.handlers|
    requires !y.s.handlers[h].feedErr && !ST.BeingStarted(y.s, h)
    ensures y.s.handlers[h].reqAt < |y.c.out| && ClientOf(y, h) < |y.c.objs|
    ensures var o, c := y.s.handlers[h], y.c.objs[ClientOf(y, h)];
            SF.Opens(o.kind, c.req.payload) <= o.fed <= SF.Opens(o.kind, c.req.payload) + c.sent
  {
    HandlerServes(y, h);
    ClientToServer(y, h);
    var c, o := y.c.objs[ClientOf(y, h)], y.s.handlers[h];
    SysInvHolds(y);
    ST.FedIsDue(y.s, h);
    HeardIsSpoken(y, ClientOf(y, h));
    DueIsSent(y.s.inLog, c, o.kind, o.reqAt);
    var j := |OnId(y.s.inLog, c.st.id)| - 1;
    PrefixOfSent(o.fed, SF.Opens(o.kind, c.req.payload), c.sent, if j <= |c.sent| then j else |c.sent|);
  }
}
