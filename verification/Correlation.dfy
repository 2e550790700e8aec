/** End-to-end guarantees of calls: which answer a call gets, and which ids are accepted. */
module Correlation {
  import opened Frames
  import C = ClientConn
  import S = ServerConn
  import CI = ClientIds
  import CQ = ClientQueues
  import SI = ServerIds
  import SA = ServerAnswers
  import ST = ServerTheorems
  import SR = ServerRulings
  import opened System

  /** Fewer than 2^31 streams have been allocated. */
  ghost predicate BeforeWrap(y: Sys) {
    |y.c.objs| <= HALF_SPACE
  }

  lemma {:induction false} IdsDiffer(m: nat, n: nat)
    requires m < HALF_SPACE && n < HALF_SPACE && C.IdOf(m) == C.IdOf(n)
    ensures m == n
  {
    CI.IdBeforeWrap(m);
    CI.IdBeforeWrap(n);
  }

  lemma {:induction false} NoneOnId(fs: seq<Frame>, id: StreamID)
    requires forall i :: 0 <= i < |fs| ==> fs[i].id != id
    ensures OnId(fs, id) == []
  {
    if fs != [] {
      NoneOnId(fs[..|fs| - 1], id);
    }
  }

  lemma {:induction false} NoneBefore(looked: seq<Frame>, k: nat, id: StreamID)
    requires k <= |looked| && forall i :: 0 <= i < k ==> looked[i].id != id
    ensures OnId(looked[k..], id) == OnId(looked, id)
  {
    NoneOnId(looked[..k], id);
    assert looked == looked[..k] + looked[k..];
    OnIdConcat(looked[..k], looked[k..], id);
  }

  lemma {:induction false} EarlierDiffers(id: StreamID, n: nat)
    requires EarlierId(id, n) && n < HALF_SPACE
    ensures id != C.IdOf(n)
  {
    var m :| 0 <= m < n && C.IdOf(m) == id;
    if C.IdOf(m) == C.IdOf(n) {
      IdsDiffer(m, n);
    }
  }

  /** What the server has received of stream n is a prefix of what its caller has sent. */
  lemma {:induction false} ServerHears(y: Sys, n: nat)
    requires SysInv(y) && BeforeWrap(y) && n < |y.c.objs|
    ensures OnId(y.s.inLog, C.IdOf(n)) <= CI.Spoken(y.c.objs[n])
  {
    CI.OnIdIsOf(y.c.out, n);
    OnIdPrefix(y.s.inLog, CI.Wire(y.c.out), C.IdOf(n));
  }

  /** What has arrived for stream n is a prefix of what the server wrote under its id. */
  lemma {:induction false} ClientHears(y: Sys, n: nat)
    requires SysInv(y) && BeforeWrap(y) && n < |y.c.objs|
    ensures y.c.objs[n].st.id == C.IdOf(n) && y.c.objs[n].regAt <= |y.c.looked|
    ensures CQ.Arrivals(y.c.looked, y.c.objs[n]) <= OnId(ST.WireOf(y.s.out), C.IdOf(n))
  {
    var o := y.c.objs[n];
    var id := C.IdOf(n);
    assert CQ.StreamRight(y.c, n);
    forall i | 0 <= i < o.regAt ensures y.c.looked[i].id != id {
      assert EarlierId(y.c.looked[i].id, n);
      EarlierDiffers(y.c.looked[i].id, n);
    }
    NoneBefore(y.c.looked, o.regAt, id);
    OnIdPrefix(y.c.looked, ST.WireOf(y.s.out), id);
  }

  /** What a caller has taken is a prefix of what the server wrote under its id. */
  lemma {:induction false} CallerHears(y: Sys, n: nat)
    requires SysInv(y) && BeforeWrap(y) && n < |y.c.objs|
    ensures y.c.objs[n].taken <= OnId(ST.WireOf(y.s.out), C.IdOf(n))
    ensures CQ.CallerRight(y.c.objs[n])
  {
    ClientHears(y, n);
    assert CQ.StreamRight(y.c, n);
    var o := y.c.objs[n];
    assert o.taken <= o.accepted <= CQ.Arrivals(y.c.looked, o);
  }

  // ---- id acceptance ----

  /** The server never answers this client that an id must be odd, and, before ids wrap,
      never that it must increase. */
  lemma {:induction false} IdsAccepted(y: Sys, k: nat)
    requires Reachable(y) && k in y.s.rejected
    ensures y.s.rejected[k] != MustBeOdd && y.s.rejected[k] != OverLimit && y.s.rejected[k] != BadBody
    ensures BeforeWrap(y) ==> y.s.rejected[k] != MustIncrement
  {
    SysInvHolds(y);
    var s, c := y.s, y.c;
    assert SI.Cause(s.svc, s.inLog, k, s.rejected[k]);
    assert s.inLog[k] == CI.Wire(c.out)[k];
    CI.IdIsOdd(c.out[k].n);
    if BeforeWrap(y) {
      forall j | 0 <= j < k && s.inLog[j].OpensStream() && s.inLog[k].OpensStream()
        ensures s.inLog[j].id < s.inLog[k].id
      {
        assert s.inLog[j] == CI.Wire(c.out)[j];
        CI.IdBeforeWrap(c.out[j].n);
        CI.IdBeforeWrap(c.out[k].n);
      }
    }
  }

  /** Requests have gone out under odd and increasing ids. */
  lemma {:induction false} RequestNotStale(y: Sys, k: nat)
    requires SysInv(y) && BeforeWrap(y) && k < |y.s.inLog| && y.s.inLog[k].RequestFrame?
    ensures y.s.inLog[k].id % 2 == 1 && !SR.Stale(y.s.inLog, k)
  {
    var c, inLog := y.c, y.s.inLog;
    assert inLog[k] == CI.Wire(c.out)[k];
    CI.IdIsOdd(c.out[k].n);
    forall j | 0 <= j < k && SR.Opener(inLog[j]) ensures inLog[j].id < inLog[k].id {
      assert inLog[j] == CI.Wire(c.out)[j];
      CI.IdBeforeWrap(c.out[j].n);
      CI.IdBeforeWrap(c.out[k].n);
    }
  }

  /** Every request is served: once the server is past a request frame, the request has a
      handler if its procedure is known, and otherwise was rejected as unimplemented. */
  lemma {:induction false} RequestsServed(y: Sys, k: nat)
    requires Reachable(y) && BeforeWrap(y)
    requires k < SI.Seen(y.s) && k < |y.s.inLog| && y.s.inLog[k].RequestFrame?
    ensures if S.NamesMethod(y.s.svc, y.s.inLog[k].req) || S.NamesStream(y.s.svc, y.s.inLog[k].req) then
              SR.HasHandler(y.s, k) && (k in y.s.rejected ==> y.s.rejected[k] == StartError)
            else k in y.s.rejected && y.s.rejected[k] == Unimplemented
  {
    SysInvHolds(y);
    SidesReachable(y);
    RequestNotStale(y, k);
    SR.FramesRuled(y.s, k);
  }

  // ---- answer correlation ----

  /** Frame k answered (status, data): as its handler's result or as its own rejection. */
  ghost predicate AnswerTo(s: S.Server, k: nat, status: Status, data: Bytes) {
    || (exists h :: 0 <= h < |s.handlers| && s.handlers[h].reqAt == k && Result(s.handlers[h], status, data))
    || (k in s.rejected && status == Rejected(s.rejected[k]) && data == [])
  }

  ghost predicate Result(o: S.Handler, status: Status, data: Bytes) {
    o.final.Some? && o.final.value.0 == status && o.final.value.1.GetOr([]) == data
  }

  lemma {:induction false} WireHasOrigin(acc: seq<S.Resp>, f: Frame) returns (i: nat)
    requires f in ST.WireOf(acc)
    ensures i < |acc| && S.FrameOf(acc[i]) == f
  {
    var front := acc[..|acc| - 1];
    if f == S.FrameOf(acc[|acc| - 1]) {
      i := |acc| - 1;
    } else {
      i := WireHasOrigin(front, f);
    }
  }

  /** A response frame comes from a handler's result or from a rejection. */
  lemma {:induction false} ResponseOrigin(s: S.Server, i: nat)
    requires ST.ServerInv(s) && i < |s.acc| && S.FrameOf(s.acc[i]).ResponseFrame?
    ensures var f := S.FrameOf(s.acc[i]);
            match s.acc[i].origin
            case FromHandler(h) =>
              h < |s.handlers| && s.handlers[h].id == f.id && Result(s.handlers[h], f.status, f.data)
            case FromFrame(k) =>
              && k < |s.inLog| && s.inLog[k].id == f.id && k in s.rejected
              && f.status == Rejected(s.rejected[k]) && f.data == []
  {
    var r := s.acc[i];
    assert SA.EntryRight(s, r);
    if r.origin.FromHandler? {
      var h := r.origin.h;
      SA.ByHas(s.acc, r.origin, i);
      assert r in SA.Answers(h, s.handlers[h]);
    }
  }

  lemma {:induction false} SpokenUnary(o: C.Obj)
    requires o.desc.Unary? && CI.MayHaveSent(o)
    ensures CI.Spoken(o) <= [RequestFrame(o.st.id, NO_FLAGS, o.req)]
  {
  }

  lemma {:induction false} UnarySpeaks(y: Sys, n: nat)
    requires SysInv(y) && n < |y.c.objs| && y.c.objs[n].desc.Unary?
    ensures CI.Spoken(y.c.objs[n]) <= [RequestFrame(C.IdOf(n), NO_FLAGS, y.c.objs[n].req)]
  {
    assert CI.MayHaveSent(y.c.objs[n]);
    SpokenUnary(y.c.objs[n]);
  }

  lemma {:induction false} PrefixOfOne(fs: seq<Frame>, k: nat, id: StreamID, spoken: seq<Frame>, f: Frame)
    requires k < |fs| && fs[k].id == id && OnId(fs, id) <= spoken <= [f]
    ensures fs[k] == f && OnId(fs, id) == [f]
  {
    OnIdMembers(fs, id);
    assert fs[k] in OnId(fs, id);
  }

  /** The request frame of a unary stream, as the server has received it. */
  lemma {:induction false} OnlyRequest(y: Sys, n: nat, k: nat)
    requires SysInv(y) && BeforeWrap(y) && n < |y.c.objs| && y.c.objs[n].desc.Unary?
    requires k < |y.s.inLog| && y.s.inLog[k].id == C.IdOf(n)
    ensures y.s.inLog[k] == RequestFrame(C.IdOf(n), NO_FLAGS, y.c.objs[n].req)
    ensures OnId(y.s.inLog, C.IdOf(n)) == [y.s.inLog[k]]
  {
    ServerHears(y, n);
    UnarySpeaks(y, n);
    PrefixOfOne(y.s.inLog, k, C.IdOf(n), CI.Spoken(y.c.objs[n]),
                RequestFrame(C.IdOf(n), NO_FLAGS, y.c.objs[n].req));
  }

  lemma {:induction false} OnIdTwo(fs: seq<Frame>, id: StreamID, j: nat, k: nat)
    requires j < k < |fs| && fs[j].id == id && fs[k].id == id
    ensures |OnId(fs, id)| >= 2
  {
    var front := fs[..|fs| - 1];
    if k < |fs| - 1 {
      OnIdTwo(front, id, j, k);
    } else {
      OnIdMembers(front, id);
      assert front[j] in OnId(front, id);
    }
  }

  /** Answer correlation: a unary call that decodes a response decodes the answer to the
      very request it sent: its handler's result or the rejection of that frame. */
  lemma {:induction false} AnswerCorrelation(y: Sys, n: nat, status: Status, data: Bytes) returns (k: nat)
    requires Reachable(y) && BeforeWrap(y)
    requires n < |y.c.objs| && y.c.objs[n].desc.Unary? && C.Reply(status, data) in y.c.objs[n].results
    ensures k < |y.s.inLog| && y.s.inLog[k] == RequestFrame(C.IdOf(n), NO_FLAGS, y.c.objs[n].req)
    ensures OnId(y.s.inLog, C.IdOf(n)) == [y.s.inLog[k]]
    ensures AnswerTo(y.s, k, status, data)
  {
    SysInvHolds(y);
    CallerHears(y, n);
    var o := y.c.objs[n];
    var f := o.taken[0];
    var id := C.IdOf(n);
    OnIdMembers(ST.WireOf(y.s.out), id);
    assert f in OnId(ST.WireOf(y.s.out), id);
    assert f == ResponseFrame(id, status, data);
    var i := WireHasOrigin(y.s.out, f);
    assert y.s.out[i] == y.s.acc[i];
    ResponseOrigin(y.s, i);
    match y.s.acc[i].origin {
      case FromHandler(h) =>
        k := y.s.handlers[h].reqAt;
        assert SI.HandlerRight(y.s.svc, y.s.inLog, y.s.lastID, y.s.handlers[h]);
      case FromFrame(j) =>
        k := j;
    }
    OnlyRequest(y, n, k);
  }

  /** If all responses under an id have one origin, they are that origin's. */
  lemma {:induction false} OneOrigin(acc: seq<S.Resp>, id: StreamID, o: S.Origin)
    requires forall i :: 0 <= i < |acc| && acc[i].id == id ==> acc[i].origin == o
    ensures |OnId(ST.WireOf(acc), id)| <= |SA.By(acc, o)|
  {
    if acc != [] {
      var front := acc[..|acc| - 1];
      OneOrigin(front, id, o);
      OnIdSnoc(ST.WireOf(front), S.FrameOf(acc[|acc| - 1]), id);
    }
  }

  /** The one origin of a unary request's responses. */
  lemma {:induction false} UnaryOrigin(y: Sys, n: nat) returns (o: S.Origin)
    requires SysInv(y) && BeforeWrap(y) && n < |y.c.objs| && y.c.objs[n].desc.Unary?
    requires !S.NamesStream(y.s.svc, y.c.objs[n].req)
    ensures forall i :: 0 <= i < |y.s.acc| && y.s.acc[i].id == C.IdOf(n) ==> y.s.acc[i].origin == o
    ensures o.FromHandler? ==> o.h >= |y.s.handlers| || y.s.handlers[o.h].kind.Method?
  {
    var s := y.s;
    var id := C.IdOf(n);
    if h :| 0 <= h < |s.handlers| && s.handlers[h].id == id {
      o := S.FromHandler(h);
      var k := s.handlers[h].reqAt;
      assert SI.HandlerRight(s.svc, s.inLog, s.lastID, s.handlers[h]);
      OnlyRequest(y, n, k);
      assert s.handlers[h].kind.Method?;
      forall i | 0 <= i < |s.acc| && s.acc[i].id == id ensures s.acc[i].origin == o {
        OriginIsHandler(y, n, h, i);
      }
    } else if k :| k in s.rejected && k < |s.inLog| && s.inLog[k].id == id {
      o := S.FromFrame(k);
      forall i | 0 <= i < |s.acc| && s.acc[i].id == id ensures s.acc[i].origin == o {
        assert SA.EntryRight(s, s.acc[i]);
        var j := s.acc[i].origin.k;
        SameIndex(y, n, j, k);
      }
    } else {
      o := S.FromFrame(0);
      forall i | 0 <= i < |s.acc| ensures s.acc[i].id != id {
        assert SA.EntryRight(s, s.acc[i]);
      }
    }
  }

  lemma {:induction false} SameIndex(y: Sys, n: nat, j: nat, k: nat)
    requires SysInv(y) && BeforeWrap(y) && n < |y.c.objs| && y.c.objs[n].desc.Unary?
    requires j < |y.s.inLog| && k < |y.s.inLog| && y.s.inLog[j].id == C.IdOf(n) && y.s.inLog[k].id == C.IdOf(n)
    ensures j == k
  {
    OnlyRequest(y, n, k);
    if j < k {
      OnIdTwo(y.s.inLog, C.IdOf(n), j, k);
    } else if k < j {
      OnIdTwo(y.s.inLog, C.IdOf(n), k, j);
    }
  }

  lemma {:induction false} MethodNotRejected(s: S.Server, h: nat)
    requires SI.HandlersRight(s) && SI.RejectsRight(s) && h < |s.handlers| && s.handlers[h].kind.Method?
    ensures s.handlers[h].reqAt < |s.inLog| && s.inLog[s.handlers[h].reqAt].id == s.handlers[h].id
    ensures s.handlers[h].reqAt !in s.rejected
  {
    assert SI.HandlerRight(s.svc, s.inLog, s.lastID, s.handlers[h]);
  }

  /** An accepted unary request is answered by its handler alone. */
  lemma {:induction false} OriginIsHandler(y: Sys, n: nat, h: nat, i: nat)
    requires SysInv(y) && BeforeWrap(y) && n < |y.c.objs| && y.c.objs[n].desc.Unary?
    requires h < |y.s.handlers| && y.s.handlers[h].id == C.IdOf(n) && y.s.handlers[h].kind.Method?
    requires i < |y.s.acc| && y.s.acc[i].id == C.IdOf(n)
    ensures y.s.acc[i].origin == S.FromHandler(h)
  {
    var s := y.s;
    MethodNotRejected(s, h);
    assert SA.EntryRight(s, s.acc[i]);
    if s.acc[i].origin.FromHandler? {
      SI.SameHandler(s.handlers, s.acc[i].origin.h, h);
    } else {
      SameIndex(y, n, s.acc[i].origin.k, s.handlers[h].reqAt);
    }
  }

  /** At most one response: a call to a procedure that is not a stream gets at most one
      frame, so its queue of one never overflows and its delivery never waits. */
  lemma {:induction false} AnsweredOnce(y: Sys, n: nat)
    requires Reachable(y) && BeforeWrap(y) && n < |y.c.objs| && y.c.objs[n].desc.Unary?
    requires !S.NamesStream(y.s.svc, y.c.objs[n].req)
    ensures |OnId(ST.WireOf(y.s.out), C.IdOf(n))| <= 1
    ensures y.c.objs[n].timeouts == 0 && !(y.c.loop.Waiting? && y.c.loop.n == n)
  {
    SysInvHolds(y);
    OneWritten(y, n);
    ClientHears(y, n);
    assert CQ.StreamRight(y.c, n);
  }

  lemma {:induction false} OneWritten(y: Sys, n: nat)
    requires SysInv(y) && BeforeWrap(y) && n < |y.c.objs| && y.c.objs[n].desc.Unary?
    requires !S.NamesStream(y.s.svc, y.c.objs[n].req)
    ensures |OnId(ST.WireOf(y.s.out), C.IdOf(n))| <= 1
  {
    var id := C.IdOf(n);
    var o := UnaryOrigin(y, n);
    OneOrigin(y.s.acc, id, o);
    if o.FromHandler? && o.h < |y.s.handlers| {
      assert SA.Shaped(y.s.handlers[o.h]);
      assert SA.By(y.s.acc, o) == SA.Answers(o.h, y.s.handlers[o.h]);
    } else if o.FromHandler? {
      forall i | 0 <= i < |y.s.acc| ensures y.s.acc[i].origin != o {
        assert SA.EntryRight(y.s, y.s.acc[i]);
      }
      SA.ByNone(y.s.acc, o);
    }
    ST.WireOfPrefix(y.s.out, y.s.acc);
    OnIdPrefix(ST.WireOf(y.s.out), ST.WireOf(y.s.acc), id);
  }
}
