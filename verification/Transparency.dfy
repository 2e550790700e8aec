/** End-to-end guarantees of streams: what one side receives is what the other sent. */
module Transparency {
  import opened Frames
  import C = ClientConn
  import S = ServerConn
  import CI = ClientIds
  import CQ = ClientQueues
  import CT = ClientTheorems
  import CO = ClientOutcomes
  import SI = ServerIds
  import SA = ServerAnswers
  import SF = ServerFeeds
  import SL = ServerLate
  import ST = ServerTheorems
  import opened System
  import opened Correlation

  // ---- server to client ----

  ghost function Values(sent: seq<Option<Bytes>>): seq<Bytes> {
    seq(|sent|, i requires 0 <= i < |sent| => sent[i].GetOr([]))
  }

  /** Everything a streaming handler has sent for its caller to receive, with its result if that
      is a message: a handler that is not server-streaming always has one. A nil message
      counts as an empty one, as it does for the client. */
  ghost function Uttered(o: S.Handler): seq<Bytes> {
    Values(o.sent)
    + (if !o.phase.Answered? || o.final.None? || o.final.value.0 != OK then []
       else if ServerStreaming(o) && o.final.value.1.None? then []
       else [o.final.value.1.GetOr([])])
  }

  predicate ServerStreaming(o: S.Handler) {
    o.kind.Stream? && o.kind.info.server
  }

  /** A server-streaming caller decodes the first j messages of a handler as they were sent. */
  lemma {:induction false} MessagesDecode(desc: C.Desc, o: S.Handler, j: nat)
    requires desc.Streaming? && desc.server && j <= |o.sent|
    ensures CQ.Payloads(desc, ST.MessageFrames(o.id, o.sent)[..j]) == Values(o.sent)[..j]
    ensures forall i :: 0 <= i < j ==> !C.Ending(desc, ST.MessageFrames(o.id, o.sent)[i])
  {
    if j > 0 {
      MessagesDecode(desc, o, j - 1);
      var fs := ST.MessageFrames(o.id, o.sent);
      assert fs[..j] == fs[..j - 1] + [fs[j - 1]];
      CQ.PayloadsSnoc(desc, fs[..j - 1], fs[j - 1]);
      assert Values(o.sent)[..j] == Values(o.sent)[..j - 1] + [o.sent[j - 1].GetOr([])];
    }
  }

  /** ... and the whole of its language, closing frame included. */
  lemma {:induction false} ClosingDecodes(desc: C.Desc, o: S.Handler)
    requires desc.Streaming? && desc.server && o.kind.Stream? && o.phase.Answered? && o.final.Some?
    ensures CQ.Payloads(desc, ST.MessageFrames(o.id, o.sent) + [ST.ClosingFrame(o)]) == Uttered(o)
  {
    var ms := ST.MessageFrames(o.id, o.sent);
    MessagesDecode(desc, o, |ms|);
    assert ms[..|ms|] == ms;
    assert Values(o.sent)[..|ms|] == Values(o.sent);
    CQ.PayloadsSnoc(desc, ms, ST.ClosingFrame(o));
  }

  /** Answers to late frames carry no message and do not end the stream. */
  lemma {:induction false} LateDecodes(desc: C.Desc, id: StreamID, fs: seq<Frame>, late: seq<Frame>)
    requires desc.Streaming? && ST.AllLate(late, id)
    ensures CQ.Payloads(desc, fs + late) == CQ.Payloads(desc, fs)
    ensures forall i :: 0 <= i < |late| ==> !C.Ending(desc, late[i])
  {
    if late == [] {
      assert fs + late == fs;
    } else {
      var front := late[..|late| - 1];
      LateDecodes(desc, id, fs, front);
      assert fs + late == (fs + front) + [ST.LateFrame(id)];
      CQ.PayloadsSnoc(desc, fs + front, ST.LateFrame(id));
    }
  }

  lemma {:induction false} TellsSplit(o: S.Handler, fs: seq<Frame>)
    requires ST.Tells(o, fs) && |fs| > |ST.Told(o)|
    ensures fs == ST.Told(o) + fs[|ST.Told(o)|..]
    ensures ST.AllLate(fs[|ST.Told(o)|..], o.id) && o.phase.Answered?
  {
    var k := |ST.Told(o)|;
    assert fs[k] == ST.LateFrame(o.id);
    assert fs[..k] == ST.Told(o);
  }

  /** The frames fs were taken, and only the last of them can have ended the stream. */
  ghost predicate EndsOnce(desc: C.Desc, fs: seq<Frame>) {
    forall i :: 0 <= i < |fs| - 1 ==> !C.Ending(desc, fs[i])
  }

  /** A server-streaming caller that has taken the frames fs of a handler has received a
      prefix of what the handler sent, and all of it if the last frame ends the stream. */
  lemma {:induction false} TakenByStreaming(desc: C.Desc, o: S.Handler, fs: seq<Frame>)
    requires desc.Streaming? && desc.server && o.kind.Stream? && SA.Shaped(o)
    requires ST.Tells(o, fs) && EndsOnce(desc, fs)
    ensures CQ.Payloads(desc, fs) <= Uttered(o)
    ensures fs != [] && C.Ending(desc, fs[|fs| - 1]) ==> CQ.Payloads(desc, fs) == Uttered(o) && o.phase.Answered?
  {
    var ms, told := ST.MessageFrames(o.id, o.sent), ST.Told(o);
    if |fs| <= |ms| {
      MessagesDecode(desc, o, |fs|);
      assert fs == ms[..|fs|];
    } else if |fs| <= |told| {
      assert fs == told == ms + [ST.ClosingFrame(o)];
      ClosingDecodes(desc, o);
    } else {
      TellsSplit(o, fs);
      LateDecodes(desc, o.id, told, fs[|told|..]);
      assert told == ms + [ST.ClosingFrame(o)];
      ClosingDecodes(desc, o);
    }
  }

  /** A caller that expects no stream receives the handler's one result; if it is sent
      anything else, that ends its stream without a message. */
  lemma {:induction false} TakenBySingle(desc: C.Desc, o: S.Handler, fs: seq<Frame>)
    requires desc.Streaming? && !desc.server && o.kind.Stream? && SA.Shaped(o)
    requires ST.Tells(o, fs) && EndsOnce(desc, fs)
    ensures CQ.Payloads(desc, fs) <= Uttered(o)
    ensures fs != [] && C.Ending(desc, fs[|fs| - 1]) ==>
              fs[|fs| - 1].DataFrame? || (CQ.Payloads(desc, fs) == Uttered(o) && o.phase.Answered?)
  {
    if fs != [] {
      CQ.PayloadsSnoc(desc, [], fs[0]);
      if fs[0].DataFrame? {
        assert fs == [] + [fs[0]];
      } else {
        TakenResponse(desc, o, fs);
      }
    }
  }

  lemma {:induction false} TakenResponse(desc: C.Desc, o: S.Handler, fs: seq<Frame>)
    requires desc.Streaming? && !desc.server && o.kind.Stream? && SA.Shaped(o)
    requires ST.Tells(o, fs) && fs != [] && !fs[0].DataFrame?
    ensures CQ.Payloads(desc, fs) == Uttered(o) && o.phase.Answered?
  {
    var told := ST.Told(o);
    assert told == [ST.ClosingFrame(o)];
    assert fs == told + fs[1..] && told == [] + [fs[0]];
    CQ.PayloadsSnoc(desc, [], fs[0]);
    LateDecodes(desc, o.id, told, fs[1..]);
  }

  /** What a caller has taken is in its handler's language. */
  lemma {:induction false} CallerHearsHandler(y: Sys, n: nat, h: nat)
    requires Reachable(y) && BeforeWrap(y) && n < |y.c.objs| && h < |y.s.handlers|
    requires y.s.handlers[h].id == C.IdOf(n) && SL.OnlyLate(y.s, h)
    ensures ST.Tells(y.s.handlers[h], y.c.objs[n].taken) && CQ.CallerRight(y.c.objs[n])
    ensures SA.Shaped(y.s.handlers[h])
  {
    SysInvHolds(y);
    CallerHears(y, n);
    ST.ToldOnWire(y.s, h);
    ST.TellsPrefix(y.s.handlers[h], y.c.objs[n].taken, OnId(ST.WireOf(y.s.out), C.IdOf(n)));
  }

  /** Server-to-client transparency, for every streaming handler and every streaming caller: if
      no frame of the stream was turned down other than for being late, what RecvMsg has
      returned is always a prefix of what the handler sent, its result included. Once the
      caller has seen the end of the stream the two are equal and the handler has answered,
      unless a caller that expects no stream was sent data. */
  lemma {:induction false} ServerToClient(y: Sys, n: nat, h: nat)
    requires Reachable(y) && BeforeWrap(y) && n < |y.c.objs| && h < |y.s.handlers|
    requires y.s.handlers[h].id == C.IdOf(n) && y.s.handlers[h].kind.Stream? && y.c.objs[n].desc.Streaming?
    requires SL.OnlyLate(y.s, h)
    ensures CQ.Messages(y.c.objs[n].results) <= Uttered(y.s.handlers[h])
    ensures y.c.objs[n].phase.Over? ==>
              || (CQ.Messages(y.c.objs[n].results) == Uttered(y.s.handlers[h]) && y.s.handlers[h].phase.Answered?)
              || SentData(y.c.objs[n])
  {
    CallerHearsHandler(y, n, h);
    var o := y.c.objs[n];
    if o.desc.server {
      TakenByStreaming(o.desc, y.s.handlers[h], o.taken);
    } else {
      TakenBySingle(o.desc, y.s.handlers[h], o.taken);
    }
  }

  /** The caller expects no stream and the last frame it took was data. */
  predicate SentData(o: C.Obj) {
    o.desc.Streaming? && !o.desc.server && o.taken != [] && o.taken[|o.taken| - 1].DataFrame?
  }

  /** That happens only if the handler sends messages or is server-streaming: a caller and a
      handler of a client-streaming method always agree. */
  lemma {:induction false} SingleAnswer(y: Sys, n: nat, h: nat)
    requires Reachable(y) && BeforeWrap(y) && n < |y.c.objs| && h < |y.s.handlers|
    requires y.s.handlers[h].id == C.IdOf(n) && y.s.handlers[h].kind.Stream? && y.c.objs[n].desc.Streaming?
    requires SL.OnlyLate(y.s, h)
    ensures SentData(y.c.objs[n]) ==> y.s.handlers[h].sent != [] || ServerStreaming(y.s.handlers[h])
  {
    CallerHearsHandler(y, n, h);
  }

  // ---- how a stream ends ----

  /** The i-th frame of a handler's stream: a message, its closing frame, or an answer to a
      late frame. */
  lemma {:induction false} ToldAt(o: S.Handler, fs: seq<Frame>, i: nat)
    requires ST.Tells(o, fs) && SA.Shaped(o) && i < |fs|
    ensures i < |o.sent| ==> fs[i] == ST.MessageFrame(o.id, o.sent[i])
    ensures i >= |o.sent| ==> o.phase.Answered? && o.final.Some?
    ensures i == |o.sent| ==> fs[i] == ST.ClosingFrame(o)
    ensures i > |o.sent| ==> fs[i] == ST.LateFrame(o.id)
  {
    var told, f := ST.Told(o), fs[i];
    assert |told| == |o.sent| + (if o.phase.Answered? && o.final.Some? then 1 else 0);
    assert if i < |told| then f == told[i] else o.phase.Answered? && f == ST.LateFrame(o.id);
  }

  /** Once the caller of a failed handler has taken its last frame, a RecvMsg has returned
      exactly the status the handler returned; and a caller is told of no other failure,
      except that frames of its own came too late. */
  lemma {:induction false} FailureTold(y: Sys, n: nat, h: nat)
    requires Reachable(y) && BeforeWrap(y) && n < |y.c.objs| && h < |y.s.handlers|
    requires y.s.handlers[h].id == C.IdOf(n) && y.s.handlers[h].kind.Stream? && y.c.objs[n].desc.Streaming?
    requires SL.OnlyLate(y.s, h)
    ensures |y.c.objs[n].taken| > |y.s.handlers[h].sent| ==>
              y.s.handlers[h].phase.Answered? && y.s.handlers[h].final.Some?
    ensures |y.c.objs[n].taken| > |y.s.handlers[h].sent| && y.s.handlers[h].final.value.0 != OK ==>
              C.StatusErr(y.s.handlers[h].final.value.0) in y.c.objs[n].results
    ensures forall st :: C.StatusErr(st) in y.c.objs[n].results ==>
              || (y.s.handlers[h].phase.Answered? && y.s.handlers[h].final.Some? && y.s.handlers[h].final.value.0 == st)
              || st == Rejected(NotActive)
  {
    CallerHearsHandler(y, n, h);
    SidesReachable(y);
    CO.ErrorsTold(y.c, n);
    var o, c := y.s.handlers[h], y.c.objs[n];
    if |c.taken| > |o.sent| {
      ToldAt(o, c.taken, |o.sent|);
    }
    forall st | C.StatusErr(st) in c.results
      ensures (o.phase.Answered? && o.final.Some? && o.final.value.0 == st) || st == Rejected(NotActive)
    {
      CO.StatusesHave(c.results, st);
      CO.ErrorsHave(c.taken, st);
      var i :| 0 <= i < |c.taken| && C.ErrorIn(c.taken[i]) == Some(st);
      ToldAt(o, c.taken, i);
    }
  }

  /** io.EOF is the end of a success: its handler has returned OK, unless a caller that
      expects no stream was sent data. */
  lemma {:induction false} EOFIsSuccess(y: Sys, n: nat, h: nat)
    requires Reachable(y) && BeforeWrap(y) && n < |y.c.objs| && h < |y.s.handlers|
    requires y.s.handlers[h].id == C.IdOf(n) && y.s.handlers[h].kind.Stream? && y.c.objs[n].desc.Streaming?
    requires SL.OnlyLate(y.s, h) && C.EndOfStream in y.c.objs[n].results
    ensures || (y.s.handlers[h].phase.Answered? && y.s.handlers[h].final.Some? && y.s.handlers[h].final.value.0 == OK)
            || SentData(y.c.objs[n])
  {
    CallerHearsHandler(y, n, h);
    SidesReachable(y);
    CO.EndTold(y.c, n);
    CO.DoneTold(y.c, n);
    LastSays(y.c.objs[n].desc, y.s.handlers[h], y.c.objs[n].taken);
  }

  /** A frame that ends a streaming caller's stream is a handler's success, or data that the
      caller did not expect. */
  lemma {:induction false} LastSays(desc: C.Desc, o: S.Handler, fs: seq<Frame>)
    requires desc.Streaming? && ST.Tells(o, fs) && SA.Shaped(o) && fs != []
    requires var f := fs[|fs| - 1];
             (f.ResponseFrame? && f.status == OK) || (f.DataFrame? && (f.flags.remoteClosed || !desc.server))
    ensures (o.phase.Answered? && o.final.Some? && o.final.value.0 == OK) || (!desc.server && fs[|fs| - 1].DataFrame?)
  {
    ToldAt(o, fs, |fs| - 1);
    if |fs| - 1 == |o.sent| {
      ClosingFrameSays(o);
    }
  }

  lemma {:induction false} ClosingFrameSays(o: S.Handler)
    requires o.final.Some?
    ensures var f := ST.ClosingFrame(o);
            if f.ResponseFrame? then f.status == o.final.value.0 else f.DataFrame? && o.final.value.0 == OK
  {
  }

  /** A stream that is over stays over, and its calls return nothing but io.EOF. */
  ghost predicate StaysOver(o: C.Obj, o': C.Obj) {
    o'.phase.Over? && (o'.results == o.results || o'.results == o.results + [C.EndOfStream])
  }

  lemma {:induction false} LoopStaysOver(c: C.Client, n: nat, a: C.LoopAct)
    requires C.LoopEnabled(c, a) && n < |c.objs| && c.objs[n].phase.Over?
    ensures StaysOver(c.objs[n], C.LoopApply(c, a).objs[n])
  {
  }

  lemma {:induction false} CreateStaysOver(c: C.Client, n: nat, a: C.CreateAct)
    requires C.CreateEnabled(c, a) && n < |c.objs| && c.objs[n].phase.Over? && CI.LockRight(c)
    ensures StaysOver(c.objs[n], C.CreateApply(c, a).objs[n])
  {
  }

  lemma {:induction false} StepStaysOver(c: C.Client, n: nat, a: C.Action)
    requires C.Enabled(c, a) && n < |c.objs| && c.objs[n].desc.Streaming? && c.objs[n].phase.Over? && CI.LockRight(c)
    ensures StaysOver(c.objs[n], C.Apply(c, a).objs[n])
  {
    match a
    case Create(ca) => CreateStaysOver(c, n, ca);
    case Call(m, ka) =>
      if m == n {
        OverStays(c, c.objs[m], ka);
      }
    case Deliver(da) => DeliverResults(c.objs[c.loop.n], c.loop.f, da);
    case Loop(la) => LoopStaysOver(c, n, la);
    case Conn(_) =>
  }

  /** After the end, every further RecvMsg returns io.EOF: whatever step is taken, the calls
      on the stream return nothing else. */
  lemma {:induction false} OnlyEOFAfterEnd(c: C.Client, n: nat, a: C.Action)
    requires C.Reachable(c) && C.Enabled(c, a)
    requires n < |c.objs| && c.objs[n].desc.Streaming? && c.objs[n].phase.Over?
    ensures var o, o' := c.objs[n], C.Apply(c, a).objs[n];
            o'.phase.Over? && (o'.results == o.results || o'.results == o.results + [C.EndOfStream])
  {
    CT.ClientInvHolds(c);
    StepStaysOver(c, n, a);
  }

  lemma {:induction false} OverStays(c: C.Client, o: C.Obj, a: C.CallAct)
    requires C.CallEnabled(c, o, a) && o.desc.Streaming? && o.phase.Over?
    ensures C.CallNext(o, a).phase.Over?
    ensures C.CallNext(o, a).results == o.results || C.CallNext(o, a).results == o.results + [C.EndOfStream]
  {
  }

  lemma {:induction false} DeliverResults(o: C.Obj, f: Frame, a: C.DeliverAct)
    requires a.Push? ==> |o.st.queue| < o.st.cap
    ensures C.DeliverNext(o, f, a).phase == o.phase && C.DeliverNext(o, f, a).results == o.results
  {
  }

  // ---- client to server ----

  /** The client stream whose request a handler serves. */
  ghost function ClientOf(y: Sys, h: nat): nat
    requires h < |y.s.handlers| && y.s.handlers[h].reqAt < |y.c.out|
  {
    y.c.out[y.s.handlers[h].reqAt].n
  }

  lemma {:induction false} HandlerServes(y: Sys, h: nat)
    requires Reachable(y) && h < |y.s.handlers|
    ensures y.s.handlers[h].reqAt < |y.c.out| && ClientOf(y, h) < |y.c.objs|
    ensures y.s.handlers[h].id == C.IdOf(ClientOf(y, h)) == y.c.objs[ClientOf(y, h)].st.id
    ensures y.s.handlers[h].reqAt < |y.s.inLog|
    ensures y.s.inLog[y.s.handlers[h].reqAt].RequestFrame?
    ensures y.s.inLog[y.s.handlers[h].reqAt].id == y.s.handlers[h].id
    ensures y.s.inLog[y.s.handlers[h].reqAt].req == y.s.handlers[h].req
  {
    SysInvHolds(y);
    var o := y.s.handlers[h];
    assert SI.HandlerRight(y.s.svc, y.s.inLog, y.s.lastID, o);
    assert y.s.inLog[o.reqAt] == CI.Wire(y.c.out)[o.reqAt];
  }

  lemma {:induction false} HeardIsSpoken(y: Sys, n: nat)
    requires Reachable(y) && BeforeWrap(y) && n < |y.c.objs|
    ensures OnId(y.s.inLog, C.IdOf(n)) <= CI.Spoken(y.c.objs[n])
  {
    SysInvHolds(y);
    ServerHears(y, n);
  }

  /** Reading a stream's own words: after j frames of it, the first being its request, a
      handler is due the initial payload and the messages among them. */
  lemma {:induction false} DueIsSent(fs: seq<Frame>, o: C.Obj, kind: S.Kind, reqAt: nat)
    requires reqAt < |fs| && fs[reqAt].RequestFrame? && fs[reqAt].id == o.st.id
    requires OnId(fs, o.st.id) <= CI.Spoken(o)
    ensures var j := |OnId(fs, o.st.id)|;
            && 1 <= j
            && fs[reqAt].req == o.req
            && SF.Due(fs, kind, o.req, reqAt, o.st.id)
               == SF.Opens(kind, o.req.payload)
                  + o.sent[..if j - 1 <= |o.sent| then j - 1 else |o.sent|]
    decreases |fs|
  {
    var id := o.st.id;
    var front := fs[..|fs| - 1];
    var f := fs[|fs| - 1];
    assert fs == front + [f];
    OnIdSnoc(front, f, id);
    if reqAt == |fs| - 1 {
      RequestIsFirst(o, OnId(front, id), f);
      assert o.sent[..0] == [];
    } else {
      DueIsSent(front, o, kind, reqAt);
      SF.DueSnoc(front, f, kind, o.req, reqAt, id);
      if f.id == id {
        NextSpoken(o, |OnId(front, id)|, f);
      }
    }
  }

  /** A stream's request is the first thing it says. */
  lemma {:induction false} RequestIsFirst(o: C.Obj, before: seq<Frame>, f: Frame)
    requires before + [f] <= CI.Spoken(o) && f.RequestFrame?
    ensures before == [] && f.req == o.req
  {
    var j := |before|;
    assert CI.Spoken(o)[j] == (before + [f])[j] == f;
    if j > 0 {
      NextSpoken(o, j, f);
    }
  }

  /** The frame after the first j of a stream's words. */
  lemma {:induction false} NextSpoken(o: C.Obj, j: nat, f: Frame)
    requires 1 <= j < |CI.Spoken(o)| && CI.Spoken(o)[j] == f
    ensures if j - 1 < |o.sent| then
              SF.CarriesData(f, o.st.id) && !f.flags.remoteClosed && o.sent[..j] == o.sent[..j - 1] + [f.data]
            else !SF.CarriesData(f, o.st.id) && f.flags.remoteClosed && o.localClosed && j == |CI.Spoken(o)| - 1
    ensures f.DataFrame?
  {
    var spoken := CI.Spoken(o);
    if j - 1 < |o.sent| {
      assert f == DataFrame(o.st.id, NO_FLAGS, o.sent[j - 1]);
    } else {
      assert o.localClosed && j == |spoken| - 1 && f == DataFrame(o.st.id, C.CLOSE_FLAGS, []);
    }
  }

  /** Client-to-server transparency: a streaming handler serves the request of one client
      stream, and as long as no data() call failed its RecvMsg has returned a prefix of the
      request's payload, if the stream starts with that, followed by what the caller has
      sent. */
  lemma {:induction false} ClientToServer(y: Sys, h: nat)
    requires Reachable(y) && BeforeWrap(y) && h < |y.s.handlers|
    ensures y.s.handlers[h].reqAt < |y.c.out| && ClientOf(y, h) < |y.c.objs|
    ensures y.s.handlers[h].id == C.IdOf(ClientOf(y, h))
    ensures y.s.handlers[h].req == y.c.objs[ClientOf(y, h)].req
    ensures !y.s.handlers[h].feedErr ==>
              y.s.handlers[h].taken <=
                SF.Opens(y.s.handlers[h].kind, y.c.objs[ClientOf(y, h)].req.payload) + y.c.objs[ClientOf(y, h)].sent
  {
    HandlerServes(y, h);
    var n := ClientOf(y, h);
    var c := y.c.objs[n];
    var o := y.s.handlers[h];
    HeardIsSpoken(y, n);
    DueIsSent(y.s.inLog, c, o.kind, o.reqAt);
    if !o.feedErr {
      HandlerTakes(y, h);
      var j := |OnId(y.s.inLog, c.st.id)| - 1;
      PrefixOfSent(o.taken, SF.Opens(o.kind, c.req.payload), c.sent, if j <= |c.sent| then j else |c.sent|);
    }
  }

  lemma {:induction false} HandlerTakes(y: Sys, h: nat)
    requires Reachable(y) && h < |y.s.handlers| && !y.s.handlers[h].feedErr
    ensures var o := y.s.handlers[h]; o.taken <= SF.Due(y.s.inLog, o.kind, o.req, o.reqAt, o.id)
  {
    SysInvHolds(y);
    ST.TakenIsDue(y.s, h);
  }

  lemma {:induction false} PrefixOfSent(taken: seq<Bytes>, initial: seq<Bytes>, sent: seq<Bytes>, k: nat)
    requires k <= |sent| && taken <= initial + sent[..k]
    ensures taken <= initial + sent
  {
    assert initial + sent == (initial + sent[..k]) + sent[k..];
  }

  lemma {:induction false} HandlerEnds(y: Sys, h: nat)
    requires Reachable(y) && h < |y.s.handlers| && y.s.handlers[h].sawEOF
    ensures ST.Drained(y.s.inLog, y.s.handlers[h])
  {
    SysInvHolds(y);
    ST.EndIsDue(y.s, h);
  }

  /** ... and when RecvMsg returns io.EOF the caller has closed its side and everything it
      sent has been returned. */
  lemma {:induction false} ClientToServerEnd(y: Sys, h: nat)
    requires Reachable(y) && BeforeWrap(y) && h < |y.s.handlers|
    requires y.s.handlers[h].sawEOF && !y.s.handlers[h].feedErr
    ensures y.s.handlers[h].reqAt < |y.c.out| && ClientOf(y, h) < |y.c.objs|
    ensures y.c.objs[ClientOf(y, h)].localClosed
    ensures y.s.handlers[h].taken ==
              SF.Opens(y.s.handlers[h].kind, y.c.objs[ClientOf(y, h)].req.payload) + y.c.objs[ClientOf(y, h)].sent
  {
    HandlerServes(y, h);
    HandlerEnds(y, h);
    var n := ClientOf(y, h);
    var c := y.c.objs[n];
    var o := y.s.handlers[h];
    HeardIsSpoken(y, n);
    var upTo := y.s.inLog[..o.closedAt + 1];
    OnIdPrefix(upTo, y.s.inLog, c.st.id);
    DueIsSent(upTo, c, o.kind, o.reqAt);
    ClosingIsLast(upTo, c, o.reqAt);
    assert c.sent[..|c.sent|] == c.sent;
  }

  /** A close frame received from a stream is the last thing it says. */
  lemma {:induction false} ClosingIsLast(fs: seq<Frame>, o: C.Obj, reqAt: nat)
    requires reqAt < |fs| - 1 && fs[reqAt].RequestFrame? && fs[reqAt].id == o.st.id
    requires OnId(fs, o.st.id) <= CI.Spoken(o)
    requires var f := fs[|fs| - 1]; f.DataFrame? && f.id == o.st.id && f.flags.remoteClosed
    ensures o.localClosed && |OnId(fs, o.st.id)| == |o.sent| + 2
  {
    var front := fs[..|fs| - 1];
    var f := fs[|fs| - 1];
    assert fs == front + [f];
    OnIdSnoc(front, f, o.st.id);
    OnIdMembers(front, o.st.id);
    assert front[reqAt] in OnId(front, o.st.id);
    NextSpoken(o, |OnId(front, o.st.id)|, f);
  }
}
