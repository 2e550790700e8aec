/** The server's guarantees over every run, against a peer that may send any frames. */
module ServerTheorems {
  import opened Frames
  import opened ServerConn
  import opened ServerIds
  import opened ServerAnswers
  import opened ServerActive
  import opened ServerFeeds
  import opened ServerLate

  /** The receiver leaves its error behind when it goes; `done` is closed on the way out. */
  ghost predicate ExitInv(s: Server) {
    && (s.errBox.Some? ==> s.rp.Gone?)
    && (s.done <==> s.sp.Left? || s.sp.Closed?)
  }

  ghost predicate ServerInv(s: Server) {
    IdInv(s) && AnswerInv(s) && ActiveInv(s) && FeedInv(s) && LateInv(s) && ExitInv(s)
  }

  /** At the start nothing has happened: the invariants are about what has. */
  lemma {:induction false} InitIds(s: Server)
    requires Init(s)
    ensures IdInv(s) && FeedInv(s)
  {
  }

  lemma {:induction false} InitAnswers(s: Server)
    requires Init(s)
    ensures AnswerInv(s) && LateInv(s)
  {
  }

  lemma {:induction false} InitActive(s: Server)
    requires Init(s)
    ensures ActiveInv(s) && ExitInv(s)
  {
    assert ExitInv(s);
    assert forall k :: k !in s.rejected;
  }

  lemma {:induction false} ServerInvInit(s: Server)
    requires Init(s)
    ensures ServerInv(s)
  {
    InitIds(s);
    InitAnswers(s);
    InitActive(s);
  }

  lemma {:induction false} RecvExit(s: Server, a: RecvAct)
    requires RecvEnabled(s, a) && (InFeed(s.rp) ==> s.inLog != []) && ExitInv(s)
    ensures ExitInv(RecvApply(s, a))
  {
    if a.Dispatch? {
      DispatchReceives(s, Judge(s));
    } else if IsFeed(a) {
      FeedExit(s, a);
    } else {
      RestExit(s, a);
    }
  }

  lemma {:induction false} RestExit(s: Server, a: RecvAct)
    requires RecvEnabled(s, a) && (InFeed(s.rp) ==> s.inLog != []) && !a.Dispatch? && !IsFeed(a) && ExitInv(s)
    ensures ExitInv(RecvApply(s, a))
  {
  }

  lemma {:induction false} FeedExit(s: Server, a: RecvAct)
    requires InFeed(s.rp) && s.rp.h < |s.handlers| && FeedEnabled(s.rp, s.handlers[s.rp.h], a) && s.inLog != []
    ensures var s' := FeedApply(s, a); s'.sp == s.sp && s'.errBox == s.errBox && s'.done == s.done
  {
  }

  lemma {:induction false} SendExit(s: Server, a: SendAct)
    requires SendEnabled(s, a) && ExitInv(s)
    ensures ExitInv(SendApply(s, a))
  {
  }

  lemma {:induction false} ExitInvStep(s: Server, a: Action)
    requires Enabled(s, a) && ExitInv(s)
    ensures ExitInv(Apply(s, a))
  {
    match a
    case Recv(ra) => RecvExit(s, ra);
    case Send(sa) => SendExit(s, sa);
    case Handle(h, ha) => assert HandleApply(s, h, ha).rp == s.rp;
    case Shutdown =>
  }

  lemma {:induction false} ServerInvStep(s: Server, a: Action)
    requires Enabled(s, a) && ServerInv(s)
    ensures ServerInv(Apply(s, a))
  {
    IdInvStep(s, a);
    AnswerInvStep(s, a);
    ActiveInvStep(s, a);
    LateInvStep(s, a);
    FeedInvStep(s, a);
    ExitInvStep(s, a);
  }

  lemma {:induction false} ServerInvAt(states: seq<Server>, acts: seq<Action>, i: nat)
    requires IsRun(states, acts) && i <= |acts|
    ensures ServerInv(states[i])
    decreases i
  {
    if i == 0 {
      ServerInvInit(states[0]);
    } else {
      ServerInvAt(states, acts, i - 1);
      ServerInvStep(states[i - 1], acts[i - 1]);
    }
  }

  lemma {:induction false} ServerInvHolds(s: Server)
    requires Reachable(s)
    ensures ServerInv(s)
  {
    var states, acts :| IsRun(states, acts) && s == states[|acts|];
    ServerInvAt(states, acts, |acts|);
  }

  // ---- ids and rejections ----

  /** Each accepted request has a new, larger, odd id. */
  lemma {:induction false} AcceptedIdsIncrease(s: Server, i: nat, j: nat)
    requires Reachable(s) && i < j < |s.handlers|
    ensures s.handlers[i].id < s.handlers[j].id && s.handlers[i].id % 2 == 1
    ensures s.handlers[i].reqAt < s.handlers[j].reqAt
  {
    ServerInvHolds(s);
    assert HandlerRight(s.svc, s.inLog, s.lastID, s.handlers[i]);
  }

  /** A frame is rejected only for cause. In particular data is called inactive only if each
      handler its stream ever had has answered, came later, or had the stream closed by
      another rejection; and a data error means that a data() call of its handler failed. */
  lemma {:induction false} RejectedForCause(s: Server, k: nat)
    requires Reachable(s) && k in s.rejected
    ensures k < |s.inLog| && Cause(s.svc, s.inLog, k, s.rejected[k])
    ensures s.rejected[k] == NotActive ==>
              forall h :: 0 <= h < |s.handlers| && s.handlers[h].id == s.inLog[k].id ==>
                s.handlers[h].phase.Answered? || !OnlyLate(s, h)
    ensures s.rejected[k] == DataError ==> FailedFeed(s, k)
  {
    ServerInvHolds(s);
    forall h | 0 <= h < |s.handlers| && s.handlers[h].id == s.inLog[k].id
      ensures s.handlers[h].phase.Answered? || !OnlyLate(s, h)
    {
      assert LateRight(s, h) && RejectedOn(s, k, s.handlers[h].id);
    }
  }

  // ---- the frame language ----

  ghost function WireOf(out: seq<Resp>): seq<Frame> {
    if out == [] then [] else WireOf(out[..|out| - 1]) + [FrameOf(out[|out| - 1])]
  }

  lemma WireOfSnoc(out: seq<Resp>, r: Resp)
    ensures WireOf(out + [r]) == WireOf(out) + [FrameOf(r)]
  {
    assert (out + [r])[..|out|] == out;
  }

  lemma {:induction false} WireOfConcat(a: seq<Resp>, b: seq<Resp>)
    ensures WireOf(a + b) == WireOf(a) + WireOf(b)
  {
    if b == [] {
      assert a + b == a;
    } else {
      WireOfConcat(a, b[..|b| - 1]);
      assert a + b == (a + b[..|b| - 1]) + [b[|b| - 1]];
      WireOfSnoc(a + b[..|b| - 1], b[|b| - 1]);
    }
  }

  lemma {:induction false} WireOfLength(out: seq<Resp>)
    ensures |WireOf(out)| == |out|
  {
    if out != [] {
      WireOfLength(out[..|out| - 1]);
    }
  }

  lemma WireOfPrefix(a: seq<Resp>, b: seq<Resp>)
    requires a <= b
    ensures WireOf(a) <= WireOf(b)
  {
    WireOfConcat(a, b[|a|..]);
    assert b == a + b[|a|..];
  }

  ghost function MessageFrame(id: StreamID, msg: Option<Bytes>): Frame {
    DataFrame(id, Flags(false, false, msg.None?), msg.GetOr([]))
  }

  /** The closing frame: data with remote closed, or a response if the method is not
      server-streaming or failed. */
  ghost function ClosingFrame(o: Handler): Frame
    requires o.final.Some?
  {
    var (status, data) := o.final.value;
    if o.kind.Stream? && o.kind.info.server && status == OK then
      DataFrame(o.id, Flags(true, false, data.None?), data.GetOr([]))
    else ResponseFrame(o.id, status, data.GetOr([]))
  }

  ghost function MessageFrames(id: StreamID, sent: seq<Option<Bytes>>): seq<Frame> {
    seq(|sent|, i requires 0 <= i < |sent| => MessageFrame(id, sent[i]))
  }

  /** The frame language of one accepted request: its messages, then at most one closing
      frame, and nothing after it. */
  ghost function Told(o: Handler): seq<Frame> {
    MessageFrames(o.id, o.sent) + (if o.phase.Answered? && o.final.Some? then [ClosingFrame(o)] else [])
  }

  lemma {:induction false} WireOfMessages(h: nat, o: Handler, n: nat)
    requires n <= |o.sent|
    ensures WireOf(MessageResps(h, o)[..n]) == MessageFrames(o.id, o.sent)[..n]
  {
    if n > 0 {
      WireOfMessages(h, o, n - 1);
      var ms := MessageResps(h, o);
      assert ms[..n] == ms[..n - 1] + [ms[n - 1]];
      WireOfSnoc(ms[..n - 1], ms[n - 1]);
    }
  }

  lemma {:induction false} WireOfAnswers(h: nat, o: Handler)
    ensures WireOf(Answers(h, o)) == Told(o)
  {
    WireOfMessages(h, o, |o.sent|);
    assert MessageResps(h, o)[..|o.sent|] == MessageResps(h, o);
    assert MessageFrames(o.id, o.sent)[..|o.sent|] == MessageFrames(o.id, o.sent);
    if o.phase.Answered? && o.final.Some? {
      WireOfSnoc(MessageResps(h, o), FinalResp(h, o));
    } else {
      assert Answers(h, o) == MessageResps(h, o);
    }
  }

  /** The answer to a frame that comes too late. */
  ghost function LateFrame(id: StreamID): Frame {
    ResponseFrame(id, Rejected(NotActive), [])
  }

  /** The frames are a beginning of what the handler tells, or all of it and then the
      answers to frames that came too late. */
  ghost predicate Tells(o: Handler, fs: seq<Frame>) {
    forall i :: 0 <= i < |fs| ==>
      if i < |Told(o)| then fs[i] == Told(o)[i] else o.phase.Answered? && fs[i] == LateFrame(o.id)
  }

  lemma {:induction false} TellsPrefix(o: Handler, a: seq<Frame>, b: seq<Frame>)
    requires a <= b && Tells(o, b)
    ensures Tells(o, a)
  {
    forall i | 0 <= i < |a|
      ensures if i < |Told(o)| then a[i] == Told(o)[i] else o.phase.Answered? && a[i] == LateFrame(o.id)
    {
      assert a[i] == b[i];
    }
  }

  ghost predicate AllLate(fs: seq<Frame>, id: StreamID) {
    forall i :: 0 <= i < |fs| ==> fs[i] == LateFrame(id)
  }

  /** The frames under an accepted id are its handler's responses and then late answers. */
  lemma {:induction false} OnIdIsBy(s: Server, acc: seq<Resp>, h: nat) returns (late: seq<Frame>)
    requires IdInv(s) && EntriesRight(s) && LateInv(s) && h < |s.handlers| && OnlyLate(s, h) && acc <= s.acc
    ensures OnId(WireOf(acc), s.handlers[h].id) == WireOf(By(acc, FromHandler(h))) + late
    ensures AllLate(late, s.handlers[h].id) && (late != [] ==> s.handlers[h].phase.Answered?)
    ensures late != [] ==> exists i :: 0 <= i < |acc| && acc[i].origin.FromFrame? && acc[i].id == s.handlers[h].id
  {
    late := [];
    if acc != [] {
      var front := acc[..|acc| - 1];
      var r := acc[|acc| - 1];
      var before := OnIdIsBy(s, front, h);
      OnIdSnoc(WireOf(front), FrameOf(r), s.handlers[h].id);
      late := OneMore(s, acc, h, before);
    }
  }

  /** After the answer to a late frame there are only such answers. */
  lemma {:induction false} LateStays(s: Server, i: nat, j: nat, h: nat)
    requires IdInv(s) && EntriesRight(s) && LateInv(s) && h < |s.handlers| && OnlyLate(s, h)
    requires i < j < |s.acc| && s.acc[i].origin.FromFrame? && s.acc[i].id == s.acc[j].id == s.handlers[h].id
    ensures s.acc[j].origin.FromFrame?
  {
    assert EntryRight(s, s.acc[j]);
    if s.acc[j].origin.FromHandler? {
      SameHandler(s.handlers, s.acc[j].origin.h, h);
    }
  }

  /** One more response on the wire. */
  lemma {:induction false} OneMore(s: Server, acc: seq<Resp>, h: nat, before: seq<Frame>) returns (late: seq<Frame>)
    requires IdInv(s) && EntriesRight(s) && LateInv(s) && h < |s.handlers|
    requires OnlyLate(s, h) && acc <= s.acc && acc != []
    requires AllLate(before, s.handlers[h].id) && (before != [] ==> s.handlers[h].phase.Answered?)
    requires before != [] ==>
              exists i :: 0 <= i < |acc| - 1 && acc[i].origin.FromFrame? && acc[i].id == s.handlers[h].id
    ensures var front, r, id := acc[..|acc| - 1], acc[|acc| - 1], s.handlers[h].id;
            WireOf(By(front, FromHandler(h))) + before + (if FrameOf(r).id == id then [FrameOf(r)] else [])
            == WireOf(By(acc, FromHandler(h))) + late
    ensures AllLate(late, s.handlers[h].id) && (late != [] ==> s.handlers[h].phase.Answered?)
    ensures late != [] ==> exists i :: 0 <= i < |acc| && acc[i].origin.FromFrame? && acc[i].id == s.handlers[h].id
  {
    var last := |acc| - 1;
    var r := acc[last];
    assert r == s.acc[last] && EntryRight(s, r);
    late := before;
    if r.id == s.handlers[h].id {
      if before != [] {
        var i :| 0 <= i < last && acc[i].origin.FromFrame? && acc[i].id == s.handlers[h].id;
        assert acc[i] == s.acc[i];
        LateStays(s, i, last, h);
      }
      if r.origin.FromHandler? {
        SameHandler(s.handlers, r.origin.h, h);
        WireOfSnoc(By(acc[..last], FromHandler(h)), r);
      } else {
        assert RejectedOn(s, r.origin.k, s.handlers[h].id) && LateRight(s, h);
        late := before + [LateFrame(s.handlers[h].id)];
      }
    }
  }

  /** What is on the wire for an accepted id is a beginning of its handler's language, and
      after all of it at most answers to frames that came too late; a unary request gets no
      message and at most one response. */
  lemma {:induction false} ServerLanguage(s: Server, h: nat)
    requires Reachable(s) && h < |s.handlers| && OnlyLate(s, h)
    ensures Tells(s.handlers[h], OnId(WireOf(s.out), s.handlers[h].id))
    ensures s.handlers[h].kind.Method? ==> |Told(s.handlers[h])| <= 1
  {
    ServerInvHolds(s);
    ToldOnWire(s, h);
    assert Shaped(s.handlers[h]);
  }

  lemma {:induction false} ToldThenLate(o: Handler, late: seq<Frame>)
    requires AllLate(late, o.id) && (late != [] ==> o.phase.Answered?)
    ensures Tells(o, Told(o) + late)
  {
    var told := Told(o);
    forall i | 0 <= i < |told + late|
      ensures if i < |told| then (told + late)[i] == told[i]
              else o.phase.Answered? && (told + late)[i] == LateFrame(o.id)
    {
      assert i >= |told| ==> (told + late)[i] == late[i - |told|];
    }
  }

  lemma {:induction false} ToldOnWire(s: Server, h: nat)
    requires IdInv(s) && AnswerInv(s) && LateInv(s) && h < |s.handlers| && OnlyLate(s, h)
    ensures Tells(s.handlers[h], OnId(WireOf(s.out), s.handlers[h].id))
  {
    var o := s.handlers[h];
    var late := OnIdIsBy(s, s.acc, h);
    WireOfAnswers(h, o);
    ToldThenLate(o, late);
    WireOfPrefix(s.out, s.acc);
    OnIdPrefix(WireOf(s.out), WireOf(s.acc), o.id);
    TellsPrefix(o, OnId(WireOf(s.out), o.id), Told(o) + late);
  }

  /** Each handler gets at most one closing response, and nothing of it follows. */
  lemma {:induction false} OneClosingResponse(s: Server, h: nat, i: nat)
    requires Reachable(s) && h < |s.handlers|
    requires i < |By(s.acc, FromHandler(h))| && By(s.acc, FromHandler(h))[i].closeStream
    ensures i == |By(s.acc, FromHandler(h))| - 1 && s.handlers[h].phase.Answered?
  {
    ServerInvHolds(s);
    assert By(s.acc, FromHandler(h)) == Answers(h, s.handlers[h]);
  }

  // ---- the active counter ----

  /** The counter is what was stored minus what was closed; with the receiver between
      requests and the sender loop paid up, it is the number of accepted requests still
      to be answered, less one for every rejection sent and every failed start. */
  lemma {:induction false} ActiveExact(s: Server)
    requires Reachable(s)
    ensures s.active == s.adds - s.decs
    ensures !OnRequest(s.rp) && !Over(s.sp) && !Owing(s.sp) ==>
              s.active == |s.handlers| - CountAnswered(s.handlers) - Rejections(s.acc) - s.startFails
  {
    ServerInvHolds(s);
  }

  /** Without rejections the counter never drops below -1, it is at least 0 when no
      request is between its handler's start and its own Store, and once nothing is in
      progress it is 0 exactly when every accepted request has been answered. */
  lemma {:induction false} ActiveBounds(s: Server)
    requires Reachable(s) && s.rejected == map[]
    ensures s.active >= -1
    ensures !OnRequest(s.rp) ==> s.active >= 0
    ensures !OnRequest(s.rp) && !Over(s.sp) && !Owing(s.sp) ==>
              (s.active == 0 <==> forall h :: 0 <= h < |s.handlers| ==> s.handlers[h].phase.Answered?)
  {
    ServerInvHolds(s);
    forall i | 0 <= i < |s.acc| ensures s.acc[i].origin.FromHandler? {
      assert EntryRight(s, s.acc[i]);
    }
    NoRejections(s.acc);
    CountBound(s.handlers);
  }

  // ---- handlers ----

  /** Every handler was started for a request that was received, as what is registered under
      its name: methods go before streams, a stream's info is the registered one, and its
      queue has 64 places for a streaming client and one otherwise. */
  lemma {:induction false} HandlerRegistered(s: Server, h: nat)
    requires Reachable(s) && h < |s.handlers|
    ensures var o := s.handlers[h];
            && o.reqAt < |s.inLog| && s.inLog[o.reqAt].RequestFrame?
            && s.inLog[o.reqAt].id == o.id && s.inLog[o.reqAt].req == o.req
            && o.req.service in s.svc
            && (o.kind.Method? <==> o.req.procedure in s.svc[o.req.service].methods)
            && (o.kind.Stream? ==>
                  && o.req.procedure in s.svc[o.req.service].streams
                  && o.kind.info == s.svc[o.req.service].streams[o.req.procedure]
                  && o.cap == if o.kind.info.client then 64 else 1)
  {
    ServerInvHolds(s);
    assert HandlerRight(s.svc, s.inLog, s.lastID, s.handlers[h]);
  }

  // ---- streaming input ----

  /** The receiver is about to queue what the handler's stream starts with. */
  predicate BeingStarted(s: Server, h: nat) {
    s.rp.Starting? && s.rp.h == h
  }

  /** The request's payload is the first thing in the handler's queue, even an empty one if the
      client does not stream; a streaming client's empty payload is no message. */
  lemma {:induction false} PayloadFirst(s: Server, h: nat)
    requires Reachable(s) && h < |s.handlers| && s.handlers[h].kind.Stream?
    requires !s.handlers[h].feedErr && !BeingStarted(s, h)
    ensures var o := s.handlers[h];
            o.reqAt < |s.inLog| &&
            if o.kind.info.client && o.req.payload == [] then
              o.fed <= Carried(s.inLog[o.reqAt + 1..], o.id)
            else
              && o.fed != [] && o.fed[0] == o.req.payload
              && o.fed[1..] <= Carried(s.inLog[o.reqAt + 1..], o.id)
  {
    var o := s.handlers[h];
    FedHolds(s, h);
    DueIs(s.inLog, o.kind, o.req, o.reqAt, o.id);
    AfterFirst(o.fed, Opens(o.kind, o.req.payload), Carried(s.inLog[o.reqAt + 1..], o.id));
  }

  lemma {:induction false} FedHolds(s: Server, h: nat)
    requires Reachable(s) && h < |s.handlers| && !s.handlers[h].feedErr && !BeingStarted(s, h)
    ensures var o := s.handlers[h];
            && o.reqAt < |s.inLog|
            && Opens(o.kind, o.req.payload) <= o.fed <= Due(s.inLog, o.kind, o.req, o.reqAt, o.id)
  {
    ServerInvHolds(s);
    assert HandlerRight(s.svc, s.inLog, s.lastID, s.handlers[h]);
    FedIsDue(s, h);
  }

  lemma {:induction false} AfterFirst(fed: seq<Bytes>, first: seq<Bytes>, rest: seq<Bytes>)
    requires first <= fed <= first + rest && |first| <= 1
    ensures fed[|first|..] <= rest
    ensures first != [] ==> fed != [] && fed[0] == first[0]
  {
    assert fed[|first|..] == (first + rest)[|first|..|fed|];
  }

  lemma {:induction false} FedIsDue(s: Server, h: nat)
    requires FeedInv(s) && h < |s.handlers| && !s.handlers[h].feedErr && !BeingStarted(s, h)
    ensures var o := s.handlers[h];
            Opens(o.kind, o.req.payload) <= o.fed <= Due(s.inLog, o.kind, o.req, o.reqAt, o.id)
  {
    assert FeedRight(s, h);
    var o := s.handlers[h];
    DuePrefix(Processed(s.rp, s.inLog), s.inLog, o.kind, o.req, o.reqAt, o.id);
  }

  /** There is always room for it, so starting a handler never waits. */
  lemma {:induction false} StartFits(s: Server)
    requires Reachable(s) && s.rp.Starting?
    ensures s.rp.h < |s.handlers| && s.handlers[s.rp.h].queue == []
    ensures Enabled(s, Recv(if s.rp.stage.Check? then FeedCheck else Feed)) && !Enabled(s, Recv(FeedWait))
  {
    ServerInvHolds(s);
    var o := s.handlers[s.rp.h];
    assert HandlerRight(s.svc, s.inLog, s.lastID, o);
    assert FeedRight(s, s.rp.h);
    assert |o.queue| <= |o.taken + o.queue| == |o.fed| == 0;
  }

  lemma {:induction false} DuePrefix(a: seq<Frame>, b: seq<Frame>, kind: Kind, req: Request, reqAt: nat, id: StreamID)
    requires a <= b
    ensures Due(a, kind, req, reqAt, id) <= Due(b, kind, req, reqAt, id)
  {
    if |a| < |b| {
      DuePrefix(a, b[..|b| - 1], kind, req, reqAt, id);
      if |b| - 1 > reqAt {
        assert b == b[..|b| - 1] + [b[|b| - 1]];
        DueSnoc(b[..|b| - 1], b[|b| - 1], kind, req, reqAt, id);
      }
    } else {
      assert a == b;
    }
  }

  /** With no data() error, RecvMsg has returned a prefix of the queued payload and the
      messages received on the stream, in order. */
  lemma {:induction false} HandlerInput(s: Server, h: nat)
    requires Reachable(s) && h < |s.handlers| && !s.handlers[h].feedErr
    ensures var o := s.handlers[h]; o.taken <= Due(s.inLog, o.kind, o.req, o.reqAt, o.id)
  {
    ServerInvHolds(s);
    TakenIsDue(s, h);
  }

  lemma {:induction false} TakenIsDue(s: Server, h: nat)
    requires FeedInv(s) && ReceiverRight(s) && h < |s.handlers| && !s.handlers[h].feedErr
    ensures var o := s.handlers[h]; o.taken <= Due(s.inLog, o.kind, o.req, o.reqAt, o.id)
  {
    assert FeedRight(s, h);
    var o := s.handlers[h];
    DuePrefix(Processed(s.rp, s.inLog), s.inLog, o.kind, o.req, o.reqAt, o.id);
    assert o.taken <= o.fed;
  }

  /** A close frame has arrived for the handler's stream, everything ever queued has been
      returned, and, if no data() call failed, that is all the frames up to the close frame
      were due to give it. */
  ghost predicate Drained(inLog: seq<Frame>, o: Handler) {
    && o.taken == o.fed
    && o.reqAt < o.closedAt < |inLog|
    && inLog[o.closedAt].DataFrame? && inLog[o.closedAt].id == o.id && inLog[o.closedAt].flags.remoteClosed
    && (!o.feedErr ==> o.taken == Due(inLog[..o.closedAt + 1], o.kind, o.req, o.reqAt, o.id))
  }

  /** io.EOF comes only after a close frame for the stream and a drained queue: then
      everything ever queued has been returned, and that is all the stream carried up to
      the close frame. The queue is closed at most once. */
  lemma {:induction false} HandlerEOF(s: Server, h: nat)
    requires Reachable(s) && h < |s.handlers|
    ensures s.handlers[h].closes <= 1
    ensures s.handlers[h].sawEOF ==> Drained(s.inLog, s.handlers[h])
  {
    ServerInvHolds(s);
    EndIsDue(s, h);
  }

  lemma {:induction false} EndIsDue(s: Server, h: nat)
    requires FeedInv(s) && h < |s.handlers|
    ensures s.handlers[h].closes <= 1
    ensures s.handlers[h].sawEOF ==> Drained(s.inLog, s.handlers[h])
  {
    assert FeedRight(s, h);
    assert s.handlers[h].sawEOF ==> s.handlers[h].taken + [] == s.handlers[h].fed;
  }

  /** The queue is never sent to after it was closed, whatever frames arrive. */
  lemma {:induction false} NoSendOnClosed(s: Server)
    requires Reachable(s) && Enabled(s, Recv(Feed))
    ensures !s.handlers[s.rp.h].remoteClosed
  {
    ServerInvHolds(s);
  }

  // ---- exit ----

  /** Once the sender loop has left, every goroutine blocked on the connection can go on:
      handlers in respond, the receiver in sendStatus and before its next frame; and, as the
      deferred close of the connection is the only thing left to do, the receiver in recv,
      whose error fits the channel's buffer. */
  lemma {:induction false} ExitUnblocks(s: Server)
    requires Reachable(s) && (s.sp.Left? || s.sp.Closed?)
    ensures forall h :: 0 <= h < |s.handlers| && (s.handlers[h].phase.Sending? || s.handlers[h].phase.Returning?) ==>
              Enabled(s, Handle(h, HDrop))
    ensures s.rp.Rejecting? ==> Enabled(s, Recv(DropReject))
    ensures s.rp.AtTop? ==> Enabled(s, Recv(Quit))
    ensures s.rp.Blocked? ==> Enabled(s, if s.sp.Left? then Send(CloseConn) else Recv(ReadErr(false)))
    ensures s.rp.Cut? ==> Enabled(s, Recv(ReadErr(s.rp.eof)))
    ensures s.rp.Blocked? || s.rp.Cut? ==> s.errBox.None?
  {
    ServerInvHolds(s);
  }

  lemma {:induction false} SendLeavesRecv(s: Server, a: SendAct)
    requires SendEnabled(s, a) && s.rp.Blocked?
    ensures SendApply(s, a).rp == s.rp
  {
  }

  /** Before that, a receiver in recv goes on only with a frame or when the connection fails. */
  lemma {:induction false} RecvWaits(s: Server, a: Action)
    requires Enabled(s, a) && s.rp.Blocked? && !s.sp.Closed? && Apply(s, a).rp != s.rp
    ensures a.Recv? && (a.ra.Read? || a.ra.Break?)
  {
    match a
    case Recv(_) =>
    case Send(sa) => SendLeavesRecv(s, sa);
    case Handle(_, _) =>
    case Shutdown =>
  }
}
