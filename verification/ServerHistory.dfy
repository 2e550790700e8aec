/** What a server's state remembers of its handlers is what they did: the messages they sent and
    the results they returned. */
module ServerHistory {
  import opened Frames
  import opened ServerConn
  import opened ServerIds
  import ST = ServerTheorems

  /** The messages that handler h passed to SendMsg. */
  ghost function SendsOf(acts: seq<Action>, h: nat): seq<Option<Bytes>> {
    if acts == [] then []
    else
      var a := acts[|acts| - 1];
      SendsOf(acts[..|acts| - 1], h) + (if a.Handle? && a.h == h && a.ha.HSend? then [a.ha.msg] else [])
  }

  /** The result that the method of handler h returned. */
  ghost function ReturnOf(acts: seq<Action>, h: nat): Option<(Status, Option<Bytes>)> {
    if acts == [] then None
    else
      var a := acts[|acts| - 1];
      if a.Handle? && a.h == h && a.ha.HReturn? then Some((a.ha.status, a.ha.data))
      else ReturnOf(acts[..|acts| - 1], h)
  }

  lemma {:induction false} HistoryNext(acts: seq<Action>, j: nat, h: nat)
    requires j < |acts|
    ensures var a := acts[j];
            && SendsOf(acts[..j + 1], h) == SendsOf(acts[..j], h) + SentBy(a, h)
            && ReturnOf(acts[..j + 1], h) == ReturnedBy(a, h, ReturnOf(acts[..j], h))
  {
    assert acts[..j + 1][..j] == acts[..j];
  }

  function SentBy(a: Action, h: nat): seq<Option<Bytes>> {
    if a.Handle? && a.h == h && a.ha.HSend? then [a.ha.msg] else []
  }

  function ReturnedBy(a: Action, h: nat, before: Option<(Status, Option<Bytes>)>): Option<(Status, Option<Bytes>)> {
    if a.Handle? && a.h == h && a.ha.HReturn? then Some((a.ha.status, a.ha.data)) else before
  }

  /** The message the handler is blocked on. */
  function Pending(o: Handler): seq<Option<Bytes>> {
    if o.phase.Sending? then [o.phase.msg] else []
  }

  /** What a step does to a handler, before the connection is done and after. */
  ghost predicate Acts(o: Handler, o': Handler, a: Action, h: nat, done: bool) {
    && o'.final == ReturnedBy(a, h, o.final)
    && (!done ==> o'.sent + Pending(o') == o.sent + Pending(o) + SentBy(a, h))
    && (done ==> o'.sent == o.sent)
  }

  lemma {:induction false} HandlerActs(s: Server, h: nat, a: HandlerAct)
    requires h < |s.handlers| && HandleEnabled(s, s.handlers[h], a)
    ensures Acts(s.handlers[h], HandleNext(s.handlers[h], a), Handle(h, a), h, s.done)
  {
    var o := s.handlers[h];
    if a.HSend? {
      assert Pending(HandleNext(o, a)) == [a.msg] && Pending(o) == [];
    }
  }

  lemma {:induction false} AcceptActs(o: Handler, a: Action, h: nat)
    requires CanAccept(o) && a.Send?
    ensures Acts(o, Accepted(o), a, h, false)
  {
  }

  lemma {:induction false} SameActs(o: Handler, o': Handler, a: Action, h: nat, done: bool)
    requires o'.final == o.final && o'.sent == o.sent && o'.phase == o.phase && !(a.Handle? && a.h == h)
    ensures Acts(o, o', a, h, done)
  {
  }

  /** The receiver leaves what handlers say alone, and starts them silent. */
  ghost predicate Silent(s: Server, s': Server) {
    && |s.handlers| <= |s'.handlers| && s'.done == s.done
    && (forall h :: 0 <= h < |s.handlers| ==>
          var o, o' := s.handlers[h], s'.handlers[h];
          o'.final == o.final && o'.sent == o.sent && o'.phase == o.phase)
    && (forall h :: |s.handlers| <= h < |s'.handlers| ==>
          var o := s'.handlers[h]; o.final == None && o.sent == [] && o.phase.Working?)
  }

  lemma {:induction false} FollowSilent(s: Server, v: Verdict)
    requires s.inLog != []
    ensures Silent(s, Follow(s, v))
  {
  }

  lemma {:induction false} FeedSilent(s: Server, a: RecvAct)
    requires InFeed(s.rp) && s.rp.h < |s.handlers| && FeedEnabled(s.rp, s.handlers[s.rp.h], a) && s.inLog != []
    ensures Silent(s, FeedApply(s, a))
  {
  }

  lemma {:induction false} RecvSilent(s: Server, a: RecvAct)
    requires RecvEnabled(s, a) && (InFeed(s.rp) ==> s.inLog != [])
    ensures Silent(s, RecvApply(s, a))
  {
    if a.Dispatch? {
      FollowSilent(s, Judge(s));
    } else if IsFeed(a) {
      FeedSilent(s, a);
    }
  }

  lemma {:induction false} SendActs(s: Server, a: SendAct, h: nat)
    requires SendEnabled(s, a) && ST.ExitInv(s) && h < |s.handlers|
    ensures |SendApply(s, a).handlers| == |s.handlers|
    ensures Acts(s.handlers[h], SendApply(s, a).handlers[h], Send(a), h, s.done)
  {
    if a.Accept? {
      AcceptActs(s.handlers[a.h], Send(a), h);
    }
  }

  /** What a step does to handler h, if it was there, or makes of it. */
  ghost predicate Steps(s: Server, s': Server, a: Action, h: nat)
    requires h < |s'.handlers|
  {
    && (h < |s.handlers| ==> Acts(s.handlers[h], s'.handlers[h], a, h, s.done))
    && (h >= |s.handlers| ==>
          var o := s'.handlers[h]; o.final == None && o.sent == [] && o.phase.Working? && !a.Handle?)
    && (s.done ==> s'.done)
  }

  lemma {:induction false} SilentSteps(s: Server, s': Server, a: Action, h: nat)
    requires Silent(s, s') && a.Recv? && h < |s'.handlers|
    ensures Steps(s, s', a, h)
  {
    if h < |s.handlers| {
      SameActs(s.handlers[h], s'.handlers[h], a, h, s.done);
    }
  }

  lemma {:induction false} HandleSteps(s: Server, g: nat, a: HandlerAct, h: nat)
    requires g < |s.handlers| && HandleEnabled(s, s.handlers[g], a) && h < |s.handlers|
    ensures Steps(s, HandleApply(s, g, a), Handle(g, a), h)
  {
    HandlerActs(s, g, a);
    if h != g {
      SameActs(s.handlers[h], s.handlers[h], Handle(g, a), h, s.done);
    }
  }

  lemma {:induction false} SendSteps(s: Server, a: SendAct, h: nat)
    requires SendEnabled(s, a) && ST.ExitInv(s) && h < |SendApply(s, a).handlers|
    ensures Steps(s, SendApply(s, a), Send(a), h)
  {
    SendKeepsCount(s, a);
    SendActs(s, a, h);
  }

  lemma {:induction false} SendKeepsCount(s: Server, a: SendAct)
    requires SendEnabled(s, a)
    ensures |SendApply(s, a).handlers| == |s.handlers| && (s.done ==> SendApply(s, a).done)
  {
  }

  lemma {:induction false} StepSteps(s: Server, a: Action, h: nat)
    requires Enabled(s, a) && ST.ExitInv(s) && h < |Apply(s, a).handlers|
    ensures Steps(s, Apply(s, a), a, h)
  {
    match a
    case Recv(ra) =>
      RecvSilent(s, ra);
      SilentSteps(s, RecvApply(s, ra), a, h);
    case Send(sa) => SendSteps(s, sa, h);
    case Handle(g, ha) => HandleSteps(s, g, ha, h);
    case Shutdown => SameActs(s.handlers[h], s.handlers[h], a, h, s.done);
  }

  lemma {:induction false} HandlersStay(s: Server, a: Action)
    requires Enabled(s, a)
    ensures |s.handlers| <= |Apply(s, a).handlers|
    ensures a.Handle? ==> a.h < |s.handlers|
  {
    match a
    case Recv(ra) => RecvSilent(s, ra);
    case Send(sa) => SendKeepsCount(s, sa);
    case Handle(_, _) =>
    case Shutdown =>
  }

  ghost predicate HistoryRight(s: Server, o: Handler, sends: seq<Option<Bytes>>, ret: Option<(Status, Option<Bytes>)>) {
    && o.final == ret && o.sent <= sends
    && (!s.done ==> o.sent + Pending(o) == sends)
  }

  lemma {:induction false} ActsKeep(s: Server, s': Server, o: Handler, o': Handler, a: Action, h: nat,
      sends: seq<Option<Bytes>>, ret: Option<(Status, Option<Bytes>)>)
    requires HistoryRight(s, o, sends, ret) && Acts(o, o', a, h, s.done) && (s.done ==> s'.done)
    ensures HistoryRight(s', o', sends + SentBy(a, h), ReturnedBy(a, h, ret))
  {
    if !s.done {
      assert o'.sent + Pending(o') == sends + SentBy(a, h);
    }
  }

  /** The history of handler h, whether it is there or not. */
  ghost predicate Remembers(s: Server, h: nat, sends: seq<Option<Bytes>>, ret: Option<(Status, Option<Bytes>)>) {
    if h < |s.handlers| then HistoryRight(s, s.handlers[h], sends, ret) else sends == [] && ret == None
  }

  lemma {:induction false} RemembersNext(s: Server, s': Server, a: Action, h: nat,
      sends: seq<Option<Bytes>>, ret: Option<(Status, Option<Bytes>)>)
    requires Remembers(s, h, sends, ret) && |s.handlers| <= |s'.handlers|
    requires if h < |s'.handlers| then Steps(s, s', a, h) else !(a.Handle? && a.h == h)
    ensures Remembers(s', h, sends + SentBy(a, h), ReturnedBy(a, h, ret))
  {
    if h < |s.handlers| {
      ActsKeep(s, s', s.handlers[h], s'.handlers[h], a, h, sends, ret);
    }
  }

  lemma {:induction false} RemembersAt(states: seq<Server>, acts: seq<Action>, i: nat, h: nat)
    requires IsRun(states, acts) && i <= |acts|
    ensures Remembers(states[i], h, SendsOf(acts[..i], h), ReturnOf(acts[..i], h))
    decreases i
  {
    if i > 0 {
      var j: nat := i - 1;
      RemembersAt(states, acts, j, h);
      ST.ServerInvAt(states, acts, j);
      HistoryNext(acts, j, h);
      var a := acts[j];
      HandlersStay(states[j], a);
      if h < |states[i].handlers| {
        StepSteps(states[j], a, h);
      }
      RemembersNext(states[j], states[i], a, h, SendsOf(acts[..j], h), ReturnOf(acts[..j], h));
    }
  }

  // ---- contexts ----

  lemma {:induction false} HandlerDone(o: Handler, a: HandlerAct)
    requires a.HRecv? ==> o.queue != []
    ensures HandleNext(o, a).ctxDone <==> o.ctxDone || a.HCtxDone?
  {
  }

  /** The receiver leaves contexts alone, and starts handlers with a live one. */
  ghost predicate Live(s: Server, s': Server) {
    && |s.handlers| <= |s'.handlers|
    && (forall h :: 0 <= h < |s.handlers| ==> s'.handlers[h].ctxDone == s.handlers[h].ctxDone)
    && (forall h :: |s.handlers| <= h < |s'.handlers| ==> !s'.handlers[h].ctxDone)
  }

  lemma {:induction false} FollowLive(s: Server, v: Verdict)
    requires s.inLog != []
    ensures Live(s, Follow(s, v))
  {
  }

  lemma {:induction false} FeedLive(s: Server, a: RecvAct)
    requires InFeed(s.rp) && s.rp.h < |s.handlers| && FeedEnabled(s.rp, s.handlers[s.rp.h], a) && s.inLog != []
    ensures Live(s, FeedApply(s, a))
  {
  }

  lemma {:induction false} RecvLive(s: Server, a: RecvAct)
    requires RecvEnabled(s, a) && (InFeed(s.rp) ==> s.inLog != [])
    ensures Live(s, RecvApply(s, a))
  {
    if a.Dispatch? {
      FollowLive(s, Judge(s));
    } else if IsFeed(a) {
      FeedLive(s, a);
    }
  }

  lemma {:induction false} SendLive(s: Server, a: SendAct)
    requires SendEnabled(s, a)
    ensures Live(s, SendApply(s, a)) && |SendApply(s, a).handlers| == |s.handlers|
  {
  }

  lemma {:induction false} StepLive(s: Server, a: Action, h: nat)
    requires Enabled(s, a) && h < |Apply(s, a).handlers|
    ensures Apply(s, a).handlers[h].ctxDone <==>
              (h < |s.handlers| && s.handlers[h].ctxDone) || a == Handle(h, HCtxDone)
  {
    match a
    case Recv(ra) => RecvLive(s, ra);
    case Send(sa) => SendLive(s, sa);
    case Handle(g, ha) => HandlerDone(s.handlers[g], ha);
    case Shutdown =>
  }

  lemma {:induction false} NoStepYet(states: seq<Server>, acts: seq<Action>, i: nat, h: nat)
    requires IsRun(states, acts) && i <= |acts| && h >= |states[i].handlers|
    ensures Handle(h, HCtxDone) !in acts[..i]
    decreases i
  {
    if i > 0 {
      var j: nat := i - 1;
      var a := acts[j];
      HandlersStay(states[j], a);
      NoStepYet(states, acts, j, h);
      assert acts[..i] == acts[..j] + [a];
    }
  }

  /** A handler's context is done exactly if it was cancelled or timed out in the run. */
  lemma {:induction false} DoneIfCancelled(states: seq<Server>, acts: seq<Action>, i: nat, h: nat)
    requires IsRun(states, acts) && i <= |acts| && h < |states[i].handlers|
    ensures states[i].handlers[h].ctxDone <==> Handle(h, HCtxDone) in acts[..i]
    decreases i
  {
    var j: nat := i - 1;
    var a := acts[j];
    StepLive(states[j], a, h);
    assert acts[..i] == acts[..j] + [a];
    if h < |states[j].handlers| {
      DoneIfCancelled(states, acts, j, h);
    } else {
      NoStepYet(states, acts, j, h);
    }
  }

  // ---- the history ----

  /** In every run, a handler's result is what its method returned, what the sender loop has
      taken from it is a prefix of what it passed to SendMsg, and until the connection is done
      that is all of it but a message it is blocked on. */
  lemma {:induction false} SaysWhatItDid(states: seq<Server>, acts: seq<Action>, i: nat, h: nat)
    requires IsRun(states, acts) && i <= |acts| && h < |states[i].handlers|
    ensures var o := states[i].handlers[h];
            && o.final == ReturnOf(acts[..i], h)
            && o.sent <= SendsOf(acts[..i], h)
            && (!states[i].done ==> o.sent + Pending(o) == SendsOf(acts[..i], h))
  {
    RemembersAt(states, acts, i, h);
  }
}
