/** When the sender loop of a server connection ends, and what the receiver does about a
    shutdown. */
module ServerExit {
  import opened Frames
  import opened ServerConn
  import opened ServerIds
  import opened ServerActive
  import ST = ServerTheorems

  /** The receiver goes with an error or after a shutdown; its error is taken only then, and
      an end of file ends the loop. */
  ghost predicate TakenInv(s: Server) {
    && (s.rp.Gone? ==> s.errBox.Some? || s.shutdown || s.done)
    && (s.errBox.Some? || s.errSeen ==> s.rp.Gone?)
    && (s.errSeen && s.errBox == Some(true) ==> Over(s.sp))
  }

  /** A step of the receiver: it alone puts an error in the channel, and then it is gone. */
  ghost predicate Receives(s: Server, s': Server) {
    && !s.rp.Gone?
    && s'.errSeen == s.errSeen && s'.sp == s.sp && s'.shutdown == s.shutdown && s'.done == s.done
    && (s'.errBox == s.errBox || s'.rp.Gone?)
    && (s'.rp.Gone? ==> s'.errBox.Some? || s.shutdown || s.done)
  }

  lemma {:induction false} FollowReceives(s: Server, v: Verdict)
    requires s.inLog != [] && s.rp.Got? && (v.MoveOn? ==> !v.rp.Gone?)
    ensures Receives(s, Follow(s, v))
  {
  }

  lemma {:induction false} FeedReceives(s: Server, a: RecvAct)
    requires InFeed(s.rp) && s.rp.h < |s.handlers| && FeedEnabled(s.rp, s.handlers[s.rp.h], a) && s.inLog != []
    ensures Receives(s, FeedApply(s, a))
  {
  }

  lemma {:induction false} RestReceives(s: Server, a: RecvAct)
    requires RecvEnabled(s, a) && (InFeed(s.rp) ==> s.inLog != []) && !a.Dispatch? && !IsFeed(a)
    ensures Receives(s, RecvApply(s, a))
  {
  }

  lemma {:induction false} RecvReceives(s: Server, a: RecvAct)
    requires RecvEnabled(s, a) && (InFeed(s.rp) ==> s.inLog != [])
    ensures Receives(s, RecvApply(s, a))
  {
    if a.Dispatch? {
      JudgeMovesOn(s);
      FollowReceives(s, Judge(s));
    } else if IsFeed(a) {
      FeedReceives(s, a);
    } else {
      RestReceives(s, a);
    }
  }

  lemma {:induction false} SendTakes(s: Server, a: SendAct)
    requires SendEnabled(s, a) && TakenInv(s)
    ensures TakenInv(SendApply(s, a))
  {
  }

  lemma {:induction false} TakenInvStep(s: Server, a: Action)
    requires Enabled(s, a) && TakenInv(s)
    ensures TakenInv(Apply(s, a))
  {
    match a
    case Recv(ra) => RecvReceives(s, ra);
    case Send(sa) => SendTakes(s, sa);
    case Handle(_, _) =>
    case Shutdown =>
  }

  lemma {:induction false} TakenInvAt(states: seq<Server>, acts: seq<Action>, i: nat)
    requires IsRun(states, acts) && i <= |acts|
    ensures TakenInv(states[i])
    decreases i
  {
    if i > 0 {
      var j: nat := i - 1;
      TakenInvAt(states, acts, j);
      var a := acts[j];
      TakenInvStep(states[j], a);
    }
  }

  /** Once the loop has taken an end of file it has left, in every run; it takes an error only
      when the receiver is gone; and the receiver goes only with an error, or if the
      connection is shut down or done. */
  lemma {:induction false} EOFEndsLoop(s: Server)
    requires Reachable(s)
    ensures s.errSeen && s.errBox == Some(true) ==> Over(s.sp)
    ensures s.errSeen ==> s.rp.Gone?
    ensures s.rp.Gone? ==> s.errBox.Some? || s.shutdown || s.done
  {
    var states, acts :| IsRun(states, acts) && s == states[|acts|];
    TakenInvAt(states, acts, |acts|);
  }

  // ---- why the loop leaves ----

  /** A step that makes the loop leave: it takes an end of file, a write fails, or it is
      waiting without a request in progress and the connection is shut down. */
  predicate Leaves(s: Server, a: Action) {
    a.Send? &&
    match a.sa
    case SeeErr => s.errBox == Some(true)
    case WriteFail => true
    case SeeShutdown => s.shutdown && s.sp == Selecting(true)
    case _ => false
  }

  lemma {:induction false} SendLeaves(s: Server, a: SendAct)
    requires SendEnabled(s, a) && !Over(s.sp)
    ensures Over(SendApply(s, a).sp) <==> Leaves(s, Send(a))
  {
  }

  lemma {:induction false} StepLeaves(s: Server, a: Action)
    requires Enabled(s, a) && !Over(s.sp)
    ensures Over(Apply(s, a).sp) <==> Leaves(s, a)
  {
    match a
    case Recv(ra) => RecvReceives(s, ra);
    case Send(sa) => SendLeaves(s, sa);
    case Handle(_, _) =>
    case Shutdown =>
  }

  /** The loop has left exactly if one of its steps had such a cause. */
  lemma {:induction false} LeftForCause(states: seq<Server>, acts: seq<Action>, i: nat)
    requires IsRun(states, acts) && i <= |acts|
    ensures Over(states[i].sp) <==> exists j {:trigger acts[j]} :: 0 <= j < i && Leaves(states[j], acts[j])
    decreases i
  {
    if i > 0 {
      var j: nat := i - 1;
      LeftForCause(states, acts, j);
      var a := acts[j];
      if Over(states[j].sp) {
        OverStays(states[j], a);
      } else {
        StepLeaves(states[j], a);
      }
    }
  }

  lemma {:induction false} OverStays(s: Server, a: Action)
    requires Enabled(s, a) && Over(s.sp)
    ensures Over(Apply(s, a).sp)
  {
    match a
    case Recv(ra) => RecvReceives(s, ra);
    case Send(_) =>
    case Handle(_, _) =>
    case Shutdown =>
  }

  /** The loop waits for the shutdown only if, when it last looked, the counter was not positive. */
  lemma {:induction false} IdleWhenLoaded(states: seq<Server>, acts: seq<Action>, i: nat) returns (j: nat)
    requires IsRun(states, acts) && i <= |acts| && states[i].sp.Selecting?
    ensures j < i && acts[j] == Send(Load) && (states[i].sp.idle <==> states[j].active <= 0)
    ensures forall k :: j < k <= i ==> states[k].sp == states[i].sp
    decreases i
  {
    j := i - 1;
    var a := acts[j];
    if a != Send(Load) {
      SelectingStays(states[j], a);
      j := IdleWhenLoaded(states, acts, j);
    }
  }

  lemma {:induction false} SendSelects(s: Server, a: SendAct)
    requires SendEnabled(s, a)
    ensures SendApply(s, a).sp.Selecting? <==> a.Load?
  {
  }

  lemma {:induction false} SelectingStays(s: Server, a: Action)
    requires Enabled(s, a) && a != Send(Load) && Apply(s, a).sp.Selecting?
    ensures Apply(s, a).sp == s.sp
  {
    match a
    case Recv(ra) => RecvReceives(s, ra);
    case Send(sa) => SendSelects(s, sa);
    case Handle(_, _) =>
    case Shutdown =>
  }

  /** The loop takes at most one error. */
  lemma {:induction false} ErrorTakenOnce(states: seq<Server>, acts: seq<Action>, i: nat, j: nat)
    requires IsRun(states, acts) && i < j < |acts| && acts[i] == Send(SeeErr)
    ensures acts[j] != Send(SeeErr)
  {
    SeenStays(states, acts, i, j);
    assert Enabled(states[j], acts[j]);
  }

  lemma {:induction false} SeenStays(states: seq<Server>, acts: seq<Action>, i: nat, j: nat)
    requires IsRun(states, acts) && i < j <= |acts| && acts[i] == Send(SeeErr)
    ensures states[j].errSeen
    decreases j
  {
    var k: nat := j - 1;
    var a := acts[k];
    if i < k {
      SeenStays(states, acts, i, k);
      StepSeen(states[k], a);
    }
  }

  lemma {:induction false} StepSeen(s: Server, a: Action)
    requires Enabled(s, a) && s.errSeen
    ensures Apply(s, a).errSeen
  {
    match a
    case Recv(ra) => RecvReceives(s, ra);
    case Send(_) =>
    case Handle(_, _) =>
    case Shutdown =>
  }

  /** Nothing keeps the loop from leaving: at its select it can take the receiver's error, and
      without requests in progress the shutdown; after that it closes done. */
  lemma {:induction false} CanLeave(s: Server)
    requires s.sp.Selecting?
    ensures s.errBox == Some(true) && !s.errSeen ==>
              Enabled(s, Send(SeeErr)) && Apply(s, Send(SeeErr)).sp.Leaving?
    ensures s.shutdown && s.sp.idle ==>
              Enabled(s, Send(SeeShutdown)) && Apply(s, Send(SeeShutdown)).sp.Leaving?
  {
  }

  // ---- the receiver ----

  /** recv has failed with this error, and the receiver keeps it and is gone. */
  predicate Failed(s: Server, eof: bool) {
    s.rp == Cut(eof) || (s.rp.Gone? && s.errBox == Some(eof))
  }

  lemma {:induction false} FailedStays(s: Server, a: Action, eof: bool)
    requires Enabled(s, a) && Failed(s, eof)
    ensures Failed(Apply(s, a), eof)
  {
    match a
    case Recv(ra) =>
    case Send(sa) => SendAndReceiver(s, sa);
    case Handle(_, _) =>
    case Shutdown =>
  }

  /** The error in the channel is the one the connection failed with: an end of file is
      reported as one, and anything else is not. */
  lemma {:induction false} ErrorKept(states: seq<Server>, acts: seq<Action>, j: nat, i: nat)
    requires IsRun(states, acts) && j < i <= |acts| && acts[j].Recv? && acts[j].ra.Break?
    ensures Failed(states[i], acts[j].ra.eof)
    decreases i
  {
    var k: nat := i - 1;
    var a := acts[k];
    if j < k {
      ErrorKept(states, acts, j, k);
      FailedStays(states[k], a, acts[j].ra.eof);
    }
  }

  lemma {:induction false} FollowGoesOn(s: Server, v: Verdict)
    requires s.inLog != [] && (v.MoveOn? ==> !v.rp.Cut?)
    ensures !Follow(s, v).rp.Cut? && Follow(s, v).errBox == s.errBox
  {
  }

  lemma {:induction false} FeedGoesOn(s: Server, a: RecvAct)
    requires InFeed(s.rp) && s.rp.h < |s.handlers| && FeedEnabled(s.rp, s.handlers[s.rp.h], a) && s.inLog != []
    ensures !FeedApply(s, a).rp.Cut? && FeedApply(s, a).errBox == s.errBox
  {
  }

  lemma {:induction false} RecvFails(s: Server, a: RecvAct)
    requires RecvEnabled(s, a) && (InFeed(s.rp) ==> s.inLog != []) && TakenInv(s) && !s.rp.Gone?
    requires Failed(RecvApply(s, a), true)
    ensures Failed(s, true) || a == Break(true)
  {
    if a.Dispatch? {
      JudgeMovesOn(s);
      FollowGoesOn(s, Judge(s));
    } else if IsFeed(a) {
      FeedGoesOn(s, a);
    }
  }

  lemma {:induction false} StepFails(s: Server, a: Action)
    requires Enabled(s, a) && TakenInv(s) && Failed(Apply(s, a), true)
    ensures Failed(s, true) || a == Recv(Break(true))
  {
    match a
    case Recv(ra) =>
      RecvReceives(s, ra);
      RecvFails(s, ra);
    case Send(sa) => SendAndReceiver(s, sa);
    case Handle(_, _) =>
    case Shutdown =>
  }

  /** An end of file is reported only if the connection failed with one. */
  lemma {:induction false} EOFHasCause(states: seq<Server>, acts: seq<Action>, i: nat) returns (j: nat)
    requires IsRun(states, acts) && i <= |acts| && Failed(states[i], true)
    ensures j < i && acts[j] == Recv(Break(true))
    decreases i
  {
    j := i - 1;
    var a := acts[j];
    TakenInvAt(states, acts, j);
    StepFails(states[j], a);
    if a != Recv(Break(true)) {
      j := EOFHasCause(states, acts, j);
    }
  }

  /** A shutdown is not forgotten. */
  lemma {:induction false} ShutdownKept(states: seq<Server>, acts: seq<Action>, j: nat, i: nat)
    requires IsRun(states, acts) && j < i <= |acts| && acts[j].Shutdown?
    ensures states[i].shutdown
    decreases i
  {
    var k: nat := i - 1;
    var a := acts[k];
    if j < k {
      ShutdownKept(states, acts, j, k);
      ShutdownStays(states[k], a);
    }
  }

  lemma {:induction false} ShutdownStays(s: Server, a: Action)
    requires Enabled(s, a) && s.shutdown
    ensures Apply(s, a).shutdown
  {
    match a
    case Recv(ra) => RecvReceives(s, ra);
    case Send(_) =>
    case Handle(_, _) =>
    case Shutdown =>
  }

  /** After a shutdown the receiver reads at most the frame it is waiting for: no other step
      makes it wait for a frame again. */
  lemma {:induction false} NoReadAfterShutdown(s: Server, a: Action)
    requires Enabled(s, a) && (s.shutdown || s.done) && !s.rp.Blocked?
    ensures !Apply(s, a).rp.Blocked?
  {
    match a
    case Recv(ra) => RecvStops(s, ra);
    case Send(sa) => SendAndReceiver(s, sa);
    case Handle(_, _) =>
    case Shutdown =>
  }

  lemma {:induction false} SendAndReceiver(s: Server, a: SendAct)
    requires SendEnabled(s, a)
    ensures SendApply(s, a).rp == if a.AcceptReject? then AtTop else s.rp
  {
  }

  lemma {:induction false} JudgeMovesOn(s: Server)
    requires s.inLog != []
    ensures Judge(s).MoveOn? ==> !Judge(s).rp.Blocked? && !Judge(s).rp.Gone? && !Judge(s).rp.Cut?
  {
  }

  lemma {:induction false} FollowMovesOn(s: Server, v: Verdict)
    requires s.inLog != [] && (v.MoveOn? ==> !v.rp.Blocked?)
    ensures !Follow(s, v).rp.Blocked?
  {
  }

  lemma {:induction false} FeedMovesOn(s: Server, a: RecvAct)
    requires InFeed(s.rp) && s.rp.h < |s.handlers| && FeedEnabled(s.rp, s.handlers[s.rp.h], a) && s.inLog != []
    ensures !FeedApply(s, a).rp.Blocked?
  {
  }

  lemma {:induction false} RecvStops(s: Server, a: RecvAct)
    requires RecvEnabled(s, a) && (InFeed(s.rp) ==> s.inLog != []) && (s.shutdown || s.done) && !s.rp.Blocked?
    ensures !RecvApply(s, a).rp.Blocked?
  {
    if a.Dispatch? {
      JudgeMovesOn(s);
      FollowMovesOn(s, Judge(s));
    } else if IsFeed(a) {
      FeedMovesOn(s, a);
    }
  }

  /** ... and it is never held up: whatever it is doing, unless it is waiting for a frame, it
      has an enabled step. */
  lemma {:induction false} ReceiverGoesOn(s: Server) returns (a: RecvAct)
    requires Reachable(s) && (s.shutdown || s.done) && !s.rp.Gone? && !s.rp.Blocked?
    requires s.rp.Got? && s.inLog != [] ==> !(Last(s).DataFrame? && NilHandler(s, Last(s).id))
    ensures Enabled(s, Recv(a))
  {
    ST.ServerInvHolds(s);
    match s.rp
    case AtTop => a := Quit;
    case Cut(eof) => a := ReadErr(eof);
    case Got => a := Dispatch;
    case Rejecting(_) => a := DropReject;
    case Starting(h, stage) => a := NextFeed(stage, s.handlers[h]);
    case Storing(_) => a := Store;
    case Counting(_) => a := Count;
    case Feeding(h, stage) => a := NextFeed(stage, s.handlers[h]);
    case Finishing(_) => a := Finish;
  }

  function NextFeed(stage: Stage, o: Handler): RecvAct {
    match stage
    case Check => if o.remoteClosed then FeedErr else FeedCheck
    case Choose => if |o.queue| < o.cap then Feed else if o.ctxDone then FeedErr else FeedWait
    case Full => FeedErr
  }
}
