/** The server's registry of connections and listeners (server.go) and the races between
    Serve, Close, Shutdown and the connections' own ends. A step is one region under the
    server's mutex, or one action of a connection. */
module Registry {
  import opened Frames

  /** newConn before and after addConnection, the connection's loop, and its end; a refused
      connection is first closed by newConn. */
  datatype Phase = Fresh | Refusing | Refused | Added | Running | Ending | Ended

  datatype ConnRec = ConnRec(phase: Phase, shutdown: bool, closes: nat)

  /** A call of Serve: in its accept loop, returning, or returned. */
  datatype Serving = Accepting | Returning | Returned

  /** A call of Shutdown: in its loop, or left because no connection was counted. */
  datatype Shutting = Waiting | Left | GaveUp

  datatype Reg = Reg(
    done: bool, doneCloses: nat, listeners: set<nat>, conns: set<nat>,
    recs: seq<ConnRec>, serves: seq<Serving>, shuts: seq<Shutting>)

  ghost predicate Init(r: Reg) {
    r == Reg(false, 0, {}, {}, [], [], [])
  }

  datatype Step =
    | Serve
    | ServeFails(l: nat)
    | ServeReturns(l: nat)
    | NewConn
    | Add(i: nat)
    | Refuse(i: nat)
    | Go(i: nat)
    | LoopEnds(i: nat)
    | Delete(i: nat)
    | Close
    | ShutdownStarts
    | CloseIdle(idle: set<nat>)
    | CountsZero(k: nat)
    | ShutdownGivesUp(k: nat)

  predicate Enabled(r: Reg, a: Step) {
    match a
    case Serve => true
    case ServeFails(l) => l < |r.serves| && r.serves[l].Accepting?
    case ServeReturns(l) => l < |r.serves| && r.serves[l].Returning?
    case NewConn => true
    case Add(i) => i < |r.recs| && r.recs[i].phase.Fresh?
    case Refuse(i) => i < |r.recs| && r.recs[i].phase.Refusing?
    case Go(i) => i < |r.recs| && r.recs[i].phase.Added?
    case LoopEnds(i) => i < |r.recs| && r.recs[i].phase.Running?
    case Delete(i) => i < |r.recs| && r.recs[i].phase.Ending?
    case Close => true
    case ShutdownStarts => true
    case CloseIdle(idle) => idle <= r.conns
    case CountsZero(k) => k < |r.shuts| && r.shuts[k].Waiting? && r.conns == {}
    case ShutdownGivesUp(k) => k < |r.shuts| && r.shuts[k].Waiting?
  }

  /** serverConn.close: the shutdown channel is closed by the first call only. */
  function Closed(c: ConnRec): ConnRec {
    if c.shutdown then c else c.(shutdown := true, closes := c.closes + 1)
  }

  function CloseSome(recs: seq<ConnRec>, which: set<nat>): seq<ConnRec> {
    seq(|recs|, i requires 0 <= i < |recs| => if i in which then Closed(recs[i]) else recs[i])
  }

  function To(r: Reg, i: nat, phase: Phase): Reg
    requires i < |r.recs|
  {
    r.(recs := r.recs[i := r.recs[i].(phase := phase)])
  }

  /** The beginning of Close and Shutdown: done is closed unless it is, and every listener
      is closed and forgotten. */
  function Finish(r: Reg): Reg {
    r.(done := true, doneCloses := if r.done then r.doneCloses else r.doneCloses + 1, listeners := {})
  }

  function Apply(r: Reg, a: Step): Reg
    requires Enabled(r, a)
  {
    match a
    case Serve =>
      r.(listeners := r.listeners + {|r.serves|}, serves := r.serves + [if r.done then Returning else Accepting])
    case ServeFails(l) => r.(serves := r.serves[l := Returning])
    case ServeReturns(l) => r.(listeners := r.listeners - {l}, serves := r.serves[l := Returned])
    case NewConn => r.(recs := r.recs + [ConnRec(Fresh, false, 0)])
    case Add(i) =>
      if r.done then To(r, i, Refusing) else To(r, i, Added).(conns := r.conns + {i})
    case Refuse(i) => r.(recs := r.recs[i := Closed(r.recs[i]).(phase := Refused)])
    case Go(i) => To(r, i, Running)
    case LoopEnds(i) => To(r, i, Ending)
    case Delete(i) => To(r, i, Ended).(conns := r.conns - {i})
    case Close => Finish(r).(recs := CloseSome(r.recs, r.conns), conns := {})
    case ShutdownStarts => Finish(r).(shuts := r.shuts + [Waiting])
    case CloseIdle(idle) => r.(recs := CloseSome(r.recs, idle), conns := r.conns - idle)
    case CountsZero(k) => r.(shuts := r.shuts[k := Left])
    case ShutdownGivesUp(k) => r.(shuts := r.shuts[k := GaveUp])
  }

  /** A connection that was added and whose loop has not ended is registered, or its
      shutdown has been closed, as that of one that was refused has. */
  ghost predicate ConnRight(r: Reg, i: nat)
    requires i < |r.recs|
  {
    var c := r.recs[i];
    && (c.phase.Added? || c.phase.Running? ==> i in r.conns || c.shutdown)
    && (c.phase.Refused? ==> c.shutdown)
    && (i in r.conns ==> c.phase.Added? || c.phase.Running? || c.phase.Ending?)
    && c.closes == (if c.shutdown then 1 else 0)
  }

  ghost predicate RegInv(r: Reg) {
    && r.doneCloses == (if r.done then 1 else 0)
    && (forall i :: 0 <= i < |r.recs| ==> ConnRight(r, i))
    && (forall i :: i in r.conns ==> i < |r.recs|)
    && (r.shuts != [] ==> r.done)
    && (forall k :: 0 <= k < |r.shuts| && r.shuts[k].Left? ==> r.conns == {})
    && (forall l :: l in r.listeners ==> l < |r.serves| && !r.serves[l].Returned?)
    && (r.done ==> forall l :: l in r.listeners ==> r.serves[l].Returning?)
  }

  lemma {:induction false} RegInvStep(r: Reg, a: Step)
    requires RegInv(r) && Enabled(r, a)
    ensures RegInv(Apply(r, a))
  {
    var r' := Apply(r, a);
    forall i: nat | i < |r'.recs| ensures ConnRight(r', i) {
      if i < |r.recs| {
        assert ConnRight(r, i);
      }
    }
  }

  ghost predicate IsRun(states: seq<Reg>, acts: seq<Step>) {
    && |states| == |acts| + 1
    && Init(states[0])
    && (forall i {:trigger acts[i]} :: 0 <= i < |acts| ==>
          Enabled(states[i], acts[i]) && states[i + 1] == Apply(states[i], acts[i]))
  }

  lemma {:induction false} RegInvAt(states: seq<Reg>, acts: seq<Step>, i: nat)
    requires IsRun(states, acts) && i <= |acts|
    ensures RegInv(states[i])
    decreases i
  {
    if i > 0 {
      var j: nat := i - 1;
      RegInvAt(states, acts, j);
      var a := acts[j];
      RegInvStep(states[j], a);
    }
  }

  /** In every run: a connection whose loop runs is registered or told to shut down, one that
      was refused is told to, each
      shutdown channel and the done channel are closed at most once, and after done every
      listener still known belongs to a Serve call that is about to close it. */
  lemma {:induction false} RegistryHolds(states: seq<Reg>, acts: seq<Step>, i: nat)
    requires IsRun(states, acts) && i <= |acts|
    ensures forall c :: 0 <= c < |states[i].recs| && states[i].recs[c].phase.Running? ==>
              c in states[i].conns || states[i].recs[c].shutdown
    ensures forall c :: 0 <= c < |states[i].recs| && states[i].recs[c].phase.Refused? ==> states[i].recs[c].shutdown
    ensures forall c :: 0 <= c < |states[i].recs| ==> states[i].recs[c].closes <= 1
    ensures states[i].doneCloses <= 1
    ensures states[i].done ==>
              forall l :: l in states[i].listeners ==> l < |states[i].serves| && states[i].serves[l].Returning?
  {
    RegInvAt(states, acts, i);
    var r := states[i];
    forall c: nat | c < |r.recs|
      ensures (r.recs[c].phase.Running? ==> c in r.conns || r.recs[c].shutdown) && r.recs[c].closes <= 1
      ensures r.recs[c].phase.Refused? ==> r.recs[c].shutdown
    {
      assert ConnRight(r, c);
    }
  }

  /** After done the registry only shrinks. */
  lemma {:induction false} DoneShrinks(r: Reg, a: Step)
    requires Enabled(r, a) && r.done
    ensures Apply(r, a).done && Apply(r, a).conns <= r.conns
  {
  }

  /** So once a Shutdown has counted no connection, there is none for the rest of the run. */
  lemma {:induction false} ShutdownLeavesNone(states: seq<Reg>, acts: seq<Step>, i: nat, j: nat, k: nat)
    requires IsRun(states, acts) && i <= j <= |acts|
    requires k < |states[i].shuts| && states[i].shuts[k].Left?
    ensures states[j].done && states[j].conns == {}
    decreases j
  {
    if i == j {
      RegInvAt(states, acts, j);
    } else {
      var p: nat := j - 1;
      ShutdownLeavesNone(states, acts, i, p, k);
      var a := acts[p];
      DoneShrinks(states[p], a);
    }
  }
}
