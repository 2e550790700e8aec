/** Concurrent senders of one connection: sendLock (client.go) or the single sender loop
    (server.go) around the pieces in which a frame's bytes reach the wire. */
module SendLock {
  import opened Frames
  import opened Framing
  import opened WireCodec
  import C = ClientConn
  import CI = ClientIds

  /** `written` bytes of `frame` are out; after a failed write the writer's error sticks. */
  datatype Holder = Nobody | Sending(sender: nat, frame: Raw, written: nat)

  datatype State = State(holder: Holder, wire: Bytes, sent: seq<Raw>, broken: bool)

  datatype Step = Lock(sender: nat, frame: Raw) | Push(n: nat) | Unlock | Fail

  ghost predicate Init(s: State) {
    s == State(Nobody, [], [], false)
  }

  predicate Enabled(s: State, a: Step) {
    match a
    case Lock(_, _) => s.holder.Nobody? && !s.broken
    case Push(n) => s.holder.Sending? && !s.broken && s.holder.written + n <= |FrameBytes(s.holder.frame)|
    case Unlock => s.holder.Sending? && !s.broken && s.holder.written == |FrameBytes(s.holder.frame)|
    case Fail => s.holder.Sending?
  }

  function Apply(s: State, a: Step): State
    requires Enabled(s, a)
  {
    match a
    case Lock(i, f) => s.(holder := Sending(i, f, 0))
    case Push(n) =>
      var k := s.holder.written;
      s.(holder := s.holder.(written := k + n), wire := s.wire + FrameBytes(s.holder.frame)[k..k + n])
    case Unlock => s.(holder := Nobody, sent := s.sent + [s.holder.frame])
    case Fail => s.(broken := true)
  }

  lemma {:induction false} Assoc(a: Bytes, b: Bytes, c: Bytes)
    ensures a + (b + c) == (a + b) + c
  {
  }

  lemma {:induction false} StreamSnoc(fs: seq<Raw>, f: Raw)
    ensures Stream(fs + [f]) == Stream(fs) + FrameBytes(f)
  {
    if fs == [] {
      assert fs + [f] == [f];
      assert Stream([f][1..]) == [];
    } else {
      StreamSnoc(fs[1..], f);
      assert (fs + [f])[0] == fs[0] && (fs + [f])[1..] == fs[1..] + [f];
      Assoc(FrameBytes(fs[0]), Stream(fs[1..]), FrameBytes(f));
    }
  }

  /** The wire holds whole frames in the order the lock was taken, then part of one. */
  ghost predicate WholeFrames(s: State) {
    match s.holder
    case Nobody => s.wire == Stream(s.sent)
    case Sending(_, f, k) => k <= |FrameBytes(f)| && s.wire == Stream(s.sent) + FrameBytes(f)[..k]
  }

  lemma {:induction false} WholeFramesStep(s: State, a: Step)
    requires WholeFrames(s) && Enabled(s, a)
    ensures WholeFrames(Apply(s, a))
  {
    match a
    case Lock(_, f) => assert FrameBytes(f)[..0] == [];
    case Push(n) =>
      var k, b := s.holder.written, FrameBytes(s.holder.frame);
      assert b[..k + n] == b[..k] + b[k..k + n];
    case Unlock =>
      var b := FrameBytes(s.holder.frame);
      assert b[..|b|] == b;
      StreamSnoc(s.sent, s.holder.frame);
    case Fail =>
  }

  ghost predicate IsRun(states: seq<State>, acts: seq<Step>) {
    && |states| == |acts| + 1
    && Init(states[0])
    && (forall i {:trigger acts[i]} :: 0 <= i < |acts| ==>
          Enabled(states[i], acts[i]) && states[i + 1] == Apply(states[i], acts[i]))
  }

  /** Whole frames never interleave, however senders and partial writes do. */
  lemma {:induction false} NoInterleaving(states: seq<State>, acts: seq<Step>, i: nat)
    requires IsRun(states, acts) && i <= |acts|
    ensures WholeFrames(states[i])
    decreases i
  {
    if i > 0 {
      var j: nat := i - 1;
      NoInterleaving(states, acts, j);
      var a := acts[j];
      WholeFramesStep(states[j], a);
    }
  }

  // ---- the client machine's writes ----

  /** The client machine writes a frame in one step: it is the step at which the lock that the
      frame's bytes went out under is given back. */
  ghost predicate Writes(s: State, m: Codec, c: C.Client) {
    var wire := CI.Wire(c.out);
    && (forall i :: 0 <= i < |wire| ==> Fits(m, wire[i]))
    && s.sent == EncodeAll(m, wire)
  }

  lemma {:induction false} WritesStep(s: State, m: Codec, c: C.Client, a: C.Action)
    requires Writes(s, m, c) && C.Enabled(c, a)
    requires CI.Wire(C.Apply(c, a).out) != CI.Wire(c.out) ==>
               var wire := CI.Wire(C.Apply(c, a).out);
               Enabled(s, Unlock) && Fits(m, wire[|wire| - 1]) && s.holder.frame == Encode(m, wire[|wire| - 1])
    ensures Writes(if CI.Wire(C.Apply(c, a).out) == CI.Wire(c.out) then s else Apply(s, Unlock), m, C.Apply(c, a))
  {
    var out, out' := c.out, C.Apply(c, a).out;
    OneWrite(c, a);
    if out' != out {
      var w := out'[|out|];
      assert out' == out + [w];
      assert CI.Wire(out') == CI.Wire(out) + [w.frame];
      assert EncodeAll(m, CI.Wire(out')) == EncodeAll(m, CI.Wire(out)) + [Encode(m, w.frame)];
    }
  }

  lemma {:induction false} OneWrite(c: C.Client, a: C.Action)
    requires C.Enabled(c, a)
    ensures C.Apply(c, a).out == c.out || (|C.Apply(c, a).out| == |c.out| + 1 && C.Apply(c, a).out[..|c.out|] == c.out)
  {
  }

  lemma {:induction false} RecvAllThen(fs: seq<Raw>, tail: Bytes)
    requires forall i :: 0 <= i < |fs| ==> WellSized(fs[i])
    ensures RecvAll(Stream(fs) + tail) == Reports(fs) + RecvAll(tail)
  {
    if fs == [] {
      assert Stream(fs) + tail == tail;
    } else {
      RecvAllThen(fs[1..], tail);
      Assoc(FrameBytes(fs[0]), Stream(fs[1..]), tail);
      RecvAllOne(fs[0], Stream(fs[1..]) + tail);
    }
  }

  /** Whatever the senders are doing and wherever a write has failed, the other end reads exactly
      the frames the client machine has written, in order, and then, unless it waits for
      more, one terminal error. */
  lemma {:induction false} ReaderSees(s: State, m: Codec, c: C.Client)
    requires WholeFrames(s) && Lawful(m) && Writes(s, m, c)
    requires s.holder.Sending? ==> WellSized(s.holder.frame) && s.holder.written < |FrameBytes(s.holder.frame)|
    ensures var got, wire := RecvAll(s.wire), CI.Wire(c.out);
            && |got| == |wire| + 1 && Terminal(got[|wire|])
            && forall i :: 0 <= i < |wire| ==> !Terminal(got[i]) && Decode(m, got[i]) == wire[i]
  {
    var wire := CI.Wire(c.out);
    var raws := EncodeAll(m, wire);
    forall i | 0 <= i < |wire|
      ensures WellSized(raws[i]) && !Terminal(Report(raws[i])) && Decode(m, Report(raws[i])) == wire[i]
    {
      CodecRoundTrip(m, wire[i]);
    }
    var tail := if s.holder.Sending? then FrameBytes(s.holder.frame)[..s.holder.written] else [];
    if s.holder.Sending? {
      RecvPart(s.holder.frame, tail);
    }
    assert s.wire == Stream(raws) + tail;
    RecvAllThen(raws, tail);
    ReportsAt(raws);
  }
}
