/** The channel of channel.go over a connection: header bytes are assembled and taken
    apart in place, payloads are read into pooled buffers. Each operation is proved to do
    what Framing says of the bytes. */
module Channel {
  import opened Frames
  import opened Framing
  import opened BufferPool

  /** How many of n bytes a connection that still takes `taken` accepts. */
  function Taken(failed: bool, taken: nat, n: nat): (k: nat)
    ensures k <= n
  {
    if failed then 0 else if taken < n then taken else n
  }

  datatype SendError = OversizedMessage(length: nat) | WriteFailed

  /** `input` is what the connection will still deliver before its end, `output` what has
      been written to it, and `failed` whether a write has failed: then all later ones do. */
  class Conn {
    const hrbuf: array<byte>
    const hwbuf: array<byte>
    var input: Bytes
    var output: Bytes
    var failed: bool

    ghost predicate Valid()
      reads this
    {
      hrbuf != hwbuf && hrbuf.Length == HEADER_LENGTH && hwbuf.Length == HEADER_LENGTH
    }

    /** The header buffers are no payload buffers. */
    ghost predicate Apart(pool: Pool)
      reads pool
    {
      hrbuf !in pool.seen && hwbuf !in pool.seen
    }

    constructor (bytes: Bytes)
      ensures Valid() && input == bytes && output == [] && !failed
      ensures fresh(hrbuf) && fresh(hwbuf)
    {
      hrbuf := new byte[HEADER_LENGTH](_ => 0);
      hwbuf := new byte[HEADER_LENGTH](_ => 0);
      input := bytes;
      output := [];
      failed := false;
    }

    /** io.ReadFull into p[..n]: stops early only at the end of the input. */
    method ReadFull(p: array<byte>, n: nat) returns (got: nat)
      requires n <= p.Length
      modifies this`input, p
      ensures got == (if |old(input)| < n then |old(input)| else n)
      ensures p[..got] == old(input)[..got] && input == old(input)[got..]
      ensures forall i :: got <= i < p.Length ==> p[i] == old(p[i])
    {
      got := 0;
      while got < n && |input| > 0
        invariant got <= n && got <= |old(input)|
        invariant input == old(input)[got..] && p[..got] == old(input)[..got]
        invariant forall i :: got <= i < p.Length ==> p[i] == old(p[i])
        decreases n - got
      {
        p[got] := input[0];
        input := input[1..];
        got := got + 1;
      }
    }

    /** Discard n bytes: the number skipped, fewer only at the end of the input. */
    method Discard(n: nat) returns (skipped: nat)
      modifies this`input
      ensures skipped == (if |old(input)| < n then |old(input)| else n)
      ensures input == old(input)[skipped..]
    {
      skipped := if |input| < n then |input| else n;
      input := input[skipped..];
    }

    method GetBigEndian(p: array<byte>, at: nat) returns (n: StreamID)
      requires at + 4 <= p.Length
      ensures n == GetU32(p[at..at + 4])
    {
      n := GetU32([p[at], p[at + 1], p[at + 2], p[at + 3]]);
      assert p[at..at + 4] == [p[at], p[at + 1], p[at + 2], p[at + 3]];
    }

    method PutBigEndian(p: array<byte>, at: nat, n: StreamID)
      requires at + 4 <= p.Length
      modifies p
      ensures p[at..at + 4] == PutU32(n)
      ensures forall i :: 0 <= i < p.Length && !(at <= i < at + 4) ==> p[i] == old(p[i])
    {
      var b := PutU32(n);
      p[at] := b[0];
      p[at + 1] := b[1];
      p[at + 2] := b[2];
      p[at + 3] := b[3];
      assert p[at..at + 4] == [p[at], p[at + 1], p[at + 2], p[at + 3]] == b;
    }

    /** readMessageHeader: the next ten bytes as a header, or why there is none. */
    method ReadMessageHeader() returns (h: Header, err: Option<Received>)
      requires Valid()
      modifies this`input, hrbuf
      ensures err.None? <==> |old(input)| >= HEADER_LENGTH
      ensures err.None? ==> h == GetHeader(old(input)[..HEADER_LENGTH]) && input == old(input)[HEADER_LENGTH..]
      ensures err.Some? ==> err.value == (if old(input) == [] then EndOfInput else HeaderCut) && input == []
    {
      var got := ReadFull(hrbuf, HEADER_LENGTH);
      if got < HEADER_LENGTH {
        h := Header(0, 0, 0, 0);
        err := Some(if got == 0 then EndOfInput else HeaderCut);
      } else {
        var bytes := hrbuf[..];
        assert bytes == old(input)[..HEADER_LENGTH];
        var length := GetBigEndian(hrbuf, 0);
        var id := GetBigEndian(hrbuf, 4);
        h := Header(length, id, hrbuf[8], hrbuf[9]);
        assert hrbuf[0..4] == bytes[..4] && hrbuf[4..8] == bytes[4..8];
        err := None;
      }
    }

    /** recv: exactly one step of the byte-level reading, r; an oversized message and the end
        of the input are errors, and a payload is in a buffer of its length, on loan to the
        holder named. */
    method Recv(pool: Pool, pick: nat, ghost holder: Holder)
      returns (h: Header, p: Payload, err: Option<Received>, ghost r: Received)
      requires Valid() && pool.Sound() && Apart(pool)
      modifies this`input, hrbuf, pool, pool.Free()
      ensures Framing.Recv(old(input)) == (r, input)
      ensures pool.Sound() && Apart(pool)
      ensures err == if r.Message? then None else Some(r)
      ensures r.Message? ==> r.h == h && Contents(p) == r.body && |r.body| == h.length
      ensures r.Oversized? ==> r.h == h
      ensures p.None? || pool.loans == old(pool.loans)[p.value.buf := holder]
      ensures p.Some? ==>
                p.value.buf in pool.loans && pool.loans[p.value.buf] == holder && p.value.buf !in old(pool.loans)
      ensures forall b :: b in old(pool.loans) ==>
                b in pool.loans && pool.loans[b] == old(pool.loans[b]) && b[..] == old(b[..])
      ensures fresh(pool.seen - old(pool.seen))
    {
      p := None;
      var e;
      h, e := ReadMessageHeader();
      if e.Some? {
        return h, None, e, e.value;
      }
      if h.length > LENGTH_MAX {
        var skipped := Discard(h.length);
        var bad := if skipped < h.length then DiscardCut(h) else Oversized(h);
        return h, None, Some(bad), bad;
      }
      if h.length == 0 {
        return h, None, None, Message(h, []);
      }
      var b, ok := ReadPayload(h.length, pool, pick, holder);
      if !ok {
        return h, None, Some(PayloadCut), PayloadCut;
      }
      return h, Some(b), None, Message(h, b.buf[..b.len]);
    }

    /** A payload of n bytes, read into a buffer from the pool. */
    method ReadPayload(n: nat, pool: Pool, pick: nat, ghost holder: Holder) returns (b: Slice, ok: bool)
      requires Valid() && pool.Sound() && Apart(pool)
      modifies this`input, pool, pool.Free()
      ensures pool.Sound() && Apart(pool) && InBounds(b) && b.len == n
      ensures ok <==> n <= |old(input)|
      ensures if ok then b.buf[..n] == old(input)[..n] && input == old(input)[n..] else input == []
      ensures b.buf !in old(pool.loans) && pool.loans == old(pool.loans)[b.buf := holder]
      ensures forall c :: c in old(pool.loans) ==> c[..] == old(c[..])
      ensures fresh(pool.seen - old(pool.seen))
    {
      b := pool.Getmbuf(n, pick, holder);
      assert b.buf != hrbuf && b.buf != hwbuf && b.buf !in old(pool.loans);
      assert forall c :: c in old(pool.loans) ==> c !in old(pool.Free());
      var got := ReadFull(b.buf, n);
      ok := got == n;
    }

    /** A write of the buffered connection, which may fail after any part of it. */
    method Write(bytes: Bytes, taken: nat) returns (ok: bool)
      modifies this`output, this`failed
      ensures ok == (!old(failed) && |bytes| <= taken) && (failed <==> !ok)
      ensures output == old(output) + bytes[..Taken(old(failed), taken, |bytes|)]
    {
      if failed {
        return false;
      }
      var n := if taken < |bytes| then taken else |bytes|;
      output := output + bytes[..n];
      ok := n == |bytes|;
      failed := !ok;
    }

    /** writeMessageHeader: the header is laid out in hwbuf and written. */
    method WriteMessageHeader(h: Header, taken: nat) returns (ok: bool)
      requires Valid()
      modifies this`output, this`failed, hwbuf
      ensures ok == (!old(failed) && HEADER_LENGTH <= taken) && (failed <==> !ok)
      ensures output == old(output) + PutHeader(h)[..Taken(old(failed), taken, HEADER_LENGTH)]
    {
      PutBigEndian(hwbuf, 0, h.length);
      PutBigEndian(hwbuf, 4, h.id);
      hwbuf[8] := h.kind;
      hwbuf[9] := h.flags;
      assert hwbuf[..] == hwbuf[0..4] + hwbuf[4..8] + [hwbuf[8], hwbuf[9]];
      ok := Write(hwbuf[..], taken);
    }

    /** send: refuses an oversized payload without writing anything, and otherwise writes
        the bytes of one frame; if a write fails, only a first part of them, and nothing is
        written any more. `taken` is how much the connection still takes. */
    method Send(id: StreamID, kind: byte, flags: byte, p: Bytes, taken: nat) returns (err: Option<SendError>)
      requires Valid()
      modifies this`output, this`failed, hwbuf
      ensures |p| > LENGTH_MAX ==> err == Some(OversizedMessage(|p|)) && output == old(output) && failed == old(failed)
      ensures |p| <= LENGTH_MAX ==>
                var frame := FrameBytes(Raw(Header(|p|, id, kind, flags), p));
                && err == (if old(failed) || taken < |frame| then Some(WriteFailed) else None)
                && failed == err.Some?
                && output == old(output) + frame[..Taken(old(failed), taken, |frame|)]
    {
      if |p| > LENGTH_MAX {
        return Some(OversizedMessage(|p|));
      }
      var h := Header(|p|, id, kind, flags);
      ghost var frame := FrameBytes(Raw(h, p));
      assert frame[..HEADER_LENGTH] == PutHeader(h) && frame[HEADER_LENGTH..] == p;
      var ok := WriteMessageHeader(h, taken);
      if !ok {
        assert taken < HEADER_LENGTH ==> frame[..taken] == PutHeader(h)[..taken];
        return Some(WriteFailed);
      }
      if |p| > 0 {
        var rest: nat := taken - HEADER_LENGTH;
        ok := Write(p, rest);
        var n := if rest < |p| then rest else |p|;
        assert frame[..HEADER_LENGTH + n] == PutHeader(h) + p[..n];
      }
      err := if ok then None else Some(WriteFailed);
    }
  }
}
