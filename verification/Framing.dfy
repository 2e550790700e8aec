/** The wire format (channel.go, and "Message Frame" in PROTOCOL.md): a ten-byte
    big-endian header and a payload, read back one message at a time. */
module Framing {
  import opened Frames

  const HEADER_LENGTH := 10

  datatype Header = Header(length: StreamID, id: StreamID, kind: byte, flags: byte)

  /** A frame as bytes lie on the wire. */
  datatype Raw = Raw(h: Header, body: Bytes)

  predicate WellSized(f: Raw) {
    |f.body| == f.h.length
  }

  /** What one recv gives: a message, the status error for an oversized one, or an error
      that ends the connection: io.EOF itself, a header cut short, or a wrapped error from
      reading or discarding a payload. */
  datatype Received =
    | Message(h: Header, body: Bytes)
    | Oversized(h: Header)
    | EndOfInput
    | HeaderCut
    | PayloadCut
    | DiscardCut(h: Header)

  predicate Terminal(r: Received) {
    r.EndOfInput? || r.HeaderCut? || r.PayloadCut? || r.DiscardCut?
  }

  function PutU32(n: StreamID): (b: Bytes)
    ensures |b| == 4
  {
    [n / 0x100_0000, (n / 0x1_0000) % 0x100, (n / 0x100) % 0x100, n % 0x100]
  }

  function GetU32(b: Bytes): StreamID
    requires |b| == 4
  {
    var b3: int, b2: int, b1: int, b0: int := b[0], b[1], b[2], b[3];
    b3 * 0x100_0000 + b2 * 0x1_0000 + b1 * 0x100 + b0
  }

  lemma {:induction false} U32RoundTrip(n: StreamID)
    ensures GetU32(PutU32(n)) == n
  {
    var a, b, c := n / 0x100, n / 0x1_0000, n / 0x100_0000;
    assert n == 0x100 * a + n % 0x100;
    assert a / 0x100 == b && a == 0x100 * b + a % 0x100;
    assert b / 0x100 == c && b == 0x100 * c + b % 0x100;
  }

  function PutHeader(h: Header): (b: Bytes)
    ensures |b| == HEADER_LENGTH
  {
    PutU32(h.length) + PutU32(h.id) + [h.kind, h.flags]
  }

  function GetHeader(b: Bytes): Header
    requires |b| == HEADER_LENGTH
  {
    Header(GetU32(b[..4]), GetU32(b[4..8]), b[8], b[9])
  }

  lemma {:induction false} HeaderRoundTrip(h: Header)
    ensures GetHeader(PutHeader(h)) == h
  {
    var b := PutHeader(h);
    assert b[..4] == PutU32(h.length);
    assert b[4..8] == PutU32(h.id);
    U32RoundTrip(h.length);
    U32RoundTrip(h.id);
  }

  /** The header on the wire: two numbers of four bytes, the highest first, and two bytes. */
  lemma {:induction false} HeaderLayout(h: Header)
    ensures var b := PutHeader(h);
            && |b| == 10
            && h.length == b[0] as int * 16777216 + b[1] as int * 65536 + b[2] as int * 256 + b[3]
            && h.id == b[4] as int * 16777216 + b[5] as int * 65536 + b[6] as int * 256 + b[7]
            && h.kind == b[8] && h.flags == b[9]
  {
    U32RoundTrip(h.length);
    U32RoundTrip(h.id);
  }

  /** One recv on the bytes the connection has left to deliver before its end. */
  function Recv(input: Bytes): (Received, Bytes) {
    if input == [] then (EndOfInput, [])
    else if |input| < HEADER_LENGTH then (HeaderCut, [])
    else
      var h := GetHeader(input[..HEADER_LENGTH]);
      var rest := input[HEADER_LENGTH..];
      if h.length > LENGTH_MAX then
        if |rest| < h.length then (DiscardCut(h), []) else (Oversized(h), rest[h.length..])
      else if |rest| < h.length then (PayloadCut, [])
      else (Message(h, rest[..h.length]), rest[h.length..])
  }

  lemma {:induction false} RecvProgress(input: Bytes)
    ensures !Terminal(Recv(input).0) ==> |Recv(input).1| < |input|
  {
  }

  /** Repeated recv, up to and including the error that ends it. */
  ghost function RecvAll(input: Bytes): seq<Received>
    decreases |input|
  {
    var (r, rest) := Recv(input);
    if Terminal(r) then [r]
    else
      RecvProgress(input);
      [r] + RecvAll(rest)
  }

  /** What recv should report for a frame. */
  function Report(f: Raw): Received {
    if f.h.length > LENGTH_MAX then Oversized(f.h) else Message(f.h, f.body)
  }

  function FrameBytes(f: Raw): Bytes {
    PutHeader(f.h) + f.body
  }

  ghost function Stream(fs: seq<Raw>): Bytes {
    if fs == [] then [] else FrameBytes(fs[0]) + Stream(fs[1..])
  }

  ghost function Reports(fs: seq<Raw>): seq<Received> {
    if fs == [] then [] else [Report(fs[0])] + Reports(fs[1..])
  }

  /** One recv takes exactly one frame, whatever follows it. */
  lemma {:induction false} RecvOne(f: Raw, tail: Bytes)
    requires WellSized(f)
    ensures Recv(FrameBytes(f) + tail) == (Report(f), tail)
  {
    var input := FrameBytes(f) + tail;
    assert input[..HEADER_LENGTH] == PutHeader(f.h);
    HeaderRoundTrip(f.h);
    var rest := input[HEADER_LENGTH..];
    assert rest == f.body + tail;
    assert rest[..f.h.length] == f.body && rest[f.h.length..] == tail;
  }

  /** A message is delivered exactly if its payload has at most four megabytes. */
  lemma {:induction false} SizeLimit(f: Raw, tail: Bytes)
    requires WellSized(f)
    ensures Recv(FrameBytes(f) + tail).0 == if |f.body| <= 4 * 1024 * 1024 then Message(f.h, f.body) else Oversized(f.h)
  {
    RecvOne(f, tail);
  }

  /** Part of one frame ends the connection, with io.EOF exactly when there is none of it. */
  lemma {:induction false} RecvPart(f: Raw, cut: Bytes)
    requires WellSized(f) && cut <= FrameBytes(f) && |cut| < |FrameBytes(f)|
    ensures Terminal(Recv(cut).0) && (Recv(cut).0.EndOfInput? <==> cut == [])
  {
    if |cut| >= HEADER_LENGTH {
      assert cut[..HEADER_LENGTH] == PutHeader(f.h);
      HeaderRoundTrip(f.h);
    }
  }

  lemma {:induction false} RecvAllOne(f: Raw, tail: Bytes)
    requires WellSized(f)
    ensures RecvAll(FrameBytes(f) + tail) == [Report(f)] + RecvAll(tail)
  {
    RecvOne(f, tail);
  }

  /** Framing with resynchronisation: for frames of any length a header can announce,
      repeated recv reports each frame in order, the oversized ones with their own header,
      and then the end of the input. */
  lemma {:induction false} Resynchronises(fs: seq<Raw>)
    requires forall i :: 0 <= i < |fs| ==> WellSized(fs[i])
    ensures RecvAll(Stream(fs)) == Reports(fs) + [EndOfInput]
  {
    if fs != [] {
      Resynchronises(fs[1..]);
      RecvAllOne(fs[0], Stream(fs[1..]));
    }
  }

  /** The number of whole frames in the first `n` bytes of a stream. */
  ghost function Whole(fs: seq<Raw>, n: nat): (k: nat)
    ensures k <= |fs|
  {
    if fs == [] || n < |FrameBytes(fs[0])| then 0 else 1 + Whole(fs[1..], n - |FrameBytes(fs[0])|)
  }

  lemma {:induction false} Ahead(r: Received, rs: seq<Received>, k: nat)
    requires k < |rs|
    ensures ([r] + rs)[..k + 1] == [r] + rs[..k] && ([r] + rs)[k + 1] == rs[k]
  {
  }

  lemma {:induction false} FrontCons(fs: seq<Raw>, k: nat)
    requires k < |fs|
    ensures Reports(fs[..k + 1]) == [Report(fs[0])] + Reports(fs[1..][..k])
    ensures Stream(fs[..k + 1]) == FrameBytes(fs[0]) + Stream(fs[1..][..k])
  {
    assert fs[..k + 1][0] == fs[0] && fs[..k + 1][1..] == fs[1..][..k];
  }

  lemma {:induction false} CutAfter(first: Bytes, tail: Bytes, cut: Bytes)
    requires cut <= first + tail && |cut| >= |first|
    ensures cut == first + cut[|first|..] && cut[|first|..] <= tail
  {
  }

  /** What recv makes of the first n bytes of a stream. */
  ghost predicate CutRight(fs: seq<Raw>, cut: Bytes) {
    var k := Whole(fs, |cut|);
    && |RecvAll(cut)| == k + 1
    && RecvAll(cut)[..k] == Reports(fs[..k])
    && Terminal(RecvAll(cut)[k])
    && (RecvAll(cut)[k].EndOfInput? <==> |cut| == |Stream(fs[..k])|)
  }

  lemma {:induction false} CutInFirst(fs: seq<Raw>, cut: Bytes)
    requires fs != [] && WellSized(fs[0]) && cut <= Stream(fs) && |cut| < |FrameBytes(fs[0])|
    ensures CutRight(fs, cut)
  {
    assert cut <= FrameBytes(fs[0]);
    RecvPart(fs[0], cut);
    assert fs[..0] == [];
  }

  lemma {:induction false} CutLater(fs: seq<Raw>, rest: Bytes)
    requires fs != [] && WellSized(fs[0]) && CutRight(fs[1..], rest)
    ensures CutRight(fs, FrameBytes(fs[0]) + rest)
  {
    var k := Whole(fs[1..], |rest|);
    RecvAllOne(fs[0], rest);
    Ahead(Report(fs[0]), RecvAll(rest), k);
    FrontCons(fs, k);
  }

  /** Truncation: on any proper prefix of a stream, recv returns the whole frames it holds
      and then one terminal error, which is io.EOF exactly when the cut is on a boundary. */
  lemma {:induction false} Truncated(fs: seq<Raw>, cut: Bytes)
    requires forall i :: 0 <= i < |fs| ==> WellSized(fs[i])
    requires cut <= Stream(fs) && |cut| < |Stream(fs)|
    ensures var k := Whole(fs, |cut|);
            && |RecvAll(cut)| == k + 1
            && RecvAll(cut)[..k] == Reports(fs[..k])
            && Terminal(RecvAll(cut)[k])
            && (RecvAll(cut)[k].EndOfInput? <==> |cut| == |Stream(fs[..k])|)
  {
    var first := FrameBytes(fs[0]);
    if |cut| < |first| {
      CutInFirst(fs, cut);
    } else {
      CutAfter(first, Stream(fs[1..]), cut);
      Truncated(fs[1..], cut[|first|..]);
      CutLater(fs, cut[|first|..]);
    }
  }

  /** Those are the frames that lie wholly in the prefix, and no more. */
  lemma {:induction false} WholeFits(fs: seq<Raw>, cut: Bytes)
    requires cut <= Stream(fs)
    ensures var k := Whole(fs, |cut|);
            && Stream(fs[..k]) <= cut
            && (k < |fs| ==> |cut| < |Stream(fs[..k])| + |FrameBytes(fs[k])|)
  {
    if fs != [] && |cut| >= |FrameBytes(fs[0])| {
      var first := FrameBytes(fs[0]);
      var rest := cut[|first|..];
      assert cut == first + rest;
      assert rest <= Stream(fs[1..]);
      WholeFits(fs[1..], rest);
      var k := Whole(fs[1..], |rest|);
      assert fs[..k + 1][1..] == fs[1..][..k];
    }
  }
}
