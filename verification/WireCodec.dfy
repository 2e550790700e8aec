/** From protocol frames to bytes and back: what the connections' step relation treats as
    one frame is what send writes and recv reads. Protobuf encoding is any marshalling
    whose unmarshalling gives the message back. */
module WireCodec {
  import opened Frames
  import opened Framing

  const REQUEST: byte := 1
  const RESPONSE: byte := 2
  const DATA: byte := 3

  const REMOTE_CLOSED: byte := 1
  const REMOTE_OPEN: byte := 2
  const NO_DATA: byte := 4

  datatype Codec = Codec(
    putRequest: Request -> Bytes, getRequest: Bytes -> Option<Request>,
    putResponse: (Status, Bytes) -> Bytes, getResponse: Bytes -> Option<(Status, Bytes)>)

  ghost predicate Lawful(m: Codec) {
    && (forall r :: m.getRequest(m.putRequest(r)) == Some(r))
    && (forall st, d :: m.getResponse(m.putResponse(st, d)) == Some((st, d)))
  }

  function FlagByte(f: Flags): byte {
    (if f.remoteClosed then REMOTE_CLOSED else 0)
    + (if f.remoteOpen then REMOTE_OPEN else 0)
    + (if f.noData then NO_DATA else 0)
  }

  function FlagsOf(b: byte): Flags {
    Flags(b % 2 == 1, (b / 2) % 2 == 1, (b / 4) % 2 == 1)
  }

  lemma {:induction false} FlagsRoundTrip(f: Flags)
    ensures FlagsOf(FlagByte(f)) == f
  {
  }

  /** Frames a peer can put on the wire with send. */
  predicate Sendable(f: Frame) {
    f.RequestFrame? || f.ResponseFrame? || f.DataFrame?
  }

  function Body(m: Codec, f: Frame): Bytes
    requires Sendable(f)
  {
    match f
    case RequestFrame(_, _, req) => m.putRequest(req)
    case ResponseFrame(_, status, data) => m.putResponse(status, data)
    case DataFrame(_, _, data) => data
  }

  predicate Fits(m: Codec, f: Frame) {
    Sendable(f) && |Body(m, f)| <= LENGTH_MAX
  }

  /** The arguments of send for a frame, as the frame they write. */
  function Encode(m: Codec, f: Frame): Raw
    requires Fits(m, f)
  {
    var body := Body(m, f);
    var kind := if f.RequestFrame? then REQUEST else if f.ResponseFrame? then RESPONSE else DATA;
    var flags := if f.ResponseFrame? then 0 else FlagByte(f.flags);
    Raw(Header(|body|, f.id, kind, flags), body)
  }

  /** What a reader makes of one recv that does not end the connection. */
  function Decode(m: Codec, r: Received): Frame
    requires !Terminal(r)
  {
    var h := r.h;
    if r.Oversized? then TooLong(h.id)
    else if h.kind == REQUEST then
      match m.getRequest(r.body)
      case Some(req) => RequestFrame(h.id, FlagsOf(h.flags), req)
      case None => BadRequestFrame(h.id)
    else if h.kind == RESPONSE then
      match m.getResponse(r.body)
      case Some((status, data)) => ResponseFrame(h.id, status, data)
      case None => OtherFrame(h.id)
    else if h.kind == DATA then DataFrame(h.id, FlagsOf(h.flags), r.body)
    else OtherFrame(h.id)
  }

  lemma {:induction false} CodecRoundTrip(m: Codec, f: Frame)
    requires Lawful(m) && Fits(m, f)
    ensures WellSized(Encode(m, f)) && !Terminal(Report(Encode(m, f)))
    ensures Decode(m, Report(Encode(m, f))) == f
  {
    if !f.ResponseFrame? {
      FlagsRoundTrip(f.flags);
    }
  }

  /** A frame on the wire, byte by byte: the length of the body and the stream's id, the number
      of its kind, its flags as bits, and the body. */
  lemma {:induction false} WireLayout(m: Codec, f: Frame)
    requires Sendable(f) && |Body(m, f)| <= 4194304
    ensures var b, body := FrameBytes(Encode(m, f)), Body(m, f);
            && |b| == 10 + |body| && b[10..] == body
            && |body| == b[0] as int * 16777216 + b[1] as int * 65536 + b[2] as int * 256 + b[3]
            && f.id == b[4] as int * 16777216 + b[5] as int * 65536 + b[6] as int * 256 + b[7]
            && b[8] == (if f.RequestFrame? then 1 else if f.ResponseFrame? then 2 else 3)
            && b[9] < 8 && (f.ResponseFrame? ==> b[9] == 0)
            && (!f.ResponseFrame? ==>
                  && (b[9] % 2 == 1 <==> f.flags.remoteClosed)
                  && (b[9] / 2 % 2 == 1 <==> f.flags.remoteOpen)
                  && (b[9] / 4 % 2 == 1 <==> f.flags.noData))
  {
    var raw := Encode(m, f);
    HeaderLayout(raw.h);
    assert FrameBytes(raw)[..10] == PutHeader(raw.h);
  }

  ghost function EncodeAll(m: Codec, fs: seq<Frame>): seq<Raw>
    requires forall i :: 0 <= i < |fs| ==> Fits(m, fs[i])
  {
    seq(|fs|, i requires 0 <= i < |fs| => Encode(m, fs[i]))
  }

  lemma {:induction false} ReportsAt(fs: seq<Raw>)
    ensures |Reports(fs)| == |fs|
    ensures forall i :: 0 <= i < |fs| ==> Reports(fs)[i] == Report(fs[i])
  {
    if fs != [] {
      ReportsAt(fs[1..]);
    }
  }

  /** The wire of the protocol model, refined: send any frames, one after another, and
      repeated recv gives back those frames and then the end of the input. */
  lemma {:induction false} WireIsFaithful(m: Codec, fs: seq<Frame>)
    requires Lawful(m) && forall i :: 0 <= i < |fs| ==> Fits(m, fs[i])
    ensures var got := RecvAll(Stream(EncodeAll(m, fs)));
            && |got| == |fs| + 1 && got[|fs|] == EndOfInput
            && forall i :: 0 <= i < |fs| ==> !Terminal(got[i]) && Decode(m, got[i]) == fs[i]
  {
    var raws := EncodeAll(m, fs);
    forall i | 0 <= i < |fs|
      ensures WellSized(raws[i]) && !Terminal(Report(raws[i])) && Decode(m, Report(raws[i])) == fs[i]
    {
      CodecRoundTrip(m, fs[i]);
    }
    Resynchronises(raws);
    ReportsAt(raws);
  }

  /** A connection that fails part of the way: what was delivered is read as the first of
      the frames sent, and then reading ends for good. */
  lemma {:induction false} CutIsFaithful(m: Codec, fs: seq<Frame>, cut: Bytes)
    requires Lawful(m) && forall i :: 0 <= i < |fs| ==> Fits(m, fs[i])
    requires cut <= Stream(EncodeAll(m, fs)) && |cut| < |Stream(EncodeAll(m, fs))|
    ensures var got, k := RecvAll(cut), Whole(EncodeAll(m, fs), |cut|);
            && |got| == k + 1 && k <= |fs| && Terminal(got[k])
            && forall i :: 0 <= i < k ==> !Terminal(got[i]) && Decode(m, got[i]) == fs[i]
  {
    var raws := EncodeAll(m, fs);
    forall i | 0 <= i < |fs|
      ensures WellSized(raws[i]) && !Terminal(Report(raws[i])) && Decode(m, Report(raws[i])) == fs[i]
    {
      CodecRoundTrip(m, fs[i]);
    }
    Truncated(raws, cut);
    var k := Whole(raws, |cut|);
    ReportsAt(raws[..k]);
    forall i | 0 <= i < k ensures RecvAll(cut)[i] == Report(raws[i]) {
      assert RecvAll(cut)[..k][i] == Reports(raws[..k])[i];
    }
  }
}
