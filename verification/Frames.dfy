/** The vocabulary of the protocol: stream identifiers, statuses and message frames.

    A frame here is what the receiving side sees after decoding: the protobuf
    bodies of requests and responses appear as values, and a frame whose length
    field is over the limit appears as `TooLong`, because its payload is discarded. */
module Frames {
  datatype Option<+T> = None | Some(value: T) {
    function GetOr(default: T): T {
      match this
      case Some(v) => v
      case None => default
    }
  }

  /** Stream identifiers are 32-bit unsigned integers and wrap around. */
  const ID_SPACE: int := 0x1_0000_0000

  /** Number of odd identifiers: allocation number HALF_SPACE is the first one to reuse an id. */
  const HALF_SPACE: int := 0x8000_0000

  type StreamID = x: int | 0 <= x < ID_SPACE

  type byte = x: int | 0 <= x < 256

  type Bytes = seq<byte>

  /** The largest payload of a message. */
  const LENGTH_MAX := 4194304 // 4 << 20

  /** Why a server turns a frame down (the statuses passed to sendStatus). */
  datatype Reason =
    | MustBeOdd | NotActive | DataError | CloseWithData
    | MustIncrement | BadBody | Unimplemented | StartError | OverLimit

  datatype Status = OK | Rejected(reason: Reason) | Failed(code: nat)

  datatype Request = Request(service: string, procedure: string, payload: Bytes)

  datatype Flags = Flags(remoteClosed: bool, remoteOpen: bool, noData: bool)

  const NO_FLAGS := Flags(false, false, false)

  datatype Frame =
    | RequestFrame(id: StreamID, flags: Flags, req: Request)
    | BadRequestFrame(id: StreamID)
    | ResponseFrame(id: StreamID, status: Status, data: Bytes)
    | DataFrame(id: StreamID, flags: Flags, data: Bytes)
    | OtherFrame(id: StreamID)
    | TooLong(id: StreamID)
  {
    predicate OpensStream() {
      RequestFrame? || BadRequestFrame?
    }
  }

  /** The frames of `fs` that carry stream id `id`, in order. */
  ghost function OnId(fs: seq<Frame>, id: StreamID): seq<Frame> {
    if fs == [] then []
    else
      var front := OnId(fs[..|fs| - 1], id);
      if fs[|fs| - 1].id == id then front + [fs[|fs| - 1]] else front
  }

  lemma OnIdSnoc(fs: seq<Frame>, f: Frame, id: StreamID)
    ensures OnId(fs + [f], id) == OnId(fs, id) + (if f.id == id then [f] else [])
  {
    assert (fs + [f])[..|fs|] == fs;
  }

  lemma {:induction false} OnIdConcat(a: seq<Frame>, b: seq<Frame>, id: StreamID)
    ensures OnId(a + b, id) == OnId(a, id) + OnId(b, id)
  {
    if b == [] {
      assert a + b == a;
    } else {
      var b' := b[..|b| - 1];
      OnIdConcat(a, b', id);
      assert a + b == (a + b') + [b[|b| - 1]];
      assert b == b' + [b[|b| - 1]];
      OnIdSnoc(a + b', b[|b| - 1], id);
      OnIdSnoc(b', b[|b| - 1], id);
    }
  }

  /** Taking a prefix of a wire takes a prefix of every stream on it. */
  lemma OnIdPrefix(a: seq<Frame>, b: seq<Frame>, id: StreamID)
    requires a <= b
    ensures OnId(a, id) <= OnId(b, id)
  {
    OnIdConcat(a, b[|a|..], id);
    assert b == a + b[|a|..];
  }

  lemma {:induction false} OnIdMembers(fs: seq<Frame>, id: StreamID)
    ensures forall f :: f in OnId(fs, id) <==> f in fs && f.id == id
  {
    if fs != [] {
      OnIdMembers(fs[..|fs| - 1], id);
      assert fs == fs[..|fs| - 1] + [fs[|fs| - 1]];
    }
  }
}
