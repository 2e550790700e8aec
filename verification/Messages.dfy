/** Messages as recv returns them: a header, and a payload in a buffer on loan. */
module Messages {
  import opened Frames
  import opened Framing
  import opened BufferPool
  import opened WireCodec

  datatype Msg = Msg(h: Header, payload: Payload)

  /** The payload's buffer, if it has one, is on loan to the holder. */
  ghost predicate Lent(pool: Pool, p: Payload, holder: Holder)
    reads pool`loans
  {
    p.Some? ==> p.value.buf in pool.loans && pool.loans[p.value.buf] == holder
  }

  /** The holder has the payload, and the message still reads as frame f. */
  ghost predicate Carries(pool: Pool, codec: Codec, msg: Msg, f: Frame, holder: Holder)
    reads pool`loans, if msg.payload.Some? then {msg.payload.value.buf} else {}
  {
    && Lent(pool, msg.payload, holder)
    && |Contents(msg.payload)| == msg.h.length
    && Decode(codec, Message(msg.h, Contents(msg.payload))) == f
  }

  /** What a frame's header says of it. */
  lemma {:induction false} HeaderTells(codec: Codec, h: Header, body: Bytes)
    ensures var f := Decode(codec, Message(h, body));
            && f.id == h.id && !f.TooLong?
            && (f.OpensStream() <==> h.kind == REQUEST)
            && (f.DataFrame? <==> h.kind == DATA)
            && (f.DataFrame? ==> f.flags == FlagsOf(h.flags) && f.data == body)
            && (h.kind == REQUEST ==>
                  match codec.getRequest(body)
                  case Some(req) => f.RequestFrame? && f.req == req
                  case None => f.BadRequestFrame?)
            && (f.ResponseFrame? <==> h.kind == RESPONSE && codec.getResponse(body).Some?)
            && (f.ResponseFrame? ==> codec.getResponse(body) == Some((f.status, f.data)))
  {
  }
}
