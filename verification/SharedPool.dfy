/** The pool is global: connections that share it do not disturb each other's buffers. Each
    method lets one connection handle payloads and shows that the other still holds its own. */
module SharedPool {
  import opened Frames
  import opened StreamQueue
  import opened BufferPool
  import C = ClientObjects
  import S = ServerObjects
  import M = ClientConn

  /** Two connections in one process. */
  ghost predicate Beside(c: C.Client, v: S.ServerConn)
    reads c`made, v`made, c.pool, c.pool.loans.Keys, v.pool, v.pool.loans.Keys, c.channel, v.channel, c.Made(), v.Made()
  {
    && c.pool == v.pool && c.channel != v.channel
    && c.Holding() && v.Holding()
  }

  /** A client reads a message. */
  method ClientReads(c: C.Client, v: S.ServerConn, pick: nat, e: StreamErr)
    requires Beside(c, v) && c.Valid() && c.model.loop.Reading? && M.OfConnection(e)
    modifies c`model, c.channel`input, c.channel.hrbuf, c.pool, c.pool.Free()
    ensures Beside(c, v)
  {
    var msg, err; ghost var f;
    msg, err, f := c.ReadMessage(pick, e);
    v.Undisturbed({c});
  }

  /** A caller of the client receives. */
  method CallerReceives(c: C.Client, cs: C.ClientStream, v: S.ServerConn, cancelled: bool) returns (r: M.Outcome)
    requires Beside(c, v) && c.Valid() && cs.Valid(c)
    requires cs.remoteClosed || cancelled || cs.s.queue != [] || cs.s.recvErr.Some?
    modifies cs`remoteClosed, c`model, c`streams, cs.s`queue, cs.s`recv, cs.s`first, cs.s`recvErr, c.pool
    ensures Beside(c, v)
  {
    r := cs.RecvMsg(c, cancelled);
    v.Undisturbed({cs.s});
  }

  /** The server's receiver reads a frame. */
  method ServerReads(c: C.Client, v: S.ServerConn, pick: nat, eof: bool)
    requires Beside(c, v) && v.Valid() && v.model.rp.Blocked?
    modifies v`model, v.channel`input, v.channel.hrbuf, v.pool, v.pool.Free()
    ensures Beside(c, v)
  {
    var msg, err; ghost var f;
    msg, err, f := v.ReadFrame(pick, eof);
    c.Undisturbed({v});
  }

  /** A handler of the server receives. */
  method HandlerReceives(c: C.Client, v: S.ServerConn, sh: S.StreamHandler, ghost h: nat)
    returns (msg: Option<Bytes>, eof: bool)
    requires Beside(c, v) && v.Valid() && h < |v.made| && v.made[h] == sh && h < |v.model.handlers|
    requires v.model.handlers[h].phase.Working? && (sh.queue != [] || sh.remoteClosed || sh.ctxDone)
    modifies v`model, sh`queue, sh`recv, sh`first, v.pool
    ensures Beside(c, v)
  {
    msg, eof := v.RecvMsg(sh, h);
    c.Undisturbed({sh});
  }
}
