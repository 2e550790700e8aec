/** The global pool of payload buffers (channel.go): slices over arrays that are handed
    out, returned, and handed out again, with the history of what happened to them. */
module BufferPool {
  import opened Frames
  import opened BufferLife

  /** A Go slice that starts at the start of its array: its capacity is the array's length. */
  datatype Slice = Slice(buf: Buffer, len: nat)

  ghost predicate InBounds(s: Slice) {
    s.len <= s.buf.Length
  }

  /** A payload: nil if it is empty. */
  type Payload = p: Option<Slice> | p.Some? ==> p.value.len <= p.value.buf.Length witness None

  ghost function Contents(p: Payload): Bytes
    reads if p.Some? then {p.value.buf} else {}
  {
    if p.Some? then p.value.buf[..p.value.len] else []
  }

  /** Who holds a buffer on loan: a receive loop that has read a message, or the k-th message
      ever queued on a stream or a handler, and then the one who took it from there. */
  datatype Holder = InLoop(q: object) | InQueue(q: object, k: nat)

  /** Whatever is on loan to others than `mine` stays with them. */
  ghost predicate KeptFor(before: map<Buffer, Holder>, now: map<Buffer, Holder>, mine: set<object>) {
    forall b :: b in before && before[b].q !in mine ==> b in now && now[b] == before[b]
  }

  /** sync.Pool: it may hold any of the slices put into it, and may drop them at any time.
      `seen` is every buffer it ever had to do with. */
  class Pool {
    var items: seq<Payload>
    ghost var loans: map<Buffer, Holder>
    ghost var log: seq<Event>
    ghost var seen: set<Buffer>

    /** The history is disciplined, and what is in the pool is on loan to nobody and is in it
        once. */
    ghost predicate Sound()
      reads this
    {
      && Disciplined(log) && loans.Keys == OnLoan(log) && loans.Keys <= seen
      && (forall i :: 0 <= i < |items| && items[i].Some? ==>
            items[i].value.buf !in loans && items[i].value.buf in seen)
      && (forall i, j :: 0 <= i < j < |items| && items[i].Some? && items[j].Some? ==>
            items[i].value.buf != items[j].value.buf)
    }

    /** Everything a recv may write to, apart from new buffers. */
    ghost function Free(): set<Buffer>
      reads this
    {
      set i | 0 <= i < |items| && items[i].Some? :: items[i].value.buf
    }

    constructor ()
      ensures Sound() && items == [] && log == [] && loans == map[] && seen == {}
    {
      items := [];
      loans := map[];
      log := [];
      seen := {};
    }

    /** Get: some slice of the pool, removed from it, or none (`pick` out of range). */
    method Get(pick: nat) returns (s: Option<Payload>)
      modifies this`items
      ensures s.None? ==> items == old(items)
      ensures s.Some? ==>
                && pick < |old(items)| && s.value == old(items)[pick]
                && items == old(items)[..pick] + old(items)[pick + 1..]
      ensures Free() <= old(Free())
      ensures s.Some? && s.value.Some? ==> s.value.value.buf in old(Free())
      ensures old(Sound()) ==> Sound()
      ensures old(Sound()) && s.Some? && s.value.Some? ==>
                s.value.value.buf !in Free() && s.value.value.buf !in loans && s.value.value.buf in seen
    {
      if pick < |items| {
        s := Some(items[pick]);
        items := items[..pick] + items[pick + 1..];
      } else {
        s := None;
      }
    }

    /** getmbuf: a slice of exactly the length asked for, over a new array or one the pool
        had and has no longer. A pooled slice that is too small is lost. */
    method Getmbuf(size: nat, pick: nat, ghost holder: Holder) returns (s: Slice)
      modifies this
      ensures s.len == size && InBounds(s)
      ensures fresh(s.buf) || s.buf in old(Free())
      ensures Free() <= old(Free())
      ensures log == old(log) + [Out(s.buf)] && loans == old(loans)[s.buf := holder]
      ensures old(Sound()) ==> Sound() && s.buf !in old(loans)
      ensures seen == old(seen) + {s.buf} && (old(Sound()) && s.buf !in old(seen) ==> fresh(s.buf))
    {
      var b := Get(pick);
      if b.None? || b.value.None? || b.value.value.buf.Length < size {
        var bb := new byte[size](_ => 0);
        s := Slice(bb, size);
      } else {
        s := Slice(b.value.value.buf, size);
      }
      Lend(s.buf, holder);
    }

    /** A buffer leaves for a holder. */
    ghost method Lend(b: Buffer, holder: Holder)
      modifies this`log, this`loans, this`seen
      ensures log == old(log) + [Out(b)] && loans == old(loans)[b := holder] && seen == old(seen) + {b}
      ensures old(Sound()) && b !in Free() && b !in old(loans) ==> Sound()
    {
      LogSnoc(log, Out(b));
      forall i | 0 <= i < |items| && items[i].Some? && b !in Free() ensures items[i].value.buf != b {
        assert items[i].value.buf in Free();
      }
      log := log + [Out(b)];
      loans := loans[b := holder];
      seen := seen + {b};
    }

    /** Reading a payload, as unmarshalling does: it keeps the history disciplined exactly if
        the buffer is on loan. */
    method Load(p: Payload) returns (bytes: Bytes)
      modifies this`log
      ensures bytes == Contents(p)
      ensures log == if p.Some? then old(log) + [Read(p.value.buf)] else old(log)
      ensures old(Sound()) ==> (Sound() <==> (p.Some? ==> p.value.buf in loans))
    {
      bytes := [];
      if p.Some? {
        bytes := p.value.buf[..p.value.len];
        LogSnoc(log, Read(p.value.buf));
        log := log + [Read(p.value.buf)];
      }
    }

    /** putmbuf: the slice joins the pool, nil ones too. That keeps the pool sound exactly if
        the buffer is on loan: a buffer returned twice makes it unsound for good. */
    method Putmbuf(p: Payload)
      modifies this
      ensures items == old(items) + [p]
      ensures log == if p.Some? then old(log) + [Back(p.value.buf)] else old(log)
      ensures loans == if p.Some? then old(loans) - {p.value.buf} else old(loans)
      ensures old(Sound()) ==> (Sound() <==> (p.Some? ==> p.value.buf in old(loans)))
      ensures seen == if p.Some? then old(seen) + {p.value.buf} else old(seen)
    {
      items := items + [p];
      if p.Some? {
        LogSnoc(log, Back(p.value.buf));
        log := log + [Back(p.value.buf)];
        loans := loans - {p.value.buf};
        seen := seen + {p.value.buf};
      }
    }

    /** A buffer on loan passes from one holder to another. */
    ghost method Pass(b: Buffer, holder: Holder)
      requires b in loans
      modifies this`loans
      ensures loans == old(loans)[b := holder] && (old(Sound()) ==> Sound())
    {
      loans := loans[b := holder];
    }
  }
}
