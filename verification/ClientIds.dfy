/** What the client puts on the wire: ids, frame language and the registration map. */
module ClientIds {
  import opened Frames
  import opened StreamQueue
  import opened ClientConn

  lemma {:induction false} IdIsOdd(n: nat)
    ensures IdOf(n) % 2 == 1
  {
    if n > 0 {
      IdIsOdd(n - 1);
    }
  }

  lemma {:induction false} IdBeforeWrap(n: nat)
    requires n < HALF_SPACE
    ensures IdOf(n) == 2 * n + 1
  {
    if n > 0 {
      IdBeforeWrap(n - 1);
    }
  }

  /** The frames stream n has written, in order. */
  ghost function Of(out: seq<Sent>, n: nat): seq<Frame> {
    if out == [] then []
    else
      var last := out[|out| - 1];
      var front := Of(out[..|out| - 1], n);
      if last.n == n then front + [last.frame] else front
  }

  lemma {:induction false} OfSnoc(out: seq<Sent>, x: Sent, n: nat)
    ensures Of(out + [x], n) == Of(out, n) + (if x.n == n then [x.frame] else [])
  {
    assert (out + [x])[..|out|] == out;
  }

  /** The frames written by all streams, in wire order. */
  ghost function Wire(out: seq<Sent>): seq<Frame> {
    seq(|out|, i requires 0 <= i < |out| => out[i].frame)
  }

  ghost function DataFrames(id: StreamID, sent: seq<Bytes>): seq<Frame> {
    seq(|sent|, i requires 0 <= i < |sent| => DataFrame(id, NO_FLAGS, sent[i]))
  }

  /** The frame language of one stream: nothing before its request; then the request,
      the messages, and at most one closing frame, after which nothing follows. */
  ghost function Spoken(o: Obj): seq<Frame> {
    if o.phase.Opening? || o.phase.TurnedAway? then []
    else
      [RequestFrame(o.st.id, RequestFlags(o.desc), o.req)]
      + DataFrames(o.st.id, o.sent)
      + (if o.localClosed then [DataFrame(o.st.id, CLOSE_FLAGS, [])] else [])
  }

  ghost predicate Numbered(c: Client) {
    && c.nextID == IdOf(|c.objs|)
    && (forall n :: 0 <= n < |c.objs| ==> c.objs[n].st.id == IdOf(n))
    && (forall n :: 0 <= n < |c.objs| ==> c.objs[n].st.cap == BufferFor(c.objs[n].desc))
  }

  ghost predicate Mapped(c: Client) {
    forall id :: id in c.streams ==> c.streams[id] < |c.objs| && IdOf(c.streams[id]) == id
  }

  ghost predicate LockRight(c: Client) {
    && (c.lock.Allocated? ==> c.lock.n == |c.objs| - 1)
    && (forall n :: 0 <= n < |c.objs| ==> (c.objs[n].phase.Opening? <==> c.lock == Allocated(n)))
  }

  ghost predicate InLanguage(c: Client) {
    && (forall i :: 0 <= i < |c.out| ==> c.out[i].n < |c.objs|)
    && (forall n :: 0 <= n < |c.objs| ==> Of(c.out, n) == Spoken(c.objs[n]))
    && (forall n :: 0 <= n < |c.objs| ==> MayHaveSent(c.objs[n]))
  }

  /** Only an opened stream with a client side has sent messages or closed its side. */
  predicate MayHaveSent(o: Obj) {
    !Opened(o) || !HasClientSide(o.desc) ==> o.sent == [] && !o.localClosed
  }

  predicate HasClientSide(desc: Desc) {
    desc.Streaming? && desc.client
  }

  /** Frames on the wire carry their stream's id, and requests go out in allocation order. */
  ghost predicate Ordered(c: Client) {
    && (forall i :: 0 <= i < |c.out| ==> c.out[i].frame.id == IdOf(c.out[i].n))
    && (forall i :: 0 <= i < |c.out| ==> c.out[i].frame.RequestFrame? || c.out[i].frame.DataFrame?)
    && (forall i, j :: 0 <= i < j < |c.out| && c.out[i].frame.RequestFrame? && c.out[j].frame.RequestFrame?
          ==> c.out[i].n < c.out[j].n)
  }

  ghost predicate WireInv(c: Client) {
    Numbered(c) && Mapped(c) && LockRight(c) && InLanguage(c) && Ordered(c)
  }

  /** Two states of one stream object that the wire cannot tell apart. */
  predicate SameVoice(o: Obj, o': Obj) {
    && o.st.id == o'.st.id && o.st.cap == o'.st.cap && o.desc == o'.desc && o.req == o'.req
    && o.sent == o'.sent && o.localClosed == o'.localClosed
    && (o.phase.Opening? <==> o'.phase.Opening?) && (o.phase.TurnedAway? <==> o'.phase.TurnedAway?)
  }

  /** A step that allocates nothing, writes nothing and registers nothing. */
  ghost predicate Quiet(c: Client, c': Client) {
    && |c.objs| == |c'.objs|
    && (forall n :: 0 <= n < |c.objs| ==> SameVoice(c.objs[n], c'.objs[n]))
    && c.nextID == c'.nextID && c.out == c'.out
    && (c.lock.Allocated? || c'.lock.Allocated? ==> c.lock == c'.lock)
    && (forall id :: id in c'.streams ==> id in c.streams && c'.streams[id] == c.streams[id])
  }

  lemma {:induction false} QuietKeeps(c: Client, c': Client)
    requires WireInv(c) && Quiet(c, c')
    ensures WireInv(c')
  {
    QuietLanguage(c, c');
    QuietLock(c, c');
  }

  lemma {:induction false} QuietLanguage(c: Client, c': Client)
    requires InLanguage(c) && Numbered(c) && Quiet(c, c')
    ensures InLanguage(c') && Numbered(c')
  {
    forall n: nat | n < |c'.objs|
      ensures Of(c'.out, n) == Spoken(c'.objs[n]) && MayHaveSent(c'.objs[n])
      ensures c'.objs[n].st.id == IdOf(n) && c'.objs[n].st.cap == BufferFor(c'.objs[n].desc)
    {
      assert SameVoice(c.objs[n], c'.objs[n]);
    }
  }

  lemma {:induction false} QuietLock(c: Client, c': Client)
    requires LockRight(c) && Quiet(c, c')
    ensures LockRight(c')
  {
    forall n: nat | n < |c'.objs| ensures c'.objs[n].phase.Opening? <==> c'.lock == Allocated(n) {
      assert SameVoice(c.objs[n], c'.objs[n]);
    }
  }

  lemma {:induction false} CallIsQuiet(o: Obj, a: CallAct)
    requires a.Take? ==> o.st.queue != []
    requires a.TakeErr? ==> o.st.closed.Some?
    requires !a.SendMsg? && !a.CloseSend? && Opened(o)
    ensures SameVoice(o, CallNext(o, a)) && CallWrites(o, a).None?
  {
  }

  lemma {:induction false} DeliverIsQuiet(o: Obj, f: Frame, a: DeliverAct)
    requires a.Push? ==> |o.st.queue| < o.st.cap
    ensures SameVoice(o, DeliverNext(o, f, a))
  {
  }

  lemma {:induction false} OfUnknown(out: seq<Sent>, n: nat)
    requires forall i :: 0 <= i < |out| ==> out[i].n != n
    ensures Of(out, n) == []
  {
    if out != [] {
      OfUnknown(out[..|out| - 1], n);
    }
  }

  lemma {:induction false} OfNonEmpty(out: seq<Sent>, n: nat, i: nat)
    requires i < |out| && out[i].n == n
    ensures Of(out, n) != []
  {
    if i < |out| - 1 {
      OfNonEmpty(out[..|out| - 1], n, i);
    }
  }

  lemma {:induction false} AllocKeepsLanguage(c: Client, o: Obj)
    requires InLanguage(c) && Spoken(o) == [] && MayHaveSent(o)
    ensures InLanguage(c.(objs := c.objs + [o]))
  {
    var k := |c.objs|;
    OfUnknown(c.out, k);
    forall n: nat | n < k + 1 ensures Of(c.out, n) == Spoken((c.objs + [o])[n]) {
      assert n < k ==> (c.objs + [o])[n] == c.objs[n];
    }
  }

  lemma {:induction false} AllocKeeps(c: Client)
    requires WireInv(c) && CreateEnabled(c, Alloc)
    ensures WireInv(CreateApply(c, Alloc))
  {
    var c' := CreateApply(c, Alloc);
    var o := NewObj(c, c.lock.desc, c.lock.req);
    AllocKeepsLanguage(c, o);
    AllocKeepsNumbers(c);
    assert InLanguage(c') by {
      assert c'.objs == c.(objs := c.objs + [o]).objs;
    }
  }

  lemma {:induction false} AllocKeepsNumbers(c: Client)
    requires CreateEnabled(c, Alloc) && Numbered(c) && Mapped(c) && LockRight(c) && Ordered(c)
    ensures var c' := CreateApply(c, Alloc); Numbered(c') && Mapped(c') && LockRight(c') && Ordered(c')
  {
  }

  /** Stream n writes `f`; every other stream is as it was. */
  ghost predicate Speaks(c: Client, c': Client, n: nat, f: Frame) {
    && n < |c.objs|
    && c'.out == c.out + [Sent(n, f)] && c'.nextID == c.nextID && c'.streams == c.streams
    && |c'.objs| == |c.objs|
    && (forall m :: 0 <= m < |c.objs| && m != n ==> c'.objs[m] == c.objs[m])
  }

  lemma {:induction false} SpeakingKeepsLanguage(c: Client, c': Client, n: nat, f: Frame)
    requires InLanguage(c) && Speaks(c, c', n, f)
    requires c'.objs[n].desc == c.objs[n].desc
    requires Spoken(c'.objs[n]) == Spoken(c.objs[n]) + [f]
    requires MayHaveSent(c'.objs[n])
    ensures InLanguage(c')
  {
    forall m: nat | m < |c'.objs| ensures Of(c'.out, m) == Spoken(c'.objs[m]) {
      OfSnoc(c.out, Sent(n, f), m);
      assert Of(c.out, m) == Spoken(c.objs[m]);
    }
  }

  lemma {:induction false} SpeakingKeepsOrder(c: Client, c': Client, n: nat, f: Frame)
    requires InLanguage(c) && Ordered(c) && Speaks(c, c', n, f)
    requires f.id == IdOf(n) && (f.RequestFrame? || f.DataFrame?)
    requires f.RequestFrame? ==> Spoken(c.objs[n]) == [] && n == |c.objs| - 1
    ensures Ordered(c')
  {
    if f.RequestFrame? {
      forall i | 0 <= i < |c.out| ensures c.out[i].n < n {
        if c.out[i].n == n {
          OfNonEmpty(c.out, n, i);
        }
      }
    }
  }

  lemma {:induction false} SpeakingKeeps(c: Client, c': Client, n: nat, f: Frame)
    requires WireInv(c) && Speaks(c, c', n, f) && LockRight(c')
    requires c'.objs[n].st == c.objs[n].st && c'.objs[n].desc == c.objs[n].desc
    requires Spoken(c'.objs[n]) == Spoken(c.objs[n]) + [f]
    requires MayHaveSent(c'.objs[n])
    requires f.id == c.objs[n].st.id && (f.RequestFrame? || f.DataFrame?)
    requires f.RequestFrame? ==> Spoken(c.objs[n]) == [] && n == |c.objs| - 1
    ensures WireInv(c')
  {
    SpeakingKeepsLanguage(c, c', n, f);
    SpeakingKeepsOrder(c, c', n, f);
    assert Numbered(c') && Mapped(c');
  }

  lemma {:induction false} FirstSendKeeps(c: Client)
    requires WireInv(c) && CreateEnabled(c, FirstSend)
    ensures WireInv(CreateApply(c, FirstSend))
  {
    var c' := CreateApply(c, FirstSend);
    var n := c.lock.n;
    assert DataFrames(c.objs[n].st.id, []) == [];
    assert Spoken(c'.objs[n]) == [FirstFrame(c.objs[n])];
    SpeakingKeeps(c, c', n, FirstFrame(c.objs[n]));
  }

  lemma {:induction false} FirstSendFailKeeps(c: Client, breaks: bool)
    requires WireInv(c) && CreateEnabled(c, FirstSendFail(breaks))
    ensures WireInv(CreateApply(c, FirstSendFail(breaks)))
  {
    var c' := CreateApply(c, FirstSendFail(breaks));
    forall n: nat | n < |c'.objs| ensures Of(c'.out, n) == Spoken(c'.objs[n]) {
      assert Of(c.out, n) == Spoken(c.objs[n]);
    }
  }

  lemma {:induction false} DataKeeps(c: Client, n: nat, a: CallAct)
    requires a.SendMsg? || a.CloseSend?
    requires WireInv(c) && n < |c.objs| && CallEnabled(c, c.objs[n], a)
    ensures WireInv(CallApply(c, n, a))
  {
    var o := c.objs[n];
    var o' := CallNext(o, a);
    var f := CallWrites(o, a).value;
    if a.SendMsg? {
      assert DataFrames(o.st.id, o.sent + [a.data]) == DataFrames(o.st.id, o.sent) + [f];
    }
    assert Spoken(o') == Spoken(o) + [f];
    SpeakingKeeps(c, CallApply(c, n, a), n, f);
  }

  lemma {:induction false} WireInvCreate(c: Client, a: CreateAct)
    requires CreateEnabled(c, a) && WireInv(c)
    ensures WireInv(CreateApply(c, a))
  {
    match a
    case Lock(_, _) => QuietKeeps(c, CreateApply(c, a));
    case Abort => QuietKeeps(c, CreateApply(c, a));
    case Alloc => AllocKeeps(c);
    case FirstSend => FirstSendKeeps(c);
    case FirstSendFail(breaks) => FirstSendFailKeeps(c, breaks);
  }

  lemma {:induction false} WireInvCall(c: Client, n: nat, a: CallAct)
    requires n < |c.objs| && CallEnabled(c, c.objs[n], a) && WireInv(c)
    ensures WireInv(CallApply(c, n, a))
  {
    if a.SendMsg? || a.CloseSend? {
      DataKeeps(c, n, a);
    } else {
      CallIsQuiet(c.objs[n], a);
      QuietKeeps(c, CallApply(c, n, a));
    }
  }

  lemma {:induction false} DeliverApplyIsQuiet(c: Client, a: DeliverAct)
    requires Enabled(c, Deliver(a))
    ensures Quiet(c, DeliverApply(c, a))
  {
    DeliverIsQuiet(c.objs[c.loop.n], c.loop.f, a);
  }

  lemma {:induction false} LoopApplyIsQuiet(c: Client, a: LoopAct)
    requires LoopEnabled(c, a)
    ensures Quiet(c, LoopApply(c, a))
  {
    if a.Cleanup? {
      var objs' := CloseAll(c.objs, c.streams.Values, c.loop.err);
      forall n | 0 <= n < |c.objs| ensures SameVoice(c.objs[n], objs'[n]) {
      }
    }
  }

  lemma {:induction false} WireInvStep(c: Client, a: Action)
    requires Enabled(c, a) && WireInv(c)
    ensures WireInv(Apply(c, a))
  {
    match a
    case Create(ca) => WireInvCreate(c, ca);
    case Call(n, ka) => WireInvCall(c, n, ka);
    case Deliver(da) =>
      DeliverApplyIsQuiet(c, da);
      QuietKeeps(c, DeliverApply(c, da));
    case Loop(la) =>
      LoopApplyIsQuiet(c, la);
      QuietKeeps(c, LoopApply(c, la));
    case Conn(na) => QuietKeeps(c, ConnApply(c, na));
  }

  /** Without id reuse, the wire restricted to a stream's id is what the stream wrote. */
  lemma {:induction false} OnIdIsOf(out: seq<Sent>, n: nat)
    requires n < HALF_SPACE
    requires forall i :: 0 <= i < |out| ==> out[i].n < HALF_SPACE && out[i].frame.id == IdOf(out[i].n)
    ensures OnId(Wire(out), IdOf(n)) == Of(out, n)
  {
    if out != [] {
      var front := out[..|out| - 1];
      OnIdIsOf(front, n);
      IdBeforeWrap(n);
      IdBeforeWrap(out[|out| - 1].n);
      assert Wire(out)[..|out| - 1] == Wire(front);
    }
  }
}
