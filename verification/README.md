# ttrpc, modelled and verified in Dafny

ttrpc runs many unary and streaming calls over one byte connection. This project models
its protocol engine and proves what the engine promises, over all runs and all
interleavings of callers, receive loops, handlers, timers, shutdowns and failing writes.

## How the model is built

**Two state machines and their product.** `ClientConn` (client.go, stream.go) and
`ServerConn` (server.go, services.go) are step relations. A step is one atomic action of
the code: a region under a lock, one `select`, one channel rendezvous, one map store or
delete, one atomic add, one frame read or written, one timer firing. The client machine
runs against a peer that may send any frames; so does the server machine, except that the
peer sends no data on a unary stream. `System` joins the two by a pair of reliable, ordered
wires whose failure is permanent. `Registry` is the same for the server's sets of listeners
and connections, `SendLock` for concurrent writers of one connection. A state is reachable if
a run leads to it; each machine has an inductive invariant, proved step by step, from which
the theorems follow. What a frame means, what a request asks for and what the bytes look like
is written down apart from the functions that decide it in the machines, from the protocol and
the registered services, and the theorems speak of that; the history in a state is tied to the
steps of the run (`ClientHistory`, `ServerHistory`).

**Objects.** The code's classes are classes here, with the fields the code updates in place
and its loops and selects: `Stream`, `Client` and `ClientStream` in `ClientObjects`;
`StreamHandler` and `ServerConn` in `ServerObjects`; `Server` and `Conn` in
`RegistryObjects`; `Conn` in `Channel` with its two header buffers; `Pool` in `BufferPool`;
`MD` in `Metadata` with slices as windows of arrays. The first three groups carry a ghost
`model`, the state of their machine, which is reachable (or satisfies the machine's
invariant) whenever `Valid` holds; every method is proved to take exactly the named steps of
the machine. So the theorems about reachable states are theorems about the objects. (`Valid`
says `Lawful`, every invariant holds, which is the same as reachable:
`ClientConn.LawfulIsReachable`.) A Go `select` is Dafny's guarded alternative, and a `range`
over a map picks keys in any order.

**Buffers.** A queued message of a client stream or a server handler is a header and a slice
of a pooled buffer, filled by `Channel.Conn.Recv`, and is decoded from that buffer when it is
taken. The pool keeps the history of its buffers: handed out, read, returned. `Pool.Load`
(a read) and `Pool.Putmbuf` can be called with any slice; they keep the pool `Sound` exactly
if the buffer is on loan, so a second return or a read after the return makes it unsound, and
every method that reads or returns a buffer is proved to keep it sound. `Holding` says that
each queued message's buffer is on loan to its place in its queue and still has the bytes
received, which is also why the decoded frame is the one the machine queued. `SharedPool`
shows that connections that share the pool do not disturb each other.

**Bytes.** `Framing` says what reading the connection's bytes gives, `Channel` does it with
arrays, and `WireCodec` shows that the frames the machines exchange are what survives
encoding, sending, receiving and decoding.

| files | what they hold |
|---|---|
| Frames, StreamQueue | frames, ids, statuses; the client's queue with its close-once error |
| ClientConn, ClientIds, ClientQueues, ClientTheorems, ClientOutcomes, ClientHistory | client machine and what frames mean to a caller; ids and wire order; queues; theorems; what callers are told; that the state is what was done |
| ServerConn, ServerIds, ServerAnswers, ServerActive, ServerFeeds, ServerLate, ServerRulings, ServerTheorems, ServerCloses, ServerExit, ServerHistory | server machine and what requests ask for; accepted ids; responses; the counter; handlers' input; frames that come too late; which frames are accepted; theorems; the end of a handler's input; the end of the loops; that the state is what was done |
| System, Correlation, Transparency, Descriptors | both ends joined; unary calls; streams; callers that describe a method as it is registered |
| ClientWitness, ServerWitness, SystemWitness, StreamWitness | runs showing what can happen: a bound is met, a stream stays open, a call and a stream complete |
| ClientObjects, ServerObjects, RegistryObjects | the code's objects, refining the machines |
| Framing, Channel, WireCodec, SendLock | bytes |
| BufferLife, BufferPool, Messages, SharedPool | pooled payload buffers: their history, the pool, messages in them, connections that share it |
| Registry | the server's sets of listeners and connections |
| MetadataSpec, Metadata | request metadata |

Transition functions and their sources: `ClientConn.CreateApply` client.go:389-434,
`ClientConn.CallApply` client.go:210-313, 436-441 and 533-571, `ClientConn.DeliverApply`
stream.go:72-100 and client.go:376-382, `ClientConn.LoopApply` client.go:340-385 and
443-458; `ServerConn.Judge` and `RecvApply` server.go:374-494, `SendApply` server.go:497-568,
`HandleApply` services.go:105-234; `Registry.Apply` server.go:147-263 and 286-326.

## What the code does not promise

These are facts about the code that the statements respect, some against expectation.

- `active` is not the number of registered streams. A handler may answer before the receiver
  has stored it (services.go:112-123 against server.go:481-491), and every rejection goes
  through the branch that decrements (server.go:546-552). `ActiveExact` says what it is,
  `ActiveBounds` when it is bounded and zero, and `ActiveBelowZero` that -1 is reached.
- A response ends a stream (PROTOCOL.md:81), but a client leaves a streaming call open after
  a response that is not OK (client.go:285-287). `ResponseEnds` says that a response ends the
  caller's stream if and only if its status is OK, and `OpenAfterError` is a run in which the
  stream stays registered and open.
- A failed first send leaves the stream registered (client.go:429-431). Such streams are
  `TurnedAway`; `TurnedAwayStays` says that they are registered or closed, as long as their id
  is their own, and
  `LeftRegistered` is a run in which one is registered and open.
- A nil message is the same as an empty one for its receiver, so what a handler sent is
  compared with nil read as empty.
- After 2^31 allocations stream ids repeat. Statements that need distinct ids say so; oddness,
  no gaps, drain before error and the timer bound hold beyond. What shutdown guarantees then
  is stated for the streams in the map and for every stream whose id is its own.
- A caller that expects no stream treats data as a protocol error and ends its stream, whatever
  the handler goes on to send (client.go:293-297): the one case in which the end of a stream
  does not mean that everything was received.
- `MD.Append` can write over another key's list if the two share an array with room to spare
  (metadata.go:59). `Metadata.Beside` says what that list then reads; `Clone` prevents it.

## Model

| member | source | states |
|---|---|---|
| ClientIds.IdIsOdd | client.go:419-421 | every allocated id is odd, across the 32-bit wrap |
| ClientIds.IdBeforeWrap | client.go:419-421 | the first 2^31 allocations get the ids 1, 3, 5 and so on, none of them twice |
| ClientIds.WireInvStep | client.go:389-434 | every step keeps ids numbered by allocation, the map pointing at the stream of its id, requests ordered on the wire, and each stream's frames exactly what its caller said |
| ClientIds.OnIdIsOf | client.go:138-142 | while ids are distinct, the frames on the wire under an id are those of the one stream that has it |
| ClientQueues.QueueInvStep | stream.go:72-100 | every step keeps each queue gap-free, the caller's results those of the messages taken, and the receive loop aimed at the right stream |
| ClientTheorems.IdsOdd | client.go:389-434 | in every reachable state all ids on the wire are odd, also after wrap-around |
| ClientTheorems.RequestsIncrease | client.go:390-397 | whatever callers and failed sends interleave, request ids on the wire strictly increase for the first 2^31 allocations |
| ClientTheorems.ClientLanguage | client.go:210-250 | while ids are distinct, the frames on the wire under a stream's id are all that its caller said, in that order |
| ClientTheorems.WireOrderly | client.go:514-519 | frame by frame, what a stream has written: first its request, with remote open exactly if it has a client side, remote closed exactly if it streams without one, and no flags for a unary call; then data frames with the messages sent, none of them opening anything; last, if the caller closed its side, one without data and with remote closed |
| ClientTheorems.RemoteClosedIsLast | PROTOCOL.md:95-96 | nothing follows a frame with remote closed on its stream |
| ClientTheorems.NoGaps | client.go:349-385 | what a caller has taken is, in order and without gaps, a prefix of the frames that arrived for its id since registration, and RecvMsg returned exactly those messages |
| ClientTheorems.DrainBeforeError | client.go:257-268 | a call returns the stream's error only when every message ever queued was taken, and the error is the close cause |
| ClientTheorems.NothingAfterError | stream.go:72-78 | after that no step queues anything on the stream or changes the error |
| ClientTheorems.CloseCauseStable | stream.go:51-61 | the first close cause of a stream never changes |
| ClientTheorems.TimeoutsBounded | stream.go:84-98 | over a whole run the receive loop waits out at most one timer per allocated stream |
| ClientTheorems.TimeoutForCause | stream.go:78-98 | the timer fires only for a stream that was sent more than its queue holds, one message for a unary call and 64 otherwise |
| ClientTheorems.DeliveryFinishesAlone | stream.go:72-100 | from any delivery in progress at most three steps of the receive loop, without a step of anyone else, lead to its end |
| ClientTheorems.DeliveryAdvances | stream.go:72-100 | whatever others do meanwhile, a delivery in progress has an enabled step of the loop, each such step brings its end nearer, and no other step touches it |
| ClientTheorems.DeliveryBounded | stream.go:72-100 | in any stretch of a run, however interleaved, the loop takes at most three steps on one delivery |
| ClientTheorems.CleanupCloses | client.go:450-458 | when cleanup runs, every stream in the map, and every stream whose id is its own unless its own caller is about to close it, is left closed by its first cause or else by the connection's error |
| ClientTheorems.NoOrphans | client.go:340-347 | once cleanup has run the map is empty, every stream whose id is its own is closed or being closed by its caller, and a caller waiting on it has an enabled step |
| ClientTheorems.AloneBeforeWrap | client.go:419-421 | for the first 2^31 allocations every stream's id is its own |
| ClientTheorems.ResponseEnds | client.go:272-292 | a response ends a streaming caller's stream if and only if its status is OK |
| ClientTheorems.TurnedAwayStays | client.go:429-431 | a stream whose first send failed is in the map until it is closed |
| ClientWitness.OpenAfterError | client.go:285-287 | a run in which a stream is registered and open after a response with an error |
| ClientWitness.LeftRegistered | client.go:429-431 | a run in which a stream whose first send failed is registered and open |
| ClientTheorems.MapStaysEmpty | client.go:395-427 | no later createStream registers anything |
| ClientConn.DecodeMeans | client.go:271-313 | what RecvMsg makes of a frame is what the frame means by the protocol: its message, its status, the end, or a frame that is not expected, and whether it ends the stream |
| ClientOutcomes.OutcomeInvStep | client.go:252-313 | every step keeps what callers were told tied to the frames they took, and each close cause to who closed |
| ClientOutcomes.ErrorsTold | client.go:285-287 | the errors a streaming caller got are exactly the statuses of the responses it took that are not OK, in order |
| ClientOutcomes.EndTold | client.go:298-304 | io.EOF is returned only once the stream is being deleted, for the first time only for data that marks the end, and always for that |
| ClientOutcomes.DoneTold | client.go:285-300 | a streaming caller is done exactly if the last frame it took was an OK response, data with remote closed, or data it does not expect |
| ClientOutcomes.ProtocolTold | client.go:293-312 | a streaming caller gets a protocol error exactly if it took a frame that is neither a response nor data of a streaming server |
| ClientOutcomes.UnaryTold | client.go:545-570 | a unary call takes at most one frame and returns its response as it is, or a protocol error for any other frame; it says that the connection is closed only if it is |
| ClientOutcomes.CloseTold | stream.go:51-61 | a stream closed as too long was sent an oversized frame, as full had its timer fire, and otherwise was closed by its caller or by cleanup |
| ClientHistory.SentIsWhatWasSent | client.go:225-250 | in every run a stream has sent exactly the messages of its SendMsg calls, in order, each within the size limit, and has closed its side exactly if CloseSend succeeded |
| ClientHistory.CreatedBy | client.go:389-434 | every stream has the description and the request of the createStream call that allocated it, which held the lock since it took it |
| ClientHistory.ConnErrorIsRecvs | client.go:340-369 | a stream closed with a connection error has the error that recv returned |
| ClientHistory.CancelledByCaller | client.go:258-259 | a call says it was cancelled exactly if its own caller's context was done |
| ClientHistory.DoneIsDeleted | client.go:436-441 | a stream whose caller is done with it is closed and not in the map |
| ClientHistory.WireEnds | channel.go:145-162 | in every run, what is on the wire when a write fails or the connection is closed is all there will be |
| ClientHistory.CleanupAfterClose | client.go:340-343 | streams are cleaned up only after the connection was closed |
| ClientHistory.ClosedStays | client.go:320-327 | a client that was closed stays closed |
| ClientHistory.NoReadAfterClose | client.go:352-360 | after Close the receive loop reads at most the frame it is waiting for |
| ServerIds.IdInvStep | server.go:402-492 | every step keeps each handler tied to one accepted request, ids increasing, and each rejection justified |
| ServerAnswers.AnswerInvStep | server.go:517-552 | every step keeps the responses taken from a handler equal to its messages followed by its result, and each rejection sent at most once |
| ServerActive.ActiveInvStep | server.go:490-552 | every step keeps the counter equal to stores minus closing responses |
| ServerFeeds.FeedInvStep | services.go:182-234 | every step keeps each handler's queue what the frames received were due to put there |
| ServerLate.LateInvStep | server.go:410-418 | every step keeps this: a handler whose stream had no rejection but of late frames has answered or is in the table, and none of its responses follows the answer to a late frame |
| ServerTheorems.AcceptedIdsIncrease | server.go:443-452 | accepted requests have odd and strictly increasing ids |
| ServerConn.ResolveMeans | services.go:105-164 | what handle finds for a request is what is registered, unary methods before streams, and nothing exactly if nothing is |
| ServerTheorems.HandlerRegistered | services.go:111-145 | every handler was started for a request received, for the procedure as it is registered: methods go before streams, the stream's info is the registered one, and its queue has 64 places for a streaming client and one otherwise |
| ServerTheorems.RejectedForCause | server.go:385-492 | a frame is rejected only for the reason its status names; data is called inactive only if each handler of its stream has answered, came later, or had the stream closed by another rejection; a data error means a failed data() of its handler |
| ServerTheorems.ServerLanguage | server.go:517-552 | unless frames of it were rejected other than for being late, the frames under an accepted id are the handler's messages, then at most one closing frame, data with remote closed or a response, and then only answers to late frames; a unary request has at most one response |
| ServerTheorems.OneClosingResponse | services.go:105-163 | each handler gets at most one closing response and nothing of it follows |
| ServerTheorems.ActiveExact | server.go:490-552 | the counter is stores minus closing responses: accepted requests, less those answered, less one for each rejection sent and each failed start |
| ServerTheorems.ActiveBounds | server.go:503-514 | without rejections it is never below -1, not negative unless a request is being started, and zero exactly when every accepted request has been answered |
| ServerWitness.ActiveBelowZero | services.go:112-123 | a run without rejections in which the counter is -1 |
| ServerTheorems.HandlerInput | services.go:223-234 | with no data() error RecvMsg has returned a prefix of what the received frames are due to give: the request's payload, unless the client streams and it is empty, and the messages of later data frames |
| ServerTheorems.PayloadFirst | services.go:148-159 | without a data() error, the first thing in the queue of a handler that was started is the request's payload, even an empty one if the client does not stream; a streaming client's empty payload is not queued; after that come the messages of the data frames |
| ServerTheorems.StartFits | services.go:131-159 | there is always room for it: starting a handler never waits |
| ServerTheorems.HandlerEOF | services.go:182-187 | io.EOF comes only after a close frame and a drained queue, everything sent up to that frame having been returned; the queue is closed at most once |
| ServerTheorems.NoSendOnClosed | services.go:189-195 | the queue is never sent to after it was closed, whatever frames arrive |
| ServerTheorems.ExitUnblocks | server.go:351-397 | once the sender loop has left, every handler in respond and the receiver at each blocking point has an enabled step: in recv it is unblocked by the deferred close of the connection, which nothing holds up |
| ServerTheorems.RecvWaits | server.go:385 | before that close, a receiver in recv goes on only with a frame or a failure of the connection |
| ServerCloses.CloseArrives | server.go:434-442 | every close frame the receiver is done with has closed its handler's queue, unless it was turned down as not active or for a failed data(); it is turned down for carrying data exactly if it does |
| ServerCloses.DataFailsForCause | services.go:189-210 | a data() call failed only if the handler's context was done, its queue was closed, or 64 messages, or one without a streaming client, had been queued |
| ServerCloses.DeletedStays | server.go:546-552 | a deleted stream is not in the table again, unless its own handler is stored after that |
| ServerExit.EOFEndsLoop | server.go:553-562 | in every run a sender loop that has taken an end of file has left; it takes an error only when the receiver is gone, and that goes only with an error or after a shutdown |
| ServerExit.LeftForCause | server.go:497-568 | the sender loop has left if and only if one of its steps took an end of file, failed to write, or saw the shutdown while idle |
| ServerExit.IdleWhenLoaded | server.go:503-514 | the loop waits for the shutdown exactly if the counter was not positive when it last looked |
| ServerExit.CanLeave | server.go:515-568 | at its select, nothing keeps the loop from taking an end of file, or the shutdown when idle |
| ServerExit.ErrorTakenOnce | server.go:557 | the loop takes at most one error |
| ServerExit.ErrorKept | server.go:385-391 | once recv has failed, the receiver keeps that error, an end of file as one and any other as another |
| ServerExit.EOFHasCause | server.go:558-562 | an end of file is reported only if the connection ended with one |
| ServerExit.NoReadAfterShutdown | server.go:376-383 | after a shutdown the receiver reads at most the frame it is waiting for |
| ServerExit.ReceiverGoesOn | server.go:351-494 | after a shutdown the receiver always has an enabled step unless it waits for a frame |
| ServerHistory.SaysWhatItDid | services.go:105-146 | in every run a handler's result is what its method returned, and what the sender loop took from it is a prefix of what it passed to SendMsg, all of it but a message in progress until the connection is done |
| ServerHistory.DoneIfCancelled | services.go:126 | a handler's context is done exactly if it was cancelled or timed out |
| ServerRulings.JudgeRules | server.go:402-488 | comparing with lastStreamID alone decides the same as comparing with all opening frames received before |
| ServerRulings.RulingInvStep | server.go:385-492 | every step keeps lastStreamID the largest id of the opening frames judged, and each judged frame treated as ruled |
| ServerRulings.FramesRuled | server.go:385-492 | every frame the receiver is past was rejected for exactly the reason the received frames determine, or, if it opens a stream and none applies, has a handler |
| System.SysInvHolds | server.go:328-569 | both machines joined: each invariant holds, and each side has read a prefix of what the other wrote |
| Correlation.IdsAccepted | server.go:402-450 | the server never tells this client that an id must be odd, nor, before wrap-around, that it must increase |
| System.SidesReachable | server.go:328-569 | in every run of both sides each side takes a run of its own, so the theorems of each machine hold there |
| Correlation.RequestsServed | server.go:443-491 | before wrap-around, every request the server is past has a handler if its service has a method or stream of that name, and otherwise was rejected as unimplemented |
| Correlation.AnswerCorrelation | client.go:533-571 | the response a unary call decodes is the result of the handler of that very request, or the rejection of that very frame |
| Correlation.AnsweredOnce | client.go:539-543 | a call to a procedure that is not a stream gets at most one frame, so its queue of one never overflows and its delivery never waits |
| Transparency.ServerToClient | services.go:136-146 | for every streaming handler and caller: what RecvMsg has returned is a prefix of what the handler sent, its result included, and equal to it once the caller has seen the end, unless a caller that expects no stream was sent data |
| Transparency.FailureTold | client.go:285-287 | once the caller of a failed handler has taken its last frame, a RecvMsg has returned exactly the status the handler returned; no other failure is reported, except that frames came too late |
| Transparency.EOFIsSuccess | client.go:298-304 | a caller gets io.EOF only from a handler that returned OK, unless it expects no stream and was sent data |
| Transparency.SingleAnswer | client.go:272-297 | that exception happens only if the handler sends messages or is server-streaming |
| Transparency.OnlyEOFAfterEnd | client.go:252-255 | after the end every further RecvMsg returns io.EOF |
| Transparency.ClientToServer | services.go:152-159 | as long as no data() call failed, a handler has received a prefix of its caller's request payload, left out only if the client streams and it is empty, and the messages its caller sent |
| Transparency.ClientToServerEnd | services.go:182-187 | when it sees io.EOF its caller has closed its side and all of that has been received |
| Descriptors.RequestArrives | services.go:148-159 | from end to end: the first thing a started handler is given is its caller's payload, an empty one too if the client does not stream, and then what the caller has sent |
| Descriptors.AgreeingCaller | client.go:293-312 | a caller that describes its method as it is registered gets no protocol error, unless the handler of a stream that is not server-streaming has sent messages |
| SystemWitness.CallCompletes | client.go:533-571 | a run in which a unary call gets its handler's reply |
| StreamWitness.StreamCompletes | client.go:252-313 | a run in which a handler reads its caller's empty request, and the caller its message and then io.EOF |
| Framing.HeaderRoundTrip | channel.go:72-94 | a header read back is the header written, for all 32-bit lengths and ids |
| Framing.HeaderLayout | channel.go:86-94 | the ten bytes: length and id in four each, the highest byte first, then the type and the flags |
| Framing.SizeLimit | channel.go:126-132 | a message is delivered exactly if its payload has at most four megabytes |
| Framing.Resynchronises | channel.go:120-143 | for frames of any announced length, repeated recv reports each in order, oversized ones with their own header, then the end |
| Framing.Truncated | channel.go:120-143 | on a proper prefix of a stream, recv returns the whole frames in it and then one terminal error, bare io.EOF exactly at a frame boundary |
| Framing.WholeFits | channel.go:120-143 | those frames are the ones that lie wholly in the prefix |
| WireCodec.FlagsRoundTrip | channel.go:57-61 | the three flags survive their byte |
| WireCodec.WireLayout | channel.go:38-61 | the bytes of a frame, with the numbers of its type and the bits of its flags |
| WireCodec.WireIsFaithful | channel.go:120-162 | frames encoded, sent, received and decoded are the frames sent, so the machines' wires are what the bytes carry |
| WireCodec.CutIsFaithful | channel.go:120-162 | when the connection fails part of the way, what is read is a prefix of the frames sent and then a terminal error |
| SendLock.NoInterleaving | client.go:138-142 | under concurrent senders and failing writes the wire is whole frames in lock order and then at most part of one |
| SendLock.WritesStep | client.go:138-142 | the client machine's writes are the frames whose lock regions have ended, in that order |
| SendLock.ReaderSees | client.go:138-142 | whatever the senders are doing, the other end reads exactly the frames the client machine has written and then at most a terminal error |
| Channel.Conn.ReadFull | channel.go:73 | fills the buffer from the input, stopping early only at its end |
| Channel.Conn.ReadMessageHeader | channel.go:72-84 | the next ten bytes as a header, and io.EOF exactly when there are none |
| Channel.Conn.Recv | channel.go:120-143 | exactly one step of the byte-level reading, with the payload in a buffer of its length that is on loan to the reader and to nobody else |
| Channel.Conn.Write | channel.go:92-93 | appends the bytes, or a first part of them if the connection fails, and nothing after a failure |
| Channel.Conn.WriteMessageHeader | channel.go:86-94 | appends the header's ten bytes, or a first part of them with an error |
| Channel.Conn.Send | channel.go:145-162 | refuses an oversized payload without writing; otherwise appends the frame's bytes, or a first part of them with an error |
| BufferPool.Pool.Getmbuf | channel.go:164-178 | a slice of exactly the length asked for, new or taken out of the pool, that nobody else holds |
| BufferPool.Pool.Load | server.go:420-424 | reading a payload keeps the pool sound if and only if its buffer is on loan |
| BufferPool.Pool.Putmbuf | channel.go:180-182 | any slice joins the pool; that keeps it sound if and only if the buffer is on loan, so not if it was returned before |
| BufferLife.OnLoanMeans | channel.go:164-182 | on loan is handed out at some moment and not returned since |
| BufferLife.UniqueOwner | channel.go:134-142 | in a sound pool's history, between two times a buffer is handed out it was returned |
| BufferLife.ReturnedOnce | client.go:271-313 | between two returns of a buffer it was handed out |
| BufferLife.NotReadAfterReturn | server.go:419-426 | between the return of a buffer and a read of it, it was handed out |
| SharedPool.ClientReads | channel.go:96 | a client's recv leaves the buffers of a server connection that shares the pool alone |
| SharedPool.CallerReceives | client.go:271-313 | so does a caller's RecvMsg |
| SharedPool.ServerReads | channel.go:96 | a server connection's recv leaves a client's buffers alone |
| SharedPool.HandlerReceives | server.go:420-424 | so does a handler's RecvMsg |
| Messages.HeaderTells | channel.go:38-61 | what the header's type and flags say of the frame |
| ClientConn.LawfulIsReachable | client.go:349-385 | the condition the objects carry along is reachability |
| ServerConn.LawfulIsReachable | server.go:328-569 | the same for the server |
| Registry.RegInvStep | server.go:147-263 | every step of Serve, Close, Shutdown and the connections keeps the registry's invariant |
| Registry.RegistryHolds | server.go:286-326 | a connection whose loop runs is registered or told to shut down, and one that was refused is told to; every shutdown channel and done are closed at most once; a listener known after done is about to be closed |
| Registry.DoneShrinks | server.go:224-236 | after done no connection is added |
| Registry.ShutdownLeavesNone | server.go:160-166 | once a Shutdown has counted no connection there is none for the rest of the run |
| ClientObjects.Stream.CloseWithError | stream.go:51-61 | the first call decides the error, nil meaning ErrClosed |
| ClientObjects.Stream.Enqueue | stream.go:81 | the message goes to the end of the queue, and its buffer with it |
| ClientObjects.Stream.Dequeue | client.go:262-268 | the oldest message leaves the queue, still the frame that was queued |
| ClientObjects.Stream.StillBacked | stream.go:27-40 | whatever others do with their own buffers, the queue's messages stay the frames they were |
| ClientObjects.Client.Undisturbed | channel.go:96 | another user of the pool that keeps to its own loans leaves this client's messages alone |
| ClientObjects.Client.constructor | client.go:111-136 | the machine's initial state |
| ClientObjects.Client.Allocate | client.go:408-427 | the locked region of createStream takes the machine's allocation step, or its abort if the connection is done |
| ClientObjects.Client.CreateStream | client.go:389-434 | a new stream, in the map under the next id, whose request is written last; in the map also if the write failed; nothing if the connection is done |
| ClientObjects.Client.ReadMessage | client.go:361-369 | one recv: an error that ends the loop, or the next frame, whose payload the loop then holds |
| ClientObjects.Client.GetStream | client.go:443-448 | the object the machine's lookup names |
| ClientObjects.Client.Poison | client.go:376-377 | an oversized frame closes its stream with that error |
| ClientObjects.Client.ReceiveCheck | stream.go:73-77 | the first select |
| ClientObjects.Client.ReceiveSelect | stream.go:78-87 | the second select, its default only when nothing else is ready |
| ClientObjects.Client.ReceiveWait | stream.go:87-98 | the third select, the timer closing the stream with ErrStreamFull |
| ClientObjects.Client.TakeMessage | client.go:263-268 | the oldest message leaves the queue, and the machine takes it |
| ClientObjects.Client.DeleteStream | client.go:436-441 | the machine's two steps: the map entry, then the stream |
| ClientObjects.Client.Select | client.go:545-559 | the select of dispatch and RecvMsg: the error only when the queue is empty |
| ClientObjects.Client.PutBack | client.go:275 | returning the buffer of the message just taken keeps the pool sound and all queues backed |
| ClientObjects.Client.ReadResponse | client.go:272-278 | a response is read from its buffer before the buffer is returned |
| ClientObjects.Client.ReadData | client.go:307-308 | and so is data |
| ClientObjects.Client.DecodeReply | client.go:561-568 | dispatch reads a response and returns the buffer of any message |
| ClientObjects.Client.SelectReply | client.go:545-570 | what dispatch returns for each case |
| ClientObjects.Client.AwaitReply | client.go:539-571 | dispatch leaves its stream closed and unregistered on every path |
| ClientObjects.Client.CloseRegistered | client.go:454-457 | the loop closes exactly the registered streams, in any order |
| ClientObjects.Client.CleanupStreams | client.go:450-458 | the machine's cleanup step |
| ClientObjects.Client.Close | client.go:320-327 | cancels and closes once |
| ClientObjects.ClientStream.CloseSend | client.go:210-223 | which error in which case; the close frame is written and the side closed exactly if none |
| ClientObjects.ClientStream.SendMsg | client.go:225-250 | which error in which case; the data frame is written exactly if none |
| ClientObjects.ClientStream.RecvMsg | client.go:252-313 | io.EOF after the end, the error only on an empty queue, and otherwise the oldest message decoded from its buffer, the stream deleted exactly when it ended it |
| ClientObjects.ClientStream.Interpret | client.go:271-313 | the message's meaning on every branch, its buffer returned where it was read and nowhere else |
| ServerObjects.StreamHandler.CloseSend | services.go:182-187 | remoteClosed is set, and only the first call closes the queue |
| ServerObjects.StreamHandler.Enqueue | services.go:193-195 | the item goes to the end of the queue, and its buffer with it |
| ServerObjects.StreamHandler.Dequeue | services.go:225 | the oldest item leaves the queue with the data that was queued |
| ServerObjects.ServerConn.Undisturbed | channel.go:96 | another user of the pool that keeps to its own loans leaves this connection's items alone |
| ServerObjects.ServerConn.constructor | server.go:339-349 | the machine's initial state |
| ServerObjects.ServerConn.Handle | services.go:105-164 | finds methods before streams, and makes a handler with the right buffer exactly for a stream |
| ServerObjects.ServerConn.ReadFrame | server.go:385-391 | one recv: an error that ends the receiver, or the next frame, whose payload the receiver then holds |
| ServerObjects.ServerConn.DecodeRequest | server.go:456-464 | the request is read and its buffer returned, whether it can be decoded or not |
| ServerObjects.ServerConn.Examine | server.go:386-488 | the nested tests of the receiver give the machine's verdict |
| ServerObjects.ServerConn.OnFrame | server.go:386-488 | one turn of the receiver takes the machine's dispatch step |
| ServerObjects.ServerConn.DataCheck | services.go:189-192 | the remoteClosed test of data |
| ServerObjects.ServerConn.DataSelect | services.go:193-198 | its first select |
| ServerObjects.ServerConn.DataWait | services.go:201-208 | its second select, where the timer may fire |
| ServerObjects.ServerConn.EndData | server.go:434-442 | the machine's finish step: the queue is closed if the flag says so, and data beside it rejected |
| ServerObjects.ServerConn.Store | server.go:490 | the handler is stored under its id |
| ServerObjects.ServerConn.Count | server.go:491 | the counter goes up |
| ServerObjects.ServerConn.LoadActive | server.go:503-514 | idle exactly when the counter is not positive |
| ServerObjects.ServerConn.TakeError | server.go:553-562 | the loop returns exactly for an end of file |
| ServerObjects.ServerConn.SendResponse | server.go:517-552 | writes the frame of the response, and for a closing one deletes the stream and decrements |
| ServerObjects.ServerConn.Unmarshal | server.go:420-424 | the handler's unmarshal reads the data that was received and returns its buffer |
| ServerObjects.ServerConn.RecvMsg | services.go:223-234 | the oldest message, or io.EOF only when the queue is closed and empty |
| RegistryObjects.Conn.Close | server.go:320-326 | only the first call closes the channel |
| RegistryObjects.Server.AddConnection | server.go:224-236 | adds the connection exactly if the server is not done |
| RegistryObjects.Server.NewConn | server.go:286-299 | an added connection, or none if the server is done, the new one then closed |
| RegistryObjects.Server.DelConnection | server.go:238-243 | removes the connection |
| RegistryObjects.Server.CountConnection | server.go:245-250 | zero exactly when the machine has no connection |
| RegistryObjects.Server.CloseListeners | server.go:214-222 | no listener is left, and an error is returned exactly if closing one of them failed |
| RegistryObjects.Server.CloseConns | server.go:190-193 | the loops over the connections close and remove each one, or each idle one, once |
| RegistryObjects.Server.Close | server.go:178-196 | the machine's step: done, and nothing listening or registered |
| RegistryObjects.Server.BeginShutdown | server.go:147-156 | the machine's step: done, no listener, connections as they were |
| RegistryObjects.Server.CloseIdleConns | server.go:252-263 | exactly the active connections are left |
| MetadataSpec.FlattenMeans | metadata.go:93-102 | the pairs of a request are exactly those of a key of the map and a value of its list |
| MetadataSpec.RoundTrip | metadata.go:93-108 | flattening and rebuilding gives the map restricted to non-empty lists, for every order of its keys |
| Metadata.AppendValues | metadata.go:52-63 | append writes in place exactly when there is room, and otherwise leaves the old array alone |
| Metadata.ToLowerMeans | metadata.go:30 | two keys have the same entry exactly if they are equal but for the case of letters, and the entry's key has no upper-case letter |
| Metadata.MD.Get | metadata.go:29-37 | the list of the key that is equal but for case, if it has one that is not empty |
| Metadata.MD.Set | metadata.go:42-49 | replaces the list, or deletes the key if there are no values; keys stay without upper-case letters |
| Metadata.MD.Append | metadata.go:52-63 | the key's list grows by the values; another list changes exactly where they were written over it; when no list's spare room is another's, nothing else changes, now or later |
| Metadata.OtherList | metadata.go:59 | what a list reads after values were appended to one that may share its array |
| Metadata.TotalPermuted | metadata.go:73-77 | the two loops of Clone agree on the number of values whatever orders they visit the keys in |
| Metadata.TilesIsolated | metadata.go:85-87 | windows cut to their length leave no append any room in another's |
| Metadata.CountValues | metadata.go:73-77 | the number of values |
| Metadata.CarveLoop | metadata.go:80-89 | each list is copied into the next window of the shared array |
| Metadata.Clone | metadata.go:68-91 | nil for nil; otherwise the same keys and lists, nil lists kept, tiling one new array exactly, appends to one never touching another |
| Metadata.SetRequest | metadata.go:93-102 | appends the map's pairs, key by key |
| Metadata.FromRequest | metadata.go:104-108 | into any map whose lists are isolated, the empty one among them, the lists gathered from the pairs |

## Left out

Assumptions on the users of the code, where the code itself enforces nothing:

- A peer sends no data frame on a unary stream (PROTOCOL.md:94): the nil handler stored for one would be dereferenced (server.go:418-426), and the receiver's step is not enabled there.
- A client stream has one sender and one receiver at a time: `localClosed` and `remoteClosed` are plain fields (client.go:206-207).
- A handler makes one call at a time and no SendMsg after it has returned: `streamHandler.localClosed` is never set (services.go:179, 213).
- The services registered do not change while connections run.

Not modelled:

- ClientObjects.Client.CreateStream: states createStream when no other goroutine acts between its two tests of the context; the machine has them as separate steps.
- ClientObjects.ClientStream.SendMsg: writes the frame to a list of frames; that these are the frames the bytes carry is WireCodec's and SendLock's matter. Whether a write succeeds is an input here and in CloseSend and CreateStream.
- RegistryObjects.Server.BeginShutdown: the waiting loop of Shutdown is only in the machine, as steps that close idle connections, find none, or give up.
- Metadata.FromRequest: for a map in which lists share spare room it states only that the map stays well-formed; its only use is with an empty map (server.go:573-575).
- Metadata.MD.Append: the argument slice of a first append for a key is copied, so aliasing with the caller's own slice is not captured.
- Transparency.ClientToServer: says nothing after a failed data() call, because the stream is removed later by the other goroutine (server.go:426-431, 546-552).
- Correlation.AnswerCorrelation: needs fewer than 2^31 allocations on the connection, since ids repeat after that.
- Message encoding is opaque and lossless, and bodies that were encoded do decode; frames that cannot be decoded exist for the server's requests only.
- Sockets, buffering, the handshake, Unix credentials and the accept loop's back-off: the connection is a sequence of bytes or frames that may fail for good at any moment.
- Time and contexts: timers and cancellations fire at any moment; a handler's context may be done at any time.
- Error texts and codes, `filterCloseErr`, `convertCode`, full method names, interceptors, options, logging and the code generator.
- The 32-bit width of `active`, and `int(mh.Length)` on platforms where int has 32 bits (channel.go:127).
- The flags of a request, which the server does not read.
- A graceful drain by Shutdown: the sender loop looks at the counter only at the top of a turn (server.go:503-514), so the code does not give one.
- Progress in time: that something blocked can proceed is shown as an enabled step, not as eventual progress.
- `strings.ToLower` beyond ASCII.
