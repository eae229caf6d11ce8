# Kylea: a verified model of its session protocol

The repository carries messages over a TLS stream. A `Session` frames them, lets Ping and Pong
overtake Data, answers every Ping, keeps the connection alive with a timer and reports opening and
closing to a `SessionManager`. Everything is driven by callbacks on FIFO strands. This project models
that code in Dafny and proves what it promises in every interleaving of calls, tasks, completions and
failures. Two smaller parts are modelled beside it: the periodic `Timer` and the buffer pool.

## How the model is built

`SessionModel` is one session as a state machine: its fields, the tasks on its three strands, the
asynchronous operations under way, and history that only the statements use. Public calls, strand tasks
and completion handlers are single steps; `Apply` performs one. `SessionObject.Session` is the class
itself: each method works on the fields as the source does and is proved to do exactly what
`SessionModel` says of that call or task, and the calls and the strands' tasks keep the invariant of
`SessionInvariant`. What the environment does between them - bytes moving, operations ending, waits
expiring - is part of the state machine only.

- `Wire`: the packed header, the frame, the decoder as one recursive function.
- `WriteQueue`: the write queue as a pinned slot, a control stack and a Data queue; overtaking.
- `ReadTimer`: the keep-alive timer and its bound.
- `StrandView`, `SessionLife`, `SessionWriter`, `SessionReader`, `SessionInvariant`: the invariants, kept
  by every event.
- `SessionTheorems`, `SoleWriter`, `SessionQueue`, `Accounts`, `Handshake`, `CloseHandler`, `KeepAlive`,
  `Stamps`, `Silence`, `Registration`, `Closing`: what follows for every run of one session.
- `Network`, `Traffic`, `Drain`, `Settling`, `EndToEndExact`: two sessions joined by two byte streams.
- `SessionManager`, `PeriodicTimer`, `BufferPool`, `Messages`: the remaining classes.
- `Asio`, `Sequences`: shared vocabulary and identities.

Automatic induction is switched off wherever it would apply, so each proof by induction is written out.

What is assumed of boost::asio and of the application is stated in `SessionModel.Enabled` and
`Network.Can`. A strand runs its tasks in order, one at a time. A write puts a prefix of its buffer on the
stream and succeeds only when all of it is there; a read takes the next bytes in pieces of any size and
succeeds when it has all it asked for. An operation succeeds only on an open socket, ends with
`operation_aborted` only if it was under way when the socket was cancelled or closed (it may still go on
and end otherwise), and may fail at any time. Setting or cancelling a timer aborts armed waits, not
completions already queued. Clocks do not run back. `open()` is called once, or again to no effect
while connected; the application sends after its open handler was called, and leaves payloads alone
afterwards. `close()` may be called at any time, also before `open()`; so may
`shedule()` and `cancel()` of a `Timer`, any number of times. Both ends run on machines with the
same, least-significant-byte-first order, since the source copies the header struct.

Two results say that a law holds less widely than one might expect:

- The size field has 32 bits and `countPayloadCRC` stores the payload length in it unchecked. The framing
  law and the end-to-end law hold if and only if every payload is shorter than 2^32 bytes
  (`Wire.DecodeEncodeAll`, `EndToEndExact.EndToEndExactly`); `Wire.OversizedPayloadIsLost` names an input.
- The close handler can run twice for one `open()`, because `handleHandshake` sets `isConnected_` again.
  From any state, some continuation runs it twice if and only if it was given and the handshake has not
  been handled yet, or a `close()` took effect between `open()` and the handling of the handshake
  (`CloseHandler.RunsTwiceIff`); `CloseHandler.CanRunTwice` is such a run.

## Model

| member | source | states |
|---|---|---|
| Wire.HeaderLayout | src/utils/Net/include/Message.hpp:15-48 | The packed layout of 2 + 4 + 4 + 2 bytes: each field at its place, least significant byte first |
| Wire.FrameLayout | src/utils/Net/src/Message.cpp:22-64 | A message is twelve bytes with zero checksums, its length modulo 2^32 and its type, then the payload |
| Wire.TypesOnTheWire | src/utils/Net/include/MessageTypes.hpp:6-12 | Data, Ping and Pong are 1, 2 and 3 on the wire |
| Wire.DecodeEncodeHeader | src/utils/Net/include/Message.hpp:15-48 | The 12-byte packed header (2+4+4+2 bytes) is read back field by field |
| Wire.DecodeSplit | src/utils/Net/src/Session.cpp:219-305 | Decoding resumes at any frame boundary: skipped and empty frames never cost alignment |
| Wire.DecodeMonotone | src/utils/Net/src/Session.cpp:231-305 | More input only extends the frames read; a rejected stream stays rejected |
| Wire.DecodeNext | src/utils/Net/src/MetaMessage.cpp:12-40 | A header that passes its check, with a body that passes the body check unless it is empty, is taken as one frame with its declared body |
| Wire.TakesExactlyAccepted | src/utils/Net/src/MetaMessage.cpp:12-40 | A frame is taken exactly when the stream starts with such a header and body |
| Wire.DecodeEncodeAll | src/utils/Net/src/Message.cpp:22-63 | Framing round trip: any list of messages is read back with types and payloads if and only if every payload fits the size field |
| Wire.OversizedPayloadIsLost | src/utils/Net/src/Message.cpp:55-59 | A payload of 2^32 bytes arrives as an empty message followed by its own bytes taken for frames |
| Wire.DecodePrefixOfEncoding | src/utils/Net/src/Session.cpp:231-305 | Any cut of a well-formed stream yields a prefix of its frames and is never rejected |
| WriteQueue.EnqueueKeepsDataOrder | src/utils/Net/src/Session.cpp:307-331 | Sending loses and duplicates nothing, never exchanges two Data messages, and leaves the head in place |
| WriteQueue.QueueRefinesLanes | src/utils/Net/src/Session.cpp:307-377 | Under any sends and completions the deque is a pinned slot, then control messages newest first, then Data in order of arrival |
| WriteQueue.PlaceTracks | src/utils/Net/src/Session.cpp:311-325 | A waiting message stands where counting overtakers and completions says |
| WriteQueue.OvertakingBound | src/utils/Net/src/Session.cpp:311-365 | A message at index k leaves with completion k + 1 plus the number of control messages sent while it waits behind the head, and not before |
| SessionQueue.QueueIsThreeLanes | src/utils/Net/src/Session.cpp:101-134 | In every run, closed sockets included, the deque is what the three lanes make of the messages submitted and the writes handled since the last close task; without a close task, of all |
| SessionQueue.ClosedQueueStartsAnew | src/utils/Net/src/Session.cpp:116-133 | A close task leaves the deque empty, so the next message sent gets its own write |
| SessionQueue.MessageWaits | src/utils/Net/src/Session.cpp:307-377 | The overtaking bound for any message in the queue of a running session; the write handled at that count pops exactly this message |
| SessionTheorems.ReachableInv | src/utils/Net/src/Session.cpp:57-465 | Every state of every run satisfies the lifecycle, writer, reader, timer and registration invariants |
| SessionInvariant.ApplyKeepsInv | src/utils/Net/src/Session.cpp:57-465 | Every call, task, completion and timer event keeps all invariants |
| SessionTheorems.FailureSafety | src/utils/Net/src/Session.cpp:101-134 | After a write has failed or was aborted nothing ever reaches the wire again, whatever happens |
| SessionTheorems.BrokenWireIsFinal | src/utils/Net/src/Session.cpp:307-377 | The same for every run of a new session |
| SessionTheorems.WireIsPrefixOfSent | src/utils/Net/src/Session.cpp:342-377 | The wire holds whole frames and at most one cut one, in the order the writes began; their Data is what was sent first |
| SoleWriter.SingleWriter | src/utils/Net/src/Session.cpp:307-377 | Until the close task runs there is at most one write posted, under way or completed, counting all of the strand, and it is for the queue head; until a write fails there is one exactly if the queue is not empty, and a completed one ended well; so pop_front removes the message just written |
| SoleWriter.PopsTheWritten | src/utils/Net/src/Session.cpp:357-377 | The same at the handler: the head is the message whose write is handled, and no other write is about |
| SessionTheorems.SingleReader | src/utils/Net/src/Session.cpp:177-305 | After the handshake there is exactly one read, until one fails, is aborted or is rejected; otherwise none |
| SessionTheorems.ReaderFollowsDecoder | src/utils/Net/src/Session.cpp:219-305 | For every chunking the handlers dispatch what the decoder finds; while a read is under way or waits to be handled the decoder goes on with just its bytes, stops in an incomplete read at the same byte, and rejects where the handlers do |
| SessionTheorems.ClosedSessionDispatchesNothing | src/utils/Net/src/Session.cpp:400-407 | A session closed after its handshake was handled dispatches no further payload; those already posted are still handed over |
| Accounts.NothingForNobody | src/utils/Net/src/Session.cpp:400-407 | A session without a receive handler hands nothing over |
| Accounts.BooksBalance | src/utils/Net/src/Session.cpp:57-465 | In every run the cancelling, closing, writing, stamping and restarting tasks that are queued or have run are as many as their causes: close is called for the application, a failure, a rejected frame or a lost connection, and for no abort; each read cancels the timer, each read started and each ping restarts it, each good handshake stamps it, and a write is posted for a message sent to an empty queue and after each write that ended well with more behind it |
| Accounts.CancelledCanAbort | src/utils/Net/src/Session.cpp:89-134 | Cancelling or closing an open socket leaves the operations under way as they are and lets each end aborted |
| KeepAlive.NeverSleeps | src/utils/Net/src/Session.cpp:219-305 | As long as a session is connected and reads, a wait is under way or has expired, or a task that no queued cancellation undoes will start one |
| Handshake.AbortedHandshakeStays | src/utils/Net/src/Session.cpp:191-217 | After an aborted handshake, as long as close is not called, the session stays connected, neither reads nor writes, queues no further close task, and has its close handler called at most once for each close task before |
| Handshake.FailedHandshakeCloses | src/utils/Net/src/Session.cpp:191-217 | A failed handshake cancels and closes, once |
| Handshake.EarlyClosesAreCalls | src/utils/Net/src/Session.cpp:101-134 | The early closes of the close handler's laws are the calls of close between open and the handling of the handshake |
| CloseHandler.RunsAtMostTwice | src/utils/Net/src/Session.cpp:101-134 | The close handler runs at most twice, and twice only if it was given and a close fell between open and the handling of the handshake |
| CloseHandler.RunsTwiceIff | src/utils/Net/src/Session.cpp:191-217 | From any state, some continuation runs the close handler twice if and only if it was given and the handshake is not handled yet or a close came before it was |
| CloseHandler.RunsAtRest | src/utils/Net/src/Session.cpp:101-134 | Once the handshake is handled and the strand has run out it has run once, once more after an early close, and once less while the session is connected |
| CloseHandler.CanRunTwice | src/utils/Net/src/Session.cpp:191-217 | A run in which it does run twice |
| Stamps.TimerFollowsEvents | src/utils/Net/src/Session.cpp:409-436 | lastTimeRead_ is the time of the last stamping task of the run; a wait is under way from a restart, with the deadline it drew, to the next cancellation or its expiry |
| Stamps.RestartWaits | src/utils/Net/src/Session.cpp:409-418 | A restart starts one wait, which can end exactly from its period in milliseconds on |
| Stamps.ExpiryDecides | src/utils/Net/src/Session.cpp:446-464 | An expiry closes if a second or more has passed since the last stamp of the run, and otherwise changes nothing and pings |
| Stamps.StampKeepsOpen | src/utils/Net/src/Session.cpp:420-436 | Once a stamping task has run no expiry closes the session for a second |
| Stamps.ReadKeepsOpen | src/utils/Net/src/Session.cpp:231-305 | A handled read does so, once the timer tasks queued at the time and its own have run |
| KeepAlive.ReadTimerIsSafe | src/utils/Net/src/Session.cpp:409-465 | At most one wait is armed, and nothing waits or expires before lastTimeRead_ is set |
| KeepAlive.KeepAliveBound | src/utils/Net/src/Session.cpp:438-465 | An expiry closes exactly if more than MaxTimeOut has passed since the stamp, then its chain ends; otherwise it pings and is at most number 999/p + 1 of its chain since the stamp |
| Silence.SilenceIsNoticed | src/utils/Net/src/Session.cpp:409-465 | A session that listens and handles no read has a bounded number of timer events, known in advance, and timer events alone can close it from wherever they have led |
| Silence.RestartedWeight | src/utils/Net/src/Session.cpp:409-418 | After a restart with nothing else about that bound is 4 * (999/p + 1) + 2 |
| ReadTimer.PingsAreBounded | src/utils/Net/include/Session.hpp:34 | The arithmetic of that bound for periods of at least p >= 1 ms |
| Registration.RegistrationConsistent | src/utils/Net/src/Server.cpp:147-149 | A session at rest on a closed socket is not registered; on an open socket it is registered exactly if its handshake succeeded |
| Closing.ClosedComesToRest | src/utils/Net/src/Session.cpp:101-134 | Once the socket is closed the session has a bounded number of internal events left, whatever fails, and can go on until it is at rest; when nothing is left it is |
| Closing.ClosedIsUnregistered | src/utils/Net/src/Server.cpp:147-149 | And it is then not registered |
| SessionManager.LastTaskDecides | src/utils/Net/src/SessionManager.cpp:16-33 | Whatever other sessions do, the last join or leave of a session decides whether it is registered |
| SessionManager.WithoutMembers | src/utils/Net/src/SessionManager.cpp:24-33 | leave removes every occurrence of the session; every other session is there as often as before |
| SessionManager.WithoutConcat | src/utils/Net/src/SessionManager.cpp:24-33 | leave works on each part of the vector by itself, so the sessions that stay keep their order |
| SessionManager.StayersThenComers | src/utils/Net/src/SessionManager.cpp:16-33 | After any tasks the vector holds the sessions that stayed, in their order, then those that came, in the order of their joins |
| SessionManager.Manager.PostJoin | src/utils/Net/src/SessionManager.cpp:16-22 | join adds its task behind all others |
| SessionManager.Manager.PostLeave | src/utils/Net/src/SessionManager.cpp:24-26 | leave adds its task behind all others |
| SessionManager.Manager.PostForEach | src/utils/Net/src/SessionManager.cpp:35-37 | forEach adds its task behind all others |
| SessionManager.Manager.RunTask | src/utils/Net/src/SessionManager.cpp:16-41 | Running the first task changes the vector as that task says; forEach visits the sessions registered at that time |
| SessionManager.Manager.Remove | src/utils/Net/src/SessionManager.cpp:28-31 | remove_if and erase together leave the other sessions in order |
| Network.EndToEndOrder | src/utils/Net/src/Session.cpp:219-407 | In every state of every run of two sessions, with any segmentation, failures and closes, the payloads delivered are a prefix of those sent |
| Network.PeerDecodesWhatWasWritten | src/utils/Net/src/Session.cpp:307-377 | The peer's dispatched frames are a prefix of the frames written |
| Network.SubmittedIsSent | src/utils/Net/src/Session.cpp:46-50 | The Data a session queues is what its application sent, in that order |
| EndToEndExact.EndToEndExactly | src/utils/Net/src/Message.cpp:55-59 | A list of payloads is delivered in order in all runs if and only if each is shorter than 2^32 bytes |
| EndToEndExact.CanDeliverAll | src/utils/Net/src/Session.cpp:219-407 | Every list of payloads that fit has a run that delivers all of it |
| EndToEndExact.OversizedBreaksOrder | src/utils/Net/src/Message.cpp:55-59 | Every list with an oversized payload has a run that delivers something else |
| Traffic.PingsConserved | src/utils/Net/src/Session.cpp:167-175 | Before any close, Pings sent equal Pings waiting or in transit, plus Pongs waiting or in transit back, plus Pongs consumed |
| Traffic.ApplyKeepsAnswered | src/utils/Net/src/Session.cpp:379-398 | Each Ping dispatched causes exactly one Pong, and nothing else causes one |
| Traffic.KindConserved | src/utils/Net/src/Session.cpp:307-377 | Every message of a kind is waiting, in transit or dispatched, an in-flight head counted once |
| Drain.InternalDrains | src/utils/Net/src/Session.cpp:357-398 | Every internal event, failures included, lowers a measure in which a Ping outweighs its Pong and a Pong causes nothing |
| Drain.DrainTerminates | src/utils/Net/src/Session.cpp:357-398 | Without calls and expiring waits two sessions stop within a number of events known in advance, whatever payloads were sent and whatever fails |
| Settling.QuietMeansDelivered | src/utils/Net/src/Session.cpp:219-407 | When two running sessions have gone quiet, everything sent has been delivered |
| Settling.SmoothRunsDeliver | src/utils/Net/src/Session.cpp:219-407 | From a state in which both sessions run with no failure, close or expiry queued, runs without failures are bounded in length, keep both sessions running, can go on until quiet, and when quiet have delivered everything sent |
| SessionObject.Session.constructor | src/utils/Net/src/Session.cpp:21-44 | A new session is disconnected and has nothing queued |
| SessionObject.Session.Open | src/utils/Net/src/Session.cpp:57-87 | open connects and posts the handshake, or does nothing if connected; keeps the invariant |
| SessionObject.Session.CancelAllPendingOperations | src/utils/Net/src/Session.cpp:89-99 | Posts the cancelling task |
| SessionObject.Session.CancelOutstanding | src/utils/Net/src/Session.cpp:92-98 | Cancelling an open socket makes the operations under way liable to abort |
| SessionObject.Session.Close | src/utils/Net/src/Session.cpp:101-134 | close cancels socket and timer; if connected it also disconnects and posts the close task; keeps the invariant |
| SessionObject.Session.RunCloseSocket | src/utils/Net/src/Session.cpp:116-133 | The close task drops the queue, closes the socket and calls the close handler |
| SessionObject.Session.StartHandshake | src/utils/Net/src/Session.cpp:183-189 | Starts the handshake operation |
| SessionObject.Session.HandleHandshake | src/utils/Net/src/Session.cpp:191-217 | Connects; on success stamps the timer, reads and calls the open handler; on a failure that is no abort closes |
| SessionObject.Session.SendPayload | src/utils/Net/src/Session.cpp:46-50 | Sends a payload as a Data message; keeps the invariant |
| SessionObject.Session.Ping | src/utils/Net/src/Session.cpp:167-170 | Sends a Ping without payload |
| SessionObject.Session.Pong | src/utils/Net/src/Session.cpp:172-175 | Sends a Pong without payload |
| SessionObject.Session.Send | src/utils/Net/src/Session.cpp:307-331 | The pops and pushes put the message where Enqueue says; an idle writer is started |
| SessionObject.Session.WriteNext | src/utils/Net/src/Session.cpp:333-340 | Posts the write of the head, if any |
| SessionObject.Session.AsyncWrite | src/utils/Net/src/Session.cpp:342-355 | Starts one write operation for the message |
| SessionObject.Session.HandleWrite | src/utils/Net/src/Session.cpp:357-377 | Pops the head; goes on, closes or stops by the outcome |
| SessionObject.Session.ReadNext | src/utils/Net/src/Session.cpp:177-181 | Starts a header read |
| SessionObject.Session.AsyncReadHeader | src/utils/Net/src/Session.cpp:219-229 | Starts a header read and restarts the timer |
| SessionObject.Session.AsyncReadBody | src/utils/Net/src/Session.cpp:266-278 | Starts a body read and restarts the timer |
| SessionObject.Session.HandleReadHeader | src/utils/Net/src/Session.cpp:231-264 | Goes on to the body, dispatches an empty message, or closes |
| SessionObject.Session.HandleReadBody | src/utils/Net/src/Session.cpp:280-305 | Dispatches the message and reads on, or closes |
| SessionObject.Session.OnMessageReceived | src/utils/Net/src/Session.cpp:379-398 | Answers a Ping, swallows a Pong and unknown types, hands over the rest |
| SessionObject.Session.HandleMessage | src/utils/Net/src/Session.cpp:400-407 | A connected session with a receive handler posts the payload |
| SessionObject.Session.RestartReadTimer | src/utils/Net/src/Session.cpp:409-418 | Posts the restart |
| SessionObject.Session.CancelReadTimer | src/utils/Net/src/Session.cpp:420-436 | Posts the cancellation |
| SessionObject.Session.HandleReadTimeOut | src/utils/Net/src/Session.cpp:438-446 | An aborted wait does nothing; any other posts the task that looks at the clock |
| SessionObject.Session.CheckTimeOut | src/utils/Net/src/Session.cpp:446-464 | That task closes a lost connection, otherwise pings and restarts |
| SessionObject.Session.RunTask | src/utils/Net/src/Session.cpp:75-134 | Runs the first task of the socket strand as the model does; keeps the invariant |
| SessionObject.Session.RunTimerTask | src/utils/Net/src/Session.cpp:409-465 | Runs the first task of the timer strand as the model does; keeps the invariant |
| PeriodicTimer.TicksForEver | src/utils/Misc/src/Timer.cpp:19-62 | After one shedule with its handlers, without a cancel and with every call saying go on, exactly one copy is about, it is live, and the handler can be called any number of times more; for both overloads |
| PeriodicTimer.StopsWhenTold | src/utils/Misc/src/Timer.cpp:37-43 | A handler that says to stop ends the chain |
| PeriodicTimer.OnlyPeriodsStart | src/utils/Misc/src/Timer.cpp:35-62 | The second overload starts nothing without a period handler; the first always starts a wait |
| PeriodicTimer.WithoutHandlersNoCalls | src/utils/Misc/src/Timer.cpp:35-62 | A timer never given all its handlers calls nobody |
| PeriodicTimer.CancelAllowsOneMoreCall | src/utils/Misc/src/Timer.cpp:19-72 | After a cancel task has run, until the next shedule, the user's handlers are called at most once more for each shedule so far, in every interleaving |
| PeriodicTimer.CancelLeavesQueuedCopies | src/utils/Misc/src/Timer.cpp:64-72 | A cancel task aborts the wait under way; the calls that still come are at most the live copies queued behind it |
| PeriodicTimer.AsManyCallsHappen | src/utils/Misc/src/Timer.cpp:19-72 | The bound is exact: for every number of shedule calls some run has as many late calls |
| PeriodicTimer.OneMoreCallHappens | src/utils/Misc/src/Timer.cpp:35-46 | With one shedule, a late call also happens when the handler cancels the timer itself and goes on |
| PeriodicTimer.CancelledTimerStops | src/utils/Misc/src/Timer.cpp:19-72 | After a cancel task has run the chains die within a bounded number of events unless shedule is called, also when cancel is called again |
| PeriodicTimer.ApplyKeepsChained | src/utils/Misc/src/Timer.cpp:19-72 | At any time at most one wait is under way, and at most one copy of a handler is about for each shedule |
| PeriodicTimer.TimerObject.PostStart | src/utils/Misc/src/Timer.cpp:19-33 | start posts a task holding a copy of the handler |
| PeriodicTimer.TimerObject.SheduleFixed | src/utils/Misc/src/Timer.cpp:35-46 | Sets the handler and starts the first wait |
| PeriodicTimer.TimerObject.ShedulePeriods | src/utils/Misc/src/Timer.cpp:48-62 | The same, starting nothing without a period handler |
| PeriodicTimer.TimerObject.PostCancel | src/utils/Misc/src/Timer.cpp:64-72 | cancel posts its task |
| PeriodicTimer.TimerObject.CallHandle | src/utils/Misc/src/Timer.cpp:37-43 | The stored lambda calls the user, if it has the handlers, and copies the member anew to go on |
| PeriodicTimer.TimerObject.RunFirst | src/utils/Misc/src/Timer.cpp:22-32 | Runs the first task or completion as the model does |
| BufferPool.BufferProvider.Get | src/utils/BufferProvider/src/BufferProvider.cpp:19-51 | Leases the first idle buffer or a new one; fails exactly if the pool is full and all are leased; keeps the pool's invariant |
| BufferPool.BufferProvider.FindIdle | src/utils/BufferProvider/src/BufferProvider.cpp:22-23 | Finds the first idle buffer, or the end if there is none |
| BufferPool.BufferProvider.Reset | src/utils/BufferProvider/src/BufferProvider.cpp:53-61 | Drops exactly the idle buffers; any two that stay keep their order |
| BufferPool.BusyConcat | src/utils/BufferProvider/src/BufferProvider.cpp:53-61 | reset works on each part of the pool by itself |
| BufferPool.BufferProvider.LiveLocksBounded | src/utils/BufferProvider/src/BufferProvider.cpp:29-36 | Live locks never outnumber the pool's bound |
| BufferPool.BufferProvider.constructor | src/utils/BufferProvider/src/BufferProvider.cpp:9-12 | A new pool is empty |
| BufferPool.BufferLock.constructor | src/utils/BufferProvider/include/BufferLock.h:10-17 | A lock marks its buffer busy and leaves its contents |
| BufferPool.BufferLock.Release | src/utils/BufferProvider/include/BufferLock.h:19-26 | The buffer, if any, is idle and empty again, its bytes kept |
| BufferPool.BufferProvider.TakeBack | src/utils/BufferProvider/include/BufferLock.h:19-26 | When a lock of the pool goes its buffer is idle and empty, all others are untouched, and the pool keeps its invariant |
| BufferPool.BufferLock.Size | src/utils/BufferProvider/include/BufferLock.h:40-43 | The size of the buffer, 0 for an empty lock |
| BufferPool.BufferLock.Resize | src/utils/BufferProvider/include/BufferLock.h:45-51 | Resizes its own buffer, if any, as the buffer does |
| BufferPool.BufferProvider.ResizeLeased | src/utils/BufferProvider/include/BufferLock.h:45-51 | A lock of the pool resizes no other buffer and keeps the invariant |
| BufferPool.Buffer.Resize | src/utils/BufferProvider/src/Buffer.cpp:31-35 | The size is the data's length; bytes up to it are kept, new ones are zero |
| BufferPool.Buffer.Reset | src/utils/BufferProvider/src/Buffer.cpp:37-40 | Size 0, data kept |
| BufferPool.Buffer.constructor | src/utils/BufferProvider/src/Buffer.cpp:7-11 | An idle buffer of zeros |
| Messages.Message.constructor | src/utils/Net/src/Message.cpp:22-29 | The header describes the payload |
| Messages.Message.CountPayloadCRC | src/utils/Net/src/Message.cpp:55-59 | Stores the length in 32 bits and no checksum |
| Messages.Message.CountHeaderCRC | src/utils/Net/src/Message.cpp:61-64 | Stores no checksum |
| Messages.Message.Gather | src/utils/Net/src/Session.cpp:342-353 | Header and payload in one stream, also after the payload was changed: it decodes to the message if and only if the header still tells the length and passes the checks; for a payload left alone it is the frame, and decodes to it if and only if the payload fits |
| Messages.MetaMessage.FitToSize | src/utils/Net/src/MetaMessage.cpp:12-15 | The payload has the announced size |
| Messages.MetaMessage.IsEmpty | src/utils/Net/src/MetaMessage.cpp:17-20 | Tells an announced size of 0 |
| Messages.MetaMessage.VerifyHeader | src/utils/Net/src/MetaMessage.cpp:22-35 | Accepts exactly checksum 0 |
| Messages.MetaMessage.VerifyBody | src/utils/Net/src/MetaMessage.cpp:37-40 | Accepts exactly checksum 0 |
| Messages.TakeFrame | src/utils/Net/src/Session.cpp:237-298 | The checks on one frame accept exactly what the decoder accepts, and keep its payload |

## Left out

- TLS, certificates, name resolution, socket options and the asio scheduler: library code; a session's stream is a plain FIFO of bytes.
- Checksum computation: the source stubs it to 0 on both sides; the model checks against 0.
- ClientHTTPSession: a session with a plain FIFO queue and no framing; it would only add easy members.
- Client::request and its connect timeout, and a bare cancelAllPendingOperations from outside close(): a bare cancel leaves a session open after an aborted write, so the writer's properties do not extend to it.
- Data races inside one public call, such as two threads testing isConnected_ at once: calls are single steps.
- The gap between free() and reset() in ~BufferLock, which runs outside the pool's mutex: release is one step.
- A read on a closed socket that still finds decrypted bytes buffered: an operation started on a closed socket ends with an error.
- A payload changed after send(), in the session's runs: `Messages.Message.Gather` covers it for one message.
- The failed set_option that open() could throw on a closed socket, and logging.
- ThreadPool, SharedCreator, RandomNumberGenerator (its output is any integer), the main programs, protobuf and build files.
- The length of the periodic Timer's waits: the model starts a wait and lets it end, without a clock.
- A receive or open handler that calls back into the session: such calls are separate steps right after it; only the periodic timer's handler calling cancel() is modelled inside the call, its calling shedule() is a separate step too.
