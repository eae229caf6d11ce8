/** One Session as a state machine. The state holds the session's own fields, the tasks
    queued on its three strands, the asynchronous operations that are under way, and
    history. The functions down to HandleReadTimeOut are the session's own; the events
    below them add what boost::asio, the peer and the application may do. */
module SessionModel {
  import opened Asio
  import opened Wire
  import opened WriteQueue
  import ReadTimer

  /** The bytes of MetaMessage's header, which a header read overwrites from the front. */
  type Head = b: seq<Byte> | |b| == HEADER_SIZE witness seq(HEADER_SIZE, _ => 0)

  /** What can be queued on socketStrand_. */
  datatype Task =
    | AsyncHandshake
    | HandshakeDone(error: Outcome)
    | CancelOps
    | CloseSocket
    | AsyncWrite(message: Frame)
    | Written(message: Frame, error: Outcome)
    | HeaderRead(head: Head, error: Outcome)
    | BodyRead(head: Head, body: seq<Byte>, error: Outcome)

  datatype WriteOp = WriteOp(message: Frame, emitted: nat, cancelled: bool)

  /** A header read has no head yet; a body read has one. */
  datatype ReadOp = ReadOp(head: Option<Head>, got: seq<Byte>, cancelled: bool)

  /** Which of the three handlers passed to configure() can be called. */
  datatype Handlers = Handlers(open: bool, close: bool, receive: bool)

  datatype Notice = Opened | Closed
  datatype Phase = Fresh | Opening | Shaking | Done(ok: bool)
  datatype Ending = ReadFailed | ReadAborted | HeaderRejected | BodyRejected

  /** queue is writeQueue_. History: submitted holds the messages passed to send(),
      started those whose write began on an open socket, wire the bytes that left;
      broken tells that a write ended otherwise than well. */
  datatype Writer = Writer(queue: seq<Frame>, ops: seq<WriteOp>,
                           submitted: seq<Frame>, started: seq<Frame>, wire: seq<Byte>, broken: bool)

  /** inbox is what readStrand_ still has to hand over. History: received holds the bytes
      taken from the stream, consumed those of the frames in decoded, delivered the
      payloads the receive handler has had. */
  datatype Reader = Reader(ops: seq<ReadOp>, inbox: seq<seq<Byte>>,
                           received: seq<Byte>, consumed: seq<Byte>, decoded: seq<Frame>,
                           delivered: seq<seq<Byte>>, ended: Option<Ending>)

  /** connected is isConnected_. History: rises counts its changes to true, closes the close
      tasks posted, notices the calls of the open and close handlers. */
  datatype Life = Life(connected: bool, socketOpen: bool, handshake: Option<bool>,
                       phase: Phase, closedEarly: bool, rises: nat, closes: nat, notices: seq<Notice>)

  datatype Session = Session(handlers: Handlers, life: Life, strand: seq<Task>,
                             writer: Writer, reader: Reader, timer: ReadTimer.Timer)

  function Created(handlers: Handlers): Session {
    Session(handlers,
            Life(false, true, None, Fresh, false, 0, 0, []),
            [],
            Writer([], [], [], [], [], false),
            Reader([], [], [], [], [], [], None),
            ReadTimer.Fresh)
  }

  // ----- posting

  function Post(s: Session, t: Task): Session {
    s.(strand := s.strand + [t])
  }

  function PostTimer(s: Session, t: ReadTimer.Task): Session {
    s.(timer := ReadTimer.Post(s.timer, t))
  }

  function CancelAllPendingOperations(s: Session): Session {
    Post(s, CancelOps)
  }

  function CancelReadTimer(s: Session): Session {
    PostTimer(s, ReadTimer.Cancel)
  }

  function RestartReadTimer(s: Session, chain: seq<nat>): Session {
    PostTimer(s, ReadTimer.Restart(chain))
  }

  // ----- lifecycle

  predicate BeforeHandshakeHandled(p: Phase) {
    p.Opening? || p.Shaking?
  }

  function Close(s: Session): Session {
    var c := CancelReadTimer(CancelAllPendingOperations(s));
    if !s.life.connected then c
    else
      Post(c.(life := c.life.(connected := false, closes := c.life.closes + 1,
                              closedEarly := c.life.closedEarly || BeforeHandshakeHandled(c.life.phase))),
           CloseSocket)
  }

  function SetConnected(l: Life): Life {
    l.(connected := true, rises := if l.connected then l.rises else l.rises + 1)
  }

  function Open(s: Session): Session {
    if s.life.connected then s
    else Post(s.(life := SetConnected(s.life).(phase := Opening)), AsyncHandshake)
  }

  function StartHandshake(s: Session): Session {
    s.(life := s.life.(handshake := Some(false), phase := Shaking))
  }

  function HandleHandshake(s: Session, error: Outcome): Session {
    var c := s.(life := SetConnected(s.life).(phase := Done(error.Ok?)));
    match error
    case Ok =>
      var r := ReadNext(PostTimer(c, ReadTimer.Stamp));
      if s.handlers.open then r.(life := r.life.(notices := r.life.notices + [Opened])) else r
    case Failed => Close(c)
    case Aborted => c
  }

  function CancelWrites(ops: seq<WriteOp>): seq<WriteOp> {
    seq(|ops|, i requires 0 <= i < |ops| => ops[i].(cancelled := true))
  }

  function CancelReads(ops: seq<ReadOp>): seq<ReadOp> {
    seq(|ops|, i requires 0 <= i < |ops| => ops[i].(cancelled := true))
  }

  /** socket().cancel() and socket().close(): operations on an open socket become liable
      to end with operation_aborted. On a closed socket both change nothing. */
  function CancelOutstanding(s: Session): Session {
    if !s.life.socketOpen then s
    else s.(life := s.life.(handshake := if s.life.handshake.Some? then Some(true) else None),
            writer := s.writer.(ops := CancelWrites(s.writer.ops)),
            reader := s.reader.(ops := CancelReads(s.reader.ops)))
  }

  function RunCloseSocket(s: Session): Session {
    var c := CancelOutstanding(s.(writer := s.writer.(queue := [])));
    c.(life := c.life.(socketOpen := false,
                       notices := if s.handlers.close then c.life.notices + [Closed] else c.life.notices))
  }

  // ----- writing

  function WriteNext(s: Session): Session {
    if s.writer.queue == [] then s else Post(s, AsyncWrite(s.writer.queue[0]))
  }

  function Send(s: Session, f: Frame): Session {
    var queued := s.(writer := s.writer.(queue := Enqueue(s.writer.queue, f),
                                         submitted := s.writer.submitted + [f]));
    if s.writer.queue == [] then WriteNext(queued) else queued
  }

  const PingMessage := Frame(PING, [])
  const PongMessage := Frame(PONG, [])

  function StartWrite(s: Session, f: Frame): Session {
    s.(writer := s.writer.(ops := s.writer.ops + [WriteOp(f, 0, false)],
                           started := if s.life.socketOpen then s.writer.started + [f] else s.writer.started))
  }

  function Popped(q: seq<Frame>): seq<Frame> {
    if q == [] then [] else q[1..]
  }

  function HandleWrite(s: Session, error: Outcome): Session {
    var c := s.(writer := s.writer.(queue := Popped(s.writer.queue)));
    match error
    case Ok => WriteNext(c)
    case Failed => Close(c)
    case Aborted => c
  }

  // ----- reading

  function StartRead(s: Session, head: Option<Head>): Session {
    RestartReadTimer(s.(reader := s.reader.(ops := s.reader.ops + [ReadOp(head, [], false)])), [])
  }

  function ReadNext(s: Session): Session {
    StartRead(s, None)
  }

  /** handleMessage: only a connected session hands payloads over. */
  function HandleMessage(s: Session, payload: seq<Byte>): Session {
    if s.handlers.receive && s.life.connected
    then s.(reader := s.reader.(inbox := s.reader.inbox + [payload]))
    else s
  }

  /** History: one more frame has been read in full. */
  function Record(r: Reader, bytes: seq<Byte>, f: Frame): Reader {
    r.(consumed := r.consumed + bytes, decoded := r.decoded + [f])
  }

  function Dispatch(s: Session, f: Frame): Session {
    if INVALID < f.kind < LAST then
      if f.kind == PING then Send(s, PongMessage)
      else if f.kind != PONG then HandleMessage(s, f.payload)
      else s
    else s
  }

  function OnMessageReceived(s: Session, bytes: seq<Byte>, f: Frame): Session {
    Dispatch(s.(reader := Record(s.reader, bytes, f)), f)
  }

  function EndReading(s: Session, why: Ending): Session {
    s.(reader := s.reader.(ended := Some(why)))
  }

  /** A header has arrived: reject it, read its body, or dispatch an empty message. */
  function TakeHeader(c: Session, head: Head): Session {
    var h := DecodeHeader(head);
    if h.crc != 0 then Close(EndReading(c, HeaderRejected))
    else if h.size != 0 then StartRead(c, Some(head))
    else ReadNext(OnMessageReceived(c, head, Frame(h.kind, [])))
  }

  function TakeBody(c: Session, head: Head, body: seq<Byte>): Session {
    var h := DecodeHeader(head);
    if h.payloadCrc != 0 then Close(EndReading(c, BodyRejected))
    else ReadNext(OnMessageReceived(c, head + body, Frame(h.kind, body)))
  }

  function HandleReadHeader(s: Session, head: Head, error: Outcome): Session {
    var c := CancelReadTimer(s);
    match error
    case Ok => TakeHeader(c, head)
    case Failed => Close(EndReading(c, ReadFailed))
    case Aborted => EndReading(c, ReadAborted)
  }

  function HandleReadBody(s: Session, head: Head, body: seq<Byte>, error: Outcome): Session {
    var c := CancelReadTimer(s);
    match error
    case Ok => TakeBody(c, head, body)
    case Failed => Close(EndReading(c, ReadFailed))
    case Aborted => EndReading(c, ReadAborted)
  }

  // ----- keep-alive

  /** The task that handleReadTimeOut posts: give up, or ping and wait again. */
  function HandleReadTimeOut(s: Session, lost: bool, chain: seq<nat>): Session {
    if lost then Close(s) else RestartReadTimer(Send(s, PingMessage), chain)
  }

  // ----- running the strands

  /** What a task does once it has been taken off the strand. */
  function Handle(c: Session, t: Task): Session {
    match t
    case AsyncHandshake => StartHandshake(c)
    case HandshakeDone(error) => HandleHandshake(c, error)
    case CancelOps => CancelOutstanding(c)
    case CloseSocket => RunCloseSocket(c)
    case AsyncWrite(f) => StartWrite(c, f)
    case Written(_, error) => HandleWrite(c, error)
    case HeaderRead(head, error) => HandleReadHeader(c, head, error)
    case BodyRead(head, body, error) => HandleReadBody(c, head, body, error)
  }

  function Dequeued(s: Session): Session
    requires s.strand != []
  {
    s.(strand := s.strand[1..])
  }

  function RunTask(s: Session): Session
    requires s.strand != []
  {
    Handle(Dequeued(s), s.strand[0])
  }

  function RunTimerTask(s: Session, time: nat, period: int): Session
    requires s.timer.tasks != []
  {
    var c := s.(timer := ReadTimer.RunTask(s.timer, time, period));
    match s.timer.tasks[0]
    case Expire(chain) => HandleReadTimeOut(c, ReadTimer.ConnectionLost(s.timer, time), chain + [time])
    case _ => c
  }

  // ----- the environment: operations make progress and complete

  function Needed(op: ReadOp): nat {
    if op.head.None? then HEADER_SIZE else DecodeHeader(op.head.value).size
  }

  function Emit(w: Writer, i: nat, n: nat): Writer
    requires i < |w.ops| && w.ops[i].emitted + n <= |EncodeFrame(w.ops[i].message)|
  {
    var op := w.ops[i];
    w.(ops := w.ops[i := op.(emitted := op.emitted + n)],
       wire := w.wire + EncodeFrame(op.message)[op.emitted..op.emitted + n])
  }

  function WriteDone(s: Session, i: nat, error: Outcome): Session
    requires i < |s.writer.ops|
  {
    var w := s.writer;
    Post(s.(writer := w.(ops := w.ops[..i] + w.ops[i + 1..], broken := w.broken || !error.Ok?)),
         Written(w.ops[i].message, error))
  }

  function Arrive(r: Reader, i: nat, chunk: seq<Byte>): Reader
    requires i < |r.ops|
  {
    r.(ops := r.ops[i := r.ops[i].(got := r.ops[i].got + chunk)], received := r.received + chunk)
  }

  /** The header bytes in memory: those that arrived, then what the constructor left. */
  function Fill(got: seq<Byte>): Head {
    if |got| >= HEADER_SIZE then got[..HEADER_SIZE] else got + seq(HEADER_SIZE - |got|, _ => 0)
  }

  function ReadDone(s: Session, i: nat, error: Outcome): Session
    requires i < |s.reader.ops|
  {
    var r, op := s.reader, s.reader.ops[i];
    Post(s.(reader := r.(ops := r.ops[..i] + r.ops[i + 1..])),
         if op.head.None? then HeaderRead(Fill(op.got), error)
         else BodyRead(op.head.value, op.got, error))
  }

  function Deliver(r: Reader): Reader
    requires r.inbox != []
  {
    r.(inbox := r.inbox[1..], delivered := r.delivered + [r.inbox[0]])
  }

  datatype Event =
    | OpenCall
    | SendCall(payload: seq<Byte>)
    | CloseCall
    | TaskRuns
    | HandshakeEnds(error: Outcome)
    | BytesLeave(i: nat, n: nat)
    | WriteEnds(i: nat, error: Outcome)
    | BytesArrive(i: nat, chunk: seq<Byte>)
    | ReadEnds(i: nat, error: Outcome)
    | PayloadHandedOver
    | TimerTaskRuns(time: nat, period: int)
    | WaitExpires(time: nat, i: nat)
    | TimeOutHandled(i: nat)

  /** What can happen. An operation succeeds only while the socket is open, is aborted only
      if it was under way when the socket was cancelled or closed, and may fail any
      time. open() is called once (or again to no effect while connected); the
      application sends once its open handler has been called. Clocks do not run back. */
  predicate Enabled(s: Session, e: Event) {
    match e
    case OpenCall => s.life.phase.Fresh? || s.life.connected
    case SendCall(_) => s.life.phase == Done(true)
    case CloseCall => true
    case TaskRuns => s.strand != []
    case HandshakeEnds(error) =>
      && s.life.handshake.Some?
      && (error.Ok? ==> s.life.socketOpen)
      && (error.Aborted? ==> s.life.handshake.value)
    case BytesLeave(i, n) =>
      && i < |s.writer.ops| && s.life.socketOpen && 1 <= n
      && s.writer.ops[i].emitted + n <= |EncodeFrame(s.writer.ops[i].message)|
    case WriteEnds(i, error) =>
      && i < |s.writer.ops|
      && (error.Ok? ==> s.life.socketOpen && s.writer.ops[i].emitted == |EncodeFrame(s.writer.ops[i].message)|)
      && (error.Aborted? ==> s.writer.ops[i].cancelled)
    case BytesArrive(i, chunk) =>
      && i < |s.reader.ops| && s.life.socketOpen && chunk != []
      && |s.reader.ops[i].got| + |chunk| <= Needed(s.reader.ops[i])
    case ReadEnds(i, error) =>
      && i < |s.reader.ops|
      && (error.Ok? ==> s.life.socketOpen && |s.reader.ops[i].got| == Needed(s.reader.ops[i]))
      && (error.Aborted? ==> s.reader.ops[i].cancelled)
    case PayloadHandedOver => s.reader.inbox != []
    case TimerTaskRuns(time, period) => s.timer.tasks != [] && s.timer.now <= time
    case WaitExpires(time, i) =>
      i < |s.timer.armed| && s.timer.now <= time && s.timer.armed[i].deadline <= time
    case TimeOutHandled(i) => i < |s.timer.fired|
  }

  function Apply(s: Session, e: Event): Session
    requires Enabled(s, e)
  {
    match e
    case OpenCall => Open(s)
    case SendCall(payload) => Send(s, Frame(DATA, payload))
    case CloseCall => Close(s)
    case TaskRuns => RunTask(s)
    case HandshakeEnds(error) => Post(s.(life := s.life.(handshake := None)), HandshakeDone(error))
    case BytesLeave(i, n) => s.(writer := Emit(s.writer, i, n))
    case WriteEnds(i, error) => WriteDone(s, i, error)
    case BytesArrive(i, chunk) => s.(reader := Arrive(s.reader, i, chunk))
    case ReadEnds(i, error) => ReadDone(s, i, error)
    case PayloadHandedOver => s.(reader := Deliver(s.reader))
    case TimerTaskRuns(time, period) => RunTimerTask(s, time, period)
    case WaitExpires(time, i) => s.(timer := ReadTimer.Fire(s.timer, time, i))
    case TimeOutHandled(i) => s.(timer := ReadTimer.TimedOut(s.timer, i))
  }
}
