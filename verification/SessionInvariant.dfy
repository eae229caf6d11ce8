/** All invariants of one session together, kept by every event. */
module SessionInvariant {
  import opened Asio
  import opened Wire
  import opened WriteQueue
  import opened SessionModel
  import opened StrandView
  import opened SessionLife
  import opened SessionWriter
  import opened SessionReader
  import ReadTimer

  ghost predicate TimerOk(s: Session) {
    && ReadTimer.Ready(s.timer)
    && if s.life.phase == Done(true) then ReadTimer.Stamped(s.timer) else ReadTimer.Untouched(s.timer)
  }

  predicate ReadFailing(t: Task) {
    IsRead(t) && t.error.Failed?
  }

  /** A read that can only end in a failure that is not an abort. */
  predicate FailureComes(s: Session) {
    || (|s.reader.ops| == 1 && !s.reader.ops[0].cancelled)
    || (|Of(s.strand).reading| == 1 && ReadFailing(Of(s.strand).reading[0]))
  }

  /** The open handler has been called since the close handler last was. */
  predicate StillJoined(l: Life) {
    l.notices != [] && l.notices[|l.notices| - 1] == Opened
  }

  /** On an open socket the open handler has been called exactly if the handshake is done. A
      session that reported open on a socket already closed will report closed: its close task
      is queued, or its first read fails and makes it call close() while connected. */
  predicate LeaveComes(s: Session) {
    if s.life.socketOpen then
      s.life.notices == if s.life.phase == Done(true) && s.handlers.open then [Opened] else []
    else
      s.handlers.close && StillJoined(s.life) ==>
        Of(s.strand).closes > 0 || (s.life.connected && FailureComes(s))
  }

  /** Everything but the reader and its consequence. */
  ghost predicate Core(s: Session) {
    LifeOk(s) && WriterOk(s) && TimerOk(s)
  }

  ghost predicate Inv(s: Session) {
    Core(s) && ReaderOk(s) && LeaveComes(s)
  }

  lemma CreatedInv(handlers: Handlers)
    ensures Inv(Created(handlers))
  {
    assert DataOf([]) == [] && EncodeAll([]) == [];
  }

  // ----- the session's functions keep the core

  lemma PostTimerKeepsCore(s: Session, t: ReadTimer.Task)
    requires Core(s)
    requires t.Cancel? || (t.Restart? && s.life.phase == Done(true))
    ensures Core(PostTimer(s, t))
  {
    ReadTimer.PostKeepsReady(s.timer, t);
  }

  lemma CloseKeepsCore(s: Session)
    requires Core(s)
    ensures Core(Close(s))
    ensures s.life.connected ==> Of(Close(s).strand).closes > 0
    ensures Of(Close(s).strand).closes >= Of(s.strand).closes
    ensures Of(Close(s).strand).reading == Of(s.strand).reading
  {
    CloseKeepsLife(s);
    CloseKeepsWriter(s);
    ReadTimer.PostKeepsReady(s.timer, ReadTimer.Cancel);
    ClosePosts(s);
  }

  lemma SendKeepsCore(s: Session, f: Frame)
    requires Core(s) && s.life.phase == Done(true)
    ensures Core(Send(s, f))
  {
    SendKeepsWriter(s, f);
    SendFrame(s, f);
    FrameKeepsLife(s, Send(s, f));
  }

  lemma StartReadKeepsCore(s: Session, head: Option<Head>)
    requires Core(s) && s.life.phase == Done(true)
    ensures Core(StartRead(s, head))
  {
    var c := s.(reader := s.reader.(ops := s.reader.ops + [ReadOp(head, [], false)]));
    FrameKeepsLife(s, c);
    PostTimerKeepsCore(c, ReadTimer.Restart([]));
  }

  lemma OnMessageKeepsCore(s: Session, bytes: seq<Byte>, f: Frame)
    requires Core(s) && s.life.phase == Done(true)
    ensures Core(OnMessageReceived(s, bytes, f))
    ensures OnMessageReceived(s, bytes, f).life == s.life
  {
    var c := s.(reader := Record(s.reader, bytes, f));
    FrameKeepsLife(s, c);
    if f.kind == PING {
      SendKeepsCore(c, PongMessage);
    } else if f.kind == DATA {
      FrameKeepsLife(c, HandleMessage(c, f.payload));
    }
  }

  // ----- calls

  lemma CloseKeepsInv(s: Session)
    requires Inv(s)
    ensures Inv(Close(s))
  {
    CloseKeepsCore(s);
    CloseKeepsReader(s);
  }

  lemma SendKeepsInv(s: Session, f: Frame)
    requires Inv(s) && s.life.phase == Done(true)
    ensures Inv(Send(s, f))
  {
    SendKeepsCore(s, f);
    SendFrame(s, f);
    FrameKeepsReader(s, Send(s, f));
  }

  lemma OpenKeepsInv(s: Session)
    requires Inv(s) && Enabled(s, OpenCall)
    ensures Inv(Open(s))
  {
    if !s.life.connected {
      OpenKeepsLife(s);
      PostKeepsWriter(s, AsyncHandshake);
      OfPosted(s.strand, AsyncHandshake);
      FrameKeepsReader(s, Open(s));
    }
  }

  // ----- the tasks of the socket strand

  lemma StartHandshakeKeepsInv(s: Session)
    requires Inv(s) && s.strand != [] && s.strand[0].AsyncHandshake?
    ensures Inv(StartHandshake(Dequeued(s)))
  {
    StartHandshakeKeepsLife(s);
    FrameKeepsReader(s, StartHandshake(Dequeued(s)));
  }

  lemma HandleHandshakeKeepsInv(s: Session)
    requires Inv(s) && s.strand != [] && s.strand[0].HandshakeDone?
    ensures Inv(HandleHandshake(Dequeued(s), s.strand[0].error))
  {
    var error := s.strand[0].error;
    var c := Handled(s, error);
    HandledKeepsLife(s, error);
    if error.Ok? {
      HandshakeDoneKeepsInv(s);
    } else {
      assert Inv(c);
      CloseKeepsInv(c);
    }
  }

  lemma HandshakeDoneKeepsInv(s: Session)
    requires Inv(s) && s.strand != [] && s.strand[0] == HandshakeDone(Ok)
    ensures Inv(HandleHandshake(Dequeued(s), Ok))
  {
    HandledKeepsLife(s, Ok);
    var d := PostTimer(Handled(s, Ok), ReadTimer.Stamp);
    StampedKeepsCore(s);
    StartReadKeepsCore(d, None);
    assert Between(d) && Beyond(d.reader, []) by {
      assert Clean([], []);
    }
    StartReadKeepsReader(d, None);
    if s.handlers.open {
      NoticeKeepsInv(ReadNext(d));
    }
  }

  lemma StampedKeepsCore(s: Session)
    requires Core(s) && s.strand != [] && s.strand[0] == HandshakeDone(Ok) && LifeOk(Handled(s, Ok))
    requires s.life.phase.Shaking?
    ensures Core(PostTimer(Handled(s, Ok), ReadTimer.Stamp))
  {
    ReadTimer.PostKeepsReady(s.timer, ReadTimer.Stamp);
  }

  /** Calling the open handler: joined from here on, with a read just started. */
  lemma NoticeKeepsInv(r: Session)
    requires Core(r) && ReaderOk(r) && r.handlers.open && r.life.phase == Done(true)
    requires r.life.connected && |r.reader.ops| == 1 && !r.reader.ops[0].cancelled
    requires r.life.socketOpen ==> r.life.notices == []
    ensures Inv(r.(life := r.life.(notices := r.life.notices + [Opened])))
  {
    ClosedCountAppend(r.life.notices, Opened);
    FrameKeepsReader(r, r.(life := r.life.(notices := r.life.notices + [Opened])));
  }

  lemma CancelOpsKeepsInv(s: Session)
    requires Inv(s) && s.strand != [] && s.strand[0].CancelOps?
    ensures Inv(CancelOutstanding(Dequeued(s)))
  {
    CancelOpsKeepsLife(s);
    CancelOpsKeepsWriter(s);
    CancelKeepsReader(s);
    CancelKeepsRest(s);
  }

  lemma CloseSocketKeepsInv(s: Session)
    requires Inv(s) && s.strand != [] && s.strand[0].CloseSocket?
    ensures Inv(RunCloseSocket(Dequeued(s)))
  {
    CloseSocketKeepsLife(s);
    CloseSocketKeepsWriter(s);
    CancelKeepsReader(s);
    CancelKeepsRest(s);
  }

  lemma CancelKeepsRest(s: Session)
    requires TimerOk(s) && LeaveComes(s)
    requires s.strand != [] && (s.strand[0].CancelOps? || s.strand[0].CloseSocket?)
    ensures s.strand[0].CancelOps? ==> var d := CancelOutstanding(Dequeued(s)); TimerOk(d) && LeaveComes(d)
    ensures s.strand[0].CloseSocket? ==> var d := RunCloseSocket(Dequeued(s)); TimerOk(d) && LeaveComes(d)
  {
  }

  lemma StartWriteKeepsInv(s: Session)
    requires Inv(s) && s.strand != [] && s.strand[0].AsyncWrite?
    ensures Inv(StartWrite(Dequeued(s), s.strand[0].message))
  {
    StartWriteKeepsWriter(s, s.strand[0].message);
    LaterPhase(s);
    FrameKeepsLife(s, StartWrite(Dequeued(s), s.strand[0].message));
    FrameKeepsReader(s, StartWrite(Dequeued(s), s.strand[0].message));
  }

  /** A read or write task is queued only behind the start of the handshake. */
  lemma LaterPhase(s: Session)
    requires PhaseOk(s) && s.strand != [] && (IsRead(s.strand[0]) || IsWrite(s.strand[0]))
    ensures s.life.phase.Shaking? || s.life.phase.Done?
  {
    assert s.strand[0] in s.strand;
  }

  lemma HandleWriteKeepsInv(s: Session)
    requires Inv(s) && s.strand != [] && s.strand[0].Written?
    ensures Inv(HandleWrite(Dequeued(s), s.strand[0].error))
  {
    LaterPhase(s);
    HandleWriteKeepsWriter(s);
    HandleWriteKeepsRest(s);
  }

  lemma HandleWriteKeepsRest(s: Session)
    requires LifeOk(s) && TimerOk(s) && ReaderOk(s) && LeaveComes(s)
    requires s.strand != [] && s.strand[0].Written?
    ensures var d := HandleWrite(Dequeued(s), s.strand[0].error);
      LifeOk(d) && TimerOk(d) && ReaderOk(d) && LeaveComes(d)
  {
    var c := s.(strand := s.strand[1..], writer := s.writer.(queue := Popped(s.writer.queue)));
    LaterPhase(s);
    FrameKeepsLife(s, c);
    FrameKeepsReader(s, c);
    if s.strand[0].error.Failed? {
      CloseKeepsRest(c);
    } else if s.strand[0].error.Ok? && c.writer.queue != [] {
      PostWriteKeepsRest(c, c.writer.queue[0]);
    }
  }

  lemma PostWriteKeepsRest(c: Session, f: Frame)
    requires LifeOk(c) && TimerOk(c) && ReaderOk(c) && LeaveComes(c)
    requires c.life.phase.Shaking? || c.life.phase.Done?
    ensures var d := Post(c, AsyncWrite(f)); LifeOk(d) && TimerOk(d) && ReaderOk(d) && LeaveComes(d)
  {
    OfPosted(c.strand, AsyncWrite(f));
    FrameKeepsLife(c, Post(c, AsyncWrite(f)));
    FrameKeepsReader(c, Post(c, AsyncWrite(f)));
  }

  /** close() keeps what does not concern the writer. */
  lemma CloseKeepsRest(c: Session)
    requires LifeOk(c) && TimerOk(c) && ReaderOk(c) && LeaveComes(c)
    ensures var d := Close(c); LifeOk(d) && TimerOk(d) && ReaderOk(d) && LeaveComes(d)
  {
    CloseKeepsLife(c);
    CloseKeepsReader(c);
    ReadTimer.PostKeepsReady(c.timer, ReadTimer.Cancel);
    ClosePosts(c);
  }

  /** Running a read task. */
  function HandleRead(s: Session): Session
    requires s.strand != [] && IsRead(s.strand[0])
  {
    var t := s.strand[0];
    if t.HeaderRead? then HandleReadHeader(Dequeued(s), t.head, t.error)
    else HandleReadBody(Dequeued(s), t.head, t.body, t.error)
  }

  /** The state in which a read handler begins its work. */
  function AtReadHandler(s: Session): Session
    requires s.strand != []
  {
    CancelReadTimer(Dequeued(s))
  }

  lemma AtReadHandlerCore(s: Session)
    requires Core(s) && s.life.phase == Done(true) && s.strand != [] && IsRead(s.strand[0])
    ensures Core(AtReadHandler(s))
  {
    var c := s.(strand := s.strand[1..]);
    FrameKeepsLife(s, c);
    PostTimerKeepsCore(c, ReadTimer.Cancel);
  }

  lemma EndReadingKeepsCore(c: Session, why: Ending)
    requires Core(c) && c.life.phase == Done(true)
    ensures Core(EndReading(c, why)) && Core(Close(EndReading(c, why)))
  {
    FrameKeepsLife(c, EndReading(c, why));
    CloseKeepsCore(EndReading(c, why));
  }

  lemma NextReadKeepsCore(c: Session, bytes: seq<Byte>, f: Frame)
    requires Core(c) && c.life.phase == Done(true)
    ensures Core(ReadNext(OnMessageReceived(c, bytes, f)))
  {
    OnMessageKeepsCore(c, bytes, f);
    StartReadKeepsCore(OnMessageReceived(c, bytes, f), None);
  }

  lemma HandleReadHeaderKeepsCore(s: Session)
    requires Core(s) && s.life.phase == Done(true) && s.strand != [] && s.strand[0].HeaderRead?
    ensures Core(HandleReadHeader(Dequeued(s), s.strand[0].head, s.strand[0].error))
  {
    AtReadHandlerCore(s);
    var c, head := AtReadHandler(s), s.strand[0].head;
    match s.strand[0].error {
      case Ok =>
        var h := DecodeHeader(head);
        if h.crc != 0 {
          EndReadingKeepsCore(c, HeaderRejected);
        } else if h.size != 0 {
          StartReadKeepsCore(c, Some(head));
        } else {
          NextReadKeepsCore(c, head, Frame(h.kind, []));
        }
      case Failed => EndReadingKeepsCore(c, ReadFailed);
      case Aborted => EndReadingKeepsCore(c, ReadAborted);
    }
  }

  lemma HandleReadBodyKeepsCore(s: Session)
    requires Core(s) && s.life.phase == Done(true) && s.strand != [] && s.strand[0].BodyRead?
    ensures Core(HandleReadBody(Dequeued(s), s.strand[0].head, s.strand[0].body, s.strand[0].error))
  {
    AtReadHandlerCore(s);
    var c, head, body := AtReadHandler(s), s.strand[0].head, s.strand[0].body;
    match s.strand[0].error {
      case Ok =>
        if DecodeHeader(head).payloadCrc != 0 {
          EndReadingKeepsCore(c, BodyRejected);
        } else {
          NextReadKeepsCore(c, head + body, Frame(DecodeHeader(head).kind, body));
        }
      case Failed => EndReadingKeepsCore(c, ReadFailed);
      case Aborted => EndReadingKeepsCore(c, ReadAborted);
    }
  }

  /** Nothing but close() has touched the lifecycle. */
  predicate OnlyClosed(s: Session, d: Session) {
    && d.life == s.life.(connected := d.life.connected, closes := d.life.closes, closedEarly := d.life.closedEarly)
    && d.handlers == s.handlers
    && Of(d.strand).closes >= Of(s.strand).closes
  }

  lemma EndReadingLeaves(c: Session, why: Ending)
    ensures OnlyClosed(c, EndReading(c, why)) && OnlyClosed(c, Close(EndReading(c, why)))
    ensures c.life.connected ==> Of(Close(EndReading(c, why)).strand).closes > 0
  {
    ClosePosts(EndReading(c, why));
  }

  lemma NextReadLeaves(c: Session, bytes: seq<Byte>, f: Frame)
    ensures OnlyClosed(c, ReadNext(OnMessageReceived(c, bytes, f)))
  {
    OfPosted(c.strand, AsyncWrite(PongMessage));
  }

  lemma HeaderHandlerLeaves(s: Session)
    requires s.strand != [] && s.strand[0].HeaderRead?
    ensures OnlyClosed(AtReadHandler(s), HandleRead(s))
    ensures s.strand[0].error.Failed? && s.life.connected ==> Of(HandleRead(s).strand).closes > 0
  {
    var c, head := AtReadHandler(s), s.strand[0].head;
    match s.strand[0].error {
      case Ok =>
        EndReadingLeaves(c, HeaderRejected);
        NextReadLeaves(c, head, Frame(DecodeHeader(head).kind, []));
      case Failed => EndReadingLeaves(c, ReadFailed);
      case Aborted => EndReadingLeaves(c, ReadAborted);
    }
  }

  lemma BodyHandlerLeaves(s: Session)
    requires s.strand != [] && s.strand[0].BodyRead?
    ensures OnlyClosed(AtReadHandler(s), HandleRead(s))
    ensures s.strand[0].error.Failed? && s.life.connected ==> Of(HandleRead(s).strand).closes > 0
  {
    var c, head, body := AtReadHandler(s), s.strand[0].head, s.strand[0].body;
    match s.strand[0].error {
      case Ok =>
        EndReadingLeaves(c, BodyRejected);
        NextReadLeaves(c, head + body, Frame(DecodeHeader(head).kind, body));
      case Failed => EndReadingLeaves(c, ReadFailed);
      case Aborted => EndReadingLeaves(c, ReadAborted);
    }
  }

  lemma ReadTaskKeepsLeave(s: Session)
    requires LeaveComes(s) && s.strand != [] && IsRead(s.strand[0])
    requires s.reader.ops == [] && |Of(s.strand).reading| == 1
    ensures LeaveComes(HandleRead(s))
  {
    assert OnlyClosed(s, AtReadHandler(s));
    if s.strand[0].HeaderRead? {
      HeaderHandlerLeaves(s);
    } else {
      BodyHandlerLeaves(s);
    }
  }

  lemma HandleReadKeepsInv(s: Session)
    requires Inv(s) && s.strand != [] && IsRead(s.strand[0])
    ensures Inv(HandleRead(s))
  {
    ReadTaskKeepsLeave(s);
    if s.strand[0].HeaderRead? {
      HandleReadHeaderKeepsReader(s);
      HandleReadHeaderKeepsCore(s);
    } else {
      HandleReadBodyKeepsReader(s);
      HandleReadBodyKeepsCore(s);
    }
  }

  lemma RunTaskKeepsInv(s: Session)
    requires Inv(s) && s.strand != []
    ensures Inv(RunTask(s))
  {
    match s.strand[0] {
      case AsyncHandshake => StartHandshakeKeepsInv(s);
      case HandshakeDone(_) => HandleHandshakeKeepsInv(s);
      case CancelOps => CancelOpsKeepsInv(s);
      case CloseSocket => CloseSocketKeepsInv(s);
      case AsyncWrite(_) => StartWriteKeepsInv(s);
      case Written(_, _) => HandleWriteKeepsInv(s);
      case HeaderRead(_, _) => HandleReadKeepsInv(s);
      case BodyRead(_, _, _) => HandleReadKeepsInv(s);
    }
  }

  // ----- completions and progress

  lemma HandshakeEndsKeepsInv(s: Session, error: Outcome)
    requires Inv(s) && Enabled(s, HandshakeEnds(error))
    ensures Inv(Apply(s, HandshakeEnds(error)))
  {
    HandshakeEndsKeepsLife(s, error);
    PostKeepsWriter(s, HandshakeDone(error));
    OfPosted(s.strand, HandshakeDone(error));
    FrameKeepsReader(s, Apply(s, HandshakeEnds(error)));
  }

  lemma BytesLeaveKeepsInv(s: Session, i: nat, n: nat)
    requires Inv(s) && Enabled(s, BytesLeave(i, n))
    ensures Inv(Apply(s, BytesLeave(i, n)))
  {
    var s' := Apply(s, BytesLeave(i, n));
    EmitKeepsWriter(s, i, n);
    assert NoneCancelled(s, s') by {
      assert s.writer.ops[i] in s.writer.ops;
    }
    FrameKeepsLife(s, s');
    FrameKeepsReader(s, s');
  }

  lemma WriteEndsKeepsInv(s: Session, i: nat, error: Outcome)
    requires Inv(s) && Enabled(s, WriteEnds(i, error))
    ensures Inv(Apply(s, WriteEnds(i, error)))
  {
    var s', op := WriteDone(s, i, error), s.writer.ops[i];
    assert op in s.writer.ops;
    WriteDoneKeepsWriter(s, i, error);
    OfPosted(s.strand, Written(op.message, error));
    FrameKeepsLife(s, s');
    FrameKeepsReader(s, s');
  }

  lemma BytesArriveKeepsInv(s: Session, i: nat, chunk: seq<Byte>)
    requires Inv(s) && Enabled(s, BytesArrive(i, chunk))
    ensures Inv(Apply(s, BytesArrive(i, chunk)))
  {
    var s' := Apply(s, BytesArrive(i, chunk));
    ArriveKeepsReader(s, i, chunk);
    assert NoneCancelled(s, s') by {
      assert s.reader.ops[i] in s.reader.ops;
    }
    FrameKeepsLife(s, s');
  }

  lemma ReadEndsKeepsInv(s: Session, i: nat, error: Outcome)
    requires Inv(s) && Enabled(s, ReadEnds(i, error))
    ensures Inv(Apply(s, ReadEnds(i, error)))
  {
    ReadDoneKeepsReader(s, i, error);
    ReadDoneKeepsCore(s, i, error);
    ReadDoneKeepsLeave(s, i, error);
  }

  lemma ReadDoneKeepsCore(s: Session, i: nat, error: Outcome)
    requires Core(s) && s.life.phase == Done(true) && i < |s.reader.ops|
    ensures Core(ReadDone(s, i, error))
  {
    var t := DoneTask(s.reader.ops[i], error);
    PostKeepsWriter(s, t);
    OfPosted(s.strand, t);
    FrameKeepsLife(s, ReadDone(s, i, error));
  }

  lemma ReadDoneKeepsLeave(s: Session, i: nat, error: Outcome)
    requires LeaveComes(s) && Enabled(s, ReadEnds(i, error))
    requires |s.reader.ops| == 1 && Of(s.strand).reading == []
    ensures LeaveComes(ReadDone(s, i, error))
  {
    OfPosted(s.strand, DoneTask(s.reader.ops[i], error));
  }

  lemma TimerTaskKeepsTimer(s: Session, time: nat, period: int)
    requires TimerOk(s) && Enabled(s, TimerTaskRuns(time, period))
    ensures TimerOk(s.(timer := ReadTimer.RunTask(s.timer, time, period)))
    ensures s.timer.tasks[0].Expire? ==> s.life.phase == Done(true)
  {
    assert s.timer.tasks[0] in s.timer.tasks;
    assert forall t :: t in s.timer.tasks[1..] ==> t in s.timer.tasks;
    ReadTimer.RunKeepsReady(s.timer, time, period);
  }

  lemma TimerTaskRunsKeepsInv(s: Session, time: nat, period: int)
    requires Inv(s) && Enabled(s, TimerTaskRuns(time, period))
    ensures Inv(Apply(s, TimerTaskRuns(time, period)))
  {
    var c := s.(timer := ReadTimer.RunTask(s.timer, time, period));
    TimerTaskKeepsTimer(s, time, period);
    TimerChangeKeepsInv(s, c.timer);
    match s.timer.tasks[0] {
      case Expire(chain) =>
        if ReadTimer.ConnectionLost(s.timer, time) {
          CloseKeepsInv(c);
        } else {
          SendKeepsInv(c, PingMessage);
          RestartKeepsInv(Send(c, PingMessage), chain + [time]);
        }
      case _ =>
    }
  }

  lemma RestartKeepsInv(s: Session, chain: seq<nat>)
    requires Inv(s) && s.life.phase == Done(true)
    ensures Inv(RestartReadTimer(s, chain))
  {
    ReadTimer.PostKeepsReady(s.timer, ReadTimer.Restart(chain));
    TimerChangeKeepsInv(s, ReadTimer.Post(s.timer, ReadTimer.Restart(chain)));
  }

  lemma TimerChangeKeepsInv(s: Session, t: ReadTimer.Timer)
    requires Inv(s) && TimerOk(s.(timer := t))
    ensures Inv(s.(timer := t))
  {
    FrameKeepsReader(s, s.(timer := t));
  }

  lemma TimerMovesKeepTimer(s: Session, e: Event)
    requires TimerOk(s) && Enabled(s, e) && (e.WaitExpires? || e.TimeOutHandled?)
    ensures TimerOk(Apply(s, e))
  {
    match e {
      case WaitExpires(time, i) => ReadTimer.FireKeepsReady(s.timer, time, i);
      case TimeOutHandled(i) => ReadTimer.TimedOutKeepsReady(s.timer, i);
    }
  }

  lemma TimerMovesKeepInv(s: Session, e: Event)
    requires Inv(s) && Enabled(s, e) && (e.WaitExpires? || e.TimeOutHandled?)
    ensures Inv(Apply(s, e))
  {
    TimerMovesKeepTimer(s, e);
    TimerChangeKeepsInv(s, Apply(s, e).timer);
  }

  lemma PayloadHandedOverKeepsInv(s: Session)
    requires Inv(s) && Enabled(s, PayloadHandedOver)
    ensures Inv(Apply(s, PayloadHandedOver))
  {
    DeliverKeepsReader(s);
  }

  /** Every event keeps every invariant, in every interleaving. */
  lemma ApplyKeepsInv(s: Session, e: Event)
    requires Inv(s) && Enabled(s, e)
    ensures Inv(Apply(s, e))
  {
    match e {
      case OpenCall => OpenKeepsInv(s);
      case SendCall(payload) => SendKeepsInv(s, Frame(DATA, payload));
      case CloseCall => CloseKeepsInv(s);
      case TaskRuns => RunTaskKeepsInv(s);
      case HandshakeEnds(error) => HandshakeEndsKeepsInv(s, error);
      case BytesLeave(i, n) => BytesLeaveKeepsInv(s, i, n);
      case WriteEnds(i, error) => WriteEndsKeepsInv(s, i, error);
      case BytesArrive(i, chunk) => BytesArriveKeepsInv(s, i, chunk);
      case ReadEnds(i, error) => ReadEndsKeepsInv(s, i, error);
      case PayloadHandedOver => PayloadHandedOverKeepsInv(s);
      case TimerTaskRuns(time, period) => TimerTaskRunsKeepsInv(s, time, period);
      case WaitExpires(_, _) => TimerMovesKeepInv(s, e);
      case TimeOutHandled(_) => TimerMovesKeepInv(s, e);
    }
  }

  // ----- what configure() passed

  lemma HandlersStayOnce(s: Session, e: Event)
    requires Enabled(s, e)
    ensures Apply(s, e).handlers == s.handlers
  {
  }
}
