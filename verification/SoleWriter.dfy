/** One write at a time, also between a close() and the running of its task: all the write tasks
    of the strand count, those behind a close task too. */
module SoleWriter {
  import opened Asio
  import opened Sequences
  import opened Wire
  import opened WriteQueue
  import opened SessionModel
  import opened StrandView
  import opened SessionTheorems
  import ReadTimer
  import SessionReader

  /** The writes that are posted, or completed and not handled yet. */
  function Writes(strand: seq<Task>): seq<Task> {
    if strand == [] then [] else (if IsWrite(strand[0]) then [strand[0]] else []) + Writes(strand[1..])
  }

  predicate WriteIsFor(t: Task, f: Frame) {
    IsWrite(t) && t.message == f
  }

  /** At most one write, and none for an empty queue; it is for the queue's head. */
  predicate AtMostOne(w: Writer, writes: seq<Task>) {
    && |writes| + |w.ops| <= (if w.queue == [] then 0 else 1)
    && (w.ops != [] ==> w.ops[0].message == w.queue[0])
    && (writes != [] ==> WriteIsFor(writes[0], w.queue[0]))
  }

  /** As long as no write has failed: one for a queue that is not empty, and it ends well. */
  predicate ExactlyOne(w: Writer, writes: seq<Task>) {
    && (w.queue != [] ==> |writes| + |w.ops| == 1)
    && (writes != [] && writes[0].Written? ==> writes[0].error.Ok?)
  }

  predicate Sole(w: Writer, writes: seq<Task>) {
    AtMostOne(w, writes) && (!w.broken ==> ExactlyOne(w, writes))
  }

  predicate SoleWrite(s: Session) {
    s.life.socketOpen ==> Sole(s.writer, Writes(s.strand))
  }

  lemma {:induction false} WritesPosted(strand: seq<Task>, t: Task)
    ensures Writes(strand + [t]) == Writes(strand) + (if IsWrite(t) then [t] else [])
  {
    if strand == [] {
      assert strand + [t] == [t] && [t][1..] == [];
    } else {
      TailOfConcat(strand, [t]);
      WritesPosted(strand[1..], t);
      Assoc(if IsWrite(strand[0]) then [strand[0]] else [], Writes(strand[1..]), if IsWrite(t) then [t] else []);
    }
  }

  // ----- the session's functions

  /** The same writer, and no more tasks for it. */
  predicate WriterFrame(s: Session, s': Session) {
    && s'.writer == s.writer && Writes(s'.strand) == Writes(s.strand)
    && (s'.life.socketOpen ==> s.life.socketOpen)
  }

  lemma CloseFrame(s: Session)
    ensures WriterFrame(s, Close(s))
  {
    WritesPosted(s.strand, CancelOps);
    WritesPosted(s.strand + [CancelOps], CloseSocket);
  }

  lemma SendKeepsSole(s: Session, f: Frame)
    requires SoleWrite(s)
    ensures SoleWrite(Send(s, f))
  {
    WritesPosted(s.strand, AsyncWrite(f));
    assert s.writer.queue != [] ==> Enqueue(s.writer.queue, f)[0] == s.writer.queue[0];
  }

  lemma OnMessageKeepsSole(s: Session, bytes: seq<Byte>, f: Frame)
    requires SoleWrite(s)
    ensures SoleWrite(OnMessageReceived(s, bytes, f))
  {
    SendKeepsSole(s.(reader := Record(s.reader, bytes, f)), PongMessage);
  }

  lemma EndFrame(s: Session, why: Ending)
    ensures WriterFrame(s, EndReading(s, why)) && WriterFrame(s, Close(EndReading(s, why)))
  {
    CloseFrame(EndReading(s, why));
  }

  lemma HeaderKeepsSole(s: Session, head: Head, error: Outcome)
    requires SoleWrite(s)
    ensures SoleWrite(HandleReadHeader(s, head, error))
  {
    var c := CancelReadTimer(s);
    match error {
      case Ok =>
        EndFrame(c, HeaderRejected);
        OnMessageKeepsSole(c, head, Frame(DecodeHeader(head).kind, []));
      case Failed => EndFrame(c, ReadFailed);
      case Aborted => EndFrame(c, ReadAborted);
    }
  }

  lemma BodyKeepsSole(s: Session, head: Head, body: seq<Byte>, error: Outcome)
    requires SoleWrite(s)
    ensures SoleWrite(HandleReadBody(s, head, body, error))
  {
    var c := CancelReadTimer(s);
    match error {
      case Ok =>
        EndFrame(c, BodyRejected);
        OnMessageKeepsSole(c, head + body, Frame(DecodeHeader(head).kind, body));
      case Failed => EndFrame(c, ReadFailed);
      case Aborted => EndFrame(c, ReadAborted);
    }
  }

  lemma HandshakeFrame(s: Session, error: Outcome)
    ensures WriterFrame(s, HandleHandshake(s, error))
  {
    CloseFrame(s.(life := SetConnected(s.life).(phase := Done(error.Ok?))));
  }

  lemma CancelKeepsSole(s: Session)
    requires SoleWrite(s)
    ensures SoleWrite(CancelOutstanding(s))
  {
  }

  lemma StartWriteKeepsSole(s: Session)
    requires SoleWrite(s) && s.strand != [] && s.strand[0].AsyncWrite?
    ensures SoleWrite(StartWrite(Dequeued(s), s.strand[0].message))
  {
    assert Writes(s.strand) == [s.strand[0]] + Writes(s.strand[1..]);
  }

  /** pop_front removes the message whose write is being handled. */
  lemma PopsTheWritten(s: Session)
    requires SoleWrite(s) && s.life.socketOpen && s.strand != [] && s.strand[0].Written?
    ensures s.writer.queue != [] && s.writer.queue[0] == s.strand[0].message
    ensures s.writer.ops == [] && Writes(s.strand[1..]) == []
    ensures !s.writer.broken ==> s.strand[0].error.Ok?
  {
    assert Writes(s.strand) == [s.strand[0]] + Writes(s.strand[1..]);
  }

  lemma WrittenKeepsSole(s: Session)
    requires SoleWrite(s) && s.strand != [] && s.strand[0].Written?
    ensures SoleWrite(HandleWrite(Dequeued(s), s.strand[0].error))
  {
    var c := Dequeued(s).(writer := s.writer.(queue := Popped(s.writer.queue)));
    if s.life.socketOpen {
      PopsTheWritten(s);
      if c.writer.queue != [] {
        WritesPosted(c.strand, AsyncWrite(c.writer.queue[0]));
      }
      CloseFrame(c);
    }
  }

  // ----- every event

  lemma OtherTaskKeepsSole(s: Session)
    requires SoleWrite(s) && s.strand != [] && !IsRead(s.strand[0]) && !IsWrite(s.strand[0])
    ensures SoleWrite(RunTask(s))
  {
    var c := Dequeued(s);
    assert Writes(s.strand) == Writes(c.strand);
    match s.strand[0] {
      case HandshakeDone(error) => HandshakeFrame(c, error);
      case CancelOps => CancelKeepsSole(c);
      case _ =>
    }
  }

  lemma TaskKeepsSole(s: Session)
    requires SoleWrite(s) && s.strand != []
    ensures SoleWrite(RunTask(s))
  {
    var t := s.strand[0];
    if t.HeaderRead? {
      HeaderKeepsSole(Dequeued(s), t.head, t.error);
    } else if t.BodyRead? {
      BodyKeepsSole(Dequeued(s), t.head, t.body, t.error);
    } else if t.AsyncWrite? {
      StartWriteKeepsSole(s);
    } else if t.Written? {
      WrittenKeepsSole(s);
    } else {
      OtherTaskKeepsSole(s);
    }
  }

  lemma EmitKeepsSole(s: Session, i: nat, n: nat)
    requires SoleWrite(s) && Enabled(s, BytesLeave(i, n))
    ensures SoleWrite(Apply(s, BytesLeave(i, n)))
  {
  }

  lemma WriteEndsKeepsSole(s: Session, i: nat, error: Outcome)
    requires SoleWrite(s) && Enabled(s, WriteEnds(i, error))
    ensures SoleWrite(Apply(s, WriteEnds(i, error)))
  {
    WritesPosted(s.strand, Written(s.writer.ops[i].message, error));
  }

  lemma OpenFrame(s: Session)
    ensures WriterFrame(s, Open(s))
  {
    WritesPosted(s.strand, AsyncHandshake);
  }

  lemma HandshakeEndsFrame(s: Session, error: Outcome)
    requires Enabled(s, HandshakeEnds(error))
    ensures WriterFrame(s, Apply(s, HandshakeEnds(error)))
  {
    WritesPosted(s.strand, HandshakeDone(error));
  }

  lemma ReadEndsFrame(s: Session, i: nat, error: Outcome)
    requires Enabled(s, ReadEnds(i, error))
    ensures WriterFrame(s, Apply(s, ReadEnds(i, error)))
  {
    WritesPosted(s.strand, SessionReader.DoneTask(s.reader.ops[i], error));
  }

  lemma TimerTaskKeepsSole(s: Session, time: nat, period: int)
    requires SoleWrite(s) && s.timer.tasks != []
    ensures SoleWrite(RunTimerTask(s, time, period))
  {
    var c := s.(timer := ReadTimer.RunTask(s.timer, time, period));
    CloseFrame(c);
    SendKeepsSole(c, PingMessage);
  }

  lemma EventKeepsSole(s: Session, e: Event)
    requires SoleWrite(s) && Enabled(s, e)
    ensures SoleWrite(Apply(s, e))
  {
    match e {
      case OpenCall => OpenFrame(s);
      case SendCall(payload) => SendKeepsSole(s, Frame(DATA, payload));
      case CloseCall => CloseFrame(s);
      case TaskRuns => TaskKeepsSole(s);
      case HandshakeEnds(error) => HandshakeEndsFrame(s, error);
      case BytesLeave(i, n) => EmitKeepsSole(s, i, n);
      case WriteEnds(i, error) => WriteEndsKeepsSole(s, i, error);
      case BytesArrive(_, _) =>
      case ReadEnds(i, error) => ReadEndsFrame(s, i, error);
      case PayloadHandedOver =>
      case TimerTaskRuns(time, period) => TimerTaskKeepsSole(s, time, period);
      case WaitExpires(_, _) =>
      case TimeOutHandled(_) =>
    }
  }

  lemma {:induction false} RunKeepsSole(s: Session, es: seq<Event>)
    requires SoleWrite(s) && Possible(s, es)
    ensures SoleWrite(After(s, es))
    decreases |es|
  {
    if es != [] {
      EventKeepsSole(s, es[0]);
      RunKeepsSole(Apply(s, es[0]), es[1..]);
    }
  }

  /** Single writer: until the close task runs there is at most one write posted, under way or
      completed, and it is for the queue's head; until a write has failed there is one exactly
      if the queue is not empty, and if it is completed it ended well. So handleWrite pops the
      message just written, also while a close() waits to take effect. At all times the queue
      has the shape of the three lanes. */
  lemma {:induction false} SingleWriter(handlers: Handlers, es: seq<Event>)
    requires Possible(Created(handlers), es)
    ensures var s := After(Created(handlers), es);
      var q, writes, ops := s.writer.queue, Writes(s.strand), s.writer.ops;
      && (s.life.socketOpen ==>
            && |writes| + |ops| <= 1
            && (writes != [] ==> q != [] && WriteIsFor(writes[0], q[0]))
            && (ops != [] ==> q != [] && ops[0].message == q[0])
            && (!s.writer.broken ==>
                  && (q != [] <==> |writes| + |ops| == 1)
                  && (writes != [] && writes[0].Written? ==> writes[0].error.Ok?)))
      && exists l :: ValidLanes(l) && Layout(l) == q
  {
    RunKeepsSole(Created(handlers), es);
    ReachableInv(handlers, es);
    ShapedIsThreeLanes(After(Created(handlers), es).writer.queue);
  }
}
