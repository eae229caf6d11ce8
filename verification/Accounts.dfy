/** Who posts what: every cancellation, close task and timer task is there for one cause, and every
    cause has its task. Over a run, what is queued and what has been run add up to the causes. */
module Accounts {
  import opened Asio
  import opened Sequences
  import opened Wire
  import opened SessionModel
  import opened StrandView
  import opened SessionLife
  import opened SessionInvariant
  import opened SessionTheorems
  import ReadTimer
  import SessionReader
  import Stamps

  /** The tasks that are accounted for: three of the socket's strand, three of the timer's. */
  datatype Kind = CancelOpsTask | CloseTask | WriteTask | CancelTask | StampTask | RestartTask

  predicate OfKind(t: Task, k: Kind) {
    (k.CancelOpsTask? && t.CancelOps?) || (k.CloseTask? && t.CloseSocket?) || (k.WriteTask? && t.AsyncWrite?)
  }

  predicate TimerOfKind(t: ReadTimer.Task, k: Kind) {
    (k.CancelTask? && t.Cancel?) || (k.StampTask? && t.Stamp?) || (k.RestartTask? && t.Restart?)
  }

  function InStrand(strand: seq<Task>, k: Kind): nat {
    if strand == [] then 0 else One(OfKind(strand[0], k)) + InStrand(strand[1..], k)
  }

  function InTimer(tasks: seq<ReadTimer.Task>, k: Kind): nat {
    if tasks == [] then 0 else One(TimerOfKind(tasks[0], k)) + InTimer(tasks[1..], k)
  }

  /** How many are queued. */
  function Queued(s: Session, k: Kind): nat {
    InStrand(s.strand, k) + InTimer(s.timer.tasks, k)
  }

  // ----- causes

  /** A completion that ended with an error other than an abort. */
  predicate Failed(t: Task) {
    match t
    case HandshakeDone(error) => error.Failed?
    case Written(_, error) => error.Failed?
    case HeaderRead(_, error) => error.Failed?
    case BodyRead(_, _, error) => error.Failed?
    case _ => false
  }

  /** A frame that fails its check: the header's, or the body's of a body that was read. */
  predicate Rejected(t: Task) {
    match t
    case HeaderRead(head, Ok) => DecodeHeader(head).crc != 0
    case BodyRead(head, _, Ok) => DecodeHeader(head).payloadCrc != 0
    case _ => false
  }

  predicate ReadGoesOn(t: Task) {
    IsRead(t) && t.error.Ok? && !Rejected(t)
  }

  /** An expiry more than 999 milliseconds after the last stamp. */
  predicate FindsLost(s: Session, e: Event) {
    Stamps.RunsExpiry(s, e) && e.time - ReadTimer.LastReadOrEpoch(s.timer) >= 1000000
  }

  predicate RunsTask(s: Session, e: Event) {
    e.TaskRuns? && s.strand != []
  }

  /** The session calls close(): for the application, for a failure, for a rejected frame, for a
      lost connection, and for nothing else. */
  predicate CallsClose(s: Session, e: Event) {
    || e.CloseCall?
    || (RunsTask(s, e) && (Failed(s.strand[0]) || Rejected(s.strand[0])))
    || FindsLost(s, e)
  }

  /** A message is sent while the queue is empty: by the application, in answer to a Ping, or by an
      expiry that pings. */
  predicate StartsWriter(s: Session, e: Event) {
    && s.writer.queue == []
    && (e.SendCall? || (RunsTask(s, e) && TakesPing(s.strand[0])) || (Stamps.RunsExpiry(s, e) && !FindsLost(s, e)))
  }

  /** A write that ended well leaves messages behind it in the queue. */
  predicate ContinuesWriter(s: Session, e: Event) {
    RunsTask(s, e) && s.strand[0].Written? && s.strand[0].error.Ok? && |s.writer.queue| > 1
  }

  /** A frame that passes its checks and is a Ping. */
  predicate TakesPing(t: Task) {
    match t
    case HeaderRead(head, Ok) =>
      var h := DecodeHeader(head); h.crc == 0 && h.size == 0 && h.kind == PING
    case BodyRead(head, _, Ok) =>
      var h := DecodeHeader(head); h.payloadCrc == 0 && h.kind == PING
    case _ => false
  }

  predicate Shakes(s: Session, e: Event) {
    RunsTask(s, e) && s.strand[0].HandshakeDone?
  }

  /** Each call of close() posts a cancellation of the operations and one of the timer; on a connected
      session also the close task. Each read handled cancels the timer. A handshake that ended well
      stamps it. Each read started restarts it, and so does each expiry that pings. A write is posted for a
      message sent to an empty queue, and after a write that ended well for the next in the queue. */
  function Caused(s: Session, e: Event, k: Kind): nat {
    match k
    case CancelOpsTask => One(CallsClose(s, e))
    case CloseTask => One(CallsClose(s, e) && (s.life.connected || Shakes(s, e)))
    case WriteTask => One(StartsWriter(s, e)) + One(ContinuesWriter(s, e))
    case CancelTask => One(CallsClose(s, e)) + One(RunsTask(s, e) && IsRead(s.strand[0]))
    case StampTask => One(RunsTask(s, e) && s.strand[0] == HandshakeDone(Ok))
    case RestartTask =>
      One(RunsTask(s, e) && (s.strand[0] == HandshakeDone(Ok) || ReadGoesOn(s.strand[0])))
      + One(Stamps.RunsExpiry(s, e) && !FindsLost(s, e))
  }

  function Ran(s: Session, e: Event, k: Kind): nat {
    if RunsTask(s, e) then One(OfKind(s.strand[0], k))
    else if e.TimerTaskRuns? && s.timer.tasks != [] then One(TimerOfKind(s.timer.tasks[0], k))
    else 0
  }

  // ----- posting

  lemma {:induction false} StrandPosted(strand: seq<Task>, t: Task, k: Kind)
    ensures InStrand(strand + [t], k) == InStrand(strand, k) + One(OfKind(t, k))
  {
    if strand == [] {
      assert strand + [t] == [t] && [t][1..] == [];
    } else {
      TailOfConcat(strand, [t]);
      StrandPosted(strand[1..], t, k);
    }
  }

  lemma {:induction false} TimerPosted(tasks: seq<ReadTimer.Task>, t: ReadTimer.Task, k: Kind)
    ensures InTimer(tasks + [t], k) == InTimer(tasks, k) + One(TimerOfKind(t, k))
  {
    if tasks == [] {
      assert tasks + [t] == [t] && [t][1..] == [];
    } else {
      TailOfConcat(tasks, [t]);
      TimerPosted(tasks[1..], t, k);
    }
  }

  lemma PostCounts(s: Session, t: Task, k: Kind)
    ensures Queued(Post(s, t), k) == Queued(s, k) + One(OfKind(t, k))
  {
    StrandPosted(s.strand, t, k);
  }

  lemma PostTimerCounts(s: Session, t: ReadTimer.Task, k: Kind)
    ensures Queued(PostTimer(s, t), k) == Queued(s, k) + One(TimerOfKind(t, k))
  {
    TimerPosted(s.timer.tasks, t, k);
  }

  /** What one call of close() posts. */
  function ByClose(s: Session, k: Kind): nat {
    match k
    case CancelOpsTask => 1
    case CloseTask => One(s.life.connected)
    case CancelTask => 1
    case _ => 0
  }

  lemma CloseCounts(s: Session, k: Kind)
    ensures Queued(Close(s), k) == Queued(s, k) + ByClose(s, k)
  {
    PostCounts(s, CancelOps, k);
    TimerPosted(s.timer.tasks, ReadTimer.Cancel, k);
    StrandPosted(s.strand + [CancelOps], CloseSocket, k);
  }

  lemma SendCounts(s: Session, f: Frame, k: Kind)
    ensures Queued(Send(s, f), k) == Queued(s, k) + One(k.WriteTask? && s.writer.queue == [])
  {
    StrandPosted(s.strand, AsyncWrite(f), k);
  }

  lemma StartReadCounts(s: Session, head: Option<Head>, k: Kind)
    ensures Queued(StartRead(s, head), k) == Queued(s, k) + One(k.RestartTask?)
  {
    TimerPosted(s.timer.tasks, ReadTimer.Restart([]), k);
  }

  lemma NextReadCounts(s: Session, bytes: seq<Byte>, f: Frame, k: Kind)
    ensures Queued(ReadNext(OnMessageReceived(s, bytes, f)), k) ==
      Queued(s, k) + One(k.RestartTask?) + One(k.WriteTask? && f.kind == PING && s.writer.queue == [])
  {
    SendCounts(s.(reader := Record(s.reader, bytes, f)), PongMessage, k);
    StartReadCounts(OnMessageReceived(s, bytes, f), None, k);
  }

  lemma EndReadingCounts(s: Session, why: Ending, k: Kind)
    ensures Queued(EndReading(s, why), k) == Queued(s, k)
    ensures Queued(Close(EndReading(s, why)), k) == Queued(s, k) + ByClose(s, k)
  {
    CloseCounts(EndReading(s, why), k);
  }

  // ----- the handlers

  /** What a read handler posts: always a cancellation of the timer, then a close() or a read. */
  function ByRead(s: Session, t: Task, k: Kind): nat {
    One(k.CancelTask?) + (if Failed(t) || Rejected(t) then ByClose(s, k) else 0)
    + One(ReadGoesOn(t) && k.RestartTask?) + One(TakesPing(t) && k.WriteTask? && s.writer.queue == [])
  }

  lemma TakeHeaderCounts(c: Session, head: Head, k: Kind)
    ensures Queued(TakeHeader(c, head), k) ==
      Queued(c, k) + (if DecodeHeader(head).crc != 0 then ByClose(c, k) else One(k.RestartTask?))
      + One(TakesPing(HeaderRead(head, Ok)) && k.WriteTask? && c.writer.queue == [])
  {
    var h := DecodeHeader(head);
    if h.crc != 0 {
      EndReadingCounts(c, HeaderRejected, k);
    } else if h.size != 0 {
      StartReadCounts(c, Some(head), k);
    } else {
      NextReadCounts(c, head, Frame(h.kind, []), k);
    }
  }

  lemma TakeBodyCounts(c: Session, head: Head, body: seq<Byte>, k: Kind)
    ensures Queued(TakeBody(c, head, body), k) ==
      Queued(c, k) + (if DecodeHeader(head).payloadCrc != 0 then ByClose(c, k) else One(k.RestartTask?))
      + One(TakesPing(BodyRead(head, body, Ok)) && k.WriteTask? && c.writer.queue == [])
  {
    var h := DecodeHeader(head);
    if h.payloadCrc != 0 {
      EndReadingCounts(c, BodyRejected, k);
    } else {
      NextReadCounts(c, head + body, Frame(h.kind, body), k);
    }
  }

  lemma HeaderCounts(s: Session, head: Head, error: Outcome, k: Kind)
    ensures Queued(HandleReadHeader(s, head, error), k) == Queued(s, k) + ByRead(s, HeaderRead(head, error), k)
  {
    var c := CancelReadTimer(s);
    PostTimerCounts(s, ReadTimer.Cancel, k);
    if error.Ok? {
      TakeHeaderCounts(c, head, k);
    } else if error.Failed? {
      EndReadingCounts(c, ReadFailed, k);
    } else {
      EndReadingCounts(c, ReadAborted, k);
    }
  }

  lemma BodyCounts(s: Session, head: Head, body: seq<Byte>, error: Outcome, k: Kind)
    ensures Queued(HandleReadBody(s, head, body, error), k) ==
      Queued(s, k) + ByRead(s, BodyRead(head, body, error), k)
  {
    var c := CancelReadTimer(s);
    PostTimerCounts(s, ReadTimer.Cancel, k);
    if error.Ok? {
      TakeBodyCounts(c, head, body, k);
    } else if error.Failed? {
      EndReadingCounts(c, ReadFailed, k);
    } else {
      EndReadingCounts(c, ReadAborted, k);
    }
  }

  lemma HandshakeCounts(s: Session, error: Outcome, k: Kind)
    ensures Queued(HandleHandshake(s, error), k) == Queued(s, k) +
      (if error.Ok? then One(k.StampTask?) + One(k.RestartTask?)
       else if error.Failed? then One(k.CancelOpsTask?) + One(k.CloseTask?) + One(k.CancelTask?)
       else 0)
  {
    var c := s.(life := SetConnected(s.life).(phase := Done(error.Ok?)));
    match error {
      case Ok =>
        PostTimerCounts(c, ReadTimer.Stamp, k);
        StartReadCounts(PostTimer(c, ReadTimer.Stamp), None, k);
      case Failed => CloseCounts(c, k);
      case Aborted =>
    }
  }

  lemma WrittenCounts(s: Session, error: Outcome, k: Kind)
    ensures Queued(HandleWrite(s, error), k) == Queued(s, k) + (if error.Failed? then ByClose(s, k) else 0)
      + One(error.Ok? && k.WriteTask? && |s.writer.queue| > 1)
  {
    var c := s.(writer := s.writer.(queue := Popped(s.writer.queue)));
    CloseCounts(c, k);
    if c.writer.queue != [] {
      PostCounts(c, AsyncWrite(c.writer.queue[0]), k);
    }
  }

  // ----- every event

  lemma TakenOff(s: Session, k: Kind)
    requires s.strand != []
    ensures Queued(s, k) == Queued(Dequeued(s), k) + One(OfKind(s.strand[0], k))
  {
  }

  lemma ReadTaskCounts(s: Session, k: Kind)
    requires s.strand != [] && IsRead(s.strand[0])
    ensures Queued(HandleRead(s), k) == Queued(s, k) + Caused(s, TaskRuns, k)
  {
    var c, t := Dequeued(s), s.strand[0];
    TakenOff(s, k);
    if t.HeaderRead? {
      HeaderCounts(c, t.head, t.error, k);
    } else {
      BodyCounts(c, t.head, t.body, t.error, k);
    }
  }

  lemma WrittenTaskCounts(s: Session, k: Kind)
    requires s.strand != [] && s.strand[0].Written?
    ensures Queued(HandleWrite(Dequeued(s), s.strand[0].error), k) == Queued(s, k) + Caused(s, TaskRuns, k)
  {
    TakenOff(s, k);
    WrittenCounts(Dequeued(s), s.strand[0].error, k);
  }

  lemma HandshakeTaskCounts(s: Session, k: Kind)
    requires s.strand != [] && s.strand[0].HandshakeDone?
    ensures Queued(HandleHandshake(Dequeued(s), s.strand[0].error), k) == Queued(s, k) + Caused(s, TaskRuns, k)
  {
    TakenOff(s, k);
    HandshakeCounts(Dequeued(s), s.strand[0].error, k);
  }

  lemma OtherTaskPostsNothing(s: Session)
    requires s.strand != [] && !IsRead(s.strand[0]) && !s.strand[0].Written? && !s.strand[0].HandshakeDone?
    ensures RunTask(s).strand == s.strand[1..] && RunTask(s).timer == s.timer
  {
  }

  lemma OtherTaskCounts(s: Session, k: Kind)
    requires s.strand != [] && !IsRead(s.strand[0]) && !s.strand[0].Written? && !s.strand[0].HandshakeDone?
    ensures Queued(RunTask(s), k) + One(OfKind(s.strand[0], k)) == Queued(s, k)
    ensures Caused(s, TaskRuns, k) == 0
  {
    OtherTaskPostsNothing(s);
    TakenOff(s, k);
  }

  lemma TaskCounts(s: Session, k: Kind)
    requires s.strand != []
    ensures Queued(RunTask(s), k) + One(OfKind(s.strand[0], k)) == Queued(s, k) + Caused(s, TaskRuns, k)
  {
    if IsRead(s.strand[0]) {
      ReadTaskCounts(s, k);
      assert RunTask(s) == HandleRead(s);
    } else if s.strand[0].Written? {
      WrittenTaskCounts(s, k);
    } else if s.strand[0].HandshakeDone? {
      HandshakeTaskCounts(s, k);
    } else {
      OtherTaskCounts(s, k);
    }
  }

  lemma TimerTaskCounts(s: Session, e: Event, k: Kind)
    requires Enabled(s, e) && e.TimerTaskRuns?
    ensures Queued(Apply(s, e), k) + Ran(s, e, k) == Queued(s, k) + Caused(s, e, k)
  {
    var c, t := s.(timer := ReadTimer.RunTask(s.timer, e.time, e.period)), s.timer.tasks[0];
    assert Queued(s, k) == Queued(c, k) + One(TimerOfKind(t, k));
    if t.Expire? {
      if FindsLost(s, e) {
        CloseCounts(c, k);
      } else {
        SendCounts(c, PingMessage, k);
        PostTimerCounts(Send(c, PingMessage), ReadTimer.Restart(t.chain + [e.time]), k);
      }
    }
  }

  lemma CallCounts(s: Session, e: Event, k: Kind)
    requires Enabled(s, e) && (e.OpenCall? || e.SendCall? || e.CloseCall?)
    ensures Queued(Apply(s, e), k) == Queued(s, k) + Caused(s, e, k)
  {
    match e {
      case OpenCall => PostCounts(s, AsyncHandshake, k);
      case SendCall(payload) => SendCounts(s, Frame(DATA, payload), k);
      case CloseCall => CloseCounts(s, k);
    }
  }

  lemma CompletionCounts(s: Session, e: Event, k: Kind)
    requires Enabled(s, e) && (e.HandshakeEnds? || e.WriteEnds? || e.ReadEnds? || e.TimeOutHandled?)
    ensures Queued(Apply(s, e), k) == Queued(s, k)
  {
    match e {
      case HandshakeEnds(error) => PostCounts(s, HandshakeDone(error), k);
      case WriteEnds(i, error) => PostCounts(s, Written(s.writer.ops[i].message, error), k);
      case ReadEnds(i, error) => PostCounts(s, SessionReader.DoneTask(s.reader.ops[i], error), k);
      case TimeOutHandled(i) => TimerPosted(s.timer.tasks, ReadTimer.Expire(s.timer.fired[i].chain), k);
    }
  }

  lemma EventCounts(s: Session, e: Event, k: Kind)
    requires Enabled(s, e)
    ensures Queued(Apply(s, e), k) + Ran(s, e, k) == Queued(s, k) + Caused(s, e, k)
  {
    if e.OpenCall? || e.SendCall? || e.CloseCall? {
      CallCounts(s, e, k);
    } else if e.HandshakeEnds? || e.WriteEnds? || e.ReadEnds? || e.TimeOutHandled? {
      CompletionCounts(s, e, k);
    } else if e.TaskRuns? {
      TaskCounts(s, k);
    } else if e.TimerTaskRuns? {
      TimerTaskCounts(s, e, k);
    }
  }

  // ----- runs

  function AllRan(s: Session, es: seq<Event>, k: Kind): nat
    requires Possible(s, es)
    decreases |es|
  {
    if es == [] then 0 else Ran(s, es[0], k) + AllRan(Apply(s, es[0]), es[1..], k)
  }

  function AllCaused(s: Session, es: seq<Event>, k: Kind): nat
    requires Possible(s, es)
    decreases |es|
  {
    if es == [] then 0 else Caused(s, es[0], k) + AllCaused(Apply(s, es[0]), es[1..], k)
  }

  lemma {:induction false} RunCounts(s: Session, es: seq<Event>, k: Kind)
    requires Possible(s, es)
    ensures Queued(After(s, es), k) + AllRan(s, es, k) == Queued(s, k) + AllCaused(s, es, k)
    decreases |es|
  {
    if es != [] {
      EventCounts(s, es[0], k);
      RunCounts(Apply(s, es[0]), es[1..], k);
    }
  }

  /** The books balance in every run of a session: the tasks of each kind that are queued and those
      that have run are as many as their causes. */
  lemma {:induction false} BooksBalance(handlers: Handlers, es: seq<Event>, k: Kind)
    requires Possible(Created(handlers), es)
    ensures var s := Created(handlers);
      Queued(After(s, es), k) + AllRan(s, es, k) == AllCaused(s, es, k)
  {
    RunCounts(Created(handlers), es, k);
  }

  // ----- what the cancelling tasks do

  /** An operation as far as it has come. */
  predicate SameWrite(op: WriteOp, op': WriteOp) {
    op'.message == op.message && op'.emitted == op.emitted
  }

  predicate SameRead(op: ReadOp, op': ReadOp) {
    op'.head == op.head && op'.got == op.got
  }

  /** Cancelling or closing an open socket leaves the operations under way as they are, and lets each
      of them end aborted. */
  lemma CancelledCanAbort(s: Session)
    requires s.life.socketOpen && s.strand != [] && (s.strand[0].CancelOps? || s.strand[0].CloseSocket?)
    ensures var d := RunTask(s);
      && |d.writer.ops| == |s.writer.ops| && |d.reader.ops| == |s.reader.ops|
      && (forall i: nat :: i < |s.writer.ops| ==>
            SameWrite(s.writer.ops[i], d.writer.ops[i]) && Enabled(d, WriteEnds(i, Aborted)))
      && (forall i: nat :: i < |s.reader.ops| ==>
            SameRead(s.reader.ops[i], d.reader.ops[i]) && Enabled(d, ReadEnds(i, Aborted)))
      && (s.life.handshake.Some? ==> Enabled(d, HandshakeEnds(Aborted)))
      && d.life.socketOpen == s.strand[0].CancelOps?
  {
  }

  // ----- without a receive handler

  predicate Deaf(s: Session) {
    !s.handlers.receive && s.reader.inbox == [] && s.reader.delivered == []
  }

  lemma DeafHeader(s: Session, head: Head, error: Outcome)
    requires Deaf(s)
    ensures Deaf(HandleReadHeader(s, head, error))
  {
  }

  lemma DeafBody(s: Session, head: Head, body: seq<Byte>, error: Outcome)
    requires Deaf(s)
    ensures Deaf(HandleReadBody(s, head, body, error))
  {
  }

  lemma DeafTask(s: Session)
    requires Deaf(s) && s.strand != []
    ensures Deaf(RunTask(s))
  {
    var t := s.strand[0];
    if t.HeaderRead? {
      DeafHeader(Dequeued(s), t.head, t.error);
    } else if t.BodyRead? {
      DeafBody(Dequeued(s), t.head, t.body, t.error);
    }
  }

  lemma DeafEvent(s: Session, e: Event)
    requires Deaf(s) && Enabled(s, e)
    ensures Deaf(Apply(s, e))
  {
    match e {
      case TaskRuns => DeafTask(s);
      case _ =>
    }
  }

  lemma {:induction false} DeafRun(s: Session, es: seq<Event>)
    requires Deaf(s) && Possible(s, es)
    ensures Deaf(After(s, es))
    decreases |es|
  {
    if es != [] {
      DeafEvent(s, es[0]);
      DeafRun(Apply(s, es[0]), es[1..]);
    }
  }

  /** A session without a receive handler hands nothing over, in any run. */
  lemma {:induction false} NothingForNobody(handlers: Handlers, es: seq<Event>)
    requires Possible(Created(handlers), es) && !handlers.receive
    ensures var r := After(Created(handlers), es).reader; r.inbox == [] && r.delivered == []
  {
    DeafRun(Created(handlers), es);
  }
}
