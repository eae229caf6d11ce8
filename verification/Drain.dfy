/** Left to themselves, two sessions come to rest: every internal event lowers a measure in
    which a Ping outweighs the Pong it causes and a Pong causes nothing. The measure goes by
    bytes, so it holds for any payloads, even those that a reader takes for frames. */
module Drain {
  import opened Asio
  import opened Wire
  import opened WriteQueue
  import opened SessionModel
  import opened StrandView
  import opened SessionReader
  import opened SessionInvariant
  import opened Network
  import opened Traffic
  import ReadTimer

  /** Everything but calls by the application and expiring waits. */
  predicate Internal(e: Event) {
    !e.OpenCall? && !e.SendCall? && !e.CloseCall? && !e.WaitExpires?
  }

  // ----- weights

  /** The bytes that may be the type of a Ping: its value is 2. */
  function Twos(bytes: seq<Byte>): nat {
    if bytes == [] then 0 else (if bytes[0] == 2 then 1 else 0) + Twos(bytes[1..])
  }

  /** Bytes on their way: a step each at three places, and for each 2 the Pong it may bring. */
  function BytesWeight(bytes: seq<Byte>): nat {
    7 * |bytes| + 91 * Twos(bytes)
  }

  /** A message from its asyncWrite task on. */
  function WriteWeight(f: Frame): nat {
    6 + BytesWeight(EncodeFrame(f))
  }

  function QueueWeight(fs: seq<Frame>): nat {
    if fs == [] then 0 else 1 + WriteWeight(fs[0]) + QueueWeight(fs[1..])
  }

  /** The head of the queue is accounted for by its write. */
  function Queued(q: seq<Frame>): nat {
    if q == [] then 0 else 1 + QueueWeight(q[1..])
  }

  function TaskWeight(t: Task): nat {
    match t
    case AsyncHandshake => 11
    case HandshakeDone(_) => 9
    case CancelOps => 1
    case CloseSocket => 1
    case AsyncWrite(f) => WriteWeight(f)
    case Written(_, _) => 4
    case HeaderRead(_, error) => if error.Ok? then 5 + 5 * HEADER_SIZE else 5
    case BodyRead(_, body, _) => 5 + 5 * |body|
  }

  function StrandWeight(ts: seq<Task>): nat {
    if ts == [] then 0 else TaskWeight(ts[0]) + StrandWeight(ts[1..])
  }

  /** The bytes still to be emitted. */
  function RestWeight(bytes: seq<Byte>, emitted: nat): nat {
    if emitted <= |bytes| then BytesWeight(bytes[emitted..]) else 0
  }

  function WriteOpWeight(op: WriteOp): nat {
    5 + RestWeight(EncodeFrame(op.message), op.emitted)
  }

  function WriteOpsWeight(ops: seq<WriteOp>): nat {
    if ops == [] then 0 else WriteOpWeight(ops[0]) + WriteOpsWeight(ops[1..])
  }

  function ReadOpsWeight(ops: seq<ReadOp>): nat {
    if ops == [] then 0 else 6 + 5 * |ops[0].got| + ReadOpsWeight(ops[1..])
  }

  function TimerTaskWeight(t: ReadTimer.Task): nat {
    if t.Expire? then 184 else 1
  }

  function TimerWeight(ts: seq<ReadTimer.Task>): nat {
    if ts == [] then 0 else TimerTaskWeight(ts[0]) + TimerWeight(ts[1..])
  }

  /** What one session still has to do on its own account. */
  function Load(s: Session): nat {
    StrandWeight(s.strand) + Queued(s.writer.queue)
    + WriteOpsWeight(s.writer.ops) + ReadOpsWeight(s.reader.ops) + |s.reader.inbox|
    + (if s.life.handshake.Some? then 10 else 0)
    + TimerWeight(s.timer.tasks) + 185 * |s.timer.fired|
  }

  /** Load, plus what it has put on its stream, minus what it has taken from the other. */
  function Balance(s: Session): int {
    Load(s) + 6 * |s.writer.wire| + 91 * Twos(s.writer.wire)
    - 6 * |s.reader.received| - 91 * Count(s.reader.decoded, PING)
  }

  // ----- sums

  lemma {:induction false} StrandWeightPosted(ts: seq<Task>, t: Task)
    ensures StrandWeight(ts + [t]) == StrandWeight(ts) + TaskWeight(t)
  {
    if ts == [] {
      assert ts + [t] == [t] && [t][1..] == [];
    } else {
      assert (ts + [t])[1..] == ts[1..] + [t];
      StrandWeightPosted(ts[1..], t);
    }
  }

  lemma {:induction false} TimerWeightPosted(ts: seq<ReadTimer.Task>, t: ReadTimer.Task)
    ensures TimerWeight(ts + [t]) == TimerWeight(ts) + TimerTaskWeight(t)
  {
    if ts == [] {
      assert ts + [t] == [t] && [t][1..] == [];
    } else {
      assert (ts + [t])[1..] == ts[1..] + [t];
      TimerWeightPosted(ts[1..], t);
    }
  }

  lemma {:induction false} TwosConcat(a: seq<Byte>, b: seq<Byte>)
    ensures Twos(a + b) == Twos(a) + Twos(b)
  {
    if a == [] {
      assert a + b == b;
    } else {
      assert (a + b)[1..] == a[1..] + b;
      TwosConcat(a[1..], b);
    }
  }

  lemma {:induction false} TwosOfTwo(bytes: seq<Byte>)
    requires |bytes| == 2
    ensures Twos(bytes) == (if bytes[0] == 2 then 1 else 0) + (if bytes[1] == 2 then 1 else 0)
  {
    var last := bytes[1..];
    assert last[0] == bytes[1] && last[1..] == [];
    assert Twos(last) == if bytes[1] == 2 then 1 else 0;
  }

  lemma {:induction false} TwosOfZeros(bytes: seq<Byte>)
    requires forall i :: 0 <= i < |bytes| ==> bytes[i] == 0
    ensures Twos(bytes) == 0
  {
    if bytes != [] {
      TwosOfZeros(bytes[1..]);
    }
  }

  lemma ControlEncoding(kind: UInt16)
    ensures EncodeFrame(Frame(kind, [])) == Encode16(0) + Encode32(0) + Encode32(0) + Encode16(kind)
  {
    var head := EncodeHeader(HeaderOf(Frame(kind, [])));
    assert head + [] == head;
  }

  lemma ZeroEncodings()
    ensures Twos(Encode16(0) + Encode32(0) + Encode32(0)) == 0
  {
    assert Encode16(0) == [0, 0] && Encode32(0) == [0, 0, 0, 0];
    TwosOfZeros([0, 0] + [0, 0, 0, 0] + [0, 0, 0, 0]);
  }

  /** The encoding of a control message holds nothing but its type. */
  lemma ControlWeighs(kind: UInt16)
    requires kind < 256
    ensures WriteWeight(Frame(kind, [])) == 90 + (if kind == PING then 91 else 0)
  {
    var front, back := Encode16(0) + Encode32(0) + Encode32(0), Encode16(kind);
    ControlEncoding(kind);
    TwosConcat(front, back);
    ZeroEncodings();
    TwosOfTwo(back);
  }

  lemma {:induction false} QueueWeightConcat(a: seq<Frame>, b: seq<Frame>)
    ensures QueueWeight(a + b) == QueueWeight(a) + QueueWeight(b)
  {
    if a == [] {
      assert a + b == b;
    } else {
      assert (a + b)[1..] == a[1..] + b;
      QueueWeightConcat(a[1..], b);
    }
  }

  lemma {:induction false} WriteOpsConcat(a: seq<WriteOp>, b: seq<WriteOp>)
    ensures WriteOpsWeight(a + b) == WriteOpsWeight(a) + WriteOpsWeight(b)
  {
    if a == [] {
      assert a + b == b;
    } else {
      assert (a + b)[1..] == a[1..] + b;
      WriteOpsConcat(a[1..], b);
    }
  }

  lemma {:induction false} WriteOpsSplit(ops: seq<WriteOp>, i: nat)
    requires i < |ops|
    ensures WriteOpsWeight(ops) == WriteOpsWeight(ops[..i]) + WriteOpWeight(ops[i]) + WriteOpsWeight(ops[i + 1..])
  {
    assert ops == ops[..i] + ops[i..];
    WriteOpsConcat(ops[..i], ops[i..]);
  }

  lemma WriteOpReplaced(ops: seq<WriteOp>, i: nat, op: WriteOp)
    requires i < |ops|
    ensures WriteOpsWeight(ops[i := op]) == WriteOpsWeight(ops) - WriteOpWeight(ops[i]) + WriteOpWeight(op)
  {
    var ops' := ops[i := op];
    WriteOpsSplit(ops, i);
    WriteOpsSplit(ops', i);
    assert ops'[..i] == ops[..i] && ops'[i + 1..] == ops[i + 1..];
  }

  lemma {:induction false} ReadOpsConcat(a: seq<ReadOp>, b: seq<ReadOp>)
    ensures ReadOpsWeight(a + b) == ReadOpsWeight(a) + ReadOpsWeight(b)
  {
    if a == [] {
      assert a + b == b;
    } else {
      assert (a + b)[1..] == a[1..] + b;
      ReadOpsConcat(a[1..], b);
    }
  }

  lemma {:induction false} ReadOpsSplit(ops: seq<ReadOp>, i: nat)
    requires i < |ops|
    ensures ReadOpsWeight(ops) == ReadOpsWeight(ops[..i]) + 6 + 5 * |ops[i].got| + ReadOpsWeight(ops[i + 1..])
  {
    assert ops == ops[..i] + ops[i..];
    ReadOpsConcat(ops[..i], ops[i..]);
  }

  lemma {:induction false} CancelledWritesWeigh(ops: seq<WriteOp>)
    ensures WriteOpsWeight(CancelWrites(ops)) == WriteOpsWeight(ops)
  {
    if ops != [] {
      assert CancelWrites(ops)[1..] == CancelWrites(ops[1..]);
      CancelledWritesWeigh(ops[1..]);
    }
  }

  lemma {:induction false} CancelledReadsWeigh(ops: seq<ReadOp>)
    ensures ReadOpsWeight(CancelReads(ops)) == ReadOpsWeight(ops)
  {
    if ops != [] {
      assert CancelReads(ops)[1..] == CancelReads(ops[1..]);
      CancelledReadsWeigh(ops[1..]);
    }
  }

  // ----- what the session's functions cost

  lemma CloseCosts(s: Session)
    ensures Balance(Close(s)) <= Balance(s) + 3
  {
    StrandWeightPosted(s.strand, CancelOps);
    StrandWeightPosted(s.strand + [CancelOps], CloseSocket);
    TimerWeightPosted(s.timer.tasks, ReadTimer.Cancel);
  }

  lemma SendCosts(s: Session, f: Frame)
    ensures Balance(Send(s, f)) == Balance(s) + 1 + WriteWeight(f)
  {
    var q := s.writer.queue;
    if q == [] {
      StrandWeightPosted(s.strand, AsyncWrite(f));
      assert Enqueue(q, f) == [f] && [f][1..] == [];
    } else if IsControl(f) {
      assert Enqueue(q, f)[1..] == [f] + q[1..];
      assert ([f] + q[1..])[1..] == q[1..];
    } else {
      assert Enqueue(q, f)[1..] == q[1..] + [f];
      QueueWeightConcat(q[1..], [f]);
      assert [f][1..] == [];
    }
  }

  lemma PostTimerCosts(s: Session, t: ReadTimer.Task)
    ensures Balance(PostTimer(s, t)) == Balance(s) + TimerTaskWeight(t)
  {
    TimerWeightPosted(s.timer.tasks, t);
  }

  lemma StartReadCosts(s: Session, head: Option<Head>)
    ensures Balance(StartRead(s, head)) == Balance(s) + 7
  {
    var op := ReadOp(head, [], false);
    ReadOpsConcat(s.reader.ops, [op]);
    assert [op][1..] == [];
    PostTimerCosts(s.(reader := s.reader.(ops := s.reader.ops + [op])), ReadTimer.Restart([]));
  }

  lemma RecordCosts(s: Session, bytes: seq<Byte>, f: Frame)
    ensures Balance(s.(reader := Record(s.reader, bytes, f))) == Balance(s) - (if f.kind == PING then 91 else 0)
  {
    CountConcat(s.reader.decoded, [f], PING);
    assert Count([f], PING) == if f.kind == PING then 1 else 0;
  }

  lemma HandleMessageCosts(s: Session, payload: seq<Byte>)
    ensures Balance(HandleMessage(s, payload)) <= Balance(s) + 1
  {
  }

  /** A dispatched Ping has left the account, which pays for its Pong. */
  lemma OnMessageCosts(s: Session, bytes: seq<Byte>, f: Frame)
    ensures Balance(OnMessageReceived(s, bytes, f)) <= Balance(s) + 1
  {
    var c := s.(reader := Record(s.reader, bytes, f));
    RecordCosts(s, bytes, f);
    if f.kind == PING {
      SendCosts(c, PongMessage);
      ControlWeighs(PONG);
    } else {
      HandleMessageCosts(c, f.payload);
    }
  }

  // ----- every internal event lowers the balance

  lemma HandshakeTasksDrain(s: Session)
    requires s.strand != [] && IsShake(s.strand[0])
    ensures Balance(RunTask(s)) < Balance(s)
  {
    var c := s.(strand := s.strand[1..]);
    match s.strand[0] {
      case AsyncHandshake =>
      case HandshakeDone(error) =>
        var d := c.(life := SetConnected(c.life).(phase := Done(error.Ok?)));
        assert Balance(d) == Balance(s) - 9;
        if error.Ok? {
          PostTimerCosts(d, ReadTimer.Stamp);
          StartReadCosts(PostTimer(d, ReadTimer.Stamp), None);
        } else {
          CloseCosts(d);
        }
    }
  }

  lemma CancelCosts(c: Session)
    ensures Balance(CancelOutstanding(c)) == Balance(c)
  {
    CancelledWritesWeigh(c.writer.ops);
    CancelledReadsWeigh(c.reader.ops);
  }

  lemma CloseSocketCosts(c: Session)
    ensures Balance(RunCloseSocket(c)) <= Balance(c)
  {
    CancelCosts(c.(writer := c.writer.(queue := [])));
  }

  lemma CancelTasksDrain(s: Session)
    requires s.strand != [] && (s.strand[0].CancelOps? || s.strand[0].CloseSocket?)
    ensures Balance(RunTask(s)) < Balance(s)
  {
    if s.strand[0].CancelOps? {
      CancelCosts(Dequeued(s));
    } else {
      CloseSocketCosts(Dequeued(s));
    }
  }

  lemma StartWriteDrains(s: Session)
    requires s.strand != [] && s.strand[0].AsyncWrite?
    ensures Balance(RunTask(s)) < Balance(s)
  {
    var f := s.strand[0].message;
    var op := WriteOp(f, 0, false);
    WriteOpsConcat(s.writer.ops, [op]);
    assert [op][1..] == [];
  }

  /** The next head gives up its place in the sum for the task that writes it. */
  lemma PopCosts(s: Session)
    ensures var d := s.(writer := s.writer.(queue := Popped(s.writer.queue)));
      Balance(d) <= Balance(s) && Balance(WriteNext(d)) <= Balance(s)
  {
    var q := s.writer.queue;
    if |q| > 1 {
      StrandWeightPosted(s.strand, AsyncWrite(q[1]));
      assert Queued(q) == 2 + WriteWeight(q[1]) + QueueWeight(q[1..][1..]);
    }
  }

  lemma WrittenDrains(s: Session)
    requires s.strand != [] && s.strand[0].Written?
    ensures Balance(RunTask(s)) < Balance(s)
  {
    var c := s.(strand := s.strand[1..]);
    assert Balance(c) == Balance(s) - 4;
    PopCosts(c);
    CloseCosts(c.(writer := c.writer.(queue := Popped(c.writer.queue))));
  }

  lemma EndReadingCosts(c: Session, why: Ending)
    ensures Balance(EndReading(c, why)) == Balance(c)
    ensures Balance(Close(EndReading(c, why))) <= Balance(c) + 3
  {
    CloseCosts(EndReading(c, why));
  }

  lemma NextReadCosts(c: Session, bytes: seq<Byte>, f: Frame)
    ensures Balance(ReadNext(OnMessageReceived(c, bytes, f))) <= Balance(c) + 8
  {
    OnMessageCosts(c, bytes, f);
    StartReadCosts(OnMessageReceived(c, bytes, f), None);
  }

  lemma AtReadHandlerCosts(s: Session)
    requires s.strand != []
    ensures Balance(AtReadHandler(s)) == Balance(s) - TaskWeight(s.strand[0]) + 1
  {
    PostTimerCosts(s.(strand := s.strand[1..]), ReadTimer.Cancel);
  }

  lemma TakeHeaderCosts(c: Session, head: Head)
    ensures Balance(TakeHeader(c, head)) <= Balance(c) + 8
  {
    EndReadingCosts(c, HeaderRejected);
    StartReadCosts(c, Some(head));
    NextReadCosts(c, head, Frame(DecodeHeader(head).kind, []));
  }

  lemma TakeBodyCosts(c: Session, head: Head, body: seq<Byte>)
    ensures Balance(TakeBody(c, head, body)) <= Balance(c) + 8
  {
    EndReadingCosts(c, BodyRejected);
    NextReadCosts(c, head + body, Frame(DecodeHeader(head).kind, body));
  }

  lemma EndedReadDrains(s: Session)
    requires s.strand != [] && IsRead(s.strand[0]) && !s.strand[0].error.Ok?
    ensures Balance(RunTask(s)) < Balance(s)
  {
    var c := AtReadHandler(s);
    AtReadHandlerCosts(s);
    if s.strand[0].error.Failed? {
      EndReadingCosts(c, ReadFailed);
      assert RunTask(s) == Close(EndReading(c, ReadFailed));
    } else {
      EndReadingCosts(c, ReadAborted);
      assert RunTask(s) == EndReading(c, ReadAborted);
    }
  }

  /** A header task pays for what follows with the bytes of the header, a body task with those of
      its body, which is never empty. */
  lemma ReadTaskDrains(s: Session)
    requires s.strand != [] && IsRead(s.strand[0]) && s.strand[0].error.Ok?
    requires s.strand[0].BodyRead? ==> s.strand[0].body != []
    ensures Balance(RunTask(s)) < Balance(s)
  {
    var c, t := AtReadHandler(s), s.strand[0];
    AtReadHandlerCosts(s);
    if t.HeaderRead? {
      TakeHeaderCosts(c, t.head);
      assert RunTask(s) == TakeHeader(c, t.head);
    } else {
      TakeBodyCosts(c, t.head, t.body);
      assert RunTask(s) == TakeBody(c, t.head, t.body);
    }
  }

  lemma TaskDrains(s: Session)
    requires ReaderOk(s) && s.strand != []
    ensures Balance(RunTask(s)) < Balance(s)
  {
    var t := s.strand[0];
    if IsShake(t) {
      HandshakeTasksDrain(s);
    } else if IsWrite(t) {
      if t.AsyncWrite? {
        StartWriteDrains(s);
      } else {
        WrittenDrains(s);
      }
    } else if IsRead(t) {
      if t.error.Ok? {
        ReadTaskDrains(s);
      } else {
        EndedReadDrains(s);
      }
    } else {
      CancelTasksDrain(s);
    }
  }

  lemma TimerTaskDrains(s: Session, time: nat, period: int)
    requires s.timer.tasks != []
    ensures Balance(RunTimerTask(s, time, period)) < Balance(s)
  {
    var c := s.(timer := ReadTimer.RunTask(s.timer, time, period));
    assert Balance(c) == Balance(s) - TimerTaskWeight(s.timer.tasks[0]);
    match s.timer.tasks[0] {
      case Expire(chain) =>
        CloseCosts(c);
        SendCosts(c, PingMessage);
        ControlWeighs(PING);
        PostTimerCosts(Send(c, PingMessage), ReadTimer.Restart(chain + [time]));
      case _ =>
    }
  }

  /** A piece weighs more while it is to be emitted than on the wire. */
  lemma PieceWeighs(wire: seq<Byte>, bytes: seq<Byte>, emitted: nat, n: nat)
    requires emitted + n <= |bytes| && n >= 1
    ensures var wire' := wire + bytes[emitted..emitted + n];
      RestWeight(bytes, emitted + n) + 6 * |wire'| + 91 * Twos(wire')
      < RestWeight(bytes, emitted) + 6 * |wire| + 91 * Twos(wire)
  {
    var piece := bytes[emitted..emitted + n];
    assert bytes[emitted..] == piece + bytes[emitted + n..];
    TwosConcat(piece, bytes[emitted + n..]);
    TwosConcat(wire, piece);
  }

  /** What the operations of a writer and its wire weigh together. */
  function WriterWeight(w: Writer): nat {
    WriteOpsWeight(w.ops) + 6 * |w.wire| + 91 * Twos(w.wire)
  }

  lemma OnlyWriterWeighs(s: Session, w: Writer)
    requires w.queue == s.writer.queue
    ensures Balance(s.(writer := w)) - Balance(s) == WriterWeight(w) - WriterWeight(s.writer)
  {
  }

  lemma EmittedWeighs(w: Writer, i: nat, n: nat)
    requires i < |w.ops| && w.ops[i].emitted + n <= |EncodeFrame(w.ops[i].message)| && n >= 1
    ensures WriterWeight(Emit(w, i, n)) < WriterWeight(w)
  {
    var op := w.ops[i];
    WriteOpReplaced(w.ops, i, op.(emitted := op.emitted + n));
    PieceWeighs(w.wire, EncodeFrame(op.message), op.emitted, n);
  }

  lemma EmitDrains(s: Session, i: nat, n: nat)
    requires Enabled(s, BytesLeave(i, n))
    ensures Balance(s.(writer := Emit(s.writer, i, n))) < Balance(s)
  {
    OnlyWriterWeighs(s, Emit(s.writer, i, n));
    EmittedWeighs(s.writer, i, n);
  }

  lemma WriteDoneDrains(s: Session, i: nat, error: Outcome)
    requires i < |s.writer.ops|
    ensures Balance(WriteDone(s, i, error)) < Balance(s)
  {
    WriteOpsSplit(s.writer.ops, i);
    WriteOpsConcat(s.writer.ops[..i], s.writer.ops[i + 1..]);
    StrandWeightPosted(s.strand, Written(s.writer.ops[i].message, error));
  }

  lemma ArriveDrains(s: Session, i: nat, chunk: seq<Byte>)
    requires i < |s.reader.ops| && chunk != []
    ensures Balance(s.(reader := Arrive(s.reader, i, chunk))) < Balance(s)
  {
    var ops, op := s.reader.ops, s.reader.ops[i];
    var ops' := ops[i := op.(got := op.got + chunk)];
    ReadOpsSplit(ops, i);
    ReadOpsSplit(ops', i);
    assert ops'[..i] == ops[..i] && ops'[i + 1..] == ops[i + 1..];
  }

  lemma DoneTaskWeighs(op: ReadOp, error: Outcome)
    requires error.Ok? ==> |op.got| == Needed(op)
    ensures TaskWeight(DoneTask(op, error)) <= 5 + 5 * |op.got|
  {
  }

  lemma ReadDoneDrains(s: Session, i: nat, error: Outcome)
    requires Enabled(s, ReadEnds(i, error))
    ensures Balance(ReadDone(s, i, error)) < Balance(s)
  {
    ReadOpsSplit(s.reader.ops, i);
    ReadOpsConcat(s.reader.ops[..i], s.reader.ops[i + 1..]);
    StrandWeightPosted(s.strand, DoneTask(s.reader.ops[i], error));
    DoneTaskWeighs(s.reader.ops[i], error);
  }

  lemma TimedOutDrains(s: Session, i: nat)
    requires i < |s.timer.fired|
    ensures Balance(s.(timer := ReadTimer.TimedOut(s.timer, i))) < Balance(s)
  {
    TimerWeightPosted(s.timer.tasks, ReadTimer.Expire(s.timer.fired[i].chain));
  }

  /** Each internal event of a session, failures included, lowers its balance. */
  lemma InternalDrains(s: Session, e: Event)
    requires ReaderOk(s) && Enabled(s, e) && Internal(e)
    ensures Balance(Apply(s, e)) < Balance(s)
  {
    match e {
      case TaskRuns => TaskDrains(s);
      case HandshakeEnds(error) => StrandWeightPosted(s.strand, HandshakeDone(error));
      case BytesLeave(i, n) => EmitDrains(s, i, n);
      case WriteEnds(i, error) => WriteDoneDrains(s, i, error);
      case BytesArrive(i, chunk) => ArriveDrains(s, i, chunk);
      case ReadEnds(i, error) => ReadDoneDrains(s, i, error);
      case PayloadHandedOver =>
      case TimerTaskRuns(time, period) => TimerTaskDrains(s, time, period);
      case TimeOutHandled(i) => TimedOutDrains(s, i);
    }
  }

  // ----- termination

  predicate AllInternal(ms: seq<Move>) {
    forall m :: m in ms ==> Internal(m.event)
  }

  /** The whole system's measure. */
  function Potential(y: System): int {
    Balance(y.left) + Balance(y.right)
  }

  /** Every decoded Ping shows in the bytes, whatever they are. */
  lemma {:induction false} PingsAreTwos(bytes: seq<Byte>)
    ensures Count(Decode(bytes).frames, PING) <= Twos(bytes)
    decreases |bytes|
  {
    if Decode(bytes).frames != [] {
      var head, body, rest := FirstAccepted(bytes);
      var f := Frame(DecodeHeader(head).kind, body);
      DecodeNext(head, body, rest);
      CountConcat([f], Decode(rest).frames, PING);
      assert [f][1..] == [];
      PingsAreTwos(rest);
      TwosConcat(head + body, rest);
      TwosConcat(head, body);
      TypeIsTwo(head);
    }
  }

  lemma {:induction false} TypeIsTwo(head: Head)
    ensures DecodeHeader(head).kind == PING ==> Twos(head) >= 1
  {
    assert head == head[..10] + head[10..12];
    TwosConcat(head[..10], head[10..12]);
    TwosOfTwo(head[10..12]);
  }

  lemma {:induction false} TwosOfPrefix(a: seq<Byte>, b: seq<Byte>)
    requires a <= b
    ensures Twos(a) <= Twos(b)
  {
    assert b == a + b[|a|..];
    TwosConcat(a, b[|a|..]);
  }

  /** A reader has taken no more than its peer has put on the wire, in either account. */
  lemma TakenIsPut(s: Session, r: Session)
    requires ReaderOk(r) && Streams(s, r)
    ensures |r.reader.received| <= |s.writer.wire|
    ensures Count(r.reader.decoded, PING) <= Twos(s.writer.wire)
  {
    var frames := Decode(r.reader.received).frames;
    ReaderRefinesDecoder(r);
    assert frames == r.reader.decoded + frames[|r.reader.decoded|..];
    CountConcat(r.reader.decoded, frames[|r.reader.decoded|..], PING);
    PingsAreTwos(r.reader.received);
    TwosOfPrefix(r.reader.received, s.writer.wire);
  }

  /** Between a writer and the reader at the other end nothing weighs less than nothing. */
  lemma PotentialIsNatural(y: System)
    requires Joined(y)
    ensures Potential(y) >= 0
  {
    TakenIsPut(y.left, y.right);
    TakenIsPut(y.right, y.left);
  }

  lemma {:induction false} InternalRunDrains(y: System, ms: seq<Move>)
    requires Joined(y) && Network.Possible(y, ms) && AllInternal(ms)
    ensures Potential(Network.After(y, ms)) <= Potential(y) - |ms|
    decreases |ms|
  {
    if ms != [] {
      InternalDrains(At(y, ms[0].side), ms[0].event);
      StepKeepsJoined(y, ms[0]);
      InternalRunDrains(Step(y, ms[0]), ms[1..]);
    }
  }

  lemma {:induction false} DrainTerminatesFrom(y: System, more: seq<Move>)
    requires Joined(y) && Network.Possible(y, more) && AllInternal(more)
    ensures |more| <= Potential(y)
  {
    InternalRunDrains(y, more);
    RunKeepsJoined(y, more);
    PotentialIsNatural(Network.After(y, more));
  }

  /** Drain termination. From any state of any run, without further calls and without expiring
      waits, the system stops within a number of events known in advance, even if reads
      and writes fail on the way. */
  lemma {:induction false} DrainTerminates(left: Handlers, right: Handlers, ms: seq<Move>, more: seq<Move>)
    requires Network.Possible(Start(left, right), ms)
    requires Network.Possible(Network.After(Start(left, right), ms), more) && AllInternal(more)
    ensures |more| <= Potential(Network.After(Start(left, right), ms))
  {
    ReachableJoined(left, right, ms);
    DrainTerminatesFrom(Network.After(Start(left, right), ms), more);
  }
}
