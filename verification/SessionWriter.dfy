/** The writer's invariant: one write at a time, always the queue's head, and an exact
    account of where every submitted message is. */
module SessionWriter {
  import opened Asio
  import opened Wire
  import opened WriteQueue
  import opened SessionModel
  import opened StrandView

  /** fs holds every message ever submitted, with the Data in the order of submission. */
  ghost predicate Balanced(w: Writer, fs: seq<Frame>) {
    DataOf(fs) == DataOf(w.submitted) && multiset(fs) == multiset(w.submitted)
  }

  /** What holds even after failures: the bytes on the wire are whole frames and at most one
      cut one, in the order the writes began, and their Data is what was sent first. */
  ghost predicate Sound(w: Writer) {
    && w.wire <= EncodeAll(w.started)
    && DataOf(w.started) <= DataOf(w.submitted)
    && multiset(w.started) <= multiset(w.submitted)
    && Shaped(w.queue)
  }

  predicate AtHead(w: Writer, f: Frame) {
    w.queue != [] && w.queue[0] == f
  }

  /** The head's write has begun; the rest of the queue is yet to be written. */
  ghost predicate InFlight(w: Writer, f: Frame) {
    && AtHead(w, f)
    && w.started != [] && w.started[|w.started| - 1] == f
    && Balanced(w, w.started + w.queue[1..])
  }

  ghost predicate Settled(w: Writer) {
    w.wire == EncodeAll(w.started) && !w.broken
  }

  ghost predicate Resting(w: Writer) {
    w.queue == [] && Settled(w) && Balanced(w, w.started)
  }

  ghost predicate Emitting(w: Writer, op: WriteOp) {
    && InFlight(w, op.message) && !w.broken
    && op.emitted <= |EncodeFrame(op.message)|
    && w.wire == EncodeAll(w.started[..|w.started| - 1]) + EncodeFrame(op.message)[..op.emitted]
  }

  ghost predicate TaskAccounted(w: Writer, t: Task) {
    match t
    case AsyncWrite(f) => AtHead(w, f) && Settled(w) && Balanced(w, w.started + w.queue)
    case Written(f, Ok) => InFlight(w, f) && Settled(w)
    case Written(f, Failed) => InFlight(w, f) && w.broken
    case _ => false
  }

  /** While the socket is open there is at most one write posted, under way or completed but
      not handled; none means that nothing is queued or that a close is on its way. */
  ghost predicate OneWrite(w: Writer, writing: seq<Task>, closing: bool) {
    if w.ops != [] then writing == [] && |w.ops| == 1 && Emitting(w, w.ops[0])
    else if writing != [] then |writing| == 1 && TaskAccounted(w, writing[0])
    else closing || Resting(w)
  }

  ghost predicate WriterOk(s: Session) {
    && Sound(s.writer)
    && (s.life.socketOpen ==> OneWrite(s.writer, Of(s.strand).writing, Of(s.strand).closes > 0))
  }

  // ----- bookkeeping

  lemma StartedIsSent(w: Writer, rest: seq<Frame>)
    requires Balanced(w, w.started + rest)
    ensures DataOf(w.started) <= DataOf(w.submitted)
    ensures multiset(w.started) <= multiset(w.submitted)
  {
    DataOfConcat(w.started, rest);
    assert multiset(w.started + rest) == multiset(w.started) + multiset(rest);
  }

  /** One more message, put where no Data follows it unless it is a control message. */
  lemma SubmitBalances(w: Writer, a: seq<Frame>, f: Frame, b: seq<Frame>)
    requires Balanced(w, a + b) && (IsControl(f) || b == [])
    ensures Balanced(w.(submitted := w.submitted + [f]), a + [f] + b)
  {
    DataOfConcat(w.submitted, [f]);
    DataOfInsert(a, f, b);
    MultisetInsert(a, f, b);
  }

  // where a message lands, as identities of sequences

  lemma HeadSplits(a: seq<Frame>, q: seq<Frame>, f: Frame)
    requires q != []
    ensures a + q == a + [q[0]] + q[1..]
    ensures a + ([q[0], f] + q[1..]) == a + [q[0]] + [f] + q[1..]
  {
    assert q == [q[0]] + q[1..];
    assert [q[0], f] == [q[0]] + [f];
  }

  lemma BackSplits(a: seq<Frame>, q: seq<Frame>, f: Frame)
    ensures a + q + [] == a + q
    ensures a + (q + [f]) == a + q + [f] + []
  {
  }

  lemma TailOfControl(a: seq<Frame>, q: seq<Frame>, f: Frame)
    requires q != [] && IsControl(f)
    ensures a + Enqueue(q, f)[1..] == a + [f] + q[1..]
  {
    assert Enqueue(q, f)[1..] == [f] + q[1..];
  }

  lemma TailOfOther(a: seq<Frame>, q: seq<Frame>, f: Frame)
    requires q != [] && !IsControl(f)
    ensures a + q[1..] + [] == a + q[1..]
    ensures a + Enqueue(q, f)[1..] == a + q[1..] + [f] + []
  {
    assert Enqueue(q, f)[1..] == q[1..] + [f];
  }

  lemma SubmitBeforeStart(w: Writer, f: Frame)
    requires Balanced(w, w.started + w.queue)
    ensures Balanced(w.(submitted := w.submitted + [f]), w.started + Enqueue(w.queue, f))
  {
    if w.queue != [] && IsControl(f) {
      HeadSplits(w.started, w.queue, f);
      SubmitBalances(w, w.started + [w.queue[0]], f, w.queue[1..]);
    } else {
      BackSplits(w.started, w.queue, f);
      SubmitBalances(w, w.started + w.queue, f, []);
    }
  }

  lemma SubmitAfterStart(w: Writer, f: Frame)
    requires w.queue != [] && Balanced(w, w.started + w.queue[1..])
    ensures Balanced(w.(submitted := w.submitted + [f]), w.started + Enqueue(w.queue, f)[1..])
  {
    if IsControl(f) {
      TailOfControl(w.started, w.queue, f);
      SubmitBalances(w, w.started, f, w.queue[1..]);
    } else {
      TailOfOther(w.started, w.queue, f);
      SubmitBalances(w, w.started + w.queue[1..], f, []);
    }
  }

  lemma ShapedSteps(q: seq<Frame>, f: Frame)
    requires Shaped(q)
    ensures Shaped(Enqueue(q, f)) && Shaped(Popped(q))
  {
    var e := Enqueue(q, f);
    if q != [] && IsControl(f) {
      assert forall i :: 2 <= i < |e| ==> e[i] == q[i - 1];
    }
  }

  // ----- the functions that touch the writer

  /** The same writer and the same tasks as far as the writer is concerned. */
  lemma FrameKeepsWriter(s: Session, s': Session)
    requires WriterOk(s) && s'.writer == s.writer && (s'.life.socketOpen ==> s.life.socketOpen)
    requires Of(s'.strand).writing == Of(s.strand).writing
    requires Of(s.strand).closes > 0 ==> Of(s'.strand).closes > 0
    ensures WriterOk(s')
  {
  }

  lemma PostKeepsWriter(s: Session, t: Task)
    requires WriterOk(s) && !IsWrite(t)
    ensures WriterOk(Post(s, t))
  {
    OfPosted(s.strand, t);
    FrameKeepsWriter(s, Post(s, t));
  }

  lemma SendKeepsSound(w: Writer, f: Frame)
    requires Sound(w)
    ensures Sound(w.(queue := Enqueue(w.queue, f), submitted := w.submitted + [f]))
  {
    ShapedSteps(w.queue, f);
    DataOfConcat(w.submitted, [f]);
  }

  lemma SendWhenIdle(s: Session, f: Frame)
    requires WriterOk(s) && s.life.socketOpen && s.writer.queue == []
    ensures var d := Send(s, f); OneWrite(d.writer, Of(d.strand).writing, Of(d.strand).closes > 0)
  {
    var w := s.writer;
    OfPosted(s.strand, AsyncWrite(f));
    if Of(s.strand).closes == 0 {
      assert w.started + w.queue == w.started;
      SubmitBeforeStart(w, f);
    }
  }

  lemma SubmitKeepsOneWrite(w: Writer, writing: seq<Task>, closing: bool, f: Frame)
    requires OneWrite(w, writing, closing) && w.queue != []
    ensures OneWrite(w.(queue := Enqueue(w.queue, f), submitted := w.submitted + [f]), writing, closing)
  {
    assert Enqueue(w.queue, f)[0] == w.queue[0];
    if w.ops != [] {
      SubmitAfterStart(w, f);
    } else if writing != [] {
      if writing[0].AsyncWrite? {
        SubmitBeforeStart(w, f);
      } else {
        SubmitAfterStart(w, f);
      }
    }
  }

  lemma SendBehindHead(s: Session, f: Frame)
    requires WriterOk(s) && s.life.socketOpen && s.writer.queue != []
    ensures var d := Send(s, f); OneWrite(d.writer, Of(d.strand).writing, Of(d.strand).closes > 0)
  {
    SubmitKeepsOneWrite(s.writer, Of(s.strand).writing, Of(s.strand).closes > 0, f);
  }

  lemma SendKeepsWriter(s: Session, f: Frame)
    requires WriterOk(s)
    ensures WriterOk(Send(s, f))
  {
    SendKeepsSound(s.writer, f);
    if s.life.socketOpen {
      if s.writer.queue == [] {
        SendWhenIdle(s, f);
      } else {
        SendBehindHead(s, f);
      }
    }
  }

  lemma CloseKeepsWriter(s: Session)
    requires WriterOk(s)
    ensures WriterOk(Close(s))
  {
    ClosePosts(s);
    FrameKeepsWriter(s, Close(s));
  }

  /** A close() that ends the writer: nothing is under way and nothing will start. */
  lemma CloseEndsWriter(s: Session)
    requires Sound(s.writer)
    requires s.life.socketOpen ==>
      s.writer.ops == [] && Of(s.strand).writing == [] && (s.life.connected || Of(s.strand).closes > 0)
    ensures WriterOk(Close(s))
  {
    ClosePosts(s);
  }

  lemma CancelledWrite(w: Writer, writing: seq<Task>, closing: bool)
    requires OneWrite(w, writing, closing)
    ensures OneWrite(w.(ops := CancelWrites(w.ops)), writing, closing)
  {
    if w.ops != [] {
      assert CancelWrites(w.ops) == [w.ops[0].(cancelled := true)];
    }
  }

  lemma DequeuedKeepsWriter(s: Session)
    requires WriterOk(s) && s.strand != [] && s.strand[0].CancelOps?
    ensures WriterOk(Dequeued(s))
  {
    assert Of(s.strand) == Before(CancelOps, Of(s.strand[1..]));
    FrameKeepsWriter(s, Dequeued(s));
  }

  lemma CancelOutstandingKeepsWriter(s: Session)
    requires WriterOk(s)
    ensures WriterOk(CancelOutstanding(s))
  {
    if s.life.socketOpen {
      CancelledWrite(s.writer, Of(s.strand).writing, Of(s.strand).closes > 0);
    }
  }

  lemma CancelOpsKeepsWriter(s: Session)
    requires WriterOk(s) && s.strand != [] && s.strand[0].CancelOps?
    ensures WriterOk(CancelOutstanding(Dequeued(s)))
  {
    DequeuedKeepsWriter(s);
    CancelOutstandingKeepsWriter(Dequeued(s));
  }

  lemma CloseSocketKeepsWriter(s: Session)
    requires WriterOk(s) && s.strand != [] && s.strand[0].CloseSocket?
    ensures WriterOk(RunCloseSocket(Dequeued(s)))
  {
  }

  // ----- the tasks and completions of the writer

  lemma StartKeepsSound(w: Writer, f: Frame)
    requires Sound(w) && TaskAccounted(w, AsyncWrite(f))
    ensures Sound(w.(started := w.started + [f])) && Balanced(w, w.started + [f] + w.queue[1..])
  {
    var started' := w.started + [f];
    assert w.started + w.queue == started' + w.queue[1..];
    StartedIsSent(w.(started := started'), w.queue[1..]);
    EncodeAllAppend(w.started, f);
  }

  lemma StartedEmits(w: Writer, f: Frame)
    requires Sound(w) && TaskAccounted(w, AsyncWrite(f))
    ensures Emitting(w.(started := w.started + [f], ops := w.ops + [WriteOp(f, 0, false)]), WriteOp(f, 0, false))
  {
    StartKeepsSound(w, f);
    assert (w.started + [f])[..|w.started|] == w.started;
    assert EncodeAll(w.started) + EncodeFrame(f)[..0] == EncodeAll(w.started);
  }

  lemma StartWriteKeepsWriter(s: Session, f: Frame)
    requires WriterOk(s) && s.strand != [] && s.strand[0] == AsyncWrite(f)
    ensures WriterOk(StartWrite(Dequeued(s), s.strand[0].message))
  {
    if s.life.socketOpen {
      assert Of(s.strand) == Before(s.strand[0], Of(s.strand[1..]));
      StartKeepsSound(s.writer, f);
      StartedEmits(s.writer, f);
    }
  }

  lemma PoppedKeepsSound(w: Writer)
    requires Sound(w)
    ensures Sound(w.(queue := Popped(w.queue)))
  {
    ShapedSteps(w.queue, PingMessage);
  }

  /** The state of a session that has just popped the message whose write has ended. */
  function AfterPop(s: Session): Session
    requires s.strand != []
  {
    s.(strand := s.strand[1..], writer := s.writer.(queue := Popped(s.writer.queue)))
  }

  lemma PopLeavesNoWrite(s: Session)
    requires WriterOk(s) && s.strand != [] && s.strand[0].Written? && s.life.socketOpen
    ensures var c, w := AfterPop(s), s.writer;
      && w.ops == [] && Of(c.strand).writing == [] && Of(c.strand).closes == Of(s.strand).closes
      && TaskAccounted(w, s.strand[0])
  {
    assert Of(s.strand) == Before(s.strand[0], Of(s.strand[1..]));
  }

  lemma NextWriteFollows(s: Session)
    requires WriterOk(s) && s.strand != [] && s.strand[0].Written? && s.strand[0].error.Ok? && s.life.socketOpen
    ensures var d := WriteNext(AfterPop(s)); OneWrite(d.writer, Of(d.strand).writing, Of(d.strand).closes > 0)
  {
    var w, c := s.writer, AfterPop(s);
    PopLeavesNoWrite(s);
    if c.writer.queue != [] {
      OfPosted(c.strand, AsyncWrite(c.writer.queue[0]));
    } else {
      assert w.started + w.queue[1..] == w.started;
    }
  }

  lemma HandleWriteKeepsWriter(s: Session)
    requires WriterOk(s) && s.strand != [] && s.strand[0].Written?
    requires s.life.socketOpen ==> s.life.connected || Of(s.strand).closes > 0
    ensures WriterOk(HandleWrite(Dequeued(s), s.strand[0].error))
  {
    PoppedKeepsSound(s.writer);
    if s.life.socketOpen {
      PopLeavesNoWrite(s);
    }
    match s.strand[0].error {
      case Ok =>
        if s.life.socketOpen {
          NextWriteFollows(s);
        }
      case Failed => CloseEndsWriter(AfterPop(s));
      case Aborted =>
    }
  }

  lemma EmitKeepsWriter(s: Session, i: nat, n: nat)
    requires WriterOk(s) && Enabled(s, BytesLeave(i, n))
    ensures WriterOk(s.(writer := Emit(s.writer, i, n)))
  {
    EmitKeepsEmitting(s.writer, n);
  }

  lemma PieceFollows(before: seq<Byte>, enc: seq<Byte>, emitted: nat, n: nat)
    requires emitted + n <= |enc|
    ensures before + enc[..emitted] + enc[emitted..emitted + n] == before + enc[..emitted + n] <= before + enc
  {
    assert enc[..emitted] + enc[emitted..emitted + n] == enc[..emitted + n];
  }

  lemma EmitKeepsEmitting(w: Writer, n: nat)
    requires |w.ops| == 1 && Emitting(w, w.ops[0]) && w.ops[0].emitted + n <= |EncodeFrame(w.ops[0].message)|
    ensures var w' := Emit(w, 0, n); Emitting(w', w'.ops[0]) && w'.wire <= EncodeAll(w'.started)
  {
    var op := w.ops[0];
    var init := w.started[..|w.started| - 1];
    assert w.started == init + [op.message];
    EncodeAllAppend(init, op.message);
    PieceFollows(EncodeAll(init), EncodeFrame(op.message), op.emitted, n);
  }

  lemma WriteDoneAccounts(w: Writer, op: WriteOp, error: Outcome)
    requires Emitting(w, op) && !error.Aborted? && (error.Ok? ==> op.emitted == |EncodeFrame(op.message)|)
    ensures TaskAccounted(w.(ops := [], broken := w.broken || !error.Ok?), Written(op.message, error))
  {
    var init, enc := w.started[..|w.started| - 1], EncodeFrame(op.message);
    EncodeAllAppend(init, op.message);
    assert w.started == init + [op.message];
    assert enc[..|enc|] == enc;
  }

  lemma WriteDoneKeepsWriter(s: Session, i: nat, error: Outcome)
    requires WriterOk(s) && Enabled(s, WriteEnds(i, error))
    requires s.life.socketOpen && s.writer.ops[i].cancelled ==> Of(s.strand).closes > 0
    ensures WriterOk(WriteDone(s, i, error))
  {
    var w, op := s.writer, s.writer.ops[i];
    OfPosted(s.strand, Written(op.message, error));
    if s.life.socketOpen {
      assert w.ops[..i] + w.ops[i + 1..] == [];
      if !error.Aborted? {
        WriteDoneAccounts(w, op, error);
      }
    }
  }

  /** Failure safety in one step: once a write has ended badly, nothing under way and
      nothing queued ahead of the close can put a byte on the wire or begin a write. */
  lemma BrokenWriterIsSilent(s: Session)
    requires WriterOk(s) && s.writer.broken && s.life.socketOpen
    ensures s.writer.ops == []
    ensures s.strand != [] ==> !s.strand[0].AsyncWrite?
  {
    if s.strand != [] {
      assert Of(s.strand) == Before(s.strand[0], Of(s.strand[1..]));
    }
  }
}
