/** The deque of a running session, seen through the operations of WriteQueue. */
module SessionQueue {
  import opened Asio
  import opened Sequences
  import opened Wire
  import opened WriteQueue
  import opened SessionModel
  import opened StrandView
  import opened SessionTheorems
  import ReadTimer

  /** The message submitted between two states, if any. */
  function SubmitsOf(w: Writer, w': Writer): seq<QueueOp> {
    var before, after := w.submitted, w'.submitted;
    if |after| > |before| then [Submit(after[|after| - 1])] else []
  }

  /** What an event does to the queue of a session whose socket stays open. */
  function OpOf(s: Session, e: Event): seq<QueueOp>
    requires Enabled(s, e)
  {
    if e.TaskRuns? && s.strand[0].Written? then [Complete] else SubmitsOf(s.writer, Apply(s, e).writer)
  }

  function OpsOf(s: Session, es: seq<Event>): seq<QueueOp>
    requires Possible(s, es)
    decreases |es|
  {
    if es == [] then [] else OpOf(s, es[0]) + OpsOf(Apply(s, es[0]), es[1..])
  }

  function Submitted(ops: seq<QueueOp>): seq<Frame> {
    if ops == [] then [] else (if ops[0].Submit? then [ops[0].f] else []) + Submitted(ops[1..])
  }

  lemma {:induction false} RunQueueConcat(q: seq<Frame>, a: seq<QueueOp>, b: seq<QueueOp>)
    ensures RunQueue(q, a + b) == RunQueue(RunQueue(q, a), b)
    ensures Submitted(a + b) == Submitted(a) + Submitted(b)
    decreases |a|
  {
    if a == [] {
      assert a + b == b;
    } else {
      TailOfConcat(a, b);
      RunQueueConcat(ApplyOp(q, a[0]), a[1..], b);
      Assoc(if a[0].Submit? then [a[0].f] else [], Submitted(a[1..]), Submitted(b));
    }
  }

  /** One event as queue operations. */
  predicate MovesBy(w: Writer, w': Writer, ops: seq<QueueOp>) {
    w'.queue == RunQueue(w.queue, ops) && w'.submitted == w.submitted + Submitted(ops)
  }

  lemma SendMovesQueue(s: Session, f: Frame)
    ensures MovesBy(s.writer, Send(s, f).writer, [Submit(f)])
  {
    assert [Submit(f)][1..] == [];
  }

  lemma MessageMovesQueue(c: Session, bytes: seq<Byte>, f: Frame)
    ensures var ops := if f.kind == PING then [Submit(PongMessage)] else [];
      MovesBy(c.writer, OnMessageReceived(c, bytes, f).writer, ops)
  {
    SendMovesQueue(c.(reader := Record(c.reader, bytes, f)), PongMessage);
  }

  lemma HeaderMovesQueue(s: Session, head: Head, error: Outcome)
    ensures var d := HandleReadHeader(s, head, error).writer; MovesBy(s.writer, d, SubmitsOf(s.writer, d))
  {
    if error.Ok? {
      MessageMovesQueue(CancelReadTimer(s), head, Frame(DecodeHeader(head).kind, []));
    }
  }

  lemma BodyMovesQueue(s: Session, head: Head, body: seq<Byte>, error: Outcome)
    ensures var d := HandleReadBody(s, head, body, error).writer; MovesBy(s.writer, d, SubmitsOf(s.writer, d))
  {
    if error.Ok? {
      MessageMovesQueue(CancelReadTimer(s), head + body, Frame(DecodeHeader(head).kind, body));
    }
  }

  lemma WrittenMovesQueue(s: Session, error: Outcome)
    ensures MovesBy(s.writer, HandleWrite(s, error).writer, [Complete])
  {
    assert [Complete][1..] == [];
  }

  predicate SameQueue(w: Writer, w': Writer) {
    w'.queue == w.queue && w'.submitted == w.submitted
  }

  lemma SameQueueMoves(w: Writer, w': Writer)
    requires SameQueue(w, w')
    ensures SubmitsOf(w, w') == [] && MovesBy(w, w', [])
  {
  }

  lemma OtherTaskKeepsQueue(s: Session)
    requires s.strand != [] && !IsRead(s.strand[0]) && !s.strand[0].Written? && !s.strand[0].CloseSocket?
    ensures SameQueue(s.writer, RunTask(s).writer)
  {
  }

  lemma TaskMovesQueue(s: Session)
    requires s.strand != [] && !s.strand[0].CloseSocket?
    ensures var w, w' := s.writer, RunTask(s).writer;
      MovesBy(w, w', if s.strand[0].Written? then [Complete] else SubmitsOf(w, w'))
  {
    var t := s.strand[0];
    if t.HeaderRead? {
      HeaderMovesQueue(Dequeued(s), t.head, t.error);
    } else if t.BodyRead? {
      BodyMovesQueue(Dequeued(s), t.head, t.body, t.error);
    } else if t.Written? {
      WrittenMovesQueue(Dequeued(s), t.error);
    } else {
      OtherTaskKeepsQueue(s);
      SameQueueMoves(s.writer, RunTask(s).writer);
    }
  }

  lemma OtherEventKeepsQueue(s: Session, e: Event)
    requires Enabled(s, e) && !e.TaskRuns? && !e.SendCall? && !e.TimerTaskRuns?
    ensures SameQueue(s.writer, Apply(s, e).writer)
  {
  }

  predicate RunsClose(s: Session, e: Event) {
    e.TaskRuns? && s.strand != [] && s.strand[0].CloseSocket?
  }

  lemma EventMovesQueue(s: Session, e: Event)
    requires Enabled(s, e) && !RunsClose(s, e)
    ensures MovesBy(s.writer, Apply(s, e).writer, OpOf(s, e))
  {
    match e {
      case TaskRuns => TaskMovesQueue(s);
      case SendCall(payload) => SendMovesQueue(s, Frame(DATA, payload));
      case TimerTaskRuns(time, period) =>
        SendMovesQueue(s.(timer := ReadTimer.RunTask(s.timer, time, period)), PingMessage);
      case _ =>
        OtherEventKeepsQueue(s, e);
        SameQueueMoves(s.writer, Apply(s, e).writer);
    }
  }

  lemma HeaderKeepsSocket(s: Session, head: Head, error: Outcome)
    ensures HandleReadHeader(s, head, error).life.socketOpen == s.life.socketOpen
  {
  }

  lemma BodyKeepsSocket(s: Session, head: Head, body: seq<Byte>, error: Outcome)
    ensures HandleReadBody(s, head, body, error).life.socketOpen == s.life.socketOpen
  {
  }

  lemma TaskKeepsSocket(s: Session)
    requires s.strand != []
    ensures RunTask(s).life.socketOpen == (s.life.socketOpen && !s.strand[0].CloseSocket?)
  {
    match s.strand[0] {
      case HeaderRead(head, error) => HeaderKeepsSocket(Dequeued(s), head, error);
      case BodyRead(head, body, error) => BodyKeepsSocket(Dequeued(s), head, body, error);
      case _ =>
    }
  }

  lemma ClosedStays(s: Session, e: Event)
    requires Enabled(s, e) && !s.life.socketOpen
    ensures !Apply(s, e).life.socketOpen
  {
    match e {
      case TaskRuns => TaskKeepsSocket(s);
      case _ =>
    }
  }

  lemma {:induction false} ClosedStaysClosed(s: Session, es: seq<Event>)
    requires Possible(s, es) && !s.life.socketOpen
    ensures !After(s, es).life.socketOpen
    decreases |es|
  {
    if es != [] {
      ClosedStays(s, es[0]);
      ClosedStaysClosed(Apply(s, es[0]), es[1..]);
    }
  }

  lemma MovesCompose(w: Writer, w': Writer, w'': Writer, a: seq<QueueOp>, b: seq<QueueOp>)
    requires MovesBy(w, w', a) && MovesBy(w', w'', b)
    ensures MovesBy(w, w'', a + b)
  {
    RunQueueConcat(w.queue, a, b);
    Assoc(w.submitted, Submitted(a), Submitted(b));
  }

  lemma OneOp(s: Session, e: Event)
    requires Enabled(s, e)
    ensures |OpOf(s, e)| <= 1 && (OpOf(s, e) == [Complete] ==> e.TaskRuns? && s.strand[0].Written?)
  {
  }

  lemma {:induction false} FirstMoves(s: Session, es: seq<Event>)
    requires Possible(s, es) && es != [] && After(s, es).life.socketOpen
    ensures After(Apply(s, es[0]), es[1..]).life.socketOpen
    ensures |OpOf(s, es[0])| <= 1 && MovesBy(s.writer, Apply(s, es[0]).writer, OpOf(s, es[0]))
  {
    if !Apply(s, es[0]).life.socketOpen {
      ClosedStaysClosed(Apply(s, es[0]), es[1..]);
    }
    OneOp(s, es[0]);
    EventMovesQueue(s, es[0]);
  }

  lemma {:induction false} RunMovesQueue(s: Session, es: seq<Event>)
    requires Possible(s, es) && After(s, es).life.socketOpen
    ensures MovesBy(s.writer, After(s, es).writer, OpsOf(s, es))
    decreases |es|
  {
    if es != [] {
      var s', op := Apply(s, es[0]), OpOf(s, es[0]);
      FirstMoves(s, es);
      RunMovesQueue(s', es[1..]);
      MovesCompose(s.writer, s'.writer, After(s', es[1..]).writer, op, OpsOf(s', es[1..]));
    } else {
      assert s.writer.submitted + [] == s.writer.submitted;
    }
  }

  // ----- the deque in every run

  /** What has been done to the deque since the last close task, or since the run began, where
      "ops" had been done already. */
  function OpsSince(s: Session, es: seq<Event>, ops: seq<QueueOp>): seq<QueueOp>
    requires Possible(s, es)
    decreases |es|
  {
    if es == [] then ops
    else OpsSince(Apply(s, es[0]), es[1..], if RunsClose(s, es[0]) then [] else ops + OpOf(s, es[0]))
  }

  /** How many messages had been submitted by then; n before the run. */
  function SentBefore(s: Session, es: seq<Event>, n: nat): nat
    requires Possible(s, es)
    decreases |es|
  {
    if es == [] then n
    else SentBefore(Apply(s, es[0]), es[1..], if RunsClose(s, es[0]) then |s.writer.submitted| else n)
  }

  predicate Closes(s: Session, es: seq<Event>)
    requires Possible(s, es)
    decreases |es|
  {
    es != [] && (RunsClose(s, es[0]) || Closes(Apply(s, es[0]), es[1..]))
  }

  /** The deque is what the operations make of an empty one, and they submit all but the first n
      messages. */
  predicate Accounted(w: Writer, ops: seq<QueueOp>, n: nat) {
    n <= |w.submitted| && w.queue == RunQueue([], ops) && w.submitted[n..] == Submitted(ops)
  }

  lemma CloseDropsQueue(s: Session)
    requires s.strand != [] && s.strand[0].CloseSocket?
    ensures Accounted(RunTask(s).writer, [], |s.writer.submitted|)
    ensures RunTask(s).writer.submitted == s.writer.submitted
  {
  }

  lemma MovesAccounted(w: Writer, w': Writer, ops: seq<QueueOp>, more: seq<QueueOp>, n: nat)
    requires Accounted(w, ops, n) && MovesBy(w, w', more)
    ensures Accounted(w', ops + more, n)
  {
    RunQueueConcat([], ops, more);
    assert w'.submitted[n..] == w.submitted[n..] + Submitted(more);
  }

  lemma {:induction false} RunAccounted(s: Session, es: seq<Event>, ops: seq<QueueOp>, n: nat)
    requires Possible(s, es) && Accounted(s.writer, ops, n)
    ensures Accounted(After(s, es).writer, OpsSince(s, es, ops), SentBefore(s, es, n))
    decreases |es|
  {
    if es != [] {
      var s' := Apply(s, es[0]);
      if RunsClose(s, es[0]) {
        CloseDropsQueue(s);
        RunAccounted(s', es[1..], [], |s.writer.submitted|);
      } else {
        EventMovesQueue(s, es[0]);
        MovesAccounted(s.writer, s'.writer, ops, OpOf(s, es[0]), n);
        RunAccounted(s', es[1..], ops + OpOf(s, es[0]), n);
      }
    }
  }

  lemma {:induction false} NoCloseNoneBefore(s: Session, es: seq<Event>, n: nat)
    requires Possible(s, es) && !Closes(s, es)
    ensures SentBefore(s, es, n) == n
    decreases |es|
  {
    if es != [] {
      NoCloseNoneBefore(Apply(s, es[0]), es[1..], n);
    }
  }

  /** Queue refinement. In every run, closed sockets included, the deque is what the pinned slot,
      the control stack and the Data queue make of the messages submitted and the writes handled
      since the last close task, in their order; without a close task, of all of them. So a
      close task leaves the deque empty. */
  lemma {:induction false} QueueIsThreeLanes(handlers: Handlers, es: seq<Event>)
    requires Possible(Created(handlers), es)
    ensures var s, ops := Created(handlers), OpsSince(Created(handlers), es, []);
      var w, n := After(s, es).writer, SentBefore(s, es, 0);
      && n <= |w.submitted| && Submitted(ops) == w.submitted[n..]
      && (!Closes(s, es) ==> Submitted(ops) == w.submitted)
      && w.queue == Layout(RunLanes(Idle, ops))
  {
    var s := Created(handlers);
    RunAccounted(s, es, [], 0);
    QueueRefinesLanes(Idle, OpsSince(s, es, []));
    if !Closes(s, es) {
      NoCloseNoneBefore(s, es, 0);
    }
  }

  /** Right after a close task the deque is empty, so that the next message sent is written. */
  lemma ClosedQueueStartsAnew(s: Session, f: Frame)
    requires s.strand != [] && s.strand[0].CloseSocket?
    ensures RunTask(s).writer.queue == []
    ensures var d := Send(RunTask(s), f); d.strand == RunTask(s).strand + [AsyncWrite(f)] && d.writer.queue == [f]
  {
    CloseDropsQueue(s);
  }

  // ----- how a message leaves

  /** Event n of the run handles a completed write and pops the message off the front. */
  predicate PopsAt(s: Session, es: seq<Event>, n: nat, f: Frame)
    requires Possible(s, es)
  {
    && n < |es| && es[n].TaskRuns?
    && Possible(s, es[..n])
    && var c := After(s, es[..n]);
    && c.strand != [] && c.strand[0].Written?
    && c.writer.queue != [] && c.writer.queue[0] == f
    && RunTask(c).writer.queue == c.writer.queue[1..]
  }

  /** So many writes have been handled before. */
  predicate PopsAfter(s: Session, es: seq<Event>, n: nat, f: Frame, completions: nat)
    requires Possible(s, es)
  {
    PopsAt(s, es, n, f) && Completions(OpsOf(s, es[..n])) == completions
  }

  lemma {:induction false} PopsNow(s: Session, es: seq<Event>)
    requires Possible(s, es) && es != [] && s.writer.queue != []
    requires OpOf(s, es[0]) == [Complete] && MovesBy(s.writer, Apply(s, es[0]).writer, [Complete])
    ensures PopsAt(s, es, 0, s.writer.queue[0]) && OpsOf(s, es[..0]) == []
  {
    assert es[..0] == [] && [Complete][1..] == [];
  }

  lemma {:induction false} PopsLater(s: Session, es: seq<Event>, n: nat, f: Frame)
    requires Possible(s, es) && es != [] && PopsAt(Apply(s, es[0]), es[1..], n, f)
    ensures PopsAt(s, es, n + 1, f)
    ensures OpsOf(s, es[..n + 1]) == OpOf(s, es[0]) + OpsOf(Apply(s, es[0]), es[1..][..n])
  {
    assert es[..n + 1][1..] == es[1..][..n];
  }

  /** One operation, or none, ahead of others. */
  function MovedBy(k: nat, op: seq<QueueOp>): int
    requires |op| <= 1
  {
    if op == [] then k else Moved(k, op[0])
  }

  lemma {:induction false} PlaceAfterOne(q: seq<Frame>, k: nat, op: seq<QueueOp>, rest: seq<QueueOp>)
    requires |op| <= 1 && k < |q|
    ensures var k' := MovedBy(k, op);
      && -1 <= k' && Place(k, op + rest) == Place(k', rest)
      && (k' >= 0 ==> k' < |RunQueue(q, op)| && RunQueue(q, op)[k'] == q[k])
      && (k' == -1 ==> op == [Complete] && k == 0 && Overtakers(k, op + rest) == 0)
  {
    if op == [] {
      assert op + rest == rest;
    } else {
      assert op == [op[0]] && (op + rest)[1..] == rest;
      assert RunQueue(q, op) == ApplyOp(q, op[0]);
    }
  }

  /** What was due behind one operation is due with it. */
  lemma {:induction false} DueLater(k: nat, op: seq<QueueOp>, rest: seq<QueueOp>, before: seq<QueueOp>)
    requires |op| <= 1 && MovedBy(k, op) >= 0
    requires Completions(before) == MovedBy(k, op) + Overtakers(MovedBy(k, op), rest)
    ensures Completions(op + before) == k + Overtakers(k, op + rest)
  {
    if op == [] {
      assert op + rest == rest && op + before == before;
    } else {
      assert op == [op[0]] && (op + rest)[1..] == rest && (op + before)[1..] == before;
    }
  }

  lemma {:induction false} LeavesInTime(s: Session, es: seq<Event>, k: nat) returns (n: nat)
    requires Possible(s, es) && After(s, es).life.socketOpen && k < |s.writer.queue|
    requires Place(k, OpsOf(s, es)) == -1
    ensures PopsAfter(s, es, n, s.writer.queue[k], k + Overtakers(k, OpsOf(s, es)))
    decreases |es|
  {
    var s', op := Apply(s, es[0]), OpOf(s, es[0]);
    var rest := OpsOf(s', es[1..]);
    FirstMoves(s, es);
    PlaceAfterOne(s.writer.queue, k, op, rest);
    if MovedBy(k, op) == -1 {
      PopsNow(s, es);
      n := 0;
    } else {
      var m := LeavesInTime(s', es[1..], MovedBy(k, op));
      PopsLater(s, es, m, s.writer.queue[k]);
      DueLater(k, op, rest, OpsOf(s', es[1..][..m]));
      n := m + 1;
    }
  }

  lemma {:induction false} QueueAfterRun(s: Session, es: seq<Event>)
    requires Possible(s, es) && After(s, es).life.socketOpen
    ensures After(s, es).writer.queue == RunQueue(s.writer.queue, OpsOf(s, es))
  {
    RunMovesQueue(s, es);
  }

  lemma {:induction false} MessageStays(s: Session, es: seq<Event>, k: nat)
    requires Possible(s, es) && After(s, es).life.socketOpen && k < |s.writer.queue|
    requires var ops := OpsOf(s, es); Completions(ops) < k + 1 + Overtakers(k, ops)
    ensures var ops := OpsOf(s, es);
      StillAt(After(s, es).writer.queue, k + Overtakers(k, ops) - Completions(ops), s.writer.queue[k])
  {
    QueueAfterRun(s, es);
    StaysUntilDue(s.writer.queue, k, OpsOf(s, es), After(s, es).writer.queue);
  }

  lemma MessageLeaves(s: Session, es: seq<Event>, k: nat) returns (n: nat)
    requires Possible(s, es) && After(s, es).life.socketOpen && k < |s.writer.queue|
    requires var ops := OpsOf(s, es); Completions(ops) >= k + 1 + Overtakers(k, ops)
    ensures PopsAfter(s, es, n, s.writer.queue[k], k + Overtakers(k, OpsOf(s, es)))
  {
    OvertakingBound(k, OpsOf(s, es));
    n := LeavesInTime(s, es, k);
  }

  /** The overtaking bound for a message in a session's queue, at any index: it is still there,
      at a known place, until completion number k + 1 plus the number of control messages
      that were sent while it waited behind the head; and that completion pops it. */
  lemma MessageWaits(s: Session, es: seq<Event>, k: nat) returns (n: nat)
    requires Possible(s, es) && After(s, es).life.socketOpen && k < |s.writer.queue|
    ensures var ops := OpsOf(s, es);
      Completions(ops) < k + 1 + Overtakers(k, ops) ==>
        StillAt(After(s, es).writer.queue, k + Overtakers(k, ops) - Completions(ops), s.writer.queue[k])
    ensures var ops := OpsOf(s, es);
      Completions(ops) >= k + 1 + Overtakers(k, ops) ==>
        PopsAfter(s, es, n, s.writer.queue[k], k + Overtakers(k, ops))
  {
    var ops := OpsOf(s, es);
    if Completions(ops) < k + 1 + Overtakers(k, ops) {
      n := 0;
      MessageStays(s, es, k);
    } else {
      n := MessageLeaves(s, es, k);
    }
  }
}
