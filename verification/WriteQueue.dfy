/** Session's writeQueue_: the message being written is pinned at the front, Ping and Pong
    are slipped in right behind it, Data joins the back. */
module WriteQueue {
  import opened Wire
  import opened Sequences

  predicate IsControl(f: Frame) {
    f.kind == PING || f.kind == PONG
  }

  /** Where send() puts a message. */
  function Enqueue(q: seq<Frame>, f: Frame): seq<Frame> {
    if q != [] && IsControl(f) then [q[0], f] + q[1..] else q + [f]
  }

  /** The Data payloads of a list of frames, in order. */
  function DataOf(fs: seq<Frame>): seq<seq<Byte>> {
    if fs == [] then []
    else (if fs[0].kind == DATA then [fs[0].payload] else []) + DataOf(fs[1..])
  }

  lemma {:induction false} DataOfConcat(fs: seq<Frame>, gs: seq<Frame>)
    ensures DataOf(fs + gs) == DataOf(fs) + DataOf(gs)
  {
    if fs == [] {
      assert fs + gs == gs;
    } else {
      TailOfConcat(fs, gs);
      DataOfConcat(fs[1..], gs);
      Assoc(if fs[0].kind == DATA then [fs[0].payload] else [], DataOf(fs[1..]), DataOf(gs));
    }
  }

  lemma {:induction false} DataOfPrefix(fs: seq<Frame>, gs: seq<Frame>)
    requires fs <= gs
    ensures DataOf(fs) <= DataOf(gs)
  {
    assert gs == fs + gs[|fs|..];
    DataOfConcat(fs, gs[|fs|..]);
  }

  /** A message put where no Data follows it, unless it is a control message itself. */
  lemma {:induction false} DataOfInsert(a: seq<Frame>, f: Frame, b: seq<Frame>)
    requires IsControl(f) || b == []
    ensures DataOf(a + [f] + b) == DataOf(a + b) + DataOf([f])
  {
    DataOfConcat(a + [f], b);
    DataOfConcat(a, [f]);
    DataOfConcat(a, b);
    if b == [] {
      assert a + b == a && a + [f] + b == a + [f];
    } else {
      assert DataOf([f]) == [];
    }
  }

  lemma MultisetInsert(a: seq<Frame>, f: Frame, b: seq<Frame>)
    ensures multiset(a + [f] + b) == multiset(a + b) + multiset{f}
  {
  }

  /** Overtaking reorders messages but loses none, duplicates none and never
      exchanges two Data messages. */
  lemma {:induction false} EnqueueKeepsDataOrder(q: seq<Frame>, f: Frame)
    ensures DataOf(Enqueue(q, f)) == DataOf(q + [f])
    ensures multiset(Enqueue(q, f)) == multiset(q) + multiset{f}
    ensures q != [] ==> Enqueue(q, f)[0] == q[0]
  {
    DataOfConcat(q, [f]);
    if q != [] && IsControl(f) {
      assert Enqueue(q, f) == [q[0]] + [f] + q[1..];
      assert q == [q[0]] + q[1..];
      DataOfConcat([q[0]], q[1..]);
      DataOfConcat([q[0]] + [f], q[1..]);
      DataOfConcat([q[0]], [f]);
    }
  }

  /** Behind the pinned head all control messages stand before all others. */
  predicate Shaped(q: seq<Frame>) {
    forall i, j :: 1 <= i < j < |q| && IsControl(q[j]) ==> IsControl(q[i])
  }

  // ----- refinement of a pinned slot, a control stack and a Data queue

  datatype Lanes = Idle | Busy(head: Frame, control: seq<Frame>, data: seq<Frame>)

  ghost predicate ValidLanes(l: Lanes) {
    l.Busy? ==> (forall f :: f in l.control ==> IsControl(f)) && (forall f :: f in l.data ==> !IsControl(f))
  }

  function Layout(l: Lanes): seq<Frame> {
    if l.Idle? then [] else [l.head] + l.control + l.data
  }

  function SubmitLane(l: Lanes, f: Frame): Lanes {
    if l.Idle? then Busy(f, [], [])
    else if IsControl(f) then l.(control := [f] + l.control)
    else l.(data := l.data + [f])
  }

  /** The newest control message goes next; the oldest of the others if there is none. */
  function CompleteLane(l: Lanes): Lanes {
    if l.Idle? then Idle
    else if l.control != [] then l.(head := l.control[0], control := l.control[1..])
    else if l.data != [] then l.(head := l.data[0], data := l.data[1..])
    else Idle
  }

  datatype QueueOp = Submit(f: Frame) | Complete

  function ApplyOp(q: seq<Frame>, op: QueueOp): seq<Frame> {
    match op
    case Submit(f) => Enqueue(q, f)
    case Complete => if q == [] then [] else q[1..]
  }

  function RunQueue(q: seq<Frame>, ops: seq<QueueOp>): seq<Frame>
    decreases |ops|
  {
    if ops == [] then q else RunQueue(ApplyOp(q, ops[0]), ops[1..])
  }

  function RunLanes(l: Lanes, ops: seq<QueueOp>): Lanes
    decreases |ops|
  {
    if ops == [] then l
    else RunLanes(match ops[0] case Submit(f) => SubmitLane(l, f) case Complete => CompleteLane(l), ops[1..])
  }

  lemma SecondPlace(head: Frame, f: Frame, a: seq<Frame>, b: seq<Frame>)
    ensures [head] + ([f] + a) + b == [head, f] + ([head] + a + b)[1..]
  {
    TailOfConcat([head] + a, b);
    TailOfConcat([head], a);
  }

  lemma SubmitRefines(l: Lanes, f: Frame)
    requires ValidLanes(l)
    ensures ValidLanes(SubmitLane(l, f)) && Layout(SubmitLane(l, f)) == Enqueue(Layout(l), f)
  {
    if l.Busy? {
      if IsControl(f) {
        SecondPlace(l.head, f, l.control, l.data);
      } else {
        assert [l.head] + l.control + l.data + [f] == [l.head] + l.control + (l.data + [f]);
      }
    }
  }

  lemma NextControl(head: Frame, control: seq<Frame>, data: seq<Frame>)
    requires control != []
    ensures ([head] + control + data)[1..] == [control[0]] + control[1..] + data
  {
    SecondPlace(head, head, control, data);
    HeadAndTail(control);
    TailOfConcat([head] + control, data);
  }

  lemma NextData(head: Frame, data: seq<Frame>)
    requires data != []
    ensures ([head] + [] + data)[1..] == [data[0]] + [] + data[1..]
  {
    HeadAndTail(data);
  }

  lemma CompleteRefines(l: Lanes)
    requires ValidLanes(l)
    ensures ValidLanes(CompleteLane(l)) && Layout(CompleteLane(l)) == ApplyOp(Layout(l), Complete)
  {
    if l.Busy? {
      if l.control != [] {
        NextControl(l.head, l.control, l.data);
      } else if l.data != [] {
        NextData(l.head, l.data);
      }
    }
  }

  /** The deque behaves as the three lanes under every sequence of sends and completions. */
  lemma {:induction false} QueueRefinesLanes(l: Lanes, ops: seq<QueueOp>)
    requires ValidLanes(l)
    ensures ValidLanes(RunLanes(l, ops)) && RunQueue(Layout(l), ops) == Layout(RunLanes(l, ops))
    decreases |ops|
  {
    if ops != [] {
      match ops[0] {
        case Submit(f) =>
          SubmitRefines(l, f);
          QueueRefinesLanes(SubmitLane(l, f), ops[1..]);
        case Complete =>
          CompleteRefines(l);
          QueueRefinesLanes(CompleteLane(l), ops[1..]);
      }
    }
  }

  lemma LanesAreShaped(l: Lanes)
    requires ValidLanes(l)
    ensures Shaped(Layout(l))
  {
    if l.Busy? {
      var q, n := Layout(l), 1 + |l.control|;
      forall i | 1 <= i < n ensures IsControl(q[i]) {
        assert q[i] == l.control[i - 1] && l.control[i - 1] in l.control;
      }
      forall j | n <= j < |q| ensures !IsControl(q[j]) {
        assert q[j] == l.data[j - n] && l.data[j - n] in l.data;
      }
    }
  }

  lemma ShapedHasLanes(q: seq<Frame>) returns (l: Lanes)
    requires Shaped(q)
    ensures ValidLanes(l) && Layout(l) == q
  {
    if q == [] {
      return Idle;
    }
    var k := 1;
    while k < |q| && IsControl(q[k])
      invariant 1 <= k <= |q|
      invariant forall i :: 1 <= i < k ==> IsControl(q[i])
    {
      k := k + 1;
    }
    l := Busy(q[0], q[1..k], q[k..]);
  }

  /** The shape is exactly what the three lanes can hold. */
  lemma ShapedIsThreeLanes(q: seq<Frame>)
    ensures Shaped(q) <==> exists l :: ValidLanes(l) && Layout(l) == q
  {
    if Shaped(q) {
      var l := ShapedHasLanes(q);
    }
    forall l | ValidLanes(l) && Layout(l) == q ensures Shaped(q) {
      LanesAreShaped(l);
    }
  }

  // ----- how long a waiting message waits

  /** The index of a queued message after some operations; -1 once it has left. */
  function Place(k: int, ops: seq<QueueOp>): (p: int)
    requires -1 <= k
    ensures -1 <= p
    decreases |ops|
  {
    if k == -1 || ops == [] then k else Place(Moved(k, ops[0]), ops[1..])
  }

  function Moved(k: int, op: QueueOp): int {
    match op
    case Submit(f) => if IsControl(f) && 1 <= k then k + 1 else k
    case Complete => k - 1
  }

  function Completions(ops: seq<QueueOp>): nat {
    if ops == [] then 0 else (if ops[0].Complete? then 1 else 0) + Completions(ops[1..])
  }

  /** How many control messages are sent while the message waits behind the head. */
  function Overtakers(k: int, ops: seq<QueueOp>): nat
    requires -1 <= k
    decreases |ops|
  {
    if k == -1 || ops == [] then 0
    else (if ops[0].Submit? && IsControl(ops[0].f) && 1 <= k then 1 else 0) + Overtakers(Moved(k, ops[0]), ops[1..])
  }

  /** Place() follows one message of the real deque. */
  lemma {:induction false} PlaceTracks(q: seq<Frame>, k: nat, ops: seq<QueueOp>)
    requires k < |q|
    ensures var p := Place(k, ops); p >= 0 ==> p < |RunQueue(q, ops)| && RunQueue(q, ops)[p] == q[k]
    decreases |ops|
  {
    if ops != [] {
      var k' := Moved(k, ops[0]);
      if k' >= 0 {
        assert ApplyOp(q, ops[0])[k'] == q[k];
        PlaceTracks(ApplyOp(q, ops[0]), k', ops[1..]);
      }
    }
  }

  /** The overtaking bound is exact: a message at index k leaves with completion number
      k + 1 plus the number of control messages that overtook it, and not before. */
  lemma {:induction false} OvertakingBound(k: nat, ops: seq<QueueOp>)
    ensures Place(k, ops) == -1 <==> Completions(ops) >= k + 1 + Overtakers(k, ops)
    ensures Place(k, ops) >= 0 ==> Place(k, ops) == k + Overtakers(k, ops) - Completions(ops)
    decreases |ops|
  {
    if ops != [] && Moved(k, ops[0]) >= 0 {
      OvertakingBound(Moved(k, ops[0]), ops[1..]);
    }
  }

  predicate StillAt(q: seq<Frame>, p: int, f: Frame) {
    0 <= p < |q| && q[p] == f
  }

  /** Until then it is still in the deque, at the place that the counts tell. */
  lemma {:induction false} StaysUntilDue(q: seq<Frame>, k: nat, ops: seq<QueueOp>, q': seq<Frame>)
    requires q' == RunQueue(q, ops)
    requires k < |q| && Completions(ops) < k + 1 + Overtakers(k, ops)
    ensures StillAt(q', k + Overtakers(k, ops) - Completions(ops), q[k])
  {
    OvertakingBound(k, ops);
    PlaceTracks(q, k, ops);
  }
}
