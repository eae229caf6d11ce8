/** Ping and Pong between two sessions: every Ping ever sent is somewhere. */
module Traffic {
  import opened Wire
  import opened WriteQueue
  import opened SessionModel
  import opened StrandView
  import opened SessionWriter
  import opened SessionInvariant
  import opened Network

  function Count(fs: seq<Frame>, kind: UInt16): nat {
    if fs == [] then 0 else (if fs[0].kind == kind then 1 else 0) + Count(fs[1..], kind)
  }

  lemma {:induction false} CountConcat(a: seq<Frame>, b: seq<Frame>, kind: UInt16)
    ensures Count(a + b, kind) == Count(a, kind) + Count(b, kind)
  {
    if a == [] {
      assert a + b == b;
    } else {
      assert (a + b)[1..] == a[1..] + b;
      CountConcat(a[1..], b, kind);
    }
  }

  lemma WithoutOne(a: seq<Frame>, f: Frame, b: seq<Frame>)
    ensures multiset(a + b) == multiset(a + [f] + b) - multiset{f}
  {
    MultisetInsert(a, f, b);
  }

  /** Counting does not depend on order. */
  lemma {:induction false} CountPermuted(a: seq<Frame>, b: seq<Frame>, kind: UInt16)
    requires multiset(a) == multiset(b)
    ensures Count(a, kind) == Count(b, kind)
  {
    if a == [] {
      assert |multiset(b)| == 0;
    } else {
      assert a[0] in multiset(a);
      var i :| 0 <= i < |b| && b[i] == a[0];
      var before, behind := b[..i], b[i + 1..];
      assert b == before + [b[i]] + behind;
      assert multiset(a[1..]) == multiset(before + behind) by {
        assert a == [] + [a[0]] + a[1..] && a[1..] == [] + a[1..];
        WithoutOne([], a[0], a[1..]);
        WithoutOne(before, b[i], behind);
      }
      CountPermuted(a[1..], before + behind, kind);
      CountInserted(before, b[i], behind, kind);
    }
  }

  lemma {:induction false} CountInserted(a: seq<Frame>, f: Frame, b: seq<Frame>, kind: UInt16)
    ensures Count(a + [f] + b, kind) == Count(a + b, kind) + (if f.kind == kind then 1 else 0)
  {
    CountConcat(a, b, kind);
    CountConcat(a + [f], b, kind);
    CountConcat(a, [f], kind);
    assert [f][1..] == [];
  }

  // ----- every Ping dispatched is answered by one Pong

  predicate Answered(s: Session) {
    Count(s.writer.submitted, PONG) == Count(s.reader.decoded, PING)
  }

  predicate NothingExchanged(s: Session, s': Session) {
    s'.writer.submitted == s.writer.submitted && s'.reader.decoded == s.reader.decoded
  }

  predicate Dispatched(s: Session, s': Session, f: Frame) {
    && s'.reader.decoded == s.reader.decoded + [f]
    && s'.writer.submitted == s.writer.submitted + (if f.kind == PING then [PongMessage] else [])
  }

  lemma OnMessageDispatches(s: Session, bytes: seq<Byte>, f: Frame)
    ensures Dispatched(s, OnMessageReceived(s, bytes, f), f)
  {
  }

  /** What running a task exchanges: nothing, or one frame dispatched. */
  lemma TaskExchanges(s: Session)
    requires s.strand != []
    ensures NothingExchanged(s, RunTask(s)) || exists f :: Dispatched(s, RunTask(s), f)
  {
    var c := AtReadHandler(s);
    match s.strand[0] {
      case HeaderRead(head, Ok) =>
        var h := DecodeHeader(head);
        if h.crc == 0 && h.size == 0 {
          OnMessageDispatches(c, head, Frame(h.kind, []));
          assert Dispatched(s, RunTask(s), Frame(h.kind, []));
        }
      case BodyRead(head, body, Ok) =>
        var h := DecodeHeader(head);
        if h.payloadCrc == 0 {
          OnMessageDispatches(c, head + body, Frame(h.kind, body));
          assert Dispatched(s, RunTask(s), Frame(h.kind, body));
        }
      case _ =>
    }
  }

  lemma DispatchKeepsAnswered(s: Session, s': Session, f: Frame)
    requires Answered(s) && Dispatched(s, s', f)
    ensures Answered(s')
  {
    CountConcat(s.reader.decoded, [f], PING);
    assert Count([f], PING) == if f.kind == PING then 1 else 0;
    assert Count([PongMessage], PONG) == 1;
    CountConcat(s.writer.submitted, [PongMessage], PONG);
    assert s.writer.submitted + [] == s.writer.submitted;
  }

  lemma ApplyKeepsAnswered(s: Session, e: Event)
    requires Answered(s) && Enabled(s, e)
    ensures Answered(Apply(s, e))
  {
    match e {
      case TaskRuns =>
        TaskExchanges(s);
        if !NothingExchanged(s, RunTask(s)) {
          var f :| Dispatched(s, RunTask(s), f);
          DispatchKeepsAnswered(s, RunTask(s), f);
        }
      case SendCall(payload) => CountConcat(s.writer.submitted, [Frame(DATA, payload)], PONG);
      case TimerTaskRuns(_, _) => CountConcat(s.writer.submitted, [PingMessage], PONG);
      case _ =>
    }
  }

  lemma {:induction false} RunKeepsAnswered(y: System, ms: seq<Move>)
    requires Network.Possible(y, ms) && Answered(y.left) && Answered(y.right)
    ensures Answered(Network.After(y, ms).left) && Answered(Network.After(y, ms).right)
    decreases |ms|
  {
    if ms != [] {
      ApplyKeepsAnswered(At(y, ms[0].side), ms[0].event);
      RunKeepsAnswered(Step(y, ms[0]), ms[1..]);
    }
  }

  // ----- where the messages are

  /** Before any close: no close task has run or is queued. */
  predicate Live(s: Session) {
    s.life.socketOpen && Of(s.strand).closes == 0
  }

  /** The queued messages whose write has not begun: all but a head that is in flight. */
  function Waiting(s: Session): seq<Frame> {
    var writing := Of(s.strand).writing;
    if s.writer.ops == [] && (writing == [] || writing[0].AsyncWrite?) then s.writer.queue
    else Popped(s.writer.queue)
  }

  /** The messages whose write has begun and that the peer has not dispatched. */
  function InTransit(s: Session, r: Session): seq<Frame>
    requires |r.reader.decoded| <= |s.writer.started|
  {
    s.writer.started[|r.reader.decoded|..]
  }

  lemma LiveIsBalanced(s: Session)
    requires WriterOk(s) && Live(s)
    ensures Balanced(s.writer, s.writer.started + Waiting(s))
  {
    if s.writer.ops == [] && Of(s.strand).writing == [] {
      assert s.writer.started + [] == s.writer.started;
    }
  }

  /** Every message of a kind submitted on one side is waiting, in transit or dispatched. */
  lemma {:induction false} KindConserved(s: Session, r: Session, kind: UInt16)
    requires WriterOk(s) && Live(s) && r.reader.decoded <= s.writer.started
    ensures Count(s.writer.submitted, kind) ==
      Count(Waiting(s), kind) + Count(InTransit(s, r), kind) + Count(r.reader.decoded, kind)
  {
    var w := s.writer;
    LiveIsBalanced(s);
    CountPermuted(w.started + Waiting(s), w.submitted, kind);
    CountConcat(w.started, Waiting(s), kind);
    assert w.started == r.reader.decoded + InTransit(s, r);
    CountConcat(r.reader.decoded, InTransit(s, r), kind);
  }

  lemma PingsConservedBetween(a: Session, b: Session)
    requires Inv(a) && Inv(b) && Streams(a, b) && Streams(b, a) && Live(a) && Live(b) && Answered(b)
    requires AllFit(a.writer.started) && AllFit(b.writer.started)
    ensures |b.reader.decoded| <= |a.writer.started| && |a.reader.decoded| <= |b.writer.started|
    ensures Count(a.writer.submitted, PING) ==
      Count(Waiting(a), PING) + Count(InTransit(a, b), PING)
      + Count(Waiting(b), PONG) + Count(InTransit(b, a), PONG)
      + Count(a.reader.decoded, PONG)
  {
    DecodedIsStarted(a, b);
    DecodedIsStarted(b, a);
    KindConserved(a, b, PING);
    KindConserved(b, a, PONG);
  }

  /** Ping/Pong conservation. In every state of every run before a close on either side, the
      Pings a session has sent are those waiting or in transit, plus the Pongs they caused
      that are waiting or in transit back, plus the Pongs it has consumed. */
  lemma {:induction false} PingsConserved(left: Handlers, right: Handlers, ms: seq<Move>, side: Side)
    requires Network.Possible(Start(left, right), ms)
    requires PayloadsFit(SentBy(ms, Left)) && PayloadsFit(SentBy(ms, Right))
    requires var y := Network.After(Start(left, right), ms); Live(y.left) && Live(y.right)
    ensures var y := Network.After(Start(left, right), ms);
      var a, b := At(y, side), At(y, Other(side));
      && |b.reader.decoded| <= |a.writer.started| && |a.reader.decoded| <= |b.writer.started|
      && Count(a.writer.submitted, PING) ==
           Count(Waiting(a), PING) + Count(InTransit(a, b), PING)
           + Count(Waiting(b), PONG) + Count(InTransit(b, a), PONG)
           + Count(a.reader.decoded, PONG)
  {
    var y0 := Start(left, right);
    var y := Network.After(y0, ms);
    ReachableJoined(left, right, ms);
    RunKeepsAnswered(y0, ms);
    BothFit(left, right, ms);
    PingsConservedBetween(At(y, side), At(y, Other(side)));
  }

  lemma {:induction false} BothFit(left: Handlers, right: Handlers, ms: seq<Move>)
    requires Network.Possible(Start(left, right), ms)
    requires PayloadsFit(SentBy(ms, Left)) && PayloadsFit(SentBy(ms, Right))
    ensures var y := Network.After(Start(left, right), ms);
      AllFit(y.left.writer.started) && AllFit(y.right.writer.started)
  {
    var y := Network.After(Start(left, right), ms);
    ReachableJoined(left, right, ms);
    SentInRun(left, right, ms, Left);
    SentInRun(left, right, ms, Right);
    StartedFits(y.left);
    StartedFits(y.right);
  }
}
