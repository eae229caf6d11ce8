/** What two sessions come to when nothing fails: they go quiet while both are still running,
    and by then everything sent has been delivered. */
module Settling {
  import opened Asio
  import opened Wire
  import opened WriteQueue
  import opened SessionModel
  import opened StrandView
  import opened SessionLife
  import opened SessionWriter
  import opened SessionReader
  import opened SessionInvariant
  import opened Network
  import opened Drain
  import ReadTimer

  // ----- the state in which nothing is left to happen

  /** An internal event other than a connection failing: on an open socket operations end well. */
  predicate Benign(s: Session, e: Event) {
    && Internal(e)
    && (e.HandshakeEnds? || e.WriteEnds? || e.ReadEnds? ==> s.life.socketOpen ==> e.error.Ok?)
  }

  /** Nothing is left to happen but calls, expiring waits and failures. */
  ghost predicate Quiet(y: System) {
    forall m :: Can(y, m) ==> !Benign(At(y, m.side), m.event)
  }

  /** Both handlers have been called and nothing has stopped the session since. */
  predicate Running(s: Session) {
    s.life.socketOpen && s.life.connected && s.life.phase == Done(true) && s.reader.ended.None?
  }

  lemma QuietSession(y: System, side: Side)
    requires Joined(y) && Quiet(y) && Running(At(y, side))
    ensures var s := At(y, side);
      && s.strand == [] && s.writer.ops == [] && s.reader.inbox == []
      && |s.reader.ops| == 1 && |s.reader.ops[0].got| < Needed(s.reader.ops[0])
      && s.reader.received == At(y, Other(side)).writer.wire
  {
    NothingQueued(y, side);
    NoWriteLeft(y, side);
    OneReadLeft(At(y, side));
    ReadIsWaiting(y, side);
  }

  /** A queued task or payload can be taken. */
  lemma QueuedGoesOn(y: System, side: Side) returns (m: Move)
    requires At(y, side).strand != [] || At(y, side).reader.inbox != []
    ensures Can(y, m) && Benign(At(y, m.side), m.event)
  {
    m := Move(side, if At(y, side).strand != [] then TaskRuns else PayloadHandedOver);
  }

  /** A write under way can go on or end well. */
  lemma WriteGoesOn(y: System, side: Side) returns (m: Move)
    requires WriterOk(At(y, side)) && At(y, side).life.socketOpen && At(y, side).writer.ops != []
    ensures Can(y, m) && Benign(At(y, m.side), m.event)
  {
    var op := At(y, side).writer.ops[0];
    m := Move(side, if op.emitted < |EncodeFrame(op.message)| then BytesLeave(0, 1) else WriteEnds(0, Ok));
  }

  /** A read that has all its bytes can end, and one that lacks some can take what is there. */
  lemma ReadGoesOn(y: System, side: Side) returns (m: Move)
    requires var s := At(y, side);
      && s.life.socketOpen && Streams(At(y, Other(side)), s)
      && |s.reader.ops| == 1 && OpPlaced(s.reader, s.reader.ops[0])
      && (|s.reader.ops[0].got| == Needed(s.reader.ops[0]) || s.reader.received != At(y, Other(side)).writer.wire)
    ensures Can(y, m) && Benign(At(y, m.side), m.event)
  {
    var s, wire := At(y, side), At(y, Other(side)).writer.wire;
    if |s.reader.ops[0].got| == Needed(s.reader.ops[0]) {
      m := Move(side, ReadEnds(0, Ok));
    } else {
      m := Move(side, BytesArrive(0, [wire[|s.reader.received|]]));
    }
  }

  lemma NothingQueued(y: System, side: Side)
    requires Quiet(y)
    ensures At(y, side).strand == [] && At(y, side).reader.inbox == []
  {
    if At(y, side).strand != [] || At(y, side).reader.inbox != [] {
      var m := QueuedGoesOn(y, side);
    }
  }

  lemma NoWriteLeft(y: System, side: Side)
    requires WriterOk(At(y, side)) && Quiet(y) && At(y, side).life.socketOpen
    ensures At(y, side).writer.ops == []
  {
    if At(y, side).writer.ops != [] {
      var m := WriteGoesOn(y, side);
    }
  }

  lemma OneReadLeft(s: Session)
    requires ReaderOk(s) && Running(s) && s.strand == []
    ensures |s.reader.ops| == 1 && OpPlaced(s.reader, s.reader.ops[0])
  {
  }

  lemma ReadIsWaiting(y: System, side: Side)
    requires Quiet(y) && At(y, side).life.socketOpen && Streams(At(y, Other(side)), At(y, side))
    requires |At(y, side).reader.ops| == 1 && OpPlaced(At(y, side).reader, At(y, side).reader.ops[0])
    ensures |At(y, side).reader.ops[0].got| < Needed(At(y, side).reader.ops[0])
    ensures At(y, side).reader.received == At(y, Other(side)).writer.wire
  {
    var s := At(y, side);
    if |s.reader.ops[0].got| == Needed(s.reader.ops[0]) || s.reader.received != At(y, Other(side)).writer.wire {
      var m := ReadGoesOn(y, side);
    }
  }

  /** Two running sessions that have gone quiet have delivered all that was submitted. */
  lemma QuietDelivers(y: System, side: Side)
    requires Joined(y) && Quiet(y) && Running(y.left) && Running(y.right)
    requires AllFit(At(y, side).writer.submitted) && At(y, Other(side)).handlers.receive
    ensures At(y, Other(side)).reader.delivered == DataOf(At(y, side).writer.submitted)
  {
    var s, r := At(y, side), At(y, Other(side));
    StartedFits(s);
    QuietSession(y, side);
    QuietSession(y, Other(side));
    WriterIsDone(s);
    ReaderRefinesDecoder(r);
    DecodeEncodeAll(s.writer.started);
    assert r.reader.decoded == s.writer.started;
    ReaderHasDelivered(r);
  }

  lemma WriterIsDone(s: Session)
    requires WriterOk(s) && s.life.socketOpen && s.strand == [] && s.writer.ops == []
    ensures s.writer.wire == EncodeAll(s.writer.started)
    ensures DataOf(s.writer.started) == DataOf(s.writer.submitted)
  {
  }

  lemma ReaderHasDelivered(r: Session)
    requires ReaderOk(r) && Running(r) && r.handlers.receive && r.reader.inbox == []
    ensures r.reader.delivered == DataOf(r.reader.decoded)
  {
    assert r.reader.delivered + [] == r.reader.delivered;
  }

  /** Everything arrives. When two running sessions have gone quiet, every payload sent on one
      side has been delivered on the other. */
  lemma {:induction false} QuietMeansDelivered(left: Handlers, right: Handlers, ms: seq<Move>, side: Side)
    requires Network.Possible(Start(left, right), ms) && PayloadsFit(SentBy(ms, side))
    requires var y := Network.After(Start(left, right), ms);
      Quiet(y) && Running(y.left) && Running(y.right) && At(y, Other(side)).handlers.receive
    ensures At(Network.After(Start(left, right), ms), Other(side)).reader.delivered == SentBy(ms, side)
  {
    ReachableJoined(left, right, ms);
    SentInRun(left, right, ms, side);
    QuietDelivers(Network.After(Start(left, right), ms), side);
  }

  // ----- running sessions stay running

  /** A handler whose operation ended well, or a write to start. */
  predicate WentWell(t: Task) {
    match t
    case AsyncWrite(_) => true
    case Written(_, error) => error.Ok?
    case HeaderRead(_, error) => error.Ok?
    case BodyRead(_, _, error) => error.Ok?
    case _ => false
  }

  predicate AllWell(ts: seq<Task>) {
    forall t :: t in ts ==> WentWell(t)
  }

  predicate NoExpiry(t: ReadTimer.Timer) {
    t.fired == [] && forall task :: task in t.tasks ==> !task.Expire?
  }

  /** A running session with no failure, no close and no expiry queued. */
  predicate Smooth(s: Session) {
    Running(s) && AllWell(s.strand) && NoExpiry(s.timer)
  }

  predicate Rejected(s: Session) {
    s.reader.ended == Some(HeaderRejected) || s.reader.ended == Some(BodyRejected)
  }

  lemma StartReadStaysSmooth(s: Session, head: Option<Head>)
    requires Smooth(s)
    ensures Smooth(StartRead(s, head))
  {
  }

  lemma NextReadStaysSmooth(s: Session, bytes: seq<Byte>, f: Frame)
    requires Smooth(s)
    ensures Smooth(ReadNext(OnMessageReceived(s, bytes, f)))
  {
    assert Smooth(OnMessageReceived(s, bytes, f));
    StartReadStaysSmooth(OnMessageReceived(s, bytes, f), None);
  }

  lemma ReadTaskStaysSmooth(s: Session)
    requires Smooth(s) && s.strand != [] && IsRead(s.strand[0]) && !Rejected(RunTask(s))
    ensures Smooth(RunTask(s))
  {
    var c, t := AtReadHandler(s), s.strand[0];
    assert t in s.strand;
    assert Smooth(c);
    if t.HeaderRead? {
      var h := DecodeHeader(t.head);
      if h.crc == 0 && h.size != 0 {
        StartReadStaysSmooth(c, Some(t.head));
      } else if h.crc == 0 {
        NextReadStaysSmooth(c, t.head, Frame(h.kind, []));
      }
      assert RunTask(s) == TakeHeader(c, t.head);
    } else {
      NextReadStaysSmooth(c, t.head + t.body, Frame(DecodeHeader(t.head).kind, t.body));
      assert RunTask(s) == TakeBody(c, t.head, t.body);
    }
  }

  lemma TaskStaysSmooth(s: Session)
    requires Smooth(s) && s.strand != [] && !Rejected(RunTask(s))
    ensures Smooth(RunTask(s))
  {
    assert s.strand[0] in s.strand;
    if IsRead(s.strand[0]) {
      ReadTaskStaysSmooth(s);
    }
  }

  lemma TimerTaskStaysSmooth(s: Session, time: nat, period: int)
    requires Smooth(s) && s.timer.tasks != []
    ensures Smooth(RunTimerTask(s, time, period))
  {
    assert s.timer.tasks[0] in s.timer.tasks;
  }

  /** Nothing that goes well makes a running session stop, unless its reader rejects. */
  lemma EventStaysSmooth(s: Session, e: Event)
    requires LifeOk(s) && Smooth(s) && Enabled(s, e) && Benign(s, e) && !Rejected(Apply(s, e))
    ensures Smooth(Apply(s, e))
  {
    match e {
      case TaskRuns => TaskStaysSmooth(s);
      case TimerTaskRuns(time, period) => TimerTaskStaysSmooth(s, time, period);
      case _ =>
    }
  }

  /** A reader whose peer writes frames that fit never rejects. */
  lemma NeverRejects(s: Session, r: Session)
    requires Inv(s) && Inv(r) && Streams(s, r) && AllFit(s.writer.submitted)
    ensures !Rejected(r)
  {
    StartedFits(s);
    ReaderRefinesDecoder(r);
    DecodePrefixOfEncoding(r.reader.received, s.writer.started);
  }

  /** What is queued and under way on one side fits the size field. */
  predicate SendsFit(s: Session) {
    AllPlain(s.writer.submitted) && PayloadsFit(DataOf(s.writer.submitted))
  }

  ghost predicate Calm(y: System) {
    Joined(y) && Smooth(y.left) && Smooth(y.right) && SendsFit(y.left) && SendsFit(y.right)
  }

  /** The same Data submitted on both sides, for the same handlers. */
  predicate SameSends(y: System, y': System) {
    && DataOf(y'.left.writer.submitted) == DataOf(y.left.writer.submitted)
    && DataOf(y'.right.writer.submitted) == DataOf(y.right.writer.submitted)
    && y'.left.handlers == y.left.handlers && y'.right.handlers == y.right.handlers
  }

  lemma EventKeepsSends(s: Session, e: Event)
    requires SendsFit(s) && Enabled(s, e) && Internal(e)
    ensures SendsFit(Apply(s, e)) && DataOf(Apply(s, e).writer.submitted) == DataOf(s.writer.submitted)
  {
    MoveSubmits(s, e);
    assert DataOf(s.writer.submitted) + [] == DataOf(s.writer.submitted);
  }

  lemma SideStaysSmooth(s: Session, peer: Session, e: Event)
    requires Inv(s) && Inv(peer) && Smooth(s) && SendsFit(peer) && Enabled(s, e) && Benign(s, e)
    requires Inv(Apply(s, e)) && Streams(peer, Apply(s, e))
    ensures Smooth(Apply(s, e))
  {
    PlainFits(peer.writer.submitted);
    NeverRejects(peer, Apply(s, e));
    EventStaysSmooth(s, e);
  }

  lemma SideStaysCalm(s: Session, peer: Session, e: Event)
    requires Inv(s) && Inv(peer) && Smooth(s) && SendsFit(s) && SendsFit(peer) && Enabled(s, e) && Benign(s, e)
    requires Inv(Apply(s, e)) && Streams(peer, Apply(s, e))
    ensures var s' := Apply(s, e);
      && Smooth(s') && SendsFit(s') && Balance(s') < Balance(s) && s'.handlers == s.handlers
      && DataOf(s'.writer.submitted) == DataOf(s.writer.submitted)
  {
    SideStaysSmooth(s, peer, e);
    EventKeepsSends(s, e);
    HandlersStayOnce(s, e);
    InternalDrains(s, e);
  }

  lemma StepStaysCalm(y: System, m: Move)
    requires Calm(y) && Can(y, m) && Benign(At(y, m.side), m.event)
    ensures Calm(Step(y, m)) && SameSends(y, Step(y, m))
    ensures Potential(Step(y, m)) < Potential(y)
  {
    StepKeepsJoined(y, m);
    SideStaysCalm(At(y, m.side), At(y, Other(m.side)), m.event);
  }

  /** A run in which nothing fails, expires or is called. */
  predicate BenignRun(y: System, ms: seq<Move>)
    decreases |ms|
  {
    ms == [] || (Can(y, ms[0]) && Benign(At(y, ms[0].side), ms[0].event) && BenignRun(Step(y, ms[0]), ms[1..]))
  }

  lemma {:induction false} BenignIsPossible(y: System, ms: seq<Move>)
    requires BenignRun(y, ms)
    ensures Network.Possible(y, ms)
    decreases |ms|
  {
    if ms != [] {
      BenignIsPossible(Step(y, ms[0]), ms[1..]);
    }
  }

  lemma {:induction false} RunStaysCalm(y: System, ms: seq<Move>)
    requires Calm(y) && BenignRun(y, ms) && Network.Possible(y, ms)
    ensures Calm(Network.After(y, ms)) && SameSends(y, Network.After(y, ms))
    ensures Potential(Network.After(y, ms)) <= Potential(y) - |ms|
    decreases |ms|
  {
    if ms != [] {
      StepStaysCalm(y, ms[0]);
      RunStaysCalm(Step(y, ms[0]), ms[1..]);
    }
  }

  /** A calm system can always go on until it is quiet. */
  lemma {:induction false} GoesQuiet(y: System) returns (ms: seq<Move>)
    requires Calm(y)
    ensures BenignRun(y, ms) && Network.Possible(y, ms) && Quiet(Network.After(y, ms))
    decreases Potential(y)
  {
    PotentialIsNatural(y);
    if Quiet(y) {
      ms := [];
    } else {
      var m :| Can(y, m) && Benign(At(y, m.side), m.event);
      StepStaysCalm(y, m);
      var rest := GoesQuiet(Step(y, m));
      ms := [m] + rest;
      assert ms[1..] == rest;
    }
  }

  lemma CalmDelivers(y: System, side: Side)
    requires Calm(y) && Quiet(y) && At(y, Other(side)).handlers.receive
    ensures At(y, Other(side)).reader.delivered == DataOf(At(y, side).writer.submitted)
  {
    PlainFits(At(y, side).writer.submitted);
    QuietDelivers(y, side);
  }

  /** Both sessions run and the given payloads have all been handed over. */
  predicate HasDelivered(y: System, side: Side, payloads: seq<seq<Byte>>) {
    Running(y.left) && Running(y.right) && At(y, Other(side)).reader.delivered == payloads
  }

  /** The same from a calm state on. */
  lemma CalmRunsDeliver(y: System, more: seq<Move>, side: Side) returns (rest: seq<Move>)
    requires Calm(y) && At(y, Other(side)).handlers.receive && BenignRun(y, more)
    ensures |more| <= Potential(y) && Network.Possible(y, more)
    ensures var z, payloads := Network.After(y, more), DataOf(At(y, side).writer.submitted);
      && Running(z.left) && Running(z.right)
      && (Quiet(z) ==> HasDelivered(z, side, payloads))
      && BenignRun(z, rest) && Network.Possible(z, rest)
      && Quiet(Network.After(z, rest)) && HasDelivered(Network.After(z, rest), side, payloads)
  {
    BenignIsPossible(y, more);
    RunStaysCalm(y, more);
    var z := Network.After(y, more);
    PotentialIsNatural(z);
    if Quiet(z) {
      CalmDelivers(z, side);
    }
    rest := GoesQuiet(z);
    RunStaysCalm(z, rest);
    CalmDelivers(Network.After(z, rest), side);
  }

  lemma {:induction false} ReachableCalm(left: Handlers, right: Handlers, ms: seq<Move>)
    requires Network.Possible(Start(left, right), ms)
    requires PayloadsFit(SentBy(ms, Left)) && PayloadsFit(SentBy(ms, Right))
    requires var y := Network.After(Start(left, right), ms); Smooth(y.left) && Smooth(y.right)
    ensures var y := Network.After(Start(left, right), ms);
      && Calm(y)
      && DataOf(y.left.writer.submitted) == SentBy(ms, Left)
      && DataOf(y.right.writer.submitted) == SentBy(ms, Right)
  {
    ReachableJoined(left, right, ms);
    SubmittedIsSent(Start(left, right), ms, Left);
    SubmittedIsSent(Start(left, right), ms, Right);
  }

  /** Settling. From any state of any run in which both sessions run smoothly, a run in which
      nothing fails is bounded in length; whenever it is quiet, both sessions still run and
      everything sent has been delivered; and from wherever it has come to it can go on
      until that is so. */
  lemma SmoothRunsDeliver(left: Handlers, right: Handlers,
                          ms: seq<Move>, more: seq<Move>, side: Side)
      returns (rest: seq<Move>)
    requires Network.Possible(Start(left, right), ms)
    requires PayloadsFit(SentBy(ms, Left)) && PayloadsFit(SentBy(ms, Right))
    requires var y := Network.After(Start(left, right), ms);
      Smooth(y.left) && Smooth(y.right) && At(y, Other(side)).handlers.receive && BenignRun(y, more)
    ensures var y := Network.After(Start(left, right), ms);
      && |more| <= Potential(y) && Network.Possible(y, more)
      && var z := Network.After(y, more);
      && Running(z.left) && Running(z.right)
      && (Quiet(z) ==> HasDelivered(z, side, SentBy(ms, side)))
      && BenignRun(z, rest) && Network.Possible(z, rest)
      && Quiet(Network.After(z, rest)) && HasDelivered(Network.After(z, rest), side, SentBy(ms, side))
  {
    var y := Network.After(Start(left, right), ms);
    ReachableCalm(left, right, ms);
    rest := CalmRunsDeliver(y, more, side);
  }
}
