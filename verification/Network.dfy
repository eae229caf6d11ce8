/** Two sessions joined by two byte streams. A read takes the next bytes of what the peer
    has put on its wire, in pieces of any size; a stream may also break at any time. */
module Network {
  import opened Asio
  import opened Wire
  import opened WriteQueue
  import opened SessionModel
  import opened SessionWriter
  import opened SessionReader
  import opened SessionInvariant

  datatype System = System(left: Session, right: Session)
  datatype Side = Left | Right
  datatype Move = Move(side: Side, event: Event)

  function Other(side: Side): Side {
    if side.Left? then Right else Left
  }

  function At(y: System, side: Side): Session {
    if side.Left? then y.left else y.right
  }

  function Put(y: System, side: Side, s: Session): System {
    if side.Left? then y.(left := s) else y.(right := s)
  }

  predicate Can(y: System, m: Move) {
    && Enabled(At(y, m.side), m.event)
    && (m.event.BytesArrive? ==>
          At(y, m.side).reader.received + m.event.chunk <= At(y, Other(m.side)).writer.wire)
  }

  function Step(y: System, m: Move): System
    requires Can(y, m)
  {
    Put(y, m.side, Apply(At(y, m.side), m.event))
  }

  predicate Possible(y: System, ms: seq<Move>)
    decreases |ms|
  {
    ms == [] || (Can(y, ms[0]) && Possible(Step(y, ms[0]), ms[1..]))
  }

  function After(y: System, ms: seq<Move>): System
    requires Possible(y, ms)
    decreases |ms|
  {
    if ms == [] then y else After(Step(y, ms[0]), ms[1..])
  }

  function Start(left: Handlers, right: Handlers): System {
    System(Created(left), Created(right))
  }

  // ----- what both ends keep

  /** One direction of the connection. */
  predicate Streams(s: Session, r: Session) {
    r.reader.received <= s.writer.wire
  }

  ghost predicate Joined(y: System) {
    && Inv(y.left) && Inv(y.right)
    && Streams(y.left, y.right) && Streams(y.right, y.left)
  }

  predicate NoBytesMoved(s: Session, s': Session) {
    s'.writer.wire == s.writer.wire && s'.reader.received == s.reader.received
  }

  lemma TaskMovesNoBytes(s: Session)
    requires s.strand != []
    ensures NoBytesMoved(s, RunTask(s))
  {
    match s.strand[0] {
      case HeaderRead(head, error) => HeaderMovesNoBytes(Dequeued(s), head, error);
      case BodyRead(head, body, error) => BodyMovesNoBytes(Dequeued(s), head, body, error);
      case HandshakeDone(error) => HandshakeMovesNoBytes(Dequeued(s), error);
      case _ =>
    }
  }

  lemma HandshakeMovesNoBytes(s: Session, error: Outcome)
    ensures NoBytesMoved(s, HandleHandshake(s, error))
  {
  }

  lemma HeaderMovesNoBytes(s: Session, head: Head, error: Outcome)
    ensures NoBytesMoved(s, HandleReadHeader(s, head, error))
  {
  }

  lemma BodyMovesNoBytes(s: Session, head: Head, body: seq<Byte>, error: Outcome)
    ensures NoBytesMoved(s, HandleReadBody(s, head, body, error))
  {
  }

  /** The wire only grows, and only BytesArrive changes what has been received. */
  lemma OnlyBytesMoveBytes(s: Session, e: Event)
    requires Enabled(s, e)
    ensures s.writer.wire <= Apply(s, e).writer.wire
    ensures Apply(s, e).reader.received == s.reader.received + (if e.BytesArrive? then e.chunk else [])
  {
    match e {
      case TaskRuns => TaskMovesNoBytes(s);
      case _ =>
    }
  }

  lemma MoveKeepsStreams(s: Session, peer: Session, e: Event)
    requires Streams(s, peer) && Streams(peer, s) && Enabled(s, e)
    requires e.BytesArrive? ==> s.reader.received + e.chunk <= peer.writer.wire
    ensures Streams(Apply(s, e), peer) && Streams(peer, Apply(s, e))
  {
    OnlyBytesMoveBytes(s, e);
  }

  lemma StepKeepsJoined(y: System, m: Move)
    requires Joined(y) && Can(y, m)
    ensures Joined(Step(y, m))
  {
    ApplyKeepsInv(At(y, m.side), m.event);
    MoveKeepsStreams(At(y, m.side), At(y, Other(m.side)), m.event);
  }

  lemma {:induction false} RunKeepsJoined(y: System, ms: seq<Move>)
    requires Joined(y) && Possible(y, ms)
    ensures Joined(After(y, ms))
    decreases |ms|
  {
    if ms != [] {
      StepKeepsJoined(y, ms[0]);
      RunKeepsJoined(Step(y, ms[0]), ms[1..]);
    }
  }

  lemma {:induction false} ReachableJoined(left: Handlers, right: Handlers, ms: seq<Move>)
    requires Possible(Start(left, right), ms)
    ensures Joined(After(Start(left, right), ms))
  {
    CreatedInv(left);
    CreatedInv(right);
    RunKeepsJoined(Start(left, right), ms);
  }

  // ----- what the application passed to send()

  /** The payloads one side's application has sent in the course of a run. */
  function SentBy(ms: seq<Move>, side: Side): seq<seq<Byte>> {
    if ms == [] then []
    else (if ms[0].side == side && ms[0].event.SendCall? then [ms[0].event.payload] else []) + SentBy(ms[1..], side)
  }

  function PayloadsOf(e: Event): seq<seq<Byte>> {
    if e.SendCall? then [e.payload] else []
  }

  /** The two control messages a session sends have no payload. */
  predicate Plain(f: Frame) {
    f.kind == DATA || f == PingMessage || f == PongMessage
  }

  predicate AllPlain(fs: seq<Frame>) {
    forall f :: f in fs ==> Plain(f)
  }

  /** The frames an event submits: at most one, and Data only for a send() call. */
  ghost predicate Grows(fs: seq<Frame>, fs': seq<Frame>, payloads: seq<seq<Byte>>) {
    || (fs' == fs && payloads == [])
    || (exists f :: Plain(f) && fs' == fs + [f] && DataOf([f]) == payloads)
  }

  lemma {:induction false} GrownData(fs: seq<Frame>, fs': seq<Frame>, payloads: seq<seq<Byte>>)
    requires AllPlain(fs) && Grows(fs, fs', payloads)
    ensures DataOf(fs') == DataOf(fs) + payloads && AllPlain(fs')
  {
    if fs' != fs {
      var f :| Plain(f) && fs' == fs + [f] && DataOf([f]) == payloads;
      DataOfConcat(fs, [f]);
    } else {
      assert DataOf(fs) + [] == DataOf(fs);
    }
  }

  /** Nothing, or a Pong. */
  predicate PongAtMost(s: Session, s': Session) {
    || s'.writer.submitted == s.writer.submitted
    || s'.writer.submitted == s.writer.submitted + [PongMessage]
  }

  lemma HeaderSubmits(s: Session, head: Head, error: Outcome)
    ensures PongAtMost(s, HandleReadHeader(s, head, error))
  {
  }

  lemma BodySubmits(s: Session, head: Head, body: seq<Byte>, error: Outcome)
    ensures PongAtMost(s, HandleReadBody(s, head, body, error))
  {
  }

  lemma TaskSubmits(s: Session)
    requires s.strand != []
    ensures PongAtMost(s, RunTask(s))
  {
    match s.strand[0] {
      case HeaderRead(head, error) => HeaderSubmits(Dequeued(s), head, error);
      case BodyRead(head, body, error) => BodySubmits(Dequeued(s), head, body, error);
      case _ =>
    }
  }

  lemma EventSubmits(s: Session, e: Event)
    requires Enabled(s, e)
    ensures Grows(s.writer.submitted, Apply(s, e).writer.submitted, PayloadsOf(e))
  {
    match e {
      case TaskRuns =>
        TaskSubmits(s);
        assert Plain(PongMessage) && DataOf([PongMessage]) == [];
      case SendCall(payload) =>
        assert Plain(Frame(DATA, payload)) && DataOf([Frame(DATA, payload)]) == [payload];
      case TimerTaskRuns(_, _) =>
        assert Plain(PingMessage) && DataOf([PingMessage]) == [];
      case _ =>
    }
  }

  lemma MoveSubmits(s: Session, e: Event)
    requires Enabled(s, e) && AllPlain(s.writer.submitted)
    ensures var s' := Apply(s, e);
      DataOf(s'.writer.submitted) == DataOf(s.writer.submitted) + PayloadsOf(e) && AllPlain(s'.writer.submitted)
  {
    EventSubmits(s, e);
    GrownData(s.writer.submitted, Apply(s, e).writer.submitted, PayloadsOf(e));
  }

  /** One session has submitted the payloads since, in that order. */
  predicate HasSent(s: Session, s': Session, payloads: seq<seq<Byte>>) {
    DataOf(s'.writer.submitted) == DataOf(s.writer.submitted) + payloads && AllPlain(s'.writer.submitted)
  }

  lemma HasSentCompose(s: Session, s': Session, s'': Session, a: seq<seq<Byte>>, b: seq<seq<Byte>>)
    requires HasSent(s, s', a) && HasSent(s', s'', b)
    ensures HasSent(s, s'', a + b)
  {
    assert DataOf(s.writer.submitted) + a + b == DataOf(s.writer.submitted) + (a + b);
  }

  /** The Data submitted by a session is what its application sent, in that order. */
  lemma {:induction false} SubmittedIsSent(y: System, ms: seq<Move>, side: Side)
    requires Possible(y, ms) && AllPlain(At(y, side).writer.submitted)
    ensures HasSent(At(y, side), At(After(y, ms), side), SentBy(ms, side))
    decreases |ms|
  {
    if ms != [] {
      var y' := Step(y, ms[0]);
      var now := if ms[0].side == side then PayloadsOf(ms[0].event) else [];
      if ms[0].side == side {
        MoveSubmits(At(y, side), ms[0].event);
      }
      assert HasSent(At(y, side), At(y', side), now);
      SubmittedIsSent(y', ms[1..], side);
      HasSentCompose(At(y, side), At(y', side), At(After(y, ms), side), now, SentBy(ms[1..], side));
    }
  }

  predicate PayloadsFit(payloads: seq<seq<Byte>>) {
    forall p :: p in payloads ==> |p| < SIZE_LIMIT
  }

  lemma {:induction false} PlainFits(fs: seq<Frame>)
    requires AllPlain(fs) && PayloadsFit(DataOf(fs))
    ensures AllFit(fs)
  {
    if fs != [] {
      assert fs == [fs[0]] + fs[1..] && fs[0] in fs;
      if fs[0].kind == DATA {
        assert DataOf(fs)[0] == fs[0].payload;
      }
      PlainFits(fs[1..]);
    }
  }

  // ----- the two ends of one stream

  /** What a reader has decoded is a prefix of what the peer's writer has begun. */
  lemma DecodedIsStarted(s: Session, r: Session)
    requires Inv(s) && Inv(r) && Streams(s, r) && AllFit(s.writer.started)
    ensures r.reader.decoded <= s.writer.started
  {
    ReaderRefinesDecoder(r);
    DecodePrefixOfEncoding(r.reader.received, s.writer.started);
  }

  lemma StartedFits(s: Session)
    requires Sound(s.writer) && AllFit(s.writer.submitted)
    ensures AllFit(s.writer.started)
  {
    forall f | f in s.writer.started ensures Fits(f) {
      assert f in multiset(s.writer.started);
      assert f in multiset(s.writer.submitted);
    }
  }

  lemma DeliveredIsSent(s: Session, r: Session)
    requires Inv(s) && Inv(r) && Streams(s, r) && AllFit(s.writer.submitted)
    ensures r.reader.delivered <= DataOf(s.writer.submitted)
  {
    StartedFits(s);
    DecodedIsStarted(s, r);
    DataOfPrefix(r.reader.decoded, s.writer.started);
    ReaderDelivery(r);
    assert r.reader.delivered <= r.reader.delivered + r.reader.inbox;
  }

  lemma ReaderDelivery(r: Session)
    requires ReaderOk(r)
    ensures r.reader.delivered + r.reader.inbox <= DataOf(r.reader.decoded)
  {
  }

  /** What a run leaves in a writer: just what the application sent, all of it fitting. */
  lemma {:induction false} SentInRun(left: Handlers, right: Handlers, ms: seq<Move>, side: Side)
    requires Possible(Start(left, right), ms) && PayloadsFit(SentBy(ms, side))
    ensures var w := At(After(Start(left, right), ms), side).writer;
      DataOf(w.submitted) == SentBy(ms, side) && AllFit(w.submitted)
  {
    SubmittedIsSent(Start(left, right), ms, side);
    PlainFits(At(After(Start(left, right), ms), side).writer.submitted);
  }

  lemma JoinedDelivers(y: System, side: Side)
    requires Joined(y) && AllFit(At(y, side).writer.submitted)
    ensures At(y, Other(side)).reader.delivered <= DataOf(At(y, side).writer.submitted)
    ensures At(y, Other(side)).reader.decoded <= At(y, side).writer.started
  {
    DeliveredIsSent(At(y, side), At(y, Other(side)));
    StartedFits(At(y, side));
    DecodedIsStarted(At(y, side), At(y, Other(side)));
  }

  /** End-to-end order. In every state of every run of the two sessions, under any cutting of
      the streams, any interleaving and any failures and closes, the payloads that one
      application's receive handler has had are a prefix of the payloads that the other
      application has sent: none is lost in the middle, duplicated or reordered,
      although Ping and Pong overtake. */
  lemma {:induction false} EndToEndOrder(left: Handlers, right: Handlers, ms: seq<Move>, side: Side)
    requires Possible(Start(left, right), ms) && PayloadsFit(SentBy(ms, side))
    ensures At(After(Start(left, right), ms), Other(side)).reader.delivered <= SentBy(ms, side)
  {
    ReachableJoined(left, right, ms);
    SentInRun(left, right, ms, side);
    JoinedDelivers(After(Start(left, right), ms), side);
  }

  /** What one side has dispatched is, at any time and after any failure, a prefix of the frames
      whose write the other side has begun. */
  lemma {:induction false} PeerDecodesWhatWasWritten(left: Handlers, right: Handlers, ms: seq<Move>, side: Side)
    requires Possible(Start(left, right), ms) && PayloadsFit(SentBy(ms, side))
    ensures var y := After(Start(left, right), ms);
      At(y, Other(side)).reader.decoded <= At(y, side).writer.started
  {
    ReachableJoined(left, right, ms);
    SentInRun(left, right, ms, side);
    JoinedDelivers(After(Start(left, right), ms), side);
  }
}
