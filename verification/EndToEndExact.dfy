/** The end-to-end law with its exact condition. Runs that deliver are built step by step: they
    show that every list of payloads that fit can be delivered, and that a payload that does
    not fit can arrive cut down to its length modulo 2^32. */
module EndToEndExact {
  import opened Asio
  import opened Wire
  import opened SessionModel
  import opened Network
  import opened SessionTheorems

  const AllHandlers := Handlers(true, true, true)

  // ----- one session's part of a run

  predicate StrandRests(s: Session) {
    s.life.socketOpen && s.life.connected && s.life.phase == Done(true) && s.strand == []
  }

  predicate WriterRests(s: Session) {
    StrandRests(s) && s.writer.queue == [] && s.writer.ops == []
  }

  predicate ReaderRests(s: Session) {
    StrandRests(s) && s.handlers.receive && s.reader.ops == [ReadOp(None, [], false)] && s.reader.inbox == []
  }

  const OpeningEvents := [OpenCall] + [TaskRuns] + [HandshakeEnds(Ok)] + [TaskRuns]

  lemma {:induction false} Opens(s: Session)
    requires s == Created(AllHandlers)
    ensures SessionTheorems.Possible(s, OpeningEvents)
    ensures var s' := SessionTheorems.After(s, OpeningEvents);
      && WriterRests(s') && ReaderRests(s')
      && s'.writer.wire == [] && s'.reader.received == [] && s'.reader.delivered == []
  {
    var s1 := Apply(s, OpenCall);
    assert s1.strand == [AsyncHandshake];
    var s2 := Apply(s1, TaskRuns);
    assert s2.strand == [];
    var s3 := Apply(s2, HandshakeEnds(Ok));
    assert s3.strand == [HandshakeDone(Ok)];
    AfterMore(s, [], OpenCall);
    assert [] + [OpenCall] == [OpenCall];
    AfterMore(s, [OpenCall], TaskRuns);
    AfterMore(s, [OpenCall] + [TaskRuns], HandshakeEnds(Ok));
    AfterMore(s, [OpenCall] + [TaskRuns] + [HandshakeEnds(Ok)], TaskRuns);
  }

  function PutOnWire(f: Frame): seq<Event> {
    [SendCall(f.payload)] + [TaskRuns] + [BytesLeave(0, |EncodeFrame(f)|)]
  }

  function WritingEvents(f: Frame): seq<Event> {
    PutOnWire(f) + [WriteEnds(0, Ok)] + [TaskRuns]
  }

  lemma {:induction false} Emits(s: Session, f: Frame)
    requires WriterRests(s) && f.kind == DATA
    ensures SessionTheorems.Possible(s, PutOnWire(f))
    ensures var s' := SessionTheorems.After(s, PutOnWire(f));
      && StrandRests(s') && s'.reader == s.reader && s'.handlers == s.handlers
      && s'.writer.queue == [f] && s'.writer.ops == [WriteOp(f, |EncodeFrame(f)|, false)]
      && s'.writer.wire == s.writer.wire + EncodeFrame(f)
  {
    var n := |EncodeFrame(f)|;
    var s1 := Apply(s, SendCall(f.payload));
    assert s1.writer.queue == [f] && s1.strand == [AsyncWrite(f)];
    var s2 := Apply(s1, TaskRuns);
    assert s2.strand == [] && s2.writer.ops == [WriteOp(f, 0, false)];
    assert EncodeFrame(f)[0..n] == EncodeFrame(f);
    AfterMore(s, [], SendCall(f.payload));
    assert [] + [SendCall(f.payload)] == [SendCall(f.payload)];
    AfterMore(s, [SendCall(f.payload)], TaskRuns);
    AfterMore(s, [SendCall(f.payload)] + [TaskRuns], BytesLeave(0, n));
  }

  lemma {:induction false} Writes(s: Session, f: Frame)
    requires WriterRests(s) && f.kind == DATA
    ensures SessionTheorems.Possible(s, WritingEvents(f))
    ensures var s' := SessionTheorems.After(s, WritingEvents(f));
      && WriterRests(s') && s'.writer.wire == s.writer.wire + EncodeFrame(f)
      && s'.reader == s.reader && s'.handlers == s.handlers
  {
    Emits(s, f);
    var s3 := SessionTheorems.After(s, PutOnWire(f));
    var s4 := Apply(s3, WriteEnds(0, Ok));
    assert s4.writer.ops == [] && s4.strand == [Written(f, Ok)];
    AfterMore(s, PutOnWire(f), WriteEnds(0, Ok));
    AfterMore(s, PutOnWire(f) + [WriteEnds(0, Ok)], TaskRuns);
  }

  function HeaderEvents(head: Head): seq<Event> {
    [BytesArrive(0, head)] + [ReadEnds(0, Ok)] + [TaskRuns]
  }

  function Arrival(bytes: seq<Byte>): seq<Event> {
    [BytesArrive(0, bytes)] + [ReadEnds(0, Ok)]
  }

  /** All bytes of the read under way arrive at once and the read completes. */
  lemma {:induction false} Arrives(s: Session, op: ReadOp, bytes: seq<Byte>)
    requires StrandRests(s) && s.reader.ops == [op] && op.got == [] && |bytes| == Needed(op) && bytes != []
    ensures SessionTheorems.Possible(s, Arrival(bytes))
    ensures var s' := SessionTheorems.After(s, Arrival(bytes));
      && s'.strand == [if op.head.None? then HeaderRead(Fill(bytes), Ok) else BodyRead(op.head.value, bytes, Ok)]
      && s'.life == s.life && s'.writer == s.writer && s'.handlers == s.handlers
      && s'.reader == s.reader.(ops := [], received := s.reader.received + bytes)
  {
    var s1 := Apply(s, BytesArrive(0, bytes));
    assert s1.reader.ops == [op.(got := bytes)] by {
      assert [] + bytes == bytes;
    }
    AfterMore(s, [], BytesArrive(0, bytes));
    assert [] + [BytesArrive(0, bytes)] == [BytesArrive(0, bytes)];
    AfterMore(s, [BytesArrive(0, bytes)], ReadEnds(0, Ok));
  }

  /** A Data header is read: an empty message is dispatched, for another a body read begins. */
  lemma {:induction false} ReadsHeader(s: Session, head: Head)
    requires ReaderRests(s) && DecodeHeader(head).crc == 0 && DecodeHeader(head).kind == DATA
    ensures SessionTheorems.Possible(s, HeaderEvents(head))
    ensures var s' := SessionTheorems.After(s, HeaderEvents(head));
      && StrandRests(s') && s'.writer == s.writer && s'.handlers == s.handlers
      && s'.reader.received == s.reader.received + head && s'.reader.delivered == s.reader.delivered
      && if DecodeHeader(head).size == 0 then
           s'.reader.ops == [ReadOp(None, [], false)] && s'.reader.inbox == [[]]
         else
           s'.reader.ops == [ReadOp(Some(head), [], false)] && s'.reader.inbox == []
  {
    Arrives(s, ReadOp(None, [], false), head);
    assert Fill(head) == head;
    HeaderTaken(SessionTheorems.After(s, Arrival(head)), head);
    AfterMore(s, Arrival(head), TaskRuns);
  }

  lemma HeaderTaken(s: Session, head: Head)
    requires s.strand == [HeaderRead(head, Ok)] && s.life.connected && s.reader.ops == [] && s.reader.inbox == []
    requires DecodeHeader(head).crc == 0 && DecodeHeader(head).kind == DATA && s.handlers.receive
    ensures var s' := RunTask(s);
      && s'.strand == [] && s'.life == s.life && s'.writer == s.writer && s'.handlers == s.handlers
      && s'.reader.received == s.reader.received && s'.reader.delivered == s.reader.delivered
      && if DecodeHeader(head).size == 0 then
           s'.reader.ops == [ReadOp(None, [], false)] && s'.reader.inbox == [[]]
         else
           s'.reader.ops == [ReadOp(Some(head), [], false)] && s'.reader.inbox == []
  {
  }

  lemma BodyTaken(s: Session, head: Head, body: seq<Byte>)
    requires s.strand == [BodyRead(head, body, Ok)] && s.life.connected && s.reader.ops == [] && s.reader.inbox == []
    requires DecodeHeader(head).payloadCrc == 0 && DecodeHeader(head).kind == DATA && s.handlers.receive
    ensures var s' := RunTask(s);
      && s'.strand == [] && s'.life == s.life && s'.writer == s.writer && s'.handlers == s.handlers
      && s'.reader.received == s.reader.received && s'.reader.delivered == s.reader.delivered
      && s'.reader.ops == [ReadOp(None, [], false)] && s'.reader.inbox == [body]
  {
  }

  function BodyEvents(body: seq<Byte>): seq<Event> {
    [BytesArrive(0, body)] + [ReadEnds(0, Ok)] + [TaskRuns]
  }

  lemma {:induction false} ReadsBody(s: Session, head: Head, body: seq<Byte>)
    requires StrandRests(s) && s.handlers.receive
    requires s.reader.ops == [ReadOp(Some(head), [], false)] && s.reader.inbox == []
    requires DecodeHeader(head).kind == DATA && DecodeHeader(head).payloadCrc == 0
    requires DecodeHeader(head).size == |body| && body != []
    ensures SessionTheorems.Possible(s, BodyEvents(body))
    ensures var s' := SessionTheorems.After(s, BodyEvents(body));
      && StrandRests(s') && s'.writer == s.writer && s'.handlers == s.handlers
      && s'.reader.received == s.reader.received + body && s'.reader.delivered == s.reader.delivered
      && s'.reader.ops == [ReadOp(None, [], false)] && s'.reader.inbox == [body]
  {
    Arrives(s, ReadOp(Some(head), [], false), body);
    BodyTaken(SessionTheorems.After(s, Arrival(body)), head, body);
    AfterMore(s, Arrival(body), TaskRuns);
  }

  /** The events with which a reader at rest takes one frame whose header announces the body. */
  function ReadingEvents(head: Head, body: seq<Byte>): seq<Event> {
    HeaderEvents(head) + (if body == [] then [] else BodyEvents(body)) + [PayloadHandedOver]
  }

  lemma {:induction false} ReadsFrame(s: Session, head: Head, body: seq<Byte>)
    requires ReaderRests(s) && Accepts(head, body) && DecodeHeader(head).kind == DATA
    ensures SessionTheorems.Possible(s, ReadingEvents(head, body))
    ensures var s' := SessionTheorems.After(s, ReadingEvents(head, body));
      && ReaderRests(s') && s'.writer == s.writer
      && s'.reader.received == s.reader.received + (head + body)
      && s'.reader.delivered == s.reader.delivered + [body]
  {
    var es := HeaderEvents(head);
    ReadsHeader(s, head);
    var s1 := SessionTheorems.After(s, es);
    if body == [] {
      assert es + [] == es && head + body == head;
    } else {
      ReadsBody(s1, head, body);
      AfterConcat(s, es, BodyEvents(body));
      es := es + BodyEvents(body);
      assert s.reader.received + head + body == s.reader.received + (head + body);
    }
    HandsOver(s, es, body);
  }

  lemma {:induction false} HandsOver(s: Session, es: seq<Event>, body: seq<Byte>)
    requires SessionTheorems.Possible(s, es)
    requires var s2 := SessionTheorems.After(s, es);
      StrandRests(s2) && s2.handlers.receive && s2.reader.ops == [ReadOp(None, [], false)] && s2.reader.inbox == [body]
    ensures SessionTheorems.Possible(s, es + [PayloadHandedOver])
    ensures var s2, s' := SessionTheorems.After(s, es), SessionTheorems.After(s, es + [PayloadHandedOver]);
      && ReaderRests(s') && s'.writer == s2.writer && s'.reader.received == s2.reader.received
      && s'.reader.delivered == s2.reader.delivered + [body]
  {
    AfterMore(s, es, PayloadHandedOver);
  }

  /** What a reader at rest makes of one message on the stream: the payload it delivers is the
      part that the size field announces. */
  lemma Reads(s: Session, f: Frame) returns (es: seq<Event>)
    requires ReaderRests(s) && f.kind == DATA
    ensures SessionTheorems.Possible(s, es) && SendsNothing(es)
    ensures var n := |f.payload| % SIZE_LIMIT;
      var s' := SessionTheorems.After(s, es);
      && ReaderRests(s') && s'.writer == s.writer
      && s'.reader.received == s.reader.received + EncodeFrame(f)[..HEADER_SIZE + n]
      && s'.reader.delivered == s.reader.delivered + [f.payload[..n]]
  {
    var head: Head := EncodeHeader(HeaderOf(f));
    var body := f.payload[..|f.payload| % SIZE_LIMIT];
    DecodeEncodeHeader(HeaderOf(f));
    assert EncodeFrame(f)[..HEADER_SIZE + |body|] == head + body;
    ReadsFrame(s, head, body);
    es := ReadingEvents(head, body);
  }

  predicate SendsNothing(es: seq<Event>) {
    forall e :: e in es ==> !e.SendCall?
  }

  // ----- from one session to two

  function Moves(side: Side, es: seq<Event>): seq<Move> {
    if es == [] then [] else [Move(side, es[0])] + Moves(side, es[1..])
  }

  /** One side's events are moves of the system if the bytes they take are on the peer's wire. */
  lemma {:induction false} Lift(y: System, side: Side, es: seq<Event>)
    requires SessionTheorems.Possible(At(y, side), es)
    requires SessionTheorems.After(At(y, side), es).reader.received <= At(y, Other(side)).writer.wire
    ensures At(y, side).reader.received <= SessionTheorems.After(At(y, side), es).reader.received
    ensures Network.Possible(y, Moves(side, es))
    ensures Network.After(y, Moves(side, es)) == Put(y, side, SessionTheorems.After(At(y, side), es))
    decreases |es|
  {
    if es != [] {
      var m := Move(side, es[0]);
      var y' := Put(y, side, Apply(At(y, side), es[0]));
      OnlyBytesMoveBytes(At(y, side), es[0]);
      Lift(y', side, es[1..]);
      assert Can(y, m);
      assert Moves(side, es)[1..] == Moves(side, es[1..]);
    }
  }

  /** The moves lead from one state to another while the left side sends the payloads. */
  predicate Leads(y: System, ms: seq<Move>, payloads: seq<seq<Byte>>, y': System) {
    Network.Possible(y, ms) && Network.After(y, ms) == y' && SentBy(ms, Left) == payloads
  }

  function SentByOne(m: Move): seq<seq<Byte>> {
    if m.side == Left then PayloadsOf(m.event) else []
  }

  lemma LeadsRest(y: System, ms: seq<Move>, payloads: seq<seq<Byte>>, y': System)
    requires ms != [] && Leads(y, ms, payloads, y')
    ensures Can(y, ms[0]) && Leads(Step(y, ms[0]), ms[1..], SentBy(ms[1..], Left), y')
    ensures payloads == SentByOne(ms[0]) + SentBy(ms[1..], Left)
  {
  }

  lemma LeadsFirst(y: System, m: Move, ms: seq<Move>, payloads: seq<seq<Byte>>, y': System)
    requires Can(y, m) && Leads(Step(y, m), ms, payloads, y')
    ensures Leads(y, [m] + ms, SentByOne(m) + payloads, y')
  {
    assert ([m] + ms)[1..] == ms;
  }

  lemma {:induction false} LeadsOn(y: System, ms: seq<Move>, payloads: seq<seq<Byte>>, y': System,
                                   more: seq<Move>, further: seq<seq<Byte>>, y'': System)
    requires Leads(y, ms, payloads, y') && Leads(y', more, further, y'')
    ensures Leads(y, ms + more, payloads + further, y'')
    decreases |ms|
  {
    if ms == [] {
      assert ms + more == more && payloads + further == further;
    } else {
      var rest := SentBy(ms[1..], Left);
      LeadsRest(y, ms, payloads, y');
      LeadsOn(Step(y, ms[0]), ms[1..], rest, y', more, further, y'');
      LeadsFirst(y, ms[0], ms[1..] + more, rest + further, y'');
      assert ms + more == [ms[0]] + (ms[1..] + more);
      assert payloads + further == SentByOne(ms[0]) + (rest + further);
    }
  }

  lemma {:induction false} SentByMoves(side: Side, es: seq<Event>)
    requires side == Right || SendsNothing(es)
    ensures SentBy(Moves(side, es), Left) == []
  {
    if es != [] {
      assert es[0] in es;
      assert Moves(side, es)[1..] == Moves(side, es[1..]);
      SentByMoves(side, es[1..]);
    }
  }

  lemma SentByWriting(f: Frame)
    ensures SentBy(Moves(Left, WritingEvents(f)), Left) == [f.payload]
  {
    var es := WritingEvents(f);
    assert es[0] == SendCall(f.payload);
    assert Moves(Left, es)[0] == Move(Left, es[0]) && Moves(Left, es)[1..] == Moves(Left, es[1..]);
    SentByMoves(Left, es[1..]);
  }

  /** Both sides open, the left one free to write, the right one having read everything. */
  predicate Ready(y: System) {
    && WriterRests(y.left) && ReaderRests(y.right)
    && y.right.reader.received == y.left.writer.wire
    && y.left.reader.received <= y.right.writer.wire
  }

  lemma BothOpen() returns (ms: seq<Move>, y': System)
    ensures Leads(Start(AllHandlers, AllHandlers), ms, [], y') && Ready(y') && y'.right.reader.delivered == []
  {
    var y := Start(AllHandlers, AllHandlers);
    Opens(Created(AllHandlers));
    Lift(y, Left, OpeningEvents);
    SentByMoves(Left, OpeningEvents);
    var y1 := Put(y, Left, SessionTheorems.After(y.left, OpeningEvents));
    assert Leads(y, Moves(Left, OpeningEvents), [], y1);
    Lift(y1, Right, OpeningEvents);
    SentByMoves(Right, OpeningEvents);
    y' := Put(y1, Right, SessionTheorems.After(y.right, OpeningEvents));
    assert Leads(y1, Moves(Right, OpeningEvents), [], y');
    ms := Moves(Left, OpeningEvents) + Moves(Right, OpeningEvents);
    LeadsOn(y, Moves(Left, OpeningEvents), [], y1, Moves(Right, OpeningEvents), [], y');
  }

  lemma Leaves(y: System, f: Frame) returns (ms: seq<Move>, y': System)
    requires Ready(y) && f.kind == DATA
    ensures Leads(y, ms, [f.payload], y')
    ensures WriterRests(y'.left) && y'.left.writer.wire == y.left.writer.wire + EncodeFrame(f)
    ensures y'.left.reader == y.left.reader && y'.right == y.right
  {
    Writes(y.left, f);
    Lift(y, Left, WritingEvents(f));
    SentByWriting(f);
    ms, y' := Moves(Left, WritingEvents(f)), Put(y, Left, SessionTheorems.After(y.left, WritingEvents(f)));
  }

  /** One payload goes over; what arrives is the part its size field announces. */
  lemma GoesOver(y: System, payload: seq<Byte>) returns (ms: seq<Move>, y': System)
    requires Ready(y)
    ensures Leads(y, ms, [payload], y') && WriterRests(y'.left)
    ensures y'.right.reader.delivered == y.right.reader.delivered + [payload[..|payload| % SIZE_LIMIT]]
    ensures |payload| < SIZE_LIMIT ==> Ready(y')
  {
    var f, n := Frame(DATA, payload), |payload| % SIZE_LIMIT;
    var y1;
    ms, y1 := Leaves(y, f);
    var es := Reads(y1.right, f);
    y' := Put(y1, Right, SessionTheorems.After(y1.right, es));
    Cut(y.left.writer.wire, EncodeFrame(f), HEADER_SIZE + n);
    Lift(y1, Right, es);
    SentByMoves(Right, es);
    LeadsOn(y, ms, [payload], y1, Moves(Right, es), [], y');
    assert [payload] + [] == [payload];
    ms := ms + Moves(Right, es);
    assert |payload| < SIZE_LIMIT ==> EncodeFrame(f)[..HEADER_SIZE + n] == EncodeFrame(f);
  }

  lemma Cut(a: seq<Byte>, b: seq<Byte>, n: nat)
    requires n <= |b|
    ensures a + b[..n] <= a + b
  {
  }

  /** Such a run ends ready for more, having delivered just these payloads. */
  predicate Delivers(y: System, ms: seq<Move>, payloads: seq<seq<Byte>>, y': System) {
    Leads(y, ms, payloads, y') && y'.right.reader.delivered == y.right.reader.delivered + payloads
  }

  lemma DeliversOn(y: System, ms: seq<Move>, payloads: seq<seq<Byte>>, y': System,
                   more: seq<Move>, further: seq<seq<Byte>>, y'': System)
    requires Delivers(y, ms, payloads, y') && Delivers(y', more, further, y'')
    ensures Delivers(y, ms + more, payloads + further, y'')
  {
    LeadsOn(y, ms, payloads, y', more, further, y'');
    assert y.right.reader.delivered + payloads + further == y.right.reader.delivered + (payloads + further);
  }

  lemma OneGoesOver(y: System, payload: seq<Byte>) returns (ms: seq<Move>, y': System)
    requires Ready(y) && |payload| < SIZE_LIMIT
    ensures Delivers(y, ms, [payload], y') && Ready(y')
  {
    ms, y' := GoesOver(y, payload);
    assert payload[..|payload| % SIZE_LIMIT] == payload;
  }

  /** Every list of payloads that fit can be sent and delivered. */
  lemma {:induction false} AllGoOver(y: System, payloads: seq<seq<Byte>>) returns (ms: seq<Move>, y': System)
    requires Ready(y) && PayloadsFit(payloads)
    ensures Delivers(y, ms, payloads, y') && Ready(y')
    decreases |payloads|
  {
    if payloads == [] {
      ms, y' := [], y;
      assert Delivers(y, [], [], y);
    } else {
      var p, rest := payloads[0], payloads[1..];
      assert payloads == [p] + rest;
      assert p in payloads && PayloadsFit(rest);
      var first, y1 := OneGoesOver(y, p);
      var more;
      more, y' := AllGoOver(y1, rest);
      DeliversOn(y, first, [p], y1, more, rest, y');
      ms := first + more;
    }
  }

  /** Once its handshake is done a session accepts any further sends. */
  lemma {:induction false} MoreSends(y: System, payloads: seq<seq<Byte>>) returns (ms: seq<Move>, y': System)
    requires y.left.life.phase == Done(true)
    ensures Leads(y, ms, payloads, y') && y'.right == y.right
    decreases |payloads|
  {
    if payloads == [] {
      ms, y' := [], y;
    } else {
      var m := Move(Left, SendCall(payloads[0]));
      var more;
      more, y' := MoreSends(Step(y, m), payloads[1..]);
      ms := [m] + more;
      assert ms[1..] == more;
    }
  }

  lemma FirstOversized(payloads: seq<seq<Byte>>) returns (k: nat)
    requires !PayloadsFit(payloads)
    ensures k < |payloads| && |payloads[k]| >= SIZE_LIMIT && PayloadsFit(payloads[..k])
  {
    k := 0;
    while |payloads[k]| < SIZE_LIMIT
      invariant k < |payloads| && PayloadsFit(payloads[..k]) && !PayloadsFit(payloads[k..])
      decreases |payloads| - k
    {
      assert payloads[..k + 1] == payloads[..k] + [payloads[k]];
      assert payloads[k..] == [payloads[k]] + payloads[k + 1..];
      k := k + 1;
    }
  }

  /** From two new sessions on, every list of payloads that fit can be sent and delivered. */
  lemma CanDeliverAll(payloads: seq<seq<Byte>>) returns (ms: seq<Move>, y': System)
    requires PayloadsFit(payloads)
    ensures Leads(Start(AllHandlers, AllHandlers), ms, payloads, y') && Ready(y')
    ensures y'.right.reader.delivered == payloads
  {
    var opening, y1 := BothOpen();
    var more;
    more, y' := AllGoOver(y1, payloads);
    LeadsOn(Start(AllHandlers, AllHandlers), opening, [], y1, more, payloads, y');
    assert [] + payloads == payloads;
    ms := opening + more;
  }

  /** A run up to the first oversized payload, which arrives cut. */
  lemma OneTooLong(fitting: seq<seq<Byte>>, last: seq<Byte>) returns (ms: seq<Move>, y': System)
    requires PayloadsFit(fitting) && |last| >= SIZE_LIMIT
    ensures Leads(Start(AllHandlers, AllHandlers), ms, fitting + [last], y') && WriterRests(y'.left)
    ensures var d := y'.right.reader.delivered; |d| == |fitting| + 1 && |d[|fitting|]| < |last|
  {
    var first, y1 := CanDeliverAll(fitting);
    var more;
    more, y' := GoesOver(y1, last);
    LeadsOn(Start(AllHandlers, AllHandlers), first, fitting, y1, more, [last], y');
    ms := first + more;
  }

  lemma UpToOversized(payloads: seq<seq<Byte>>, k: nat) returns (ms: seq<Move>, y': System)
    requires k < |payloads| && PayloadsFit(payloads[..k]) && |payloads[k]| >= SIZE_LIMIT
    ensures Leads(Start(AllHandlers, AllHandlers), ms, payloads[..k + 1], y') && WriterRests(y'.left)
    ensures |y'.right.reader.delivered| == k + 1 && |y'.right.reader.delivered[k]| < |payloads[k]|
  {
    ms, y' := OneTooLong(payloads[..k], payloads[k]);
    assert payloads[..k] + [payloads[k]] == payloads[..k + 1];
  }

  /** A list with an oversized payload has a run whose deliveries are not a prefix of it. */
  lemma OversizedBreaksOrder(payloads: seq<seq<Byte>>) returns (ms: seq<Move>, y': System)
    requires !PayloadsFit(payloads)
    ensures Leads(Start(AllHandlers, AllHandlers), ms, payloads, y')
    ensures !(y'.right.reader.delivered <= payloads)
  {
    var k := FirstOversized(payloads);
    var y1, more;
    ms, y1 := UpToOversized(payloads, k);
    more, y' := MoreSends(y1, payloads[k + 1..]);
    LeadsOn(Start(AllHandlers, AllHandlers), ms, payloads[..k + 1], y1, more, payloads[k + 1..], y');
    assert payloads[..k + 1] + payloads[k + 1..] == payloads;
    ms := ms + more;
  }

  /** Data sent by one side is delivered in order, exactly once, as far as it is delivered. */
  ghost predicate AlwaysInOrder(payloads: seq<seq<Byte>>) {
    forall ms :: Network.Possible(Start(AllHandlers, AllHandlers), ms) && SentBy(ms, Left) == payloads ==>
      Network.After(Start(AllHandlers, AllHandlers), ms).right.reader.delivered <= payloads
  }

  /** The end-to-end law holds of a list of payloads, in all runs that send it, if and only if
      each of them is shorter than 2^32 bytes. */
  lemma EndToEndExactly(payloads: seq<seq<Byte>>)
    ensures AlwaysInOrder(payloads) <==> forall p :: p in payloads ==> |p| < 4294967296
  {
    if PayloadsFit(payloads) {
      forall ms | Network.Possible(Start(AllHandlers, AllHandlers), ms) && SentBy(ms, Left) == payloads
        ensures Network.After(Start(AllHandlers, AllHandlers), ms).right.reader.delivered <= payloads
      {
        EndToEndOrder(AllHandlers, AllHandlers, ms, Left);
      }
    } else {
      var ms, y' := OversizedBreaksOrder(payloads);
    }
  }
}
