/** The reader's invariant: one read at a time, always at a known place in the stream, and
    every dispatched frame exactly where the decoder of Wire finds it. */
module SessionReader {
  import opened Asio
  import opened Wire
  import opened WriteQueue
  import opened SessionModel
  import opened StrandView

  ghost predicate Pristine(r: Reader) {
    && r.ops == [] && r.inbox == [] && r.received == [] && r.consumed == []
    && r.decoded == [] && r.delivered == [] && r.ended.None?
  }

  /** The bytes that a read has taken beyond the last dispatched frame. */
  predicate Beyond(r: Reader, bytes: seq<Byte>) {
    r.received == r.consumed + bytes
  }

  predicate HasBody(head: Head) {
    DecodeHeader(head).crc == 0 && DecodeHeader(head).size != 0
  }

  predicate OpPlaced(r: Reader, op: ReadOp) {
    && |op.got| <= Needed(op)
    && match op.head {
         case None => Beyond(r, op.got)
         case Some(head) => HasBody(head) && Beyond(r, head + op.got)
       }
  }

  predicate TaskPlaced(r: Reader, t: Task) {
    match t
    case HeaderRead(head, Ok) => Beyond(r, head)
    case BodyRead(head, body, Ok) =>
      HasBody(head) && |body| == DecodeHeader(head).size && Beyond(r, head + body)
    case HeaderRead(_, _) => r.consumed <= r.received
    case BodyRead(_, _, _) => r.consumed <= r.received
    case _ => false
  }

  /** A rejection happens where, and only where, the decoder rejects. */
  predicate EndPlaced(r: Reader, why: Ending) {
    match why
    case HeaderRejected => Decode(r.received) == Decoded(r.decoded, BadHeader)
    case BodyRejected => Decode(r.received) == Decoded(r.decoded, BadBody)
    case _ => r.consumed <= r.received
  }

  /** Exactly one read is under way or completed but not handled, unless reading has ended. */
  predicate OneRead(r: Reader, reading: seq<Task>) {
    if r.ops != [] then reading == [] && |r.ops| == 1 && r.ended.None? && OpPlaced(r, r.ops[0])
    else if reading != [] then |reading| == 1 && r.ended.None? && TaskPlaced(r, reading[0])
    else r.ended.Some? && EndPlaced(r, r.ended.value)
  }

  /** What the receive handler has had, or is about to have, is the first Data decoded;
      all of it as long as the session is connected. */
  predicate Delivery(s: Session) {
    && s.reader.delivered + s.reader.inbox <= DataOf(s.reader.decoded)
    && (s.life.connected && s.handlers.receive ==>
          s.reader.delivered + s.reader.inbox == DataOf(s.reader.decoded))
  }

  ghost predicate ReaderOk(s: Session) {
    if s.life.phase == Done(true) then
      && Clean(s.reader.consumed, s.reader.decoded)
      && OneRead(s.reader, Of(s.strand).reading)
      && Delivery(s)
    else Pristine(s.reader) && Of(s.strand).reading == []
  }

  // ----- what leaves the reader alone

  lemma FrameKeepsReader(s: Session, s': Session)
    requires ReaderOk(s)
    requires s'.reader == s.reader && s'.handlers == s.handlers
    requires Of(s'.strand).reading == Of(s.strand).reading
    requires (s'.life.phase == Done(true)) == (s.life.phase == Done(true))
    requires s.life.phase == Done(true) && s'.life.connected ==> s.life.connected
    ensures ReaderOk(s')
  {
  }

  // ----- the chain of handlers

  /** Between one read and the next. */
  ghost predicate Between(s: Session) {
    && s.life.phase == Done(true)
    && Clean(s.reader.consumed, s.reader.decoded)
    && Delivery(s)
    && Of(s.strand).reading == [] && s.reader.ops == [] && s.reader.ended.None?
  }

  lemma StartReadKeepsReader(s: Session, head: Option<Head>)
    requires Between(s)
    requires match head case None => Beyond(s.reader, []) case Some(h) => HasBody(h) && Beyond(s.reader, h)
    ensures ReaderOk(StartRead(s, head))
  {
    if head.Some? {
      assert head.value + [] == head.value;
    }
  }

  lemma OnMessageKeepsBetween(s: Session, head: Head, body: seq<Byte>)
    requires Between(s) && Accepts(head, body) && Beyond(s.reader, head + body)
    ensures var c := OnMessageReceived(s, head + body, Frame(DecodeHeader(head).kind, body));
      Between(c) && Beyond(c.reader, [])
  {
    var f := Frame(DecodeHeader(head).kind, body);
    var r := Record(s.reader, head + body, f);
    CleanExtends(s.reader.consumed, s.reader.decoded, head, body);
    assert Beyond(r, []);
    DispatchDelivers(s, r, f);
  }

  lemma DispatchDelivers(s: Session, r: Reader, f: Frame)
    requires Delivery(s) && r == s.reader.(consumed := r.consumed, decoded := s.reader.decoded + [f])
    ensures var c := Dispatch(s.(reader := r), f);
      && Delivery(c) && c.life == s.life && c.reader == r.(inbox := c.reader.inbox)
      && Of(c.strand).reading == Of(s.strand).reading
  {
    DataOfConcat(s.reader.decoded, [f]);
    if f.kind == PING {
      OfPosted(s.strand, AsyncWrite(PongMessage));
    } else if f.kind == DATA {
      assert r.delivered + r.inbox + [f.payload] == r.delivered + (r.inbox + [f.payload]);
    }
  }

  lemma EndKeepsReader(s: Session, why: Ending)
    requires Between(s) && EndPlaced(s.reader, why)
    ensures ReaderOk(EndReading(s, why)) && ReaderOk(Close(EndReading(s, why)))
  {
    CloseKeepsReader(EndReading(s, why));
  }

  lemma CloseKeepsReader(s: Session)
    requires ReaderOk(s)
    ensures ReaderOk(Close(s))
  {
    ClosePosts(s);
    FrameKeepsReader(s, Close(s));
  }

  lemma HandleReadHeaderKeepsReader(s: Session)
    requires ReaderOk(s) && s.strand != [] && s.strand[0].HeaderRead?
    ensures ReaderOk(HandleReadHeader(Dequeued(s), s.strand[0].head, s.strand[0].error))
  {
    var head, error := s.strand[0].head, s.strand[0].error;
    var c := CancelReadTimer(s.(strand := s.strand[1..]));
    assert Between(c);
    match error {
      case Ok =>
        var h := DecodeHeader(head);
        if h.crc != 0 {
          DecodeSplit(c.reader.consumed, c.reader.decoded, head);
          assert head[..HEADER_SIZE] == head;
          EndKeepsReader(c, HeaderRejected);
        } else if h.size != 0 {
          StartReadKeepsReader(c, Some(head));
        } else {
          assert head + [] == head;
          OnMessageKeepsBetween(c, head, []);
          StartReadKeepsReader(OnMessageReceived(c, head, Frame(h.kind, [])), None);
        }
      case Failed => EndKeepsReader(c, ReadFailed);
      case Aborted => EndKeepsReader(c, ReadAborted);
    }
  }

  lemma HandleReadBodyKeepsReader(s: Session)
    requires ReaderOk(s) && s.strand != [] && s.strand[0].BodyRead?
    ensures ReaderOk(HandleReadBody(Dequeued(s), s.strand[0].head, s.strand[0].body, s.strand[0].error))
  {
    var head, body, error := s.strand[0].head, s.strand[0].body, s.strand[0].error;
    var c := CancelReadTimer(s.(strand := s.strand[1..]));
    assert Between(c);
    match error {
      case Ok =>
        if DecodeHeader(head).payloadCrc != 0 {
          DecodeSplit(c.reader.consumed, c.reader.decoded, head + body);
          BadBodyRejected(head, body);
          EndKeepsReader(c, BodyRejected);
        } else {
          OnMessageKeepsBetween(c, head, body);
          StartReadKeepsReader(OnMessageReceived(c, head + body, Frame(DecodeHeader(head).kind, body)), None);
        }
      case Failed => EndKeepsReader(c, ReadFailed);
      case Aborted => EndKeepsReader(c, ReadAborted);
    }
  }

  lemma {:induction false} BadBodyRejected(head: Head, body: seq<Byte>)
    requires HasBody(head) && |body| == DecodeHeader(head).size && DecodeHeader(head).payloadCrc != 0
    ensures Decode(head + body) == Decoded([], BadBody)
  {
    assert (head + body)[..HEADER_SIZE] == head;
    assert (head + body)[HEADER_SIZE..] == body;
  }

  lemma CancelledRead(r: Reader, reading: seq<Task>)
    requires OneRead(r, reading)
    ensures OneRead(r.(ops := CancelReads(r.ops)), reading)
  {
    if r.ops != [] {
      assert CancelReads(r.ops) == [r.ops[0].(cancelled := true)];
    }
  }

  lemma CancelOutstandingKeepsReader(s: Session)
    requires ReaderOk(s)
    ensures ReaderOk(CancelOutstanding(s))
  {
    if s.life.phase == Done(true) {
      CancelledRead(s.reader, Of(s.strand).reading);
    }
  }

  lemma CloseSocketKeepsReader(s: Session)
    requires ReaderOk(s)
    ensures ReaderOk(RunCloseSocket(s))
  {
    var e := s.(writer := s.writer.(queue := []));
    FrameKeepsReader(s, e);
    CancelOutstandingKeepsReader(e);
    FrameKeepsReader(CancelOutstanding(e), RunCloseSocket(s));
  }

  lemma CancelKeepsReader(s: Session)
    requires ReaderOk(s) && s.strand != [] && (s.strand[0].CancelOps? || s.strand[0].CloseSocket?)
    ensures s.strand[0].CancelOps? ==> ReaderOk(CancelOutstanding(Dequeued(s)))
    ensures s.strand[0].CloseSocket? ==> ReaderOk(RunCloseSocket(Dequeued(s)))
  {
    FrameKeepsReader(s, Dequeued(s));
    CancelOutstandingKeepsReader(Dequeued(s));
    CloseSocketKeepsReader(Dequeued(s));
  }

  // ----- the completions

  lemma ArriveKeepsReader(s: Session, i: nat, chunk: seq<Byte>)
    requires ReaderOk(s) && Enabled(s, BytesArrive(i, chunk))
    ensures ReaderOk(s.(reader := Arrive(s.reader, i, chunk)))
  {
    var r, op := s.reader, s.reader.ops[i];
    assert r.consumed + op.got + chunk == r.consumed + (op.got + chunk);
    if op.head.Some? {
      assert r.consumed + (op.head.value + op.got) + chunk == r.consumed + (op.head.value + (op.got + chunk));
    }
  }

  /** The task that handles the end of a read. */
  function DoneTask(op: ReadOp, error: Outcome): Task {
    if op.head.None? then HeaderRead(Fill(op.got), error)
    else BodyRead(op.head.value, op.got, error)
  }

  lemma DoneTaskPlaced(r: Reader, op: ReadOp, error: Outcome)
    requires OpPlaced(r, op) && (error.Ok? ==> |op.got| == Needed(op))
    ensures TaskPlaced(r, DoneTask(op, error))
  {
  }

  lemma ReadDoneKeepsReader(s: Session, i: nat, error: Outcome)
    requires ReaderOk(s) && Enabled(s, ReadEnds(i, error))
    ensures ReaderOk(ReadDone(s, i, error))
  {
    var r, op := s.reader, s.reader.ops[i];
    OfPosted(s.strand, DoneTask(op, error));
    DoneTaskPlaced(r, op, error);
    assert r.ops[..i] + r.ops[i + 1..] == [];
  }

  lemma DeliverKeepsReader(s: Session)
    requires ReaderOk(s) && s.reader.inbox != []
    ensures ReaderOk(s.(reader := Deliver(s.reader)))
  {
    var r := s.reader;
    assert r.delivered + [r.inbox[0]] + r.inbox[1..] == r.delivered + r.inbox;
  }

  // ----- what the invariant says about the stream

  function OpBytes(op: ReadOp): seq<Byte> {
    match op.head
    case None => op.got
    case Some(head) => head + op.got
  }

  /** The bytes taken for a frame that is not dispatched yet: by the read under way, or by a read
      that has ended well and waits to be handled. */
  function Taken(s: Session): Option<seq<Byte>> {
    var reading := Of(s.strand).reading;
    if s.reader.ops != [] then Some(OpBytes(s.reader.ops[0]))
    else if reading == [] then None
    else match reading[0]
         case HeaderRead(head, Ok) => Some(head)
         case BodyRead(head, body, Ok) => Some(head + body)
         case _ => None
  }

  /** Where the decoder stops in what an incomplete read has got. */
  function StopOf(op: ReadOp): Stop {
    match op.head
    case None => AwaitHeader(op.got)
    case Some(head) => AwaitBody(head, op.got)
  }

  /** What has been dispatched, then what the decoder makes of the bytes taken since, is what
      the decoder makes of the whole stream; it stops in an incomplete read where that
      read stands, and rejects where the handlers rejected. */
  predicate FollowsDecoder(s: Session) {
    var r, all := s.reader, Decode(s.reader.received);
    && r.decoded <= all.frames
    && (Taken(s).Some? ==> all == Prepend(r.decoded, Decode(Taken(s).value)))
    && (r.ops != [] && |r.ops[0].got| < Needed(r.ops[0]) ==> all == Decoded(r.decoded, StopOf(r.ops[0])))
    && (r.ended == Some(HeaderRejected) ==> all == Decoded(r.decoded, BadHeader))
    && (r.ended == Some(BodyRejected) ==> all == Decoded(r.decoded, BadBody))
  }

  lemma TakenIsBeyond(s: Session)
    requires ReaderOk(s) && Taken(s).Some?
    ensures s.life.phase == Done(true) && Beyond(s.reader, Taken(s).value)
    ensures s.reader.ops != [] ==> OpPlaced(s.reader, s.reader.ops[0])
  {
  }

  lemma IncompleteStops(r: Reader, op: ReadOp)
    requires OpPlaced(r, op) && |op.got| < Needed(op)
    ensures Decode(OpBytes(op)) == Decoded([], StopOf(op))
  {
    if op.head.Some? {
      assert OpBytes(op)[..HEADER_SIZE] == op.head.value && OpBytes(op)[HEADER_SIZE..] == op.got;
    }
  }

  /** Reader refinement, whatever the chunks and whatever else the session did. */
  lemma ReaderRefinesDecoder(s: Session)
    requires ReaderOk(s)
    ensures FollowsDecoder(s)
  {
    var r := s.reader;
    assert Clean([], []);
    if Taken(s).Some? {
      TakenIsBeyond(s);
      DecodeSplit(r.consumed, r.decoded, Taken(s).value);
      if r.ops != [] && |r.ops[0].got| < Needed(r.ops[0]) {
        IncompleteStops(r, r.ops[0]);
        assert r.decoded + [] == r.decoded;
      }
    } else if s.life.phase == Done(true) && r.consumed <= r.received {
      var rest := r.received[|r.consumed|..];
      assert r.received == r.consumed + rest;
      DecodeSplit(r.consumed, r.decoded, rest);
    }
  }
}
