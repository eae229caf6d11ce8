/** What holds in every run of one session: any handlers, any sequence of events. */
module SessionTheorems {
  import opened Wire
  import opened WriteQueue
  import opened SessionModel
  import opened StrandView
  import opened SessionLife
  import opened SessionWriter
  import opened SessionReader
  import opened SessionInvariant

  /** A sequence of events that can happen one after the other. */
  predicate Possible(s: Session, es: seq<Event>)
    decreases |es|
  {
    es == [] || (Enabled(s, es[0]) && Possible(Apply(s, es[0]), es[1..]))
  }

  function After(s: Session, es: seq<Event>): Session
    requires Possible(s, es)
    decreases |es|
  {
    if es == [] then s else After(Apply(s, es[0]), es[1..])
  }

  lemma {:induction false} RunKeepsInv(s: Session, es: seq<Event>)
    requires Inv(s) && Possible(s, es)
    ensures Inv(After(s, es))
    decreases |es|
  {
    if es != [] {
      ApplyKeepsInv(s, es[0]);
      RunKeepsInv(Apply(s, es[0]), es[1..]);
    }
  }

  /** Every state of every run from a new session satisfies all the invariants. */
  lemma {:induction false} ReachableInv(handlers: Handlers, es: seq<Event>)
    requires Possible(Created(handlers), es)
    ensures Inv(After(Created(handlers), es))
  {
    CreatedInv(handlers);
    RunKeepsInv(Created(handlers), es);
  }

  lemma {:induction false} EventThen(s: Session, e: Event, es: seq<Event>)
    requires Enabled(s, e) && Possible(Apply(s, e), es)
    ensures Possible(s, [e] + es) && After(s, [e] + es) == After(Apply(s, e), es)
  {
    assert ([e] + es)[1..] == es;
  }

  lemma {:induction false} AfterConcat(s: Session, es: seq<Event>, fs: seq<Event>)
    requires Possible(s, es) && Possible(After(s, es), fs)
    ensures Possible(s, es + fs) && After(s, es + fs) == After(After(s, es), fs)
    decreases |es|
  {
    if es == [] {
      assert es + fs == fs;
    } else {
      AfterConcat(Apply(s, es[0]), es[1..], fs);
      EventThen(s, es[0], es[1..] + fs);
      assert es + fs == [es[0]] + (es[1..] + fs);
    }
  }

  lemma {:induction false} AfterMore(s: Session, es: seq<Event>, e: Event)
    requires Possible(s, es) && Enabled(After(s, es), e)
    ensures Possible(s, es + [e]) && After(s, es + [e]) == Apply(After(s, es), e)
  {
    assert [e][1..] == [];
    AfterConcat(s, es, [e]);
  }

  lemma {:induction false} HandlersStay(s: Session, es: seq<Event>)
    requires Possible(s, es)
    ensures After(s, es).handlers == s.handlers
    decreases |es|
  {
    if es != [] {
      HandlersStayOnce(s, es[0]);
      HandlersStay(Apply(s, es[0]), es[1..]);
    }
  }

  // ----- failure safety

  /** The same history of the wire. */
  predicate SameWire(w: Writer, w': Writer) {
    w'.wire == w.wire && w'.started == w.started && w'.broken == w.broken
  }

  lemma ReadTaskLeavesWire(s: Session)
    requires s.strand != [] && IsRead(s.strand[0])
    ensures SameWire(s.writer, RunTask(s).writer)
  {
  }

  lemma TaskLeavesWire(s: Session)
    requires s.strand != [] && !(s.strand[0].AsyncWrite? && s.life.socketOpen)
    ensures SameWire(s.writer, RunTask(s).writer)
  {
    if IsRead(s.strand[0]) {
      ReadTaskLeavesWire(s);
    }
  }

  lemma BrokenStepIsSilent(s: Session, e: Event)
    requires WriterOk(s) && Enabled(s, e) && s.writer.broken
    ensures SameWire(s.writer, Apply(s, e).writer)
  {
    if s.life.socketOpen {
      BrokenWriterIsSilent(s);
    }
    match e {
      case TaskRuns => TaskLeavesWire(s);
      case _ =>
    }
  }

  /** Failure safety: from the moment a write ends with an error or is aborted, no byte of
      that frame or of any later one reaches the wire, whatever happens next. */
  lemma {:induction false} FailureSafety(s: Session, es: seq<Event>)
    requires Inv(s) && Possible(s, es) && s.writer.broken
    ensures After(s, es).writer.wire == s.writer.wire
    ensures After(s, es).writer.started == s.writer.started
    decreases |es|
  {
    if es != [] {
      BrokenStepIsSilent(s, es[0]);
      ApplyKeepsInv(s, es[0]);
      FailureSafety(Apply(s, es[0]), es[1..]);
    }
  }

  /** In every run, failed or not, the wire holds the frames whose write began, whole and in
      order, the last one possibly cut; and their Data is what was sent first. */
  lemma {:induction false} WireIsPrefixOfSent(handlers: Handlers, es: seq<Event>)
    requires Possible(Created(handlers), es)
    ensures var w := After(Created(handlers), es).writer;
      w.wire <= EncodeAll(w.started) && DataOf(w.started) <= DataOf(w.submitted)
  {
    ReachableInv(handlers, es);
  }

  /** The same, from a new session on: if a write has ended badly after some events, the wire
      is final. */
  lemma {:induction false} BrokenWireIsFinal(handlers: Handlers, es: seq<Event>, more: seq<Event>)
    requires Possible(Created(handlers), es) && After(Created(handlers), es).writer.broken
    requires Possible(After(Created(handlers), es), more)
    ensures After(After(Created(handlers), es), more).writer.wire == After(Created(handlers), es).writer.wire
  {
    ReachableInv(handlers, es);
    FailureSafety(After(Created(handlers), es), more);
  }

  // ----- single reader

  /** Single reader: once the handshake has been handled well there is exactly one read under
      way or about to be handled, until one fails, is aborted or is rejected; before
      that, and after, there is none. */
  lemma {:induction false} SingleReader(handlers: Handlers, es: seq<Event>)
    requires Possible(Created(handlers), es)
    ensures var s := After(Created(handlers), es);
      |Of(s.strand).reading| + |s.reader.ops| ==
        (if s.life.phase == Done(true) && s.reader.ended.None? then 1 else 0)
  {
    ReachableInv(handlers, es);
  }

  /** Reader refinement: in every run, whatever the chunks in which the bytes arrived, the
      frames dispatched are a prefix of what the decoder finds in them. As long as a read is
      under way or completed well, the decoder goes on from the last frame dispatched with
      just the bytes that read has; in an incomplete read it stops at the same byte; and
      the handlers reject where it rejects. */
  lemma {:induction false} ReaderFollowsDecoder(handlers: Handlers, es: seq<Event>)
    requires Possible(Created(handlers), es)
    ensures FollowsDecoder(After(Created(handlers), es))
  {
    ReachableInv(handlers, es);
    ReaderRefinesDecoder(After(Created(handlers), es));
  }

  /** What the receive handler has had or is about to have. */
  function HandedOver(s: Session): seq<seq<Byte>> {
    s.reader.delivered + s.reader.inbox
  }

  lemma DisconnectedReadIsSilent(s: Session)
    requires s.strand != [] && IsRead(s.strand[0]) && !s.life.connected
    ensures HandedOver(RunTask(s)) == HandedOver(s)
    ensures RunTask(s).life.phase == s.life.phase && !RunTask(s).life.connected
  {
  }

  predicate Disconnected(s: Session) {
    s.life.phase.Done? && !s.life.connected
  }

  lemma DisconnectedTaskIsSilent(s: Session)
    requires PhaseOk(s) && s.strand != [] && Disconnected(s)
    ensures HandedOver(RunTask(s)) == HandedOver(s) && Disconnected(RunTask(s))
  {
    if IsRead(s.strand[0]) {
      DisconnectedReadIsSilent(s);
    }
  }

  lemma DisconnectedEventIsSilent(s: Session, e: Event)
    requires PhaseOk(s) && Enabled(s, e) && Disconnected(s)
    ensures HandedOver(Apply(s, e)) == HandedOver(s) && Disconnected(Apply(s, e))
  {
    match e {
      case TaskRuns => DisconnectedTaskIsSilent(s);
      case PayloadHandedOver =>
        assert s.reader.delivered + [s.reader.inbox[0]] + s.reader.inbox[1..] == HandedOver(s);
      case _ =>
    }
  }

  /** A session that has been closed after its handshake was handled dispatches no further payload,
      even if frames that had already arrived are still read. */
  lemma {:induction false} ClosedSessionDispatchesNothing(s: Session, es: seq<Event>)
    requires Inv(s) && Possible(s, es) && Disconnected(s)
    ensures HandedOver(After(s, es)) == HandedOver(s)
    decreases |es|
  {
    if es != [] {
      DisconnectedEventIsSilent(s, es[0]);
      ApplyKeepsInv(s, es[0]);
      ClosedSessionDispatchesNothing(Apply(s, es[0]), es[1..]);
    }
  }
}
