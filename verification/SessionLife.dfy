/** The lifecycle invariant: what isConnected_, the handshake and the tasks on the socket
    strand say about each other, and how often the close handler can run. */
module SessionLife {
  import opened Asio
  import opened Wire
  import opened SessionModel
  import opened StrandView

  /** Some operation under way has been told to abort. */
  predicate SomeCancelled(s: Session) {
    || s.life.handshake == Some(true)
    || (exists op :: op in s.writer.ops && op.cancelled)
    || (exists op :: op in s.reader.ops && op.cancelled)
  }

  ghost predicate PhaseOk(s: Session) {
    var l, v := s.life, Of(s.strand);
    match l.phase
    case Fresh =>
      && !l.connected && l.socketOpen && l.handshake.None?
      && (forall t :: t in s.strand ==> t.CancelOps?)
      && s.writer.ops == [] && s.reader.ops == []
    case Opening =>
      && l.socketOpen && l.handshake.None? && OpeningStrand(s.strand)
      && s.writer.ops == [] && s.reader.ops == []
    case Shaking =>
      && (l.socketOpen ==> Covered(v))
      && |v.shaking| + (if l.handshake.Some? then 1 else 0) == 1
      && (v.shaking != [] ==> v.shaking[0].HandshakeDone?)
    case Done(_) =>
      && (l.socketOpen ==> Covered(v))
      && v.shaking == [] && l.handshake.None?
  }

  /** Once open() has run, a session that is not connected has its close task queued or
      behind it; and so has one with an aborted operation. */
  ghost predicate CloseComes(s: Session) {
    s.life.socketOpen ==>
      && (!s.life.phase.Fresh? && !s.life.connected ==> Of(s.strand).closes > 0)
      && (SomeCancelled(s) ==> Of(s.strand).closes > 0)
  }

  function One(b: bool): nat {
    if b then 1 else 0
  }

  function ClosedCount(notices: seq<Notice>): nat {
    if notices == [] then 0 else One(notices[0].Closed?) + ClosedCount(notices[1..])
  }

  /** Every change of isConnected_ to true pays for one close task, and for one open() there
      are at most two, the second only if a close() came before handleHandshake. */
  ghost predicate ClosesCounted(s: Session) {
    var l, v := s.life, Of(s.strand);
    && l.closes + One(l.connected) == l.rises
    && ClosedCount(l.notices) == (if s.handlers.close then l.closes - v.closes else 0)
    && match l.phase {
         case Fresh => l.rises == 0 && !l.closedEarly && l.notices == []
         case Done(_) => l.rises == 1 + One(l.closedEarly)
         case _ => l.rises == 1 && l.closedEarly == !l.connected
       }
  }

  ghost predicate LifeOk(s: Session) {
    PhaseOk(s) && CloseComes(s) && ClosesCounted(s)
  }

  lemma {:induction false} ClosedCountAppend(notices: seq<Notice>, n: Notice)
    ensures ClosedCount(notices + [n]) == ClosedCount(notices) + One(n.Closed?)
  {
    if notices == [] {
      assert notices + [n] == [n] && [n][1..] == [];
    } else {
      assert (notices + [n])[1..] == notices[1..] + [n];
      ClosedCountAppend(notices[1..], n);
    }
  }

  // ----- what leaves the lifecycle alone

  /** The same lifecycle and the same tasks as far as the lifecycle is concerned. */
  ghost predicate LifeFrame(s: Session, s': Session) {
    && s'.life == s.life && s'.handlers == s.handlers
    && Of(s'.strand).shaking == Of(s.strand).shaking
    && Of(s'.strand).closes == Of(s.strand).closes
    && Of(s'.strand).cancelling == Of(s.strand).cancelling
  }

  /** Operations may appear, disappear or make progress, but none becomes cancelled. */
  ghost predicate NoneCancelled(s: Session, s': Session) {
    SomeCancelled(s') ==> SomeCancelled(s)
  }

  lemma FrameKeepsLife(s: Session, s': Session)
    requires LifeOk(s) && LifeFrame(s, s') && NoneCancelled(s, s')
    requires s.life.phase.Shaking? || s.life.phase.Done?
    ensures LifeOk(s')
  {
  }

  lemma SendFrame(s: Session, f: Frame)
    ensures LifeFrame(s, Send(s, f)) && NoneCancelled(s, Send(s, f))
    ensures Of(Send(s, f).strand).reading == Of(s.strand).reading
  {
    OfPosted(s.strand, AsyncWrite(f));
  }

  // ----- close()

  lemma CloseKeepsLife(s: Session)
    requires LifeOk(s)
    ensures LifeOk(Close(s))
  {
    var c := s.strand + [CancelOps];
    OfPosted(s.strand, CancelOps);
    OfPosted(c, CloseSocket);
    if s.life.phase.Opening? {
      OpeningStrandCloses(s.strand);
    }
  }

  // ----- open() and the handshake

  lemma OpenKeepsLife(s: Session)
    requires LifeOk(s) && s.life.phase.Fresh?
    ensures LifeOk(Open(s))
  {
    CancelsThenHandshake(s.strand);
    OfPosted(s.strand, AsyncHandshake);
  }

  lemma StartHandshakeKeepsLife(s: Session)
    requires LifeOk(s) && s.strand != [] && s.strand[0].AsyncHandshake?
    ensures LifeOk(StartHandshake(Dequeued(s))) && s.life.phase.Opening?
  {
    assert s.strand[0] in s.strand;
  }

  lemma HandshakeEndsKeepsLife(s: Session, error: Outcome)
    requires LifeOk(s) && Enabled(s, HandshakeEnds(error))
    ensures LifeOk(Apply(s, HandshakeEnds(error)))
  {
    OfPosted(s.strand, HandshakeDone(error));
  }

  /** handleHandshake up to, and without, the close() that a failure ends in. */
  function Handled(s: Session, error: Outcome): Session
    requires s.strand != []
  {
    s.(strand := s.strand[1..], life := SetConnected(s.life).(phase := Done(error.Ok?)))
  }

  lemma HandledKeepsLife(s: Session, error: Outcome)
    requires LifeOk(s) && s.strand != [] && s.strand[0] == HandshakeDone(error)
    ensures LifeOk(Handled(s, error)) && s.life.phase.Shaking?
  {
    if s.life.phase.Opening? {
      OpeningStrandShakes(s.strand);
    }
    assert s.strand[0] in s.strand;
  }

  // ----- cancelling and closing the socket

  lemma CancelOutstandingKeepsLife(s: Session)
    requires LifeOk(s)
    requires s.life.socketOpen && !s.life.phase.Fresh? && !s.life.phase.Opening? ==> Of(s.strand).closes > 0
    ensures LifeOk(CancelOutstanding(s))
  {
  }

  lemma CancelOpsKeepsLife(s: Session)
    requires LifeOk(s) && s.strand != [] && s.strand[0].CancelOps?
    ensures LifeOk(CancelOutstanding(Dequeued(s)))
  {
    assert Of(s.strand) == Before(CancelOps, Of(s.strand[1..]));
    CancelOutstandingKeepsLife(Dequeued(s));
  }

  lemma CloseSocketKeepsLife(s: Session)
    requires LifeOk(s) && s.strand != [] && s.strand[0].CloseSocket?
    ensures LifeOk(RunCloseSocket(Dequeued(s)))
  {
    assert s.strand[0] in s.strand;
    ClosedCountAppend(s.life.notices, Closed);
  }
}
