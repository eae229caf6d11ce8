/** What the outcome of the handshake means: an aborted one leaves the session connected and
    silent, a failed one closes it; and which close() calls come before it is handled. */
module Handshake {
  import opened Asio
  import opened SessionModel
  import opened StrandView
  import opened SessionLife
  import opened SessionInvariant
  import opened SessionTheorems
  import opened SoleWriter
  import CloseHandler

  /** A session whose handshake has not ended well has nothing to write. */
  predicate Mute(s: Session) {
    s.life.phase != Done(true) ==> s.writer.queue == [] && s.writer.ops == [] && Writes(s.strand) == []
  }

  lemma {:induction false} NoWriteTasks(strand: seq<Task>)
    requires Writes(strand) == []
    ensures strand != [] ==> !IsWrite(strand[0])
  {
  }

  lemma {:induction false} NoReadTasks(strand: seq<Task>)
    requires Of(strand).reading == [] && strand != []
    ensures !IsRead(strand[0])
  {
    assert Of(strand) == Before(strand[0], Of(strand[1..]));
  }

  /** What can be first on the strand before the handshake has ended well. */
  lemma OnlyControlTasks(s: Session)
    requires Inv(s) && Mute(s) && s.life.phase != Done(true) && s.strand != []
    ensures IsShake(s.strand[0]) || s.strand[0].CancelOps? || s.strand[0].CloseSocket?
    ensures s.life.phase.Done? ==> !IsShake(s.strand[0])
  {
    NoWriteTasks(s.strand);
    NoReadTasks(s.strand);
    assert Of(s.strand) == Before(s.strand[0], Of(s.strand[1..]));
  }

  lemma HandshakeKeepsMute(s: Session, error: Outcome)
    requires Mute(s) && s.life.phase != Done(true)
    ensures Mute(HandleHandshake(s, error))
  {
    HandshakeFrame(s, error);
  }

  lemma TaskKeepsMute(s: Session)
    requires Inv(s) && Mute(s) && s.strand != [] && s.life.phase != Done(true)
    ensures Mute(RunTask(s))
  {
    OnlyControlTasks(s);
    match s.strand[0] {
      case HandshakeDone(error) => HandshakeKeepsMute(Dequeued(s), error);
      case _ =>
    }
  }

  lemma DoneStaysDone(s: Session, e: Event)
    requires Inv(s) && s.life.phase == Done(true) && Enabled(s, e)
    ensures Apply(s, e).life.phase == Done(true)
  {
    CloseHandler.EventKeepsStart(s, e);
  }

  /** Until then the timer's strand holds cancellations only, and nothing waits or has expired. */
  lemma QuietTimer(s: Session)
    requires Inv(s) && s.life.phase != Done(true)
    ensures s.timer.armed == [] && s.timer.fired == []
    ensures s.timer.tasks != [] ==> s.timer.tasks[0].Cancel?
  {
    if s.timer.tasks != [] {
      assert s.timer.tasks[0] in s.timer.tasks;
    }
  }

  lemma EventKeepsMute(s: Session, e: Event)
    requires Inv(s) && Mute(s) && Enabled(s, e)
    ensures Mute(Apply(s, e))
  {
    if s.life.phase == Done(true) {
      DoneStaysDone(s, e);
    } else {
      QuietTimer(s);
      match e {
        case OpenCall => OpenFrame(s);
        case CloseCall => CloseFrame(s);
        case TaskRuns => TaskKeepsMute(s);
        case HandshakeEnds(error) => HandshakeEndsFrame(s, error);
        case ReadEnds(i, error) => ReadEndsFrame(s, i, error);
        case _ =>
      }
    }
  }

  lemma {:induction false} RunKeepsMute(s: Session, es: seq<Event>)
    requires Inv(s) && Mute(s) && Possible(s, es)
    ensures Mute(After(s, es)) && Inv(After(s, es))
    decreases |es|
  {
    if es != [] {
      EventKeepsMute(s, es[0]);
      ApplyKeepsInv(s, es[0]);
      RunKeepsMute(Apply(s, es[0]), es[1..]);
    }
  }

  lemma {:induction false} ReachableMute(handlers: Handlers, es: seq<Event>)
    requires Possible(Created(handlers), es)
    ensures Mute(After(Created(handlers), es)) && Inv(After(Created(handlers), es))
  {
    CreatedInv(handlers);
    RunKeepsMute(Created(handlers), es);
  }

  // ----- an aborted handshake

  /** Connected by a handshake that did not end well, with as many close tasks queued. */
  ghost predicate Stranded(s: Session, closes: nat) {
    && Inv(s) && Mute(s) && s.life.phase == Done(false) && s.life.connected
    && Of(s.strand).closes <= closes
  }

  lemma CancellingTask(s: Session)
    requires s.strand != [] && (s.strand[0].CancelOps? || s.strand[0].CloseSocket?)
    ensures var d := RunTask(s);
      && d.strand == s.strand[1..] && d.life.phase == s.life.phase
      && d.life.connected == s.life.connected && d.life.closes == s.life.closes
  {
  }

  lemma {:induction false} FewerCloses(strand: seq<Task>)
    requires strand != []
    ensures Of(strand[1..]).closes <= Of(strand).closes
  {
    assert Of(strand) == Before(strand[0], Of(strand[1..]));
  }

  lemma StrandedTask(s: Session, closes: nat)
    requires Stranded(s, closes) && s.strand != []
    ensures Stranded(RunTask(s), closes) && RunTask(s).life.closes == s.life.closes
    ensures RunTask(s).strand == s.strand[1..]
  {
    OnlyControlTasks(s);
    CancellingTask(s);
    FewerCloses(s.strand);
    TaskKeepsMute(s);
    RunTaskKeepsInv(s);
  }

  lemma StrandedEvent(s: Session, e: Event, closes: nat)
    requires Stranded(s, closes) && Enabled(s, e) && !e.CloseCall?
    ensures Stranded(Apply(s, e), closes) && Apply(s, e).life.closes == s.life.closes
  {
    if e.TaskRuns? {
      StrandedTask(s, closes);
    } else {
      QuietTimer(s);
      ApplyKeepsInv(s, e);
      EventKeepsMute(s, e);
    }
  }

  lemma {:induction false} StrandedRun(s: Session, es: seq<Event>, closes: nat)
    requires Stranded(s, closes) && Possible(s, es) && CloseCall !in es
    ensures Stranded(After(s, es), closes) && After(s, es).life.closes == s.life.closes
    decreases |es|
  {
    if es != [] {
      assert es[0] in es;
      StrandedEvent(s, es[0], closes);
      StrandedRun(Apply(s, es[0]), es[1..], closes);
    }
  }

  lemma AbortedIsStranded(s: Session)
    requires Inv(s) && Mute(s) && s.strand != [] && s.strand[0] == HandshakeDone(Aborted)
    ensures Stranded(RunTask(s), Of(s.strand).closes)
    ensures RunTask(s).strand == s.strand[1..] && RunTask(s).life.closes == s.life.closes
    ensures RunTask(s).life.notices == s.life.notices
  {
    RunTaskKeepsInv(s);
    HandledKeepsLife(s, Aborted);
    assert Of(s.strand) == Before(s.strand[0], Of(s.strand[1..]));
    NoWriteTasks(s.strand);
  }

  lemma StrandedMeans(s: Session, closes: nat)
    requires Stranded(s, closes)
    ensures s.life.connected && Of(s.strand).closes <= closes && ClosedCount(s.life.notices) <= s.life.closes
    ensures s.writer.queue == [] && s.reader.ops == [] && s.reader.decoded == []
  {
  }

  /** An aborted handshake does nothing more than connect: as long as close() is not called the
      session stays connected, writes and reads nothing, queues no further close task, and so has
      its close handler called at most once for each close task queued before. */
  lemma {:induction false} AbortedHandshakeStays(handlers: Handlers, es: seq<Event>, more: seq<Event>)
    requires Possible(Created(handlers), es)
    requires var s := After(Created(handlers), es); s.strand != [] && s.strand[0] == HandshakeDone(Aborted)
    requires Possible(RunTask(After(Created(handlers), es)), more) && CloseCall !in more
    ensures var s := After(Created(handlers), es);
      var d := After(RunTask(s), more);
      && d.life.connected
      && Of(d.strand).closes <= Of(s.strand).closes
      && ClosedCount(d.life.notices) <= s.life.closes
      && d.writer.queue == [] && d.reader.ops == [] && d.reader.decoded == []
  {
    var s := After(Created(handlers), es);
    ReachableMute(handlers, es);
    AbortedIsStranded(s);
    StrandedRun(RunTask(s), more, Of(s.strand).closes);
    StrandedMeans(After(RunTask(s), more), Of(s.strand).closes);
  }

  /** A failed one closes: close() is called once, on a session that has just become connected. */
  lemma {:induction false} FailedHandshakeCloses(handlers: Handlers, es: seq<Event>)
    requires Possible(Created(handlers), es)
    requires var s := After(Created(handlers), es); s.strand != [] && s.strand[0] == HandshakeDone(Failed)
    ensures var s := After(Created(handlers), es);
      var d := RunTask(s);
      && !d.life.connected && d.strand == s.strand[1..] + [CancelOps] + [CloseSocket]
      && d.writer.queue == [] && d.reader.ops == [] && d.life.notices == s.life.notices
  {
    var s := After(Created(handlers), es);
    ReachableMute(handlers, es);
    HandledKeepsLife(s, Failed);
  }

  // ----- early closes

  predicate HandlesHandshake(s: Session, e: Event) {
    e.TaskRuns? && s.strand != [] && s.strand[0].HandshakeDone?
  }

  /** Whether close() is called between open() and the task that handles the handshake; "wasOpen"
      tells whether open() has been called before the run. */
  predicate ClosedBetween(s: Session, es: seq<Event>, wasOpen: bool)
    requires Possible(s, es)
    decreases |es|
  {
    && es != [] && !HandlesHandshake(s, es[0])
    && ((wasOpen && es[0].CloseCall?) || ClosedBetween(Apply(s, es[0]), es[1..], wasOpen || es[0].OpenCall?))
  }

  lemma UnhandledTask(s: Session)
    requires Inv(s) && Mute(s) && !s.life.phase.Done? && s.strand != []
    ensures RunTask(s).life.closedEarly == s.life.closedEarly
    ensures s.strand[0].HandshakeDone? <==> RunTask(s).life.phase.Done?
    ensures s.life.phase.Fresh? <==> RunTask(s).life.phase.Fresh?
  {
    OnlyControlTasks(s);
    if IsShake(s.strand[0]) {
      CloseHandler.ShakeIsDue(s);
    }
  }

  /** Until the handshake is handled only calls of close() after open() count as early closes. */
  lemma UnhandledEvent(s: Session, e: Event)
    requires Inv(s) && Mute(s) && !s.life.phase.Done? && Enabled(s, e)
    ensures var d := Apply(s, e);
      && (d.life.closedEarly <==> s.life.closedEarly || (!s.life.phase.Fresh? && e.CloseCall?))
      && (HandlesHandshake(s, e) <==> d.life.phase.Done?)
      && (d.life.phase.Fresh? <==> s.life.phase.Fresh? && !e.OpenCall?)
  {
    if e.TaskRuns? {
      UnhandledTask(s);
    } else {
      QuietTimer(s);
    }
  }

  lemma {:induction false} EarlyInRun(s: Session, es: seq<Event>)
    requires Inv(s) && Mute(s) && !s.life.phase.Done? && Possible(s, es)
    ensures After(s, es).life.closedEarly <==>
      s.life.closedEarly || ClosedBetween(s, es, !s.life.phase.Fresh?)
    decreases |es|
  {
    if es != [] {
      var s' := Apply(s, es[0]);
      UnhandledEvent(s, es[0]);
      ApplyKeepsInv(s, es[0]);
      EventKeepsMute(s, es[0]);
      if s'.life.phase.Done? {
        CloseHandler.RunKeepsStart(s', es[1..]);
      } else {
        EarlyInRun(s', es[1..]);
      }
    }
  }

  /** The early closes that the laws of the close handler speak of are the calls of close() between
      open() and the handling of the handshake. */
  lemma {:induction false} EarlyClosesAreCalls(handlers: Handlers, es: seq<Event>)
    requires Possible(Created(handlers), es)
    ensures After(Created(handlers), es).life.closedEarly <==> ClosedBetween(Created(handlers), es, false)
  {
    CreatedInv(handlers);
    EarlyInRun(Created(handlers), es);
  }
}
