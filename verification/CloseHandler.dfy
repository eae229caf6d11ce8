/** How often the close handler runs for one open(): exactly when it can run twice. */
module CloseHandler {
  import opened Asio
  import opened Wire
  import opened SessionModel
  import opened StrandView
  import opened SessionLife
  import opened SessionInvariant
  import opened SessionTheorems

  /** The close handler runs at most once for the one open(), and once more only if a close()
      took effect between open() and the handling of the handshake. */
  lemma {:induction false} RunsAtMostTwice(handlers: Handlers, es: seq<Event>)
    requires Possible(Created(handlers), es)
    ensures var l := After(Created(handlers), es).life;
      ClosedCount(l.notices) <= 2 && (ClosedCount(l.notices) == 2 ==> handlers.close && l.closedEarly)
  {
    ReachableInv(handlers, es);
    HandlersStay(Created(handlers), es);
  }

  /** Once the handshake has been handled and the strand has run out, the close handler has run
      once, and once more after an early close, less the run that is still to come while
      the session is connected. */
  lemma {:induction false} RunsAtRest(handlers: Handlers, es: seq<Event>)
    requires Possible(Created(handlers), es) && handlers.close
    requires var s := After(Created(handlers), es); s.strand == [] && s.life.phase.Done?
    ensures var l := After(Created(handlers), es).life;
      ClosedCount(l.notices) == 1 + One(l.closedEarly) - One(l.connected)
  {
    ReachableInv(handlers, es);
    HandlersStay(Created(handlers), es);
  }

  // ----- once the handshake is handled, nothing changes who closed early

  predicate SameStart(l: Life, l': Life) {
    l'.phase == l.phase && l'.closedEarly == l.closedEarly
  }

  lemma ReadKeepsStart(s: Session)
    requires s.strand != [] && IsRead(s.strand[0]) && s.life.phase.Done?
    ensures SameStart(s.life, RunTask(s).life)
  {
  }

  lemma EventKeepsStart(s: Session, e: Event)
    requires PhaseOk(s) && s.life.phase.Done? && Enabled(s, e)
    ensures SameStart(s.life, Apply(s, e).life)
  {
    if e.TaskRuns? && IsRead(s.strand[0]) {
      ReadKeepsStart(s);
    }
  }

  lemma {:induction false} RunKeepsStart(s: Session, es: seq<Event>)
    requires Inv(s) && s.life.phase.Done? && Possible(s, es)
    ensures SameStart(s.life, After(s, es).life)
    decreases |es|
  {
    if es != [] {
      EventKeepsStart(s, es[0]);
      ApplyKeepsInv(s, es[0]);
      RunKeepsStart(Apply(s, es[0]), es[1..]);
    }
  }

  // ----- after a close() the close tasks run out

  /** No close task at position k or behind. */
  predicate NoneFrom(strand: seq<Task>, k: nat) {
    forall i :: k <= i < |strand| ==> !strand[i].CloseSocket?
  }

  predicate PostsNoClose(before: seq<Task>, after: seq<Task>) {
    || after == before
    || (|after| == |before| + 1 && after[..|before|] == before && !after[|before|].CloseSocket?)
  }

  lemma HeaderPostsNoClose(s: Session, head: Head, error: Outcome)
    requires !s.life.connected
    ensures PostsNoClose(s.strand, HandleReadHeader(s, head, error).strand)
  {
  }

  lemma BodyPostsNoClose(s: Session, head: Head, body: seq<Byte>, error: Outcome)
    requires !s.life.connected
    ensures PostsNoClose(s.strand, HandleReadBody(s, head, body, error).strand)
  {
  }

  lemma TaskPostsNoClose(s: Session)
    requires PhaseOk(s) && s.strand != [] && Disconnected(s)
    ensures PostsNoClose(s.strand[1..], RunTask(s).strand)
  {
    var t := s.strand[0];
    if t.HeaderRead? {
      HeaderPostsNoClose(Dequeued(s), t.head, t.error);
    } else if t.BodyRead? {
      BodyPostsNoClose(Dequeued(s), t.head, t.body, t.error);
    }
  }

  lemma {:induction false} NoClosesLeft(strand: seq<Task>)
    requires NoneFrom(strand, 0)
    ensures Of(strand).closes == 0
  {
    if strand != [] {
      NoClosesLeft(strand[1..]);
    }
  }

  lemma NoneFromNext(strand: seq<Task>, k: nat, after: seq<Task>)
    requires strand != [] && k > 0 && NoneFrom(strand, k) && PostsNoClose(strand[1..], after)
    ensures NoneFrom(after, k - 1)
  {
    var before := strand[1..];
    forall i | k - 1 <= i < |after| ensures !after[i].CloseSocket? {
      if i < |before| {
        assert after[..|before|][i] == before[i] == strand[i + 1];
      }
    }
  }

  lemma OneTaskLess(s: Session, k: nat)
    requires Inv(s) && Disconnected(s) && s.strand != [] && k > 0 && NoneFrom(s.strand, k)
    ensures Inv(RunTask(s)) && Disconnected(RunTask(s)) && NoneFrom(RunTask(s).strand, k - 1)
  {
    TaskPostsNoClose(s);
    DisconnectedTaskIsSilent(s);
    RunTaskKeepsInv(s);
    NoneFromNext(s.strand, k, RunTask(s).strand);
  }

  lemma {:induction false} TaskFirst(s: Session, rest: seq<Event>)
    requires s.strand != [] && Possible(RunTask(s), rest)
    ensures Possible(s, [TaskRuns] + rest) && After(s, [TaskRuns] + rest) == After(RunTask(s), rest)
  {
    EventThen(s, TaskRuns, rest);
  }

  /** A disconnected session runs its tasks until no close task is left. */
  lemma {:induction false} RunsOut(s: Session, k: nat) returns (more: seq<Event>)
    requires Inv(s) && Disconnected(s) && NoneFrom(s.strand, k)
    ensures Possible(s, more)
    ensures Disconnected(After(s, more)) && Of(After(s, more).strand).closes == 0
    decreases k
  {
    if k == 0 || s.strand == [] {
      NoClosesLeft(s.strand);
      more := [];
    } else {
      OneTaskLess(s, k);
      var rest := RunsOut(RunTask(s), k - 1);
      TaskFirst(s, rest);
      more := [TaskRuns] + rest;
    }
  }

  /** A continuation of the run after which the close handler has run twice. */
  predicate ClosesTwice(s: Session, more: seq<Event>) {
    Possible(s, more) && ClosedCount(After(s, more).life.notices) == 2
  }

  lemma EarlyCloseCountsTwice(s: Session) returns (more: seq<Event>)
    requires Inv(s) && s.life.phase.Done? && s.life.closedEarly && s.handlers.close
    ensures ClosesTwice(s, more)
  {
    var s' := Apply(s, CloseCall);
    ApplyKeepsInv(s, CloseCall);
    var rest := RunsOut(s', |s'.strand|);
    EventThen(s, CloseCall, rest);
    more := [CloseCall] + rest;
    RunKeepsInv(s', rest);
    RunKeepsStart(s', rest);
    HandlersStay(s', rest);
  }

  // ----- before the handshake is handled, an early close is still possible

  /** A run from one state to another. */
  predicate Leads(s: Session, es: seq<Event>, d: Session) {
    Possible(s, es) && After(s, es) == d
  }

  lemma EventFirst(s: Session, e: Event, es: seq<Event>, d: Session)
    requires Enabled(s, e) && Leads(Apply(s, e), es, d)
    ensures Leads(s, [e] + es, d)
  {
    EventThen(s, e, es);
  }

  predicate ShakeAt(strand: seq<Task>, k: nat) {
    k < |strand| && IsShake(strand[k])
  }

  lemma {:induction false} ShakeExists(strand: seq<Task>) returns (k: nat)
    requires Of(strand).shaking != []
    ensures ShakeAt(strand, k)
  {
    if IsShake(strand[0]) {
      k := 0;
    } else {
      var later := ShakeExists(strand[1..]);
      k := later + 1;
    }
  }

  /** What a task or call leaves of a handshake that is still to be handled. */
  predicate SamePhase(s: Session, s': Session) {
    && s'.life.phase == s.life.phase && (s.life.closedEarly ==> s'.life.closedEarly)
    && s'.handlers == s.handlers
  }

  lemma HeaderStaysInPhase(s: Session, head: Head, error: Outcome)
    ensures var d := HandleReadHeader(s, head, error); SamePhase(s, d) && s.strand <= d.strand
  {
  }

  lemma BodyStaysInPhase(s: Session, head: Head, body: seq<Byte>, error: Outcome)
    ensures var d := HandleReadBody(s, head, body, error); SamePhase(s, d) && s.strand <= d.strand
  {
  }

  lemma TaskStaysInPhase(s: Session)
    requires s.strand != [] && !IsShake(s.strand[0])
    ensures SamePhase(s, RunTask(s)) && s.strand[1..] <= RunTask(s).strand
  {
    var t := s.strand[0];
    if t.HeaderRead? {
      HeaderStaysInPhase(Dequeued(s), t.head, t.error);
    } else if t.BodyRead? {
      BodyStaysInPhase(Dequeued(s), t.head, t.body, t.error);
    }
  }

  /** The tasks ahead of a task of the handshake run. */
  lemma {:induction false} RunsToShake(s: Session, k: nat) returns (es: seq<Event>, d: Session)
    requires Inv(s) && ShakeAt(s.strand, k)
    ensures Leads(s, es, d) && Inv(d) && SamePhase(s, d) && ShakeAt(d.strand, 0)
    decreases k
  {
    if IsShake(s.strand[0]) {
      es, d := [], s;
    } else {
      var s' := RunTask(s);
      TaskStaysInPhase(s);
      RunTaskKeepsInv(s);
      assert s'.strand[k - 1] == s.strand[1..][k - 1] == s.strand[k];
      var rest;
      rest, d := RunsToShake(s', k - 1);
      TaskFirst(s, rest);
      es := [TaskRuns] + rest;
    }
  }

  lemma ShakeIsDue(s: Session)
    requires LifeOk(s) && ShakeAt(s.strand, 0)
    ensures if s.strand[0].AsyncHandshake? then s.life.phase.Opening? else s.life.phase.Shaking?
  {
    if s.strand[0].AsyncHandshake? {
      StartHandshakeKeepsLife(s);
    } else {
      HandledKeepsLife(s, s.strand[0].error);
    }
  }

  lemma HandshakeIsHandled(s: Session, error: Outcome)
    ensures var d := HandleHandshake(s, error);
      && d.life.phase == Done(error.Ok?) && d.handlers == s.handlers
      && (s.life.closedEarly ==> d.life.closedEarly)
  {
  }

  /** A task of the handshake takes it to its next phase. */
  lemma ShakeMovesOn(s: Session)
    requires ShakeAt(s.strand, 0)
    ensures var d := RunTask(s);
      && (if s.strand[0].AsyncHandshake? then d.life.phase.Shaking? else d.life.phase.Done?)
      && d.handlers == s.handlers && (s.life.closedEarly ==> d.life.closedEarly)
  {
    if s.strand[0].HandshakeDone? {
      HandshakeIsHandled(Dequeued(s), s.strand[0].error);
    }
  }

  /** The next step of a handshake under way comes about. */
  lemma HandshakeStep(s: Session, k: nat) returns (es: seq<Event>, d: Session)
    requires Inv(s) && ShakeAt(s.strand, k) && s.life.closedEarly
    ensures Leads(s, es, d) && Inv(d) && d.handlers == s.handlers && d.life.closedEarly
    ensures s.life.phase.Opening? ==> d.life.phase.Shaking?
    ensures s.life.phase.Shaking? ==> d.life.phase.Done?
  {
    var c, first;
    first, c := RunsToShake(s, k);
    ShakeIsDue(c);
    ShakeMovesOn(c);
    RunTaskKeepsInv(c);
    d := RunTask(c);
    TaskFirst(c, []);
    AfterConcat(s, first, [TaskRuns] + []);
    es := first + ([TaskRuns] + []);
  }

  lemma HandshakeTask(s: Session) returns (es: seq<Event>, d: Session, k: nat)
    requires Inv(s) && s.life.phase.Shaking?
    ensures Leads(s, es, d) && Inv(d) && SamePhase(s, d) && ShakeAt(d.strand, k)
  {
    if s.life.handshake.Some? {
      d := Apply(s, HandshakeEnds(Failed));
      ApplyKeepsInv(s, HandshakeEnds(Failed));
      EventFirst(s, HandshakeEnds(Failed), [], d);
      es, k := [HandshakeEnds(Failed)] + [], |s.strand|;
    } else {
      es, d := [], s;
      k := ShakeExists(s.strand);
    }
  }

  lemma ShakingIsHandled(s: Session) returns (es: seq<Event>, d: Session)
    requires Inv(s) && s.life.phase.Shaking? && s.life.closedEarly
    ensures Leads(s, es, d) && Inv(d) && d.handlers == s.handlers && d.life.phase.Done? && d.life.closedEarly
  {
    var first, c, k := HandshakeTask(s);
    var rest;
    rest, d := HandshakeStep(c, k);
    AfterConcat(s, first, rest);
    es := first + rest;
  }

  lemma OpeningIsHandled(s: Session) returns (es: seq<Event>, d: Session)
    requires Inv(s) && s.life.phase.Opening? && s.life.closedEarly
    ensures Leads(s, es, d) && Inv(d) && d.handlers == s.handlers && d.life.phase.Done? && d.life.closedEarly
  {
    OpeningStrandShakes(s.strand);
    var k := ShakeExists(s.strand);
    var first, c := HandshakeStep(s, k);
    var rest;
    rest, d := ShakingIsHandled(c);
    AfterConcat(s, first, rest);
    es := first + rest;
  }

  /** A close() now is an early one. */
  lemma ClosesEarly(s: Session)
    requires Inv(s) && BeforeHandshakeHandled(s.life.phase)
    ensures var d := Apply(s, CloseCall);
      Inv(d) && d.life.phase == s.life.phase && d.life.closedEarly && d.handlers == s.handlers
  {
    ApplyKeepsInv(s, CloseCall);
  }

  lemma StartedCanCloseEarly(s: Session) returns (es: seq<Event>, d: Session)
    requires Inv(s) && BeforeHandshakeHandled(s.life.phase)
    ensures Leads(s, es, d) && Inv(d) && d.handlers == s.handlers && d.life.phase.Done? && d.life.closedEarly
  {
    var c := Apply(s, CloseCall);
    ClosesEarly(s);
    var rest;
    if c.life.phase.Opening? {
      rest, d := OpeningIsHandled(c);
    } else {
      rest, d := ShakingIsHandled(c);
    }
    EventFirst(s, CloseCall, rest, d);
    es := [CloseCall] + rest;
  }

  /** As long as the handshake has not been handled, a run goes on through an early close. */
  lemma CanCloseEarly(s: Session) returns (es: seq<Event>, d: Session)
    requires Inv(s) && !s.life.phase.Done?
    ensures Leads(s, es, d) && Inv(d) && d.handlers == s.handlers && d.life.phase.Done? && d.life.closedEarly
  {
    if s.life.phase.Fresh? {
      var c := Apply(s, OpenCall);
      ApplyKeepsInv(s, OpenCall);
      var rest;
      rest, d := StartedCanCloseEarly(c);
      EventFirst(s, OpenCall, rest, d);
      es := [OpenCall] + rest;
    } else {
      es, d := StartedCanCloseEarly(s);
    }
  }

  lemma CanCloseTwice(s: Session) returns (more: seq<Event>)
    requires Inv(s) && s.handlers.close && (s.life.phase.Done? ==> s.life.closedEarly)
    ensures ClosesTwice(s, more)
  {
    if s.life.phase.Done? {
      more := EarlyCloseCountsTwice(s);
    } else {
      var first, d := CanCloseEarly(s);
      var rest := EarlyCloseCountsTwice(d);
      AfterConcat(s, first, rest);
      more := first + rest;
    }
  }

  lemma TwiceOnlyIfEarly(s: Session, more: seq<Event>)
    requires Inv(s) && ClosesTwice(s, more)
    ensures s.handlers.close && (s.life.phase.Done? ==> s.life.closedEarly)
  {
    RunKeepsInv(s, more);
    HandlersStay(s, more);
    if s.life.phase.Done? {
      RunKeepsStart(s, more);
    }
  }

  /** The exact condition. From any state of any run, the close handler can come to run twice if
      and only if it was given and the handshake has not been handled yet, or a close() took
      effect before it was. */
  lemma {:induction false} RunsTwiceIff(handlers: Handlers, es: seq<Event>)
    requires Possible(Created(handlers), es)
    ensures var s := After(Created(handlers), es);
      (exists more :: ClosesTwice(s, more)) <==> handlers.close && (s.life.phase.Done? ==> s.life.closedEarly)
  {
    var s := After(Created(handlers), es);
    ReachableInv(handlers, es);
    HandlersStay(Created(handlers), es);
    if handlers.close && (s.life.phase.Done? ==> s.life.closedEarly) {
      var more := CanCloseTwice(s);
    }
    forall more | ClosesTwice(s, more) ensures handlers.close && (s.life.phase.Done? ==> s.life.closedEarly) {
      TwiceOnlyIfEarly(s, more);
    }
  }

  /** The second run does happen: open, a close while the handshake is under way, a handshake
      that ends with an error of its own, and the close that follows from that. */
  lemma CanRunTwice()
    ensures var s, es := Created(Handlers(true, true, true)), EarlyClose + FourTasks;
      Possible(s, es) && ClosedCount(After(s, es).life.notices) == 2
  {
    var s5 := EarlyCloseRuns();
    LateHandshakeRuns(s5);
    AfterConcat(Created(Handlers(true, true, true)), EarlyClose, FourTasks);
    ClosedCountAppend([Closed], Closed);
    ClosedCountAppend([], Closed);
    assert [] + [Closed] == [Closed];
  }

  const TwoTasks := [TaskRuns, TaskRuns]
  const FourTasks := TwoTasks + TwoTasks

  lemma FailedHandshakePosts(s: Session)
    requires s.strand == [HandshakeDone(Failed)]
    ensures var d := RunTask(s);
      d.strand == [CancelOps, CloseSocket] && d.life.notices == s.life.notices && d.handlers == s.handlers
  {
  }

  lemma CloseTaskNotifies(s: Session)
    requires s.strand != [] && s.strand[0].CloseSocket? && s.handlers.close
    ensures var d := RunTask(s);
      d.strand == s.strand[1..] && d.life.notices == s.life.notices + [Closed] && d.handlers == s.handlers
  {
  }

  lemma CancelTaskIsQuiet(s: Session)
    requires s.strand != [] && s.strand[0].CancelOps?
    ensures var d := RunTask(s);
      d.strand == s.strand[1..] && d.life.notices == s.life.notices && d.handlers == s.handlers
  {
  }

  lemma {:induction false} TwoTasksRun(s: Session)
    requires s.strand != [] && RunTask(s).strand != []
    ensures Possible(s, TwoTasks) && After(s, TwoTasks) == RunTask(RunTask(s))
  {
    TaskFirst(RunTask(s), []);
    TaskFirst(s, [TaskRuns]);
    assert [TaskRuns] + [] == [TaskRuns] && TwoTasks == [TaskRuns] + [TaskRuns];
  }

  lemma {:induction false} FailedHandshakeCloses(s: Session)
    requires s.strand == [CloseSocket, HandshakeDone(Failed)]
    requires s.life.notices == [] && s.handlers.close
    ensures Possible(s, TwoTasks)
    ensures var d := After(s, TwoTasks);
      d.strand == [CancelOps, CloseSocket] && d.life.notices == [Closed] && d.handlers.close
  {
    CloseTaskNotifies(s);
    FailedHandshakePosts(RunTask(s));
    TwoTasksRun(s);
  }

  lemma {:induction false} CloseTaskRuns(s: Session)
    requires s.strand == [CancelOps, CloseSocket] && s.life.notices == [Closed] && s.handlers.close
    ensures Possible(s, TwoTasks) && After(s, TwoTasks).life.notices == [Closed] + [Closed]
  {
    CancelTaskIsQuiet(s);
    CloseTaskNotifies(RunTask(s));
    TwoTasksRun(s);
  }

  lemma {:induction false} LateHandshakeRuns(s: Session)
    requires s.strand == [CloseSocket, HandshakeDone(Failed)]
    requires s.life.notices == [] && s.handlers.close
    ensures Possible(s, FourTasks) && After(s, FourTasks).life.notices == [Closed] + [Closed]
  {
    FailedHandshakeCloses(s);
    CloseTaskRuns(After(s, TwoTasks));
    AfterConcat(s, TwoTasks, TwoTasks);
  }

  const EarlyClose := [OpenCall] + [TaskRuns] + [CloseCall] + [TaskRuns] + [HandshakeEnds(Failed)]

  lemma EarlyCloseRuns() returns (s5: Session)
    ensures var s := Created(Handlers(true, true, true));
      Possible(s, EarlyClose) && s5 == After(s, EarlyClose)
    ensures s5.strand == [CloseSocket, HandshakeDone(Failed)]
    ensures s5.life.notices == [] && s5.handlers.close && s5.life.socketOpen
  {
    var s0 := Created(Handlers(true, true, true));
    var s1 := Apply(s0, OpenCall);
    assert s1.strand == [AsyncHandshake];
    var s2 := Apply(s1, TaskRuns);
    assert s2.strand == [];
    var s3 := Apply(s2, CloseCall);
    assert s3.strand == [CancelOps, CloseSocket];
    var s4 := Apply(s3, TaskRuns);
    assert s4.strand == [CloseSocket];
    s5 := Apply(s4, HandshakeEnds(Failed));
    AfterMore(s0, [], OpenCall);
    assert [] + [OpenCall] == [OpenCall];
    AfterMore(s0, [OpenCall], TaskRuns);
    AfterMore(s0, [OpenCall] + [TaskRuns], CloseCall);
    AfterMore(s0, [OpenCall] + [TaskRuns] + [CloseCall], TaskRuns);
    AfterMore(s0, [OpenCall] + [TaskRuns] + [CloseCall] + [TaskRuns], HandshakeEnds(Failed));
  }
}
