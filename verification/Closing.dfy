/** A session whose socket is closed comes to rest: its tasks run out, its operations end, and it
    is not registered any more. */
module Closing {
  import opened Asio
  import opened Wire
  import opened SessionModel
  import opened SessionReader
  import opened SessionInvariant
  import opened SessionTheorems
  import opened Drain
  import opened Registration
  import Network
  import SessionManager
  import SessionQueue
  import Traffic

  /** What a session has to do, and what the Pings it has received and not dispatched may add. */
  function Slack(s: Session): int {
    Load(s) + 91 * (Twos(s.reader.received) - Traffic.Count(s.reader.decoded, PING))
  }

  lemma SlackIsNatural(s: Session)
    requires ReaderOk(s)
    ensures Slack(s) >= 0
  {
    var frames, decoded := Decode(s.reader.received).frames, s.reader.decoded;
    ReaderRefinesDecoder(s);
    assert frames == decoded + frames[|decoded|..];
    Traffic.CountConcat(decoded, frames[|decoded|..], PING);
    PingsAreTwos(s.reader.received);
  }

  lemma ClosedMovesNoBytes(s: Session, e: Event)
    requires Enabled(s, e) && !s.life.socketOpen
    ensures Network.NoBytesMoved(s, Apply(s, e))
  {
    match e {
      case TaskRuns => Network.TaskMovesNoBytes(s);
      case _ =>
    }
  }

  lemma SlackIsBalance(s: Session)
    ensures Slack(s) ==
      Balance(s) - 6 * |s.writer.wire| - 91 * Twos(s.writer.wire)
      + 6 * |s.reader.received| + 91 * Twos(s.reader.received)
  {
  }

  lemma InternalLowersSlack(s: Session, e: Event)
    requires ReaderOk(s) && Enabled(s, e) && Internal(e) && !s.life.socketOpen
    ensures Slack(Apply(s, e)) < Slack(s)
  {
    InternalDrains(s, e);
    ClosedMovesNoBytes(s, e);
    SlackIsBalance(s);
    SlackIsBalance(Apply(s, e));
  }

  lemma StepStaysClosed(s: Session, e: Event)
    requires Inv(s) && Enabled(s, e) && Internal(e) && !s.life.socketOpen
    ensures Inv(Apply(s, e)) && !Apply(s, e).life.socketOpen && 0 <= Slack(Apply(s, e)) < Slack(s)
  {
    ApplyKeepsInv(s, e);
    SessionQueue.ClosedStays(s, e);
    InternalLowersSlack(s, e);
    SlackIsNatural(Apply(s, e));
  }

  predicate InternalRun(es: seq<Event>) {
    forall e :: e in es ==> Internal(e)
  }

  lemma {:induction false} ClosedRunIsBounded(s: Session, es: seq<Event>)
    requires Inv(s) && !s.life.socketOpen && Possible(s, es) && InternalRun(es)
    ensures Inv(After(s, es)) && !After(s, es).life.socketOpen
    ensures |es| <= Slack(s)
    decreases |es|
  {
    if es == [] {
      SlackIsNatural(s);
    } else {
      StepStaysClosed(s, es[0]);
      ClosedRunIsBounded(Apply(s, es[0]), es[1..]);
    }
  }

  /** Nothing is left to happen but calls and expiring waits. */
  ghost predicate Stuck(s: Session) {
    forall e :: Enabled(s, e) ==> !Internal(e)
  }

  /** A queued task can run and an operation under way can fail. */
  lemma SomethingGoesOn(s: Session) returns (e: Event)
    requires !AtRest(s)
    ensures Enabled(s, e) && Internal(e)
  {
    e := if s.strand != [] then TaskRuns
         else if s.life.handshake.Some? then HandshakeEnds(Failed)
         else if s.writer.ops != [] then WriteEnds(0, Failed)
         else ReadEnds(0, Failed);
  }

  lemma StuckIsAtRest(s: Session)
    requires Stuck(s)
    ensures AtRest(s)
  {
    if !AtRest(s) {
      var e := SomethingGoesOn(s);
    }
  }

  lemma {:induction false} RunsUntilStuck(s: Session) returns (es: seq<Event>)
    requires Inv(s) && !s.life.socketOpen
    ensures Possible(s, es) && InternalRun(es) && Stuck(After(s, es))
    decreases Slack(s)
  {
    SlackIsNatural(s);
    if Stuck(s) {
      es := [];
    } else {
      var e :| Enabled(s, e) && Internal(e);
      StepStaysClosed(s, e);
      var rest := RunsUntilStuck(Apply(s, e));
      EventThen(s, e, rest);
      es := [e] + rest;
    }
  }

  /** Once the socket is closed, the session on its own has a bounded number of events left, can
      go on until nothing is left, and is then at rest. */
  lemma ClosedComesToRest(handlers: Handlers, es: seq<Event>, more: seq<Event>)
      returns (rest: seq<Event>)
    requires Possible(Created(handlers), es) && !After(Created(handlers), es).life.socketOpen
    requires Possible(After(Created(handlers), es), more) && InternalRun(more)
    ensures var s := After(Created(handlers), es);
      var d := After(s, more);
      && |more| <= Slack(s)
      && (Stuck(d) ==> AtRest(d))
      && Possible(d, rest) && InternalRun(rest) && Stuck(After(d, rest)) && AtRest(After(d, rest))
  {
    var s := After(Created(handlers), es);
    ReachableInv(handlers, es);
    ClosedRunIsBounded(s, more);
    var d := After(s, more);
    if Stuck(d) {
      StuckIsAtRest(d);
    }
    rest := RunsUntilStuck(d);
    StuckIsAtRest(After(d, rest));
  }

  /** And it is not registered: whatever ran it out, once the manager has run the tasks that its
      handlers posted, the session is not in sessions_. */
  lemma {:induction false} ClosedIsUnregistered(handlers: Handlers, es: seq<Event>, more: seq<Event>,
                                                id: SessionManager.Id,
                                                sessions: seq<SessionManager.Id>, tasks: seq<SessionManager.Task>)
    requires handlers.open && handlers.close && id !in sessions
    requires Possible(Created(handlers), es) && !After(Created(handlers), es).life.socketOpen
    requires Possible(After(Created(handlers), es), more) && InternalRun(more)
    requires var d := After(After(Created(handlers), es), more);
      Stuck(d) && SessionManager.OnlyAbout(tasks, id) == TasksFor(d.life.notices, id)
    ensures id !in SessionManager.Run(sessions, tasks)
  {
    var s := After(Created(handlers), es);
    ReachableInv(handlers, es);
    ClosedRunIsBounded(s, more);
    StuckIsAtRest(After(s, more));
    AfterConcat(Created(handlers), es, more);
    RegistrationConsistent(handlers, es + more, id, sessions, tasks);
  }
}
