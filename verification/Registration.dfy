/** Sessions and the manager together, as Server wires them: the open handler joins, the
    close handler leaves. */
module Registration {
  import opened SessionModel
  import opened SessionInvariant
  import opened SessionTheorems
  import SessionManager

  function TaskFor(n: Notice, id: SessionManager.Id): SessionManager.Task {
    if n.Opened? then SessionManager.Join(id) else SessionManager.Leave(id)
  }

  /** What the handlers of session id have posted to the manager's strand. */
  function TasksFor(notices: seq<Notice>, id: SessionManager.Id): seq<SessionManager.Task> {
    seq(|notices|, i requires 0 <= i < |notices| => TaskFor(notices[i], id))
  }

  /** No task is queued and no operation is under way. */
  predicate AtRest(s: Session) {
    s.strand == [] && s.life.handshake.None? && s.writer.ops == [] && s.reader.ops == []
  }

  lemma LastNoticeDecides(l: Life, id: SessionManager.Id)
    ensures var mine := TasksFor(l.notices, id);
      (mine != [] && mine[|mine| - 1].Join?) <==> StillJoined(l)
  {
  }

  lemma JoinedAsItShouldBe(s: Session)
    requires Inv(s) && s.handlers.open && s.handlers.close
    ensures s.life.socketOpen ==> (StillJoined(s.life) <==> s.life.phase == Done(true))
    ensures !s.life.socketOpen && AtRest(s) ==> !StillJoined(s.life)
  {
  }

  /** Registration consistency. Once the manager has run all its tasks, among them the
      session's own in the order it posted them, a session whose socket is open is
      registered exactly if its handshake succeeded; and a session whose socket is closed
      is not registered as soon as it is at rest, however calls of close(), the
      handshake and the strand tasks interleaved. */
  lemma {:induction false} RegistrationConsistent(handlers: Handlers, es: seq<Event>, id: SessionManager.Id,
                                                  sessions: seq<SessionManager.Id>, tasks: seq<SessionManager.Task>)
    requires handlers.open && handlers.close && Possible(Created(handlers), es)
    requires id !in sessions
    requires SessionManager.OnlyAbout(tasks, id) == TasksFor(After(Created(handlers), es).life.notices, id)
    ensures var s := After(Created(handlers), es);
      && (s.life.socketOpen ==> (id in SessionManager.Run(sessions, tasks) <==> s.life.phase == Done(true)))
      && (!s.life.socketOpen && AtRest(s) ==> id !in SessionManager.Run(sessions, tasks))
  {
    ReachableInv(handlers, es);
    HandlersStay(Created(handlers), es);
    SessionManager.LastTaskDecides(sessions, tasks, id);
    LastNoticeDecides(After(Created(handlers), es).life, id);
    JoinedAsItShouldBe(After(Created(handlers), es));
  }
}
