/** The keep-alive in every run of a session: it never sleeps while it is needed, waits for one
    thing at a time, and gives a silent connection up in time. */
module KeepAlive {
  import opened Asio
  import opened Wire
  import opened SessionModel
  import opened StrandView
  import opened SessionInvariant
  import opened SessionTheorems
  import ReadTimer

  // ----- it never sleeps

  /** Whether something waits once the task has run, given whether something did. */
  function Effect(task: ReadTimer.Task, waiting: bool): bool {
    match task
    case Stamp => waiting
    case Cancel => false
    case Restart(_) => true
    case Expire(_) => true
  }

  function Outlook(tasks: seq<ReadTimer.Task>, waiting: bool): bool {
    if tasks == [] then waiting else Outlook(tasks[1..], Effect(tasks[0], waiting))
  }

  /** A wait is under way or has expired, or a task will start one that no queued
      cancellation undoes. */
  predicate Awake(t: ReadTimer.Timer) {
    t.fired != [] || Outlook(t.tasks, t.armed != [])
  }

  lemma {:induction false} OutlookPosted(tasks: seq<ReadTimer.Task>, task: ReadTimer.Task, waiting: bool)
    ensures Outlook(tasks + [task], waiting) == Effect(task, Outlook(tasks, waiting))
  {
    if tasks == [] {
      assert tasks + [task] == [task] && [task][1..] == [];
    } else {
      assert (tasks + [task])[1..] == tasks[1..] + [task];
      OutlookPosted(tasks[1..], task, Effect(tasks[0], waiting));
    }
  }

  lemma RestartWakes(t: ReadTimer.Timer, chain: seq<nat>)
    ensures Awake(ReadTimer.Post(t, ReadTimer.Restart(chain)))
  {
    OutlookPosted(t.tasks, ReadTimer.Restart(chain), t.armed != []);
  }

  lemma TimerTaskStaysAwake(t: ReadTimer.Timer, time: nat, period: int)
    requires Awake(t) && t.tasks != [] && !t.tasks[0].Expire?
    ensures Awake(ReadTimer.RunTask(t, time, period))
  {
  }

  lemma FireStaysAwake(t: ReadTimer.Timer, time: nat, i: nat)
    requires i < |t.armed|
    ensures Awake(ReadTimer.Fire(t, time, i))
  {
  }

  lemma TimedOutStaysAwake(t: ReadTimer.Timer, i: nat)
    requires i < |t.fired|
    ensures Awake(ReadTimer.TimedOut(t, i))
  {
    OutlookPosted(t.tasks, ReadTimer.Expire(t.fired[i].chain), t.armed != []);
  }

  /** Connected, and reading. */
  predicate Listening(s: Session) {
    s.life.connected && s.life.phase == Done(true) && s.reader.ended.None?
  }

  predicate Watched(s: Session) {
    Listening(s) ==> Awake(s.timer)
  }

  /** What a completed read does to the timer's strand: cancelReadTimer stamps lastTimeRead_, then
      the timer is restarted if reading goes on, and cancelled once more by a close(). */
  predicate ReadDrives(s: Session, s': Session, error: Outcome) {
    s'.timer == s.timer.(tasks := s.timer.tasks + [ReadTimer.Cancel] +
      (if s'.reader.ended.None? then [ReadTimer.Restart([])]
       else if error.Aborted? then [] else [ReadTimer.Cancel]))
  }

  lemma HeaderDrivesTimer(s: Session, head: Head, error: Outcome)
    requires s.reader.ended.None?
    ensures ReadDrives(s, HandleReadHeader(s, head, error), error)
  {
    assert s.timer.tasks + [ReadTimer.Cancel] + [] == s.timer.tasks + [ReadTimer.Cancel];
  }

  lemma BodyDrivesTimer(s: Session, head: Head, body: seq<Byte>, error: Outcome)
    requires s.reader.ended.None?
    ensures ReadDrives(s, HandleReadBody(s, head, body, error), error)
  {
    assert s.timer.tasks + [ReadTimer.Cancel] + [] == s.timer.tasks + [ReadTimer.Cancel];
  }

  lemma DrivenIsWatched(s: Session, s': Session, error: Outcome)
    requires ReadDrives(s, s', error)
    ensures Watched(s')
  {
    OutlookPosted(s.timer.tasks + [ReadTimer.Cancel], ReadTimer.Restart([]), s.timer.armed != []);
  }

  lemma ReadTaskStaysWatched(s: Session)
    requires s.strand != [] && IsRead(s.strand[0]) && s.reader.ended.None?
    ensures Watched(RunTask(s))
  {
    var c := s.(strand := s.strand[1..]);
    match s.strand[0] {
      case HeaderRead(head, error) =>
        HeaderDrivesTimer(c, head, error);
        DrivenIsWatched(c, HandleReadHeader(c, head, error), error);
      case BodyRead(head, body, error) =>
        BodyDrivesTimer(c, head, body, error);
        DrivenIsWatched(c, HandleReadBody(c, head, body, error), error);
    }
  }

  lemma HandshakeIsWatched(s: Session, error: Outcome)
    ensures Watched(HandleHandshake(s, error))
  {
    RestartWakes(ReadTimer.Post(s.timer, ReadTimer.Stamp), []);
  }

  lemma WrittenStaysWatched(s: Session, error: Outcome)
    requires Watched(s)
    ensures Watched(HandleWrite(s, error))
  {
  }

  lemma TaskStaysWatched(s: Session)
    requires Inv(s) && Watched(s) && s.strand != []
    ensures Watched(RunTask(s))
  {
    match s.strand[0] {
      case HandshakeDone(error) => HandshakeIsWatched(Dequeued(s), error);
      case Written(_, error) => WrittenStaysWatched(Dequeued(s), error);
      case HeaderRead(_, _) => ReadTaskStaysWatched(s);
      case BodyRead(_, _, _) => ReadTaskStaysWatched(s);
      case _ =>
    }
  }

  lemma TimerTaskStaysWatched(s: Session, time: nat, period: int)
    requires Watched(s) && s.timer.tasks != []
    ensures Watched(RunTimerTask(s, time, period))
  {
    var t := ReadTimer.RunTask(s.timer, time, period);
    if s.timer.tasks[0].Expire? {
      RestartWakes(t, s.timer.tasks[0].chain + [time]);
    } else if Awake(s.timer) {
      TimerTaskStaysAwake(s.timer, time, period);
    }
  }

  lemma CallStaysWatched(s: Session, e: Event)
    requires Watched(s) && Enabled(s, e) && (e.OpenCall? || e.SendCall? || e.CloseCall?)
    ensures Watched(Apply(s, e))
  {
  }

  lemma ProgressStaysWatched(s: Session, e: Event)
    requires Watched(s) && Enabled(s, e)
    requires e.HandshakeEnds? || e.BytesLeave? || e.WriteEnds? || e.BytesArrive? || e.ReadEnds? || e.PayloadHandedOver?
    ensures Watched(Apply(s, e))
  {
  }

  lemma EventStaysWatched(s: Session, e: Event)
    requires Inv(s) && Watched(s) && Enabled(s, e)
    ensures Watched(Apply(s, e))
  {
    match e {
      case OpenCall => CallStaysWatched(s, e);
      case SendCall(_) => CallStaysWatched(s, e);
      case CloseCall => CallStaysWatched(s, e);
      case TaskRuns => TaskStaysWatched(s);
      case TimerTaskRuns(time, period) => TimerTaskStaysWatched(s, time, period);
      case WaitExpires(time, i) => FireStaysAwake(s.timer, time, i);
      case TimeOutHandled(i) => TimedOutStaysAwake(s.timer, i);
      case _ => ProgressStaysWatched(s, e);
    }
  }

  lemma {:induction false} RunStaysWatched(s: Session, es: seq<Event>)
    requires Inv(s) && Watched(s) && Possible(s, es)
    ensures Watched(After(s, es))
    decreases |es|
  {
    if es != [] {
      EventStaysWatched(s, es[0]);
      ApplyKeepsInv(s, es[0]);
      RunStaysWatched(Apply(s, es[0]), es[1..]);
    }
  }

  /** The keep-alive never sleeps: in every run, as long as the session is connected and reads, a
      wait is under way or has expired, or a task that no queued cancellation undoes will
      start one. */
  lemma {:induction false} NeverSleeps(handlers: Handlers, es: seq<Event>)
    requires Possible(Created(handlers), es)
    ensures var s := After(Created(handlers), es); Listening(s) ==> Awake(s.timer)
  {
    CreatedInv(handlers);
    RunStaysWatched(Created(handlers), es);
  }

  // ----- how long it lasts

  predicate PeriodsAtLeast(es: seq<Event>, p: nat) {
    forall e :: e in es && e.TimerTaskRuns? ==> p <= e.period
  }

  lemma CloseKeepsAlive(s: Session, p: nat)
    requires ReadTimer.KeepAlive(s.timer, p)
    ensures ReadTimer.KeepAlive(Close(s).timer, p)
  {
    ReadTimer.PostKeepsAlive(s.timer, ReadTimer.Cancel, p);
  }

  lemma RunTaskKeepsAlive(s: Session, p: nat)
    requires ReadTimer.KeepAlive(s.timer, p) && s.strand != []
    ensures ReadTimer.KeepAlive(RunTask(s).timer, p)
  {
    var t := s.timer;
    ReadTimer.PostKeepsAlive(t, ReadTimer.Cancel, p);
    ReadTimer.PostKeepsAlive(t, ReadTimer.Stamp, p);
    var cancelled, stamped := ReadTimer.Post(t, ReadTimer.Cancel), ReadTimer.Post(t, ReadTimer.Stamp);
    ReadTimer.PostKeepsAlive(cancelled, ReadTimer.Cancel, p);
    ReadTimer.PostKeepsAlive(cancelled, ReadTimer.Restart([]), p);
    ReadTimer.PostKeepsAlive(stamped, ReadTimer.Restart([]), p);
    var t' := RunTask(s).timer;
    assert t' == t || t' == cancelled
        || t' == ReadTimer.Post(cancelled, ReadTimer.Cancel)
        || t' == ReadTimer.Post(cancelled, ReadTimer.Restart([]))
        || t' == ReadTimer.Post(stamped, ReadTimer.Restart([]));
  }

  lemma ApplyKeepsAlive(s: Session, e: Event, p: nat)
    requires ReadTimer.KeepAlive(s.timer, p) && Enabled(s, e)
    requires e.TimerTaskRuns? ==> p <= e.period
    ensures ReadTimer.KeepAlive(Apply(s, e).timer, p)
  {
    match e {
      case CloseCall => CloseKeepsAlive(s, p);
      case TaskRuns => RunTaskKeepsAlive(s, p);
      case TimerTaskRuns(time, period) =>
        ReadTimer.RunKeepsAlive(s.timer, time, period, p);
        var t := ReadTimer.RunTask(s.timer, time, period);
        if s.timer.tasks[0].Expire? {
          ReadTimer.PostKeepsAlive(t, ReadTimer.Restart(s.timer.tasks[0].chain + [time]), p);
          ReadTimer.PostKeepsAlive(t, ReadTimer.Cancel, p);
        }
      case WaitExpires(time, i) => ReadTimer.FireKeepsAlive(s.timer, time, i, p);
      case TimeOutHandled(i) => ReadTimer.TimedOutKeepsAlive(s.timer, i, p);
      case _ =>
    }
  }

  lemma {:induction false} RunKeepsAlive(s: Session, es: seq<Event>, p: nat)
    requires ReadTimer.KeepAlive(s.timer, p) && Possible(s, es) && PeriodsAtLeast(es, p)
    ensures ReadTimer.KeepAlive(After(s, es).timer, p)
    decreases |es|
  {
    if es != [] {
      ApplyKeepsAlive(s, es[0], p);
      RunKeepsAlive(Apply(s, es[0]), es[1..], p);
    }
  }

  /** Read-timer safety: at most one wait is ever armed, and until lastTimeRead_ is set nothing
      waits, nothing has expired and no expiry task is queued to read it. */
  lemma {:induction false} ReadTimerIsSafe(handlers: Handlers, es: seq<Event>)
    requires Possible(Created(handlers), es)
    ensures var t := After(Created(handlers), es).timer;
      && |t.armed| <= 1
      && (t.lastRead.None? ==> t.armed == [] && t.fired == [] && forall task :: task in t.tasks ==> !task.Expire?)
  {
    ReachableInv(handlers, es);
  }

  /** An expiry on a connection that is lost, and on one that is alive. */
  lemma ExpiryCloses(s: Session, time: nat, period: int)
    requires Enabled(s, TimerTaskRuns(time, period)) && s.timer.tasks[0].Expire?
    requires ReadTimer.ConnectionLost(s.timer, time)
    ensures var s' := Apply(s, TimerTaskRuns(time, period));
      && !s'.life.connected && s'.writer == s.writer
      && s'.timer.tasks == s.timer.tasks[1..] + [ReadTimer.Cancel]
  {
  }

  lemma ExpiryPings(s: Session, time: nat, period: int)
    requires Enabled(s, TimerTaskRuns(time, period)) && s.timer.tasks[0].Expire?
    requires !ReadTimer.ConnectionLost(s.timer, time)
    ensures var s' := Apply(s, TimerTaskRuns(time, period));
      && s'.writer.submitted == s.writer.submitted + [PingMessage] && s'.life == s.life
      && s'.timer.tasks == s.timer.tasks[1..] + [ReadTimer.Restart(s.timer.tasks[0].chain + [time])]
  {
  }

  /** Keep-alive. Whatever else runs, an expiry task finds lastTimeRead_ set. It closes exactly
      if more than MaxTimeOut passed since, and then its chain ends; otherwise it pings,
      and if all periods drawn are at least p >= 1 ms it is at most number 999/p + 1 of
      its chain since the last stamp. */
  lemma {:induction false} KeepAliveBound(handlers: Handlers, es: seq<Event>, p: nat, time: nat, period: int)
    requires Possible(Created(handlers), es) && PeriodsAtLeast(es, p) && 1 <= p
    requires var s := After(Created(handlers), es);
      Enabled(s, TimerTaskRuns(time, period)) && s.timer.tasks[0].Expire?
    ensures var s := After(Created(handlers), es);
      var s' := Apply(s, TimerTaskRuns(time, period));
      var chain := s.timer.tasks[0].chain + [time];
      && s.timer.lastRead.Some? && |s.timer.armed| <= 1
      && if time - s.timer.lastRead.value >= 1000000 then
           !s'.life.connected && s'.writer == s.writer
           && s'.timer.tasks == s.timer.tasks[1..] + [ReadTimer.Cancel]
         else
           s'.writer.submitted == s.writer.submitted + [PingMessage] && s'.life == s.life
           && s'.timer.tasks == s.timer.tasks[1..] + [ReadTimer.Restart(chain)]
           && ReadTimer.Since(chain, s.timer.lastRead.value) <= 999 / p + 1
  {
    var s := After(Created(handlers), es);
    ReachableInv(handlers, es);
    RunKeepsAlive(Created(handlers), es, p);
    StampIsSet(s.timer, time);
    if ReadTimer.ConnectionLost(s.timer, time) {
      ExpiryCloses(s, time, period);
    } else {
      ExpiryPings(s, time, period);
      ReadTimer.PingsAreBounded(s.timer, time, p);
    }
  }

  lemma StampIsSet(t: ReadTimer.Timer, time: nat)
    requires ReadTimer.Ready(t) && t.tasks != [] && t.tasks[0].Expire? && t.now <= time
    ensures t.lastRead.Some? && |t.armed| <= 1
    ensures ReadTimer.ConnectionLost(t, time) <==>
      time - t.lastRead.value >= (ReadTimer.MAX_TIMEOUT + 1) * ReadTimer.MILLISECOND
  {
    assert t.tasks[0] in t.tasks;
  }
}
