/** What the keep-alive goes by, read off the events of a run: the last stamp of lastTimeRead_ and
    the wait under way; and what that means for a connection that is alive. */
module Stamps {
  import opened Asio
  import opened SessionModel
  import opened StrandView
  import opened SessionTheorems
  import opened KeepAlive
  import ReadTimer
  import Wire

  /** A task that stamps lastTimeRead_ runs: after the handshake, or from cancelReadTimer. */
  predicate RunsStamp(s: Session, e: Event) {
    e.TimerTaskRuns? && s.timer.tasks != [] && (s.timer.tasks[0].Stamp? || s.timer.tasks[0].Cancel?)
  }

  predicate RunsCancel(s: Session, e: Event) {
    e.TimerTaskRuns? && s.timer.tasks != [] && s.timer.tasks[0].Cancel?
  }

  predicate RunsRestart(s: Session, e: Event) {
    e.TimerTaskRuns? && s.timer.tasks != [] && s.timer.tasks[0].Restart?
  }

  predicate RunsExpiry(s: Session, e: Event) {
    e.TimerTaskRuns? && s.timer.tasks != [] && s.timer.tasks[0].Expire?
  }

  /** The time of the last such event, or what was known before the run. */
  function LastStamp(s: Session, es: seq<Event>, before: Option<nat>): Option<nat>
    requires Possible(s, es)
    decreases |es|
  {
    if es == [] then before
    else LastStamp(Apply(s, es[0]), es[1..], if RunsStamp(s, es[0]) then Some(es[0].time) else before)
  }

  /** The deadline of the wait under way: set by the last restart, its period in milliseconds from
      then, unless a cancellation or the expiry has come since. */
  function LastWait(s: Session, es: seq<Event>, before: Option<int>): Option<int>
    requires Possible(s, es)
    decreases |es|
  {
    if es == [] then before
    else LastWait(Apply(s, es[0]), es[1..], WaitAfter(s, es[0], before))
  }

  function WaitAfter(s: Session, e: Event, before: Option<int>): Option<int> {
    if RunsRestart(s, e) then Some(e.time + 1000 * e.period)
    else if RunsCancel(s, e) || e.WaitExpires? then None
    else before
  }

  predicate WaitIs(t: ReadTimer.Timer, wait: Option<int>) {
    if wait.None? then t.armed == [] else |t.armed| == 1 && t.armed[0].deadline == wait.value
  }

  // ----- one event

  /** Handling tasks of the socket strand only posts to the timer's. */
  predicate OnlyPosts(t: ReadTimer.Timer, t': ReadTimer.Timer) {
    t' == t.(tasks := t'.tasks) && t.tasks <= t'.tasks
  }

  lemma HeaderOnlyPosts(s: Session, head: Head, error: Outcome)
    ensures OnlyPosts(s.timer, HandleReadHeader(s, head, error).timer)
  {
  }

  lemma BodyOnlyPosts(s: Session, head: Head, body: seq<Wire.Byte>, error: Outcome)
    ensures OnlyPosts(s.timer, HandleReadBody(s, head, body, error).timer)
  {
  }

  lemma TaskOnlyPosts(s: Session)
    requires s.strand != []
    ensures OnlyPosts(s.timer, RunTask(s).timer)
  {
    var t := s.strand[0];
    if t.HeaderRead? {
      HeaderOnlyPosts(Dequeued(s), t.head, t.error);
    } else if t.BodyRead? {
      BodyOnlyPosts(Dequeued(s), t.head, t.body, t.error);
    }
  }

  lemma EventMovesStamp(s: Session, e: Event)
    requires Enabled(s, e)
    ensures Apply(s, e).timer.lastRead == if RunsStamp(s, e) then Some(e.time) else s.timer.lastRead
  {
    match e {
      case TaskRuns => TaskOnlyPosts(s);
      case _ =>
    }
  }

  lemma TimerTaskMovesWait(s: Session, time: nat, period: int, wait: Option<int>)
    requires s.timer.tasks != [] && WaitIs(s.timer, wait)
    ensures WaitIs(RunTimerTask(s, time, period).timer, WaitAfter(s, TimerTaskRuns(time, period), wait))
  {
    var t := ReadTimer.RunTask(s.timer, time, period);
    assert RunTimerTask(s, time, period).timer.armed == t.armed;
  }

  lemma OtherKeepsWaits(s: Session, e: Event)
    requires Enabled(s, e) && !e.TaskRuns? && !e.TimerTaskRuns? && !e.WaitExpires?
    ensures Apply(s, e).timer.armed == s.timer.armed
  {
  }

  lemma EventMovesWait(s: Session, e: Event, wait: Option<int>)
    requires Enabled(s, e) && WaitIs(s.timer, wait)
    ensures WaitIs(Apply(s, e).timer, WaitAfter(s, e, wait))
  {
    if e.TaskRuns? {
      TaskOnlyPosts(s);
    } else if e.TimerTaskRuns? {
      TimerTaskMovesWait(s, e.time, e.period, wait);
    } else if e.WaitExpires? {
      assert s.timer.armed[..e.i] + s.timer.armed[e.i + 1..] == [];
    } else {
      OtherKeepsWaits(s, e);
    }
  }

  // ----- runs

  lemma {:induction false} RunMovesStamp(s: Session, es: seq<Event>)
    requires Possible(s, es)
    ensures After(s, es).timer.lastRead == LastStamp(s, es, s.timer.lastRead)
    decreases |es|
  {
    if es != [] {
      EventMovesStamp(s, es[0]);
      RunMovesStamp(Apply(s, es[0]), es[1..]);
    }
  }

  lemma {:induction false} RunMovesWait(s: Session, es: seq<Event>, wait: Option<int>)
    requires Possible(s, es) && WaitIs(s.timer, wait)
    ensures WaitIs(After(s, es).timer, LastWait(s, es, wait))
    decreases |es|
  {
    if es != [] {
      EventMovesWait(s, es[0], wait);
      RunMovesWait(Apply(s, es[0]), es[1..], WaitAfter(s, es[0], wait));
    }
  }

  /** In every run lastTimeRead_ is the time of the last task that stamped it, and a wait is under
      way exactly from a restart to the next cancellation or its expiry, with the deadline that
      the restart drew. */
  lemma {:induction false} TimerFollowsEvents(handlers: Handlers, es: seq<Event>)
    requires Possible(Created(handlers), es)
    ensures var s := Created(handlers);
      var t := After(s, es).timer;
      && t.lastRead == LastStamp(s, es, None)
      && WaitIs(t, LastWait(s, es, None))
  {
    RunMovesStamp(Created(handlers), es);
    RunMovesWait(Created(handlers), es, None);
  }

  /** A restart at a time starts a wait that can end exactly when its period has passed. */
  lemma RestartWaits(s: Session, time: nat, period: int)
    requires Enabled(s, TimerTaskRuns(time, period)) && s.timer.tasks[0].Restart?
    ensures var d := Apply(s, TimerTaskRuns(time, period));
      |d.timer.armed| == 1
      && forall later: nat :: Enabled(d, WaitExpires(later, 0)) <==> time <= later && time + 1000 * period <= later
  {
  }

  /** An expiry decides by the last stamp of the run: after a second it closes the session, before
      that it leaves it as it is and pings. */
  lemma {:induction false} ExpiryDecides(handlers: Handlers, es: seq<Event>, e: Event)
    requires Possible(Created(handlers), es)
    requires Enabled(After(Created(handlers), es), e) && RunsExpiry(After(Created(handlers), es), e)
    ensures var s := After(Created(handlers), es);
      var d, stamp := Apply(s, e), LastStamp(Created(handlers), es, None);
      && stamp.Some?
      && if e.time - stamp.value >= 1000000 then !d.life.connected && d.writer == s.writer
         else d.life == s.life && d.writer.submitted == s.writer.submitted + [PingMessage]
  {
    var s := After(Created(handlers), es);
    RunMovesStamp(Created(handlers), es);
    ReachableInv(handlers, es);
    StampIsSet(s.timer, e.time);
    if ReadTimer.ConnectionLost(s.timer, e.time) {
      ExpiryCloses(s, e.time, e.period);
    } else {
      ExpiryPings(s, e.time, e.period);
    }
  }

  // ----- a fresh stamp

  predicate StampedSince(t: ReadTimer.Timer, n: nat) {
    t.lastRead.Some? && t.lastRead.value >= n && t.now >= n
  }

  lemma EventKeepsTime(s: Session, e: Event)
    requires Enabled(s, e)
    ensures s.timer.now <= Apply(s, e).timer.now
  {
    match e {
      case TaskRuns => TaskOnlyPosts(s);
      case _ =>
    }
  }

  lemma {:induction false} StampStays(s: Session, es: seq<Event>, n: nat)
    requires Possible(s, es) && StampedSince(s.timer, n)
    ensures StampedSince(After(s, es).timer, n)
    decreases |es|
  {
    if es != [] {
      EventMovesStamp(s, es[0]);
      EventKeepsTime(s, es[0]);
      StampStays(Apply(s, es[0]), es[1..], n);
    }
  }

  lemma FreshExpiryPings(s: Session, e: Event, n: nat)
    requires StampedSince(s.timer, n) && Enabled(s, e) && RunsExpiry(s, e) && e.time < n + 1000000
    ensures var d := Apply(s, e);
      d.life == s.life && d.writer.submitted == s.writer.submitted + [PingMessage]
  {
    ExpiryPings(s, e.time, e.period);
  }

  /** Once a stamp has run, no expiry closes the session for a second. */
  lemma {:induction false} StampKeepsOpen(s: Session, stamp: Event, more: seq<Event>, e: Event)
    requires Enabled(s, stamp) && RunsStamp(s, stamp) && Possible(Apply(s, stamp), more)
    requires var d := After(Apply(s, stamp), more);
      Enabled(d, e) && RunsExpiry(d, e) && e.time < stamp.time + 1000000
    ensures var d := After(Apply(s, stamp), more);
      Apply(d, e).life == d.life && Apply(d, e).writer.submitted == d.writer.submitted + [PingMessage]
  {
    EventMovesStamp(s, stamp);
    StampStays(Apply(s, stamp), more, stamp.time);
    FreshExpiryPings(After(Apply(s, stamp), more), e, stamp.time);
  }

  // ----- a handled read

  function TimerTasks(es: seq<Event>): nat {
    if es == [] then 0 else (if es[0].TimerTaskRuns? then 1 else 0) + TimerTasks(es[1..])
  }

  /** A cancellation stands at place k of the timer's strand. */
  predicate StampAt(t: ReadTimer.Timer, k: nat, n: nat) {
    k < |t.tasks| && t.tasks[k].Cancel? && t.now >= n
  }

  lemma TimerTaskMovesUp(s: Session, time: nat, period: int, k: nat, n: nat)
    requires Enabled(s, TimerTaskRuns(time, period)) && StampAt(s.timer, k, n)
    ensures var d := Apply(s, TimerTaskRuns(time, period));
      if k == 0 then StampedSince(d.timer, n) else StampAt(d.timer, k - 1, n)
  {
    var t := s.timer;
    assert t.tasks[1..] <= RunTimerTask(s, time, period).timer.tasks;
    if k > 0 {
      assert t.tasks[1..][k - 1] == t.tasks[k];
    }
  }

  lemma OtherLeavesPlace(s: Session, e: Event, k: nat, n: nat)
    requires Enabled(s, e) && !e.TimerTaskRuns? && StampAt(s.timer, k, n)
    ensures StampAt(Apply(s, e).timer, k, n)
  {
    match e {
      case TaskRuns => TaskOnlyPosts(s);
      case _ =>
    }
  }

  lemma {:induction false} StampComes(s: Session, es: seq<Event>, k: nat, n: nat)
    requires Possible(s, es) && StampAt(s.timer, k, n) && TimerTasks(es) > k
    ensures StampedSince(After(s, es).timer, n)
    decreases |es|
  {
    var s' := Apply(s, es[0]);
    if es[0].TimerTaskRuns? {
      TimerTaskMovesUp(s, es[0].time, es[0].period, k, n);
      if k == 0 {
        StampStays(s', es[1..], n);
      } else {
        StampComes(s', es[1..], k - 1, n);
      }
    } else {
      OtherLeavesPlace(s, es[0], k, n);
      StampComes(s', es[1..], k, n);
    }
  }

  lemma ReadPostsStamp(s: Session)
    requires s.strand != [] && IsRead(s.strand[0]) && s.reader.ended.None?
    ensures StampAt(RunTask(s).timer, |s.timer.tasks|, s.timer.now)
  {
    var c, t := Dequeued(s), s.strand[0];
    if t.HeaderRead? {
      HeaderDrivesTimer(c, t.head, t.error);
    } else {
      BodyDrivesTimer(c, t.head, t.body, t.error);
    }
  }

  /** A handled read keeps the session alive: once the timer's strand has run the tasks queued at the
      time and the one the read posted, an expiry within a second of it pings. */
  lemma {:induction false} ReadKeepsOpen(handlers: Handlers, es: seq<Event>, more: seq<Event>, e: Event)
    requires Possible(Created(handlers), es)
    requires var s := After(Created(handlers), es);
      && s.strand != [] && IsRead(s.strand[0])
      && Possible(RunTask(s), more) && TimerTasks(more) > |s.timer.tasks|
      && var d := After(RunTask(s), more);
      && Enabled(d, e) && RunsExpiry(d, e) && e.time < s.timer.now + 1000000
    ensures var d := After(RunTask(After(Created(handlers), es)), more);
      Apply(d, e).life == d.life && Apply(d, e).writer.submitted == d.writer.submitted + [PingMessage]
  {
    var s := After(Created(handlers), es);
    ReachableInv(handlers, es);
    assert Of(s.strand) == Before(s.strand[0], Of(s.strand[1..]));
    ReadPostsStamp(s);
    StampComes(RunTask(s), more, |s.timer.tasks|, s.timer.now);
    FreshExpiryPings(After(RunTask(s), more), e, s.timer.now);
  }
}
