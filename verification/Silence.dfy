/** A session that listens and receives nothing gives up: its timer strand has a bounded number of
    events left before an expiry finds the connection lost, and can always go on to that one. */
module Silence {
  import opened SessionModel
  import opened StrandView
  import opened SessionLife
  import opened SessionInvariant
  import opened SessionTheorems
  import opened KeepAlive
  import ReadTimer

  // ----- what a timer has left

  /** How many expiries a chain can still have, if k since a stamp are all it can have. */
  function Left(chain: seq<nat>, stamp: nat, k: nat): nat {
    if ReadTimer.Since(chain, stamp) < k then k - ReadTimer.Since(chain, stamp) else 0
  }

  predicate Stamps(task: ReadTimer.Task) {
    task.Stamp? || task.Cancel?
  }

  function StampCount(tasks: seq<ReadTimer.Task>): nat {
    if tasks == [] then 0 else (if Stamps(tasks[0]) then 1 else 0) + StampCount(tasks[1..])
  }

  /** Each expiry takes four events; "later" is what queued stamps may add to every chain. */
  function ChainWeight(chain: seq<nat>, phase: nat, stamp: nat, k: nat, later: nat): nat {
    4 * (Left(chain, stamp, k) + later) + phase
  }

  function TaskWeight(task: ReadTimer.Task, stamp: nat, k: nat, later: nat): nat {
    match task
    case Stamp => 0
    case Cancel => 0
    case Restart(chain) => ChainWeight(chain, 3, stamp, k, later)
    case Expire(chain) => ChainWeight(chain, 0, stamp, k, later)
  }

  function TasksWeight(tasks: seq<ReadTimer.Task>, stamp: nat, k: nat, later: nat): nat {
    if tasks == [] then 0 else TaskWeight(tasks[0], stamp, k, later) + TasksWeight(tasks[1..], stamp, k, later)
  }

  function WaitsWeight(waits: seq<ReadTimer.Wait>, phase: nat, stamp: nat, k: nat, later: nat): nat {
    if waits == [] then 0
    else ChainWeight(waits[0].chain, phase, stamp, k, later) + WaitsWeight(waits[1..], phase, stamp, k, later)
  }

  function AllWeight(t: ReadTimer.Timer, stamp: nat, k: nat, later: nat): nat {
    TasksWeight(t.tasks, stamp, k, later)
    + WaitsWeight(t.armed, 2, stamp, k, later) + WaitsWeight(t.fired, 1, stamp, k, later)
  }

  /** The events a timer has left without a further stamp, as long as nothing closes. */
  function Weight(t: ReadTimer.Timer, k: nat): nat {
    StampCount(t.tasks) + AllWeight(t, ReadTimer.LastReadOrEpoch(t), k, k * StampCount(t.tasks))
  }

  // ----- sums

  lemma {:induction false} TasksPosted(tasks: seq<ReadTimer.Task>, task: ReadTimer.Task,
                                       stamp: nat, k: nat, later: nat)
    ensures TasksWeight(tasks + [task], stamp, k, later) ==
      TasksWeight(tasks, stamp, k, later) + TaskWeight(task, stamp, k, later)
    ensures StampCount(tasks + [task]) == StampCount(tasks) + (if Stamps(task) then 1 else 0)
  {
    if tasks == [] {
      assert tasks + [task] == [task] && [task][1..] == [];
    } else {
      assert (tasks + [task])[1..] == tasks[1..] + [task];
      TasksPosted(tasks[1..], task, stamp, k, later);
    }
  }

  lemma {:induction false} WaitsConcat(a: seq<ReadTimer.Wait>, b: seq<ReadTimer.Wait>,
                                       phase: nat, stamp: nat, k: nat, later: nat)
    ensures WaitsWeight(a + b, phase, stamp, k, later) ==
      WaitsWeight(a, phase, stamp, k, later) + WaitsWeight(b, phase, stamp, k, later)
  {
    if a == [] {
      assert a + b == b;
    } else {
      assert (a + b)[1..] == a[1..] + b;
      WaitsConcat(a[1..], b, phase, stamp, k, later);
    }
  }

  lemma {:induction false} OneWait(w: ReadTimer.Wait, phase: nat, stamp: nat, k: nat, later: nat)
    ensures WaitsWeight([w], phase, stamp, k, later) == ChainWeight(w.chain, phase, stamp, k, later)
  {
    assert [w][1..] == [];
  }

  lemma {:induction false} WaitTaken(ws: seq<ReadTimer.Wait>, i: nat, phase: nat, stamp: nat, k: nat, later: nat)
    requires i < |ws|
    ensures WaitsWeight(ws, phase, stamp, k, later) ==
      WaitsWeight(ws[..i] + ws[i + 1..], phase, stamp, k, later) + ChainWeight(ws[i].chain, phase, stamp, k, later)
  {
    assert ws == ws[..i] + [ws[i]] + ws[i + 1..];
    WaitsConcat(ws[..i] + [ws[i]], ws[i + 1..], phase, stamp, k, later);
    WaitsConcat(ws[..i], [ws[i]], phase, stamp, k, later);
    WaitsConcat(ws[..i], ws[i + 1..], phase, stamp, k, later);
    OneWait(ws[i], phase, stamp, k, later);
  }

  /** A stamp gives every chain all its expiries back, which had been paid for. */
  lemma {:induction false} TasksStamped(tasks: seq<ReadTimer.Task>, stamp: nat, later: nat,
                                        stamp': nat, later': nat, k: nat)
    requires later' + k <= later
    ensures TasksWeight(tasks, stamp', k, later') <= TasksWeight(tasks, stamp, k, later)
  {
    if tasks != [] {
      TasksStamped(tasks[1..], stamp, later, stamp', later', k);
    }
  }

  lemma {:induction false} WaitsStamped(ws: seq<ReadTimer.Wait>, phase: nat, stamp: nat, later: nat,
                                        stamp': nat, later': nat, k: nat)
    requires later' + k <= later
    ensures WaitsWeight(ws, phase, stamp', k, later') <= WaitsWeight(ws, phase, stamp, k, later)
  {
    if ws != [] {
      WaitsStamped(ws[1..], phase, stamp, later, stamp', later', k);
    }
  }

  // ----- each timer event lowers the weight

  lemma StampLowers(t: ReadTimer.Timer, time: nat, period: int, k: nat)
    requires t.tasks != [] && Stamps(t.tasks[0])
    ensures Weight(ReadTimer.RunTask(t, time, period), k) < Weight(t, k)
  {
    var t' := ReadTimer.RunTask(t, time, period);
    var stamp, n := ReadTimer.LastReadOrEpoch(t), StampCount(t'.tasks);
    assert StampCount(t.tasks) == n + 1;
    var later, later' := k * (n + 1), k * n;
    assert later' + k == later;
    TasksStamped(t'.tasks, stamp, later, time, later', k);
    WaitsStamped(t.armed, 2, stamp, later, time, later', k);
    WaitsStamped(t.fired, 1, stamp, later, time, later', k);
  }

  lemma RestartLowers(t: ReadTimer.Timer, time: nat, period: int, k: nat)
    requires t.tasks != [] && t.tasks[0].Restart?
    ensures Weight(ReadTimer.RunTask(t, time, period), k) < Weight(t, k)
  {
    var t' := ReadTimer.RunTask(t, time, period);
    var w := ReadTimer.Wait(time + ReadTimer.MILLISECOND * period, t.tasks[0].chain);
    assert t'.armed == [w];
    OneWait(w, 2, ReadTimer.LastReadOrEpoch(t), k, k * StampCount(t.tasks));
  }

  lemma {:induction false} SinceNext(chain: seq<nat>, time: nat, stamp: nat)
    requires stamp <= time
    ensures ReadTimer.Since(chain + [time], stamp) == ReadTimer.Since(chain, stamp) + 1
  {
    assert (chain + [time])[..|chain|] == chain;
  }

  /** An expiry that pings restarts its chain with one expiry less to come. */
  lemma PingLowers(t: ReadTimer.Timer, time: nat, period: int, k: nat)
    requires t.tasks != [] && t.tasks[0].Expire? && ReadTimer.LastReadOrEpoch(t) <= time
    requires ReadTimer.Since(t.tasks[0].chain + [time], ReadTimer.LastReadOrEpoch(t)) <= k
    ensures var t' := ReadTimer.RunTask(t, time, period);
      Weight(ReadTimer.Post(t', ReadTimer.Restart(t.tasks[0].chain + [time])), k) < Weight(t, k)
  {
    var chain, stamp, later := t.tasks[0].chain, ReadTimer.LastReadOrEpoch(t), k * StampCount(t.tasks);
    SinceNext(chain, time, stamp);
    TasksPosted(t.tasks[1..], ReadTimer.Restart(chain + [time]), stamp, k, later);
  }

  lemma FireLowers(t: ReadTimer.Timer, time: nat, i: nat, k: nat)
    requires i < |t.armed|
    ensures Weight(ReadTimer.Fire(t, time, i), k) < Weight(t, k)
  {
    var stamp, later := ReadTimer.LastReadOrEpoch(t), k * StampCount(t.tasks);
    WaitTaken(t.armed, i, 2, stamp, k, later);
    WaitsConcat(t.fired, [t.armed[i]], 1, stamp, k, later);
    OneWait(t.armed[i], 1, stamp, k, later);
  }

  lemma TimedOutLowers(t: ReadTimer.Timer, i: nat, k: nat)
    requires i < |t.fired|
    ensures Weight(ReadTimer.TimedOut(t, i), k) < Weight(t, k)
  {
    var stamp, later := ReadTimer.LastReadOrEpoch(t), k * StampCount(t.tasks);
    WaitTaken(t.fired, i, 1, stamp, k, later);
    TasksPosted(t.tasks, ReadTimer.Expire(t.fired[i].chain), stamp, k, later);
  }

  /** A timer that has just been restarted by a read, with nothing else about. */
  lemma RestartedWeight(t: ReadTimer.Timer, k: nat)
    requires t.tasks == [] && t.fired == [] && |t.armed| == 1 && t.armed[0].chain == []
    ensures Weight(t, k) == 4 * k + 2
  {
    assert t.armed == [t.armed[0]];
    OneWait(t.armed[0], 2, ReadTimer.LastReadOrEpoch(t), k, 0);
  }

  // ----- silence

  predicate TimerEvent(e: Event) {
    e.TimerTaskRuns? || e.WaitExpires? || e.TimeOutHandled?
  }

  predicate AllTimer(es: seq<Event>) {
    forall e :: e in es ==> TimerEvent(e)
  }

  function TimerEvents(es: seq<Event>): nat {
    if es == [] then 0 else (if TimerEvent(es[0]) then 1 else 0) + TimerEvents(es[1..])
  }

  predicate HandlesRead(s: Session, e: Event) {
    e.TaskRuns? && s.strand != [] && IsRead(s.strand[0])
  }

  /** All along the run the session is connected and reads, and no read is handled. */
  predicate Silent(s: Session, es: seq<Event>)
    decreases |es|
  {
    && Listening(s)
    && (es == [] || (Enabled(s, es[0]) && !HandlesRead(s, es[0]) && Silent(Apply(s, es[0]), es[1..])))
  }

  lemma {:induction false} SilentIsPossible(s: Session, es: seq<Event>)
    requires Silent(s, es)
    ensures Possible(s, es) && Listening(After(s, es))
    decreases |es|
  {
    if es != [] {
      SilentIsPossible(Apply(s, es[0]), es[1..]);
    }
  }

  lemma OtherTaskLeavesTimer(s: Session)
    requires PhaseOk(s) && Listening(s) && s.strand != [] && !IsRead(s.strand[0]) && Listening(RunTask(s))
    ensures RunTask(s).timer == s.timer
  {
    assert Of(s.strand) == Before(s.strand[0], Of(s.strand[1..]));
  }

  lemma OtherLeavesTimer(s: Session, e: Event)
    requires PhaseOk(s) && Listening(s) && Enabled(s, e) && !TimerEvent(e) && !HandlesRead(s, e)
    requires Listening(Apply(s, e))
    ensures Apply(s, e).timer == s.timer
  {
    match e {
      case TaskRuns => OtherTaskLeavesTimer(s);
      case _ =>
    }
  }

  /** What 999/p + 1 is in the bound: the expiries that a chain can have since a stamp. */
  function Expiries(p: nat): nat
    requires 1 <= p
  {
    999 / p + 1
  }

  lemma TimerTaskLowers(s: Session, time: nat, period: int, p: nat)
    requires Inv(s) && ReadTimer.KeepAlive(s.timer, p) && 1 <= p
    requires s.timer.tasks != [] && s.timer.now <= time && RunTimerTask(s, time, period).life.connected
    requires s.life.connected
    ensures Weight(RunTimerTask(s, time, period).timer, Expiries(p)) < Weight(s.timer, Expiries(p))
  {
    var t := s.timer;
    match t.tasks[0] {
      case Stamp => StampLowers(t, time, period, Expiries(p));
      case Cancel => StampLowers(t, time, period, Expiries(p));
      case Restart(_) => RestartLowers(t, time, period, Expiries(p));
      case Expire(chain) =>
        ReadTimer.PingsAreBounded(t, time, p);
        PingLowers(t, time, period, Expiries(p));
    }
  }

  lemma TimerEventLowers(s: Session, e: Event, p: nat)
    requires Inv(s) && ReadTimer.KeepAlive(s.timer, p) && 1 <= p
    requires Enabled(s, e) && TimerEvent(e) && s.life.connected && Apply(s, e).life.connected
    ensures Weight(Apply(s, e).timer, Expiries(p)) < Weight(s.timer, Expiries(p))
  {
    match e {
      case TimerTaskRuns(time, period) => TimerTaskLowers(s, time, period, p);
      case WaitExpires(time, i) => FireLowers(s.timer, time, i, Expiries(p));
      case TimeOutHandled(i) => TimedOutLowers(s.timer, i, Expiries(p));
    }
  }

  lemma {:induction false} SilenceIsBounded(s: Session, es: seq<Event>, p: nat)
    requires Inv(s) && ReadTimer.KeepAlive(s.timer, p) && 1 <= p
    requires Silent(s, es) && PeriodsAtLeast(es, p)
    ensures TimerEvents(es) <= Weight(s.timer, Expiries(p))
    decreases |es|
  {
    if es != [] {
      var s' := Apply(s, es[0]);
      ApplyKeepsInv(s, es[0]);
      ApplyKeepsAlive(s, es[0], p);
      if TimerEvent(es[0]) {
        TimerEventLowers(s, es[0], p);
      } else {
        OtherLeavesTimer(s, es[0]);
      }
      SilenceIsBounded(s', es[1..], p);
    }
  }

  // ----- and it can go on

  lemma SomethingIsDue(s: Session, p: nat) returns (e: Event)
    requires Awake(s.timer)
    ensures Enabled(s, e) && TimerEvent(e) && (e.TimerTaskRuns? ==> e.period == p)
  {
    var t := s.timer;
    if t.fired != [] {
      e := TimeOutHandled(0);
    } else if t.tasks != [] {
      e := TimerTaskRuns(t.now, p);
    } else {
      e := WaitExpires(if t.armed[0].deadline > t.now then t.armed[0].deadline else t.now, 0);
    }
  }

  lemma TimerEventKeepsReading(s: Session, e: Event)
    requires Enabled(s, e) && TimerEvent(e) && Listening(s) && Apply(s, e).life.connected
    ensures Listening(Apply(s, e))
  {
  }

  /** A listening session under its invariants, its timer awake. */
  ghost predicate OnWatch(s: Session, p: nat) {
    Inv(s) && ReadTimer.KeepAlive(s.timer, p) && Listening(s) && Awake(s.timer)
  }

  lemma TimerEventGoesOn(s: Session, e: Event, p: nat)
    requires OnWatch(s, p) && 1 <= p && Enabled(s, e) && TimerEvent(e) && (e.TimerTaskRuns? ==> e.period == p)
    requires Apply(s, e).life.connected
    ensures OnWatch(Apply(s, e), p) && Weight(Apply(s, e).timer, Expiries(p)) < Weight(s.timer, Expiries(p))
  {
    TimerEventLowers(s, e, p);
    TimerEventKeepsReading(s, e);
    ApplyKeepsInv(s, e);
    ApplyKeepsAlive(s, e, p);
    EventStaysWatched(s, e);
  }

  /** With timer events only, a listening session comes to close. */
  lemma {:induction false} GivesUp(s: Session, p: nat) returns (es: seq<Event>)
    requires OnWatch(s, p) && 1 <= p
    ensures Possible(s, es) && AllTimer(es) && !After(s, es).life.connected
    decreases Weight(s.timer, Expiries(p))
  {
    var e := SomethingIsDue(s, p);
    var s' := Apply(s, e);
    if s'.life.connected {
      TimerEventGoesOn(s, e, p);
      var rest := GivesUp(s', p);
      EventThen(s, e, rest);
      es := [e] + rest;
    } else {
      EventThen(s, e, []);
      es := [e] + [];
    }
  }

  /** Silence is noticed. From any state of any run: as long as the session listens and handles no
      read, its timer has at most Weight events, known in advance; and from wherever that
      has led, timer events alone can close the connection. */
  lemma SilenceIsNoticed(handlers: Handlers, es: seq<Event>, more: seq<Event>, p: nat)
      returns (rest: seq<Event>)
    requires Possible(Created(handlers), es) && PeriodsAtLeast(es, p) && 1 <= p
    requires Silent(After(Created(handlers), es), more) && PeriodsAtLeast(more, p)
    ensures var s := After(Created(handlers), es);
      && TimerEvents(more) <= Weight(s.timer, Expiries(p))
      && Possible(s, more)
      && var d := After(s, more);
      && Possible(d, rest) && AllTimer(rest) && !After(d, rest).life.connected
  {
    var s := After(Created(handlers), es);
    ReachableInv(handlers, es);
    RunKeepsAlive(Created(handlers), es, p);
    SilenceIsBounded(s, more, p);
    SilentIsPossible(s, more);
    RunKeepsInv(s, more);
    RunKeepsAlive(s, more, p);
    NeverSleeps(handlers, es);
    RunStaysWatched(s, more);
    rest := GivesUp(After(s, more), p);
  }
}
