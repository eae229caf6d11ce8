/** Session's keep-alive: readTimer_, lastTimeRead_ and the tasks on readTimerStrand_.
    Times are microseconds. Every wait and every task that continues a wait carries, as
    history, the times at which its chain has already expired: an expiry that pings
    re-arms the timer, so one chain of expiries follows another without a read. */
module ReadTimer {
  import opened Asio

  const MAX_TIMEOUT := 999
  const MILLISECOND := 1000

  datatype Wait = Wait(deadline: int, chain: seq<nat>)

  datatype Task =
    | Stamp                      // handleHandshake: set lastTimeRead_
    | Cancel                     // cancelReadTimer
    | Restart(chain: seq<nat>)   // restartReadTimer
    | Expire(chain: seq<nat>)    // the task posted by handleReadTimeOut

  /** armed: waits that cancel can still abort; fired: completions it cannot. */
  datatype Timer = Timer(now: nat, lastRead: Option<nat>, tasks: seq<Task>, armed: seq<Wait>, fired: seq<Wait>)

  const Fresh := Timer(0, None, [], [], [])

  function Post(t: Timer, task: Task): Timer {
    t.(tasks := t.tasks + [task])
  }

  /** The deadline of a wait passes. */
  function Fire(t: Timer, time: nat, i: nat): Timer
    requires i < |t.armed|
  {
    t.(now := time, armed := t.armed[..i] + t.armed[i + 1..], fired := t.fired + [t.armed[i]])
  }

  /** handleReadTimeOut for a wait that was not aborted. An aborted one does nothing. */
  function TimedOut(t: Timer, i: nat): Timer
    requires i < |t.fired|
  {
    Post(t.(fired := t.fired[..i] + t.fired[i + 1..]), Expire(t.fired[i].chain))
  }

  /** Before the first stamp lastTimeRead_ holds the epoch. */
  function LastReadOrEpoch(t: Timer): nat {
    if t.lastRead.Some? then t.lastRead.value else 0
  }

  function ElapsedMs(t: Timer, time: nat): int {
    (time - LastReadOrEpoch(t)) / MILLISECOND
  }

  predicate ConnectionLost(t: Timer, time: nat) {
    ElapsedMs(t, time) > MAX_TIMEOUT
  }

  /** The timer's part of running the first task. What an expiry then does to the session
      is the caller's business. Setting an expiry aborts the waits that are armed. */
  function RunTask(t: Timer, time: nat, period: int): Timer
    requires t.tasks != []
  {
    var r := t.(now := time, tasks := t.tasks[1..]);
    match t.tasks[0]
    case Stamp => r.(lastRead := Some(time))
    case Cancel => r.(armed := [], lastRead := Some(time))
    case Restart(chain) =>
      var unarmed := r.(armed := []);
      unarmed.(armed := unarmed.armed + [Wait(time + MILLISECOND * period, chain)])
    case Expire(_) => r
  }

  predicate SetsLastRead(task: Task) {
    task.Stamp? || task.Cancel?
  }

  // ----- lastTimeRead_ is set before it is read; one wait at a time

  /** Until the first stamp, nothing waits and the first task due is a stamp. */
  ghost predicate Ready(t: Timer) {
    && |t.armed| <= 1
    && (t.lastRead.Some? ==> t.lastRead.value <= t.now)
    && (t.lastRead.None? ==>
          && t.armed == [] && t.fired == []
          && (forall task :: task in t.tasks ==> !task.Expire?)
          && (t.tasks != [] ==> SetsLastRead(t.tasks[0])))
  }

  /** Whoever may start a wait has a stamp behind him, or at least queued. */
  predicate Stamped(t: Timer) {
    t.lastRead.Some? || t.tasks != []
  }

  /** Nothing but cancellations so far: no read has been started. */
  predicate Untouched(t: Timer) {
    t.armed == [] && t.fired == [] && forall task :: task in t.tasks ==> task.Cancel?
  }

  lemma PostKeepsReady(t: Timer, task: Task)
    requires Ready(t)
    requires SetsLastRead(task) || (task.Restart? && Stamped(t))
    ensures Ready(Post(t, task)) && Stamped(Post(t, task))
  {
  }

  lemma RunKeepsReady(t: Timer, time: nat, period: int)
    requires Ready(t) && t.tasks != [] && t.now <= time
    ensures Ready(RunTask(t, time, period)) && Stamped(RunTask(t, time, period))
  {
    assert t.tasks == [t.tasks[0]] + t.tasks[1..];
    assert t.tasks[0] in t.tasks;
  }

  lemma FireKeepsReady(t: Timer, time: nat, i: nat)
    requires Ready(t) && i < |t.armed| && t.now <= time
    ensures Ready(Fire(t, time, i)) && Stamped(Fire(t, time, i))
  {
  }

  lemma TimedOutKeepsReady(t: Timer, i: nat)
    requires Ready(t) && i < |t.fired|
    ensures Ready(TimedOut(t, i)) && Stamped(TimedOut(t, i))
  {
  }

  // ----- the keep-alive bound

  predicate Apart(earlier: int, later: int, p: nat) {
    later - earlier >= MILLISECOND * p
  }

  /** Successive expiries of a chain are at least p milliseconds apart. */
  ghost predicate Paced(chain: seq<nat>, p: nat) {
    forall i :: 0 < i < |chain| ==> Apart(chain[i - 1], chain[i], p)
  }

  /** A chain whose next expiry cannot come before the given time. */
  ghost predicate PacedUntil(chain: seq<nat>, next: int, p: nat) {
    Paced(chain, p) && (chain != [] ==> Apart(chain[|chain| - 1], next, p))
  }

  ghost predicate TaskPaced(task: Task, now: nat, p: nat) {
    match task
    case Restart(chain) => Paced(chain, p) && (chain != [] ==> chain[|chain| - 1] <= now)
    case Expire(chain) => PacedUntil(chain, now, p)
    case _ => true
  }

  ghost predicate KeepAlive(t: Timer, p: nat) {
    && (forall w :: w in t.armed ==> PacedUntil(w.chain, w.deadline, p))
    && (forall w :: w in t.fired ==> PacedUntil(w.chain, t.now, p))
    && (forall task :: task in t.tasks ==> TaskPaced(task, t.now, p))
  }

  lemma PostKeepsAlive(t: Timer, task: Task, p: nat)
    requires KeepAlive(t, p) && TaskPaced(task, t.now, p)
    ensures KeepAlive(Post(t, task), p)
  {
  }

  lemma TickKeepsAlive(t: Timer, time: nat, p: nat)
    requires KeepAlive(t, p) && t.now <= time
    ensures KeepAlive(t.(now := time), p)
  {
  }

  lemma RunKeepsAlive(t: Timer, time: nat, period: int, p: nat)
    requires KeepAlive(t, p) && t.tasks != [] && t.now <= time && p <= period
    ensures KeepAlive(RunTask(t, time, period), p)
    ensures t.tasks[0].Expire? ==> TaskPaced(Restart(t.tasks[0].chain + [time]), time, p)
  {
    TickKeepsAlive(t, time, p);
    assert t.tasks[0] in t.tasks;
    assert forall task :: task in t.tasks[1..] ==> task in t.tasks;
  }

  lemma FireKeepsAlive(t: Timer, time: nat, i: nat, p: nat)
    requires KeepAlive(t, p) && i < |t.armed| && t.now <= time && t.armed[i].deadline <= time
    ensures KeepAlive(Fire(t, time, i), p)
  {
    TickKeepsAlive(t, time, p);
    assert t.armed[i] in t.armed;
  }

  lemma TimedOutKeepsAlive(t: Timer, i: nat, p: nat)
    requires KeepAlive(t, p) && i < |t.fired|
    ensures KeepAlive(TimedOut(t, i), p)
  {
    assert t.fired[i] in t.fired;
  }

  /** How many of the expiries of a chain came at or after a given time. */
  function Since(chain: seq<nat>, stamp: nat): nat {
    if chain == [] then 0
    else Since(chain[..|chain| - 1], stamp) + (if chain[|chain| - 1] >= stamp then 1 else 0)
  }

  lemma {:induction false} SinceBound(chain: seq<nat>, stamp: nat, p: nat)
    requires Paced(chain, p) && chain != [] && chain[|chain| - 1] >= stamp
    ensures chain[|chain| - 1] - stamp >= MILLISECOND * p * (Since(chain, stamp) - 1)
  {
    var front := chain[..|chain| - 1];
    if front != [] {
      assert Apart(chain[|chain| - 2], chain[|chain| - 1], p);
      if front[|front| - 1] >= stamp {
        SinceBound(front, stamp, p);
        var n := Since(front, stamp);
        assert Since(chain, stamp) == n + 1;
        assert MILLISECOND * p * n == MILLISECOND * p * (n - 1) + MILLISECOND * p;
      } else {
        SinceNone(front, stamp, p);
      }
    }
  }

  lemma {:induction false} SinceNone(chain: seq<nat>, stamp: nat, p: nat)
    requires Paced(chain, p) && (chain != [] ==> chain[|chain| - 1] < stamp)
    ensures Since(chain, stamp) == 0
  {
    if |chain| > 1 {
      assert Apart(chain[|chain| - 2], chain[|chain| - 1], p);
    }
    if chain != [] {
      SinceNone(chain[..|chain| - 1], stamp, p);
    }
  }

  /** The keep-alive bound. If every period drawn is at least p >= 1 ms, an expiry that
      still pings is at most number 999/p + 1 of its chain since the last stamp; so the
      next one finds the connection lost. */
  lemma PingsAreBounded(t: Timer, time: nat, p: nat)
    requires Ready(t) && KeepAlive(t, p) && 1 <= p && t.now <= time
    requires t.tasks != [] && t.tasks[0].Expire?
    requires !ConnectionLost(t, time)
    ensures t.lastRead.Some?
    ensures Since(t.tasks[0].chain + [time], t.lastRead.value) <= MAX_TIMEOUT / p + 1
  {
    assert t.tasks[0] in t.tasks;
    var chain, stamp := t.tasks[0].chain + [time], t.lastRead.value;
    TickKeepsAlive(t, time, p);
    assert Paced(chain, p);
    SinceBound(chain, stamp, p);
    var k := Since(chain, stamp) - 1;
    assert MILLISECOND * p * k == MILLISECOND * (p * k);
    assert p * k <= MAX_TIMEOUT;
    QuotientBound(p, k, MAX_TIMEOUT);
  }

  lemma QuotientBound(p: nat, k: int, n: nat)
    requires 1 <= p && p * k <= n
    ensures k <= n / p
  {
    var q := n / p;
    assert n == p * q + n % p;
    assert p * (q + 1) == p * q + p;
    if q + 1 <= k {
      MulMonotone(p, q + 1, k);
    }
  }

  lemma MulMonotone(p: nat, a: int, b: int)
    requires a <= b
    ensures p * a <= p * b
  {
    assert p * b - p * a == p * (b - a);
  }
}
