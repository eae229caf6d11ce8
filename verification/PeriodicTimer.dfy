/** Timer: a periodic timer that re-arms itself from inside its handler. timerHandle_ is copied
    whenever a wait is started, so a copy outlives cancel(), which clears the member, and a
    later shedule(), which replaces it. */
module PeriodicTimer {
  import opened Asio
  import opened Sequences

  /** timerHandle_ or a copy of it: empty, or a lambda made by shedule(). "calls" tells whether the
      handlers that lambda captured let it call the user's handler. */
  datatype Handle = Empty | Set(calls: bool)

  /** Tasks and completions on strand_, with the copy that a start task or a wait carries. */
  datatype Task =
    | StartTask(copy: Handle)
    | CancelTask
    | Completion(copy: Handle, error: Outcome)

  /** armed: the copies held by waits under way. History: sheduled counts the calls of
      shedule(); cancelled tells that a cancel task has run since the last of them; invoked
      counts the calls of the user's handler, late those since that cancel task. */
  datatype Timer = Timer(handle: Handle, strand: seq<Task>, armed: seq<Handle>,
                         sheduled: nat, cancelled: bool, invoked: nat, late: nat)

  const Created := Timer(Empty, [], [], 0, false, 0, 0)

  function Post(t: Timer, task: Task): Timer {
    t.(strand := t.strand + [task])
  }

  function Start(t: Timer, copy: Handle): Timer {
    Post(t, StartTask(copy))
  }

  function SetHandle(t: Timer, calls: bool): Timer {
    t.(handle := Set(calls), sheduled := t.sheduled + 1, cancelled := false, late := 0)
  }

  /** The overload with a fixed period: the wait is started whatever the handler is. */
  function Shedule(t: Timer, hasHandler: bool): Timer {
    Start(SetHandle(t, hasHandler), Set(hasHandler))
  }

  /** The overload that asks for each period: without a period handler nothing starts. */
  function SheduleVarying(t: Timer, hasPeriod: bool, hasHandler: bool): Timer {
    var ready := SetHandle(t, hasPeriod && hasHandler);
    if hasPeriod then Start(ready, ready.handle) else ready
  }

  function Cancel(t: Timer): Timer {
    Post(t, CancelTask)
  }

  /** Cancelling waits, or setting a new expiry, ends them with operation_aborted. */
  function AbortArmed(t: Timer): Timer {
    t.(armed := [],
       strand := t.strand + seq(|t.armed|, i requires 0 <= i < |t.armed| => Completion(t.armed[i], Aborted)))
  }

  /** Calling a copy. The user's handler may call cancel(), and says whether to go on. Going on
      copies timerHandle_ as it is now. */
  function Invoke(t: Timer, copy: Handle, cancels: bool, again: bool): Timer {
    if copy.Empty? || !copy.calls then t
    else
      var called := t.(invoked := t.invoked + 1, late := if t.cancelled then t.late + 1 else t.late);
      var after := if cancels then Cancel(called) else called;
      if again then Start(after, after.handle) else after
  }

  function RunTask(t: Timer, cancels: bool, again: bool): Timer
    requires t.strand != []
  {
    var c := t.(strand := t.strand[1..]);
    match t.strand[0]
    case StartTask(copy) =>
      var idle := AbortArmed(c);
      idle.(armed := idle.armed + [copy])
    case CancelTask => AbortArmed(c.(handle := Empty, cancelled := true))
    case Completion(copy, error) => if !error.Aborted? then Invoke(c, copy, cancels, again) else c
  }

  function WaitEnds(t: Timer, i: nat, error: Outcome): Timer
    requires i < |t.armed|
  {
    Post(t.(armed := t.armed[..i] + t.armed[i + 1..]), Completion(t.armed[i], error))
  }

  datatype Event =
    | SheduleCall(hasHandler: bool)
    | SheduleVaryingCall(hasPeriod: bool, hasHandler: bool)
    | CancelCall
    | TaskRuns(cancels: bool, again: bool)
    | WaitExpires(i: nat, error: Outcome)

  /** shedule() and cancel() may be called at any time and any number of times. */
  predicate Enabled(t: Timer, e: Event) {
    match e
    case SheduleCall(_) => true
    case SheduleVaryingCall(_, _) => true
    case CancelCall => true
    case TaskRuns(_, _) => t.strand != []
    case WaitExpires(i, error) => i < |t.armed| && !error.Aborted?
  }

  function Apply(t: Timer, e: Event): Timer
    requires Enabled(t, e)
  {
    match e
    case SheduleCall(hasHandler) => Shedule(t, hasHandler)
    case SheduleVaryingCall(hasPeriod, hasHandler) => SheduleVarying(t, hasPeriod, hasHandler)
    case CancelCall => Cancel(t)
    case TaskRuns(cancels, again) => RunTask(t, cancels, again)
    case WaitExpires(i, error) => WaitEnds(t, i, error)
  }

  predicate Possible(t: Timer, es: seq<Event>)
    decreases |es|
  {
    es == [] || (Enabled(t, es[0]) && Possible(Apply(t, es[0]), es[1..]))
  }

  function After(t: Timer, es: seq<Event>): Timer
    requires Possible(t, es)
    decreases |es|
  {
    if es == [] then t else After(Apply(t, es[0]), es[1..])
  }

  predicate IsShedule(e: Event) {
    e.SheduleCall? || e.SheduleVaryingCall?
  }

  function Shedules(es: seq<Event>): nat {
    if es == [] then 0 else (if IsShedule(es[0]) then 1 else 0) + Shedules(es[1..])
  }

  lemma {:induction false} ShedulesCounted(t: Timer, es: seq<Event>)
    requires Possible(t, es)
    ensures After(t, es).sheduled == t.sheduled + Shedules(es)
    decreases |es|
  {
    if es != [] {
      ShedulesCounted(Apply(t, es[0]), es[1..]);
    }
  }

  // ----- tokens

  /** A start task or a completion that was not aborted. */
  predicate IsToken(task: Task) {
    task.StartTask? || (task.Completion? && !task.error.Aborted?)
  }

  function Tokens(ts: seq<Task>): seq<Handle> {
    if ts == [] then [] else (if IsToken(ts[0]) then [ts[0].copy] else []) + Tokens(ts[1..])
  }

  lemma {:induction false} TokensConcat(a: seq<Task>, b: seq<Task>)
    ensures Tokens(a + b) == Tokens(a) + Tokens(b)
  {
    if a == [] {
      assert a + b == b;
    } else {
      TailOfConcat(a, b);
      TokensConcat(a[1..], b);
      Assoc(if IsToken(a[0]) then [a[0].copy] else [], Tokens(a[1..]), Tokens(b));
    }
  }

  lemma {:induction false} TokensPosted(ts: seq<Task>, task: Task)
    ensures Tokens(ts + [task]) == Tokens(ts) + (if IsToken(task) then [task.copy] else [])
  {
    TokensConcat(ts, [task]);
    assert [task][1..] == [];
  }

  lemma {:induction false} AbortedIsNoToken(ts: seq<Task>)
    requires forall task :: task in ts ==> task.Completion? && task.error.Aborted?
    ensures Tokens(ts) == []
  {
    if ts != [] {
      assert ts[0] in ts;
      AbortedIsNoToken(ts[1..]);
    }
  }

  lemma AbortArmedTokens(t: Timer)
    ensures Tokens(AbortArmed(t).strand) == Tokens(t.strand)
  {
    var aborted := seq(|t.armed|, i requires 0 <= i < |t.armed| => Completion(t.armed[i], Aborted));
    AbortedIsNoToken(aborted);
    TokensConcat(t.strand, aborted);
  }

  /** How many copies are not empty. */
  function Live(copies: seq<Handle>): nat {
    if copies == [] then 0 else (if copies[0].Set? then 1 else 0) + Live(copies[1..])
  }

  lemma {:induction false} LiveConcat(a: seq<Handle>, b: seq<Handle>)
    ensures Live(a + b) == Live(a) + Live(b)
  {
    if a == [] {
      assert a + b == b;
    } else {
      TailOfConcat(a, b);
      LiveConcat(a[1..], b);
    }
  }

  lemma LiveOne(copy: Handle)
    ensures Live([copy]) == if copy.Set? then 1 else 0
  {
    assert [copy][1..] == [];
  }

  lemma {:induction false} LiveAtMostAll(copies: seq<Handle>)
    ensures Live(copies) <= |copies|
  {
    if copies != [] {
      LiveAtMostAll(copies[1..]);
    }
  }

  /** The copies about that can still lead to something, and those of them that are not empty. */
  function Copies(t: Timer): nat {
    |Tokens(t.strand)| + |t.armed|
  }

  function LiveCopies(t: Timer): nat {
    Live(Tokens(t.strand)) + Live(t.armed)
  }

  /** One wait at most, and at most one copy about for each shedule(). Once a cancel task has run
      the member is empty, and the calls since then plus the live copies still about are at
      most that many. */
  predicate Chained(t: Timer) {
    && |t.armed| <= 1
    && Copies(t) <= t.sheduled
    && (if t.cancelled then t.handle == Empty && t.late + LiveCopies(t) <= t.sheduled else t.late == 0)
  }

  lemma StartAdds(t: Timer, copy: Handle)
    ensures Copies(Start(t, copy)) == Copies(t) + 1
    ensures LiveCopies(Start(t, copy)) == LiveCopies(t) + (if copy.Set? then 1 else 0)
  {
    TokensPosted(t.strand, StartTask(copy));
    LiveConcat(Tokens(t.strand), [copy]);
    LiveOne(copy);
  }

  lemma CancelAdds(t: Timer)
    ensures Copies(Cancel(t)) == Copies(t) && LiveCopies(Cancel(t)) == LiveCopies(t)
  {
    TokensPosted(t.strand, CancelTask);
    assert Tokens(t.strand) + [] == Tokens(t.strand);
  }

  lemma SheduleKeepsChained(t: Timer, calls: bool)
    requires Chained(t)
    ensures Chained(SetHandle(t, calls)) && Chained(Start(SetHandle(t, calls), Set(calls)))
  {
    StartAdds(SetHandle(t, calls), Set(calls));
  }

  /** The first task taken off the strand takes its copy with it. */
  lemma TokenTaken(t: Timer)
    requires t.strand != []
    ensures var c := t.(strand := t.strand[1..]);
      if IsToken(t.strand[0]) then
        Copies(t) == Copies(c) + 1 && LiveCopies(t) == LiveCopies(c) + (if t.strand[0].copy.Set? then 1 else 0)
      else Copies(t) == Copies(c) && LiveCopies(t) == LiveCopies(c)
  {
    if IsToken(t.strand[0]) {
      LiveConcat([t.strand[0].copy], Tokens(t.strand[1..]));
      LiveOne(t.strand[0].copy);
    } else {
      assert [] + Tokens(t.strand[1..]) == Tokens(t.strand[1..]);
    }
  }

  /** A token that has left is replaced by one at most, and after a cancel task by an empty one. */
  lemma InvokeKeepsChained(t: Timer, copy: Handle, cancels: bool, again: bool)
    requires |t.armed| <= 1 && Copies(t) + 1 <= t.sheduled
    requires if t.cancelled
             then t.handle == Empty && t.late + LiveCopies(t) + (if copy.Set? then 1 else 0) <= t.sheduled
             else t.late == 0
    ensures Chained(Invoke(t, copy, cancels, again))
  {
    if copy.Set? && copy.calls {
      var called := t.(invoked := t.invoked + 1, late := if t.cancelled then t.late + 1 else t.late);
      var after := if cancels then Cancel(called) else called;
      CancelAdds(called);
      assert Chained(after) && Copies(after) + 1 <= after.sheduled && after.handle == t.handle;
      StartAdds(after, after.handle);
    }
  }

  lemma AbortKeeps(t: Timer)
    ensures Copies(AbortArmed(t)) == |Tokens(t.strand)|
    ensures LiveCopies(AbortArmed(t)) == Live(Tokens(t.strand))
  {
    AbortArmedTokens(t);
  }

  lemma RunTaskKeepsChained(t: Timer, cancels: bool, again: bool)
    requires Chained(t) && t.strand != []
    ensures Chained(RunTask(t, cancels, again))
  {
    var c := t.(strand := t.strand[1..]);
    TokenTaken(t);
    match t.strand[0] {
      case StartTask(copy) =>
        AbortKeeps(c);
        LiveOne(copy);
        assert AbortArmed(c).armed + [copy] == [copy];
      case CancelTask =>
        AbortKeeps(c.(handle := Empty, cancelled := true));
        LiveAtMostAll(Tokens(c.strand));
      case Completion(copy, error) =>
        if !error.Aborted? {
          InvokeKeepsChained(c, copy, cancels, again);
        }
    }
  }

  lemma WaitEndsKeepsChained(t: Timer, i: nat, error: Outcome)
    requires Chained(t) && i < |t.armed| && !error.Aborted?
    ensures Chained(WaitEnds(t, i, error))
  {
    var copy := t.armed[i];
    assert t.armed == [copy] && t.armed[..i] + t.armed[i + 1..] == [];
    TokensPosted(t.strand, Completion(copy, error));
    LiveConcat(Tokens(t.strand), [copy]);
    LiveOne(copy);
  }

  lemma ApplyKeepsChained(t: Timer, e: Event)
    requires Chained(t) && Enabled(t, e)
    ensures Chained(Apply(t, e))
  {
    match e {
      case SheduleCall(hasHandler) => SheduleKeepsChained(t, hasHandler);
      case SheduleVaryingCall(hasPeriod, hasHandler) => SheduleKeepsChained(t, hasPeriod && hasHandler);
      case CancelCall => CancelAdds(t);
      case TaskRuns(cancels, again) => RunTaskKeepsChained(t, cancels, again);
      case WaitExpires(i, error) => WaitEndsKeepsChained(t, i, error);
    }
  }

  lemma {:induction false} RunKeepsChained(t: Timer, es: seq<Event>)
    requires Chained(t) && Possible(t, es)
    ensures Chained(After(t, es))
    decreases |es|
  {
    if es != [] {
      ApplyKeepsChained(t, es[0]);
      RunKeepsChained(Apply(t, es[0]), es[1..]);
    }
  }

  /** Cancellation. In every run, once a cancel task has run and as long as shedule() is not called
      again, the user's handlers are called at most once more for each shedule() so far, in
      every interleaving of queued completions, start tasks and waits, and even if they cancel
      the timer themselves. */
  lemma {:induction false} CancelAllowsOneMoreCall(es: seq<Event>)
    requires Possible(Created, es)
    ensures After(Created, es).late <= Shedules(es)
  {
    RunKeepsChained(Created, es);
    ShedulesCounted(Created, es);
  }

  // ----- so many calls do happen

  /** A run from one state to another. */
  predicate Leads(t: Timer, es: seq<Event>, d: Timer) {
    Possible(t, es) && After(t, es) == d
  }

  lemma {:induction false} EventThen(t: Timer, e: Event, es: seq<Event>, d: Timer)
    requires Enabled(t, e) && Leads(Apply(t, e), es, d)
    ensures Leads(t, [e] + es, d) && Shedules([e] + es) == (if IsShedule(e) then 1 else 0) + Shedules(es)
  {
    assert ([e] + es)[1..] == es;
  }

  function Repeat(n: nat, task: Task): seq<Task> {
    if n == 0 then [] else [task] + Repeat(n - 1, task)
  }

  lemma {:induction false} RepeatPosted(n: nat, task: Task)
    ensures Repeat(n, task) + [task] == Repeat(n + 1, task)
  {
    if n > 0 {
      RepeatPosted(n - 1, task);
      Assoc([task], Repeat(n - 1, task), [task]);
    }
  }

  const Start1 := StartTask(Set(true))
  const Done1 := Completion(Set(true), Ok)

  /** What is left of the run that exhausts the bound: queue a start task for each shedule() and a
      cancel task behind them, let each start task run and its wait expire behind the cancel
      task, then run the cancel task and all the completions. */
  lemma {:induction false} AllCalled(t: Timer, n: nat) returns (es: seq<Event>)
    requires t.strand == Repeat(n, Done1) && t.cancelled
    ensures Leads(t, es, t.(strand := [], invoked := t.invoked + n, late := t.late + n)) && Shedules(es) == 0
    ensures CancelCall !in es
    decreases n
  {
    var d := t.(strand := [], invoked := t.invoked + n, late := t.late + n);
    if n == 0 {
      es := [];
    } else {
      var e := TaskRuns(false, false);
      assert t.strand[1..] == Repeat(n - 1, Done1);
      var rest := AllCalled(Apply(t, e), n - 1);
      EventThen(t, e, rest, d);
      es := [e] + rest;
    }
  }

  lemma CancelledThenCalled(t: Timer, n: nat) returns (es: seq<Event>, d: Timer)
    requires t.strand == [CancelTask] + Repeat(n, Done1) && t.armed == [] && !t.cancelled && t.late == 0
    ensures Leads(t, es, d) && Shedules(es) == 0 && d.late == n
  {
    var e := TaskRuns(false, false);
    var c := Apply(t, e);
    assert c.strand == Repeat(n, Done1);
    var rest := AllCalled(c, n);
    d := c.(strand := [], invoked := c.invoked + n, late := c.late + n);
    EventThen(t, e, rest, d);
    es := [e] + rest;
  }

  /** One start task runs and its wait expires. */
  lemma StartsAndExpires(t: Timer, behind: seq<Task>)
    requires t.strand == [Start1] + behind && t.armed == []
    ensures var c := Apply(t, TaskRuns(false, false));
      Enabled(c, WaitExpires(0, Ok)) && Apply(c, WaitExpires(0, Ok)) == t.(strand := behind + [Done1])
  {
    var c := Apply(t, TaskRuns(false, false));
    assert c.strand == behind && c.armed == [Set(true)];
    assert c.armed[..0] + c.armed[1..] == [];
  }

  lemma {:induction false} AllExpire(t: Timer, n: nat, m: nat) returns (es: seq<Event>, d: Timer)
    requires t.strand == Repeat(n, Start1) + [CancelTask] + Repeat(m, Done1)
    requires t.armed == [] && !t.cancelled && t.late == 0
    ensures Leads(t, es, d) && Shedules(es) == 0 && d.late == n + m
    decreases n
  {
    if n == 0 {
      assert t.strand == [CancelTask] + Repeat(m, Done1);
      es, d := CancelledThenCalled(t, m);
    } else {
      var behind := Repeat(n - 1, Start1) + [CancelTask] + Repeat(m, Done1);
      assert t.strand == [Start1] + behind;
      StartsAndExpires(t, behind);
      RepeatPosted(m, Done1);
      assert behind + [Done1] == Repeat(n - 1, Start1) + [CancelTask] + Repeat(m + 1, Done1);
      var c := Apply(t, TaskRuns(false, false));
      var rest;
      rest, d := AllExpire(Apply(c, WaitExpires(0, Ok)), n - 1, m + 1);
      EventThen(c, WaitExpires(0, Ok), rest, d);
      EventThen(t, TaskRuns(false, false), [WaitExpires(0, Ok)] + rest, d);
      es := [TaskRuns(false, false)] + ([WaitExpires(0, Ok)] + rest);
    }
  }

  lemma {:induction false} AllSheduled(t: Timer, n: nat, m: nat) returns (es: seq<Event>, d: Timer)
    requires t.strand == Repeat(m, Start1) && t.armed == [] && !t.cancelled && t.late == 0
    ensures Leads(t, es, d) && Shedules(es) == n && d.late == n + m
    decreases n
  {
    var rest;
    if n == 0 {
      var c := Apply(t, CancelCall);
      assert c.strand == Repeat(m, Start1) + [CancelTask] + Repeat(0, Done1);
      rest, d := AllExpire(c, m, 0);
      EventThen(t, CancelCall, rest, d);
      es := [CancelCall] + rest;
    } else {
      RepeatPosted(m, Start1);
      rest, d := AllSheduled(Apply(t, SheduleCall(true)), n - 1, m + 1);
      EventThen(t, SheduleCall(true), rest, d);
      es := [SheduleCall(true)] + rest;
    }
  }

  /** The bound is exact: for any number of calls of shedule() some run with so many of them has
      as many late calls. */
  lemma AsManyCallsHappen(n: nat) returns (es: seq<Event>)
    ensures Possible(Created, es) && Shedules(es) == n && After(Created, es).late == n
  {
    var d;
    es, d := AllSheduled(Created, n, 0);
  }

  /** It also happens when the handler cancels the timer itself and then goes on: the next wait is
      started behind the cancel task, with a live copy. */
  lemma OneMoreCallHappens() returns (es: seq<Event>)
    ensures Possible(Created, es) && Shedules(es) == 1 && TaskRuns(true, true) in es && CancelCall !in es
    ensures After(Created, es).late == 1
  {
    var t2, first := CancelsItself();
    var d, last := CalledOnceMore(t2);
    LeadsOn(Created, first, t2, last, d);
    es := first + last;
  }

  lemma {:induction false} LeadsOn(t: Timer, es: seq<Event>, c: Timer, more: seq<Event>, d: Timer)
    requires Leads(t, es, c) && Leads(c, more, d)
    ensures Leads(t, es + more, d) && Shedules(es + more) == Shedules(es) + Shedules(more)
    decreases |es|
  {
    if es == [] {
      assert es + more == more;
    } else {
      TailOfConcat(es, more);
      LeadsOn(Apply(t, es[0]), es[1..], c, more, d);
    }
  }

  lemma FirstExpires() returns (d: Timer, es: seq<Event>)
    ensures Leads(Created, es, d) && Shedules(es) == 1 && CancelCall !in es
    ensures d.strand == [Done1] && d.armed == [] && !d.cancelled && d.handle == Set(true) && d.late == 0
  {
    var t1 := Apply(Created, SheduleCall(true));
    assert t1.strand == [Start1] + [];
    StartsAndExpires(t1, []);
    var t2 := Apply(t1, TaskRuns(false, false));
    d := Apply(t2, WaitExpires(0, Ok));
    assert d == t1.(strand := [] + [Done1]);
    EventThen(t2, WaitExpires(0, Ok), [], d);
    EventThen(t1, TaskRuns(false, false), [WaitExpires(0, Ok)] + [], d);
    es := [TaskRuns(false, false)] + ([WaitExpires(0, Ok)] + []);
    EventThen(Created, SheduleCall(true), es, d);
    es := [SheduleCall(true)] + es;
  }

  lemma CancelsItself() returns (d: Timer, es: seq<Event>)
    ensures Leads(Created, es, d) && Shedules(es) == 1 && TaskRuns(true, true) in es && CancelCall !in es
    ensures d.strand == [CancelTask, Start1] && d.armed == [] && !d.cancelled && d.late == 0
  {
    var t, first := FirstExpires();
    var e := TaskRuns(true, true);
    d := Apply(t, e);
    EventThen(t, e, [], d);
    LeadsOn(Created, first, t, [e] + [], d);
    es := first + ([e] + []);
    assert es[|first|] == e;
  }

  lemma CalledOnceMore(t: Timer) returns (d: Timer, es: seq<Event>)
    requires t.strand == [CancelTask, Start1] && t.armed == [] && t.late == 0
    ensures Leads(t, es, d) && Shedules(es) == 0 && CancelCall !in es && d.late == 1
  {
    var e := TaskRuns(false, false);
    var t1 := Apply(t, e);
    assert t1.strand == [Start1] + [];
    StartsAndExpires(t1, []);
    var t2 := Apply(t1, e);
    var t3 := Apply(t2, WaitExpires(0, Ok));
    assert t3.strand == Repeat(1, Done1);
    var rest := AllCalled(t3, 1);
    d := t3.(strand := [], invoked := t3.invoked + 1, late := t3.late + 1);
    EventThen(t2, WaitExpires(0, Ok), rest, d);
    EventThen(t1, e, [WaitExpires(0, Ok)] + rest, d);
    EventThen(t, e, [e] + ([WaitExpires(0, Ok)] + rest), d);
    es := [e] + ([e] + ([WaitExpires(0, Ok)] + rest));
  }

  // ----- the chain dies

  function TaskWeight(task: Task): nat {
    match task
    case StartTask(copy) => if copy.Set? then 7 else 3
    case CancelTask => 1
    case Completion(copy, error) => if copy.Set? && !error.Aborted? then 5 else 1
  }

  function StrandWeight(ts: seq<Task>): nat {
    if ts == [] then 0 else TaskWeight(ts[0]) + StrandWeight(ts[1..])
  }

  function ArmedWeight(armed: seq<Handle>): nat {
    if armed == [] then 0 else (if armed[0].Set? then 6 else 2) + ArmedWeight(armed[1..])
  }

  function Weight(t: Timer): nat {
    StrandWeight(t.strand) + ArmedWeight(t.armed)
  }

  lemma {:induction false} StrandWeightConcat(a: seq<Task>, b: seq<Task>)
    ensures StrandWeight(a + b) == StrandWeight(a) + StrandWeight(b)
  {
    if a == [] {
      assert a + b == b;
    } else {
      assert (a + b)[1..] == a[1..] + b;
      StrandWeightConcat(a[1..], b);
    }
  }

  lemma {:induction false} StrandWeightPosted(ts: seq<Task>, task: Task)
    ensures StrandWeight(ts + [task]) == StrandWeight(ts) + TaskWeight(task)
  {
    StrandWeightConcat(ts, [task]);
    assert [task][1..] == [];
  }

  lemma AbortArmedWeighs(t: Timer)
    requires |t.armed| <= 1
    ensures Weight(AbortArmed(t)) <= Weight(t)
  {
    if t.armed != [] {
      var aborted := seq(|t.armed|, i requires 0 <= i < |t.armed| => Completion(t.armed[i], Aborted));
      assert aborted == [Completion(t.armed[0], Aborted)];
      StrandWeightPosted(t.strand, aborted[0]);
    } else {
      assert AbortArmed(t).strand == t.strand;
    }
  }

  /** Once a cancel task has run, every task that runs and every wait that expires brings the
      timer closer to having nothing left: the chain has at most Weight(t) events to go
      unless cancel() is called again. */
  lemma CancelledChainDies(t: Timer, e: Event)
    requires Chained(t) && t.cancelled && Enabled(t, e) && (e.TaskRuns? || e.WaitExpires?)
    ensures Weight(Apply(t, e)) < Weight(t)
  {
    match e {
      case TaskRuns(cancels, again) => CancelledTaskDrains(t, cancels, again);
      case WaitExpires(i, error) =>
        assert t.armed == [t.armed[0]] && t.armed[..i] + t.armed[i + 1..] == [];
        StrandWeightPosted(t.strand, Completion(t.armed[i], error));
    }
  }

  lemma CancelledTaskDrains(t: Timer, cancels: bool, again: bool)
    requires Chained(t) && t.cancelled && t.strand != []
    ensures Weight(RunTask(t, cancels, again)) < Weight(t)
  {
    var c := t.(strand := t.strand[1..]);
    match t.strand[0] {
      case StartTask(copy) =>
        AbortArmedWeighs(c);
        assert AbortArmed(c).armed + [copy] == [copy] && [copy][1..] == [];
      case CancelTask => AbortArmedWeighs(c.(handle := Empty));
      case Completion(copy, error) =>
        StrandWeightPosted(c.strand, CancelTask);
        StrandWeightPosted(c.strand, StartTask(Empty));
        StrandWeightPosted(c.strand + [CancelTask], StartTask(Empty));
    }
  }

  function CancelCalls(es: seq<Event>): nat {
    if es == [] then 0 else (if es[0].CancelCall? then 1 else 0) + CancelCalls(es[1..])
  }

  lemma CancelledStays(t: Timer, e: Event)
    requires Enabled(t, e) && t.cancelled && !IsShedule(e)
    ensures Apply(t, e).cancelled
  {
  }

  lemma {:induction false} CancelledRunDrains(t: Timer, es: seq<Event>)
    requires Chained(t) && t.cancelled && Possible(t, es) && Shedules(es) == 0
    ensures |es| <= Weight(t) + 2 * CancelCalls(es)
    decreases |es|
  {
    if es != [] {
      if es[0].CancelCall? {
        StrandWeightPosted(t.strand, CancelTask);
      } else {
        CancelledChainDies(t, es[0]);
      }
      CancelledStays(t, es[0]);
      ApplyKeepsChained(t, es[0]);
      CancelledRunDrains(Apply(t, es[0]), es[1..]);
    }
  }

  /** The chains die: after any run in which a cancel task has run since the last shedule(), the
      timer has only a bounded number of events left before the next; each further call of
      cancel() adds itself and its task. */
  lemma {:induction false} CancelledTimerStops(es: seq<Event>, more: seq<Event>)
    requires Possible(Created, es) && After(Created, es).cancelled
    requires Possible(After(Created, es), more) && Shedules(more) == 0
    ensures |more| <= Weight(After(Created, es)) + 2 * CancelCalls(more)
  {
    RunKeepsChained(Created, es);
    CancelledRunDrains(After(Created, es), more);
  }

  /** What one cancel task leaves: the wait under way is aborted, so the calls that still come are at
      most the live copies queued behind it, in start tasks and in completions that were not
      aborted. */
  lemma {:induction false} CancelLeavesQueuedCopies(es: seq<Event>, more: seq<Event>)
    requires Possible(Created, es)
    requires var t := After(Created, es); t.strand != [] && t.strand[0].CancelTask?
    requires var c := RunTask(After(Created, es), false, false); Possible(c, more) && Shedules(more) == 0
    ensures var t := After(Created, es);
      var c := RunTask(t, false, false);
      c.armed == [] && After(c, more).invoked <= t.invoked + Live(Tokens(t.strand[1..]))
  {
    var t := After(Created, es);
    var c := t.(strand := t.strand[1..]);
    RunKeepsChained(Created, es);
    RunTaskKeepsChained(t, false, false);
    AbortKeeps(c.(handle := Empty, cancelled := true));
    SpentRun(RunTask(t, false, false), more, t.invoked + Live(Tokens(t.strand[1..])));
  }

  /** The member is empty, and the calls so far and the live copies about are at most k. */
  predicate Spent(t: Timer, k: nat) {
    t.handle == Empty && t.invoked + LiveCopies(t) <= k
  }

  lemma SpentInvoke(t: Timer, copy: Handle, cancels: bool, again: bool, k: nat)
    requires t.handle == Empty && t.invoked + LiveCopies(t) + (if copy.Set? then 1 else 0) <= k
    ensures Spent(Invoke(t, copy, cancels, again), k)
  {
    if copy.Set? && copy.calls {
      var called := t.(invoked := t.invoked + 1, late := if t.cancelled then t.late + 1 else t.late);
      var after := if cancels then Cancel(called) else called;
      CancelAdds(called);
      StartAdds(after, Empty);
    }
  }

  lemma SpentTask(t: Timer, cancels: bool, again: bool, k: nat)
    requires Spent(t, k) && t.strand != []
    ensures Spent(RunTask(t, cancels, again), k)
  {
    var c := t.(strand := t.strand[1..]);
    TokenTaken(t);
    match t.strand[0] {
      case StartTask(copy) =>
        AbortKeeps(c);
        LiveOne(copy);
        assert AbortArmed(c).armed + [copy] == [copy];
      case CancelTask => AbortKeeps(c.(handle := Empty, cancelled := true));
      case Completion(copy, error) =>
        if !error.Aborted? {
          SpentInvoke(c, copy, cancels, again, k);
        }
    }
  }

  lemma SpentEvent(t: Timer, e: Event, k: nat)
    requires Chained(t) && Spent(t, k) && Enabled(t, e) && !IsShedule(e)
    ensures Spent(Apply(t, e), k)
  {
    match e {
      case CancelCall => CancelAdds(t);
      case TaskRuns(cancels, again) => SpentTask(t, cancels, again, k);
      case WaitExpires(i, error) =>
        var copy := t.armed[i];
        assert t.armed == [copy] && t.armed[..i] + t.armed[i + 1..] == [];
        TokensPosted(t.strand, Completion(copy, error));
        LiveConcat(Tokens(t.strand), [copy]);
        LiveOne(copy);
    }
  }

  lemma {:induction false} SpentRun(t: Timer, es: seq<Event>, k: nat)
    requires Chained(t) && Spent(t, k) && Possible(t, es) && Shedules(es) == 0
    ensures After(t, es).invoked <= k
    decreases |es|
  {
    if es != [] {
      SpentEvent(t, es[0], k);
      ApplyKeepsChained(t, es[0]);
      SpentRun(Apply(t, es[0]), es[1..], k);
    }
  }

  // ----- it is periodic

  /** One live chain at one of its three stages: to be started, waiting, expired. */
  predicate Ticking(t: Timer) {
    && t.handle == Set(true)
    && if t.strand == [] then t.armed == [Set(true)]
       else |t.strand| == 1 && t.armed == [] && IsToken(t.strand[0]) && t.strand[0].copy == Set(true)
  }

  /** Nothing but waits ending, well or not, and handlers that say to go on. */
  predicate GoesOn(e: Event) {
    e.WaitExpires? || e == TaskRuns(false, true)
  }

  predicate AllGoOn(es: seq<Event>) {
    forall e :: e in es ==> GoesOn(e)
  }

  predicate CallsUser(t: Timer, e: Event) {
    e.TaskRuns? && t.strand != [] && t.strand[0].Completion?
  }

  /** A wait that has ended calls the user and starts the next. */
  lemma TickingGoesOn(t: Timer, e: Event)
    requires Ticking(t) && Enabled(t, e) && GoesOn(e)
    ensures Ticking(Apply(t, e))
    ensures Apply(t, e).invoked == t.invoked + (if CallsUser(t, e) then 1 else 0)
  {
    match e {
      case WaitExpires(i, error) => assert t.armed[..i] + t.armed[i + 1..] == [];
      case TaskRuns(_, _) => assert t.strand == [t.strand[0]] && t.strand[1..] == [];
    }
  }

  lemma {:induction false} TickingRun(t: Timer, es: seq<Event>)
    requires Ticking(t) && Possible(t, es) && AllGoOn(es)
    ensures Ticking(After(t, es))
    decreases |es|
  {
    if es != [] {
      TickingGoesOn(t, es[0]);
      TickingRun(Apply(t, es[0]), es[1..]);
    }
  }

  lemma TickingHasOne(t: Timer)
    requires Ticking(t)
    ensures Copies(t) == 1 && LiveCopies(t) == 1
  {
    LiveOne(Set(true));
    if t.strand != [] {
      assert t.strand == [] + [t.strand[0]];
      TokensPosted([], t.strand[0]);
    }
  }

  /** Both overloads, with all the handlers they need. */
  predicate StartsTicking(e: Event) {
    e == SheduleCall(true) || e == SheduleVaryingCall(true, true)
  }

  /** The events of one period, from a wait that is about to be started or is under way. */
  lemma TicksOnce(t: Timer) returns (es: seq<Event>, d: Timer)
    requires Ticking(t)
    ensures Leads(t, es, d) && AllGoOn(es) && Ticking(d) && d.invoked == t.invoked + 1
  {
    var run := TaskRuns(false, true);
    if t.strand == [] {
      var c := Apply(t, WaitExpires(0, Ok));
      TickingGoesOn(t, WaitExpires(0, Ok));
      assert t.armed[..0] + t.armed[1..] == [];
      d := Apply(c, run);
      TickingGoesOn(c, run);
      EventThen(c, run, [], d);
      EventThen(t, WaitExpires(0, Ok), [run] + [], d);
      es := [WaitExpires(0, Ok)] + ([run] + []);
    } else if t.strand[0].Completion? {
      d := Apply(t, run);
      TickingGoesOn(t, run);
      EventThen(t, run, [], d);
      es := [run] + [];
    } else {
      var b := Apply(t, run);
      TickingGoesOn(t, run);
      assert b.strand == [] && b.armed == [Set(true)];
      var c := Apply(b, WaitExpires(0, Ok));
      TickingGoesOn(b, WaitExpires(0, Ok));
      assert b.armed[..0] + b.armed[1..] == [];
      d := Apply(c, run);
      TickingGoesOn(c, run);
      EventThen(c, run, [], d);
      EventThen(b, WaitExpires(0, Ok), [run] + [], d);
      EventThen(t, run, [WaitExpires(0, Ok)] + ([run] + []), d);
      es := [run] + ([WaitExpires(0, Ok)] + ([run] + []));
    }
  }

  lemma {:induction false} TicksOn(t: Timer, n: nat) returns (es: seq<Event>, d: Timer)
    requires Ticking(t)
    ensures Leads(t, es, d) && AllGoOn(es) && Ticking(d) && d.invoked == t.invoked + n
    decreases n
  {
    if n == 0 {
      es, d := [], t;
    } else {
      var first, c := TicksOnce(t);
      var rest;
      rest, d := TicksOn(c, n - 1);
      LeadsOn(t, first, c, rest, d);
      es := first + rest;
    }
  }

  /** The timer is periodic. After one shedule() with its handlers, in every run without a cancel in
      which the user's handler says to go on, exactly one copy is about, and it is live; and from
      wherever that has led the handler can be called any number of times more. */
  lemma TicksForEver(first: Event, es: seq<Event>, n: nat) returns (more: seq<Event>)
    requires StartsTicking(first) && Possible(Apply(Created, first), es) && AllGoOn(es)
    ensures var t := After(Apply(Created, first), es);
      && Copies(t) == 1 && LiveCopies(t) == 1 && t.handle == Set(true)
      && Possible(t, more) && AllGoOn(more) && After(t, more).invoked == t.invoked + n
  {
    var t0 := Apply(Created, first);
    assert t0.strand == [StartTask(Set(true))];
    TickingRun(t0, es);
    TickingHasOne(After(t0, es));
    var d;
    more, d := TicksOn(After(t0, es), n);
  }

  /** A handler that says to stop ends the chain: nothing is queued and nothing waits. */
  lemma StopsWhenTold(t: Timer)
    requires Ticking(t) && t.strand != [] && t.strand[0].Completion?
    ensures var d := Apply(t, TaskRuns(false, false));
      d.strand == [] && d.armed == [] && d.invoked == t.invoked + 1
  {
    assert t.strand == [t.strand[0]];
  }

  // ----- without handlers

  predicate NoCaller(t: Timer) {
    && t.handle != Set(true)
    && (forall c :: c in t.armed ==> c != Set(true))
    && (forall task :: task in t.strand && !task.CancelTask? ==> task.copy != Set(true))
  }

  lemma NoCallerPosts(t: Timer, task: Task)
    requires NoCaller(t) && (!task.CancelTask? ==> task.copy != Set(true))
    ensures NoCaller(Post(t, task))
  {
  }

  lemma NoCallerAborts(t: Timer)
    requires NoCaller(t)
    ensures NoCaller(AbortArmed(t))
  {
    var aborted := seq(|t.armed|, i requires 0 <= i < |t.armed| => Completion(t.armed[i], Aborted));
    forall task | task in aborted ensures task.Completion? && task.copy != Set(true) {
      var i :| 0 <= i < |aborted| && aborted[i] == task;
      assert t.armed[i] in t.armed;
    }
  }

  lemma NoCallerRuns(t: Timer, cancels: bool, again: bool)
    requires NoCaller(t) && t.strand != []
    ensures NoCaller(RunTask(t, cancels, again)) && RunTask(t, cancels, again).invoked == t.invoked
  {
    var c := t.(strand := t.strand[1..]);
    assert t.strand[0] in t.strand;
    assert NoCaller(c);
    match t.strand[0] {
      case StartTask(copy) => NoCallerAborts(c);
      case CancelTask => NoCallerAborts(c.(handle := Empty, cancelled := true));
      case Completion(_, _) =>
    }
  }

  lemma NoCallerStays(t: Timer, e: Event)
    requires NoCaller(t) && Enabled(t, e) && !StartsTicking(e)
    ensures NoCaller(Apply(t, e)) && Apply(t, e).invoked == t.invoked
  {
    match e {
      case TaskRuns(cancels, again) => NoCallerRuns(t, cancels, again);
      case WaitExpires(i, error) =>
        assert t.armed[i] in t.armed;
        var rest := t.armed[..i] + t.armed[i + 1..];
        assert forall c :: c in rest ==> c in t.armed;
        NoCallerPosts(t.(armed := rest), Completion(t.armed[i], error));
      case _ =>
    }
  }

  /** A timer that is never given all its handlers never calls anybody. */
  lemma {:induction false} WithoutHandlersNoCalls(t: Timer, es: seq<Event>)
    requires NoCaller(t) && Possible(t, es) && forall e :: e in es ==> !StartsTicking(e)
    ensures After(t, es).invoked == t.invoked
    decreases |es|
  {
    if es != [] {
      NoCallerStays(t, es[0]);
      WithoutHandlersNoCalls(Apply(t, es[0]), es[1..]);
    }
  }

  predicate OnlyCancels(ts: seq<Task>) {
    forall task :: task in ts ==> task.CancelTask?
  }

  lemma {:induction false} NothingWaits(t: Timer, es: seq<Event>)
    requires OnlyCancels(t.strand) && t.armed == [] && Possible(t, es) && Shedules(es) == 0
    ensures OnlyCancels(After(t, es).strand) && After(t, es).armed == []
    decreases |es|
  {
    if es != [] {
      if es[0].TaskRuns? {
        assert t.strand[0] in t.strand;
      }
      NothingWaits(Apply(t, es[0]), es[1..]);
    }
  }

  /** Without a period handler the second overload starts no wait at all; the first one does, also
      without a handler to call. */
  lemma {:induction false} OnlyPeriodsStart(hasHandler: bool, es: seq<Event>)
    requires Possible(Apply(Created, SheduleVaryingCall(false, hasHandler)), es) && Shedules(es) == 0
    ensures After(Apply(Created, SheduleVaryingCall(false, hasHandler)), es).armed == []
    ensures Apply(Apply(Created, SheduleCall(false)), TaskRuns(false, false)).armed == [Set(false)]
    ensures Apply(Apply(Created, SheduleVaryingCall(true, false)), TaskRuns(false, false)).armed == [Set(false)]
  {
    NothingWaits(Apply(Created, SheduleVaryingCall(false, hasHandler)), es);
    assert Apply(Created, SheduleCall(false)).strand == [StartTask(Set(false))];
    assert Apply(Created, SheduleVaryingCall(true, false)).strand == [StartTask(Set(false))];
  }

  // ----- the class

  class TimerObject {
    var timerHandle: Handle
    var strand: seq<Task>
    var armed: seq<Handle>
    ghost var history: Timer

    ghost function State(): Timer
      reads this
    {
      history.(handle := timerHandle, strand := strand, armed := armed)
    }

    constructor ()
      ensures State() == Created
    {
      timerHandle, strand, armed, history := Empty, [], [], Created;
    }

    method PostStart(copy: Handle)
      modifies this`strand
      ensures State() == Start(old(State()), copy)
    {
      strand := strand + [StartTask(copy)];
    }

    method SheduleFixed(hasHandler: bool)
      modifies this
      ensures State() == Shedule(old(State()), hasHandler)
    {
      timerHandle := Set(hasHandler);
      history := history.(sheduled := history.sheduled + 1, cancelled := false, late := 0);
      PostStart(timerHandle);
    }

    method ShedulePeriods(hasPeriod: bool, hasHandler: bool)
      modifies this
      ensures State() == SheduleVarying(old(State()), hasPeriod, hasHandler)
    {
      timerHandle := Set(hasPeriod && hasHandler);
      history := history.(sheduled := history.sheduled + 1, cancelled := false, late := 0);
      if hasPeriod {
        PostStart(timerHandle);
      }
    }

    method PostCancel()
      modifies this`strand
      ensures State() == Cancel(old(State()))
    {
      strand := strand + [CancelTask];
    }

    method AbortWaits()
      modifies this`strand, this`armed
      ensures State() == AbortArmed(old(State()))
    {
      var waits := armed;
      var aborted := seq(|waits|, i requires 0 <= i < |waits| => Completion(waits[i], Aborted));
      assert strand + aborted == AbortArmed(State()).strand;
      strand, armed := strand + aborted, [];
    }

    /** The lambda that shedule() stored, called through a copy that is not empty. */
    method CallHandle(copy: Handle, cancels: bool, again: bool)
      requires copy.Set?
      modifies this
      ensures State() == Invoke(old(State()), copy, cancels, again)
    {
      if copy.calls {
        history := history.(invoked := history.invoked + 1,
                            late := if history.cancelled then history.late + 1 else history.late);
        if cancels {
          PostCancel();
        }
        if again {
          PostStart(timerHandle);
        }
      }
    }

    method RunFirst(cancels: bool, again: bool)
      requires strand != []
      modifies this
      ensures State() == RunTask(old(State()), cancels, again)
    {
      var task := strand[0];
      strand := strand[1..];
      match task {
        case StartTask(copy) =>
          AbortWaits();
          armed := armed + [copy];
        case CancelTask =>
          timerHandle := Empty;
          history := history.(cancelled := true);
          AbortWaits();
        case Completion(copy, error) =>
          if error != Aborted && copy.Set? {
            CallHandle(copy, cancels, again);
          }
      }
    }
  }
}
