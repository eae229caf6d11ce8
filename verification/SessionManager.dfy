/** SessionManager: join, leave and forEach as tasks on one strand over the vector sessions_. */
module SessionManager {
  import opened Sequences

  /** The identity of a shared session. */
  type Id = nat

  datatype Task = Join(id: Id) | Leave(id: Id) | ForEach

  function Without(sessions: seq<Id>, id: Id): seq<Id> {
    if sessions == [] then []
    else (if sessions[0] == id then [] else [sessions[0]]) + Without(sessions[1..], id)
  }

  function RunOne(sessions: seq<Id>, t: Task): seq<Id> {
    match t
    case Join(id) => sessions + [id]
    case Leave(id) => Without(sessions, id)
    case ForEach => sessions
  }

  function Run(sessions: seq<Id>, tasks: seq<Task>): seq<Id>
    decreases |tasks|
  {
    if tasks == [] then sessions else Run(RunOne(sessions, tasks[0]), tasks[1..])
  }

  /** leave treats each part of the vector by itself, so what stays keeps its order. */
  lemma {:induction false} WithoutConcat(a: seq<Id>, b: seq<Id>, id: Id)
    ensures Without(a + b, id) == Without(a, id) + Without(b, id)
  {
    if a == [] {
      assert a + b == b;
    } else {
      TailOfConcat(a, b);
      WithoutConcat(a[1..], b, id);
      Assoc(if a[0] == id then [] else [a[0]], Without(a[1..], id), Without(b, id));
    }
  }

  /** leave removes the session however often it joined, and no other: each of the others is
      there as often as before. WithoutConcat says that they keep their order. */
  lemma {:induction false} WithoutMembers(sessions: seq<Id>, id: Id, other: Id)
    ensures other in Without(sessions, id) <==> other in sessions && other != id
    ensures multiset(Without(sessions, id)) == multiset(sessions)[id := 0]
  {
    if sessions != [] {
      WithoutMembers(sessions[1..], id, other);
      assert sessions == [sessions[0]] + sessions[1..];
    }
  }

  predicate About(t: Task, id: Id) {
    !t.ForEach? && t.id == id
  }

  /** The tasks of a strand that concern one session. */
  function OnlyAbout(tasks: seq<Task>, id: Id): seq<Task> {
    if tasks == [] then []
    else (if About(tasks[0], id) then [tasks[0]] else []) + OnlyAbout(tasks[1..], id)
  }

  lemma OneTaskDecides(sessions: seq<Id>, t: Task, id: Id)
    ensures id in RunOne(sessions, t) <==> if About(t, id) then t.Join? else id in sessions
  {
    if t.Leave? {
      WithoutMembers(sessions, t.id, id);
    }
  }

  lemma LastOf(first: seq<Task>, later: seq<Task>)
    requires |first| <= 1
    ensures var all := first + later;
      if later != [] then all != [] && all[|all| - 1] == later[|later| - 1] else all == first
  {
  }

  /** Whatever other sessions do in between, a session is registered in the end exactly if
      the last task about it was a join, or it was registered and there was none. */
  lemma {:induction false} LastTaskDecides(sessions: seq<Id>, tasks: seq<Task>, id: Id)
    ensures var mine := OnlyAbout(tasks, id);
      id in Run(sessions, tasks) <==>
        if mine == [] then id in sessions else mine[|mine| - 1].Join?
    decreases |tasks|
  {
    if tasks != [] {
      var next, later := RunOne(sessions, tasks[0]), OnlyAbout(tasks[1..], id);
      LastTaskDecides(next, tasks[1..], id);
      OneTaskDecides(sessions, tasks[0], id);
      LastOf(if About(tasks[0], id) then [tasks[0]] else [], later);
    }
  }

  predicate LeftIn(tasks: seq<Task>, id: Id) {
    exists k :: 0 <= k < |tasks| && tasks[k] == Leave(id)
  }

  /** The sessions that no task of the strand removes, in their order. */
  function Stayers(sessions: seq<Id>, tasks: seq<Task>): seq<Id> {
    if sessions == [] then []
    else (if LeftIn(tasks, sessions[0]) then [] else [sessions[0]]) + Stayers(sessions[1..], tasks)
  }

  /** The sessions that join and are not removed by a later task, in the order of their joins. */
  function Comers(tasks: seq<Task>): seq<Id> {
    if tasks == [] then []
    else (if tasks[0].Join? && !LeftIn(tasks[1..], tasks[0].id) then [tasks[0].id] else []) + Comers(tasks[1..])
  }

  lemma {:induction false} StayersConcat(a: seq<Id>, b: seq<Id>, tasks: seq<Task>)
    ensures Stayers(a + b, tasks) == Stayers(a, tasks) + Stayers(b, tasks)
  {
    if a == [] {
      assert a + b == b;
    } else {
      TailOfConcat(a, b);
      StayersConcat(a[1..], b, tasks);
      Assoc(if LeftIn(tasks, a[0]) then [] else [a[0]], Stayers(a[1..], tasks), Stayers(b, tasks));
    }
  }

  lemma LeftInRest(tasks: seq<Task>, id: Id)
    requires tasks != []
    ensures LeftIn(tasks, id) <==> tasks[0] == Leave(id) || LeftIn(tasks[1..], id)
  {
    if LeftIn(tasks[1..], id) {
      var k :| 0 <= k < |tasks[1..]| && tasks[1..][k] == Leave(id);
      assert tasks[k + 1] == Leave(id);
    }
    if LeftIn(tasks, id) && tasks[0] != Leave(id) {
      var k :| 0 <= k < |tasks| && tasks[k] == Leave(id);
      assert tasks[1..][k - 1] == Leave(id);
    }
  }

  lemma {:induction false} StayersFirst(sessions: seq<Id>, tasks: seq<Task>)
    requires tasks != []
    ensures Stayers(sessions, tasks) ==
      Stayers(if tasks[0].Leave? then Without(sessions, tasks[0].id) else sessions, tasks[1..])
  {
    if sessions != [] {
      LeftInRest(tasks, sessions[0]);
      StayersFirst(sessions[1..], tasks);
      if tasks[0].Leave? {
        StayersConcat(if sessions[0] == tasks[0].id then [] else [sessions[0]],
                      Without(sessions[1..], tasks[0].id), tasks[1..]);
        assert [sessions[0]][1..] == [];
      }
    }
  }

  lemma {:induction false} NobodyLeaves(sessions: seq<Id>)
    ensures Stayers(sessions, []) == sessions
  {
    if sessions != [] {
      NobodyLeaves(sessions[1..]);
      HeadAndTail(sessions);
    }
  }

  lemma {:induction false} ComerJoins(sessions: seq<Id>, id: Id, rest: seq<Task>)
    ensures Stayers(sessions + [id], rest) + Comers(rest) ==
      Stayers(sessions, rest) + ((if LeftIn(rest, id) then [] else [id]) + Comers(rest))
  {
    var came := if LeftIn(rest, id) then [] else [id];
    StayersConcat(sessions, [id], rest);
    assert [id][1..] == [] && Stayers([id], rest) == came;
    Assoc(Stayers(sessions, rest), came, Comers(rest));
  }

  /** The vector in full: after any tasks it holds the sessions that stayed, in their order, and
      behind them those that came, in the order of their joins. */
  lemma {:induction false} StayersThenComers(sessions: seq<Id>, tasks: seq<Task>)
    ensures Run(sessions, tasks) == Stayers(sessions, tasks) + Comers(tasks)
    decreases |tasks|
  {
    if tasks == [] {
      NobodyLeaves(sessions);
      assert sessions + [] == sessions;
    } else {
      var t, rest := tasks[0], tasks[1..];
      StayersThenComers(RunOne(sessions, t), rest);
      StayersFirst(sessions, tasks);
      if t.Join? {
        ComerJoins(sessions, t.id, rest);
      } else {
        assert [] + Comers(rest) == Comers(rest);
      }
    }
  }

  /** One round of remove_if: the element at i is looked at and, if it stays, moved to newEnd. */
  lemma {:induction false} FrontGrows(before: seq<Id>, now: seq<Id>, newEnd: nat, i: nat, id: Id)
    requires newEnd <= i < |before| == |now|
    requires now[..newEnd] == Without(before[..i], id) && now[i..] == before[i..]
    ensures now[i] == before[i]
    ensures now[i] == id ==> now[..newEnd] == Without(before[..i + 1], id) && now[i + 1..] == before[i + 1..]
    ensures now[i] != id ==> var next := now[newEnd := now[i]];
      next[..newEnd + 1] == Without(before[..i + 1], id) && next[i + 1..] == before[i + 1..]
  {
    var x := before[i];
    assert now[i] == now[i..][0] == before[i..][0] == x;
    assert now[i + 1..] == now[i..][1..] == before[i..][1..] == before[i + 1..];
    assert before[..i + 1] == before[..i] + [x];
    WithoutConcat(before[..i], [x], id);
    assert Without([x], id) == if x == id then [] else [x];
    if x != id {
      var next := now[newEnd := x];
      assert next[..newEnd + 1] == now[..newEnd] + [x];
      assert next[i + 1..] == now[i + 1..];
    } else {
      assert now[..newEnd] + [] == now[..newEnd];
    }
  }

  class Manager {
    var sessions: seq<Id>
    var strand: seq<Task>

    constructor ()
      ensures sessions == [] && strand == []
    {
      sessions, strand := [], [];
    }

    method PostJoin(id: Id)
      modifies this`strand
      ensures strand == old(strand) + [Join(id)]
    {
      strand := strand + [Join(id)];
    }

    method PostLeave(id: Id)
      modifies this`strand
      ensures strand == old(strand) + [Leave(id)]
    {
      strand := strand + [Leave(id)];
    }

    method PostForEach()
      modifies this`strand
      ensures strand == old(strand) + [ForEach]
    {
      strand := strand + [ForEach];
    }

    /** Runs the first task. A forEach task visits the sessions registered when it runs. */
    method RunTask() returns (visited: seq<Id>)
      requires strand != []
      modifies this
      ensures strand == old(strand)[1..]
      ensures sessions == RunOne(old(sessions), old(strand)[0])
      ensures visited == if old(strand)[0].ForEach? then old(sessions) else []
    {
      var task := strand[0];
      strand := strand[1..];
      visited := [];
      match task {
        case Join(id) => sessions := sessions + [id];
        case Leave(id) => Remove(id);
        case ForEach => visited := sessions;
      }
    }

    /** remove_if moves the sessions that stay to the front, then erase cuts the rest off. */
    method Remove(id: Id)
      modifies this`sessions
      ensures sessions == Without(old(sessions), id)
    {
      ghost var before := sessions;
      var newEnd := 0;
      var n := |sessions|;
      for i := 0 to n
        invariant 0 <= newEnd <= i && |sessions| == n == |before|
        invariant sessions[..newEnd] == Without(before[..i], id)
        invariant sessions[i..] == before[i..]
      {
        FrontGrows(before, sessions, newEnd, i, id);
        if sessions[i] != id {
          sessions := sessions[newEnd := sessions[i]];
          newEnd := newEnd + 1;
        }
      }
      assert before[..n] == before;
      sessions := sessions[..newEnd];
    }
  }
}
