/** The scheduler's queues as the kernel updates them in place: the loops of the clock interrupt, of the
    priority round-robin pick, of wakeup and of running or ending many envs, each against Scheduling's functions. */
module ProcessQueues {
  import opened Common
  import opened Scheduling

  /** LIST_NEXT: the element after `e`, towards the tail. */
  function NextIn(q: seq<Env>, e: Env): Option<Env>
    requires e in q
  {
    var i := IndexOf(q, e);
    if i + 1 < |q| then Some(q[i + 1]) else None
  }

  function First(q: seq<Env>): Option<Env> {
    if q == [] then None else Some(q[0])
  }

  /** The part of `q` a traversal still has to visit is the tail end of the live queue. */
  ghost predicate EndsWith(live: seq<Env>, rest: seq<Env>) {
    |rest| <= |live| && live[|live| - |rest|..] == rest
  }

  lemma NextOfRest(live: seq<Env>, rest: seq<Env>)
    requires NoDup(live) && rest != [] && EndsWith(live, rest)
    ensures rest[0] in live && NextIn(live, rest[0]) == First(rest[1..]) && EndsWith(live, rest[1..])
    ensures EndsWith(Remove(live, rest[0]), rest[1..])
  {
  }

  /** What one look of the sweep does to the queue being traversed. */
  lemma ExamineQueue(s: Sched, e: Env, T: nat)
    requires Settled(s) && e in s.status && s.status[e] == Ready
    ensures e in s.prio && e in Q(s, Level(s.prio[e]))
    ensures var q, r := Q(s, Level(s.prio[e])), Q(Examine(s, e, T), Level(s.prio[e])); r == q || r == Remove(q, e)
  {
  }

  /** One turn of the traversal: the body leaves the rest of the queue in place. */
  lemma TraversalStep(s: Sched, i: nat, rest: seq<Env>, T: nat)
    requires Settled(s) && Level(i) in s.queues && rest != [] && EndsWith(s.queues[Level(i)], rest)
    ensures var e, s1 := rest[0], Examine(s, rest[0], T);
            && e in s.queues[Level(i)] && NextIn(s.queues[Level(i)], e) == First(rest[1..])
            && e in s.status && s.status[e] == Ready
            && Settled(s1) && Level(i) in s1.queues && EndsWith(s1.queues[Level(i)], rest[1..])
            && SweepQueue(s1, rest[1..], T) == SweepQueue(s, rest, T)
  {
    hide Placed, Remove, NoDup, IndexOf, Examine, NextIn, EndsWith, First;
    PlacedQueue(s, Level(i));
    NextOfRest(s.queues[Level(i)], rest);
    LevelIsReady(s, i);
    ExamineSettles(s, rest[0], T);
    ExamineQueue(s, rest[0], T);
    ExamineKeepsQueues(s, rest[0], T);
  }

  lemma ExamineKeepsQueues(s: Sched, e: Env, T: nat)
    requires Settled(s) && e in s.status && s.status[e] == Ready
    ensures s.queues.Keys <= Examine(s, e, T).queues.Keys
  {
  }

  /** One turn of ending every env of a ready queue. */
  lemma ExitStep(s: Sched, i: nat)
    requires Settled(s) && Q(s, Level(i)) != []
    ensures var q := Q(s, Level(i)); var e := q[0];
            && e in s.prio && ExitQ in s.queues && NextIn(q, e) == First(q[1..]) && Remove(q, e) == q[1..]
            && var s1 := Put(Take(s, Level(i), e), e, Exited);
            && Settled(s1) && Level(i) in s1.queues && s1.queues[Level(i)] == q[1..]
            && ExitEach(s1, Level(i), q[1..]) == ExitEach(s, Level(i), q)
  {
    hide Placed;
    var q := Q(s, Level(i));
    ExitExists(s);
    TakeLoosens(s, Level(i), q[0]);
    PutSettles(Take(s, Level(i), q[0]), q[0], Exited);
    RemoveFirst(q);
  }

  /** One turn of making every env of a queue ready. */
  lemma DrainStep(s: Sched, pl: Place, k: nat)
    requires Settled(s) && !pl.Level? && Q(s, pl) != [] && k > 0
    ensures var q := Q(s, pl); var e := Oldest(q);
            && Insertable(Dequeue(s, pl), e)
            && var s1 := InsertReady(Dequeue(s, pl), e);
            && Settled(s1) && pl in s1.queues && s1.queues[pl] == q[..|q| - 1]
            && Drain(s1, pl, k - 1) == Drain(s, pl, k)
  {
    hide Placed, Remove;
    DequeueLoosens(s, pl);
    PlacedEnv(s, Oldest(Q(s, pl)));
    InsertReadySettles(Dequeue(s, pl), Oldest(Q(s, pl)));
  }

  lemma LevelBelow(s: Sched, p: nat)
    requires Placed(s) && 0 < p < s.levels
    ensures Level(p - 1) in s.queues
  {
  }

  lemma LevelExists(s: Sched, i: nat)
    requires Placed(s) && i < s.levels
    ensures Level(i) in s.queues
  {
  }

  class ProcessQueues {
    const levels: nat
    var queues: map<Place, seq<Env>>
    var cur: Option<Env>
    var status: map<Env, Status>
    var prio: map<Env, nat>
    var nTicks: map<Env, nat>

    function View(): Sched
      reads this
    {
      Sched(levels, queues, cur, status, prio, nTicks)
    }

    constructor (levels: nat)
      ensures Settled(View()) && View() == Sched(levels, queues, None, map[], map[], map[])
      ensures queues == (map i: nat | i < levels :: Level(i) := [])[NewQ := []][ExitQ := []]
    {
      this.levels := levels;
      queues := (map i: nat | i < levels :: Level(i) := [])[NewQ := []][ExitQ := []];
      cur, status, prio, nTicks := None, map[], map[], map[];
    }

    /** sched_insert_ready. */
    method InsertReadyEnv(e: Env)
      requires Insertable(View(), e)
      modifies this
      ensures View() == InsertReady(old(View()), e)
    {
      nTicks := nTicks[e := 0];
      status := status[e := Ready];
      var pl := Level(prio[e]);
      queues := queues[pl := [e] + queues[pl]];
    }

    /** dequeue. */
    method TakeOldest(pl: Place) returns (e: Option<Env>)
      modifies this
      ensures Q(old(View()), pl) == [] ==> e == None && View() == old(View())
      ensures Q(old(View()), pl) != [] ==> e == Some(Oldest(Q(old(View()), pl))) && View() == Dequeue(old(View()), pl)
    {
      e := None;
      if pl in queues && queues[pl] != [] {
        var q := queues[pl];
        e := Some(q[|q| - 1]);
        queues := queues[pl := q[..|q| - 1]];
        status := status[q[|q| - 1] := Unknown];
      }
    }

    /** The loop of fos_scheduler_PRIRR, with the switch to the env it finds: levels from the lowest number up. */
    method PickNext() returns (next: Option<Env>)
      requires cur.None?
      modifies this
      ensures next == cur && View() == Dispatch(old(View()))
    {
      hide Settled;
      ghost var s := View();
      var i := 0;
      next := None;
      while i < levels && next.None?
        invariant i <= levels && cur == None
        invariant next.None? ==> View() == s && LowestLevel(s, 0) == LowestLevel(s, i)
        invariant next.Some? ==> LowestLevel(s, 0) == i < levels && Q(s, Level(i)) != []
                                 && next == Some(Oldest(Q(s, Level(i)))) && View() == Dequeue(s, Level(i))
        decreases levels - i, next.None?
      {
        if Level(i) !in queues || |queues[Level(i)]| == 0 {
          i := i + 1;
        } else {
          next := TakeOldest(Level(i));
        }
      }
      if next.Some? {
        cur, status := next, status[next.value := Running];
      }
    }

    /** fos_scheduler_PRIRR: the env on the CPU, if it is still there, first goes to the ready queue of its priority. */
    method Reschedule() returns (next: Option<Env>)
      requires Settled(View())
      modifies this
      ensures Settled(View()) && next == cur
      ensures old(cur).None? ==> View() == Dispatch(old(View()))
      ensures old(cur).Some? ==> View() == Apply(old(View()), Yield, 0)
    {
      hide Placed, Dispatch;
      ghost var start := View();
      if cur.Some? {
        CurrentPlaced(start);
        LeaveSettles(start, Ready);
        var e := cur.value;
        queues := queues[Level(prio[e]) := [e] + queues[Level(prio[e])]];
        cur, status := None, status[e := Ready];
        assert View() == Put(OffCpu(start), start.cur.value, Ready);
      } else {
        DispatchSettles(start);
      }
      next := PickNext();
    }

    /** wakeup_all and sched_run_all: as many times as the queue is long at the start, the oldest env becomes ready. */
    method DrainQueue(pl: Place)
      requires Settled(View()) && !pl.Level? && pl in queues
      modifies this
      ensures View() == Drain(old(View()), pl, |Q(old(View()), pl)|) && Settled(View())
      ensures Q(View(), pl) == []
    {
      hide Settled, Drain, Dequeue, InsertReady;
      ghost var start := View();
      var size := |queues[pl]|;
      var i := 0;
      while i < size
        invariant i <= size && Settled(View()) && pl in queues && |queues[pl]| == size - i
        invariant Drain(View(), pl, size - i) == Drain(start, pl, size)
      {
        DrainStep(View(), pl, size - i);
        var e := TakeOldest(pl);
        InsertReadyEnv(e.value);
        i := i + 1;
      }
      DrainNothing(View(), pl);
    }

    /** wakeup_one. */
    method WakeupOneEnv(c: Chan)
      requires Settled(View()) && Channel(c) in queues
      modifies this
      ensures View() == Drain(old(View()), Channel(c), 1) && Settled(View())
    {
      hide Placed;
      if |queues[Channel(c)]| > 0 {
        ghost var s := View();
        DrainSettles(s, Channel(c), 1);
        DequeueLoosens(s, Channel(c));
        PlacedEnv(s, Oldest(Q(s, Channel(c))));
        var e := TakeOldest(Channel(c));
        InsertReadyEnv(e.value);
        assert Drain(View(), Channel(c), 0) == View();
      }
    }

    /** The body of the clock interrupt's traversal. */
    method ExamineEnv(e: Env, T: nat)
      requires Settled(View()) && e in status && status[e] == Ready
      modifies this
      ensures View() == Examine(old(View()), e, T) && Settled(View()) && status == old(status)
    {
      hide Placed, Remove;
      ghost var s := View();
      PlacedEnv(s, e);
      ExamineSettles(s, e, T);
      if prio[e] == 0 {
        return;
      }
      if nTicks[e] > T {
        var p := prio[e];
        LevelBelow(s, p);
        queues := queues[Level(p) := Remove(queues[Level(p)], e)];
        prio := prio[e := p - 1];
        InsertReadyEnv(e);
        nTicks := nTicks[e := 0];
        assert status == old(status);
      } else {
        nTicks := nTicks[e := (nTicks[e] + 1) % 0x1_0000_0000];
      }
    }

    /** LIST_FOREACH over one ready queue: the successor is read before the body, so removing the current env is safe. */
    method SweepLevel(i: nat, T: nat)
      requires Settled(View()) && Level(i) in queues
      modifies this
      ensures View() == SweepQueue(old(View()), Q(old(View()), Level(i)), T) && Settled(View())
    {
      hide Settled, Remove, IndexOf, Examine, EndsWith, NextIn, SweepQueue;
      ghost var start := View();
      ghost var rest := queues[Level(i)];
      var env := First(queues[Level(i)]);
      WholeQueue(rest);
      SweepNothing(start, T);
      while env.Some?
        invariant Settled(View()) && Level(i) in queues && EndsWith(queues[Level(i)], rest)
        invariant env == First(rest) && SweepQueue(View(), rest, T) == SweepQueue(start, Q(start, Level(i)), T)
        decreases |rest|
      {
        TraversalStep(View(), i, rest, T);
        var next := NextIn(queues[Level(i)], env.value);
        ExamineEnv(env.value, T);
        env := next;
        rest := rest[1..];
      }
      SweepNothing(View(), T);
    }

    /** clock_interrupt_handler with an env on the CPU: the sweep, then yield. */
    method ClockInterrupt(T: nat) returns (next: Option<Env>)
      requires Settled(View()) && cur.Some?
      modifies this
      ensures View() == Apply(old(View()), Tick, T) && Settled(View()) && next == cur
    {
      hide Placed, SweepQueue, Leave, Dispatch;
      ghost var start := View();
      SweepSettles(start, 0, T);
      var i := 0;
      while i < levels
        invariant i <= levels && Settled(View()) && Sweep(View(), i, T) == Sweep(start, 0, T)
      {
        LevelExists(View(), i);
        SweepLevel(i, T);
        i := i + 1;
      }
      next := Reschedule();
    }

    /** sched_exit_all_ready_envs at one level. */
    method ExitLevel(i: nat)
      requires Settled(View()) && Level(i) in queues
      modifies this
      ensures View() == ExitEach(old(View()), Level(i), Q(old(View()), Level(i))) && Settled(View())
      ensures Q(View(), Level(i)) == []
    {
      hide Settled, Remove, NextIn, ExitEach;
      ghost var start := View();
      var env := First(queues[Level(i)]);
      while env.Some?
        invariant Settled(View()) && Level(i) in queues && env == First(queues[Level(i)])
        invariant ExitEach(View(), Level(i), queues[Level(i)]) == ExitEach(start, Level(i), Q(start, Level(i)))
        decreases |queues[Level(i)]|
      {
        ghost var turn := View();
        ExitStep(View(), i);
        var e := env.value;
        var next := NextIn(queues[Level(i)], e);
        queues := queues[Level(i) := Remove(queues[Level(i)], e)];
        status := status[e := Exited];
        queues := queues[ExitQ := [e] + queues[ExitQ]];
        assert View() == Put(Take(turn, Level(i), e), e, Exited);
        env := next;
      }
      ExitNothing(View(), i);
    }

    /** sched_exit_all_ready_envs: no env is ready afterwards. */
    method ExitAllReadyEnvs()
      requires Settled(View())
      modifies this
      ensures View() == ExitLevels(old(View()), 0) && Settled(View())
    {
      hide Placed, ExitEach;
      ghost var start := View();
      var i := 0;
      while i < levels
        invariant i <= levels && Settled(View()) && ExitLevels(View(), i) == ExitLevels(start, 0)
      {
        LevelExists(View(), i);
        ExitLevel(i);
        i := i + 1;
      }
    }

    /** env_set_priority; a priority outside the levels panics. */
    method EnvSetPriority(e: Env, p: nat)
      requires Settled(View()) && e in status && p < levels
      modifies this
      ensures View() == Reprioritize(old(View()), e, p) && Settled(View())
    {
      hide Placed, Remove;
      ghost var s := View();
      ReprioritizeSettles(s, e, p);
      PlacedEnv(s, e);
      if status[e] == Ready {
        var pl := Level(prio[e]);
        LevelExists(s, p);
        queues := queues[pl := Remove(queues[pl], e)];
        prio := prio[e := p];
        InsertReadyEnv(e);
      } else {
        prio := prio[e := p];
      }
    }
  }

  lemma ExitExists(s: Sched)
    requires Placed(s)
    ensures ExitQ in s.queues
  {
  }

  lemma RemoveFirst(q: seq<Env>)
    requires q != []
    ensures q[0] in q && Remove(q, q[0]) == q[1..]
  {
  }

  lemma WholeQueue(q: seq<Env>)
    ensures EndsWith(q, q)
  {
  }

  lemma SweepNothing(s: Sched, T: nat)
    ensures SweepQueue(s, [], T) == s
  {
  }

  lemma DrainNothing(s: Sched, pl: Place)
    ensures Drain(s, pl, 0) == s
  {
  }

  lemma ExitNothing(s: Sched, i: nat)
    ensures ExitEach(s, Level(i), []) == s
  {
  }

  lemma {:induction false} ExitEachEmpties(s: Sched, i: nat)
    requires Settled(s)
    ensures var t := ExitEach(s, Level(i), Q(s, Level(i)));
            Q(t, Level(i)) == [] && forall k: nat | k != i :: Q(t, Level(k)) == Q(s, Level(k))
    decreases |Q(s, Level(i))|
  {
    hide Placed, Remove;
    if Q(s, Level(i)) != [] {
      var e := Q(s, Level(i))[0];
      ExitStep(s, i);
      ExitEachEmpties(Put(Take(s, Level(i), e), e, Exited), i);
    }
  }

  lemma {:induction false} ExitLevelsEmpties(s: Sched, i: nat)
    requires Settled(s) && i <= s.levels && forall k: nat | k < i :: Q(s, Level(k)) == []
    ensures forall k: nat | k < s.levels :: Q(ExitLevels(s, i), Level(k)) == []
    ensures ExitLevels(s, i).levels == s.levels
    decreases s.levels - i
  {
    hide Placed, ExitEach, Q;
    if i < s.levels {
      ExitEachEmpties(s, i);
      ExitEachSettles(s, Level(i), Q(s, Level(i)));
      ExitLevelsEmpties(ExitEach(s, Level(i), Q(s, Level(i))), i + 1);
    }
  }

  /** After ending all ready envs, none is ready. */
  lemma NoneReadyAfterExit(s: Sched, e: Env)
    requires Settled(s)
    ensures e in ExitLevels(s, 0).status ==> ExitLevels(s, 0).status[e] != Ready
  {
    hide Placed, ExitLevels;
    ExitLevelsSettles(s, 0);
    ExitLevelsEmpties(s, 0);
    var t := ExitLevels(s, 0);
    if e in t.status {
      PlacedEnv(t, e);
      var k := t.prio[e];
      assert Q(t, Level(k)) == [];
    }
  }
}
