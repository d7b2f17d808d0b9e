/** What every event of the scheduler does to the status, the priority and the tick count of every env, said without its
    queues (kern/cpu/sched.c:83-131 and 349-405, kern/cpu/sched_helpers.c:145-303 and 560-728, kern/conc/channel.c:25-87),
    and how far apart promotions are. */
module EventOutcomes {
  import opened Common
  import opened Scheduling
  import opened BoundedWaiting

  /** The status an event leaves an env with, if it is not picked to run. */
  ghost function Becomes(s: Sched, ev: Event, e: Env): Status
    requires e in s.status
  {
    var st := s.status[e];
    match ev
    case RunEnv(x) => if e == x then Ready else st
    case RunAll => if st == New then Ready else st
    case Tick => if st == Running then Ready else st
    case Yield => if st == Running then Ready else st
    case Sleep(c) => if st == Running then Blocked(c) else st
    case WakeupOne(c) => if Q(s, Channel(c)) != [] && e == Oldest(Q(s, Channel(c))) then Ready else st
    case WakeupAll(c) => if st == Blocked(c) then Ready else st
    case ExitCurrent => if st == Running then Exited else st
    case ExitReady(x) => if e == x then Exited else st
    case ExitAllReady => if st == Ready then Exited else st
    case _ => st
  }

  /** The clock interrupt finds that the env has waited more than `T` ticks. */
  ghost predicate Promoted(s: Sched, ev: Event, e: Env, T: nat)
    requires e in s.status && e in s.prio && e in s.nTicks
  {
    ev.Tick? && s.status[e] == Ready && s.prio[e] > 0 && s.nTicks[e] > T
  }

  ghost function PriorityAfter(s: Sched, ev: Event, e: Env, T: nat): int
    requires e in s.status && e in s.prio && e in s.nTicks
  {
    if Promoted(s, ev, e, T) then s.prio[e] - 1
    else if ev.SetPriority? && ev.env == e then ev.priority
    else s.prio[e]
  }

  /** Ticks count the waiting below the highest priority, and start again with every insertion into a ready queue other
      than the one on leaving the CPU. */
  ghost function TicksAfter(s: Sched, ev: Event, e: Env, T: nat): int
    requires e in s.status && e in s.prio && e in s.nTicks
  {
    if ev.Tick? then
      if Promoted(s, ev, e, T) then 0
      else if s.status[e] == Ready && s.prio[e] > 0 then (s.nTicks[e] + 1) % 0x1_0000_0000
      else s.nTicks[e]
    else if s.status[e] == Ready then
      if ev.SetPriority? && ev.env == e then 0 else s.nTicks[e]
    else if Becomes(s, ev, e) == Ready && s.status[e] != Running then 0
    else s.nTicks[e]
  }

  /** The events that end in a choice of the scheduler. */
  predicate Picks(ev: Event) {
    ev.Tick? || ev.Yield? || ev.Sleep? || ev.ExitCurrent? || ev.Schedule?
  }

  ghost predicate Known(s: Sched, e: Env) {
    e in s.status && e in s.prio && e in s.nTicks
  }

  ghost predicate EnvIs(s: Sched, e: Env, st: Status, p: int, n: int) {
    Known(s, e) && s.status[e] == st && s.prio[e] == p && s.nTicks[e] == n
  }

  /** The CPU goes to an env of the lowest priority number among those left ready, and stays idle only if there is none. */
  ghost predicate Picked(s: Sched, ev: Event, t: Sched, T: nat) {
    && (t.cur.None? ==> forall e | e in s.status :: Becomes(s, ev, e) != Ready)
    && (t.cur.Some? ==>
          && Known(s, t.cur.value) && Becomes(s, ev, t.cur.value) == Ready
          && forall e | Known(s, e) && Becomes(s, ev, e) == Ready ::
               PriorityAfter(s, ev, t.cur.value, T) <= PriorityAfter(s, ev, e, T))
  }

  // ---------------------------------------------------------------------------
  // Operations on one env
  // ---------------------------------------------------------------------------

  lemma AllKnown(s: Sched, e: Env)
    requires Placed(s) && e in s.status
    ensures Known(s, e)
  {
  }

  /** One turn of the draining loop readies the oldest env of the queue. */
  lemma DrainTurn(s: Sched, pl: Place, e: Env)
    requires Settled(s) && !pl.Level? && Q(s, pl) != [] && Known(s, e)
    ensures var q := Q(s, pl);
            var x := Oldest(q);
            && Insertable(s, x) && Insertable(Dequeue(s, pl), x)
            && var t := InsertReady(Dequeue(s, pl), x);
               && Settled(t) && Q(t, pl) == q[..|q| - 1] && x !in Q(t, pl)
               && if e == x then EnvIs(t, e, Ready, s.prio[e], 0)
                  else EnvIs(t, e, s.status[e], s.prio[e], s.nTicks[e])
  {
    hide Placed, NoDup;
    var x := Oldest(Q(s, pl));
    DequeueLoosens(s, pl);
    PlacedEnv(s, x);
    InsertReadySettles(Dequeue(s, pl), x);
    PlacedQueue(InsertReady(Dequeue(s, pl), x), pl);
  }

  /** Draining `k` envs readies the `k` oldest. */
  lemma {:induction false} DrainOutcome(s: Sched, pl: Place, k: nat, e: Env)
    requires Settled(s) && !pl.Level? && k <= |Q(s, pl)| && Known(s, e)
    ensures var t, q := Drain(s, pl, k), Q(s, pl);
            if e in q[|q| - k..] then EnvIs(t, e, Ready, s.prio[e], 0)
            else EnvIs(t, e, s.status[e], s.prio[e], s.nTicks[e])
    decreases k
  {
    hide Settled, InsertReady, Dequeue, Q;
    if k > 0 {
      var q, x := Q(s, pl), Oldest(Q(s, pl));
      DrainTurn(s, pl, e);
      var s2 := InsertReady(Dequeue(s, pl), x);
      DrainOutcome(s2, pl, k - 1, e);
      assert q[|q| - k..] == Q(s2, pl)[|q| - k..] + [x];
    }
  }

  lemma {:induction false} ExitEachOutcome(s: Sched, pl: Place, q: seq<Env>, e: Env)
    requires Settled(s) && NoDup(q) && (forall x | x in q :: x in Q(s, pl)) && pl != ExitQ && Known(s, e)
    ensures EnvIs(ExitEach(s, pl, q), e, if e in q then Exited else s.status[e], s.prio[e], s.nTicks[e])
    decreases |q|
  {
    hide Placed, Remove;
    if q != [] {
      var x := q[0];
      assert x in q;
      TakeLoosens(s, pl, x);
      NewQueue(s);
      PlacedQueue(s, pl);
      RemoveMembers(Q(s, pl), x);
      var s1 := Put(Take(s, pl, x), x, Exited);
      PutSettles(Take(s, pl, x), x, Exited);
      assert forall y | y in q[1..] :: y in q && y != x;
      ExitEachOutcome(s1, pl, q[1..], e);
    }
  }

  lemma {:induction false} ExitLevelsOutcome(s: Sched, i: nat, e: Env)
    requires Settled(s) && i <= s.levels && Known(s, e)
    ensures var st := if s.status[e] == Ready && s.prio[e] >= i then Exited else s.status[e];
            EnvIs(ExitLevels(s, i), e, st, s.prio[e], s.nTicks[e])
    decreases s.levels - i
  {
    hide Placed, ExitEach;
    PlacedEnv(s, e);
    if i < s.levels {
      var q := Q(s, Level(i));
      LevelQueue(s, i, e);
      ExitEachSettles(s, Level(i), q);
      ExitEachOutcome(s, Level(i), q, e);
      ExitLevelsOutcome(ExitEach(s, Level(i), q), i + 1, e);
    }
  }

  lemma LevelQueue(s: Sched, i: nat, e: Env)
    requires Placed(s) && i < s.levels && Known(s, e)
    ensures NoDup(Q(s, Level(i))) && (e in Q(s, Level(i)) <==> s.status[e] == Ready && s.prio[e] == i)
  {
    PlacedQueue(s, Level(i));
  }

  lemma DispatchOutcome(s: Sched, e: Env)
    requires Settled(s) && s.cur.None? && Known(s, e)
    ensures var t := Dispatch(s);
            EnvIs(t, e, if t.cur == Some(e) then Running else s.status[e], s.prio[e], s.nTicks[e])
  {
    hide Placed;
    var l := LowestLevel(s, 0);
    if l < s.levels {
      DequeueLoosens(s, Level(l));
    }
  }

  /** Leaving the CPU gives the env that had it its new status, and another env at most the CPU. */
  lemma LeaveOutcome(s: Sched, st: Status, e: Env)
    requires Settled(s) && s.cur.Some? && s.cur.value in s.prio && Known(s, e)
    requires PlaceOf(st, s.prio[s.cur.value]).Some? && PlaceOf(st, s.prio[s.cur.value]).value in s.queues
    ensures var t, was := Leave(s, st), if s.cur == Some(e) then st else s.status[e];
            && EnvIs(t, e, if t.cur == Some(e) then Running else was, s.prio[e], s.nTicks[e])
            && (t.cur == Some(e) ==> was == Ready)
            && (was == Ready ==> t.cur.Some? && Known(s, t.cur.value) && s.prio[t.cur.value] <= s.prio[e])
  {
    hide Placed, Dispatch;
    CurrentPlaced(s);
    OffCpuKeepsPlaced(s);
    var s1 := Put(OffCpu(s), s.cur.value, st);
    PutSettles(OffCpu(s), s.cur.value, st);
    DispatchOutcome(s1, e);
    DispatchChoice(s1);
    if s1.status[e] == Ready {
      AllKnown(s1, Dispatch(s1).cur.value);
    }
  }

  lemma SweepOutcome(s: Sched, e: Env, T: nat)
    requires Settled(s) && s.cur.Some? && Known(s, e)
    ensures EnvIs(Sweep(s, 0, T), e, s.status[e], PriorityAfter(s, Tick, e, T), TicksAfter(s, Tick, e, T))
  {
    hide Placed, Sweep;
    SweepSettles(s, 0, T);
    if s.status[e] == Ready {
      ReadyWaits(s, e);
      SweepOnce(s, 0, e, T);
    } else {
      SweepSpares(s, 0, e, T);
    }
  }

  /** The sweep leaves alone whoever is not ready. */
  lemma {:induction false} SweepSpares(s: Sched, i: nat, e: Env, T: nat)
    requires Settled(s) && i <= s.levels && Known(s, e) && s.status[e] != Ready
    ensures EnvIs(Sweep(s, i, T), e, s.status[e], s.prio[e], s.nTicks[e])
    decreases s.levels - i
  {
    hide Placed, SweepQueue;
    if i < s.levels {
      LevelIsReady(s, i);
      SweepQueueSettles(s, Q(s, Level(i)), T);
      SweepQueueSpares(s, Q(s, Level(i)), e, T);
      SweepSpares(SweepQueue(s, Q(s, Level(i)), T), i + 1, e, T);
    }
  }

  lemma {:induction false} SweepQueueSpares(s: Sched, q: seq<Env>, e: Env, T: nat)
    requires Settled(s) && (forall x | x in q :: x in s.status && s.status[x] == Ready) && Known(s, e) && e !in q
    ensures EnvIs(SweepQueue(s, q, T), e, s.status[e], s.prio[e], s.nTicks[e])
    decreases |q|
  {
    hide Placed, Examine;
    if q != [] {
      ExamineSettles(s, q[0], T);
      ExamineSpares(s, q[0], e, T);
      SweepQueueSpares(Examine(s, q[0], T), q[1..], e, T);
    }
  }

  lemma ExamineSpares(s: Sched, x: Env, e: Env, T: nat)
    requires Known(s, e) && e != x
    ensures EnvIs(Examine(s, x, T), e, s.status[e], s.prio[e], s.nTicks[e])
  {
    hide Remove;
  }

  lemma ReprioritizeOutcome(s: Sched, x: Env, p: nat, e: Env, T: nat)
    requires Settled(s) && x in s.status && p < s.levels && Known(s, e)
    ensures var ev := SetPriority(x, p);
            EnvIs(Reprioritize(s, x, p), e, s.status[e], PriorityAfter(s, ev, e, T), TicksAfter(s, ev, e, T))
    ensures Reprioritize(s, x, p).cur == s.cur
  {
    hide Placed, Remove;
    PlacedEnv(s, x);
  }

  // ---------------------------------------------------------------------------
  // Every event
  // ---------------------------------------------------------------------------

  /** An event that makes no choice leaves every env as described and the CPU as it was. */
  lemma QuietOutcome(s: Sched, ev: Event, T: nat, e: Env)
    requires Settled(s) && Enabled(s, ev) && !Picks(ev) && e in s.status && Known(s, e)
    ensures EnvIs(Apply(s, ev, T), e, Becomes(s, ev, e), PriorityAfter(s, ev, e, T), TicksAfter(s, ev, e, T))
  {
    hide Placed, Remove, Drain, ExitLevels, Reprioritize;
    PlacedEnv(s, e);
    match ev
    case RunEnv(x) => TakeLoosens(s, NewQ, x); PlacedEnv(s, x);
    case RunAll => NewQueue(s); PlacedQueue(s, NewQ); DrainOutcome(s, NewQ, |Q(s, NewQ)|, e);
    case WakeupOne(c) => PlacedQueue(s, Channel(c)); WakeOutcome(s, c, e);
    case WakeupAll(c) => PlacedQueue(s, Channel(c)); DrainOutcome(s, Channel(c), |Q(s, Channel(c))|, e);
    case ExitReady(x) => PlacedEnv(s, x);
    case ExitAllReady => ExitLevelsOutcome(s, 0, e);
    case SetPriority(x, p) => ReprioritizeOutcome(s, x, p, e, T);
    case _ =>
  }

  lemma WakeOutcome(s: Sched, c: Chan, e: Env)
    requires Settled(s) && Known(s, e)
    ensures var t, q := Drain(s, Channel(c), 1), Q(s, Channel(c));
            if q != [] && e == Oldest(q) then EnvIs(t, e, Ready, s.prio[e], 0)
            else EnvIs(t, e, s.status[e], s.prio[e], s.nTicks[e])
  {
    hide Placed;
    var q := Q(s, Channel(c));
    if q != [] {
      DrainOutcome(s, Channel(c), 1, e);
      assert q[|q| - 1..] == [Oldest(q)];
    }
  }

  /** So does one that ends in a choice, but for the env that gets the CPU. */
  lemma PickOutcome(s: Sched, ev: Event, T: nat, e: Env)
    requires Settled(s) && Enabled(s, ev) && Picks(ev) && e in s.status && Known(s, e)
    ensures var t, st := Apply(s, ev, T), Becomes(s, ev, e);
            && EnvIs(t, e, if t.cur == Some(e) then Running else st, PriorityAfter(s, ev, e, T), TicksAfter(s, ev, e, T))
            && (t.cur == Some(e) ==> st == Ready)
            && (st == Ready ==> t.cur.Some? && Known(t, t.cur.value) && t.prio[t.cur.value] <= t.prio[e])
  {
    hide Placed, Leave, Sweep, Dispatch;
    CurrentOnly(s, e);
    match ev
    case Tick =>
      SweepSettles(s, 0, T);
      CurrentPlaced(Sweep(s, 0, T));
      SweepOutcome(s, e, T);
      LeaveOutcome(Sweep(s, 0, T), Ready, e);
      LeaveKnows(Sweep(s, 0, T), Ready);
    case Yield => CurrentPlaced(s); LeaveOutcome(s, Ready, e); LeaveKnows(s, Ready);
    case Sleep(c) => CurrentPlaced(s); LeaveOutcome(s, Blocked(c), e); LeaveKnows(s, Blocked(c));
    case ExitCurrent => CurrentPlaced(s); LeaveOutcome(s, Exited, e); LeaveKnows(s, Exited);
    case Schedule =>
      DispatchOutcome(s, e);
      DispatchChoice(s);
      if Dispatch(s).cur.Some? {
        AllKnown(s, Dispatch(s).cur.value);
        DispatchOutcome(s, Dispatch(s).cur.value);
      }
    case _ =>
  }

  lemma CurrentOnly(s: Sched, e: Env)
    requires Placed(s) && e in s.status
    ensures s.status[e] == Running <==> s.cur == Some(e)
  {
  }

  lemma LeaveKnows(s: Sched, st: Status)
    requires Settled(s) && s.cur.Some? && s.cur.value in s.prio
    requires PlaceOf(st, s.prio[s.cur.value]).Some? && PlaceOf(st, s.prio[s.cur.value]).value in s.queues
    ensures var t := Leave(s, st);
            t.cur.Some? && Known(s, t.cur.value) ==>
              EnvIs(t, t.cur.value, Running, s.prio[t.cur.value], s.nTicks[t.cur.value])
  {
    hide Placed, Leave;
    var x := Leave(s, st).cur;
    if x.Some? && Known(s, x.value) {
      LeaveOutcome(s, st, x.value);
    }
  }

  ghost predicate SameEnvs(s: Sched, t: Sched) {
    t.status.Keys == s.status.Keys && t.cur == s.cur
  }

  lemma {:induction false} DrainFrame(s: Sched, pl: Place, k: nat)
    requires Settled(s)
    ensures SameEnvs(s, Drain(s, pl, k))
    decreases k
  {
    hide Placed;
    if !(k == 0 || Q(s, pl) == [] || !Insertable(s, Oldest(Q(s, pl)))) {
      DequeueLoosens(s, pl);
      var s1, x := Dequeue(s, pl), Oldest(Q(s, pl));
      InsertReadySettles(s1, x);
      DrainFrame(InsertReady(s1, x), pl, k - 1);
    }
  }

  lemma {:induction false} ExitEachFrame(s: Sched, pl: Place, q: seq<Env>)
    requires Settled(s)
    ensures SameEnvs(s, ExitEach(s, pl, q))
    decreases |q|
  {
    hide Placed;
    if !(q == [] || q[0] !in Q(s, pl) || q[0] !in s.prio || ExitQ !in s.queues) {
      TakeLoosens(s, pl, q[0]);
      PutSettles(Take(s, pl, q[0]), q[0], Exited);
      ExitEachFrame(Put(Take(s, pl, q[0]), q[0], Exited), pl, q[1..]);
    }
  }

  lemma {:induction false} ExitLevelsFrame(s: Sched, i: nat)
    requires Settled(s) && i <= s.levels
    ensures SameEnvs(s, ExitLevels(s, i))
    decreases s.levels - i
  {
    hide Placed;
    if i < s.levels {
      ExitEachFrame(s, Level(i), Q(s, Level(i)));
      ExitEachSettles(s, Level(i), Q(s, Level(i)));
      ExitLevelsFrame(ExitEach(s, Level(i), Q(s, Level(i))), i + 1);
    }
  }

  lemma DispatchFrame(s: Sched)
    requires Settled(s)
    ensures var t := Dispatch(s);
            t.status.Keys == s.status.Keys && (t.cur.Some? ==> t.cur.value in s.status.Keys || t.cur == s.cur)
  {
    hide Placed;
    var l := LowestLevel(s, 0);
    if l < s.levels {
      DequeueLoosens(s, Level(l));
    }
  }

  lemma LeaveFrame(s: Sched, st: Status)
    requires Settled(s) && s.cur.Some? && s.cur.value in s.prio
    requires PlaceOf(st, s.prio[s.cur.value]).Some? && PlaceOf(st, s.prio[s.cur.value]).value in s.queues
    ensures var t := Leave(s, st); t.status.Keys == s.status.Keys && (t.cur.Some? ==> t.cur.value in s.status.Keys)
  {
    hide Placed, Dispatch;
    CurrentPlaced(s);
    OffCpuKeepsPlaced(s);
    PutSettles(OffCpu(s), s.cur.value, st);
    DispatchFrame(Put(OffCpu(s), s.cur.value, st));
  }

  /** No env comes or goes but by creation, and the CPU changes hands only by a choice. */
  lemma EventFrame(s: Sched, ev: Event, T: nat)
    requires Settled(s) && Enabled(s, ev)
    ensures Apply(s, ev, T).status.Keys == s.status.Keys + if ev.Create? then {ev.env} else {}
    ensures ev.Create? ==> EnvIs(Apply(s, ev, T), ev.env, New, ev.priority, 0)
    ensures if Picks(ev) then Apply(s, ev, T).cur.Some? ==> Apply(s, ev, T).cur.value in s.status
            else Apply(s, ev, T).cur == s.cur
  {
    hide Placed, Remove, Drain, ExitLevels, Leave, Sweep, Dispatch;
    match ev
    case RunEnv(x) => TakeLoosens(s, NewQ, x);
    case RunAll => DrainFrame(s, NewQ, |Q(s, NewQ)|);
    case WakeupOne(c) => DrainFrame(s, Channel(c), 1);
    case WakeupAll(c) => DrainFrame(s, Channel(c), |Q(s, Channel(c))|);
    case ExitReady(x) => PlacedEnv(s, x);
    case ExitAllReady => ExitLevelsFrame(s, 0);
    case SetPriority(x, p) => PlacedEnv(s, x);
    case Tick => SweepSettles(s, 0, T); CurrentPlaced(Sweep(s, 0, T)); LeaveFrame(Sweep(s, 0, T), Ready);
    case Yield => CurrentPlaced(s); LeaveFrame(s, Ready);
    case Sleep(c) => CurrentPlaced(s); LeaveFrame(s, Blocked(c));
    case ExitCurrent => CurrentPlaced(s); LeaveFrame(s, Exited);
    case Schedule => DispatchFrame(s);
    case _ =>
  }

  /** The outcome of every event: each env's status, priority and tick count, and who is on the CPU. */
  lemma EventOutcome(s: Sched, ev: Event, T: nat)
    requires Settled(s) && Enabled(s, ev)
    ensures var t := Apply(s, ev, T);
            && t.status.Keys == s.status.Keys + (if ev.Create? then {ev.env} else {})
            && (ev.Create? ==> EnvIs(t, ev.env, New, ev.priority, 0))
            && (forall e | e in s.status ::
                  && Known(s, e)
                  && EnvIs(t, e, if Picks(ev) && t.cur == Some(e) then Running else Becomes(s, ev, e),
                           PriorityAfter(s, ev, e, T), TicksAfter(s, ev, e, T)))
            && (if Picks(ev) then Picked(s, ev, t, T) else t.cur == s.cur)
  {
    hide Settled, Enabled, Apply, Becomes, PriorityAfter, TicksAfter;
    EventFrame(s, ev, T);
    forall e | e in s.status
      ensures Known(s, e)
      ensures Picks(ev) ==> var t, st := Apply(s, ev, T), Becomes(s, ev, e);
            && EnvIs(t, e, if t.cur == Some(e) then Running else st, PriorityAfter(s, ev, e, T), TicksAfter(s, ev, e, T))
            && (t.cur == Some(e) ==> st == Ready)
            && (st == Ready ==> t.cur.Some? && Known(t, t.cur.value) && t.prio[t.cur.value] <= t.prio[e])
      ensures !Picks(ev) ==> EnvIs(Apply(s, ev, T), e, Becomes(s, ev, e), PriorityAfter(s, ev, e, T), TicksAfter(s, ev, e, T))
    {
      SettledKnown(s, e);
      if Picks(ev) {
        PickOutcome(s, ev, T, e);
      } else {
        QuietOutcome(s, ev, T, e);
      }
    }
  }

  lemma SettledKnown(s: Sched, e: Env)
    requires Settled(s) && e in s.status
    ensures Known(s, e)
  {
  }

  // ---------------------------------------------------------------------------
  // Promotions in a run
  // ---------------------------------------------------------------------------

  lemma TicksGrow(s: Sched, ev: Event, T: nat, e: Env)
    requires Settled(s) && Enabled(s, ev) && e in s.status
    ensures Known(s, e) && Known(Apply(s, ev, T), e)
    ensures Apply(s, ev, T).nTicks[e] <= s.nTicks[e] + if ev.Tick? then 1 else 0
    ensures Promoted(s, ev, e, T) ==> Apply(s, ev, T).nTicks[e] == 0
  {
    hide Settled, Enabled, Apply, Becomes;
    EventOutcome(s, ev, T);
  }

  /** An env's count is never ahead of the clock. */
  lemma {:induction false} RunTicksGrow(ss: seq<Sched>, evs: seq<Event>, T: nat, e: Env, i: nat, j: nat)
    requires Run(ss, evs, T) && i <= j < |ss| && e in ss[i].status
    ensures Known(ss[i], e) && Known(ss[j], e)
    ensures ss[j].nTicks[e] <= ss[i].nTicks[e] + Ticks(evs[i..j])
    decreases j
  {
    hide Settled, Enabled, Apply;
    RunSettles(ss, evs, T);
    if i == j {
      SettledKnown(ss[i], e);
    } else {
      RunTicksGrow(ss, evs, T, e, i, j - 1);
      assert Step(ss[j - 1], evs[j - 1], ss[j - 1 + 1], T);
      TicksGrow(ss[j - 1], evs[j - 1], T, e);
      assert evs[i..j][..|evs[i..j]| - 1] == evs[i..j - 1];
    }
  }

  /** Between two promotions of an env there are at least `T` + 2 ticks: a promotion is never early. */
  lemma PromotionsAreApart(ss: seq<Sched>, evs: seq<Event>, T: nat, e: Env, i: nat, j: nat)
    requires Run(ss, evs, T) && i < j < |evs| && Known(ss[i], e) && Known(ss[j], e)
    requires Promoted(ss[i], evs[i], e, T) && Promoted(ss[j], evs[j], e, T)
    ensures Ticks(evs[i..j]) >= T + 2
  {
    hide Settled, Enabled, Apply;
    RunSettles(ss, evs, T);
    assert Step(ss[i], evs[i], ss[i + 1], T);
    TicksGrow(ss[i], evs[i], T, e);
    RunTicksGrow(ss, evs, T, e, i + 1, j);
    assert evs[i..j] == [evs[i]] + evs[i + 1..j];
    TicksOfFront(evs[i], evs[i + 1..j]);
  }

  lemma {:induction false} TicksOfFront(ev: Event, evs: seq<Event>)
    ensures Ticks([ev] + evs) == (if ev.Tick? then 1 else 0) + Ticks(evs)
    decreases |evs|
  {
    if evs == [] {
      assert [ev][..0] == [];
    } else {
      var k := |evs| - 1;
      assert ([ev] + evs)[..k + 1] == [ev] + evs[..k];
      TicksOfFront(ev, evs[..k]);
    }
  }

  /** Nor is an env promoted within `T` ticks of its creation. */
  lemma NewcomerWaits(ss: seq<Sched>, evs: seq<Event>, T: nat, e: Env, i: nat, j: nat)
    requires Run(ss, evs, T) && i < j < |evs| && evs[i].Create? && evs[i].env == e
    requires Known(ss[j], e) && Promoted(ss[j], evs[j], e, T)
    ensures Ticks(evs[i..j]) > T
  {
    hide Settled, Enabled, Apply;
    RunSettles(ss, evs, T);
    assert Step(ss[i], evs[i], ss[i + 1], T);
    EventOutcome(ss[i], evs[i], T);
    RunTicksGrow(ss, evs, T, e, i + 1, j);
    assert evs[i..j] == [evs[i]] + evs[i + 1..j];
    TicksOfFront(evs[i], evs[i + 1..j]);
  }
}
