/** Bounded waiting under starvation promotion (kern/cpu/sched.c:314-379, kern/cpu/sched_helpers.c:48-69 and 145-159):
    a ready env is dispatched within prio * (T + 2) + n clock ticks of any run with at most n live envs. */
module BoundedWaiting {
  import opened Common
  import opened Scheduling

  // ---------------------------------------------------------------------------
  // One waiting env
  // ---------------------------------------------------------------------------

  /** How many envs of the queue are dequeued before `e`. */
  function Ahead(q: seq<Env>, e: Env): (n: nat)
    requires e in q
    ensures n < |q|
  {
    |q| - 1 - IndexOf(q, e)
  }

  ghost predicate Waiting(s: Sched, e: Env) {
    && e in s.status && e in s.prio && e in s.nTicks && s.status[e] == Ready
    && Level(s.prio[e]) in s.queues && e in s.queues[Level(s.prio[e])]
  }

  ghost function Before(s: Sched, e: Env): nat
    requires Waiting(s, e)
  {
    Ahead(s.queues[Level(s.prio[e])], e)
  }

  /** From `s` to `t`, `e` has waited on at its level and nobody has overtaken it. */
  ghost predicate NoWorse(s: Sched, t: Sched, e: Env) {
    && Waiting(s, e) && Waiting(t, e)
    && t.prio[e] == s.prio[e] && t.nTicks[e] == s.nTicks[e] && Before(t, e) <= Before(s, e)
  }

  /** From `s` to `t`, the sweep has looked at `e` exactly once. */
  ghost predicate Examined(s: Sched, t: Sched, e: Env, T: nat) {
    && Waiting(s, e) && Waiting(t, e)
    && if s.prio[e] == 0 then NoWorse(s, t, e)
       else if s.nTicks[e] <= T then
         t.prio[e] == s.prio[e] && t.nTicks[e] == (s.nTicks[e] + 1) % 0x1_0000_0000
       else t.prio[e] == s.prio[e] - 1 && t.nTicks[e] == 0
  }

  // ---------------------------------------------------------------------------
  // Moves of other envs do not delay it
  // ---------------------------------------------------------------------------

  lemma {:induction false} RemoveOther(q: seq<Env>, x: Env, e: Env)
    requires e in q && x in q && x != e
    ensures e in Remove(q, x) && Ahead(Remove(q, x), e) <= Ahead(q, e)
  {
    var r := Remove(q, x);
    if q[0] == x {
      assert r == q[1..];
    } else if q[0] == e {
      assert r[0] == e;
    } else {
      RemoveOther(q[1..], x, e);
      assert r == [q[0]] + Remove(q[1..], x);
      assert r[1..] == Remove(q[1..], x);
    }
  }

  lemma TakeOther(s: Sched, pl: Place, x: Env, e: Env)
    requires Waiting(s, e) && x != e && pl in s.queues && x in s.queues[pl]
    ensures NoWorse(s, Take(s, pl, x), e)
  {
    hide Remove, Ahead;
    if pl == Level(s.prio[e]) {
      RemoveOther(s.queues[pl], x, e);
    }
  }

  lemma PutOther(s: Sched, x: Env, st: Status, e: Env)
    requires Waiting(s, e) && x != e
    requires x in s.prio && PlaceOf(st, s.prio[x]).Some? && PlaceOf(st, s.prio[x]).value in s.queues
    ensures NoWorse(s, Put(s, x, st), e)
  {
  }

  lemma InsertReadyOther(s: Sched, x: Env, e: Env)
    requires Waiting(s, e) && x != e && Insertable(s, x)
    ensures NoWorse(s, InsertReady(s, x), e)
  {
  }

  lemma PromoteOther(s: Sched, x: Env, e: Env)
    requires Waiting(s, e) && x != e && x in s.prio && s.prio[x] > 0
    requires x in Q(s, Level(s.prio[x])) && Level(s.prio[x] - 1) in s.queues
    ensures NoWorse(s, Promote(s, x), e)
  {
    hide Ahead, Remove;
    TakeOther(s, Level(s.prio[x]), x, e);
    var s1 := Take(s, Level(s.prio[x]), x);
    InsertReadyOther(s1.(prio := s1.prio[x := s1.prio[x] - 1]), x, e);
  }

  lemma ExamineOther(s: Sched, x: Env, e: Env, T: nat)
    requires Waiting(s, e) && x != e
    ensures NoWorse(s, Examine(s, x, T), e)
  {
    hide Ahead, Promote;
    if x in s.prio && x in s.nTicks && s.prio[x] > 0 && s.nTicks[x] > T
       && x in Q(s, Level(s.prio[x])) && Level(s.prio[x] - 1) in s.queues {
      PromoteOther(s, x, e);
    }
  }

  lemma ExamineSelf(s: Sched, e: Env, T: nat)
    requires Settled(s) && Waiting(s, e)
    ensures Examined(s, Examine(s, e, T), e, T)
  {
  }

  // ---------------------------------------------------------------------------
  // The sweep looks at every waiting env exactly once
  // ---------------------------------------------------------------------------

  lemma {:induction false} SweepOthers(s: Sched, q: seq<Env>, e: Env, T: nat)
    requires Waiting(s, e) && e !in q
    ensures NoWorse(s, SweepQueue(s, q, T), e)
    decreases |q|
  {
    hide Waiting, Before, Examine;
    if q != [] {
      ExamineOther(s, q[0], e, T);
      SweepOthers(Examine(s, q[0], T), q[1..], e, T);
    }
  }

  lemma {:induction false} SweepQueueOnce(s: Sched, q: seq<Env>, e: Env, T: nat)
    requires Settled(s) && Waiting(s, e) && NoDup(q) && e in q
    requires forall x | x in q :: x in s.status && s.status[x] == Ready
    ensures Examined(s, SweepQueue(s, q, T), e, T)
    decreases |q|
  {
    hide Waiting, Before, Examine, Settled;
    ExamineSettles(s, q[0], T);
    var s1 := Examine(s, q[0], T);
    if q[0] == e {
      ExamineSelf(s, e, T);
      SweepOthers(s1, q[1..], e, T);
    } else {
      ExamineOther(s, q[0], e, T);
      SweepQueueOnce(s1, q[1..], e, T);
    }
  }

  /** The sweep from level `i` on looks once at an env of level `i` or above, and at no other: levels are swept upward
      and a promoted env moves down to a level already swept. */
  lemma {:induction false} SweepOnce(s: Sched, i: nat, e: Env, T: nat)
    requires Settled(s) && Waiting(s, e) && i <= s.levels
    ensures s.prio[e] < i ==> NoWorse(s, Sweep(s, i, T), e)
    ensures s.prio[e] >= i ==> Examined(s, Sweep(s, i, T), e, T)
    decreases s.levels - i
  {
    hide Before, Placed, SweepQueue;
    PlacedEnv(s, e);
    if i < s.levels {
      var q := Q(s, Level(i));
      LevelIsReady(s, i);
      SweepQueueSettles(s, q, T);
      var s1 := SweepQueue(s, q, T);
      if s.prio[e] == i {
        PlacedQueue(s, Level(i));
        SweepQueueOnce(s, q, e, T);
      } else {
        SweepOthers(s, q, e, T);
      }
      SweepOnce(s1, i + 1, e, T);
    }
  }

  // ---------------------------------------------------------------------------
  // Dispatch
  // ---------------------------------------------------------------------------

  lemma AheadOfOldest(q: seq<Env>, e: Env)
    requires e in q && e != Oldest(q)
    ensures e in q[..|q| - 1] && Ahead(q[..|q| - 1], e) == Ahead(q, e) - 1
  {
    var i := IndexOf(q, e);
    assert q[..|q| - 1][i] == e;
    FirstIndex(q, q[..|q| - 1], e);
  }

  lemma {:induction false} FirstIndex(q: seq<Env>, r: seq<Env>, e: Env)
    requires e in q && e in r && r <= q
    ensures IndexOf(r, e) == IndexOf(q, e)
  {
    if q[0] != e {
      FirstIndex(q[1..], r[1..], e);
    }
  }

  /** The scheduler picks `e` or lets it wait on; at level 0 one env fewer is then before it. */
  lemma DispatchOther(s: Sched, e: Env)
    requires Settled(s) && s.cur.None? && Waiting(s, e)
    ensures Dispatch(s).cur == Some(e) || NoWorse(s, Dispatch(s), e)
    ensures Dispatch(s).cur == Some(e) || (s.prio[e] == 0 ==> Before(Dispatch(s), e) < Before(s, e))
  {
    hide Placed, Ahead, IndexOf;
    PlacedEnv(s, e);
    var l := LowestLevel(s, 0);
    assert Q(s, Level(s.prio[e])) != [];
    assert l <= s.prio[e];
    var q := Q(s, Level(l));
    var x := Oldest(q);
    if x != e {
      DequeueLoosens(s, Level(l));
      TakeOther(s, Level(l), x, e);
      if l == s.prio[e] {
        AheadOfOldest(q, e);
      }
    }
  }

  lemma LeaveOther(s: Sched, st: Status, e: Env)
    requires Settled(s) && Waiting(s, e) && s.cur.Some? && s.cur.value in s.prio
    requires PlaceOf(st, s.prio[s.cur.value]).Some? && PlaceOf(st, s.prio[s.cur.value]).value in s.queues
    ensures var t := Leave(s, st);
            t.cur == Some(e) || (NoWorse(s, t, e) && (s.prio[e] == 0 ==> Before(t, e) < Before(s, e)))
  {
    hide Placed, Ahead, IndexOf, Dispatch;
    CurrentPlaced(s);
    OffCpuKeepsPlaced(s);
    PutSettles(OffCpu(s), s.cur.value, st);
    PutOther(OffCpu(s), s.cur.value, st, e);
    DispatchOther(Put(OffCpu(s), s.cur.value, st), e);
  }

  lemma {:induction false} DrainOther(s: Sched, pl: Place, k: nat, e: Env)
    requires Settled(s) && Waiting(s, e) && !pl.Level?
    ensures NoWorse(s, Drain(s, pl, k), e)
    decreases k
  {
    hide Placed, Before;
    if !(k == 0 || Q(s, pl) == [] || !Insertable(s, Oldest(Q(s, pl)))) {
      DequeueLoosens(s, pl);
      var s1, x := Dequeue(s, pl), Oldest(Q(s, pl));
      TakeOther(s, pl, x, e);
      InsertReadyOther(s1, x, e);
      InsertReadySettles(s1, x);
      DrainOther(InsertReady(s1, x), pl, k - 1, e);
    }
  }

  // ---------------------------------------------------------------------------
  // The measure that every tick lowers
  // ---------------------------------------------------------------------------

  /** The envs that have not exited. */
  ghost function Live(s: Sched): set<Env> {
    set e | e in s.status && s.status[e] != Exited
  }

  ghost function Remaining(s: Sched, e: Env, n: nat, T: nat): int
    requires Waiting(s, e)
  {
    if s.prio[e] == 0 then Before(s, e) + 1
    else s.prio[e] * (T + 2) - (if s.nTicks[e] <= T then s.nTicks[e] else T + 1) + n
  }

  lemma {:induction false} DistinctCount(q: seq<Env>, S: set<Env>)
    requires NoDup(q) && forall e | e in q :: e in S
    ensures |q| <= |S|
  {
    if q != [] {
      var x := q[0];
      assert x in q;
      DistinctCount(q[1..], S - {q[0]});
    }
  }

  lemma QueueFits(s: Sched, i: nat)
    requires Placed(s) && Level(i) in s.queues
    ensures |s.queues[Level(i)]| <= |Live(s)|
  {
    hide Placed;
    PlacedQueue(s, Level(i));
    DistinctCount(s.queues[Level(i)], Live(s));
  }

  lemma NoWorseRemaining(s: Sched, t: Sched, e: Env, n: nat, T: nat)
    requires NoWorse(s, t, e)
    ensures Remaining(t, e, n, T) <= Remaining(s, e, n, T)
  {
  }

  lemma PromotionPays(p: nat, T: nat)
    requires p > 0
    ensures p * (T + 2) == (p - 1) * (T + 2) + T + 2
  {
  }

  /** After the sweep, one tick less remains, unless `e` was at level 0 already. */
  lemma ExaminedRemaining(s: Sched, t: Sched, e: Env, n: nat, T: nat)
    requires Examined(s, t, e, T) && s.prio[e] > 0 && T < 0xFFFF_FFFF && Placed(t) && |Live(t)| <= n
    ensures Remaining(t, e, n, T) < Remaining(s, e, n, T)
  {
    hide Placed, Live;
    PromotionPays(s.prio[e], T);
    QueueFits(t, t.prio[e]);
  }

  /** An event that neither changes the priority of `e` nor ends it. */
  predicate Spares(ev: Event, e: Env) {
    && (ev.SetPriority? ==> ev.env != e)
    && (ev.ExitReady? ==> ev.env != e)
    && !ev.ExitAllReady?
  }

  /** `e` is on the CPU, or waits on with no more ticks to wait than before: fewer after a tick. */
  ghost predicate Progress(s: Sched, t: Sched, e: Env, n: nat, T: nat, tick: bool) {
    || t.cur == Some(e)
    || (Waiting(s, e) && Waiting(t, e) && Remaining(t, e, n, T) <= Remaining(s, e, n, T) - if tick then 1 else 0)
  }

  lemma TickProgress(s: Sched, e: Env, n: nat, T: nat)
    requires Settled(s) && Waiting(s, e) && s.cur.Some? && T < 0xFFFF_FFFF && |Live(s)| <= n
    ensures Progress(s, Apply(s, Tick, T), e, n, T, true)
  {
    hide Placed, Before, Sweep, Leave, Live;
    var m := Sweep(s, 0, T);
    SweepOnce(s, 0, e, T);
    SweepSettles(s, 0, T);
    CurrentPlaced(m);
    LeaveOther(m, Ready, e);
    SameLive(s, m);
    if s.prio[e] > 0 {
      ExaminedRemaining(s, m, e, n, T);
      if Leave(m, Ready).cur != Some(e) {
        NoWorseRemaining(m, Leave(m, Ready), e, n, T);
      }
    }
  }

  lemma SameLive(s: Sched, t: Sched)
    requires s.status == t.status
    ensures Live(s) == Live(t)
  {
  }

  lemma ReprioritizeOther(s: Sched, x: Env, p: nat, e: Env)
    requires Settled(s) && Waiting(s, e) && x in s.status && x != e && p < s.levels
    ensures NoWorse(s, Reprioritize(s, x, p), e)
  {
    hide Placed, Ahead, Remove;
    PlacedEnv(s, x);
    if s.status[x] == Ready {
      TakeOther(s, Level(s.prio[x]), x, e);
      var s1 := Take(s, Level(s.prio[x]), x);
      TakeLoosens(s, Level(s.prio[x]), x);
      SetPrioKeepsPlaced(s1, x, p);
      PlacedEnv(s1.(prio := s1.prio[x := p]), x);
      InsertReadyOther(s1.(prio := s1.prio[x := p]), x, e);
    }
  }

  lemma OtherProgress(s: Sched, ev: Event, e: Env, T: nat)
    requires Settled(s) && Waiting(s, e) && Enabled(s, ev) && Spares(ev, e) && !ev.Tick?
    ensures Apply(s, ev, T).cur == Some(e) || NoWorse(s, Apply(s, ev, T), e)
  {
    hide Placed, Ahead, Remove, Sweep, Drain, Leave, Dispatch, Put, Reprioritize;
    match ev
    case Create(x, p) =>
      var s1 := s.(status := s.status[x := Unknown], prio := s.prio[x := p], nTicks := s.nTicks[x := 0]);
      NewQueue(s);
      PutOther(s1, x, New, e);
    case RunEnv(x) =>
      TakeLoosens(s, NewQ, x);
      PlacedEnv(s, x);
      TakeOther(s, NewQ, x, e);
      InsertReadyOther(Take(s, NewQ, x), x, e);
    case RunAll => DrainOther(s, NewQ, |Q(s, NewQ)|, e);
    case NewChannel(c) => 
    case Yield => CurrentPlaced(s); LeaveOther(s, Ready, e);
    case Sleep(c) => CurrentPlaced(s); LeaveOther(s, Blocked(c), e);
    case WakeupOne(c) => DrainOther(s, Channel(c), 1, e);
    case WakeupAll(c) => DrainOther(s, Channel(c), |Q(s, Channel(c))|, e);
    case ExitCurrent => CurrentPlaced(s); LeaveOther(s, Exited, e);
    case ExitReady(x) =>
      PlacedEnv(s, x);
      NewQueue(s);
      TakeOther(s, Level(s.prio[x]), x, e);
      PutOther(Take(s, Level(s.prio[x]), x), x, Exited, e);
    case SetPriority(x, p) => ReprioritizeOther(s, x, p, e);
    case Schedule => DispatchOther(s, e);
    case _ =>
  }

  lemma NewQueue(s: Sched)
    requires Placed(s)
    ensures NewQ in s.queues && ExitQ in s.queues
  {
  }

  // ---------------------------------------------------------------------------
  // Whole runs
  // ---------------------------------------------------------------------------

  function Ticks(evs: seq<Event>): nat {
    if evs == [] then 0 else (if evs[|evs| - 1].Tick? then 1 else 0) + Ticks(evs[..|evs| - 1])
  }

  /** A run in which `e`, ready at the start, is neither dispatched, ended nor given another priority, with at most
      `n` live envs at any time. */
  ghost predicate PassedOver(ss: seq<Sched>, evs: seq<Event>, e: Env, n: nat, T: nat) {
    && Run(ss, evs, T)
    && e in ss[0].status && ss[0].status[e] == Ready
    && (forall i | 0 <= i < |ss| :: |Live(ss[i])| <= n && ss[i].cur != Some(e))
    && (forall i | 0 <= i < |evs| :: Spares(evs[i], e))
  }

  lemma EventProgress(s: Sched, ev: Event, e: Env, n: nat, T: nat)
    requires Settled(s) && Waiting(s, e) && Enabled(s, ev) && Spares(ev, e) && T < 0xFFFF_FFFF && |Live(s)| <= n
    ensures Progress(s, Apply(s, ev, T), e, n, T, ev.Tick?)
  {
    hide Settled, Waiting, Before, Apply, Enabled, Spares, Remaining;
    if ev.Tick? {
      assert s.cur.Some? by { EnabledTick(s); }
      TickProgress(s, e, n, T);
    } else {
      OtherProgress(s, ev, e, T);
      if Apply(s, ev, T).cur != Some(e) {
        NoWorseRemaining(s, Apply(s, ev, T), e, n, T);
      }
    }
  }

  lemma EnabledTick(s: Sched)
    requires Enabled(s, Tick)
    ensures s.cur.Some?
  {
  }

  lemma ReadyWaits(s: Sched, e: Env)
    requires Settled(s) && e in s.status && s.status[e] == Ready
    ensures Waiting(s, e)
  {
  }

  lemma PrefixRun(ss: seq<Sched>, evs: seq<Event>, T: nat)
    requires Run(ss, evs, T) && evs != []
    ensures Run(ss[..|evs|], evs[..|evs| - 1], T)
  {
  }

  lemma {:induction false} RunProgress(ss: seq<Sched>, evs: seq<Event>, e: Env, n: nat, T: nat)
    requires PassedOver(ss, evs, e, n, T) && T < 0xFFFF_FFFF
    ensures Waiting(ss[0], e) && Waiting(ss[|evs|], e)
    ensures Remaining(ss[|evs|], e, n, T) + Ticks(evs) <= Remaining(ss[0], e, n, T)
    decreases |evs|
  {
    hide Settled, Apply, Enabled, Live, Spares, Waiting, Remaining;
    ReadyWaits(ss[0], e);
    if evs != [] {
      var k := |evs| - 1;
      PrefixRun(ss, evs, T);
      RunProgress(ss[..k + 1], evs[..k], e, n, T);
      RunSettles(ss, evs, T);
      assert Step(ss[k], evs[k], ss[k + 1], T);
      EventProgress(ss[k], evs[k], e, n, T);
    }
  }

  ghost predicate WithinBound(ss: seq<Sched>, evs: seq<Event>, e: Env, n: nat, T: nat) {
    |ss| > 0 && e in ss[0].prio && Ticks(evs) < ss[0].prio[e] * (T + 2) + n
  }

  /** Bounded waiting: no run passes over a ready env of priority p for p * (T + 2) + n ticks. */
  lemma WaitIsBounded(ss: seq<Sched>, evs: seq<Event>, e: Env, n: nat, T: nat)
    requires PassedOver(ss, evs, e, n, T) && T < 0xFFFF_FFFF
    ensures WithinBound(ss, evs, e, n, T)
  {
    hide Live, Apply, Enabled, Placed, Run;
    RunProgress(ss, evs, e, n, T);
    SettledEnds(ss, evs, T);
    QueueFits(ss[0], ss[0].prio[e]);
    PromotionLeft(ss[|evs|], e, n, T);
  }

  lemma SettledEnds(ss: seq<Sched>, evs: seq<Event>, T: nat)
    requires Run(ss, evs, T)
    ensures |ss| == |evs| + 1 && Settled(ss[0]) && Settled(ss[|evs|])
  {
    hide Settled, Step;
    RunSettles(ss, evs, T);
  }

  lemma PromotionLeft(s: Sched, e: Env, n: nat, T: nat)
    requires Waiting(s, e)
    ensures Remaining(s, e, n, T) >= 1
  {
  }

  // ---------------------------------------------------------------------------
  // The threshold at which promotion never comes
  // ---------------------------------------------------------------------------

  /** Env 0 runs at level 0 and env 1 waits at level 1. */
  ghost function Starving(t: nat): Sched {
    Sched(2, map[NewQ := [], ExitQ := [], Level(0) := [], Level(1) := [1]], Some(0),
          map[0 := Running, 1 := Ready], map[0 := 0, 1 := 1], map[0 := 0, 1 := t])
  }

  lemma StarvingSettled(t: nat)
    ensures Settled(Starving(t)) && |Live(Starving(t))| == 2
  {
    var s := Starving(t);
    assert Live(s) == {0, 1};
    forall pl | pl in s.queues ensures Holds(s.queues[pl], pl, s.status, s.prio) {
    }
  }

  lemma StarvingSweep(t: nat)
    requires t < 0x1_0000_0000
    ensures Sweep(Starving(t), 0, 0xFFFF_FFFF) == Starving((t + 1) % 0x1_0000_0000)
  {
    hide Promote;
    var s, s' := Starving(t), Starving((t + 1) % 0x1_0000_0000);
    assert Q(s, Level(1)) == [1];
    assert SweepQueue(s, [1], 0xFFFF_FFFF) == Examine(s, 1, 0xFFFF_FFFF);
    assert Sweep(s, 1, 0xFFFF_FFFF) == Sweep(s', 2, 0xFFFF_FFFF);
  }

  lemma StarvingLeave(t: nat)
    ensures Leave(Starving(t), Ready) == Starving(t)
  {
    var p := Put(OffCpu(Starving(t)), 0, Ready);
    assert Q(p, Level(0)) == [0];
    assert LowestLevel(p, 0) == 0;
  }

  lemma StarvingTick(t: nat)
    requires t < 0x1_0000_0000
    ensures Settled(Starving(t)) && Apply(Starving(t), Tick, 0xFFFF_FFFF) == Starving((t + 1) % 0x1_0000_0000)
  {
    hide Sweep, Leave, Placed;
    StarvingSettled(t);
    StarvingSweep(t);
    StarvingLeave((t + 1) % 0x1_0000_0000);
  }

  ghost function StarvingRun(k: nat): seq<Sched> {
    seq(k + 1, i requires 0 <= i => Starving(i % 0x1_0000_0000))
  }

  lemma {:induction false} OnlyTicks(k: nat)
    ensures Ticks(seq(k, _ => Tick)) == k
  {
    if k > 0 {
      assert seq(k, _ => Tick)[..k - 1] == seq(k - 1, _ => Tick);
      OnlyTicks(k - 1);
    }
  }

  lemma NextCount(i: nat)
    ensures (i % 0x1_0000_0000 + 1) % 0x1_0000_0000 == (i + 1) % 0x1_0000_0000
  {
  }

  /** With the largest threshold, env 1 is passed over for any number of ticks. */
  lemma StarvesForever(k: nat)
    ensures PassedOver(StarvingRun(k), seq(k, _ => Tick), 1, 2, 0xFFFF_FFFF)
  {
    hide Settled, Apply, Live;
    var ss, evs := StarvingRun(k), seq(k, _ => Tick);
    StarvingSettled(0);
    forall i | 0 <= i < k ensures Step(ss[i], evs[i], ss[i + 1], 0xFFFF_FFFF) {
      StarvingTick(i % 0x1_0000_0000);
      NextCount(i);
    }
    forall i | 0 <= i < |ss| ensures |Live(ss[i])| <= 2 && ss[i].cur != Some(1) {
      StarvingSettled(i % 0x1_0000_0000);
    }
  }

  /** Waiting is bounded for exactly the thresholds below the 32-bit maximum. */
  lemma BoundedIffBelowMax(T: nat)
    requires T <= 0xFFFF_FFFF
    ensures (forall ss, evs, e, n | PassedOver(ss, evs, e, n, T) :: WithinBound(ss, evs, e, n, T))
            <==> T < 0xFFFF_FFFF
  {
    hide PassedOver, Ticks;
    if T < 0xFFFF_FFFF {
      forall ss, evs, e, n | PassedOver(ss, evs, e, n, T) ensures WithinBound(ss, evs, e, n, T) {
        WaitIsBounded(ss, evs, e, n, T);
      }
    } else {
      var k := T + 4;
      StarvesForever(k);
      OnlyTicks(k);
      var ss, evs := StarvingRun(k), seq(k, _ => Tick);
      assert PassedOver(ss, evs, 1, 2, T);
      assert ss[0].prio[1] == 1;
    }
  }
}
