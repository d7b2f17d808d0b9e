/** The priority round-robin scheduler with starvation promotion (kern/cpu/sched.c, kern/cpu/sched_helpers.c) and the
    process queues it shares with sleep and wakeup (kern/conc/channel.c). Queues are listed from head to tail:
    enqueue puts at the head, dequeue takes the tail. */
module Scheduling {
  import opened Common

  type Env = int
  type Chan = int

  /** env_status; a blocked env's channel is part of it. Unknown is the status of an env that is between queues. */
  datatype Status = New | Ready | Running | Blocked(chan: Chan) | Exited | Unknown

  datatype Place = NewQ | Level(level: nat) | Channel(chan: Chan) | ExitQ

  datatype Sched = Sched(
    levels: nat, queues: map<Place, seq<Env>>, cur: Option<Env>,
    status: map<Env, Status>, prio: map<Env, nat>, nTicks: map<Env, nat>)

  // ---------------------------------------------------------------------------
  // Queues
  // ---------------------------------------------------------------------------

  /** LIST_REMOVE. */
  function Remove(q: seq<Env>, e: Env): seq<Env>
    requires e in q
  {
    RemoveAt(q, IndexOf(q, e))
  }

  lemma RemoveMembers(q: seq<Env>, e: Env)
    requires NoDup(q) && e in q
    ensures NoDup(Remove(q, e)) && forall x :: x in Remove(q, e) <==> x in q && x != e
  {
  }

  // ---------------------------------------------------------------------------
  // Placement
  // ---------------------------------------------------------------------------

  /** The queue a status puts an env in, if any. */
  function PlaceOf(st: Status, prio: nat): Option<Place> {
    match st
    case New => Some(NewQ)
    case Ready => Some(Level(prio))
    case Blocked(c) => Some(Channel(c))
    case Exited => Some(ExitQ)
    case Running => None
    case Unknown => None
  }

  ghost predicate Holds(q: seq<Env>, pl: Place, status: map<Env, Status>, prio: map<Env, nat>) {
    && NoDup(q)
    && forall e :: e in q <==> e in status && e in prio && PlaceOf(status[e], prio[e]) == Some(pl)
  }

  /** Every env is in exactly the queue its status (and, when ready, its own priority) says, and in it once;
      the running env is on the CPU. */
  ghost predicate Placed(s: Sched) {
    && s.prio.Keys == s.status.Keys && s.nTicks.Keys == s.status.Keys
    && (forall e | e in s.prio :: s.prio[e] < s.levels)
    && (forall i: nat | i < s.levels :: Level(i) in s.queues)
    && NewQ in s.queues && ExitQ in s.queues
    && (forall e | e in s.status && s.status[e].Blocked? :: Channel(s.status[e].chan) in s.queues)
    && (forall pl | pl in s.queues :: Holds(s.queues[pl], pl, s.status, s.prio))
    && (s.cur.Some? ==> s.cur.value in s.status && s.status[s.cur.value] == Running)
    && (forall e | e in s.status && s.status[e] == Running :: s.cur == Some(e))
  }

  /** Only envs of `loose` are between queues. */
  ghost predicate LooseOnly(s: Sched, loose: set<Env>) {
    forall e | e in s.status && s.status[e] == Unknown :: e in loose
  }

  /** No env is between queues: the state at every scheduling point. */
  ghost predicate Settled(s: Sched) {
    Placed(s) && LooseOnly(s, {})
  }

  // ---------------------------------------------------------------------------
  // Primitive moves
  // ---------------------------------------------------------------------------

  /** Take an env out of the queue it is in. */
  function Take(s: Sched, pl: Place, e: Env): Sched
    requires pl in s.queues && e in s.queues[pl]
  {
    s.(queues := s.queues[pl := Remove(s.queues[pl], e)], status := s.status[e := Unknown])
  }

  /** Give an env a status and put it at the head of the queue that goes with it. */
  function Put(s: Sched, e: Env, st: Status): Sched
    requires e in s.prio && PlaceOf(st, s.prio[e]).Some? && PlaceOf(st, s.prio[e]).value in s.queues
  {
    var pl := PlaceOf(st, s.prio[e]).value;
    s.(queues := s.queues[pl := [e] + s.queues[pl]], status := s.status[e := st])
  }

  function OffCpu(s: Sched): Sched
    requires s.cur.Some?
  {
    s.(cur := None, status := s.status[s.cur.value := Unknown])
  }

  function OnCpu(s: Sched, e: Env): Sched {
    s.(cur := Some(e), status := s.status[e := Running])
  }

  lemma TakeKeepsPlaced(s: Sched, pl: Place, e: Env)
    requires Placed(s) && pl in s.queues && e in s.queues[pl]
    ensures Placed(Take(s, pl, e)) && e in s.status && e in s.prio && PlaceOf(s.status[e], s.prio[e]) == Some(pl)
  {
    hide NoDup, Remove;
    RemoveMembers(s.queues[pl], e);
    assert Holds(s.queues[pl], pl, s.status, s.prio);
    var s' := Take(s, pl, e);
    forall p | p in s'.queues ensures Holds(s'.queues[p], p, s'.status, s'.prio) {
      assert Holds(s.queues[p], p, s.status, s.prio);
    }
  }

  lemma PutHolds(s: Sched, e: Env, st: Status, p: Place)
    requires e in s.status && s.status[e] == Unknown && e in s.prio
    requires PlaceOf(st, s.prio[e]).Some? && PlaceOf(st, s.prio[e]).value in s.queues
    requires p in s.queues && Holds(s.queues[p], p, s.status, s.prio)
    ensures var s' := Put(s, e, st); Holds(s'.queues[p], p, s'.status, s'.prio)
  {
    hide NoDup;
    PushKeepsNoDup(s.queues[p], e);
  }

  lemma PutKeepsPlaced(s: Sched, e: Env, st: Status)
    requires Placed(s) && e in s.status && s.status[e] == Unknown
    requires PlaceOf(st, s.prio[e]).Some? && PlaceOf(st, s.prio[e]).value in s.queues
    ensures Placed(Put(s, e, st))
  {
    hide Holds;
    var s' := Put(s, e, st);
    forall p | p in s'.queues ensures Holds(s'.queues[p], p, s'.status, s'.prio) {
      assert Holds(s.queues[p], p, s.status, s.prio);
      PutHolds(s, e, st, p);
    }
  }

  lemma OffCpuKeepsPlaced(s: Sched)
    requires Placed(s) && s.cur.Some?
    ensures Placed(OffCpu(s))
  {
  }

  lemma OnCpuKeepsPlaced(s: Sched, e: Env)
    requires Placed(s) && s.cur.None? && e in s.status && s.status[e] == Unknown
    ensures Placed(OnCpu(s, e))
  {
    hide NoDup;
    var s' := OnCpu(s, e);
    forall p | p in s'.queues ensures Holds(s'.queues[p], p, s'.status, s'.prio) {
      assert Holds(s.queues[p], p, s.status, s.prio);
    }
  }

  lemma SetPrioKeepsPlaced(s: Sched, e: Env, p: nat)
    requires Placed(s) && e in s.status && s.status[e] != Ready && p < s.levels
    ensures Placed(s.(prio := s.prio[e := p]))
  {
    hide NoDup;
    var s' := s.(prio := s.prio[e := p]);
    forall pl | pl in s'.queues ensures Holds(s'.queues[pl], pl, s'.status, s'.prio) {
      assert Holds(s.queues[pl], pl, s.status, s.prio);
    }
  }

  lemma SetTicksKeepsPlaced(s: Sched, e: Env, n: nat)
    requires Placed(s) && e in s.status
    ensures Placed(s.(nTicks := s.nTicks[e := n]))
  {
  }

  // ---------------------------------------------------------------------------
  // Scheduler operations
  // ---------------------------------------------------------------------------

  function Q(s: Sched, pl: Place): seq<Env> {
    if pl in s.queues then s.queues[pl] else []
  }

  /** An env that is between queues and has a ready queue to go to. */
  predicate Insertable(s: Sched, e: Env) {
    e in s.prio && Level(s.prio[e]) in s.queues
  }

  /** sched_insert_ready: status READY and ticks reset. */
  function InsertReady(s: Sched, e: Env): Sched
    requires Insertable(s, e)
  {
    Put(s, e, Ready).(nTicks := s.nTicks[e := 0])
  }

  /** The lowest level from `i` on whose queue is not empty; `levels` when all are. */
  function LowestLevel(s: Sched, i: nat): (l: nat)
    requires i <= s.levels
    ensures i <= l <= s.levels
    ensures l < s.levels ==> Q(s, Level(l)) != []
    ensures forall k: nat | i <= k < l :: Q(s, Level(k)) == []
    decreases s.levels - i
  {
    if i == s.levels || Q(s, Level(i)) != [] then i else LowestLevel(s, i + 1)
  }

  /** dequeue: the tail leaves its queue. */
  function Dequeue(s: Sched, pl: Place): Sched
    requires Q(s, pl) != []
  {
    var q := Q(s, pl);
    s.(queues := s.queues[pl := q[..|q| - 1]], status := s.status[Oldest(q) := Unknown])
  }

  /** The scheduler's choice with the CPU free: the oldest env of the lowest non-empty level, or none. */
  function Dispatch(s: Sched): Sched {
    var l := LowestLevel(s, 0);
    if l == s.levels then s else OnCpu(Dequeue(s, Level(l)), Oldest(Q(s, Level(l))))
  }

  /** The running env gives up the CPU with status `st`, and the scheduler picks again. A READY env goes to the queue
      of its priority with its ticks kept (fos_scheduler_PRIRR); a blocked or exited one went to its queue before. */
  function Leave(s: Sched, st: Status): Sched
    requires s.cur.Some? && s.cur.value in s.prio
    requires PlaceOf(st, s.prio[s.cur.value]).Some? && PlaceOf(st, s.prio[s.cur.value]).value in s.queues
  {
    Dispatch(Put(OffCpu(s), s.cur.value, st))
  }

  /** The loop of wakeup_all and sched_run_all: `k` times, dequeue and insert ready. */
  function Drain(s: Sched, pl: Place, k: nat): Sched
    decreases k
  {
    if k == 0 || Q(s, pl) == [] || !Insertable(s, Oldest(Q(s, pl))) then s
    else Drain(InsertReady(Dequeue(s, pl), Oldest(Q(s, pl))), pl, k - 1)
  }

  /** sched_exit_all_ready_envs at one level: every env of `q` goes to the exit queue. */
  function ExitEach(s: Sched, pl: Place, q: seq<Env>): (r: Sched)
    ensures r.levels == s.levels
    decreases |q|
  {
    if q == [] || q[0] !in Q(s, pl) || q[0] !in s.prio || ExitQ !in s.queues then s
    else ExitEach(Put(Take(s, pl, q[0]), q[0], Exited), pl, q[1..])
  }

  function ExitLevels(s: Sched, i: nat): Sched
    requires i <= s.levels
    decreases s.levels - i
  {
    if i == s.levels then s
    else ExitLevels(ExitEach(s, Level(i), Q(s, Level(i))), i + 1)
  }

  // ---------------------------------------------------------------------------
  // The starvation sweep of the clock interrupt
  // ---------------------------------------------------------------------------

  /** One step of the sweep: promote an env that has waited more than `T` ticks, else count the tick (32-bit). */
  function Examine(s: Sched, e: Env, T: nat): Sched {
    if e !in s.prio || e !in s.nTicks || s.prio[e] == 0 then s
    else if s.nTicks[e] <= T then s.(nTicks := s.nTicks[e := (s.nTicks[e] + 1) % 0x1_0000_0000])
    else if e in Q(s, Level(s.prio[e])) && Level(s.prio[e] - 1) in s.queues then Promote(s, e)
    else s
  }

  /** From its own queue to the head of the one above, ticks reset. */
  function Promote(s: Sched, e: Env): Sched
    requires e in s.prio && s.prio[e] > 0 && e in Q(s, Level(s.prio[e])) && Level(s.prio[e] - 1) in s.queues
  {
    var s1 := Take(s, Level(s.prio[e]), e);
    InsertReady(s1.(prio := s1.prio[e := s1.prio[e] - 1]), e)
  }

  function SweepQueue(s: Sched, q: seq<Env>, T: nat): (r: Sched)
    ensures r.levels == s.levels
    decreases |q|
  {
    if q == [] then s else SweepQueue(Examine(s, q[0], T), q[1..], T)
  }

  /** The sweep from level `i` up. */
  function Sweep(s: Sched, i: nat, T: nat): Sched
    requires i <= s.levels
    decreases s.levels - i
  {
    if i == s.levels then s
    else Sweep(SweepQueue(s, Q(s, Level(i)), T), i + 1, T)
  }

  // ---------------------------------------------------------------------------
  // Every operation keeps every env in its place
  // ---------------------------------------------------------------------------

  lemma LastIndex(q: seq<Env>)
    requires NoDup(q) && q != []
    ensures IndexOf(q, Oldest(q)) == |q| - 1 && Remove(q, Oldest(q)) == q[..|q| - 1]
  {
  }

  lemma PlacedQueue(s: Sched, pl: Place)
    requires Placed(s) && pl in s.queues
    ensures Holds(s.queues[pl], pl, s.status, s.prio)
  {
  }

  lemma PlacedEnv(s: Sched, e: Env)
    requires Placed(s) && e in s.status
    ensures e in s.prio && e in s.nTicks && s.prio[e] < s.levels && Insertable(s, e)
    ensures PlaceOf(s.status[e], s.prio[e]).Some? ==>
              var pl := PlaceOf(s.status[e], s.prio[e]).value; pl in s.queues && e in s.queues[pl]
  {
  }

  /** The running env has a ready, an exit and (for an existing channel) a blocked queue to go to. */
  lemma CurrentPlaced(s: Sched)
    requires Placed(s) && s.cur.Some?
    ensures s.cur.value in s.status && s.status[s.cur.value] == Running && s.cur.value in s.prio
    ensures s.prio[s.cur.value] < s.levels && Level(s.prio[s.cur.value]) in s.queues && ExitQ in s.queues
  {
    var e := s.cur.value;
    assert e in s.prio;
  }

  /** A process is in one queue at most, and in none exactly when it is on the CPU. */
  lemma ExactlyOnePlace(s: Sched, e: Env)
    requires Settled(s) && e in s.status
    ensures forall p, q | p in s.queues && q in s.queues && e in s.queues[p] && e in s.queues[q] :: p == q
    ensures s.cur == Some(e) <==> forall p | p in s.queues :: e !in s.queues[p]
  {
  }

  lemma TakeLoosens(s: Sched, pl: Place, e: Env)
    requires Settled(s) && pl in s.queues && e in s.queues[pl]
    ensures Placed(Take(s, pl, e)) && LooseOnly(Take(s, pl, e), {e})
    ensures e in s.status && e in s.prio && PlaceOf(s.status[e], s.prio[e]) == Some(pl)
  {
    TakeKeepsPlaced(s, pl, e);
  }

  lemma DequeueLoosens(s: Sched, pl: Place)
    requires Settled(s) && Q(s, pl) != []
    ensures var e := Oldest(Q(s, pl));
            && Dequeue(s, pl) == Take(s, pl, e) && Placed(Dequeue(s, pl)) && LooseOnly(Dequeue(s, pl), {e})
            && e in s.status && e in s.prio && PlaceOf(s.status[e], s.prio[e]) == Some(pl)
  {
    hide Placed;
    PlacedQueue(s, pl);
    LastIndex(s.queues[pl]);
    TakeLoosens(s, pl, Oldest(s.queues[pl]));
  }

  lemma PutSettles(s: Sched, e: Env, st: Status)
    requires Placed(s) && LooseOnly(s, {e}) && e in s.status && s.status[e] == Unknown
    requires e in s.prio && PlaceOf(st, s.prio[e]).Some? && PlaceOf(st, s.prio[e]).value in s.queues
    ensures Settled(Put(s, e, st))
  {
    hide Placed;
    PutKeepsPlaced(s, e, st);
  }

  lemma InsertReadySettles(s: Sched, e: Env)
    requires Placed(s) && LooseOnly(s, {e}) && e in s.status && s.status[e] == Unknown && Insertable(s, e)
    ensures Settled(InsertReady(s, e))
  {
    hide Placed;
    PutSettles(s, e, Ready);
    SetTicksKeepsPlaced(Put(s, e, Ready), e, 0);
  }

  lemma DispatchSettles(s: Sched)
    requires Settled(s) && s.cur.None?
    ensures Settled(Dispatch(s))
  {
    hide Placed;
    var l := LowestLevel(s, 0);
    if l < s.levels {
      DequeueLoosens(s, Level(l));
      OnCpuKeepsPlaced(Dequeue(s, Level(l)), Oldest(Q(s, Level(l))));
    }
  }

  lemma LeaveSettles(s: Sched, st: Status)
    requires Settled(s) && s.cur.Some? && s.cur.value in s.prio
    requires PlaceOf(st, s.prio[s.cur.value]).Some? && PlaceOf(st, s.prio[s.cur.value]).value in s.queues
    ensures Settled(Leave(s, st))
  {
    hide Placed;
    OffCpuKeepsPlaced(s);
    PutSettles(OffCpu(s), s.cur.value, st);
    DispatchSettles(Put(OffCpu(s), s.cur.value, st));
  }

  lemma {:induction false} DrainSettles(s: Sched, pl: Place, k: nat)
    requires Settled(s)
    ensures Settled(Drain(s, pl, k)) && Drain(s, pl, k).cur == s.cur
    decreases k
  {
    hide Placed;
    if !(k == 0 || Q(s, pl) == [] || !Insertable(s, Oldest(Q(s, pl)))) {
      DequeueLoosens(s, pl);
      var s1, e := Dequeue(s, pl), Oldest(Q(s, pl));
      InsertReadySettles(s1, e);
      DrainSettles(InsertReady(s1, e), pl, k - 1);
    }
  }

  lemma {:induction false} ExitEachSettles(s: Sched, pl: Place, q: seq<Env>)
    requires Settled(s)
    ensures Settled(ExitEach(s, pl, q))
    decreases |q|
  {
    hide Placed;
    if !(q == [] || q[0] !in Q(s, pl) || q[0] !in s.prio || ExitQ !in s.queues) {
      TakeLoosens(s, pl, q[0]);
      PutSettles(Take(s, pl, q[0]), q[0], Exited);
      ExitEachSettles(Put(Take(s, pl, q[0]), q[0], Exited), pl, q[1..]);
    }
  }

  lemma {:induction false} ExitLevelsSettles(s: Sched, i: nat)
    requires Settled(s) && i <= s.levels
    ensures Settled(ExitLevels(s, i))
    decreases s.levels - i
  {
    hide Placed;
    if i < s.levels {
      ExitEachSettles(s, Level(i), Q(s, Level(i)));
      ExitLevelsSettles(ExitEach(s, Level(i), Q(s, Level(i))), i + 1);
    }
  }

  lemma PromoteSettles(s: Sched, e: Env)
    requires Settled(s) && e in s.status && e in s.prio && s.prio[e] > 0
    requires e in Q(s, Level(s.prio[e])) && Level(s.prio[e] - 1) in s.queues
    ensures Settled(Promote(s, e)) && Promote(s, e).cur == s.cur
  {
    hide Placed, Remove;
    PlacedEnv(s, e);
    TakeLoosens(s, Level(s.prio[e]), e);
    var s1 := Take(s, Level(s.prio[e]), e);
    SetPrioKeepsPlaced(s1, e, s1.prio[e] - 1);
    InsertReadySettles(s1.(prio := s1.prio[e := s1.prio[e] - 1]), e);
  }

  lemma ExamineSettles(s: Sched, e: Env, T: nat)
    requires Settled(s) && e in s.status && s.status[e] == Ready
    ensures Settled(Examine(s, e, T)) && Examine(s, e, T).cur == s.cur
    ensures Examine(s, e, T).status == s.status
  {
    hide Placed, Promote;
    PlacedEnv(s, e);
    if s.prio[e] > 0 {
      if s.nTicks[e] <= T {
        SetTicksKeepsPlaced(s, e, (s.nTicks[e] + 1) % 0x1_0000_0000);
      } else if Level(s.prio[e] - 1) in s.queues {
        PromoteSettles(s, e);
        PromoteStatus(s, e);
      }
    }
  }

  lemma PromoteStatus(s: Sched, e: Env)
    requires e in s.prio && s.prio[e] > 0 && e in Q(s, Level(s.prio[e])) && Level(s.prio[e] - 1) in s.queues
    requires e in s.status && s.status[e] == Ready
    ensures Promote(s, e).status == s.status
  {
  }

  lemma {:induction false} SweepQueueSettles(s: Sched, q: seq<Env>, T: nat)
    requires Settled(s) && forall e | e in q :: e in s.status && s.status[e] == Ready
    ensures Settled(SweepQueue(s, q, T)) && SweepQueue(s, q, T).cur == s.cur
    ensures SweepQueue(s, q, T).status == s.status
    decreases |q|
  {
    hide Placed;
    if q != [] {
      ExamineSettles(s, q[0], T);
      var s1 := Examine(s, q[0], T);
      SweepQueueSettles(s1, q[1..], T);
    }
  }

  lemma LevelIsReady(s: Sched, i: nat)
    requires Placed(s)
    ensures forall e | e in Q(s, Level(i)) :: e in s.status && e in s.prio && s.status[e] == Ready && s.prio[e] == i
  {
  }

  lemma {:induction false} SweepSettles(s: Sched, i: nat, T: nat)
    requires Settled(s) && i <= s.levels
    ensures Settled(Sweep(s, i, T)) && Sweep(s, i, T).cur == s.cur
    ensures Sweep(s, i, T).status == s.status
    decreases s.levels - i
  {
    hide Placed;
    if i < s.levels {
      LevelIsReady(s, i);
      SweepQueueSettles(s, Q(s, Level(i)), T);
      SweepSettles(SweepQueue(s, Q(s, Level(i)), T), i + 1, T);
    }
  }

  // ---------------------------------------------------------------------------
  // Events between scheduling points
  // ---------------------------------------------------------------------------

  datatype Event =
    | Create(env: Env, priority: nat)
    | RunEnv(env: Env)
    | RunAll
    | NewChannel(chan: Chan)
    | Tick
    | Yield
    | Sleep(chan: Chan)
    | WakeupOne(chan: Chan)
    | WakeupAll(chan: Chan)
    | ExitCurrent
    | ExitReady(env: Env)
    | ExitAllReady
    | SetPriority(env: Env, priority: nat)
    | Schedule

  ghost predicate Enabled(s: Sched, ev: Event) {
    match ev
    case Create(e, p) => e !in s.status && p < s.levels
    case RunEnv(e) => e in Q(s, NewQ)
    case NewChannel(c) => Channel(c) !in s.queues
    case Tick => s.cur.Some?
    case Yield => s.cur.Some?
    case Sleep(c) => s.cur.Some? && Channel(c) in s.queues
    case WakeupOne(c) => Channel(c) in s.queues
    case WakeupAll(c) => Channel(c) in s.queues
    case ExitCurrent => s.cur.Some?
    case ExitReady(e) => e in s.status && s.status[e] == Ready
    case SetPriority(e, p) => e in s.status && p < s.levels
    case Schedule => s.cur.None?
    case _ => true
  }

  /** env_set_priority: a ready env changes queues, any other just changes its priority. */
  ghost function Reprioritize(s: Sched, e: Env, p: nat): Sched
    requires Settled(s) && e in s.status && p < s.levels
  {
    PlacedEnv(s, e);
    if s.status[e] != Ready then s.(prio := s.prio[e := p])
    else InsertReady(Take(s, Level(s.prio[e]), e).(prio := s.prio[e := p]), e)
  }

  ghost function Apply(s: Sched, ev: Event, T: nat): Sched
    requires Settled(s) && Enabled(s, ev)
  {
    match ev
    case Create(e, p) =>
      Put(s.(status := s.status[e := Unknown], prio := s.prio[e := p], nTicks := s.nTicks[e := 0]), e, New)
    case RunEnv(e) => TakeLoosens(s, NewQ, e); PlacedEnv(s, e); InsertReady(Take(s, NewQ, e), e)
    case RunAll => Drain(s, NewQ, |Q(s, NewQ)|)
    case NewChannel(c) => s.(queues := s.queues[Channel(c) := []])
    case Tick => SweepSettles(s, 0, T); CurrentPlaced(Sweep(s, 0, T)); Leave(Sweep(s, 0, T), Ready)
    case Yield => CurrentPlaced(s); Leave(s, Ready)
    case Sleep(c) => CurrentPlaced(s); Leave(s, Blocked(c))
    case WakeupOne(c) => Drain(s, Channel(c), 1)
    case WakeupAll(c) => Drain(s, Channel(c), |Q(s, Channel(c))|)
    case ExitCurrent => CurrentPlaced(s); Leave(s, Exited)
    case ExitReady(e) => PlacedEnv(s, e); Put(Take(s, Level(s.prio[e]), e), e, Exited)
    case ExitAllReady => ExitLevels(s, 0)
    case SetPriority(e, p) => Reprioritize(s, e, p)
    case Schedule => Dispatch(s)
  }

  lemma CreateSettles(s: Sched, e: Env, p: nat)
    requires Settled(s) && e !in s.status && p < s.levels
    ensures Settled(Apply(s, Create(e, p), 0))
  {
    hide Placed;
    CreatePlaced(s, e, p);
    PutSettles(s.(status := s.status[e := Unknown], prio := s.prio[e := p], nTicks := s.nTicks[e := 0]), e, New);
  }

  lemma CreatePlaced(s: Sched, e: Env, p: nat)
    requires Settled(s) && e !in s.status && p < s.levels
    ensures var s1 := s.(status := s.status[e := Unknown], prio := s.prio[e := p], nTicks := s.nTicks[e := 0]);
            Placed(s1) && LooseOnly(s1, {e}) && NewQ in s1.queues
  {
    hide NoDup;
    var s1 := s.(status := s.status[e := Unknown], prio := s.prio[e := p], nTicks := s.nTicks[e := 0]);
    forall pl | pl in s1.queues ensures Holds(s1.queues[pl], pl, s1.status, s1.prio) {
      PlacedQueue(s, pl);
    }
  }

  lemma NewChannelSettles(s: Sched, c: Chan)
    requires Settled(s) && Channel(c) !in s.queues
    ensures Settled(s.(queues := s.queues[Channel(c) := []]))
  {
  }

  lemma ReprioritizeSettles(s: Sched, e: Env, p: nat)
    requires Settled(s) && e in s.status && p < s.levels
    ensures Settled(Reprioritize(s, e, p))
  {
    hide Placed, Remove;
    PlacedEnv(s, e);
    if s.status[e] != Ready {
      SetPrioKeepsPlaced(s, e, p);
    } else {
      TakeLoosens(s, Level(s.prio[e]), e);
      var s1 := Take(s, Level(s.prio[e]), e);
      SetPrioKeepsPlaced(s1, e, p);
      var s2 := s1.(prio := s1.prio[e := p]);
      PlacedEnv(s2, e);
      InsertReadySettles(s2, e);
    }
  }

  /** The placement invariant holds at every scheduling point of every run. */
  lemma ApplySettles(s: Sched, ev: Event, T: nat)
    requires Settled(s) && Enabled(s, ev)
    ensures Settled(Apply(s, ev, T))
  {
    hide Placed, Remove, Promote, Sweep, Drain, ExitLevels, Dispatch, Leave;
    match ev
    case Create(e, p) => CreateSettles(s, e, p);
    case RunEnv(e) => TakeLoosens(s, NewQ, e); PlacedEnv(s, e); InsertReadySettles(Take(s, NewQ, e), e);
    case RunAll => DrainSettles(s, NewQ, |Q(s, NewQ)|);
    case NewChannel(c) => NewChannelSettles(s, c);
    case Tick => SweepSettles(s, 0, T); CurrentPlaced(Sweep(s, 0, T)); LeaveSettles(Sweep(s, 0, T), Ready);
    case Yield => CurrentPlaced(s); LeaveSettles(s, Ready);
    case Sleep(c) => CurrentPlaced(s); LeaveSettles(s, Blocked(c));
    case WakeupOne(c) => DrainSettles(s, Channel(c), 1);
    case WakeupAll(c) => DrainSettles(s, Channel(c), |Q(s, Channel(c))|);
    case ExitCurrent => CurrentPlaced(s); LeaveSettles(s, Exited);
    case ExitReady(e) =>
      PlacedEnv(s, e);
      TakeLoosens(s, Level(s.prio[e]), e);
      PutSettles(Take(s, Level(s.prio[e]), e), e, Exited);
    case ExitAllReady => ExitLevelsSettles(s, 0);
    case SetPriority(e, p) => ReprioritizeSettles(s, e, p);
    case Schedule => DispatchSettles(s);
  }

  // ---------------------------------------------------------------------------
  // Runs
  // ---------------------------------------------------------------------------

  ghost predicate Step(s: Sched, ev: Event, t: Sched, T: nat) {
    Enabled(s, ev) && (Settled(s) ==> t == Apply(s, ev, T))
  }

  /** The states of a run, one more than its events. */
  ghost predicate Run(ss: seq<Sched>, evs: seq<Event>, T: nat) {
    && |ss| == |evs| + 1
    && Settled(ss[0])
    && forall i | 0 <= i < |evs| :: Step(ss[i], evs[i], ss[i + 1], T)
  }

  /** Placement over whole runs. */
  lemma {:induction false} RunSettles(ss: seq<Sched>, evs: seq<Event>, T: nat)
    requires Run(ss, evs, T)
    ensures forall i | 0 <= i < |ss| :: Settled(ss[i])
    decreases |evs|
  {
    hide Settled, Apply, Enabled;
    if evs != [] {
      assert Step(ss[0], evs[0], ss[1], T);
      ApplySettles(ss[0], evs[0], T);
      var rest := ss[1..];
      forall i | 0 <= i < |evs[1..]| ensures Step(rest[i], evs[1..][i], rest[i + 1], T) {
        assert Step(ss[i + 1], evs[i + 1], ss[i + 2], T);
      }
      RunSettles(rest, evs[1..], T);
      forall i | 0 <= i < |ss| ensures Settled(ss[i]) {
        assert i > 0 ==> ss[i] == rest[i - 1];
      }
    }
  }

  /** Whoever is dispatched is ready at the lowest priority number of all ready envs, and nobody in its queue has been
      there longer; the CPU stays idle only when no env is ready. */
  lemma DispatchChoice(s: Sched)
    requires Settled(s) && s.cur.None?
    ensures Dispatch(s).cur.None? <==> forall e | e in s.status :: s.status[e] != Ready
    ensures Dispatch(s).cur.Some? ==>
              var e := Dispatch(s).cur.value;
              && e in s.status && s.status[e] == Ready && e in s.prio
              && (forall f | f in s.status && f in s.prio && s.status[f] == Ready :: s.prio[e] <= s.prio[f])
              && Level(s.prio[e]) in s.queues && s.queues[Level(s.prio[e])] != []
              && e == Oldest(s.queues[Level(s.prio[e])])
  {
    hide Placed;
    var l := LowestLevel(s, 0);
    forall f | f in s.status && s.status[f] == Ready ensures f in s.prio && s.prio[f] < s.levels && l <= s.prio[f] {
      PlacedEnv(s, f);
    }
    if l < s.levels {
      LevelIsReady(s, l);
      var e := Oldest(Q(s, Level(l)));
      assert e in Q(s, Level(l));
    }
  }
}
