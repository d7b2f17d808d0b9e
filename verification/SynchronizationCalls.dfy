/** The synchronisation machine seen by its callers: what a call has done by the time it returns, and mutual exclusion
    from the return of an acquire to the call of the release. */
module SynchronizationCalls {
  import opened Common
  import opened Synchronization

  // ---------------------------------------------------------------------------
  // A call in progress
  // ---------------------------------------------------------------------------

  /** Where a process is, apart from being interrupted there. */
  function Place(pc: Pc): Pc {
    match pc
    case YieldLockQ(b) => Place(b)
    case YieldReady(b) => Place(b)
    case YieldSwitch(b) => Place(b)
    case YieldUnlockQ(b) => Place(b)
    case _ => pc
  }

  /** Inside the call, before it has taken, raised or freed the object. */
  predicate Before(pc: Pc, op: Op, o: Obj) {
    match pc
    case Enter(p, x) => p == op && x == o
    case Test(p, x) => p == op && x == o && Sleeps(op)
    case Take(p, x) => p == op && x == o && Sleeps(op)
    case SleepLockQ(p, x) => p == op && x == o && Sleeps(op)
    case SleepUnlock(p, x) => p == op && x == o && Sleeps(op)
    case SleepBlock(p, x) => p == op && x == o && Sleeps(op)
    case SleepSwitch(p, x) => p == op && x == o && Sleeps(op)
    case SleepRelock(p, x) => p == op && x == o && Sleeps(op)
    case SleepUnlockQ(p, x) => p == op && x == o && Sleeps(op)
    case Raise(x) => op == Signal && x == o
    case Check(p, x) => p == op == Release && x == o
    case WakeLockQ(p, x) => p == op == Release && x == o
    case WakeLoop(p, x, _) => p == op == Release && x == o
    case WakeUnlockQ(p, x) => p == op == Release && x == o
    case Free(x) => op == Release && x == o
    case _ => false
  }

  /** Inside the call, after that. */
  predicate Behind(pc: Pc, op: Op, o: Obj) {
    match pc
    case Check(p, x) => p == op == Signal && x == o
    case WakeLockQ(p, x) => p == op == Signal && x == o
    case WakeLoop(p, x, _) => p == op == Signal && x == o
    case WakeUnlockQ(p, x) => p == op == Signal && x == o
    case Leave(p, x) => p == op && x == o
    case _ => false
  }

  /** What the call is for has been done. */
  ghost predicate Done(op: Op, ob: Object, p: Pid) {
    match op
    case Acquire => ob.Lock? && p in ob.inside
    case Release => ob.Lock? && p !in ob.inside
    case _ => ob.Sem?
  }

  /** Process `p` is inside a call of `op` on `o` and has changed the object `n` times, 0 or 1. */
  ghost predicate Doing(w: World, p: Pid, op: Op, o: Obj, n: nat) {
    && p in w.procs && o in w.objs && Fits(op, w.objs[o])
    && var pc := Place(w.procs[p].pc);
    if n == 0 then Before(pc, op, o) else n == 1 && Behind(pc, op, o) && Done(op, w.objs[o], p)
  }

  /** This step of `p` changes object `x`: it takes, raises or frees it. */
  predicate Changes(w: World, a: Action, p: Pid, x: Obj) {
    && a == Kernel && w.cur == Some(p) && p in w.procs
    && match w.procs[p].pc
       case Take(_, y) => y == x
       case Raise(y) => y == x
       case Free(y) => y == x
       case _ => false
  }

  // ---------------------------------------------------------------------------
  // Steps
  // ---------------------------------------------------------------------------

  /** Where the kernel code goes on. */
  predicate Follows(pc: Pc, pc': Pc) {
    match pc
    case Enter(op, o) => pc' == if op == Signal then Raise(o) else if op == Release then Check(op, o) else Test(op, o)
    case Test(op, o) => pc' == Take(op, o) || pc' == SleepLockQ(op, o)
    case Take(op, o) => pc' == Leave(op, o)
    case SleepLockQ(op, o) => pc' == SleepUnlock(op, o)
    case SleepUnlock(op, o) => pc' == SleepBlock(op, o)
    case SleepBlock(op, o) => pc' == SleepSwitch(op, o)
    case SleepSwitch(op, o) => pc' == SleepRelock(op, o)
    case SleepRelock(op, o) => pc' == SleepUnlockQ(op, o)
    case SleepUnlockQ(op, o) => pc' == Test(op, o)
    case Raise(o) => pc' == Check(Signal, o)
    case Check(op, o) => pc' == WakeLockQ(op, o) || pc' == AfterWake(op, o)
    case WakeLockQ(op, o) => pc'.WakeLoop? && pc'.op == op && pc'.o == o
    case WakeLoop(op, o, _) => (pc'.WakeLoop? && pc'.op == op && pc'.o == o) || pc' == WakeUnlockQ(op, o)
    case WakeUnlockQ(op, o) => pc' == AfterWake(op, o)
    case Free(o) => pc' == Leave(Release, o)
    case Leave(_, _) => pc' == User
    case _ => Place(pc') == Place(pc)
  }

  /** The step takes the process on and leaves the others where they are. */
  ghost predicate TakesOn(w: World, w': World, p: Pid) {
    && p in w.procs && p in w'.procs && Follows(w.procs[p].pc, w'.procs[p].pc)
    && forall q | q in w.procs && q != p :: q in w'.procs && w'.procs[q].pc == w.procs[q].pc
  }

  lemma SleepTakesOn(w: World, p: Pid)
    requires w.cur == Some(p) && p in w.procs && Exec(w).Some?
    requires var pc := w.procs[p].pc;
             || pc.Test? || pc.SleepLockQ? || pc.SleepUnlock? || pc.SleepBlock? || pc.SleepSwitch? || pc.SleepRelock?
             || pc.SleepUnlockQ?
    ensures TakesOn(w, Exec(w).value, p)
  {
    hide AcquireLock, ReleaseLock, Available;
  }

  lemma ChangeTakesOn(w: World, p: Pid)
    requires w.cur == Some(p) && p in w.procs && Exec(w).Some?
    requires var pc := w.procs[p].pc; pc.Enter? || pc.Take? || pc.Raise? || pc.Free? || pc.Leave?
    ensures TakesOn(w, Exec(w).value, p)
  {
    hide AcquireLock, ReleaseLock, Taken, Raised, Freed;
  }

  lemma WakeTakesOn(w: World, p: Pid)
    requires w.cur == Some(p) && p in w.procs && Exec(w).Some?
    requires var pc := w.procs[p].pc; pc.Check? || pc.WakeLockQ? || pc.WakeUnlockQ?
    ensures TakesOn(w, Exec(w).value, p)
  {
    hide AcquireLock, ReleaseLock;
  }

  lemma WakingTakesOn(w: World, p: Pid)
    requires w.cur == Some(p) && p in w.procs && Exec(w).Some? && w.procs[p].pc.WakeLoop?
    ensures TakesOn(w, Exec(w).value, p)
  {
  }

  lemma YieldTakesOn(w: World, p: Pid)
    requires w.cur == Some(p) && p in w.procs && Exec(w).Some?
    requires var pc := w.procs[p].pc; pc.YieldLockQ? || pc.YieldReady? || pc.YieldSwitch? || pc.YieldUnlockQ?
    ensures TakesOn(w, Exec(w).value, p)
  {
    hide AcquireLock, ReleaseLock;
  }

  /** Starting and exiting are no part of a call. */
  predicate Outside(pc: Pc) {
    pc.Start? || pc.ExitLockQ? || pc.ExitMark? || pc.ExitSwitch?
  }

  lemma OutsideStays(w: World, p: Pid)
    requires w.cur == Some(p) && p in w.procs && Exec(w).Some? && Outside(w.procs[p].pc)
    ensures var w' := Exec(w).value;
            && p in w'.procs && (w'.procs[p].pc == User || Outside(w'.procs[p].pc) || w'.procs[p].pc == Gone)
            && forall q | q in w.procs && q != p :: q in w'.procs && w'.procs[q].pc == w.procs[q].pc
  {
    hide AcquireLock, ReleaseLock;
  }

  lemma KernelTakesOn(w: World, p: Pid)
    requires w.cur == Some(p) && p in w.procs && Exec(w).Some?
    ensures Outside(w.procs[p].pc) || TakesOn(w, Exec(w).value, p)
    ensures forall q | q in w.procs && q != p :: q in Exec(w).value.procs && Exec(w).value.procs[q].pc == w.procs[q].pc
  {
    hide Follows;
    var pc := w.procs[p].pc;
    if Outside(pc) {
      hide Exec;
      OutsideStays(w, p);
    } else if pc.Enter? || pc.Take? || pc.Raise? || pc.Free? || pc.Leave? {
      hide Exec;
      ChangeTakesOn(w, p);
    } else if pc.Check? || pc.WakeLockQ? || pc.WakeUnlockQ? {
      hide Exec;
      WakeTakesOn(w, p);
    } else if pc.WakeLoop? {
      hide Exec;
      WakingTakesOn(w, p);
    } else if pc.YieldLockQ? || pc.YieldReady? || pc.YieldSwitch? || pc.YieldUnlockQ? {
      hide Exec;
      YieldTakesOn(w, p);
    } else if pc != User && pc != Gone {
      hide Exec;
      SleepTakesOn(w, p);
    }
  }

  /** Only the running process moves from its place. */
  lemma OthersStay(w: World, a: Action, w': World, p: Pid)
    requires Inv(w) && Next(w, a, w') && p in w.procs && w.cur != Some(p)
    ensures p in w'.procs && w'.procs[p].pc == w.procs[p].pc
  {
    hide Inv, Exec, AcquireLock, ReleaseLock;
    if a == Kernel {
      KernelTakesOn(w, w.cur.value);
    }
  }

  /** And only it changes its own standing with an object. */
  lemma OthersKeep(w: World, a: Action, w': World, p: Pid, op: Op, o: Obj)
    requires Inv(w) && Next(w, a, w') && w.cur != Some(p) && o in w.objs && Fits(op, w.objs[o])
    ensures o in w'.objs && Fits(op, w'.objs[o]) && (Done(op, w.objs[o], p) ==> Done(op, w'.objs[o], p))
  {
    hide Inv, Exec, AcquireLock, ReleaseLock;
    if a == Kernel {
      RunningFacts(w);
      ObjectsAfter(w);
    }
  }

  /** From place to place inside the call: the object is changed once, on the way from before to behind. */
  lemma CallGoesOn(pc: Pc, pc': Pc, op: Op, o: Obj)
    requires Follows(pc, pc') && (Before(Place(pc), op, o) || Behind(Place(pc), op, o))
    ensures var changes := pc.Take? || pc.Raise? || pc.Free?;
            && (changes ==> Before(Place(pc), op, o) && pc.o == o)
            && (pc' == User <==> Behind(Place(pc), op, o) && pc.Leave?)
            && (pc' != User ==> if Behind(Place(pc), op, o) || changes then Behind(Place(pc'), op, o)
                                else Before(Place(pc'), op, o))
  {
  }

  lemma NotBoth(pc: Pc, op: Op, o: Obj)
    ensures !(Before(pc, op, o) && Behind(pc, op, o))
    ensures Before(pc, op, o) || Behind(pc, op, o) ==>
              !pc.Start? && !pc.ExitLockQ? && !pc.ExitMark? && !pc.ExitSwitch? && pc != User
  {
  }

  lemma InsideCall(pc: Pc, op: Op, o: Obj)
    requires Before(Place(pc), op, o) || Behind(Place(pc), op, o)
    ensures !pc.Start? && !pc.ExitLockQ? && !pc.ExitMark? && !pc.ExitSwitch? && pc != User
  {
  }

  /** A step of the process itself in the kernel. */
  lemma KernelDoes(w: World, w': World, p: Pid, op: Op, o: Obj, n: nat)
    requires Inv(w) && w.cur == Some(p) && Doing(w, p, op, o, n) && Exec(w) == Some(w')
    ensures p in w'.procs
    ensures w'.procs[p].pc == User ==> n == 1 && o in w'.objs && Done(op, w'.objs[o], p)
    ensures w'.procs[p].pc != User ==> Doing(w', p, op, o, if Changes(w, Kernel, p, o) then n + 1 else n)
    ensures Changes(w, Kernel, p, o) ==> n == 0
    ensures forall x | x != o :: !Changes(w, Kernel, p, x)
  {
    hide Inv, Exec, Before, Behind, Follows, Place;
    var pc := w.procs[p].pc;
    InsideCall(pc, op, o);
    KernelTakesOn(w, p);
    CallGoesOn(pc, w'.procs[p].pc, op, o);
    NotBoth(Place(pc), op, o);
    NotBoth(Place(w'.procs[p].pc), op, o);
    if pc.Take? || pc.Raise? || pc.Free? {
      OpOfChange(pc, op, o);
    }
    ObjectsAfter(w);
  }

  /** Which operation makes which change. */
  lemma OpOfChange(pc: Pc, op: Op, o: Obj)
    requires (pc.Take? || pc.Raise? || pc.Free?) && Before(Place(pc), op, o)
    ensures if pc.Take? then Sleeps(op) && pc.op == op else if pc.Raise? then op == Signal else op == Release
  {
  }

  /** This step of `p` is the one that does what `op` on `x` is for. */
  predicate Effects(w: World, a: Action, p: Pid, op: Op, x: Obj) {
    w.cur == Some(p) &&
    match op
    case Wait => Completes(w, a, x)
    case Signal => Signals(w, a, x)
    case Acquire => a == Kernel && RunsAt(w, Take(Acquire, x))
    case Release => a == Kernel && RunsAt(w, Free(x))
  }

  lemma ChangeIsEffect(w: World, a: Action, p: Pid, op: Op, o: Obj, n: nat)
    requires Doing(w, p, op, o, n) && (w.cur == Some(p) && a == Kernel ==> Changes(w, a, p, o) ==> n == 0)
    requires forall x | x != o :: !Changes(w, a, p, x)
    ensures forall y, x :: Effects(w, a, p, y, x) <==> Changes(w, a, p, o) && y == op && x == o
  {
    hide Behind;
    forall y, x ensures Effects(w, a, p, y, x) <==> Changes(w, a, p, o) && y == op && x == o {
      if Changes(w, a, p, o) {
        OpOfChange(w.procs[p].pc, op, o);
      }
      assert Effects(w, a, p, y, x) ==> Changes(w, a, p, x);
    }
  }

  /** Any step, while the call is in progress. */
  lemma StepDoes(w: World, a: Action, w': World, p: Pid, op: Op, o: Obj, n: nat)
    requires Inv(w) && Next(w, a, w') && Doing(w, p, op, o, n)
    ensures p in w'.procs
    ensures w'.procs[p].pc == User ==> n == 1 && o in w'.objs && Done(op, w'.objs[o], p)
    ensures w'.procs[p].pc != User ==> Doing(w', p, op, o, if Changes(w, a, p, o) then n + 1 else n)
    ensures Changes(w, a, p, o) ==> n == 0 && w'.procs[p].pc != User
    ensures forall y, x :: Effects(w, a, p, y, x) <==> Changes(w, a, p, o) && y == op && x == o
  {
    hide Inv, Exec, Before, Behind, Effects;
    InsideCall(w.procs[p].pc, op, o);
    if w.cur != Some(p) {
      OthersStay(w, a, w', p);
      OthersKeep(w, a, w', p, op, o);
      InsideCall(w'.procs[p].pc, op, o);
    } else if a == Kernel {
      KernelDoes(w, w', p, op, o, n);
    } else {
      assert a == Interrupt;
    }
    ChangeIsEffect(w, a, p, op, o, n);
  }

  // ---------------------------------------------------------------------------
  // Calls and returns in runs
  // ---------------------------------------------------------------------------

  /** How often `p` has done what `op` on `x` is for, in steps `i` to `k`. */
  ghost function EffectsBy(ws: seq<World>, acts: seq<Action>, i: nat, k: nat, p: Pid, op: Op, x: Obj): nat
    requires i <= k <= |acts| <= |ws|
    decreases k
  {
    if i == k then 0
    else EffectsBy(ws, acts, i, k - 1, p, op, x) + if Effects(ws[k - 1], acts[k - 1], p, op, x) then 1 else 0
  }

  /** Step `i` is a call by `p`, which is still inside at `k`. */
  ghost predicate Calls(ws: seq<World>, acts: seq<Action>, i: nat, k: nat, p: Pid) {
    && |acts| < |ws| && i < k <= |acts| && acts[i].Call? && ws[i].cur == Some(p)
    && forall m | i < m < k :: p in ws[m].procs ==> ws[m].procs[p].pc != User
  }

  /** Step `i` is a call by `p` that returns to user mode at `j`. */
  ghost predicate Returns(ws: seq<World>, acts: seq<Action>, i: nat, j: nat, p: Pid) {
    Calls(ws, acts, i, j, p) && p in ws[j].procs && ws[j].procs[p].pc == User
  }

  lemma CallStarts(w: World, a: Action, w': World, p: Pid)
    requires Next(w, a, w') && a.Call? && w.cur == Some(p)
    ensures Doing(w', p, a.op, a.o, 0) && forall y, x :: !Effects(w, a, p, y, x)
  {
  }

  lemma {:induction false} CallInProgress(ws: seq<World>, acts: seq<Action>, i: nat, k: nat, p: Pid)
    requires Run(ws, acts) && Calls(ws, acts, i, k, p) && (p in ws[k].procs ==> ws[k].procs[p].pc != User)
    ensures Doing(ws[k], p, acts[i].op, acts[i].o, EffectsBy(ws, acts, i, k, p, acts[i].op, acts[i].o))
    ensures forall y, x | y != acts[i].op || x != acts[i].o :: EffectsBy(ws, acts, i, k, p, y, x) == 0
    decreases k
  {
    hide Inv, Init, Next, Doing, Effects;
    if k == i + 1 {
      assert Next(ws[i], acts[i], ws[i + 1]);
      CallStarts(ws[i], acts[i], ws[i + 1], p);
      assert forall y, x :: EffectsBy(ws, acts, i, i, p, y, x) == 0;
    } else {
      CallInProgress(ws, acts, i, k - 1, p);
      RunInv(ws, acts, k - 1);
      assert Next(ws[k - 1], acts[k - 1], ws[k - 1 + 1]);
      StepDoes(ws[k - 1], acts[k - 1], ws[k], p, acts[i].op, acts[i].o,
               EffectsBy(ws, acts, i, k - 1, p, acts[i].op, acts[i].o));
    }
  }

  /** What a call has done when it returns, in every run: an acquire has the lock, a release has given it up, a wait has
      completed once and a signal has raised the count once, all on the object of the call and nothing else. */
  lemma CallReturns(ws: seq<World>, acts: seq<Action>, i: nat, j: nat, p: Pid)
    requires Run(ws, acts) && Returns(ws, acts, i, j, p)
    ensures var o := acts[i].o;
            && o in ws[j].objs && Fits(acts[i].op, ws[j].objs[o])
            && (acts[i].op == Acquire ==> p in ws[j].objs[o].inside)
            && (acts[i].op == Release ==> p !in ws[j].objs[o].inside)
    ensures forall y, x :: EffectsBy(ws, acts, i, j, p, y, x) == if y == acts[i].op && x == acts[i].o then 1 else 0
  {
    hide Inv, Init, Next, Effects, Before, Behind;
    assert Next(ws[j - 1], acts[j - 1], ws[j - 1 + 1]);
    if j == i + 1 {
      CallStarts(ws[i], acts[i], ws[i + 1], p);
      InsideCall(ws[j].procs[p].pc, acts[i].op, acts[i].o);
    } else {
      CallInProgress(ws, acts, i, j - 1, p);
      RunInv(ws, acts, j - 1);
      StepDoes(ws[j - 1], acts[j - 1], ws[j], p, acts[i].op, acts[i].o,
               EffectsBy(ws, acts, i, j - 1, p, acts[i].op, acts[i].o));
    }
  }

  // ---------------------------------------------------------------------------
  // Mutual exclusion between callers
  // ---------------------------------------------------------------------------

  /** `p` has the lock and is not about to give it up. */
  ghost predicate Owns(w: World, p: Pid, o: Obj) {
    && p in w.procs && o in w.objs && w.objs[o].Lock? && p in w.objs[o].inside
    && !Before(Place(w.procs[p].pc), Release, o)
  }

  predicate CallsRelease(w: World, a: Action, p: Pid, o: Obj) {
    a.Call? && a.op == Release && a.o == o && w.cur == Some(p)
  }

  lemma NoWayIn(pc: Pc, pc': Pc, o: Obj)
    requires Follows(pc, pc') && !Before(Place(pc), Release, o) && (pc.Check? || pc.WakeUnlockQ? ==> !Sleeps(pc.op))
    ensures !Before(Place(pc'), Release, o) && !(pc.Free? && pc.o == o)
  {
  }

  lemma WakersDoNotSleep(w: World, p: Pid)
    requires Inv(w) && p in w.procs
    ensures w.procs[p].pc.Check? || w.procs[p].pc.WakeUnlockQ? ==> !Sleeps(w.procs[p].pc.op)
  {
    hide CpuOk, QueuesOk, ObjectsOk, WakeOk;
    ProcOk(w, p);
  }

  lemma OwnsOn(w: World, a: Action, w': World, p: Pid, o: Obj)
    requires Inv(w) && Next(w, a, w') && Owns(w, p, o) && !CallsRelease(w, a, p, o)
    ensures Owns(w', p, o)
  {
    hide Inv, Exec, Follows, AcquireLock, ReleaseLock;
    if w.cur != Some(p) {
      OthersStay(w, a, w', p);
      OthersKeep(w, a, w', p, Acquire, o);
    } else if a == Kernel {
      KernelTakesOn(w, p);
      ObjectsAfter(w);
      var pc := w.procs[p].pc;
      if Outside(pc) {
        OutsideStays(w, p);
      } else {
        WakersDoNotSleep(w, p);
        NoWayIn(pc, w'.procs[p].pc, o);
      }
    }
  }

  /** At `k`, process `p` is between the return at `j` of the acquire it called in step `i` and the call of a release. */
  ghost predicate HeldSince(ws: seq<World>, acts: seq<Action>, p: Pid, o: Obj, i: nat, j: nat, k: nat) {
    && Returns(ws, acts, i, j, p) && acts[i].op == Acquire && acts[i].o == o && j <= k < |ws| <= |acts| + 1
    && forall m | j <= m < k :: !CallsRelease(ws[m], acts[m], p, o)
  }

  lemma {:induction false} HolderOwns(ws: seq<World>, acts: seq<Action>, p: Pid, o: Obj, i: nat, j: nat, k: nat)
    requires Run(ws, acts) && HeldSince(ws, acts, p, o, i, j, k)
    ensures Owns(ws[k], p, o)
    decreases k
  {
    hide Inv, Init, Next, Returns;
    if k == j {
      CallReturns(ws, acts, i, j, p);
      AtUser(ws, acts, i, j, p);
    } else {
      HolderOwns(ws, acts, p, o, i, j, k - 1);
      RunInv(ws, acts, k - 1);
      assert Next(ws[k - 1], acts[k - 1], ws[k - 1 + 1]);
      OwnsOn(ws[k - 1], acts[k - 1], ws[k], p, o);
    }
  }

  lemma AtUser(ws: seq<World>, acts: seq<Action>, i: nat, j: nat, p: Pid)
    requires Returns(ws, acts, i, j, p)
    ensures p in ws[j].procs && ws[j].procs[p].pc == User && acts[i].Call?
  {
  }

  /** No two processes are between the return of acquire_sleeplock and the call of release_sleeplock on the same lock. */
  lemma CallersExclude(ws: seq<World>, acts: seq<Action>, k: nat, o: Obj, p: Pid, i1: nat, j1: nat, q: Pid, i2: nat, j2: nat)
    requires Run(ws, acts) && HeldSince(ws, acts, p, o, i1, j1, k) && HeldSince(ws, acts, q, o, i2, j2, k)
    ensures p == q
  {
    assert k < |ws|;
    hide Run, HeldSince;
    HolderOwns(ws, acts, p, o, i1, j1, k);
    HolderOwns(ws, acts, q, o, i2, j2, k);
    RunMutualExclusion(ws, acts, k, o, p, q);
  }
}
