/** Sleep and wakeup on one CPU: kernel semaphores (kern/conc/ksemaphore.c), sleep locks (kern/conc/sleeplock.c),
    channels (kern/conc/channel.c), yield, sched and exit (kern/proc/user_environment.c), the spin locks
    (kern/conc/kspinlock.c) and the interrupt nesting (kern/cpu/cpu.c) below them. A machine of small steps with any
    number of processes, semaphores and locks; a clock interrupt may come wherever interrupts are on. */
module Synchronization {
  import opened Common

  type Pid = int
  type Obj = int

  // ---------------------------------------------------------------------------
  // Interrupt nesting and spin locks
  // ---------------------------------------------------------------------------

  /** struct cpu: nesting depth, the flag saved at the outermost pushcli, and the interrupt flag itself. */
  datatype Cpu = Cpu(ncli: int, intena: bool, iflag: bool)

  function PushCli(c: Cpu): Cpu {
    Cpu(c.ncli + 1, if c.ncli == 0 then c.iflag else c.intena, false)
  }

  /** None is a panic. */
  function PopCli(c: Cpu): Option<Cpu> {
    if c.iflag || c.ncli - 1 < 0 then None
    else Some(Cpu(c.ncli - 1, c.intena, c.ncli == 1 && c.intena))
  }

  /** holding_kspinlock looks at the lock between a pushcli and a popcli. */
  function Holding(c: Cpu): Option<Cpu> {
    PopCli(PushCli(c))
  }

  /** acquire_kspinlock on the only CPU: a lock that is taken is held by this CPU, which panics. */
  function AcquireLock(c: Cpu, held: bool): Option<Cpu> {
    match Holding(c)
    case None => None
    case Some(c1) => if held then None else Some(PushCli(c1))
  }

  function ReleaseLock(c: Cpu, held: bool): Option<Cpu> {
    match Holding(c)
    case None => None
    case Some(c1) => if held then PopCli(c1) else None
  }

  /** Interrupts are off while nested, and the flag that the outermost popcli restores is `base`. */
  ghost predicate Nested(c: Cpu, depth: nat, base: bool) {
    c.ncli == depth && if depth == 0 then c.iflag == base else !c.iflag && c.intena == base
  }

  // ---------------------------------------------------------------------------
  // Processes and objects
  // ---------------------------------------------------------------------------

  datatype Op = Wait | Signal | Acquire | Release

  /** Where a process is. `back` is where it goes on after a yield: the place a clock interrupt hit, or user mode. */
  datatype Pc =
    | User
    | Start
    | Enter(op: Op, o: Obj)
    | Test(op: Op, o: Obj)
    | Take(op: Op, o: Obj)
    | SleepLockQ(op: Op, o: Obj)
    | SleepUnlock(op: Op, o: Obj)
    | SleepBlock(op: Op, o: Obj)
    | SleepSwitch(op: Op, o: Obj)
    | SleepRelock(op: Op, o: Obj)
    | SleepUnlockQ(op: Op, o: Obj)
    | Raise(o: Obj)
    | Check(op: Op, o: Obj)
    | WakeLockQ(op: Op, o: Obj)
    | WakeLoop(op: Op, o: Obj, left: nat)
    | WakeUnlockQ(op: Op, o: Obj)
    | Free(o: Obj)
    | Leave(op: Op, o: Obj)
    | YieldLockQ(back: Pc)
    | YieldReady(back: Pc)
    | YieldSwitch(back: Pc)
    | YieldUnlockQ(back: Pc)
    | ExitLockQ
    | ExitMark
    | ExitSwitch
    | Gone

  datatype Status = Ready | Running | Blocked | Exited

  /** `base` is the interrupt flag this process runs with when it holds nothing; `intena` is sched's saved copy. */
  datatype Proc = Proc(pc: Pc, status: Status, base: bool, intena: bool)

  /** A semaphore; a sleep lock with the processes that are between taking and freeing it. */
  datatype Object =
    | Sem(count: int)
    | Lock(locked: bool, inside: set<Pid>)

  /** `guards` are the objects whose spin lock is taken; queues run from head to tail, the tail being the oldest. */
  datatype World = World(
    cpu: Cpu, qlock: bool, guards: set<Obj>, cur: Option<Pid>,
    procs: map<Pid, Proc>, objs: map<Obj, Object>, queues: map<Obj, seq<Pid>>)

  predicate Fits(op: Op, ob: Object) {
    (op == Wait || op == Signal) <==> ob.Sem?
  }

  /** The loop conditions of wait_ksemaphore and acquire_sleeplock say to sleep when this is false. */
  predicate Available(ob: Object) {
    if ob.Sem? then ob.count > 0 else !ob.locked
  }

  // ---------------------------------------------------------------------------
  // Steps of the running process
  // ---------------------------------------------------------------------------

  /** The running process goes to `pc` with the CPU and the locks as given. */
  function Go(w: World, c: Cpu, qlock: bool, guards: set<Obj>, pc: Pc): World
    requires w.cur.Some? && w.cur.value in w.procs
  {
    w.(cpu := c, qlock := qlock, guards := guards, procs := w.procs[w.cur.value := w.procs[w.cur.value].(pc := pc)])
  }

  function At(w: World, pc: Pc): World
    requires w.cur.Some? && w.cur.value in w.procs
  {
    Go(w, w.cpu, w.qlock, w.guards, pc)
  }

  function LockQ(w: World, pc: Pc): Option<World>
    requires w.cur.Some? && w.cur.value in w.procs
  {
    match AcquireLock(w.cpu, w.qlock)
    case None => None
    case Some(c) => Some(Go(w, c, true, w.guards, pc))
  }

  function UnlockQ(w: World, pc: Pc): Option<World>
    requires w.cur.Some? && w.cur.value in w.procs
  {
    match ReleaseLock(w.cpu, w.qlock)
    case None => None
    case Some(c) => Some(Go(w, c, false, w.guards, pc))
  }

  function LockGuard(w: World, o: Obj, pc: Pc): Option<World>
    requires w.cur.Some? && w.cur.value in w.procs
  {
    match AcquireLock(w.cpu, o in w.guards)
    case None => None
    case Some(c) => Some(Go(w, c, w.qlock, w.guards + {o}, pc))
  }

  function UnlockGuard(w: World, o: Obj, pc: Pc): Option<World>
    requires w.cur.Some? && w.cur.value in w.procs
  {
    match ReleaseLock(w.cpu, o in w.guards)
    case None => None
    case Some(c) => Some(Go(w, c, w.qlock, w.guards - {o}, pc))
  }

  /** Back to where a trap came from: the return sets the interrupt flag again. */
  function TrapReturn(w: Option<World>): Option<World>
    requires w.Some? ==> w.value.cur.Some? && w.value.cur.value in w.value.procs
  {
    match w
    case None => None
    case Some(v) =>
      var p := v.cur.value;
      Some(v.(cpu := v.cpu.(iflag := true), procs := v.procs[p := v.procs[p].(base := true)]))
  }

  /** sched: its four checks, and the switch to the scheduler with intena saved. */
  function Switch(w: World, pc: Pc): Option<World>
    requires w.cur.Some? && w.cur.value in w.procs
  {
    var p := w.cur.value;
    if !w.qlock || w.cpu.ncli != 1 || w.procs[p].status == Running || w.cpu.iflag then None
    else Some(w.(cur := None, procs := w.procs[p := w.procs[p].(pc := pc, intena := w.cpu.intena)]))
  }

  function SetStatus(w: World, st: Status, pc: Pc): World
    requires w.cur.Some? && w.cur.value in w.procs
  {
    var p := w.cur.value;
    w.(procs := w.procs[p := w.procs[p].(pc := pc, status := st)])
  }

  /** Next place after the wakeups of signal_ksemaphore and of release_sleeplock. */
  function AfterWake(op: Op, o: Obj): Pc {
    if op == Signal then Leave(op, o) else Free(o)
  }

  /** count-- or locked = 1. */
  function Taken(ob: Object, p: Pid): Object {
    match ob
    case Sem(c) => Sem(c - 1)
    case Lock(_, ins) => Lock(true, ins + {p})
  }

  function Freed(ob: Object, p: Pid): Object {
    match ob
    case Sem(_) => ob
    case Lock(_, ins) => Lock(false, ins - {p})
  }

  function Raised(ob: Object): Object {
    match ob
    case Sem(c) => Sem(c + 1)
    case Lock(_, _) => ob
  }

  /** One step of the running process inside the kernel; None is a panic or a lock that never comes free. */
  function Exec(w: World): Option<World>
    requires w.cur.Some? && w.cur.value in w.procs
  {
    var p := w.cur.value;
    match w.procs[p].pc
    case User => None
    case Gone => None
    case Start => TrapReturn(UnlockQ(w, User))
    case Enter(op, o) =>
      LockGuard(w, o, if op == Signal then Raise(o) else if op == Release then Check(op, o) else Test(op, o))
    case Test(op, o) =>
      if o !in w.objs then None
      else Some(At(w, if Available(w.objs[o]) then Take(op, o) else SleepLockQ(op, o)))
    case Take(op, o) =>
      if o !in w.objs then None
      else Some(At(w, Leave(op, o)).(objs := w.objs[o := Taken(w.objs[o], p)]))
    case SleepLockQ(op, o) => LockQ(w, SleepUnlock(op, o))
    case SleepUnlock(op, o) => UnlockGuard(w, o, SleepBlock(op, o))
    case SleepBlock(op, o) =>
      if o !in w.queues then None
      else Some(SetStatus(w, Blocked, SleepSwitch(op, o)).(queues := w.queues[o := [p] + w.queues[o]]))
    case SleepSwitch(op, o) => Switch(w, SleepRelock(op, o))
    case SleepRelock(op, o) => LockGuard(w, o, SleepUnlockQ(op, o))
    case SleepUnlockQ(op, o) => UnlockQ(w, Test(op, o))
    case Raise(o) =>
      if o !in w.objs then None
      else Some(At(w, Check(Signal, o)).(objs := w.objs[o := Raised(w.objs[o])]))
    case Check(op, o) =>
      if o !in w.queues then None
      else Some(At(w, if |w.queues[o]| > 0 then WakeLockQ(op, o) else AfterWake(op, o)))
    case WakeLockQ(op, o) =>
      if o !in w.queues then None else LockQ(w, WakeLoop(op, o, |w.queues[o]|))
    case WakeLoop(op, o, left) =>
      if left == 0 then Some(At(w, WakeUnlockQ(op, o)))
      else if o !in w.queues || w.queues[o] == [] || Oldest(w.queues[o]) !in w.procs then None
      else Some(Woken(At(w, WakeLoop(op, o, left - 1)), o))
    case WakeUnlockQ(op, o) => UnlockQ(w, AfterWake(op, o))
    case Free(o) =>
      if o !in w.objs then None
      else Some(At(w, Leave(Release, o)).(objs := w.objs[o := Freed(w.objs[o], p)]))
    case Leave(op, o) => TrapReturn(UnlockGuard(w, o, User))
    case YieldLockQ(back) => LockQ(w, YieldReady(back))
    case YieldReady(back) => Some(SetStatus(w, Ready, YieldSwitch(back)))
    case YieldSwitch(back) => Switch(w, YieldUnlockQ(back))
    case YieldUnlockQ(back) => TrapReturn(UnlockQ(w, back))
    case ExitLockQ => LockQ(w, ExitMark)
    case ExitMark => Some(SetStatus(w, Exited, ExitSwitch))
    case ExitSwitch => Switch(w, Gone)
  }

  /** dequeue and sched_insert_ready. */
  function Woken(w: World, o: Obj): World
    requires o in w.queues && w.queues[o] != [] && Oldest(w.queues[o]) in w.procs
  {
    var q := w.queues[o];
    var x := Oldest(q);
    w.(queues := w.queues[o := q[..|q| - 1]], procs := w.procs[x := w.procs[x].(status := Ready)])
  }

  // ---------------------------------------------------------------------------
  // All steps
  // ---------------------------------------------------------------------------

  datatype Action =
    | Call(op: Op, o: Obj, iflag: bool)
    | CallYield(iflag: bool)
    | CallExit(iflag: bool)
    | Create(p: Pid)
    | Interrupt
    | Kernel
    | Dispatch(p: Pid)
    | Idle

  predicate RunsAt(w: World, pc: Pc) {
    w.cur.Some? && w.cur.value in w.procs && w.procs[w.cur.value].pc == pc
  }

  /** Entering the kernel: by a gate that turns interrupts off, or one that does not. */
  function Trap(w: World, iflag: bool, pc: Pc): World
    requires w.cur.Some? && w.cur.value in w.procs
  {
    var p := w.cur.value;
    w.(cpu := w.cpu.(iflag := iflag), procs := w.procs[p := w.procs[p].(pc := pc, base := iflag)])
  }

  /** A process releases only locks it holds; nothing else is asked of it. */
  ghost predicate Next(w: World, a: Action, w': World) {
    match a
    case Call(op, o, f) =>
      && RunsAt(w, User) && o in w.objs && Fits(op, w.objs[o])
      && (op == Release ==> w.cur.value in w.objs[o].inside)
      && w' == Trap(w, f, Enter(op, o))
    case CallYield(f) => RunsAt(w, User) && w' == Trap(w, f, YieldLockQ(User))
    case CallExit(f) => RunsAt(w, User) && w' == Trap(w, f, ExitLockQ)
    case Create(p) => RunsAt(w, User) && p !in w.procs && w' == w.(procs := w.procs[p := Proc(Start, Ready, true, true)])
    case Interrupt =>
      && w.cur.Some? && w.cur.value in w.procs && w.cpu.iflag
      && w' == Trap(w, false, YieldLockQ(w.procs[w.cur.value].pc))
    case Kernel => w.cur.Some? && w.cur.value in w.procs && w.procs[w.cur.value].pc != User && Exec(w) == Some(w')
    case Dispatch(p) =>
      && w.cur.None? && p in w.procs && w.procs[p].status == Ready
      && var pr := w.procs[p];
         var i := if pr.pc.Start? then w.cpu.intena else pr.intena;
         w' == w.(cur := Some(p), cpu := w.cpu.(intena := i),
                  procs := w.procs[p := pr.(status := Running, base := if pr.pc.Start? then i else pr.base)])
    case Idle =>
      && w.cur.None?
      && var c := ReleaseLock(w.cpu, w.qlock);
         c.Some? && var d := AcquireLock(c.value.(iflag := true), false); d.Some? && w' == w.(cpu := d.value)
  }

  // ---------------------------------------------------------------------------
  // What holds at each place
  // ---------------------------------------------------------------------------

  /** How deep interrupts are nested. */
  function Depth(pc: Pc): nat {
    match pc
    case User | Enter(_, _) | YieldLockQ(_) | ExitLockQ | Gone => 0
    case SleepUnlock(_, _) | SleepUnlockQ(_, _) | WakeLoop(_, _, _) | WakeUnlockQ(_, _) => 2
    case _ => 1
  }

  predicate QueueLocked(pc: Pc) {
    match pc
    case Start | SleepUnlock(_, _) | SleepBlock(_, _) | SleepSwitch(_, _) | SleepRelock(_, _) | SleepUnlockQ(_, _) => true
    case WakeLoop(_, _, _) | WakeUnlockQ(_, _) => true
    case YieldReady(_) | YieldSwitch(_) | YieldUnlockQ(_) | ExitMark | ExitSwitch => true
    case _ => false
  }

  function Guarding(pc: Pc): set<Obj> {
    match pc
    case Test(_, o) => {o}
    case Take(_, o) => {o}
    case SleepLockQ(_, o) => {o}
    case SleepUnlock(_, o) => {o}
    case SleepUnlockQ(_, o) => {o}
    case Raise(o) => {o}
    case Check(_, o) => {o}
    case WakeLockQ(_, o) => {o}
    case WakeLoop(_, o, _) => {o}
    case WakeUnlockQ(_, o) => {o}
    case Free(o) => {o}
    case Leave(_, o) => {o}
    case _ => {}
  }

  function StatusAt(pc: Pc): Status {
    match pc
    case SleepSwitch(_, _) => Blocked
    case YieldSwitch(_) => Ready
    case ExitSwitch => Exited
    case _ => Running
  }

  ghost predicate CpuOk(w: World) {
    if w.cur.None? then Nested(w.cpu, 1, w.cpu.intena) && w.qlock && w.guards == {}
    else
      && w.cur.value in w.procs
      && var pr := w.procs[w.cur.value];
      && Nested(w.cpu, Depth(pr.pc), pr.base) && w.qlock == QueueLocked(pr.pc) && w.guards == Guarding(pr.pc)
      && pr.status == StatusAt(pr.pc) && pr.pc != Gone && (pr.pc == User ==> pr.base)
  }

  /** The operation at hand suits the object, and a lock is being released only by who is inside. */
  ghost predicate PcOk(pc: Pc, p: Pid, objs: map<Obj, Object>) {
    match pc
    case Enter(op, o) => Uses(op, o, p, objs)
    case Test(op, o) => Uses(op, o, p, objs) && Sleeps(op)
    case Take(op, o) => Uses(op, o, p, objs) && Sleeps(op)
    case SleepLockQ(op, o) => Uses(op, o, p, objs) && Sleeps(op)
    case SleepUnlock(op, o) => Uses(op, o, p, objs) && Sleeps(op)
    case SleepBlock(op, o) => Uses(op, o, p, objs) && Sleeps(op)
    case SleepSwitch(op, o) => Uses(op, o, p, objs) && Sleeps(op)
    case SleepRelock(op, o) => Uses(op, o, p, objs) && Sleeps(op)
    case SleepUnlockQ(op, o) => Uses(op, o, p, objs) && Sleeps(op)
    case Raise(o) => Uses(Signal, o, p, objs)
    case Check(op, o) => Uses(op, o, p, objs) && !Sleeps(op)
    case WakeLockQ(op, o) => Uses(op, o, p, objs) && !Sleeps(op)
    case WakeLoop(op, o, _) => Uses(op, o, p, objs) && !Sleeps(op)
    case WakeUnlockQ(op, o) => Uses(op, o, p, objs) && !Sleeps(op)
    case Free(o) => Uses(Release, o, p, objs)
    case YieldLockQ(b) => PcOk(b, p, objs) && Depth(b) == 0 && b != Gone
    case YieldReady(b) => PcOk(b, p, objs) && Depth(b) == 0 && b != Gone
    case YieldSwitch(b) => PcOk(b, p, objs) && Depth(b) == 0 && b != Gone
    case YieldUnlockQ(b) => PcOk(b, p, objs) && Depth(b) == 0 && b != Gone
    case _ => true
  }

  ghost predicate Uses(op: Op, o: Obj, p: Pid, objs: map<Obj, Object>) {
    o in objs && Fits(op, objs[o]) && (op == Release ==> p in objs[o].inside)
  }

  predicate Sleeps(op: Op) {
    op == Wait || op == Acquire
  }

  /** A process that is off the CPU is in one of four places. */
  ghost predicate Parked(pr: Proc) {
    match pr.pc
    case Start => pr.status == Ready
    case SleepRelock(_, _) => (pr.status == Ready || pr.status == Blocked) && pr.intena == pr.base
    case YieldUnlockQ(_) => pr.status == Ready && pr.intena == pr.base
    case Gone => pr.status == Exited
    case _ => false
  }

  ghost predicate ProcsOk(w: World) {
    forall p | p in w.procs ::
      PcOk(w.procs[p].pc, p, w.objs) && (w.cur != Some(p) ==> Parked(w.procs[p]))
  }

  predicate Waits(pr: Proc, o: Obj) {
    pr.status == Blocked && match pr.pc case SleepSwitch(_, x) => x == o case SleepRelock(_, x) => x == o case _ => false
  }

  ghost predicate QueueOk(q: seq<Pid>, o: Obj, procs: map<Pid, Proc>) {
    NoDup(q) && forall p :: p in q <==> p in procs && Waits(procs[p], o)
  }

  /** Every sleeper is in the queue of the channel it sleeps on, once, and nobody else is. */
  ghost predicate QueuesOk(w: World) {
    w.queues.Keys == w.objs.Keys && forall o | o in w.queues :: QueueOk(w.queues[o], o, w.procs)
  }

  ghost predicate ObjectOk(ob: Object) {
    match ob
    case Sem(_) => true
    case Lock(l, ins) => (l <==> ins != {}) && forall p, q | p in ins && q in ins :: p == q
  }

  ghost predicate ObjectsOk(w: World) {
    forall o | o in w.objs :: ObjectOk(w.objs[o])
  }

  /** The semaphore that a signaller has raised but not yet woken the sleepers of. */
  function Waking(pc: Pc): set<Obj> {
    match pc
    case Check(Signal, o) => {o}
    case WakeLockQ(Signal, o) => {o}
    case WakeLoop(Signal, o, _) => {o}
    case _ => {}
  }

  ghost predicate HereOk(pc: Pc, objs: map<Obj, Object>, queues: map<Obj, seq<Pid>>) {
    match pc
    case Take(_, o) => o in objs && Available(objs[o])
    case SleepLockQ(_, o) => o in objs && !Available(objs[o])
    case SleepUnlock(_, o) => o in objs && !Available(objs[o])
    case SleepBlock(_, o) => o in objs && !Available(objs[o])
    case WakeLoop(_, o, left) => o in queues && |queues[o]| == left
    case WakeUnlockQ(_, o) => o in queues && queues[o] == []
    case Free(o) => o in queues && queues[o] == []
    case _ => true
  }

  ghost function WakingNow(w: World): set<Obj> {
    if w.cur.Some? && w.cur.value in w.procs then Waking(w.procs[w.cur.value].pc) else {}
  }

  /** Nobody sleeps on what can be taken, but for the one semaphore whose sleepers are just being woken. */
  ghost predicate NoLostWakeup(w: World) {
    forall o | o in w.objs && o in w.queues && Available(w.objs[o]) :: w.queues[o] == [] || o in WakingNow(w)
  }

  ghost predicate WakeOk(w: World) {
    && NoLostWakeup(w)
    && (w.cur.Some? && w.cur.value in w.procs ==> HereOk(w.procs[w.cur.value].pc, w.objs, w.queues))
  }

  ghost predicate Inv(w: World) {
    CpuOk(w) && ProcsOk(w) && QueuesOk(w) && ObjectsOk(w) && WakeOk(w)
  }

  // ---------------------------------------------------------------------------
  // No step of the running process panics, and the locks follow the place
  // ---------------------------------------------------------------------------

  /** Nesting is balanced: acquire and release move the depth by one and keep the flag to restore. */
  lemma LocksNest(c: Cpu, depth: nat, base: bool)
    requires Nested(c, depth, base)
    ensures AcquireLock(c, true) == None && ReleaseLock(c, false) == None
    ensures AcquireLock(c, false).Some? && Nested(AcquireLock(c, false).value, depth + 1, base)
    ensures depth > 0 ==> ReleaseLock(c, true).Some? && Nested(ReleaseLock(c, true).value, depth - 1, base)
  {
  }

  /** The head of the wake-up line is a sleeper, not the process that runs. */
  lemma OldestSleeps(w: World, o: Obj)
    requires QueuesOk(w) && o in w.queues && w.queues[o] != []
    ensures Oldest(w.queues[o]) in w.procs && Waits(w.procs[Oldest(w.queues[o])], o)
  {
    var x := Oldest(w.queues[o]);
    assert x in w.queues[o];
  }

  lemma ProcOk(w: World, p: Pid)
    requires ProcsOk(w) && p in w.procs
    ensures PcOk(w.procs[p].pc, p, w.objs) && (w.cur != Some(p) ==> Parked(w.procs[p]))
  {
  }

  // ---------------------------------------------------------------------------
  // Steps that only move the running process
  // ---------------------------------------------------------------------------

  /** The record of the running process after a step, and nothing else but the locks, has changed. */
  ghost predicate Moved(w: World, w': World, pr: Proc) {
    && w.cur.Some? && w.cur.value in w.procs
    && w' == w.(cpu := w'.cpu, qlock := w'.qlock, guards := w'.guards, procs := w.procs[w.cur.value := pr])
  }

  /** Leaving a place where sleepers are being woken, there are none left. */
  ghost predicate DoneWaking(w: World, pc: Pc) {
    && w.cur.Some? && w.cur.value in w.procs
    && forall o | o in Waking(w.procs[w.cur.value].pc) && o in w.queues :: o in Waking(pc) || w.queues[o] == []
  }

  /** A step that only moves the running process keeps the invariant if its new place suits the state. */
  lemma MoveKeeps(w: World, w': World, pr: Proc)
    requires Inv(w) && Moved(w, w', pr) && w.procs[w.cur.value].status != Blocked && pr.status != Blocked
    requires CpuOk(w') && PcOk(pr.pc, w.cur.value, w.objs) && HereOk(pr.pc, w.objs, w.queues) && DoneWaking(w, pr.pc)
    ensures Inv(w')
  {
  }

  /** The place fits the CPU state given for it. */
  ghost predicate PlaceOk(pr: Proc, c: Cpu, q: bool, g: set<Obj>) {
    && Nested(c, Depth(pr.pc), pr.base) && q == QueueLocked(pr.pc) && g == Guarding(pr.pc)
    && pr.status == StatusAt(pr.pc) && pr.pc != Gone && (pr.pc == User ==> pr.base)
  }

  lemma GoMoves(w: World, c: Cpu, q: bool, g: set<Obj>, pc: Pc)
    requires w.cur.Some? && w.cur.value in w.procs && PlaceOk(w.procs[w.cur.value].(pc := pc), c, q, g)
    ensures var w' := Go(w, c, q, g, pc);
            CpuOk(w') && Moved(w, w', w.procs[w.cur.value].(pc := pc))
  {
  }

  lemma LockQMoves(w: World, pc: Pc)
    requires CpuOk(w) && w.cur.Some? && !w.qlock
    requires Depth(pc) == Depth(w.procs[w.cur.value].pc) + 1 && QueueLocked(pc) && pc != Gone && pc != User
    requires Guarding(pc) == Guarding(w.procs[w.cur.value].pc) && StatusAt(pc) == w.procs[w.cur.value].status
    ensures LockQ(w, pc).Some? && CpuOk(LockQ(w, pc).value)
    ensures Moved(w, LockQ(w, pc).value, w.procs[w.cur.value].(pc := pc))
  {
  }

  lemma UnlockQMoves(w: World, pc: Pc)
    requires CpuOk(w) && w.cur.Some? && w.qlock
    requires Depth(pc) == Depth(w.procs[w.cur.value].pc) - 1 && !QueueLocked(pc) && pc != Gone && pc != User
    requires Guarding(pc) == Guarding(w.procs[w.cur.value].pc) && StatusAt(pc) == w.procs[w.cur.value].status
    ensures UnlockQ(w, pc).Some? && CpuOk(UnlockQ(w, pc).value)
    ensures Moved(w, UnlockQ(w, pc).value, w.procs[w.cur.value].(pc := pc))
  {
  }

  lemma LockGuardMoves(w: World, o: Obj, pc: Pc)
    requires CpuOk(w) && w.cur.Some? && o !in w.guards
    requires Depth(pc) == Depth(w.procs[w.cur.value].pc) + 1 && pc != Gone && pc != User
    requires QueueLocked(pc) == QueueLocked(w.procs[w.cur.value].pc)
    requires Guarding(pc) == Guarding(w.procs[w.cur.value].pc) + {o} && StatusAt(pc) == w.procs[w.cur.value].status
    ensures LockGuard(w, o, pc).Some? && CpuOk(LockGuard(w, o, pc).value)
    ensures Moved(w, LockGuard(w, o, pc).value, w.procs[w.cur.value].(pc := pc))
  {
  }

  lemma UnlockGuardMoves(w: World, o: Obj, pc: Pc)
    requires CpuOk(w) && w.cur.Some? && o in w.guards
    requires Depth(pc) == Depth(w.procs[w.cur.value].pc) - 1 && pc != Gone && pc != User
    requires QueueLocked(pc) == QueueLocked(w.procs[w.cur.value].pc)
    requires Guarding(pc) == Guarding(w.procs[w.cur.value].pc) - {o} && StatusAt(pc) == w.procs[w.cur.value].status
    ensures UnlockGuard(w, o, pc).Some? && CpuOk(UnlockGuard(w, o, pc).value)
    ensures Moved(w, UnlockGuard(w, o, pc).value, w.procs[w.cur.value].(pc := pc))
  {
  }

  /** Releasing the last lock and returning from the trap. */
  lemma ReturnMoves(w: World, pc: Pc)
    requires CpuOk(w) && w.cur.Some? && Depth(w.procs[w.cur.value].pc) == 1 && w.procs[w.cur.value].status == Running
    requires Depth(pc) == 0 && !QueueLocked(pc) && pc != Gone && Guarding(pc) == {} && StatusAt(pc) == Running
    ensures w.qlock && w.guards == {} ==>
              var r := TrapReturn(UnlockQ(w, pc)); r.Some? && CpuOk(r.value) && Moved(w, r.value, w.procs[w.cur.value].(pc := pc, base := true))
    ensures forall o | !w.qlock && w.guards == {o} ::
              var r := TrapReturn(UnlockGuard(w, o, pc)); r.Some? && CpuOk(r.value) && Moved(w, r.value, w.procs[w.cur.value].(pc := pc, base := true))
  {
    hide AcquireLock, ReleaseLock, Depth, QueueLocked, Guarding, StatusAt;
    LocksNest(w.cpu, Depth(w.procs[w.cur.value].pc), w.procs[w.cur.value].base);
  }

  lemma RunningFacts(w: World)
    requires Inv(w) && w.cur.Some?
    ensures w.cur.value in w.procs
    ensures var pr := w.procs[w.cur.value];
            PlaceOk(pr, w.cpu, w.qlock, w.guards) && PcOk(pr.pc, w.cur.value, w.objs) && HereOk(pr.pc, w.objs, w.queues)
  {
  }

  lemma InvCpu(w: World)
    requires Inv(w)
    ensures CpuOk(w)
  {
  }

  lemma ObjectHasQueue(w: World, o: Obj)
    requires Inv(w) && o in w.objs
    ensures o in w.queues
  {
  }

  /** The steps of sleep that take or give back a spin lock. */
  lemma ExecSleepLocks(w: World)
    requires Inv(w) && w.cur.Some?
    requires var pc := w.procs[w.cur.value].pc;
             pc.SleepLockQ? || pc.SleepUnlock? || pc.SleepRelock? || pc.SleepUnlockQ?
    ensures Exec(w).Some? && Inv(Exec(w).value)
  {
    hide Inv, CpuOk, LockQ, UnlockQ, LockGuard, UnlockGuard, Moved, Available, Nested;
    RunningFacts(w);
    InvCpu(w);
    var pr := w.procs[w.cur.value];
    match pr.pc
    case SleepLockQ(op, o) =>
      LockQMoves(w, SleepUnlock(op, o));
      MoveKeeps(w, Exec(w).value, pr.(pc := SleepUnlock(op, o)));
    case SleepUnlock(op, o) =>
      UnlockGuardMoves(w, o, SleepBlock(op, o));
      MoveKeeps(w, Exec(w).value, pr.(pc := SleepBlock(op, o)));
    case SleepRelock(op, o) =>
      LockGuardMoves(w, o, SleepUnlockQ(op, o));
      MoveKeeps(w, Exec(w).value, pr.(pc := SleepUnlockQ(op, o)));
    case SleepUnlockQ(op, o) =>
      UnlockQMoves(w, Test(op, o));
      MoveKeeps(w, Exec(w).value, pr.(pc := Test(op, o)));
    case _ =>
  }

  lemma ExecWakeLockQ(w: World)
    requires Inv(w) && w.cur.Some? && w.procs[w.cur.value].pc.WakeLockQ?
    ensures Exec(w).Some? && Inv(Exec(w).value)
  {
    hide Inv, CpuOk, LockQ, UnlockQ, LockGuard, UnlockGuard, Moved, Available, Nested;
    RunningFacts(w);
    InvCpu(w);
    var pr := w.procs[w.cur.value];
    ObjectHasQueue(w, pr.pc.o);
    var pc := WakeLoop(pr.pc.op, pr.pc.o, |w.queues[pr.pc.o]|);
    LockQMoves(w, pc);
    MoveKeeps(w, Exec(w).value, pr.(pc := pc));
  }

  lemma ExecWakeUnlockQ(w: World)
    requires Inv(w) && w.cur.Some? && w.procs[w.cur.value].pc.WakeUnlockQ?
    ensures Exec(w).Some? && Inv(Exec(w).value)
  {
    hide Inv, CpuOk, LockQ, UnlockQ, LockGuard, UnlockGuard, Moved, Available, Nested;
    RunningFacts(w);
    InvCpu(w);
    var pr := w.procs[w.cur.value];
    var pc := AfterWake(pr.pc.op, pr.pc.o);
    UnlockQMoves(w, pc);
    MoveKeeps(w, Exec(w).value, pr.(pc := pc));
  }

  lemma ExecYieldLockQ(w: World)
    requires Inv(w) && w.cur.Some? && w.procs[w.cur.value].pc.YieldLockQ?
    ensures Exec(w).Some? && Inv(Exec(w).value)
  {
    hide Inv, CpuOk, LockQ, UnlockQ, LockGuard, UnlockGuard, Moved, Available, Nested;
    RunningFacts(w);
    InvCpu(w);
    var pr := w.procs[w.cur.value];
    var pc := YieldReady(pr.pc.back);
    LockQMoves(w, pc);
    MoveKeeps(w, Exec(w).value, pr.(pc := pc));
  }

  lemma ExecExitLockQ(w: World)
    requires Inv(w) && w.cur.Some? && w.procs[w.cur.value].pc.ExitLockQ?
    ensures Exec(w).Some? && Inv(Exec(w).value)
  {
    hide Inv, CpuOk, LockQ, UnlockQ, LockGuard, UnlockGuard, Moved, Available, Nested;
    RunningFacts(w);
    InvCpu(w);
    var pr := w.procs[w.cur.value];
    var pc := ExitMark;
    LockQMoves(w, pc);
    MoveKeeps(w, Exec(w).value, pr.(pc := pc));
  }

  lemma ExecEnter(w: World)
    requires Inv(w) && w.cur.Some? && w.procs[w.cur.value].pc.Enter?
    ensures Exec(w).Some? && Inv(Exec(w).value)
  {
    hide Inv, CpuOk, LockGuard, Moved, Available, Nested;
    RunningFacts(w);
    InvCpu(w);
    var pr := w.procs[w.cur.value];
    var op, o := pr.pc.op, pr.pc.o;
    var pc := if op == Signal then Raise(o) else if op == Release then Check(op, o) else Test(op, o);
    LockGuardMoves(w, o, pc);
    MoveKeeps(w, Exec(w).value, pr.(pc := pc));
  }

  lemma UserSideFacts(pc: Pc)
    requires Depth(pc) == 0
    ensures !QueueLocked(pc) && Guarding(pc) == {} && StatusAt(pc) == Running && Waking(pc) == {}
    ensures forall objs, queues :: HereOk(pc, objs, queues)
  {
  }

  /** The steps that end in a return from a trap. */
  lemma ExecReturns(w: World)
    requires Inv(w) && w.cur.Some?
    requires var pc := w.procs[w.cur.value].pc; pc.Start? || pc.Leave? || pc.YieldUnlockQ?
    ensures Exec(w).Some? && Inv(Exec(w).value)
  {
    hide Inv, CpuOk, LockQ, UnlockQ, LockGuard, UnlockGuard, TrapReturn, Moved, Available, Nested;
    RunningFacts(w);
    InvCpu(w);
    var pr := w.procs[w.cur.value];
    var pc := if pr.pc.YieldUnlockQ? then pr.pc.back else User;
    UserSideFacts(pc);
    ReturnMoves(w, pc);
    MoveKeeps(w, Exec(w).value, pr.(pc := pc, base := true));
  }

  /** The tests, and the end of the wakeup loop. */
  lemma ExecPlain(w: World)
    requires Inv(w) && w.cur.Some?
    requires var pc := w.procs[w.cur.value].pc; pc.Test? || pc.Check? || (pc.WakeLoop? && pc.left == 0)
    ensures Exec(w).Some? && Inv(Exec(w).value)
  {
    hide Inv, CpuOk, Go, Moved, Available, Nested;
    RunningFacts(w);
    InvCpu(w);
    var pr := w.procs[w.cur.value];
    var o := pr.pc.o;
    ObjectHasQueue(w, o);
    var pc := match pr.pc
      case Test(op, _) => if Available(w.objs[o]) then Take(op, o) else SleepLockQ(op, o)
      case Check(op, _) => if |w.queues[o]| > 0 then WakeLockQ(op, o) else AfterWake(op, o)
      case WakeLoop(op, _, _) => WakeUnlockQ(op, o)
      case _ => User;
    GoMoves(w, w.cpu, w.qlock, w.guards, pc);
    MoveKeeps(w, Exec(w).value, pr.(pc := pc));
  }

  // ---------------------------------------------------------------------------
  // Steps that change an object
  // ---------------------------------------------------------------------------

  /** Objects keep their kind, and `p` stays inside every lock it is in. */
  ghost predicate StillIn(p: Pid, objs: map<Obj, Object>, objs': map<Obj, Object>) {
    forall o | o in objs ::
      o in objs' && objs'[o].Sem? == objs[o].Sem? && (objs[o].Lock? && p in objs[o].inside ==> p in objs'[o].inside)
  }

  lemma {:induction false} StillOk(pc: Pc, p: Pid, objs: map<Obj, Object>, objs': map<Obj, Object>)
    requires PcOk(pc, p, objs) && StillIn(p, objs, objs')
    ensures PcOk(pc, p, objs')
  {
    match pc
    case YieldLockQ(b) => StillOk(b, p, objs, objs');
    case YieldReady(b) => StillOk(b, p, objs, objs');
    case YieldSwitch(b) => StillOk(b, p, objs, objs');
    case YieldUnlockQ(b) => StillOk(b, p, objs, objs');
    case _ =>
  }

  /** The running process leaves for `pc`, having changed object `o`. */
  ghost predicate Changed(w: World, w': World, o: Obj, ob: Object, pc: Pc) {
    && w.cur.Some? && w.cur.value in w.procs
    && w' == At(w, pc).(objs := w.objs[o := ob])
  }

  lemma ChangeProcs(w: World, w': World, o: Obj, ob: Object, pc: Pc)
    requires ProcsOk(w) && Changed(w, w', o, ob, pc) && PcOk(pc, w.cur.value, w'.objs)
    requires forall p | p != w.cur.value :: StillIn(p, w.objs, w'.objs)
    ensures ProcsOk(w')
  {
    hide PcOk, Parked, StillIn;
    forall p | p in w'.procs
      ensures PcOk(w'.procs[p].pc, p, w'.objs) && (w'.cur != Some(p) ==> Parked(w'.procs[p])) {
      ProcOk(w, p);
      if p != w.cur.value {
        StillOk(w.procs[p].pc, p, w.objs, w'.objs);
      }
    }
  }

  lemma ChangeQueues(w: World, w': World, o: Obj, ob: Object, pc: Pc)
    requires QueuesOk(w) && Changed(w, w', o, ob, pc) && o in w.objs && w.procs[w.cur.value].status == Running
    ensures QueuesOk(w')
  {
  }

  lemma ChangeKeeps(w: World, w': World, o: Obj, ob: Object, pc: Pc)
    requires Inv(w) && Changed(w, w', o, ob, pc) && w.procs[w.cur.value].status == Running && o in w.objs && o in w.queues
    requires PlaceOk(w.procs[w.cur.value].(pc := pc), w.cpu, w.qlock, w.guards)
    requires PcOk(pc, w.cur.value, w'.objs) && HereOk(pc, w'.objs, w'.queues) && ObjectOk(ob)
    requires forall p | p != w.cur.value :: StillIn(p, w.objs, w'.objs)
    requires Waking(w.procs[w.cur.value].pc) == {}
    requires Available(ob) ==> Available(w.objs[o]) || w.queues[o] == [] || o in Waking(pc)
    ensures Inv(w')
  {
    hide CpuOk, ProcsOk, QueuesOk, PcOk, HereOk, Waking, PlaceOk, StillIn, Available, ObjectOk;
    GoMoves(w, w.cpu, w.qlock, w.guards, pc);
    ChangeCpu(At(w, pc), w');
    ChangeProcs(w, w', o, ob, pc);
    ChangeQueues(w, w', o, ob, pc);
  }

  lemma ChangeCpu(w: World, w': World)
    requires CpuOk(w) && w' == w.(objs := w'.objs)
    ensures CpuOk(w')
  {
  }

  lemma TakenOk(ob: Object, p: Pid)
    requires ObjectOk(ob) && Available(ob)
    ensures ObjectOk(Taken(ob, p)) && (Available(Taken(ob, p)) ==> Available(ob))
  {
  }

  lemma FreedOk(ob: Object, p: Pid)
    requires ObjectOk(ob) && ob.Lock? && p in ob.inside
    ensures ObjectOk(Freed(ob, p))
  {
    var ins := ob.inside;
    assert p in ins;
    forall x | x in ins ensures x == p {
    }
  }

  lemma ObjectFacts(w: World, o: Obj)
    requires Inv(w) && o in w.objs
    ensures ObjectOk(w.objs[o]) && o in w.queues
  {
  }

  /** Taking: count-- or locked = 1. */
  lemma ExecTake(w: World)
    requires Inv(w) && w.cur.Some? && w.procs[w.cur.value].pc.Take?
    ensures Exec(w).Some? && Inv(Exec(w).value)
  {
    hide Inv, CpuOk, ObjectOk, Available, At, Nested;
    RunningFacts(w);
    var p, pr, o := w.cur.value, w.procs[w.cur.value], w.procs[w.cur.value].pc.o;
    ObjectFacts(w, o);
    TakenOk(w.objs[o], p);
    ChangeKeeps(w, Exec(w).value, o, Taken(w.objs[o], p), Leave(pr.pc.op, o));
  }

  /** Raising: count++. */
  lemma ExecRaise(w: World)
    requires Inv(w) && w.cur.Some? && w.procs[w.cur.value].pc.Raise?
    ensures Exec(w).Some? && Inv(Exec(w).value)
  {
    hide Inv, CpuOk, ObjectOk, Available, At, Nested;
    RunningFacts(w);
    var p, pr, o := w.cur.value, w.procs[w.cur.value], w.procs[w.cur.value].pc.o;
    ObjectFacts(w, o);
    RaisedOk(w.objs[o]);
    ChangeKeeps(w, Exec(w).value, o, Raised(w.objs[o]), Check(Signal, o));
  }

  /** Freeing: locked = 0, with nobody left in the queue. */
  lemma ExecFree(w: World)
    requires Inv(w) && w.cur.Some? && w.procs[w.cur.value].pc.Free?
    ensures Exec(w).Some? && Inv(Exec(w).value)
  {
    hide Inv, CpuOk, ObjectOk, Available, At, Nested;
    RunningFacts(w);
    var p, pr, o := w.cur.value, w.procs[w.cur.value], w.procs[w.cur.value].pc.o;
    ObjectFacts(w, o);
    FreedOk(w.objs[o], p);
    ChangeKeeps(w, Exec(w).value, o, Freed(w.objs[o], p), Leave(Release, o));
  }

  lemma RaisedOk(ob: Object)
    requires ObjectOk(ob)
    ensures ObjectOk(Raised(ob))
  {
  }

  // ---------------------------------------------------------------------------
  // Steps that change a status
  // ---------------------------------------------------------------------------

  lemma ExecStatus(w: World)
    requires Inv(w) && w.cur.Some?
    requires var pc := w.procs[w.cur.value].pc; pc.YieldReady? || pc.ExitMark?
    ensures Exec(w).Some? && Inv(Exec(w).value)
  {
    hide Inv, Available, Nested, PcOk;
    RunningFacts(w);
    InvCpu(w);
    var pr := w.procs[w.cur.value];
    var pr' := Exec(w).value.procs[w.cur.value];
    assert PcOk(pr'.pc, w.cur.value, w.objs) by { YieldOk(pr.pc, w.cur.value, w.objs); }
    MoveKeeps(w, Exec(w).value, pr');
  }

  lemma YieldOk(pc: Pc, p: Pid, objs: map<Obj, Object>)
    requires PcOk(pc, p, objs)
    ensures pc.YieldReady? ==> PcOk(YieldSwitch(pc.back), p, objs)
    ensures pc.YieldSwitch? ==> PcOk(YieldUnlockQ(pc.back), p, objs)
    ensures PcOk(ExitSwitch, p, objs) && PcOk(Gone, p, objs)
    ensures Depth(pc) == 0 && pc != Gone ==> PcOk(YieldLockQ(pc), p, objs)
  {
  }

  /** Going to sleep: the process joins the queue while the object is not available. */
  lemma SleepQueues(w: World)
    requires Inv(w) && w.cur.Some? && w.procs[w.cur.value].pc.SleepBlock? && Exec(w).Some?
    ensures QueuesOk(Exec(w).value)
  {
    hide NoDup, PcOk, HereOk, Available, NoLostWakeup, ObjectOk;
    var w' := Exec(w).value;
    var p, o := w.cur.value, w.procs[w.cur.value].pc.o;
    assert QueueOk(w.queues[o], o, w.procs);
    PushKeepsNoDup(w.queues[o], p);
    forall x | x in w'.queues ensures QueueOk(w'.queues[x], x, w'.procs) {
      assert QueueOk(w.queues[x], x, w.procs);
    }
  }

  lemma ExecSleep(w: World)
    requires Inv(w) && w.cur.Some? && w.procs[w.cur.value].pc.SleepBlock?
    ensures Exec(w).Some? && Inv(Exec(w).value)
  {
    hide QueuesOk, Available, Nested, ObjectOk, Parked;
    RunningFacts(w);
    var p, o := w.cur.value, w.procs[w.cur.value].pc.o;
    ObjectFacts(w, o);
    var w' := Exec(w).value;
    SleepQueues(w);
    SleepProcs(w);
    assert CpuOk(w');
    assert WakeOk(w');
  }

  lemma SleepProcs(w: World)
    requires Inv(w) && w.cur.Some? && w.procs[w.cur.value].pc.SleepBlock? && Exec(w).Some?
    ensures ProcsOk(Exec(w).value)
  {
  }

  /** The switch to the scheduler: one level of nesting, the queue lock and no other. */
  lemma ExecSwitch(w: World)
    requires Inv(w) && w.cur.Some?
    requires var pc := w.procs[w.cur.value].pc; pc.SleepSwitch? || pc.YieldSwitch? || pc.ExitSwitch?
    ensures w.cpu.ncli == 1 && !w.cpu.iflag && w.qlock && w.guards == {}
    ensures Exec(w).Some? && Inv(Exec(w).value)
  {
    hide QueueOk, PcOk, Available, ObjectOk;
    RunningFacts(w);
    var w' := Exec(w).value;
    SwitchProcs(w);
    SwitchQueues(w);
    assert WakeOk(w');
  }

  lemma SwitchProcs(w: World)
    requires Inv(w) && w.cur.Some? && Exec(w).Some?
    requires var pc := w.procs[w.cur.value].pc; pc.SleepSwitch? || pc.YieldSwitch? || pc.ExitSwitch?
    ensures ProcsOk(Exec(w).value)
  {
    hide QueuesOk, Available, ObjectOk, WakeOk;
    var w' := Exec(w).value;
    forall p | p in w'.procs
      ensures PcOk(w'.procs[p].pc, p, w'.objs) && (w'.cur != Some(p) ==> Parked(w'.procs[p])) {
      ProcOk(w, p);
      YieldOk(w.procs[p].pc, p, w.objs);
    }
  }

  lemma SwitchQueues(w: World)
    requires Inv(w) && w.cur.Some? && Exec(w).Some?
    requires var pc := w.procs[w.cur.value].pc; pc.SleepSwitch? || pc.YieldSwitch? || pc.ExitSwitch?
    ensures QueuesOk(Exec(w).value)
  {
    hide ProcsOk, Available, ObjectOk, WakeOk, NoDup;
    var w' := Exec(w).value;
    forall o | o in w'.queues ensures QueueOk(w'.queues[o], o, w'.procs) {
      assert QueueOk(w.queues[o], o, w.procs);
    }
  }

  lemma PopNoDup(q: seq<Pid>)
    requires NoDup(q) && q != []
    ensures NoDup(q[..|q| - 1]) && forall p :: p in q[..|q| - 1] <==> p in q && p != Oldest(q)
  {
    var r := q[..|q| - 1];
    forall p | p in q && p != Oldest(q) ensures p in r {
      var i :| 0 <= i < |q| && q[i] == p;
      assert r[i] == p;
    }
  }

  lemma WakeQueues(w: World)
    requires Inv(w) && w.cur.Some? && Exec(w).Some?
    requires w.procs[w.cur.value].pc.WakeLoop? && w.procs[w.cur.value].pc.left > 0
    ensures QueuesOk(Exec(w).value)
  {
    hide NoDup, PcOk, HereOk, Available, NoLostWakeup, ObjectOk, Parked;
    var w' := Exec(w).value;
    var o := w.procs[w.cur.value].pc.o;
    assert QueueOk(w.queues[o], o, w.procs);
    PopNoDup(w.queues[o]);
    OldestSleeps(w, o);
    forall x | x in w'.queues ensures QueueOk(w'.queues[x], x, w'.procs) {
      assert QueueOk(w.queues[x], x, w.procs);
    }
  }

  lemma WakeProcs(w: World)
    requires Inv(w) && w.cur.Some? && Exec(w).Some?
    requires w.procs[w.cur.value].pc.WakeLoop? && w.procs[w.cur.value].pc.left > 0
    ensures ProcsOk(Exec(w).value)
  {
    hide QueueOk, HereOk, Available, NoLostWakeup, ObjectOk;
    var w' := Exec(w).value;
    OldestSleeps(w, w.procs[w.cur.value].pc.o);
    forall p | p in w'.procs
      ensures PcOk(w'.procs[p].pc, p, w'.objs) && (w'.cur != Some(p) ==> Parked(w'.procs[p])) {
      ProcOk(w, p);
    }
  }

  /** One turn of wakeup_all. */
  lemma ExecWake(w: World)
    requires Inv(w) && w.cur.Some? && w.procs[w.cur.value].pc.WakeLoop? && w.procs[w.cur.value].pc.left > 0
    ensures Exec(w).Some? && Inv(Exec(w).value)
  {
    hide QueueOk, Available, ObjectOk, Parked;
    RunningFacts(w);
    var pr := w.procs[w.cur.value];
    var o := pr.pc.o;
    OldestSleeps(w, o);
    WakeQueues(w);
    WakeProcs(w);
  }

  /** The running process never panics and never meets a lock that is taken, and every step keeps the invariant. */
  lemma KernelKeeps(w: World)
    requires Inv(w) && w.cur.Some? && w.procs[w.cur.value].pc != User
    ensures Exec(w).Some? && Inv(Exec(w).value)
  {
    hide CpuOk, ProcsOk, QueuesOk, WakeOk, Exec, ObjectsOk;
    RunningFacts(w);
    match w.procs[w.cur.value].pc
    case Start | Leave(_, _) | YieldUnlockQ(_) => ExecReturns(w);
    case Enter(_, _) => ExecEnter(w);
    case Test(_, _) | Check(_, _) => ExecPlain(w);
    case Take(_, _) => ExecTake(w);
    case Raise(_) => ExecRaise(w);
    case Free(_) => ExecFree(w);
    case SleepLockQ(_, _) | SleepUnlock(_, _) | SleepRelock(_, _) | SleepUnlockQ(_, _) => ExecSleepLocks(w);
    case SleepBlock(_, _) => ExecSleep(w);
    case SleepSwitch(_, _) | YieldSwitch(_) | ExitSwitch => ExecSwitch(w);
    case WakeLockQ(_, _) => ExecWakeLockQ(w);
    case WakeUnlockQ(_, _) => ExecWakeUnlockQ(w);
    case YieldLockQ(_) => ExecYieldLockQ(w);
    case ExitLockQ => ExecExitLockQ(w);
    case WakeLoop(_, _, left) => if left == 0 { ExecPlain(w); } else { ExecWake(w); }
    case YieldReady(_) | ExitMark => ExecStatus(w);
  }

  // ---------------------------------------------------------------------------
  // Steps from outside
  // ---------------------------------------------------------------------------

  lemma TrapKeeps(w: World, f: bool, pc: Pc)
    requires Inv(w) && w.cur.Some? && Depth(w.procs[w.cur.value].pc) == 0 && PcOk(pc, w.cur.value, w.objs)
    requires (pc.Enter? || pc.YieldLockQ? || pc.ExitLockQ?)
    ensures Inv(Trap(w, f, pc))
  {
    hide PcOk, ProcsOk, QueuesOk, WakeOk, ObjectsOk;
    var pr := w.procs[w.cur.value];
    UserSideFacts(pr.pc);
    UserSideFacts(pc);
    MoveKeeps(w, Trap(w, f, pc), pr.(pc := pc, base := f));
  }

  lemma CreateKeeps(w: World, p: Pid)
    requires Inv(w) && w.cur.Some? && p !in w.procs
    ensures Inv(w.(procs := w.procs[p := Proc(Start, Ready, true, true)]))
  {
  }

  lemma DispatchKeeps(w: World, p: Pid, w': World)
    requires Inv(w) && Next(w, Dispatch(p), w')
    ensures Inv(w')
  {
    hide NoDup, ObjectOk, Available, PcOk;
    ProcOk(w, p);
    forall x | x in w'.queues ensures QueueOk(w'.queues[x], x, w'.procs) {
      assert QueueOk(w.queues[x], x, w.procs);
    }
    forall x | x in w'.procs
      ensures PcOk(w'.procs[x].pc, x, w'.objs) && (w'.cur != Some(x) ==> Parked(w'.procs[x])) {
      ProcOk(w, x);
    }
  }

  lemma IdleKeeps(w: World, w': World)
    requires Inv(w) && Next(w, Idle, w')
    ensures Inv(w')
  {
    hide QueueOk, ObjectOk, Available, PcOk;
  }

  /** Only places without locks can be interrupted. */
  lemma InterruptedPlace(w: World)
    requires Inv(w) && w.cur.Some? && w.cpu.iflag
    ensures Depth(w.procs[w.cur.value].pc) == 0 && w.procs[w.cur.value].pc != Gone
  {
  }

  lemma NextKeeps(w: World, a: Action, w': World)
    requires Inv(w) && Next(w, a, w')
    ensures Inv(w')
  {
    hide Inv, Exec, Trap, Depth, PcOk;
    match a
    case Call(op, o, f) => CallFacts(w, op, o); TrapKeeps(w, f, Enter(op, o));
    case CallYield(f) => CallFacts(w, Wait, 0); TrapKeeps(w, f, YieldLockQ(User));
    case CallExit(f) => CallFacts(w, Wait, 0); TrapKeeps(w, f, ExitLockQ);
    case Create(p) => CreateKeeps(w, p);
    case Interrupt =>
      InterruptedPlace(w);
      RunningFacts(w);
      YieldOk(w.procs[w.cur.value].pc, w.cur.value, w.objs);
      TrapKeeps(w, false, YieldLockQ(w.procs[w.cur.value].pc));
    case Kernel => KernelKeeps(w);
    case Dispatch(p) => DispatchKeeps(w, p, w');
    case Idle => IdleKeeps(w, w');
  }

  lemma CallFacts(w: World, op: Op, o: Obj)
    requires RunsAt(w, User)
    ensures Depth(User) == 0 && PcOk(YieldLockQ(User), w.cur.value, w.objs) && PcOk(ExitLockQ, w.cur.value, w.objs)
    ensures Uses(op, o, w.cur.value, w.objs) ==> PcOk(Enter(op, o), w.cur.value, w.objs)
  {
  }

  // ---------------------------------------------------------------------------
  // Whole runs
  // ---------------------------------------------------------------------------

  ghost predicate Init(w: World) {
    && w.cur.None? && w.cpu.ncli == 1 && !w.cpu.iflag && w.qlock && w.guards == {}
    && (forall p | p in w.procs :: w.procs[p].pc == Start && w.procs[p].status == Ready)
    && (forall o | o in w.objs :: w.objs[o].Lock? ==> w.objs[o] == Lock(false, {}))
    && w.queues.Keys == w.objs.Keys && (forall o | o in w.queues :: w.queues[o] == [])
  }

  ghost predicate Run(ws: seq<World>, acts: seq<Action>) {
    && |ws| == |acts| + 1 && Init(ws[0])
    && forall i | 0 <= i < |acts| :: Next(ws[i], acts[i], ws[i + 1])
  }

  lemma InitInv(w: World)
    requires Init(w)
    ensures Inv(w)
  {
  }

  lemma {:induction false} RunInv(ws: seq<World>, acts: seq<Action>, k: nat)
    requires Run(ws, acts) && k < |ws|
    ensures Inv(ws[k])
    decreases k
  {
    hide Inv, Init, Next;
    if k == 0 {
      InitInv(ws[0]);
    } else {
      RunInv(ws, acts, k - 1);
      NextKeeps(ws[k - 1], acts[k - 1], ws[k]);
    }
  }

  /** Kernel code never panics, never spins on a taken lock and never sleeps while holding one. */
  lemma RunNeverStuck(ws: seq<World>, acts: seq<Action>, k: nat)
    requires Run(ws, acts) && k < |ws| && ws[k].cur.Some?
    ensures ws[k].cur.value in ws[k].procs
    ensures ws[k].procs[ws[k].cur.value].pc != User ==> Exec(ws[k]).Some?
  {
    hide Inv, Init, Next, Exec;
    RunInv(ws, acts, k);
    RunningFacts(ws[k]);
    if ws[k].procs[ws[k].cur.value].pc != User {
      KernelKeeps(ws[k]);
    }
  }

  /** Every context switch happens with one level of nesting, interrupts off, and the queue lock alone held; a process
      that wakes up finds the guard lock free. */
  lemma RunSwitches(ws: seq<World>, acts: seq<Action>, k: nat)
    requires Run(ws, acts) && k < |ws|
    ensures ws[k].cur.Some? ==> ws[k].cur.value in ws[k].procs
    ensures ws[k].cur.None? || ws[k].procs[ws[k].cur.value].pc.SleepRelock? ==>
              ws[k].cpu.ncli == 1 && !ws[k].cpu.iflag && ws[k].qlock && ws[k].guards == {}
  {
    hide Init, Next, ProcsOk, QueuesOk, ObjectsOk, WakeOk;
    RunInv(ws, acts, k);
  }

  /** At most one process is between acquire and release of a sleep lock. */
  lemma RunMutualExclusion(ws: seq<World>, acts: seq<Action>, k: nat, o: Obj, p: Pid, q: Pid)
    requires Run(ws, acts) && k < |ws| && o in ws[k].objs && ws[k].objs[o].Lock?
    requires p in ws[k].objs[o].inside && q in ws[k].objs[o].inside
    ensures p == q && ws[k].objs[o].locked
  {
    hide Inv, Init, Next;
    RunInv(ws, acts, k);
    ObjectFacts(ws[k], o);
    var ins := ws[k].objs[o].inside;
    assert p in ins && q in ins;
  }

  /** No wakeup is lost: at a scheduling point nobody is blocked on an object that can be taken, and somebody is inside
      every sleep lock that is slept on. */
  lemma RunNoLostWakeup(ws: seq<World>, acts: seq<Action>, k: nat, p: Pid, o: Obj)
    requires Run(ws, acts) && k < |ws| && ws[k].cur.None? && p in ws[k].procs && o in ws[k].objs
    ensures (if ws[k].objs[o].Sem? then ws[k].objs[o].count > 0 else !ws[k].objs[o].locked) ==>
              !Waits(ws[k].procs[p], o) && o in ws[k].queues && ws[k].queues[o] == []
    ensures ws[k].objs[o].Lock? && Waits(ws[k].procs[p], o) ==> ws[k].objs[o].inside != {}
  {
    hide Init, Next, CpuOk, ProcsOk, Waits;
    RunInv(ws, acts, k);
    assert QueueOk(ws[k].queues[o], o, ws[k].procs);
    assert ObjectOk(ws[k].objs[o]);
  }

  // ---------------------------------------------------------------------------
  // What a semaphore counts
  // ---------------------------------------------------------------------------

  /** This step is the count++ of a signal. */
  predicate Signals(w: World, a: Action, o: Obj) {
    a == Kernel && RunsAt(w, Raise(o))
  }

  /** This step is the count-- that completes a wait. */
  predicate Completes(w: World, a: Action, o: Obj) {
    a == Kernel && RunsAt(w, Take(Wait, o))
  }

  lemma SemStep(w: World, a: Action, w': World, o: Obj)
    requires Inv(w) && Next(w, a, w') && o in w.objs && w.objs[o].Sem?
    ensures o in w'.objs && w'.objs[o].Sem?
    ensures w'.objs[o].count
            == w.objs[o].count + (if Signals(w, a, o) then 1 else 0) - (if Completes(w, a, o) then 1 else 0)
    ensures Completes(w, a, o) ==> w.objs[o].count > 0
  {
    hide Inv, Exec, AcquireLock, ReleaseLock;
    if a == Kernel {
      RunningFacts(w);
      ObjectsAfter(w);
    }
  }

  /** Three places change an object. */
  lemma ObjectsAfter(w: World)
    requires w.cur.Some? && w.cur.value in w.procs && Exec(w).Some?
    ensures var pc, objs, objs' := w.procs[w.cur.value].pc, w.objs, Exec(w).value.objs;
            if pc.Take? then pc.o in objs && objs' == objs[pc.o := Taken(objs[pc.o], w.cur.value)]
            else if pc.Raise? then pc.o in objs && objs' == objs[pc.o := Raised(objs[pc.o])]
            else if pc.Free? then pc.o in objs && objs' == objs[pc.o := Freed(objs[pc.o], w.cur.value)]
            else objs' == objs
  {
    hide AcquireLock, ReleaseLock;
  }

  ghost function SignalsDone(ws: seq<World>, acts: seq<Action>, k: nat, o: Obj): nat
    requires k <= |acts| <= |ws|
  {
    if k == 0 then 0 else SignalsDone(ws, acts, k - 1, o) + if Signals(ws[k - 1], acts[k - 1], o) then 1 else 0
  }

  ghost function WaitsDone(ws: seq<World>, acts: seq<Action>, k: nat, o: Obj): nat
    requires k <= |acts| <= |ws|
  {
    if k == 0 then 0 else WaitsDone(ws, acts, k - 1, o) + if Completes(ws[k - 1], acts[k - 1], o) then 1 else 0
  }

  /** The count is the initial value plus the signals less the completed waits, and never drops below zero. */
  lemma {:induction false} RunSemaphore(ws: seq<World>, acts: seq<Action>, k: nat, o: Obj)
    requires Run(ws, acts) && k < |ws| && o in ws[0].objs && ws[0].objs[o].Sem?
    ensures o in ws[k].objs && ws[k].objs[o].Sem?
    ensures ws[k].objs[o].count == ws[0].objs[o].count + SignalsDone(ws, acts, k, o) - WaitsDone(ws, acts, k, o)
    ensures ws[0].objs[o].count >= 0 ==> ws[k].objs[o].count >= 0
    decreases k
  {
    hide Inv, Init, Next, Signals, Completes;
    if k > 0 {
      RunSemaphore(ws, acts, k - 1, o);
      RunInv(ws, acts, k - 1);
      SemStep(ws[k - 1], acts[k - 1], ws[k], o);
    }
  }

  // ---------------------------------------------------------------------------
  // Balanced nesting
  // ---------------------------------------------------------------------------

  /** The CPU after a sequence of pushcli (true) and popcli (false); None after a panic. */
  function Nest(c: Cpu, ops: seq<bool>): Option<Cpu>
    decreases |ops|
  {
    if ops == [] then Some(c)
    else if ops[0] then Nest(PushCli(c), ops[1..])
    else match PopCli(c) case None => None case Some(d) => Nest(d, ops[1..])
  }

  /** From depth `d` the sequence never pops more than was pushed and ends at `e`. */
  predicate Balanced(ops: seq<bool>, d: nat, e: nat) {
    if ops == [] then d == e else if ops[0] then Balanced(ops[1..], d + 1, e) else d > 0 && Balanced(ops[1..], d - 1, e)
  }

  lemma {:induction false} NestKeepsBase(c: Cpu, ops: seq<bool>, d: nat, e: nat, base: bool)
    requires Balanced(ops, d, e) && Nested(c, d, base)
    ensures Nest(c, ops).Some? && Nested(Nest(c, ops).value, e, base)
    decreases |ops|
  {
    if ops != [] {
      if ops[0] {
        NestKeepsBase(PushCli(c), ops[1..], d + 1, e, base);
      } else {
        NestKeepsBase(PopCli(c).value, ops[1..], d - 1, e, base);
      }
    }
  }

  /** Balanced pushcli and popcli never panic and leave the interrupt flag as it was. */
  lemma BalancedRestores(c: Cpu, ops: seq<bool>)
    requires c.ncli == 0 && Balanced(ops, 0, 0)
    ensures Nest(c, ops).Some? && Nest(c, ops).value.ncli == 0 && Nest(c, ops).value.iflag == c.iflag
  {
    NestKeepsBase(c, ops, 0, 0, c.iflag);
  }

  // ---------------------------------------------------------------------------
  // The CPU and the spin lock as they are updated
  // ---------------------------------------------------------------------------

  class Processor {
    var ncli: int
    var intena: bool
    var iflag: bool

    function View(): Cpu
      reads this
    {
      Cpu(ncli, intena, iflag)
    }

    method Push()
      modifies this
      ensures View() == PushCli(old(View()))
    {
      var eflags := iflag;
      iflag := false;
      if ncli == 0 {
        intena := eflags;
      }
      ncli := ncli + 1;
    }

    /** False is a panic; the count is taken down before it is checked. */
    method Pop() returns (ok: bool)
      modifies this
      ensures ok <==> PopCli(old(View())).Some?
      ensures ok ==> View() == PopCli(old(View())).value
    {
      if iflag {
        return false;
      }
      ncli := ncli - 1;
      if ncli < 0 {
        return false;
      }
      if ncli == 0 && intena {
        iflag := true;
      }
      return true;
    }
  }

  class SpinLock {
    var locked: bool
    var cpu: Processor?

    predicate HeldBy(c: Processor)
      reads this
    {
      locked && cpu == c
    }

    method IsHeld(c: Processor) returns (held: bool)
      requires c.ncli >= 0
      modifies c
      ensures held == HeldBy(c) && Some(c.View()) == Holding(old(c.View()))
    {
      c.Push();
      held := locked && cpu == c;
      var ok := c.Pop();
    }

    /** On the only CPU a lock that this CPU does not hold is free, so that the exchange succeeds at once. */
    method Take(c: Processor) returns (ok: bool)
      requires c.ncli >= 0 && (locked ==> cpu == c)
      modifies this, c
      ensures ok <==> AcquireLock(old(c.View()), old(locked)).Some?
      ensures ok ==> HeldBy(c) && c.View() == AcquireLock(old(c.View()), old(locked)).value
      ensures !ok ==> locked == old(locked) && cpu == old(cpu)
    {
      var held := IsHeld(c);
      if held {
        return false;
      }
      c.Push();
      var seen := locked;
      locked := true;
      assert !seen;
      cpu := c;
      return true;
    }

    method GiveBack(c: Processor) returns (ok: bool)
      requires c.ncli >= 0
      modifies this, c
      ensures ok <==> ReleaseLock(old(c.View()), old(HeldBy(c))).Some?
      ensures ok ==> !locked && cpu == null && c.View() == ReleaseLock(old(c.View()), old(HeldBy(c))).value
    {
      var held := IsHeld(c);
      if !held {
        return false;
      }
      cpu := null;
      locked := false;
      ok := c.Pop();
    }
  }
}
