/** Every run of the airline agency is finite: the number of steps is bounded by the numbers of clerks and customers, and a
    run that cannot go on has everything done. With that, a run in which the agency's own asserts fail. */
module AirlineTermination {
  import opened Common
  import opened Airline
  import opened AirlineProgress

  // ---------------------------------------------------------------------------
  // Adding up over the processes
  // ---------------------------------------------------------------------------

  ghost function Pick<T>(m: map<int, T>): (k: int)
    requires exists k :: k in m
    ensures k in m
  {
    var k :| k in m;
    k
  }

  ghost function Total<T>(m: map<int, T>, f: T -> nat): nat
    decreases |m|
  {
    if exists k :: k in m then Fewer(m, Pick(m)); f(m[Pick(m)]) + Total(m - {Pick(m)}, f) else 0
  }

  lemma Fewer<T>(m: map<int, T>, k: int)
    requires k in m
    ensures |m - {k}| == |m| - 1
  {
    assert (m - {k}).Keys == m.Keys - {k};
    assert |m.Keys| == |m|;
  }

  lemma {:induction false} TotalWithout<T>(m: map<int, T>, k: int, f: T -> nat)
    requires k in m
    ensures Total(m, f) == f(m[k]) + Total(m - {k}, f)
    decreases |m|
  {
    var j := Pick(m);
    if j != k {
      Fewer(m, j);
      TotalWithout(m - {j}, k, f);
      Fewer(m, k);
      TotalWithout(m - {k}, j, f);
      assert m - {j} - {k} == m - {k} - {j};
    }
  }

  /** One process moves: the total changes by that one. */
  lemma TotalMoves<T>(m: map<int, T>, k: int, v: T, f: T -> nat)
    requires k in m
    ensures Total(m[k := v], f) == Total(m, f) - f(m[k]) + f(v)
  {
    TotalWithout(m, k, f);
    TotalWithout(m[k := v], k, f);
    assert m[k := v] - {k} == m - {k};
  }

  lemma {:induction false} TotalSame<T>(m: map<int, T>, f: T -> nat, c: nat)
    requires forall k | k in m :: f(m[k]) == c
    ensures Total(m, f) == c * |m|
    decreases |m|
  {
    if exists k :: k in m {
      var k := Pick(m);
      Fewer(m, k);
      TotalSame(m - {k}, f, c);
      assert c * (|m| - 1) + c == c * |m|;
    } else {
      assert m.Keys == {};
    }
  }

  // ---------------------------------------------------------------------------
  // The steps that are left
  // ---------------------------------------------------------------------------

  /** The most steps a clerk makes for one unit of cust_ready. */
  const TURN: nat := 23

  /** The most steps a clerk can make before it needs a unit of cust_ready again. */
  function ClerkLeft(c: Clerk): nat {
    match c.pc
    case Gone => 0
    case ReadyWait => 0
    case Closing => 1
    case Opened => 2
    case ClerkSignal => 3
    case FinishSignal => 4
    case Signal2 => 5
    case Signal1 => 6
    case Count(f) => if f == 1 then 11 else 7
    case Store(f) => if f == 1 then 12 else 8
    case Flag(f) => if f == 1 then 13 else 9
    case Dec(f) => if f == 1 then 14 else 10
    case Test => 15
    case Wait2 => 16
    case Wait1 => 17
    case Switch => 18
    case QueueSignal => 19
    case Advance => 20
    case QueueBack => 20
    case Peek => 21
    case QueueWait => 22
  }

  /** The steps a customer has still to make. */
  function StepsLeft(pc: CustomerPc): nat {
    match pc
    case IdWait => 17
    case IdRead => 16
    case IdCount => 15
    case Choose => 14
    case IdSignal => 13
    case CapacityWait => 12
    case ClerkWait => 11
    case InfoBooked => 10
    case InfoType => 9
    case LineWait => 8
    case LineWrite => 7
    case LineCount => 6
    case LineSignal => 5
    case ReadySignal => 4
    case FinishWait => 3
    case CapacitySignal => 2
    case TermSignal => 1
    case Done => 0
  }

  /** A customer's own steps, and a clerk's for the unit of cust_ready that it will give. */
  function CustomerLeft(c: Customer): nat {
    StepsLeft(c.pc) + if StepsLeft(c.pc) >= 4 then TURN else 0
  }

  /** The agency's own steps, and the clerks' for the units it will give. */
  function AgencyLeft(a: Agency, clerks: nat, customers: nat): int {
    match a
    case Collect(n) => customers - n + 4 + clerks + (TURN + 1) * clerks + 1
    case Close => 4 + clerks + (TURN + 1) * clerks
    case Mark => 3 + clerks + (TURN + 1) * clerks
    case Wake(n) => 2 + clerks + (TURN + 1) * (clerks - n)
    case Await(n) => 1 + clerks - n
    case Over => 0
  }

  ghost function Left(w: World): int {
    Total(w.clerks, ClerkLeft) + Total(w.customers, CustomerLeft) + TURN * w.line.ready
    + AgencyLeft(w.agency, |w.clerks|, |w.customers|)
  }

  /** The most steps a run can have. */
  function Bound(clerks: nat, customers: nat): nat {
    27 * clerks + 41 * customers + 5
  }

  // Every step leaves fewer --------------------------------------------------------

  lemma FetchLeft(w: World, k: int)
    requires k in w.clerks && FetchStep(w, k).Next? && k in FetchStep(w, k).w.clerks
    requires w.clerks[k].pc in {ReadyWait, QueueWait, Peek, QueueBack, Advance, QueueSignal}
    ensures var c, c' := w.clerks[k], FetchStep(w, k).w.clerks[k];
            ClerkLeft(c') < ClerkLeft(c) + if c.pc == ReadyWait then TURN else 0
  {
  }

  lemma LockLeft(w: World, k: int)
    requires k in w.clerks && LockStep(w, k).Next? && k in LockStep(w, k).w.clerks
    requires w.clerks[k].pc in {Switch, Wait1, Wait2, Signal1, Signal2}
    ensures ClerkLeft(LockStep(w, k).w.clerks[k]) < ClerkLeft(w.clerks[k])
  {
  }

  lemma BookLeft(w: World, k: int)
    requires k in w.clerks && BookStep(w, k).Next? && k in BookStep(w, k).w.clerks
    requires var pc := w.clerks[k].pc; pc == Test || pc.Dec? || pc.Flag? || pc.Store? || pc.Count?
    ensures ClerkLeft(BookStep(w, k).w.clerks[k]) < ClerkLeft(w.clerks[k])
  {
  }

  lemma LeaveLeft(w: World, k: int)
    requires k in w.clerks && LeaveStep(w, k).Next? && k in LeaveStep(w, k).w.clerks
    requires w.clerks[k].pc in {Opened, FinishSignal, ClerkSignal, Closing, Gone}
    ensures ClerkLeft(LeaveStep(w, k).w.clerks[k]) < ClerkLeft(w.clerks[k])
  {
  }

  lemma ClerkGoesOn(w: World, k: int)
    requires k in w.clerks && ClerkStep(w, k).Next? && k in ClerkStep(w, k).w.clerks
    ensures var c, c' := w.clerks[k], ClerkStep(w, k).w.clerks[k];
            ClerkLeft(c') < ClerkLeft(c) + if c.pc == ReadyWait then TURN else 0
  {
    hide FetchStep, LockStep, BookStep, LeaveStep, ClerkLeft;
    match w.clerks[k].pc
    case ReadyWait | QueueWait | Peek | QueueBack | Advance | QueueSignal => FetchLeft(w, k);
    case Switch | Wait1 | Wait2 | Signal1 | Signal2 => LockLeft(w, k);
    case Test | Dec(_) | Flag(_) | Store(_) | Count(_) => BookLeft(w, k);
    case Opened | FinishSignal | ClerkSignal | Closing | Gone => LeaveLeft(w, k);
  }

  lemma ClerkLowers(w: World, k: int)
    requires k in w.clerks && ClerkStep(w, k).Next?
    ensures var w' := ClerkStep(w, k).w;
            Left(w') < Left(w) && |w'.clerks| == |w.clerks| && |w'.customers| == |w.customers|
  {
    hide ClerkStep, Total, ClerkLeft, CustomerLeft, AgencyLeft, Working, Away, Leaving, IsGone, Freeing;
    EffectOfClerk(w, k);
    var w' := ClerkStep(w, k).w;
    ClerkGoesOn(w, k);
    TotalMoves(w.clerks, k, w'.clerks[k], ClerkLeft);
    SameSize(w.clerks, k, w'.clerks[k]);
  }

  lemma CustomerGoesOn(o: Customer, c: Customer)
    requires c.pc == After(o.pc) && o.pc != Done
    ensures CustomerLeft(c) + (if o.pc == ReadySignal then TURN else 0) == CustomerLeft(o) - 1
  {
  }

  lemma CustomerLowers(w: World, p: int, ty: int)
    requires p in w.customers && CustomerStep(w, p, ty).Next?
    ensures var w' := CustomerStep(w, p, ty).w;
            Left(w') < Left(w) && |w'.clerks| == |w.clerks| && |w'.customers| == |w.customers|
  {
    hide CustomerStep, Total, ClerkLeft, CustomerLeft, AgencyLeft, After;
    EffectOfCustomer(w, p, ty);
    DoneRests(w, p, ty);
    var w' := CustomerStep(w, p, ty).w;
    CustomerGoesOn(w.customers[p], w'.customers[p]);
    TotalMoves(w.customers, p, w'.customers[p], CustomerLeft);
    SameSize(w.customers, p, w'.customers[p]);
  }

  lemma AgencyGoesOn(w: World)
    requires AgencyStep(w).Next?
    ensures var w', m, n := AgencyStep(w).w, |w.clerks|, |w.customers|;
            AgencyLeft(w'.agency, m, n) + TURN * w'.line.ready == AgencyLeft(w.agency, m, n) + TURN * w.line.ready - 1
  {
    hide AgencyStep, AgencyLeft;
    var w', m, n := AgencyStep(w).w, |w.clerks|, |w.customers|;
    AgencyPlaces(w);
    AgencyCost(w.agency, w'.agency, m, n);
    assert TURN * w'.line.ready == TURN * w.line.ready + TURN * Woken(w.agency, m);
  }

  /** The unit of cust_ready that the agency's next step gives. */
  function Woken(a: Agency, clerks: nat): nat {
    if a.Wake? && a.n != clerks then 1 else 0
  }

  function AfterAgency(a: Agency, clerks: nat, customers: nat): Agency {
    match a
    case Collect(n) => if n == customers then Close else Collect(n + 1)
    case Close => Mark
    case Mark => Wake(0)
    case Wake(n) => if n == clerks then Await(0) else Wake(n + 1)
    case Await(n) => if n == clerks then Over else Await(n + 1)
    case Over => Over
  }

  lemma AgencyPlaces(w: World)
    requires AgencyStep(w).Next?
    ensures var w', m, n := AgencyStep(w).w, |w.clerks|, |w.customers|;
            && w.agency != Over && w'.agency == AfterAgency(w.agency, m, n)
            && w'.line.ready == w.line.ready + Woken(w.agency, m)
  {
  }

  lemma AgencyCost(a: Agency, a': Agency, clerks: nat, customers: nat)
    requires a != Over && a' == AfterAgency(a, clerks, customers)
    ensures AgencyLeft(a', clerks, customers) + TURN * Woken(a, clerks) == AgencyLeft(a, clerks, customers) - 1
  {
  }

  lemma AgencyLowers(w: World)
    requires AgencyStep(w).Next?
    ensures var w' := AgencyStep(w).w;
            Left(w') < Left(w) && |w'.clerks| == |w.clerks| && |w'.customers| == |w.customers|
  {
    hide Total, ClerkLeft, CustomerLeft, AgencyStep, AgencyLeft;
    AgencyShape(w);
    AgencyGoesOn(w);
  }

  lemma StepLowers(w: World, a: Action)
    requires Step(w, a).Next?
    ensures var w' := Step(w, a).w;
            Left(w') < Left(w) && |w'.clerks| == |w.clerks| && |w'.customers| == |w.customers|
  {
    hide ClerkStep, CustomerStep, AgencyStep, Left;
    match a
    case ClerkMoves(k) => ClerkLowers(w, k);
    case CustomerMoves(p, ty) => CustomerLowers(w, p, ty);
    case AgencyMoves => AgencyLowers(w);
  }

  // Runs -------------------------------------------------------------------------------

  lemma InitLeft(w: World, t1: nat, t2: nat)
    requires Init(w, t1, t2)
    ensures Left(w) == Bound(|w.clerks|, |w.customers|)
  {
    hide Total, FlightInit;
    TotalSame(w.clerks, ClerkLeft, 2);
    TotalSame(w.customers, CustomerLeft, 17 + TURN);
  }

  lemma NeverBelowZero(w: World, t1: nat, t2: nat)
    requires Inv(w, t1, t2) && DoorOk(w) && TermOk(w)
    ensures Left(w) >= 0
  {
    hide Inv, Total, Where;
    CountsFact(w, t1, t2);
  }

  lemma {:induction false} RunLowers(ws: seq<World>, acts: seq<Action>, t1: nat, t2: nat, i: nat)
    requires Run(ws, acts, t1, t2) && i < |ws|
    ensures Left(ws[i]) + i <= Bound(|ws[0].clerks|, |ws[0].customers|)
    ensures |ws[i].clerks| == |ws[0].clerks| && |ws[i].customers| == |ws[0].customers|
    decreases i
  {
    hide Init, Step, Left, Bound;
    if i == 0 {
      InitLeft(ws[0], t1, t2);
    } else {
      RunLowers(ws, acts, t1, t2, i - 1);
      assert Step(ws[i - 1], acts[i - 1]) == Next(ws[i - 1 + 1]);
      StepLowers(ws[i - 1], acts[i - 1]);
    }
  }

  /** No run has more steps than the clerks and customers there are allow, whoever moves when. */
  lemma RunTerminates(ws: seq<World>, acts: seq<Action>, t1: nat, t2: nat)
    requires Run(ws, acts, t1, t2) && Divided(ws[0])
    ensures |acts| <= Bound(|ws[0].clerks|, |ws[0].customers|)
  {
    hide Init, Step, Inv, Left, Divided, Bound, LeftOk, CapacityOk, UnitsOk, DoorOk, TermOk, OwnerOk, Located;
    RunLowers(ws, acts, t1, t2, |acts|);
    RunInv(ws, acts, t1, t2, |acts|);
    RunLedger(ws, acts, t1, t2, |acts|);
    NeverBelowZero(ws[|acts|], t1, t2);
  }

  /** A run that nobody can continue has everything done. */
  lemma MaximalRunIsFinished(ws: seq<World>, acts: seq<Action>, t1: nat, t2: nat, k: int)
    requires Run(ws, acts, t1, t2) && Divided(ws[0]) && Stuck(ws[|acts|])
    requires ws[0].capacity > 0 && ws[0].clerkSem > 0 && k in ws[0].clerks
    ensures Finished(ws[|acts|])
  {
    hide Init, Step, Divided, Finished;
    RunProgresses(ws, acts, t1, t2, |acts|, k);
  }

  lemma RunGoesOn(ws: seq<World>, acts: seq<Action>, t1: nat, t2: nat, a: Action)
    requires Run(ws, acts, t1, t2) && Step(ws[|acts|], a).Next?
    ensures Run(ws + [Step(ws[|acts|], a).w], acts + [a], t1, t2)
  {
    hide Init, Step;
    var vs, bs := ws + [Step(ws[|acts|], a).w], acts + [a];
    forall i | 0 <= i < |bs| ensures Step(vs[i], bs[i]) == Next(vs[i + 1]) {
      if i < |acts| {
        assert Step(ws[i], acts[i]) == Next(ws[i + 1]);
      }
    }
  }

  /** Every run can be continued to the end. */
  lemma {:induction false} RunCanFinish(ws: seq<World>, acts: seq<Action>, t1: nat, t2: nat, k: int)
      returns (vs: seq<World>, bs: seq<Action>)
    requires Run(ws, acts, t1, t2) && Divided(ws[0])
    requires ws[0].capacity > 0 && ws[0].clerkSem > 0 && k in ws[0].clerks
    ensures Run(vs, bs, t1, t2) && ws <= vs && acts <= bs && Finished(vs[|bs|])
    decreases Bound(|ws[0].clerks|, |ws[0].customers|) - |acts|
  {
    hide Init, Step, Divided, Finished, Bound, Run;
    RunShape(ws, acts, t1, t2);
    RunProgresses(ws, acts, t1, t2, |acts|, k);
    RunTerminates(ws, acts, t1, t2);
    if Finished(ws[|acts|]) {
      vs, bs := ws, acts;
    } else {
      var a :| Step(ws[|acts|], a).Next?;
      RunGoesOn(ws, acts, t1, t2, a);
      RunTerminates(ws + [Step(ws[|acts|], a).w], acts + [a], t1, t2);
      vs, bs := RunCanFinish(ws + [Step(ws[|acts|], a).w], acts + [a], t1, t2, k);
    }
  }

  lemma RunShape(ws: seq<World>, acts: seq<Action>, t1: nat, t2: nat)
    requires Run(ws, acts, t1, t2)
    ensures |ws| == |acts| + 1
  {
  }

  // ---------------------------------------------------------------------------
  // A run on which the agency's asserts fail
  // ---------------------------------------------------------------------------

  /** A clerk has signalled that customer's cust_finished. */
  ghost predicate ServedOne(stage: map<int, Stage>, c: Customer) {
    Enqueued(c) && c.id in stage && Rank(stage[c.id]) >= 2
  }

  ghost predicate AllServed(w: World) {
    forall p | p in w.customers :: ServedOne(w.line.stage, w.customers[p])
  }

  lemma CustomerServesNobody(w: World, p: int, ty: int, t1: nat, t2: nat)
    requires Inv(w, t1, t2) && p in w.customers && CustomerStep(w, p, ty).Next?
    ensures AllServed(CustomerStep(w, p, ty).w) <==> AllServed(w)
  {
    hide Inv, CustomerStep, ServedOne, Enqueued, After;
    EffectOfCustomer(w, p, ty);
    StageOfCustomer(w, p, ty, t1, t2);
    var w' := CustomerStep(w, p, ty).w;
    OwnRequest(w, p, ty, t1, t2);
    forall q | q in w.customers
      ensures ServedOne(w'.line.stage, w'.customers[q]) <==> ServedOne(w.line.stage, w.customers[q])
    {
      if q != p {
        SameService(w.line.stage, w'.line.stage, w.customers[p].id, w.customers[q]);
      }
    }
    assert w'.customers.Keys == w.customers.Keys;
  }

  lemma SameService(stage: map<int, Stage>, stage': map<int, Stage>, x: int, c: Customer)
    requires || stage' == stage || (x !in stage && stage' == stage[x := Queued])
             || (x in stage && stage[x] == Served && stage' == stage[x := Collected])
    ensures ServedOne(stage', c) <==> ServedOne(stage, c)
  {
  }

  lemma OwnRequest(w: World, p: int, ty: int, t1: nat, t2: nat)
    requires Inv(w, t1, t2) && p in w.customers && CustomerStep(w, p, ty).Next?
    ensures var w' := CustomerStep(w, p, ty).w;
            p in w'.customers && (ServedOne(w'.line.stage, w'.customers[p]) <==> ServedOne(w.line.stage, w.customers[p]))
  {
    hide Inv, CustomerStep;
    PlaceMoves(w, p, ty);
    StageOfCustomer(w, p, ty, t1, t2);
  }

  lemma PlaceMoves(w: World, p: int, ty: int)
    requires p in w.customers && CustomerStep(w, p, ty).Next?
    ensures p in CustomerStep(w, p, ty).w.customers
    ensures var c, c' := w.customers[p], CustomerStep(w, p, ty).w.customers[p];
            (Enqueued(c') <==> Enqueued(c) || c.pc == LineCount) && (Enqueued(c') ==> c'.id == c.id)
  {
  }

  /** Only a clerk at its FinishSignal can serve the last customer. */
  lemma LastIsServed(w: World, a: Action, t1: nat, t2: nat)
    requires Inv(w, t1, t2) && Step(w, a).Next? && !AllServed(w) && AllServed(Step(w, a).w)
    ensures a.ClerkMoves? && a.k in w.clerks && w.clerks[a.k].pc == FinishSignal
  {
    hide Inv, ClerkStep, CustomerStep, AgencyStep;
    match a
    case CustomerMoves(p, ty) => CustomerServesNobody(w, p, ty, t1, t2);
    case AgencyMoves =>
      AgencyShape(w);
      AgencyStages(w);
    case ClerkMoves(k) =>
      EffectOfClerk(w, k);
      StageOfClerk(w, k, t1, t2);
  }

  lemma AgencyStages(w: World)
    requires AgencyStep(w).Next?
    ensures AgencyStep(w).w.line.stage == w.line.stage
  {
  }

  lemma ClerkHasServed(w: World, k: int)
    requires k in w.clerks && w.clerks[k].pc == FinishSignal && ClerkStep(w, k).Next?
    ensures var w' := ClerkStep(w, k).w; k in w'.clerks && w'.clerks[k].pc == ClerkSignal && w'.agency == w.agency
  {
  }

  /** While a customer has not been served the agency still collects. */
  lemma StillCollecting(w: World, t1: nat, t2: nat)
    requires Inv(w, t1, t2) && !AllServed(w)
    ensures w.agency.Collect?
  {
    hide Inv;
    CountsFact(w, t1, t2);
    if !w.agency.Collect? {
      AllToldAreServed(w, t1, t2);
    }
  }

  lemma AllToldAreServed(w: World, t1: nat, t2: nat)
    requires Inv(w, t1, t2) && forall p | p in w.customers :: Told(w.customers[p])
    ensures AllServed(w)
  {
    hide Inv;
    forall p | p in w.customers ensures ServedOne(w.line.stage, w.customers[p]) {
      ToldIsCollected(w, p, t1, t2);
    }
  }

  /** The first state in which every customer has been served, and the clerk that served the last. */
  lemma {:induction false} FirstAllServed(ws: seq<World>, acts: seq<Action>, t1: nat, t2: nat, i: nat) returns (j: nat, k: int)
    requires Run(ws, acts, t1, t2) && i < |ws| && AllServed(ws[i]) && !AllServed(ws[0])
    ensures j <= i && AllServed(ws[j]) && ws[j].agency.Collect?
    ensures k in ws[j].clerks && ws[j].clerks[k].pc == ClerkSignal
    decreases i
  {
    hide Init, Step, Inv, AllServed;
    if AllServed(ws[i - 1]) {
      j, k := FirstAllServed(ws, acts, t1, t2, i - 1);
    } else {
      var w, a := ws[i - 1], acts[i - 1];
      assert Step(w, a) == Next(ws[i - 1 + 1]);
      RunInv(ws, acts, t1, t2, i - 1);
      LastIsServed(w, a, t1, t2);
      StillCollecting(w, t1, t2);
      j, k := i, a.k;
      ServedStep(w, a);
    }
  }

  lemma ServedStep(w: World, a: Action)
    requires Step(w, a).Next? && a.ClerkMoves? && a.k in w.clerks && w.clerks[a.k].pc == FinishSignal
    ensures var w' := Step(w, a).w; a.k in w'.clerks && w'.clerks[a.k].pc == ClerkSignal && w'.agency == w.agency
  {
    hide ClerkStep;
    ClerkHasServed(w, a.k);
  }

  /** A customer that has been served can leave without anybody's help. */
  lemma ServedCanLeave(w: World, p: int, t1: nat, t2: nat)
    requires Inv(w, t1, t2) && p in w.customers && ServedOne(w.line.stage, w.customers[p]) && w.customers[p].pc != Done
    ensures CustomerStep(w, p, 0).Next?
  {
    hide Inv, IdsInv, LineInv, BookInv, CustomerStep;
    CustomerKeeps(w, p, 0, t1, t2);
    TakeBook(w, t1, t2);
    if CustomerStep(w, p, 0) == Blocked {
      CustomerHeldUp(w, p, 0);
      FinishWaits(w, p);
    }
  }

  /** From there the customers leave and the agency collects them, while clerk `k` does not move. */
  lemma {:induction false} CustomersLeave(ws: seq<World>, acts: seq<Action>, t1: nat, t2: nat, k: int)
      returns (vs: seq<World>, bs: seq<Action>)
    requires Run(ws, acts, t1, t2) && Divided(ws[0]) && AllServed(ws[|acts|]) && ws[|acts|].agency.Collect?
    requires k in ws[|acts|].clerks && ws[|acts|].clerks[k].pc == ClerkSignal
    ensures Run(vs, bs, t1, t2) && vs[0] == ws[0] && Checking(vs[|bs|])
    ensures k in vs[|bs|].clerks && vs[|bs|].clerks[k].pc == ClerkSignal
    decreases Bound(|ws[0].clerks|, |ws[0].customers|) - |acts|
  {
    hide Init, Inv, Divided, Bound, Run, AllServed, ClerkStep, CustomerStep, AgencyStep, Where;
    RunShape(ws, acts, t1, t2);
    var w := ws[|acts|];
    RunInv(ws, acts, t1, t2, |acts|);
    RunTerminates(ws, acts, t1, t2);
    if Checking(w) {
      vs, bs := ws, acts;
    } else {
      var a := NextToLeave(w, t1, t2);
      RunGoesOn(ws, acts, t1, t2, a);
      var w' := Step(w, a).w;
      RunTerminates(ws + [w'], acts + [a], t1, t2);
      vs, bs := CustomersLeave(ws + [w'], acts + [a], t1, t2, k);
    }
  }

  lemma NextToLeave(w: World, t1: nat, t2: nat) returns (a: Action)
    requires Inv(w, t1, t2) && AllServed(w) && w.agency.Collect? && !Checking(w)
    ensures Step(w, a).Next?
    ensures var w' := Step(w, a).w; AllServed(w') && w'.agency.Collect? && w'.clerks == w.clerks
  {
    hide Inv, ClerkStep, CustomerStep, AgencyStep, Where, ServedOne;
    if p :| p in w.customers && w.customers[p].pc != Done {
      a := CustomerMoves(p, 0);
      ServedCanLeave(w, p, t1, t2);
      EffectOfCustomer(w, p, 0);
      CustomerServesNobody(w, p, 0, t1, t2);
    } else {
      a := AgencyMoves;
      CountsFact(w, t1, t2);
      WhereAll(w.customers, IsDone, IsDone);
      CollectsNext(w);
      AgencyShape(w);
      AgencyStages(w);
    }
  }

  lemma CollectsNext(w: World)
    requires w.agency.Collect? && !Checking(w) && w.line.term > 0
    ensures AgencyStep(w).Next? && AgencyStep(w).w.agency.Collect?
  {
  }

  lemma PrefixIsRun(ws: seq<World>, acts: seq<Action>, t1: nat, t2: nat, j: nat)
    requires Run(ws, acts, t1, t2) && j <= |acts|
    ensures Run(ws[..j + 1], acts[..j], t1, t2)
  {
    hide Init, Step;
    forall i | 0 <= i < j ensures Step(ws[i], acts[i]) == Next(ws[i + 1]) {
    }
  }

  /** A run up to the moment at which the last customer has just been served, by clerk `k`. */
  lemma RunToLastService(w: World, t1: nat, t2: nat, clerk: int, p: int)
      returns (ws: seq<World>, acts: seq<Action>, k: int)
    requires Init(w, t1, t2) && Divided(w) && w.capacity > 0 && w.clerkSem > 0 && clerk in w.clerks && p in w.customers
    ensures Run(ws, acts, t1, t2) && ws[0] == w && AllServed(ws[|acts|]) && ws[|acts|].agency.Collect?
    ensures k in ws[|acts|].clerks && ws[|acts|].clerks[k].pc == ClerkSignal
  {
    hide Divided, Step, Inv, AllServed;
    assert Run([w], [], t1, t2);
    assert !AllServed(w) by { NobodyServedYet(w, t1, t2, p); }
    hide Run, Init;
    var vs, bs := RunCanFinish([w], [], t1, t2, clerk);
    RunShape(vs, bs, t1, t2);
    assert vs[0] == [w][0];
    RunInv(vs, bs, t1, t2, |bs|);
    AllToldAreServed(vs[|bs|], t1, t2);
    var j;
    j, k := FirstAllServed(vs, bs, t1, t2, |bs|);
    ws, acts := vs[..j + 1], bs[..j];
    PrefixIsRun(vs, bs, t1, t2, j);
  }

  lemma NobodyServedYet(w: World, t1: nat, t2: nat, p: int)
    requires Init(w, t1, t2) && p in w.customers
    ensures !AllServed(w)
  {
    assert !ServedOne(w.line.stage, w.customers[p]);
  }

  /** Whatever the numbers of clerks and customers, there is a run on which the agency comes to its asserts too early: a
      clerk has told the last customer and not yet signalled that it is free, so the clerks' semaphore is short of its
      initial count, and cust_ready does not hold every clerk. */
  lemma AssertsCanFail(w: World, t1: nat, t2: nat, clerk: int, p: int) returns (ws: seq<World>, acts: seq<Action>)
    requires Init(w, t1, t2) && Divided(w) && w.capacity > 0 && w.clerkSem > 0 && clerk in w.clerks && p in w.customers
    ensures Run(ws, acts, t1, t2) && ws[0] == w && Checking(ws[|acts|])
    ensures ws[|acts|].clerkSem < w.clerkSem
    ensures forall waiting | waiting <= Where(ws[|acts|].clerks, AtReady) ::
              ws[|acts|].line.ready - |waiting| != -|ws[|acts|].clerks|
  {
    hide Init, Divided, Run, Where, AllServed;
    var k;
    ws, acts, k := RunToLastService(w, t1, t2, clerk, p);
    ws, acts := CustomersLeave(ws, acts, t1, t2, k);
    RunShape(ws, acts, t1, t2);
    FinalCounts(ws, acts, t1, t2, |acts|);
    var end := ws[|acts|];
    forall waiting | waiting <= Where(end.clerks, AtReady) ensures end.line.ready - |waiting| != -|end.clerks| {
      FinalAssertsHoldIff(ws, acts, t1, t2, |acts|, waiting);
    }
    FinalAssertsHoldIff(ws, acts, t1, t2, |acts|, {});
  }

  lemma FreeClerkMoves(w: World, k: int, t1: nat, t2: nat)
    requires Inv(w, t1, t2) && DoorOk(w) && Checking(w) && k in w.clerks && !AtReady(w.clerks[k])
    ensures ClerkStep(w, k).Next? && Checking(ClerkStep(w, k).w)
  {
    hide Inv, Where;
    ClerksAreFree(w, k, t1, t2);
  }

  /** From the moment of the asserts, the clerks alone come to a state in which every one of them waits for a customer: what
      the agency's sleep is for, and what makes both asserts hold. */
  lemma {:induction false} AssertsCanHold(ws: seq<World>, acts: seq<Action>, t1: nat, t2: nat)
      returns (vs: seq<World>, bs: seq<Action>)
    requires Run(ws, acts, t1, t2) && Divided(ws[0]) && Checking(ws[|acts|])
    ensures Run(vs, bs, t1, t2) && ws <= vs && acts <= bs && Checking(vs[|bs|])
    ensures forall k | k in vs[|bs|].clerks :: AtReady(vs[|bs|].clerks[k])
    decreases Bound(|ws[0].clerks|, |ws[0].customers|) - |acts|
  {
    hide Init, Inv, Divided, Bound, Run, ClerkStep, Checking, LeftOk, CapacityOk, UnitsOk, DoorOk, TermOk, OwnerOk, Located;
    RunShape(ws, acts, t1, t2);
    var w := ws[|acts|];
    RunInv(ws, acts, t1, t2, |acts|);
    RunLedger(ws, acts, t1, t2, |acts|);
    if k :| k in w.clerks && !AtReady(w.clerks[k]) {
      FreeClerkMoves(w, k, t1, t2);
      RunGoesOn(ws, acts, t1, t2, ClerkMoves(k));
      var w' := Step(w, ClerkMoves(k)).w;
      RunTerminates(ws + [w'], acts + [ClerkMoves(k)], t1, t2);
      vs, bs := AssertsCanHold(ws + [w'], acts + [ClerkMoves(k)], t1, t2);
    } else {
      vs, bs := ws, acts;
    }
  }
}
