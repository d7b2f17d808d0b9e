/** The airline agency never comes to a standstill: with at least one clerk, room for a customer and a free clerk to begin
    with, in every run some process can move until all customers are done, the agency has closed and all clerks are gone. */
module AirlineProgress {
  import opened Common
  import opened Airline

  // ---------------------------------------------------------------------------
  // What the semaphores count
  // ---------------------------------------------------------------------------

  predicate Unchosen(c: Customer) {
    c.pc == IdWait || c.pc == IdRead || c.pc == IdCount || c.pc == Choose
  }

  /** Between taking a unit of capacity and giving it back. */
  predicate Inside(c: Customer) {
    c.pc == ClerkWait || Filling(c) || Signalling(c) || c.pc == FinishWait || c.pc == CapacitySignal
  }

  /** With a clerk's unit in hand, not in the line yet. */
  predicate Filling(c: Customer) {
    c.pc == InfoBooked || c.pc == InfoType || c.pc == LineWait || c.pc == LineWrite || c.pc == LineCount
  }

  predicate Freeing(c: Clerk) {
    c.pc == ClerkSignal
  }

  predicate Away(c: Clerk) {
    c.pc != ReadyWait
  }

  predicate Leaving(c: Clerk) {
    c.pc == Closing || c.pc == Gone
  }

  predicate IsGone(c: Clerk) {
    c.pc == Gone
  }

  /** The flights left to choose are as many as the customers that have still to choose. */
  ghost predicate LeftOk(w: World) {
    && w.ids.left.Keys == {1, 2, 3} && (forall f | f in w.ids.left :: w.ids.left[f] >= 0)
    && w.ids.left[1] + w.ids.left[2] + w.ids.left[3] == |Where(w.customers, Unchosen)|
  }

  ghost predicate CapacityOk(w: World, capacity: nat) {
    w.capacity + |Where(w.customers, Inside)| == capacity
  }

  /** A clerk's unit is free, with a customer that fills in its request, with a request in the line, or with a clerk. */
  ghost predicate UnitsOk(w: World, units: nat) {
    w.clerkSem + |Where(w.customers, Filling)| + (w.line.qin - w.line.qout)
    + |Where(w.clerks, Working)| + |Where(w.clerks, Freeing)| == units
  }

  /** Clerks leave only when the agency is closed; there is a wake-up for each that may still be waiting. */
  ghost predicate DoorOk(w: World) {
    && (w.isOpened <==> w.agency.Collect? || w.agency == Close)
    && (w.isOpened ==> forall k | k in w.clerks :: !Leaving(w.clerks[k]))
    && (w.agency.Wake? ==> w.agency.n <= |w.clerks| && w.agency.n <= w.line.ready + |Where(w.clerks, Away)|)
    && (w.agency.Await? || w.agency.Over? ==> |w.clerks| <= w.line.ready + |Where(w.clerks, Away)|)
  }

  /** Clerks whose termination the agency has waited for. */
  function Awaited(w: World): nat {
    if w.agency.Await? then w.agency.n else if w.agency.Over? then |w.clerks| else 0
  }

  /** Every clerk that is gone has signalled once. */
  ghost predicate TermOk(w: World) {
    Awaited(w) <= |w.clerks| && w.clerkTerm + Awaited(w) == |Where(w.clerks, IsGone)|
  }

  ghost predicate OwnerOk(w: World) {
    match w.line.owner
    case None => true
    case Some(ClerkProc(k)) => k in w.clerks
    case Some(CustomerProc(p)) => p in w.customers
  }

  /** Every request that nobody has taken has its cell. */
  ghost predicate Located(l: Line) {
    forall x | x in l.stage && l.stage[x] == Queued :: InCells(l, x)
  }

  ghost predicate InCells(l: Line, x: int) {
    exists i: nat :: l.qout <= i < l.qin && i < |l.cells| && l.cells[i] == x
  }

  ghost predicate Ledger(w: World, capacity: nat, units: nat) {
    LeftOk(w) && CapacityOk(w, capacity) && UnitsOk(w, units) && DoorOk(w) && TermOk(w) && OwnerOk(w) && Located(w.line)
  }

  // ---------------------------------------------------------------------------
  // What a customer step does to the accounts
  // ---------------------------------------------------------------------------

  function If(b: bool): int {
    if b then 1 else 0
  }

  ghost predicate CustomerEffect(w: World, p: int, ty: int, r: Outcome) {
    p in w.customers &&
    (r.Next? ==>
       var w', o, l, l' := r.w, w.customers[p], w.line, r.w.line;
       && p in w'.customers && w'.customers == w.customers[p := w'.customers[p]] && w'.customers[p].pc == After(o.pc)
       && w'.clerks == w.clerks && w'.agency == w.agency && w'.isOpened == w.isOpened && w'.clerkTerm == w.clerkTerm
       && w'.capacity == w.capacity + If(o.pc == CapacitySignal) - If(o.pc == CapacityWait)
       && w'.clerkSem == w.clerkSem - If(o.pc == ClerkWait)
       && l'.qin == l.qin + If(o.pc == LineCount) && l'.qout == l.qout && l'.ready == l.ready + If(o.pc == ReadySignal)
       && (l'.owner == l.owner || l'.owner == None || l'.owner == Some(CustomerProc(p)))
       && (if o.pc == Choose then 1 <= ty <= 3 && ty in w.ids.left && w.ids.left[ty] > 0
                                  && w'.ids.left == w.ids.left[ty := w.ids.left[ty] - 1]
           else w'.ids.left == w.ids.left))
  }

  lemma IdEffect(w: World, p: int, ty: int)
    requires p in w.customers && (Unchosen(w.customers[p]) || w.customers[p].pc == IdSignal)
    ensures CustomerEffect(w, p, ty, IdPhase(w, p, ty))
  {
  }

  lemma InfoEffect(w: World, p: int, ty: int)
    requires p in w.customers && w.customers[p].pc in {CapacityWait, ClerkWait, InfoBooked, InfoType}
    ensures CustomerEffect(w, p, ty, InfoPhase(w, p))
  {
  }

  lemma LineEffect(w: World, p: int, ty: int)
    requires p in w.customers && w.customers[p].pc in {LineWait, LineWrite, LineCount, LineSignal, ReadySignal}
    ensures CustomerEffect(w, p, ty, LinePhase(w, p))
  {
  }

  lemma ExitEffect(w: World, p: int, ty: int)
    requires p in w.customers && w.customers[p].pc in {FinishWait, CapacitySignal, TermSignal, Done}
    ensures CustomerEffect(w, p, ty, ExitPhase(w, p))
  {
  }

  lemma EffectOfCustomer(w: World, p: int, ty: int)
    requires p in w.customers
    ensures CustomerEffect(w, p, ty, CustomerStep(w, p, ty))
  {
    hide CustomerEffect, IdPhase, InfoPhase, LinePhase, ExitPhase;
    match w.customers[p].pc
    case IdWait | IdRead | IdCount | Choose | IdSignal => IdEffect(w, p, ty);
    case CapacityWait | ClerkWait | InfoBooked | InfoType => InfoEffect(w, p, ty);
    case LineWait | LineWrite | LineCount | LineSignal | ReadySignal => LineEffect(w, p, ty);
    case FinishWait | CapacitySignal | TermSignal | Done => ExitEffect(w, p, ty);
  }

  /** Where the accounts change as a customer goes on. */
  lemma PlacesMove(o: Customer, c: Customer)
    requires c.pc == After(o.pc) && o.pc != Done
    ensures If(Unchosen(o)) - If(Unchosen(c)) == If(o.pc == Choose)
    ensures If(Inside(c)) - If(Inside(o)) == If(o.pc == CapacityWait) - If(o.pc == CapacitySignal)
    ensures If(Filling(c)) - If(Filling(o)) == If(o.pc == ClerkWait) - If(o.pc == LineCount)
  {
  }

  lemma LeftMoves(w: World, w': World, p: int, ty: int)
    requires LeftOk(w) && CustomerEffect(w, p, ty, Next(w')) && w.customers[p].pc != Done
    ensures LeftOk(w')
  {
    hide Where, Unchosen, Inside, Filling, After;
    PlacesMove(w.customers[p], w'.customers[p]);
    WhereMoves(w.customers, p, w'.customers[p], Unchosen);
  }

  lemma CapacityMoves(w: World, w': World, p: int, ty: int, capacity: nat)
    requires CapacityOk(w, capacity) && CustomerEffect(w, p, ty, Next(w')) && w.customers[p].pc != Done
    ensures CapacityOk(w', capacity)
  {
    hide Where, Unchosen, Inside, Filling, After;
    PlacesMove(w.customers[p], w'.customers[p]);
    WhereMoves(w.customers, p, w'.customers[p], Inside);
  }

  lemma UnitsMove(w: World, w': World, p: int, ty: int, units: nat)
    requires UnitsOk(w, units) && CustomerEffect(w, p, ty, Next(w')) && w.customers[p].pc != Done
    ensures UnitsOk(w', units)
  {
    hide Where, Unchosen, Inside, Filling, After;
    PlacesMove(w.customers[p], w'.customers[p]);
    WhereMoves(w.customers, p, w'.customers[p], Filling);
  }

  lemma DoorMoves(w: World, w': World, p: int, ty: int)
    requires DoorOk(w) && TermOk(w) && OwnerOk(w) && CustomerEffect(w, p, ty, Next(w'))
    ensures DoorOk(w') && TermOk(w') && OwnerOk(w')
  {
    hide Where;
  }

  /** The request a customer adds is in its cell, and the other cells of the line stay. */
  lemma LocatedMoves(w: World, p: int, ty: int, t1: nat, t2: nat)
    requires Inv(w, t1, t2) && Located(w.line) && p in w.customers && CustomerStep(w, p, ty).Next?
    ensures Located(CustomerStep(w, p, ty).w.line)
  {
    hide Inv, IdsInv, LineInv, BookInv, CustomerStep;
    TakeBook(w, t1, t2);
    StageOfCustomer(w, p, ty, t1, t2);
    CustomerFacts(w, p);
    CellsBound(w);
    CellsOfCustomer(w, p, ty);
    var l, l' := w.line, CustomerStep(w, p, ty).w.line;
    forall x | x in l'.stage && l'.stage[x] == Queued ensures InCells(l', x) {
      if w.customers[p].pc == LineCount && x == w.customers[p].id {
        assert l'.cells[l.qin] == x;
      } else {
        assert InCells(l, x);
        var i: nat :| l.qout <= i < l.qin && i < |l.cells| && l.cells[i] == x;
        assert l'.cells[i] == x;
      }
    }
  }

  lemma CellsOfCustomer(w: World, p: int, ty: int)
    requires p in w.customers && CustomerStep(w, p, ty).Next?
    ensures var l, l' := w.line, CustomerStep(w, p, ty).w.line;
            && l'.qout == l.qout && l'.qin == l.qin + If(w.customers[p].pc == LineCount) && |l'.cells| == |l.cells|
            && forall i | 0 <= i < |l.cells| && i < l.qin :: l'.cells[i] == l.cells[i]
    ensures w.customers[p].pc == LineCount ==> CustomerStep(w, p, ty).w.line.cells == w.line.cells
  {
  }

  lemma CustomerLedger(w: World, p: int, ty: int, t1: nat, t2: nat, capacity: nat, units: nat)
    requires Inv(w, t1, t2) && Ledger(w, capacity, units) && p in w.customers && CustomerStep(w, p, ty).Next?
    ensures Ledger(CustomerStep(w, p, ty).w, capacity, units)
  {
    hide Inv, CustomerStep, LeftOk, CapacityOk, UnitsOk, DoorOk, TermOk, OwnerOk, Located, CustomerEffect;
    var w' := CustomerStep(w, p, ty).w;
    EffectOfCustomer(w, p, ty);
    DoneRests(w, p, ty);
    LeftMoves(w, w', p, ty);
    CapacityMoves(w, w', p, ty, capacity);
    UnitsMove(w, w', p, ty, units);
    DoorMoves(w, w', p, ty);
    LocatedMoves(w, p, ty, t1, t2);
  }

  lemma DoneRests(w: World, p: int, ty: int)
    requires p in w.customers && CustomerStep(w, p, ty).Next?
    ensures w.customers[p].pc != Done
  {
  }

  // ---------------------------------------------------------------------------
  // What a clerk step does to the accounts
  // ---------------------------------------------------------------------------

  ghost predicate ClerkEffect(w: World, k: int, r: Outcome) {
    k in w.clerks &&
    (r.Next? ==>
       var w', o, l, l' := r.w, w.clerks[k], w.line, r.w.line;
       && k in w'.clerks && w'.clerks == w.clerks[k := w'.clerks[k]]
       && w'.customers == w.customers && w'.agency == w.agency && w'.isOpened == w.isOpened
       && w'.ids == w.ids && w'.capacity == w.capacity && w'.clerkSem == w.clerkSem + If(Freeing(o))
       && l'.qin == l.qin && l'.cells == l.cells
       && l'.qout == l.qout + If(o.pc == Advance) && l'.ready == l.ready - If(o.pc == ReadyWait)
       && (l'.owner == l.owner || l'.owner == None || l'.owner == Some(ClerkProc(k)))
       && If(Working(w'.clerks[k])) - If(Working(o)) == If(o.pc == Advance) - If(o.pc == FinishSignal)
       && If(Freeing(w'.clerks[k])) - If(Freeing(o)) == If(o.pc == FinishSignal) - If(Freeing(o))
       && w'.clerkTerm == w.clerkTerm + If(o.pc == Closing)
       && If(IsGone(w'.clerks[k])) - If(IsGone(o)) == If(o.pc == Closing)
       && (Away(w'.clerks[k]) <==> !(o.pc == Opened && w.isOpened))
       && (Leaving(w'.clerks[k]) ==> !w.isOpened || Leaving(o)))
  }

  lemma FetchEffect(w: World, k: int)
    requires k in w.clerks && w.clerks[k].pc in {ReadyWait, QueueWait, Peek, QueueBack, Advance, QueueSignal}
    ensures ClerkEffect(w, k, FetchStep(w, k))
  {
  }

  lemma DeskAccounts(w: World, k: int)
    requires k in w.clerks && AtDesk(w.clerks[k])
    ensures ClerkEffect(w, k, ClerkStep(w, k))
  {
    hide ClerkStep;
    if ClerkStep(w, k).Next? {
      DeskEffect(w, k);
    }
  }

  lemma LeaveEffect(w: World, k: int)
    requires k in w.clerks && w.clerks[k].pc in {Opened, FinishSignal, ClerkSignal, Closing, Gone}
    ensures ClerkEffect(w, k, LeaveStep(w, k))
  {
  }

  lemma EffectOfClerk(w: World, k: int)
    requires k in w.clerks
    ensures ClerkEffect(w, k, ClerkStep(w, k))
  {
    hide ClerkEffect, FetchStep, LeaveStep;
    match w.clerks[k].pc
    case ReadyWait | QueueWait | Peek | QueueBack | Advance | QueueSignal => FetchEffect(w, k);
    case Opened | FinishSignal | ClerkSignal | Closing | Gone => LeaveEffect(w, k);
    case _ => DeskAccounts(w, k);
  }

  lemma ClerkUnits(w: World, w': World, k: int, units: nat)
    requires UnitsOk(w, units) && ClerkEffect(w, k, Next(w'))
    ensures UnitsOk(w', units)
  {
    hide Where, Working, Away, Leaving, Filling;
    WhereMoves(w.clerks, k, w'.clerks[k], Working);
    WhereMoves(w.clerks, k, w'.clerks[k], Freeing);
  }

  lemma ClerkDoor(w: World, w': World, k: int)
    requires DoorOk(w) && OwnerOk(w) && LeftOk(w) && ClerkEffect(w, k, Next(w'))
    ensures DoorOk(w') && OwnerOk(w') && LeftOk(w')
  {
    hide Where, Working, Unchosen;
    WhereMoves(w.clerks, k, w'.clerks[k], Away);
    assert |w'.clerks| == |w.clerks| by { SameSize(w.clerks, k, w'.clerks[k]); }
  }

  lemma ClerkTerms(w: World, w': World, k: int)
    requires TermOk(w) && ClerkEffect(w, k, Next(w'))
    ensures TermOk(w')
  {
    hide Where, Working, Away, Leaving, Freeing, IsGone;
    WhereMoves(w.clerks, k, w'.clerks[k], IsGone);
    assert |w'.clerks| == |w.clerks| by { SameSize(w.clerks, k, w'.clerks[k]); }
  }

  /** The request a clerk takes is the one in the first cell; the others keep theirs. */
  lemma LocatedClerk(w: World, k: int, t1: nat, t2: nat)
    requires Inv(w, t1, t2) && Located(w.line) && k in w.clerks && ClerkStep(w, k).Next?
    ensures Located(ClerkStep(w, k).w.line)
  {
    hide Inv, IdsInv, LineInv, BookInv, ClerkStep, Working, Away, Leaving, Freeing;
    TakeBook(w, t1, t2);
    StageOfClerk(w, k, t1, t2);
    EffectOfClerk(w, k);
    ClerkFacts(w, k);
    var l, l' := w.line, ClerkStep(w, k).w.line;
    forall x | x in l'.stage && l'.stage[x] == Queued ensures InCells(l', x) {
      assert InCells(l, x);
      var i: nat :| l.qout <= i < l.qin && i < |l.cells| && l.cells[i] == x;
      assert l'.cells[i] == x;
    }
  }

  lemma ClerkLedger(w: World, k: int, t1: nat, t2: nat, capacity: nat, units: nat)
    requires Inv(w, t1, t2) && Ledger(w, capacity, units) && k in w.clerks && ClerkStep(w, k).Next?
    ensures Ledger(ClerkStep(w, k).w, capacity, units)
  {
    hide Inv, ClerkStep, LeftOk, UnitsOk, DoorOk, TermOk, OwnerOk, Located;
    var w' := ClerkStep(w, k).w;
    EffectOfClerk(w, k);
    assert CapacityOk(w', capacity);
    hide ClerkEffect;
    ClerkUnits(w, w', k, units);
    ClerkDoor(w, w', k);
    ClerkTerms(w, w', k);
    LocatedClerk(w, k, t1, t2);
  }

  // ---------------------------------------------------------------------------
  // The agency
  // ---------------------------------------------------------------------------

  lemma AgencyLocated(w: World, t1: nat, t2: nat)
    requires Inv(w, t1, t2) && Located(w.line) && AgencyStep(w).Next?
    ensures Located(AgencyStep(w).w.line)
  {
    hide Inv, IdsInv, LineInv, BookInv;
    TakeBook(w, t1, t2);
    CellsBound(w);
    var l, l' := w.line, AgencyStep(w).w.line;
    forall x | x in l'.stage && l'.stage[x] == Queued ensures InCells(l', x) {
      assert InCells(l, x);
      var i: nat :| l.qout <= i < l.qin && i < |l.cells| && l.cells[i] == x;
      assert l'.cells[i] == x;
    }
  }

  lemma AgencyShape(w: World)
    requires AgencyStep(w).Next?
    ensures var w' := AgencyStep(w).w;
            && w'.clerks == w.clerks && w'.customers == w.customers && w'.ids == w.ids
            && w'.capacity == w.capacity && w'.clerkSem == w.clerkSem
            && w'.line.qin == w.line.qin && w'.line.qout == w.line.qout
  {
  }

  lemma AgencyAccounts(w: World, capacity: nat, units: nat)
    requires LeftOk(w) && CapacityOk(w, capacity) && UnitsOk(w, units) && AgencyStep(w).Next?
    ensures var w' := AgencyStep(w).w; LeftOk(w') && CapacityOk(w', capacity) && UnitsOk(w', units)
  {
    hide AgencyStep, Where;
    AgencyShape(w);
  }

  lemma AgencyDoor(w: World)
    requires DoorOk(w) && TermOk(w) && OwnerOk(w) && AgencyStep(w).Next?
    ensures DoorOk(AgencyStep(w).w) && TermOk(AgencyStep(w).w) && OwnerOk(AgencyStep(w).w)
  {
    hide Where, Leaving, Away, IsGone;
  }

  lemma AgencyLedger(w: World, t1: nat, t2: nat, capacity: nat, units: nat)
    requires Inv(w, t1, t2) && Ledger(w, capacity, units) && AgencyStep(w).Next?
    ensures Ledger(AgencyStep(w).w, capacity, units)
  {
    hide Inv, AgencyStep, LeftOk, CapacityOk, UnitsOk, DoorOk, TermOk, OwnerOk, Located;
    AgencyLocated(w, t1, t2);
    AgencyAccounts(w, capacity, units);
    AgencyDoor(w);
  }

  lemma StepLedger(w: World, a: Action, t1: nat, t2: nat, capacity: nat, units: nat)
    requires Inv(w, t1, t2) && Ledger(w, capacity, units) && Step(w, a).Next?
    ensures Ledger(Step(w, a).w, capacity, units)
  {
    hide Inv, Ledger, ClerkStep, CustomerStep, AgencyStep;
    match a
    case ClerkMoves(k) => ClerkLedger(w, k, t1, t2, capacity, units);
    case CustomerMoves(p, ty) => CustomerLedger(w, p, ty, t1, t2, capacity, units);
    case AgencyMoves => AgencyLedger(w, t1, t2, capacity, units);
  }

  // ---------------------------------------------------------------------------
  // Nobody can move: then everything is over
  // ---------------------------------------------------------------------------

  ghost predicate Stuck(w: World) {
    forall a :: !Step(w, a).Next?
  }

  ghost predicate Finished(w: World) {
    && (forall p | p in w.customers :: w.customers[p].pc == Done)
    && w.agency == Over
    && (forall k | k in w.clerks :: w.clerks[k].pc == Gone)
  }

  lemma StuckProcesses(w: World)
    requires Stuck(w)
    ensures forall k | k in w.clerks :: !ClerkStep(w, k).Next?
    ensures forall p, ty | p in w.customers :: !CustomerStep(w, p, ty).Next?
    ensures !AgencyStep(w).Next?
  {
    hide ClerkStep, CustomerStep, AgencyStep;
    forall k | k in w.clerks ensures !ClerkStep(w, k).Next? {
      assert !Step(w, ClerkMoves(k)).Next?;
    }
    forall p, ty | p in w.customers ensures !CustomerStep(w, p, ty).Next? {
      assert !Step(w, CustomerMoves(p, ty)).Next?;
    }
    assert !Step(w, AgencyMoves).Next?;
  }

  /** A clerk is held up in three places only. */
  lemma ClerkHeldUp(w: World, k: int)
    requires k in w.clerks && ClerkStep(w, k) == Blocked
    ensures var pc := w.clerks[k].pc;
            || (pc == ReadyWait && w.line.ready == 0) || (pc == QueueWait && w.line.cs == 0) || pc == Gone
            || pc == Wait1 || pc == Wait2
  {
  }

  /** A customer is held up in six. */
  lemma CustomerHeldUp(w: World, p: int, ty: int)
    requires p in w.customers && CustomerStep(w, p, ty) == Blocked
    ensures var c := w.customers[p];
            || (c.pc == IdWait && w.ids.cs == 0) || (c.pc == Choose && !(1 <= ty <= 3 && ty in w.ids.left && w.ids.left[ty] > 0))
            || (c.pc == CapacityWait && w.capacity == 0) || (c.pc == ClerkWait && w.clerkSem == 0)
            || (c.pc == LineWait && w.line.cs == 0) || c.pc == Done
            || (c.pc == FinishWait && c.id in w.line.finished && w.line.finished[c.id] == 0)
  {
  }

  lemma NoStep(w: World, t1: nat, t2: nat)
    requires Inv(w, t1, t2) && Stuck(w)
    ensures forall k | k in w.clerks :: ClerkStep(w, k) == Blocked
    ensures forall p, ty | p in w.customers :: CustomerStep(w, p, ty) == Blocked
    ensures AgencyStep(w) == Blocked
  {
    hide Inv, Stuck, ClerkStep, CustomerStep, AgencyStep;
    StuckProcesses(w);
    forall k | k in w.clerks ensures ClerkStep(w, k) == Blocked {
      ClerkKeeps(w, k, t1, t2);
    }
    forall p, ty | p in w.customers ensures CustomerStep(w, p, ty) == Blocked {
      CustomerKeeps(w, p, ty, t1, t2);
    }
    AgencyKeeps(w, t1, t2);
  }

  /** Whoever is in the line's section can move, so nobody is. */
  lemma LineIsFree(w: World, t1: nat, t2: nat)
    requires Inv(w, t1, t2) && OwnerOk(w) && Stuck(w)
    ensures w.line.cs > 0
  {
    hide Inv, IdsInv, LineInv, BookInv, Stuck, ClerkStep, CustomerStep, AgencyStep;
    NoStep(w, t1, t2);
    TakeBook(w, t1, t2);
    LineOwner(w);
    match w.line.owner
    case None =>
    case Some(ClerkProc(k)) => ClerkHeldUp(w, k);
    case Some(CustomerProc(p)) => CustomerHeldUp(w, p, 0);
  }

  lemma LineOwner(w: World)
    requires LineInv(w.line, w.ids.who, w.clerks, w.customers, w.agency)
    ensures w.line.owner.None? ==> w.line.cs == 1
    ensures forall k | k in w.clerks && w.line.owner == Some(ClerkProc(k)) :: ClerkInLine(w.clerks[k])
    ensures forall p | p in w.customers && w.line.owner == Some(CustomerProc(p)) :: CustomerInLine(w.customers[p])
  {
  }

  /** Clerks can only be waiting for a customer, or gone. */
  lemma ClerksWait(w: World, k: int, t1: nat, t2: nat)
    requires Inv(w, t1, t2) && OwnerOk(w) && Stuck(w) && k in w.clerks
    ensures (w.clerks[k].pc == ReadyWait && w.line.ready == 0) || w.clerks[k].pc == Gone
  {
    hide Inv, Stuck, ClerkStep, CustomerStep, AgencyStep;
    NoStep(w, t1, t2);
    LineIsFree(w, t1, t2);
    ClerkHeldUp(w, k);
    if w.clerks[k].pc == Wait1 || w.clerks[k].pc == Wait2 {
      FlightsNeverDeadlock(w, k, t1, t2);
    }
  }

  /** The id section cannot be occupied either, and a flight is left to choose. */
  lemma IdsAreFree(w: World, p: int, t1: nat, t2: nat)
    requires Inv(w, t1, t2) && LeftOk(w) && Stuck(w) && p in w.customers
    ensures w.customers[p].pc != IdWait && w.customers[p].pc != Choose
  {
    hide Inv, IdsInv, LineInv, BookInv, Stuck, ClerkStep, CustomerStep, AgencyStep, Where;
    NoStep(w, t1, t2);
    TakeBook(w, t1, t2);
    if w.customers[p].pc == Choose {
      NeverHeldAtChoose(w, p);
    } else if w.customers[p].pc == IdWait {
      IdOwner(w);
      CustomerHeldUp(w, p, 0);
      var q := w.ids.owner.value;
      CustomerHeldUp(w, q, 0);
      NeverHeldAtChoose(w, q);
    }
  }

  lemma IdOwner(w: World)
    requires IdsInv(w.ids, w.customers)
    ensures w.ids.cs == 0 ==>
              w.ids.owner.Some? && w.ids.owner.value in w.customers && InIdSection(w.customers[w.ids.owner.value])
  {
    if w.ids.cs == 0 {
      var p := w.ids.owner.value;
      assert p in w.customers;
    }
  }

  lemma NeverHeldAtChoose(w: World, p: int)
    requires LeftOk(w) && p in w.customers && w.customers[p].pc == Choose
    ensures exists ty :: CustomerStep(w, p, ty).Next?
  {
    hide Where;
    WhereAtMost(w.customers, Unchosen);
    assert Unchosen(w.customers[p]);
    var left := w.ids.left;
    assert 1 in left && 2 in left && 3 in left;
    var ty := if left[1] > 0 then 1 else if left[2] > 0 then 2 else 3;
    assert left[ty] > 0;
    assert CustomerStep(w, p, ty).Next?;
  }

  /** So customers wait for room, for a clerk, or to be served. */
  lemma CustomersWait(w: World, p: int, t1: nat, t2: nat)
    requires Inv(w, t1, t2) && LeftOk(w) && OwnerOk(w) && Stuck(w) && p in w.customers
    ensures var c := w.customers[p];
            || (c.pc == CapacityWait && w.capacity == 0) || (c.pc == ClerkWait && w.clerkSem == 0) || c.pc == Done
            || (c.pc == FinishWait && c.id in w.line.finished && w.line.finished[c.id] == 0)
  {
    hide Inv, Stuck, ClerkStep, CustomerStep, AgencyStep, LeftOk;
    NoStep(w, t1, t2);
    LineIsFree(w, t1, t2);
    IdsAreFree(w, p, t1, t2);
    CustomerHeldUp(w, p, 0);
  }

  lemma CountsFact(w: World, t1: nat, t2: nat)
    requires Inv(w, t1, t2)
    ensures CountsOk(w.line, w.clerks, w.customers, w.agency) && PhaseOk(w.line, w.customers, w.agency)
    ensures w.line.qout <= w.line.qin
  {
    hide IdsInv, BookInv, LineOwned, Requests, Local, FinishedOk, CountsOk, PhaseOk;
  }

  /** With every clerk waiting in vain, no request is in the line. */
  lemma LineIsEmpty(w: World, k: int, t1: nat, t2: nat)
    requires Inv(w, t1, t2) && LeftOk(w) && DoorOk(w) && OwnerOk(w) && Stuck(w) && k in w.clerks && w.agency.Collect?
    ensures w.line.qin == w.line.qout
  {
    hide Inv, Stuck, LeftOk, OwnerOk, Where, PhaseOk;
    CountsFact(w, t1, t2);
    forall j | j in w.clerks ensures !InFlight(w.clerks[j]) {
      ClerksWait(w, j, t1, t2);
    }
    forall p | p in w.customers ensures !Signalling(w.customers[p]) {
      CustomersWait(w, p, t1, t2);
    }
    WhereNone(w.clerks, InFlight);
    WhereNone(w.customers, Signalling);
    ClerksWait(w, k, t1, t2);
  }

  /** A request that is neither in the line nor with a clerk has been served, so its customer can go on. */
  lemma NobodyServed(w: World, k: int, p: int, t1: nat, t2: nat)
    requires Inv(w, t1, t2) && LeftOk(w) && DoorOk(w) && OwnerOk(w) && Located(w.line) && Stuck(w)
    requires k in w.clerks && w.agency.Collect? && p in w.customers
    ensures w.customers[p].pc != FinishWait
  {
    hide Inv, IdsInv, LineInv, BookInv, Stuck, LeftOk, DoorOk, OwnerOk, Located;
    if w.customers[p].pc == FinishWait {
      TakeBook(w, t1, t2);
      CustomersWait(w, p, t1, t2);
      FinishWaits(w, p);
      var x := w.customers[p].id;
      if w.line.stage[x] == Queued {
        QueuedInLine(w.line, x);
        LineIsEmpty(w, k, t1, t2);
      } else {
        ServingClerk(w, x);
        ClerksWait(w, w.line.stage[x].k, t1, t2);
      }
    }
  }

  lemma QueuedInLine(l: Line, x: int)
    requires Located(l) && x in l.stage && l.stage[x] == Queued
    ensures l.qout < l.qin
  {
    assert InCells(l, x);
  }

  lemma ServingClerk(w: World, x: int)
    requires LineInv(w.line, w.ids.who, w.clerks, w.customers, w.agency) && x in w.line.stage && w.line.stage[x].Serving?
    ensures var k := w.line.stage[x].k; k in w.clerks && Working(w.clerks[k])
  {
    hide LineOwned, Local, CellsOk, FinishedOk, CountsOk, PhaseOk;
    assert RequestOk(w.line, w.ids.who, w.clerks, w.customers, x);
  }

  /** Then no clerk's unit is out, and no customer inside: while the agency collects, all customers are done. */
  lemma CustomersAreDone(w: World, k: int, t1: nat, t2: nat, capacity: nat, units: nat)
    requires Inv(w, t1, t2) && Ledger(w, capacity, units) && Stuck(w)
    requires capacity > 0 && units > 0 && k in w.clerks && w.agency.Collect?
    ensures forall p | p in w.customers :: w.customers[p].pc == Done
  {
    hide Inv, Stuck, LeftOk, DoorOk, OwnerOk, Located, Where;
    LineIsEmpty(w, k, t1, t2);
    forall p | p in w.customers ensures !Filling(w.customers[p]) && w.customers[p].pc != FinishWait {
      CustomersWait(w, p, t1, t2);
      NobodyServed(w, k, p, t1, t2);
    }
    forall j | j in w.clerks ensures !Working(w.clerks[j]) && !Freeing(w.clerks[j]) {
      ClerksWait(w, j, t1, t2);
    }
    WhereNone(w.customers, Filling);
    WhereNone(w.clerks, Working);
    WhereNone(w.clerks, Freeing);
    forall p | p in w.customers ensures !Inside(w.customers[p]) {
      CustomersWait(w, p, t1, t2);
    }
    WhereNone(w.customers, Inside);
    forall p | p in w.customers ensures w.customers[p].pc == Done {
      CustomersWait(w, p, t1, t2);
    }
  }

  /** Then the agency has closed and woken the clerks. */
  lemma AgencyHasClosed(w: World, k: int, t1: nat, t2: nat, capacity: nat, units: nat)
    requires Inv(w, t1, t2) && Ledger(w, capacity, units) && Stuck(w)
    requires capacity > 0 && units > 0 && k in w.clerks
    ensures w.agency.Await? || w.agency.Over?
    ensures forall p | p in w.customers :: w.customers[p].pc == Done
  {
    hide Inv, Stuck, Ledger, Where;
    NoStep(w, t1, t2);
    CountsFact(w, t1, t2);
    if w.agency.Collect? {
      CustomersAreDone(w, k, t1, t2, capacity, units);
      WhereAll(w.customers, IsDone, IsDone);
    }
  }

  /** Then every clerk has been woken, and is gone. */
  lemma ClerksAreGone(w: World, k: int, t1: nat, t2: nat)
    requires Inv(w, t1, t2) && DoorOk(w) && OwnerOk(w) && Stuck(w) && (w.agency.Await? || w.agency.Over?) && k in w.clerks
    ensures w.clerks[k].pc == Gone
  {
    hide Inv, Stuck, Where;
    ClerksWait(w, k, t1, t2);
    WhereAtMost(w.clerks, Away);
    assert w.clerks[k].pc == ReadyWait ==> !Away(w.clerks[k]);
  }

  /** Then the agency does not wait for them any more. */
  lemma AgencyIsOver(w: World, t1: nat, t2: nat)
    requires Inv(w, t1, t2) && TermOk(w) && Stuck(w) && (w.agency.Await? || w.agency.Over?)
    requires forall k | k in w.clerks :: w.clerks[k].pc == Gone
    ensures w.agency == Over
  {
    hide Inv, Stuck, Where;
    NoStep(w, t1, t2);
    WhereAll(w.clerks, IsGone, IsGone);
  }

  /** Nobody can move only when everything is over. */
  lemma StuckIsFinished(w: World, k: int, t1: nat, t2: nat, capacity: nat, units: nat)
    requires Inv(w, t1, t2) && Ledger(w, capacity, units) && Stuck(w)
    requires capacity > 0 && units > 0 && k in w.clerks
    ensures Finished(w)
  {
    hide Inv, Stuck, LeftOk, CapacityOk, UnitsOk, DoorOk, TermOk, OwnerOk, Located;
    AgencyHasClosed(w, k, t1, t2, capacity, units);
    forall j | j in w.clerks ensures w.clerks[j].pc == Gone {
      ClerksAreGone(w, j, t1, t2);
    }
    AgencyIsOver(w, t1, t2);
  }

  // ---------------------------------------------------------------------------
  // Runs
  // ---------------------------------------------------------------------------

  /** The flights to choose from add up to the number of customers, as tst_air sets them up. */
  ghost predicate Divided(w: World) {
    && w.ids.left.Keys == {1, 2, 3} && (forall f | f in w.ids.left :: w.ids.left[f] >= 0)
    && w.ids.left[1] + w.ids.left[2] + w.ids.left[3] == |w.customers|
  }

  lemma InitLedger(w: World, t1: nat, t2: nat)
    requires Init(w, t1, t2) && Divided(w)
    ensures Ledger(w, w.capacity, w.clerkSem)
  {
    hide Where, FlightInit;
    WhereAll(w.customers, Unchosen, Unchosen);
    WhereNone(w.customers, Inside);
    WhereNone(w.customers, Filling);
    WhereNone(w.clerks, Working);
    WhereNone(w.clerks, Freeing);
    WhereNone(w.clerks, IsGone);
  }

  lemma {:induction false} RunLedger(ws: seq<World>, acts: seq<Action>, t1: nat, t2: nat, i: nat)
    requires Run(ws, acts, t1, t2) && Divided(ws[0]) && i < |ws|
    ensures Ledger(ws[i], ws[0].capacity, ws[0].clerkSem)
    decreases i
  {
    hide Inv, Init, Step, Ledger, Divided;
    if i == 0 {
      InitLedger(ws[0], t1, t2);
    } else {
      RunLedger(ws, acts, t1, t2, i - 1);
      RunInv(ws, acts, t1, t2, i - 1);
      assert Step(ws[i - 1], acts[i - 1]) == Next(ws[i - 1 + 1]);
      StepLedger(ws[i - 1], acts[i - 1], t1, t2, ws[0].capacity, ws[0].clerkSem);
    }
  }

  lemma {:induction false} RunClerks(ws: seq<World>, acts: seq<Action>, t1: nat, t2: nat, i: nat)
    requires Run(ws, acts, t1, t2) && i < |ws|
    ensures ws[i].clerks.Keys == ws[0].clerks.Keys
    decreases i
  {
    hide Init, Step;
    if i > 0 {
      RunClerks(ws, acts, t1, t2, i - 1);
      assert Step(ws[i - 1], acts[i - 1]) == Next(ws[i - 1 + 1]);
      SameClerks(ws[i - 1], acts[i - 1]);
    }
  }

  lemma SameClerks(w: World, a: Action)
    requires Step(w, a).Next?
    ensures Step(w, a).w.clerks.Keys == w.clerks.Keys
  {
    hide ClerkStep, CustomerStep, AgencyStep;
    match a
    case ClerkMoves(k) => EffectOfClerk(w, k);
    case CustomerMoves(p, ty) => EffectOfCustomer(w, p, ty);
    case AgencyMoves => AgencyShape(w);
  }

  /** In every run some process can move until all customers are done, the agency is closed and all clerks are gone. */
  lemma RunProgresses(ws: seq<World>, acts: seq<Action>, t1: nat, t2: nat, i: nat, k: int)
    requires Run(ws, acts, t1, t2) && Divided(ws[0]) && i < |ws|
    requires ws[0].capacity > 0 && ws[0].clerkSem > 0 && k in ws[0].clerks
    ensures Finished(ws[i]) || exists a :: Step(ws[i], a).Next?
  {
    hide Inv, Init, Step, Ledger, Divided, Run, Finished;
    RunInv(ws, acts, t1, t2, i);
    RunLedger(ws, acts, t1, t2, i);
    RunClerks(ws, acts, t1, t2, i);
    if Stuck(ws[i]) {
      StuckIsFinished(ws[i], k, t1, t2, ws[0].capacity, ws[0].clerkSem);
    }
  }

  // ---------------------------------------------------------------------------
  // What the agency asserts before it closes
  // ---------------------------------------------------------------------------

  predicate AtReady(c: Clerk) {
    c.pc == ReadyWait
  }

  /** Outside every critical section and waiting for nothing but a customer. */
  predicate Free(c: Clerk) {
    c.pc == Opened || c.pc == ReadyWait || c.pc == ClerkSignal
  }

  lemma NobodyInFlight(w: World)
    requires LineInv(w.line, w.ids.who, w.clerks, w.customers, w.agency) && Checking(w)
    ensures w.line.ready == 0 && w.line.term == 0 && forall k | k in w.clerks :: !InFlight(w.clerks[k])
  {
    hide LineOwned, Local, FinishedOk, Where, Requests, CellsOk, PhaseOk, InFlight;
    AllCollected(w);
    WhereAtMost(w.clerks, InFlight);
    WhereAll(w.customers, IsDone, IsDone);
  }

  lemma NobodyWorks(w: World, k: int)
    requires LineInv(w.line, w.ids.who, w.clerks, w.customers, w.agency) && Checking(w) && k in w.clerks
    ensures !Working(w.clerks[k])
  {
    hide LineInv, Working;
    AllCollected(w);
    ClerkFacts(w, k);
    if Working(w.clerks[k]) {
      NoneLeft(w, w.clerks[k].cust);
    }
  }

  lemma ClerksAreFree(w: World, k: int, t1: nat, t2: nat)
    requires Inv(w, t1, t2) && DoorOk(w) && Checking(w) && k in w.clerks
    ensures Free(w.clerks[k])
  {
    hide Inv, LineInv, IdsInv, BookInv, Where;
    TakeBook(w, t1, t2);
    NobodyInFlight(w);
    NobodyWorks(w, k);
  }

  lemma LineCounts(w: World)
    requires LineInv(w.line, w.ids.who, w.clerks, w.customers, w.agency) && Checking(w)
    ensures w.line.ready == 0 && w.line.term == 0
    ensures forall x | 0 <= x < |w.customers| :: x in w.line.finished
    ensures forall x | x in w.line.finished :: w.line.finished[x] == 0
  {
    hide LineOwned, Local, Where, Requests, CellsOk, PhaseOk, CountsOk;
    NobodyInFlight(w);
    AllCollected(w);
    forall x | x in w.line.finished && x in w.line.stage ensures w.line.stage[x] == Collected {
      NoneLeft(w, x);
    }
  }

  /** Nobody is in a critical section, so all four are open. */
  lemma SectionsAreOpen(w: World, t1: nat, t2: nat)
    requires Inv(w, t1, t2) && DoorOk(w) && OwnerOk(w) && Checking(w)
    ensures w.book.f1.cs == w.book.f2.cs == w.ids.cs == w.line.cs == 1
  {
    hide Inv, LineInv, IdsInv, BookInv, Where, DoorOk;
    TakeBook(w, t1, t2);
    AllCollected(w);
    forall k | k in w.clerks ensures Free(w.clerks[k]) {
      ClerksAreFree(w, k, t1, t2);
    }
    LineOwner(w);
    SectionCounts(w, t1, t2);
    IdsAreOpen(w);
    assert w.line.owner.None?;
    if w.book.f1.cs == 0 {
      HolderOf(w, 1, t1, t2);
    }
    if w.book.f2.cs == 0 {
      HolderOf(w, 2, t1, t2);
    }
  }

  lemma IdsAreOpen(w: World)
    requires IdsInv(w.ids, w.customers) && forall p | p in w.customers :: IsDone(w.customers[p])
    ensures w.ids.cs == 1
  {
    hide CustomerId, IdTaken, Where;
    forall p | p in w.customers ensures w.ids.owner != Some(p) {
      assert IsDone(w.customers[p]);
    }
  }

  lemma SectionCounts(w: World, t1: nat, t2: nat)
    requires Inv(w, t1, t2)
    ensures w.book.f1.cs <= 1 && w.book.f2.cs <= 1 && w.ids.cs <= 1 && w.line.cs <= 1
  {
    hide LineInv, Where;
    TakeBook(w, t1, t2);
    LineOwnedCount(w);
  }

  lemma LineOwnedCount(w: World)
    requires LineInv(w.line, w.ids.who, w.clerks, w.customers, w.agency)
    ensures w.line.cs <= 1
  {
  }

  /** When the agency comes to its asserts, in every run: all the room is there again, the four sections are open, no
      customer has still to be told and no request to be announced, and nobody waits but clerks for a customer. Only the
      clerks' units may be short, by the clerks that have told their customer and not yet said that they are free. */
  lemma FinalCounts(ws: seq<World>, acts: seq<Action>, t1: nat, t2: nat, i: nat)
    requires Run(ws, acts, t1, t2) && Divided(ws[0]) && i < |ws| && Checking(ws[i])
    ensures var w := ws[i];
            && w.capacity == ws[0].capacity
            && w.book.f1.cs == w.book.f2.cs == w.ids.cs == w.line.cs == 1
            && w.line.ready == 0 && w.line.term == 0
            && (forall x | 0 <= x < |w.customers| :: x in w.line.finished && w.line.finished[x] == 0)
            && w.clerkSem + |Where(w.clerks, Freeing)| == ws[0].clerkSem
            && (forall p | p in w.customers :: w.customers[p].pc == Done) && (forall k | k in w.clerks :: Free(w.clerks[k]))
  {
    hide Inv, Init, LineInv, IdsInv, BookInv, Where, Run, Divided, DoorOk, OwnerOk, LeftOk, TermOk, Located;
    var w := ws[i];
    RunInv(ws, acts, t1, t2, i);
    RunLedger(ws, acts, t1, t2, i);
    TakeBook(w, t1, t2);
    AllCollected(w);
    forall k | k in w.clerks ensures Free(w.clerks[k]) {
      ClerksAreFree(w, k, t1, t2);
    }
    SectionsAreOpen(w, t1, t2);
    LineCounts(w);
    WhereNone(w.customers, Inside);
    WhereNone(w.customers, Filling);
    WhereNone(w.clerks, Working);
  }

  /** The two asserts that depend on the clerks, exactly. `waiting` are the clerks that cust_ready holds: its count is minus
      their number. The clerks' semaphore has its initial count if and only if no clerk is about to signal it, and
      cust_ready stands at minus the number of clerks if and only if every clerk is waiting there. */
  lemma FinalAssertsHoldIff(ws: seq<World>, acts: seq<Action>, t1: nat, t2: nat, i: nat, waiting: set<int>)
    requires Run(ws, acts, t1, t2) && Divided(ws[0]) && i < |ws| && Checking(ws[i])
    requires waiting <= Where(ws[i].clerks, AtReady)
    ensures ws[i].clerkSem == ws[0].clerkSem <==> forall k | k in ws[i].clerks :: ws[i].clerks[k].pc != ClerkSignal
    ensures ws[i].line.ready - |waiting| == -|ws[i].clerks| <==> waiting == ws[i].clerks.Keys
    ensures waiting == ws[i].clerks.Keys ==> ws[i].clerkSem == ws[0].clerkSem
  {
    hide Init, Run, Divided, Where;
    FinalCounts(ws, acts, t1, t2, i);
    var w := ws[i];
    WhereAtMost(w.clerks, Freeing);
    if forall k | k in w.clerks :: w.clerks[k].pc != ClerkSignal {
      WhereNone(w.clerks, Freeing);
    }
    WhereMembers(w.clerks, AtReady);
    SmallerCount(waiting, w.clerks.Keys);
  }

  lemma WhereMembers<T>(m: map<int, T>, P: T -> bool)
    ensures Where(m, P) <= m.Keys && forall k | k in Where(m, P) :: P(m[k])
  {
  }

  lemma SmallerCount(A: set<int>, B: set<int>)
    requires A <= B
    ensures |A| == |B| <==> A == B
  {
    forall k | k in B && k !in A ensures |A| < |B| {
      SubsetCount(A, B - {k});
    }
  }

  /** After it has waited for every clerk to terminate, nothing is left of clerkTerminated, and all clerks are gone. */
  lemma FinalTerminations(ws: seq<World>, acts: seq<Action>, t1: nat, t2: nat, i: nat)
    requires Run(ws, acts, t1, t2) && Divided(ws[0]) && i < |ws| && ws[i].agency == Over
    ensures ws[i].clerkTerm == 0 && forall k | k in ws[i].clerks :: ws[i].clerks[k].pc == Gone
  {
    hide Init, Run, Divided, Where, DoorOk, OwnerOk, LeftOk, UnitsOk, CapacityOk, Located;
    RunLedger(ws, acts, t1, t2, i);
    WhereAtMost(ws[i].clerks, IsGone);
  }
}
