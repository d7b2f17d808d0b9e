/** The airline agency refuses nobody without need: a customer goes away without a booking only when a flight it wants is
    sold out, and when there are tickets enough for what the customers want, all of them are booked. */
module AirlineRefusals {
  import opened Common
  import opened Airline
  import opened AirlineProgress

  // ---------------------------------------------------------------------------
  // Refused only when sold out
  // ---------------------------------------------------------------------------

  /** A flight that such a customer wants has no ticket left. */
  predicate SoldOut(b: Book, ty: int) {
    (Wants(ty, 1) && b.f1.counter == 0) || (Wants(ty, 2) && b.f2.counter == 0)
  }

  /** Customer `x` is booked, or could not be. */
  ghost predicate Fair(b: Book, x: int) {
    x in b.booked && x in b.ftype && (b.booked[x] || SoldOut(b, b.ftype[x]))
  }

  /** The clerk has booked its customer or refused it. */
  predicate Decided(c: Clerk) {
    c.pc == Signal1 || c.pc == Signal2 || c.pc == FinishSignal
  }

  ghost predicate RefusalsOk(w: World) {
    && (forall k | k in w.clerks && Decided(w.clerks[k]) :: Fair(w.book, w.clerks[k].cust))
    && (forall x | x in w.line.stage && Rank(w.line.stage[x]) >= 2 :: Fair(w.book, x))
  }

  /** Tickets are never put back. */
  ghost predicate Falls(b: Book, b': Book) {
    0 <= b'.f1.counter <= b.f1.counter && 0 <= b'.f2.counter <= b.f2.counter
  }

  lemma StaysFair(b: Book, b': Book, x: int)
    requires Fair(b, x) && Falls(b, b')
    requires x in b'.booked && x in b'.ftype && b'.ftype[x] == b.ftype[x] && (b.booked[x] ==> b'.booked[x])
    ensures Fair(b', x)
  {
  }

  // Clerks ---------------------------------------------------------------------------

  /** What a clerk's step does to the book: tickets go, and its own customer may be marked as booked. */
  ghost predicate ClerkWrites(w: World, k: int, r: Outcome) {
    k in w.clerks &&
    (r.Next? ==>
       var b, b' := w.book, r.w.book;
       && b'.ftype == b.ftype && (b'.booked == b.booked || b'.booked == b.booked[w.clerks[k].cust := true])
       && b'.f1.counter <= b.f1.counter && b'.f2.counter <= b.f2.counter)
  }

  lemma LockWrites(w: World, k: int)
    requires k in w.clerks && w.clerks[k].pc in {Switch, Wait1, Wait2, Signal1, Signal2}
    ensures ClerkWrites(w, k, LockStep(w, k))
  {
  }

  lemma BookWrites(w: World, k: int)
    requires k in w.clerks
    requires var pc := w.clerks[k].pc; pc == Test || pc.Dec? || pc.Flag? || pc.Store? || pc.Count?
    ensures ClerkWrites(w, k, BookStep(w, k))
  {
  }

  lemma FetchWrites(w: World, k: int)
    requires k in w.clerks && w.clerks[k].pc in {ReadyWait, QueueWait, Peek, QueueBack, Advance, QueueSignal}
    ensures ClerkWrites(w, k, FetchStep(w, k))
  {
  }

  lemma LeaveWrites(w: World, k: int)
    requires k in w.clerks && w.clerks[k].pc in {Opened, FinishSignal, ClerkSignal, Closing, Gone}
    ensures ClerkWrites(w, k, LeaveStep(w, k))
  {
  }

  lemma WritesOfClerk(w: World, k: int)
    requires k in w.clerks
    ensures ClerkWrites(w, k, ClerkStep(w, k))
  {
    hide FetchStep, LockStep, BookStep, LeaveStep, ClerkWrites;
    match w.clerks[k].pc
    case ReadyWait | QueueWait | Peek | QueueBack | Advance | QueueSignal => FetchWrites(w, k);
    case Switch | Wait1 | Wait2 | Signal1 | Signal2 => LockWrites(w, k);
    case Test | Dec(_) | Flag(_) | Store(_) | Count(_) => BookWrites(w, k);
    case Opened | FinishSignal | ClerkSignal | Closing | Gone => LeaveWrites(w, k);
  }

  /** A clerk comes to its decision at the test, or by having booked. */
  lemma Decides(w: World, k: int, t1: nat, t2: nat)
    requires BookInv(w.book, w.line.stage, w.clerks, w.customers, t1, t2) && k in w.clerks && ClerkStep(w, k).Next?
    requires k in ClerkStep(w, k).w.clerks && Decided(ClerkStep(w, k).w.clerks[k]) && !Decided(w.clerks[k])
    ensures Fair(w.book, w.clerks[k].cust) && ClerkStep(w, k).w.clerks[k].cust == w.clerks[k].cust
    ensures ClerkStep(w, k).w.line.stage == w.line.stage
  {
    hide BookInv;
    ClerkDeskFact(w, k, t1, t2);
    CountersFact(w, t1, t2);
  }

  lemma CountersFact(w: World, t1: nat, t2: nat)
    requires BookInv(w.book, w.line.stage, w.clerks, w.customers, t1, t2)
    ensures w.book.f1.counter >= 0 && w.book.f2.counter >= 0
  {
  }

  /** A clerk that has decided keeps its customer until it has told it. */
  lemma DecidedKeeps(w: World, k: int)
    requires k in w.clerks && ClerkStep(w, k).Next? && k in ClerkStep(w, k).w.clerks && Decided(w.clerks[k])
    ensures ClerkStep(w, k).w.clerks[k].cust == w.clerks[k].cust
    ensures Decided(ClerkStep(w, k).w.clerks[k]) || w.clerks[k].pc == FinishSignal
  {
  }

  lemma ClerkIsFair(w: World, k: int, t1: nat, t2: nat)
    requires Inv(w, t1, t2) && RefusalsOk(w) && k in w.clerks && ClerkStep(w, k).Next?
    ensures RefusalsOk(ClerkStep(w, k).w)
  {
    hide Inv, IdsInv, LineInv, BookInv, ClerkStep, Fair, Working, Away, Leaving, IsGone, Freeing;
    var w' := ClerkStep(w, k).w;
    TakeBook(w, t1, t2);
    ClerkKeeps(w, k, t1, t2);
    TakeBook(w', t1, t2);
    EffectOfClerk(w, k);
    StageOfClerk(w, k, t1, t2);
    if Decided(w.clerks[k]) {
      DecidedKeeps(w, k);
    }
    if Decided(w'.clerks[k]) && !Decided(w.clerks[k]) {
      Decides(w, k, t1, t2);
    }
    forall x | Fair(w.book, x) ensures Fair(w'.book, x) {
      ClerkKeepsFair(w, k, x, t1, t2);
    }
  }

  lemma ClerkKeepsFair(w: World, k: int, x: int, t1: nat, t2: nat)
    requires Inv(w, t1, t2) && k in w.clerks && ClerkStep(w, k).Next? && Fair(w.book, x)
    ensures Fair(ClerkStep(w, k).w.book, x)
  {
    hide Inv, IdsInv, LineInv, BookInv, ClerkStep;
    WritesOfClerk(w, k);
    ClerkKeeps(w, k, t1, t2);
    TakeBook(ClerkStep(w, k).w, t1, t2);
    CountersFact(ClerkStep(w, k).w, t1, t2);
    StaysFair(w.book, ClerkStep(w, k).w.book, x);
  }

  // Customers and the agency -----------------------------------------------------------

  lemma WritesOfCustomer(w: World, p: int, ty: int)
    requires p in w.customers && CustomerStep(w, p, ty).Next?
    ensures var b, b', c := w.book, CustomerStep(w, p, ty).w.book, w.customers[p];
            if c.pc == InfoBooked then b' == b.(booked := b.booked[c.id := false])
            else if c.pc == InfoType then b' == b.(ftype := b.ftype[c.id := c.ty])
            else b' == b
  {
  }

  /** A customer writes its record before it is in the line, when nobody has decided about it. */
  lemma NobodyDecided(w: World, p: int)
    requires LineInv(w.line, w.ids.who, w.clerks, w.customers, w.agency) && p in w.customers
    requires w.customers[p].pc == InfoBooked || w.customers[p].pc == InfoType
    ensures w.customers[p].id !in w.line.stage
    ensures forall k | k in w.clerks && Decided(w.clerks[k]) :: w.clerks[k].cust != w.customers[p].id
  {
    hide LineInv;
    CustomerFacts(w, p);
    forall k | k in w.clerks && Decided(w.clerks[k]) ensures w.clerks[k].cust != w.customers[p].id {
      ClerkFacts(w, k);
    }
  }

  lemma CustomerIsFair(w: World, p: int, ty: int, t1: nat, t2: nat)
    requires Inv(w, t1, t2) && RefusalsOk(w) && p in w.customers && CustomerStep(w, p, ty).Next?
    ensures RefusalsOk(CustomerStep(w, p, ty).w)
  {
    hide Inv, IdsInv, LineInv, BookInv, CustomerStep;
    TakeBook(w, t1, t2);
    EffectOfCustomer(w, p, ty);
    StageOfCustomer(w, p, ty, t1, t2);
    WritesOfCustomer(w, p, ty);
    if w.customers[p].pc == InfoBooked || w.customers[p].pc == InfoType {
      NobodyDecided(w, p);
    }
  }

  lemma AgencyBook(w: World)
    requires AgencyStep(w).Next?
    ensures AgencyStep(w).w.book == w.book && AgencyStep(w).w.line.stage == w.line.stage
  {
  }

  lemma AgencyIsFair(w: World)
    requires RefusalsOk(w) && AgencyStep(w).Next?
    ensures RefusalsOk(AgencyStep(w).w)
  {
    hide AgencyStep, Fair;
    AgencyBook(w);
    AgencyShape(w);
  }

  lemma StepIsFair(w: World, a: Action, t1: nat, t2: nat)
    requires Inv(w, t1, t2) && RefusalsOk(w) && Step(w, a).Next?
    ensures RefusalsOk(Step(w, a).w)
  {
    hide Inv, RefusalsOk, ClerkStep, CustomerStep, AgencyStep;
    match a
    case ClerkMoves(k) => ClerkIsFair(w, k, t1, t2);
    case CustomerMoves(p, ty) => CustomerIsFair(w, p, ty, t1, t2);
    case AgencyMoves => AgencyIsFair(w);
  }

  lemma {:induction false} RunIsFair(ws: seq<World>, acts: seq<Action>, t1: nat, t2: nat, i: nat)
    requires Run(ws, acts, t1, t2) && i < |ws|
    ensures RefusalsOk(ws[i])
    decreases i
  {
    hide Inv, Step;
    if i > 0 {
      RunIsFair(ws, acts, t1, t2, i - 1);
      RunInv(ws, acts, t1, t2, i - 1);
      assert Step(ws[i - 1], acts[i - 1]) == Next(ws[i - 1 + 1]);
      StepIsFair(ws[i - 1], acts[i - 1], t1, t2);
    }
  }

  /** A customer that has been served is booked on every flight it wants, or one of them is sold out. */
  lemma RefusedOnlyWhenSoldOut(ws: seq<World>, acts: seq<Action>, t1: nat, t2: nat, i: nat, x: int)
    requires Run(ws, acts, t1, t2) && i < |ws| && x in ws[i].line.stage && Rank(ws[i].line.stage[x]) >= 2
    ensures var b := ws[i].book;
            && x in b.booked && x in b.ftype
            && (!b.booked[x] ==> exists f | 1 <= f <= 2 :: Wants(b.ftype[x], f) && FlightOf(b, f).counter == 0)
  {
    hide Run, Init;
    RunIsFair(ws, acts, t1, t2, i);
    var b := ws[i].book;
    assert Fair(b, x);
    if !b.booked[x] {
      var f := if Wants(b.ftype[x], 1) && b.f1.counter == 0 then 1 else 2;
      assert Wants(b.ftype[x], f) && FlightOf(b, f).counter == 0;
    }
  }

  // ---------------------------------------------------------------------------
  // The flights that were chosen
  // ---------------------------------------------------------------------------

  predicate Chose1(c: Customer) {
    HasType(c) && c.ty == 1
  }

  predicate Chose2(c: Customer) {
    HasType(c) && c.ty == 2
  }

  predicate Chose3(c: Customer) {
    HasType(c) && c.ty == 3
  }

  /** Of each kind, those left to choose and those who have chosen it are as many as there were to choose. */
  ghost predicate ChosenOk(w: World, left: map<int, int>) {
    && left.Keys == {1, 2, 3} && w.ids.left.Keys == {1, 2, 3} && (forall f | f in w.ids.left :: w.ids.left[f] >= 0)
    && w.ids.left[1] + |Where(w.customers, Chose1)| == left[1]
    && w.ids.left[2] + |Where(w.customers, Chose2)| == left[2]
    && w.ids.left[3] + |Where(w.customers, Chose3)| == left[3]
  }

  /** The request is made out. */
  predicate Informed(c: Customer) {
    c.pc == LineWait || c.pc == LineWrite || c.pc == LineCount || Enqueued(c)
  }

  /** What a customer has asked for is what it chose. */
  ghost predicate TypesOk(w: World) {
    forall p | p in w.customers && Informed(w.customers[p]) ::
      w.customers[p].id in w.book.ftype && w.book.ftype[w.customers[p].id] == w.customers[p].ty
  }

  /** What a step of customer p does to what it chose and asked for. */
  ghost predicate ChoiceEffect(w: World, p: int, ty: int, r: Outcome)
    requires p in w.customers
  {
    r.Next? ==>
      && p in r.w.customers
      && (var o, c := w.customers[p], r.w.customers[p];
          && c.ty == (if o.pc == Choose then ty else o.ty)
          && (HasType(c) <==> HasType(o) || o.pc == Choose) && (o.pc == Choose ==> !HasType(o))
          && (Informed(c) <==> Informed(o) || o.pc == InfoType) && (Informed(c) ==> c.id == o.id))
  }

  lemma ChoiceAtId(w: World, p: int, ty: int)
    requires p in w.customers && (Unchosen(w.customers[p]) || w.customers[p].pc == IdSignal)
    ensures ChoiceEffect(w, p, ty, IdPhase(w, p, ty))
  {
  }

  lemma ChoiceAtInfo(w: World, p: int, ty: int)
    requires p in w.customers && w.customers[p].pc in {CapacityWait, ClerkWait, InfoBooked, InfoType}
    ensures ChoiceEffect(w, p, ty, InfoPhase(w, p))
  {
  }

  lemma ChoiceAtLine(w: World, p: int, ty: int)
    requires p in w.customers && w.customers[p].pc in {LineWait, LineWrite, LineCount, LineSignal, ReadySignal}
    ensures ChoiceEffect(w, p, ty, LinePhase(w, p))
  {
  }

  lemma ChoiceAtExit(w: World, p: int, ty: int)
    requires p in w.customers && w.customers[p].pc in {FinishWait, CapacitySignal, TermSignal, Done}
    ensures ChoiceEffect(w, p, ty, ExitPhase(w, p))
  {
  }

  lemma ChoiceOfCustomer(w: World, p: int, ty: int)
    requires p in w.customers
    ensures ChoiceEffect(w, p, ty, CustomerStep(w, p, ty))
  {
    hide ChoiceEffect, IdPhase, InfoPhase, LinePhase, ExitPhase;
    match w.customers[p].pc
    case IdWait | IdRead | IdCount | Choose | IdSignal => ChoiceAtId(w, p, ty);
    case CapacityWait | ClerkWait | InfoBooked | InfoType => ChoiceAtInfo(w, p, ty);
    case LineWait | LineWrite | LineCount | LineSignal | ReadySignal => ChoiceAtLine(w, p, ty);
    case FinishWait | CapacitySignal | TermSignal | Done => ChoiceAtExit(w, p, ty);
  }

  lemma ChosenMoves(w: World, p: int, ty: int, left: map<int, int>)
    requires ChosenOk(w, left) && p in w.customers && CustomerStep(w, p, ty).Next?
    ensures ChosenOk(CustomerStep(w, p, ty).w, left)
  {
    hide Where, CustomerStep, HasType;
    EffectOfCustomer(w, p, ty);
    ChoiceOfCustomer(w, p, ty);
    var c := CustomerStep(w, p, ty).w.customers[p];
    WhereMoves(w.customers, p, c, Chose1);
    WhereMoves(w.customers, p, c, Chose2);
    WhereMoves(w.customers, p, c, Chose3);
  }

  lemma OtherIds(w: World, p: int, q: int)
    requires IdsInv(w.ids, w.customers) && p in w.customers && q in w.customers && p != q
    requires HasId(w.customers[p]) && HasId(w.customers[q])
    ensures w.customers[p].id != w.customers[q].id
  {
    assert CustomerId(w.ids, p, w.customers[p]);
    assert CustomerId(w.ids, q, w.customers[q]);
  }

  lemma TypesMove(w: World, p: int, ty: int, t1: nat, t2: nat)
    requires Inv(w, t1, t2) && TypesOk(w) && p in w.customers && CustomerStep(w, p, ty).Next?
    ensures TypesOk(CustomerStep(w, p, ty).w)
  {
    hide Inv, IdsInv, LineInv, BookInv, CustomerStep;
    TakeBook(w, t1, t2);
    EffectOfCustomer(w, p, ty);
    ChoiceOfCustomer(w, p, ty);
    WritesOfCustomer(w, p, ty);
    var w' := CustomerStep(w, p, ty).w;
    forall q | q in w'.customers && Informed(w'.customers[q])
      ensures w'.customers[q].id in w'.book.ftype && w'.book.ftype[w'.customers[q].id] == w'.customers[q].ty {
      if q != p && w.customers[p].pc == InfoType {
        OtherIds(w, p, q);
      }
    }
  }

  lemma StepChosen(w: World, a: Action, t1: nat, t2: nat, left: map<int, int>)
    requires Inv(w, t1, t2) && ChosenOk(w, left) && TypesOk(w) && Step(w, a).Next?
    ensures ChosenOk(Step(w, a).w, left) && TypesOk(Step(w, a).w)
  {
    hide Inv, ClerkStep, CustomerStep, AgencyStep, Where;
    match a
    case ClerkMoves(k) => EffectOfClerk(w, k); WritesOfClerk(w, k);
    case CustomerMoves(p, ty) =>
      hide ChosenOk, TypesOk;
      ChosenMoves(w, p, ty, left);
      TypesMove(w, p, ty, t1, t2);
    case AgencyMoves => AgencyShape(w); AgencyBook(w);
  }

  lemma InitChosen(w: World, t1: nat, t2: nat)
    requires Init(w, t1, t2) && Divided(w)
    ensures ChosenOk(w, w.ids.left) && TypesOk(w)
  {
    hide Where, FlightInit;
    WhereNone(w.customers, Chose1);
    WhereNone(w.customers, Chose2);
    WhereNone(w.customers, Chose3);
  }

  lemma {:induction false} RunChosen(ws: seq<World>, acts: seq<Action>, t1: nat, t2: nat, i: nat)
    requires Run(ws, acts, t1, t2) && Divided(ws[0]) && i < |ws|
    ensures ChosenOk(ws[i], ws[0].ids.left) && TypesOk(ws[i])
    decreases i
  {
    hide Inv, Init, Step, ChosenOk, TypesOk, Divided;
    if i == 0 {
      InitChosen(ws[0], t1, t2);
    } else {
      RunChosen(ws, acts, t1, t2, i - 1);
      RunInv(ws, acts, t1, t2, i - 1);
      assert Step(ws[i - 1], acts[i - 1]) == Next(ws[i - 1 + 1]);
      StepChosen(ws[i - 1], acts[i - 1], t1, t2, ws[0].ids.left);
    }
  }

  /** A told customer is booked on exactly the flights of its own choice, or a flight of its choice is sold out. */
  lemma RunServesChoice(ws: seq<World>, acts: seq<Action>, t1: nat, t2: nat, i: nat, p: int)
    requires Run(ws, acts, t1, t2) && Divided(ws[0]) && i < |ws| && p in ws[i].customers && Told(ws[i].customers[p])
    ensures var b, c := ws[i].book, ws[i].customers[p];
            || (forall f | 1 <= f <= 2 :: In(b, f, c.id) <==> Wants(c.ty, f))
            || ((forall f | 1 <= f <= 2 :: !In(b, f, c.id))
                && exists f | 1 <= f <= 2 :: Wants(c.ty, f) && FlightOf(b, f).counter == 0)
  {
    hide Run, Init, Divided, In, Inv;
    RunBothOrNeither(ws, acts, t1, t2, i, p);
    RunChosen(ws, acts, t1, t2, i);
    RunInv(ws, acts, t1, t2, i);
    ToldIsCollected(ws[i], p, t1, t2);
    RefusedOnlyWhenSoldOut(ws, acts, t1, t2, i, ws[i].customers[p].id);
  }

  // ---------------------------------------------------------------------------
  // Enough tickets for all
  // ---------------------------------------------------------------------------

  predicate Wants1(c: Customer) {
    HasType(c) && Wants(c.ty, 1)
  }

  predicate Wants2(c: Customer) {
    HasType(c) && Wants(c.ty, 2)
  }

  ghost function Wanting(w: World, f: int): set<int> {
    if f == 1 then Where(w.customers, Wants1) else Where(w.customers, Wants2)
  }

  /** No more customers want a flight than were to choose it, alone or with the other. */
  lemma WantingIsBounded(w: World, left: map<int, int>, f: int)
    requires ChosenOk(w, left) && 1 <= f <= 2
    ensures |Wanting(w, f)| <= left[f] + left[3]
  {
    hide Wanting, Where;
    var A, B := if f == 1 then Where(w.customers, Chose1) else Where(w.customers, Chose2), Where(w.customers, Chose3);
    WantingChose(w, f);
    SubsetCount(Wanting(w, f), A + B);
    UnionCount(A, B);
  }

  lemma WantingChose(w: World, f: int)
    requires 1 <= f <= 2
    ensures var A := if f == 1 then Where(w.customers, Chose1) else Where(w.customers, Chose2);
            Wanting(w, f) <= A + Where(w.customers, Chose3)
  {
    var A, B := if f == 1 then Where(w.customers, Chose1) else Where(w.customers, Chose2), Where(w.customers, Chose3);
    forall p | p in Wanting(w, f) ensures p in A + B {
      var c := w.customers[p];
      if c.ty == 3 {
        assert Chose3(c) && p in B;
      } else if f == 1 {
        assert Chose1(c) && p in A;
      } else {
        assert Chose2(c) && p in A;
      }
    }
  }

  lemma UnionCount(A: set<int>, B: set<int>)
    ensures |A + B| <= |A| + |B|
  {
    assert A + B == A + (B - A);
    SubsetCount(B - A, B);
  }

  lemma {:induction false} DistinctCount(q: seq<int>)
    requires NoDup(q)
    ensures |set y | y in q| == |q|
    decreases |q|
  {
    var A := set y | y in q;
    if q == [] {
      assert A == {};
    } else {
      DistinctCount(q[1..]);
      assert A == (set y | y in q[1..]) + {q[0]};
      assert q[0] !in q[1..];
    }
  }

  /** As many customers as ids, if the ids belong to customers among them. */
  lemma {:induction false} OwnersCount(A: set<int>, C: set<int>, who: map<int, int>, customers: map<int, Customer>)
    requires forall y | y in A :: y in who && who[y] in C && who[y] in customers && customers[who[y]].id == y
    ensures |A| <= |C|
    decreases |A|
  {
    if y :| y in A {
      var B, D := A - {y}, C - {who[y]};
      forall z | z in B ensures who[z] in D {
        assert z in A;
      }
      OwnersCount(B, D, who, customers);
    } else {
      forall x ensures x !in A {
      }
      assert A == {};
    }
  }

  /** Whoever is in the array of a flight, and whoever was refused for it, wanted it. */
  lemma WantedIt(w: World, f: int, y: int, t1: nat, t2: nat)
    requires Inv(w, t1, t2) && TypesOk(w) && Checked(w) && 1 <= f <= 2
    requires y in w.line.stage && y in w.book.ftype && Wants(w.book.ftype[y], f)
    ensures y in w.ids.who && w.ids.who[y] in Wanting(w, f) && w.ids.who[y] in w.customers
    ensures w.customers[w.ids.who[y]].id == y
  {
    hide IdsInv, BookInv, LineInv, TypesOk;
    AllDone(w);
    RequestOwner(w, y);
    var p := w.ids.who[y];
    TypeOf(w, p);
  }

  lemma TypeOf(w: World, p: int)
    requires TypesOk(w) && p in w.customers && Informed(w.customers[p])
    ensures w.customers[p].id in w.book.ftype && w.book.ftype[w.customers[p].id] == w.customers[p].ty
  {
  }

  lemma RequestOwner(w: World, y: int)
    requires LineInv(w.line, w.ids.who, w.clerks, w.customers, w.agency) && y in w.line.stage
    ensures y in w.ids.who && w.ids.who[y] in w.customers && w.customers[w.ids.who[y]].id == y
  {
    hide LineOwned, Local, CellsOk, FinishedOk, CountsOk, PhaseOk;
    assert RequestOk(w.line, w.ids.who, w.clerks, w.customers, y);
  }

  /** Once all customers have terminated, a sold-out flight has its tickets with customers who wanted it; with a refused one
      besides, more customers wanted it than it has tickets. */
  lemma SoldOutIsOverbooked(w: World, f: int, x: int, t1: nat, t2: nat)
    requires Inv(w, t1, t2) && TypesOk(w) && Checked(w) && 1 <= f <= 2 && FlightOf(w.book, f).cs == 1
    requires x in w.line.stage && x in w.book.ftype && Wants(w.book.ftype[x], f) && x in w.book.booked && !w.book.booked[x]
    requires FlightOf(w.book, f).counter == 0
    ensures Tickets(f, t1, t2) < |Wanting(w, f)|
  {
    hide Inv, IdsInv, LineInv, BookInv, TypesOk, Wanting, NoDup, Checked;
    var q := Booked(FlightOf(w.book, f));
    FullFlight(w, f, t1, t2);
    var A := (set y | y in q) + {x};
    DistinctCount(q);
    forall y | y in A ensures y in w.ids.who && w.ids.who[y] in Wanting(w, f) && w.ids.who[y] in w.customers
                              && w.customers[w.ids.who[y]].id == y {
      if y != x {
        BookedWanted(w, f, y, t1, t2);
      }
      WantedIt(w, f, y, t1, t2);
    }
    NotBooked(w, f, x, t1, t2);
    OwnersCount(A, Wanting(w, f), w.ids.who, w.customers);
  }

  lemma FullFlight(w: World, f: int, t1: nat, t2: nat)
    requires Inv(w, t1, t2) && 1 <= f <= 2 && FlightOf(w.book, f).cs == 1 && FlightOf(w.book, f).counter == 0
    ensures |Booked(FlightOf(w.book, f))| == Tickets(f, t1, t2) && NoDup(Booked(FlightOf(w.book, f)))
  {
    hide IdsInv, LineInv, ClerkDesk, CustomerDesk, RequestDesk, Members, NoDup;
  }

  lemma BookedWanted(w: World, f: int, y: int, t1: nat, t2: nat)
    requires Inv(w, t1, t2) && Checked(w) && 1 <= f <= 2 && In(w.book, f, y)
    ensures y in w.line.stage && y in w.book.ftype && Wants(w.book.ftype[y], f)
  {
    hide Inv, IdsInv, LineInv, BookInv, In, Checked;
    TakeBook(w, t1, t2);
    MemberFact(w, f, y, t1, t2);
    AllDone(w);
    NoneLeft(w, y);
    RequestDeskFact(w, y, t1, t2);
  }

  lemma MemberFact(w: World, f: int, y: int, t1: nat, t2: nat)
    requires BookInv(w.book, w.line.stage, w.clerks, w.customers, t1, t2) && 1 <= f <= 2 && In(w.book, f, y)
    ensures y in w.line.stage
  {
    hide FlightsOk, ClerkDesk, CustomerDesk, RequestDesk, In;
  }

  lemma NotBooked(w: World, f: int, x: int, t1: nat, t2: nat)
    requires Inv(w, t1, t2) && Checked(w) && 1 <= f <= 2 && x in w.line.stage && x in w.book.booked && !w.book.booked[x]
    ensures x !in Booked(FlightOf(w.book, f))
  {
    hide Inv, IdsInv, LineInv, BookInv, Checked;
    TakeBook(w, t1, t2);
    AllDone(w);
    NoneLeft(w, x);
    RequestDeskFact(w, x, t1, t2);
    assert In(w.book, f, x) <==> x in Booked(FlightOf(w.book, f));
  }

  /** With at least as many tickets as customers who may want each flight, every customer is booked in the end. */
  lemma EnoughForAll(ws: seq<World>, acts: seq<Action>, t1: nat, t2: nat, i: nat, x: int)
    requires Run(ws, acts, t1, t2) && Divided(ws[0]) && i < |ws| && Checking(ws[i]) && 0 <= x < |ws[i].customers|
    requires ws[0].ids.left[1] + ws[0].ids.left[3] <= t1 && ws[0].ids.left[2] + ws[0].ids.left[3] <= t2
    ensures x in ws[i].book.booked && ws[i].book.booked[x]
  {
    hide Run, Init, Inv, IdsInv, LineInv, BookInv, TypesOk, ChosenOk, Wanting, Where;
    var w := ws[i];
    RunInv(ws, acts, t1, t2, i);
    RunChosen(ws, acts, t1, t2, i);
    FinalCounts(ws, acts, t1, t2, i);
    EveryIdCollected(w, x, t1, t2);
    RefusedOnlyWhenSoldOut(ws, acts, t1, t2, i, x);
    if !w.book.booked[x] {
      var f :| 1 <= f <= 2 && Wants(w.book.ftype[x], f) && FlightOf(w.book, f).counter == 0;
      SoldOutIsOverbooked(w, f, x, t1, t2);
      WantingIsBounded(w, ws[0].ids.left, f);
    }
  }
}
