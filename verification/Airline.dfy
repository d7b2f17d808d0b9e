/** The airline reservation protocol: any number of clerks (user/tst_air_clerk.c), any number of customers
    (user/tst_air_customer.c) and the agency that starts and closes them (user/tst_air.c), over atomic semaphores. Every
    semaphore operation and every access to shared memory is a step of its own. */
module Airline {
  import opened Common

  /** Owners of the queue's critical section. */
  datatype Proc = ClerkProc(k: int) | CustomerProc(p: int)

  // ---------------------------------------------------------------------------
  // Processes
  // ---------------------------------------------------------------------------

  /** Where a clerk is, named after what it does next; `f` is the flight, 1 or 2. */
  datatype ClerkPc =
    | Opened | ReadyWait | QueueWait | Peek | QueueBack | Advance | QueueSignal | Switch
    | Wait1 | Wait2 | Test | Dec(f: int) | Flag(f: int) | Store(f: int) | Count(f: int) | Signal1 | Signal2
    | FinishSignal | ClerkSignal | Closing | Gone

  datatype Clerk = Clerk(pc: ClerkPc, cust: int, ty: int)

  datatype CustomerPc =
    | IdWait | IdRead | IdCount | Choose | IdSignal
    | CapacityWait | ClerkWait | InfoBooked | InfoType
    | LineWait | LineWrite | LineCount | LineSignal
    | ReadySignal | FinishWait | CapacitySignal | TermSignal | Done

  datatype Customer = Customer(pc: CustomerPc, id: int, ty: int)

  /** The agency collects the customers, then closes: it clears the flag, marks the end of the queue, wakes the clerks and
      waits for them to terminate. */
  datatype Agency = Collect(n: nat) | Close | Mark | Wake(n: nat) | Await(n: nat) | Over

  // ---------------------------------------------------------------------------
  // Shared memory
  // ---------------------------------------------------------------------------

  /** The customer counter and its semaphore; `owner` and `who` (which customer took an id) are bookkeeping. */
  datatype Ids = Ids(counter: int, cs: nat, owner: Option<int>, who: map<int, int>, left: map<int, int>)

  /** What has become of a request: still in the line, with a clerk, done, and its customer told. Bookkeeping. */
  datatype Stage = Queued | Serving(k: int) | Served | Collected

  /** The request queue with its semaphores; `owner` and `stage` are bookkeeping. */
  datatype Line = Line(
    cs: nat, owner: Option<Proc>, cells: seq<int>, qin: nat, qout: nat, ready: nat, finished: map<int, nat>,
    term: nat, stage: map<int, Stage>)

  /** Tickets left, customers booked so far, the array of them, and its semaphore with its owner. */
  datatype Flight = Flight(counter: int, booked: nat, arr: seq<int>, cs: nat, owner: Option<int>)

  /** The customers' records and the two flights. */
  datatype Book = Book(ftype: map<int, int>, booked: map<int, bool>, f1: Flight, f2: Flight)

  datatype World = World(
    clerks: map<int, Clerk>, customers: map<int, Customer>, agency: Agency, isOpened: bool,
    ids: Ids, line: Line, book: Book, capacity: nat, clerkSem: nat, clerkTerm: nat)

  /** Waiting for a semaphore blocks; a panic, or an access outside an array, would stop the program. */
  datatype Outcome = Blocked | Panic | Next(w: World)

  function FlightOf(b: Book, f: int): Flight {
    if f == 1 then b.f1 else b.f2
  }

  function SetFlight(b: Book, f: int, fl: Flight): Book {
    if f == 1 then b.(f1 := fl) else b.(f2 := fl)
  }

  predicate Wants(ty: int, f: int) {
    ty == f || ty == 3
  }

  // ---------------------------------------------------------------------------
  // The clerk
  // ---------------------------------------------------------------------------

  function ClerkAt(w: World, k: int, pc: ClerkPc): World
    requires k in w.clerks
  {
    w.(clerks := w.clerks[k := w.clerks[k].(pc := pc)])
  }

  /** The first unlock of a booking, and the first flight of it. */
  function FirstSignal(ty: int): ClerkPc {
    if ty == 2 then Signal2 else Signal1
  }

  /** Waiting for a customer and taking its request off the line. */
  function FetchStep(w: World, k: int): Outcome
    requires k in w.clerks
  {
    var c, l := w.clerks[k], w.line;
    match c.pc
    case ReadyWait => if l.ready == 0 then Blocked else Next(ClerkAt(w, k, QueueWait).(line := l.(ready := l.ready - 1)))
    case QueueWait =>
      if l.cs == 0 then Blocked
      else Next(ClerkAt(w, k, Peek).(line := l.(cs := l.cs - 1, owner := Some(ClerkProc(k)))))
    case Peek =>
      if l.qout >= |l.cells| then Panic
      else if l.cells[l.qout] == -1 then Next(ClerkAt(w, k, QueueBack))
      else Next(w.(clerks := w.clerks[k := c.(pc := Advance, cust := l.cells[l.qout])]))
    case QueueBack => Next(ClerkAt(w, k, Opened).(line := l.(cs := l.cs + 1, owner := None)))
    case Advance =>
      Next(ClerkAt(w, k, QueueSignal).(line := l.(qout := l.qout + 1, stage := l.stage[c.cust := Serving(k)])))
    case _ => Next(ClerkAt(w, k, Switch).(line := l.(cs := l.cs + 1, owner := None)))
  }

  /** Locking the flights that the customer wants, and giving them back. */
  function LockStep(w: World, k: int): Outcome
    requires k in w.clerks
  {
    var c, b := w.clerks[k], w.book;
    match c.pc
    case Switch =>
      if c.cust !in b.ftype || b.ftype[c.cust] < 1 || b.ftype[c.cust] > 3 then Panic
      else
        var ty := b.ftype[c.cust];
        Next(w.(clerks := w.clerks[k := c.(pc := if ty == 2 then Wait2 else Wait1, ty := ty)]))
    case Wait1 =>
      if b.f1.cs == 0 then Blocked
      else Next(ClerkAt(w, k, if c.ty == 3 then Wait2 else Test)
                .(book := b.(f1 := b.f1.(cs := b.f1.cs - 1, owner := Some(k)))))
    case Wait2 =>
      if b.f2.cs == 0 then Blocked
      else Next(ClerkAt(w, k, Test).(book := b.(f2 := b.f2.(cs := b.f2.cs - 1, owner := Some(k)))))
    case Signal1 =>
      Next(ClerkAt(w, k, if c.ty == 3 then Signal2 else FinishSignal)
           .(book := b.(f1 := b.f1.(cs := b.f1.cs + 1, owner := None))))
    case _ =>
      Next(ClerkAt(w, k, FinishSignal).(book := b.(f2 := b.f2.(cs := b.f2.cs + 1, owner := None))))
  }

  /** Booking on one flight or both. */
  function BookStep(w: World, k: int): Outcome
    requires k in w.clerks
  {
    var c, b := w.clerks[k], w.book;
    match c.pc
    case Dec(f) =>
      var fl := FlightOf(b, f);
      Next(ClerkAt(w, k, Flag(f)).(book := SetFlight(b, f, fl.(counter := fl.counter - 1))))
    case Flag(f) => Next(ClerkAt(w, k, Store(f)).(book := b.(booked := b.booked[c.cust := true])))
    case Store(f) =>
      var fl := FlightOf(b, f);
      if fl.booked >= |fl.arr| then Panic
      else Next(ClerkAt(w, k, Count(f)).(book := SetFlight(b, f, fl.(arr := fl.arr[fl.booked := c.cust]))))
    case Count(f) =>
      var fl := FlightOf(b, f);
      Next(ClerkAt(w, k, if c.ty == 3 && f == 1 then Dec(2) else FirstSignal(c.ty))
           .(book := SetFlight(b, f, fl.(booked := fl.booked + 1))))
    case _ =>
      if (Wants(c.ty, 1) ==> b.f1.counter > 0) && (Wants(c.ty, 2) ==> b.f2.counter > 0)
      then Next(ClerkAt(w, k, Dec(if c.ty == 2 then 2 else 1)))
      else Next(ClerkAt(w, k, FirstSignal(c.ty)))
  }

  /** Telling the customer, being free again, closing. */
  function LeaveStep(w: World, k: int): Outcome
    requires k in w.clerks
  {
    var c, l := w.clerks[k], w.line;
    match c.pc
    case Opened => Next(ClerkAt(w, k, if w.isOpened then ReadyWait else Closing))
    case FinishSignal =>
      if c.cust !in l.finished then Panic
      else Next(ClerkAt(w, k, ClerkSignal)
                .(line := l.(finished := l.finished[c.cust := l.finished[c.cust] + 1], stage := l.stage[c.cust := Served])))
    case ClerkSignal => Next(ClerkAt(w, k, Opened).(clerkSem := w.clerkSem + 1))
    case Closing => Next(ClerkAt(w, k, Gone).(clerkTerm := w.clerkTerm + 1))
    case _ => Blocked
  }

  function ClerkStep(w: World, k: int): Outcome
    requires k in w.clerks
  {
    match w.clerks[k].pc
    case ReadyWait | QueueWait | Peek | QueueBack | Advance | QueueSignal => FetchStep(w, k)
    case Switch | Wait1 | Wait2 | Signal1 | Signal2 => LockStep(w, k)
    case Test | Dec(_) | Flag(_) | Store(_) | Count(_) => BookStep(w, k)
    case Opened | FinishSignal | ClerkSignal | Closing | Gone => LeaveStep(w, k)
  }

  // ---------------------------------------------------------------------------
  // The customer
  // ---------------------------------------------------------------------------

  function CustomerAt(w: World, p: int, pc: CustomerPc): World
    requires p in w.customers
  {
    w.(customers := w.customers[p := w.customers[p].(pc := pc)])
  }

  /** Taking an id and a flight; `ty` is what the random choice comes to: a type that still has customers to come. */
  function IdPhase(w: World, p: int, ty: int): Outcome
    requires p in w.customers
  {
    var c, i := w.customers[p], w.ids;
    match c.pc
    case IdWait =>
      if i.cs == 0 then Blocked else Next(CustomerAt(w, p, IdRead).(ids := i.(cs := i.cs - 1, owner := Some(p))))
    case IdRead =>
      Next(w.(customers := w.customers[p := c.(pc := IdCount, id := i.counter)], ids := i.(who := i.who[i.counter := p])))
    case IdCount => Next(CustomerAt(w, p, Choose).(ids := i.(counter := i.counter + 1)))
    case Choose =>
      if ty < 1 || ty > 3 || ty !in i.left || i.left[ty] <= 0 then Blocked
      else Next(w.(customers := w.customers[p := c.(pc := IdSignal, ty := ty)],
                   ids := i.(left := i.left[ty := i.left[ty] - 1])))
    case _ => Next(CustomerAt(w, p, CapacityWait).(ids := i.(cs := i.cs + 1, owner := None)))
  }

  /** Entering the agency and filling in the request. */
  function InfoPhase(w: World, p: int): Outcome
    requires p in w.customers
  {
    var c, b := w.customers[p], w.book;
    match c.pc
    case CapacityWait =>
      if w.capacity == 0 then Blocked else Next(CustomerAt(w, p, ClerkWait).(capacity := w.capacity - 1))
    case ClerkWait =>
      if w.clerkSem == 0 then Blocked else Next(CustomerAt(w, p, InfoBooked).(clerkSem := w.clerkSem - 1))
    case InfoBooked => Next(CustomerAt(w, p, InfoType).(book := b.(booked := b.booked[c.id := false])))
    case _ => Next(CustomerAt(w, p, LineWait).(book := b.(ftype := b.ftype[c.id := c.ty])))
  }

  /** Joining the line. */
  function LinePhase(w: World, p: int): Outcome
    requires p in w.customers
  {
    var c, l := w.customers[p], w.line;
    match c.pc
    case LineWait =>
      if l.cs == 0 then Blocked
      else Next(CustomerAt(w, p, LineWrite).(line := l.(cs := l.cs - 1, owner := Some(CustomerProc(p)))))
    case LineWrite =>
      if l.qin >= |l.cells| then Panic
      else Next(CustomerAt(w, p, LineCount).(line := l.(cells := l.cells[l.qin := c.id])))
    case LineCount =>
      Next(CustomerAt(w, p, LineSignal).(line := l.(qin := l.qin + 1, stage := l.stage[c.id := Queued])))
    case LineSignal => Next(CustomerAt(w, p, ReadySignal).(line := l.(cs := l.cs + 1, owner := None)))
    case _ => Next(CustomerAt(w, p, FinishWait).(line := l.(ready := l.ready + 1)))
  }

  /** Waiting to be served, and leaving. */
  function ExitPhase(w: World, p: int): Outcome
    requires p in w.customers
  {
    var c, l := w.customers[p], w.line;
    match c.pc
    case FinishWait =>
      if c.id !in l.finished then Panic
      else if l.finished[c.id] == 0 then Blocked
      else Next(CustomerAt(w, p, CapacitySignal)
                .(line := l.(finished := l.finished[c.id := l.finished[c.id] - 1], stage := l.stage[c.id := Collected])))
    case CapacitySignal => Next(CustomerAt(w, p, TermSignal).(capacity := w.capacity + 1))
    case TermSignal => Next(CustomerAt(w, p, Done).(line := l.(term := l.term + 1)))
    case _ => Blocked
  }

  function CustomerStep(w: World, p: int, ty: int): Outcome
    requires p in w.customers
  {
    match w.customers[p].pc
    case IdWait | IdRead | IdCount | Choose | IdSignal => IdPhase(w, p, ty)
    case CapacityWait | ClerkWait | InfoBooked | InfoType => InfoPhase(w, p)
    case LineWait | LineWrite | LineCount | LineSignal | ReadySignal => LinePhase(w, p)
    case FinishWait | CapacitySignal | TermSignal | Done => ExitPhase(w, p)
  }

  // ---------------------------------------------------------------------------
  // The agency
  // ---------------------------------------------------------------------------

  function AgencyStep(w: World): Outcome {
    var l := w.line;
    match w.agency
    case Collect(n) =>
      if n == |w.customers| then Next(w.(agency := Close))
      else if l.term == 0 then Blocked
      else Next(w.(agency := Collect(n + 1), line := l.(term := l.term - 1)))
    case Close => Next(w.(agency := Mark, isOpened := false))
    case Mark =>
      if |w.customers| >= |l.cells| then Panic
      else Next(w.(agency := Wake(0), line := l.(cells := l.cells[|w.customers| := -1])))
    case Wake(n) =>
      if n == |w.clerks| then Next(w.(agency := Await(0)))
      else Next(w.(agency := Wake(n + 1), line := l.(ready := l.ready + 1)))
    case Await(n) =>
      if n == |w.clerks| then Next(w.(agency := Over))
      else if w.clerkTerm == 0 then Blocked
      else Next(w.(agency := Await(n + 1), clerkTerm := w.clerkTerm - 1))
    case Over => Blocked
  }

  // ---------------------------------------------------------------------------
  // Counting processes
  // ---------------------------------------------------------------------------

  ghost function Where<T>(m: map<int, T>, P: T -> bool): set<int> {
    set k | k in m && P(m[k])
  }

  /** One process moves: the number of processes in a place changes by that one. */
  lemma WhereMoves<T>(m: map<int, T>, k: int, v: T, P: T -> bool)
    requires k in m
    ensures |Where(m[k := v], P)| == |Where(m, P)| + (if P(v) then 1 else 0) - (if P(m[k]) then 1 else 0)
  {
    var A, B := Where(m, P), Where(m[k := v], P);
    WhereOthers(m, k, v, P);
    WithOne(A, k);
    WithOne(B, k);
  }

  lemma WhereOthers<T>(m: map<int, T>, k: int, v: T, P: T -> bool)
    requires k in m
    ensures Where(m[k := v], P) - {k} == Where(m, P) - {k}
  {
  }

  lemma WithOne(A: set<int>, k: int)
    ensures |A| == |A - {k}| + if k in A then 1 else 0
  {
  }

  lemma WhereAtMost<T>(m: map<int, T>, P: T -> bool)
    ensures |Where(m, P)| <= |m|
    ensures |Where(m, P)| == |m| ==> forall k | k in m :: P(m[k])
    ensures forall k | k in m && P(m[k]) :: |Where(m, P)| > 0
    ensures forall k | k in m && !P(m[k]) :: |Where(m, P)| < |m|
  {
    var A := Where(m, P);
    SubsetCount(A, m.Keys);
    forall k | k in m && !P(m[k]) ensures |A| < |m| {
      SubsetCount(A, m.Keys - {k});
    }
    forall k | k in m && P(m[k]) ensures |A| > 0 {
      assert k in A;
    }
  }

  // ---------------------------------------------------------------------------
  // Ids: every customer takes its own
  // ---------------------------------------------------------------------------

  predicate InIdSection(c: Customer) {
    c.pc == IdRead || c.pc == IdCount || c.pc == Choose || c.pc == IdSignal
  }

  predicate HasId(c: Customer) {
    c.pc != IdWait && c.pc != IdRead
  }

  predicate Counted(c: Customer) {
    HasId(c) && c.pc != IdCount
  }

  predicate HasType(c: Customer) {
    Counted(c) && c.pc != Choose
  }

  ghost predicate IdOwned(ids: Ids, customers: map<int, Customer>) {
    && ids.cs == (if ids.owner.None? then 1 else 0)
    && (ids.owner.Some? ==> ids.owner.value in customers)
    && (forall p | p in customers :: InIdSection(customers[p]) <==> ids.owner == Some(p))
  }

  ghost predicate CustomerId(ids: Ids, p: int, c: Customer) {
    && (HasId(c) ==> c.id in ids.who && ids.who[c.id] == p)
    && (HasType(c) ==> 1 <= c.ty <= 3)
    && (c.pc == IdCount ==> c.id == ids.counter)
    && (Counted(c) ==> 0 <= c.id < ids.counter)
  }

  ghost predicate IdTaken(ids: Ids, customers: map<int, Customer>, c: int)
    requires c in ids.who
  {
    && ids.who[c] in customers && HasId(customers[ids.who[c]]) && customers[ids.who[c]].id == c
    && (0 <= c < ids.counter || (c == ids.counter && customers[ids.who[c]].pc == IdCount))
  }

  /** Ids are given out one by one, and no two customers have the same. */
  ghost predicate IdsInv(ids: Ids, customers: map<int, Customer>) {
    && IdOwned(ids, customers)
    && (forall p | p in customers :: CustomerId(ids, p, customers[p]))
    && (forall c | c in ids.who :: IdTaken(ids, customers, c))
    && ids.counter == |Where(customers, Counted)|
  }

  /** A customer step outside the id section leaves the ids alone. */
  lemma IdsOutside(ids: Ids, customers: map<int, Customer>, p: int, c: Customer)
    requires IdsInv(ids, customers) && p in customers
    requires HasType(customers[p]) && HasType(c) && InIdSection(customers[p]) == InIdSection(c)
    requires c.id == customers[p].id && c.ty == customers[p].ty
    ensures IdsInv(ids, customers[p := c])
  {
    WhereMoves(customers, p, c, Counted);
    forall x | x in ids.who ensures IdTaken(ids, customers[p := c], x) {
      assert IdTaken(ids, customers, x);
    }
  }

  /** What a step of customer `p` inside the section does to the ids. */
  lemma IdsInside(ids: Ids, ids': Ids, customers: map<int, Customer>, p: int, c: Customer)
    requires IdsInv(ids, customers) && p in customers && ids'.left.Keys == ids.left.Keys
    requires var o := customers[p];
             || (o.pc == IdWait && ids.cs > 0 && c == o.(pc := IdRead) && ids' == ids.(cs := ids.cs - 1, owner := Some(p)))
             || (o.pc == IdRead && c == o.(pc := IdCount, id := ids.counter)
                 && ids' == ids.(who := ids.who[ids.counter := p]))
             || (o.pc == IdCount && c == o.(pc := Choose) && ids' == ids.(counter := ids.counter + 1))
             || (o.pc == Choose && 1 <= c.ty <= 3 && c == o.(pc := IdSignal, ty := c.ty) && ids' == ids.(left := ids'.left))
             || (o.pc == IdSignal && c == o.(pc := CapacityWait) && ids' == ids.(cs := ids.cs + 1, owner := None))
    ensures IdsInv(ids', customers[p := c])
  {
    hide Where;
    var o, after := customers[p], customers[p := c];
    WhereMoves(customers, p, c, Counted);
    assert CustomerId(ids, p, o);
    forall q | q in after ensures CustomerId(ids', q, after[q]) {
      assert CustomerId(ids, q, customers[q]);
    }
    forall x | x in ids'.who ensures IdTaken(ids', after, x) {
      if x in ids.who {
        assert IdTaken(ids, customers, x);
        var q := ids.who[x];
        assert q in customers;
      }
    }
  }

  lemma IdsStepOutside(w: World, p: int, ty: int)
    requires IdsInv(w.ids, w.customers) && p in w.customers && CustomerStep(w, p, ty).Next?
    requires HasType(w.customers[p]) && w.customers[p].pc != IdSignal
    ensures var w' := CustomerStep(w, p, ty).w; IdsInv(w'.ids, w'.customers)
  {
    hide IdsInv;
    IdsOutside(w.ids, w.customers, p, CustomerStep(w, p, ty).w.customers[p]);
  }

  lemma IdsStep(w: World, p: int, ty: int)
    requires IdsInv(w.ids, w.customers) && p in w.customers && CustomerStep(w, p, ty).Next?
    ensures var w' := CustomerStep(w, p, ty).w; IdsInv(w'.ids, w'.customers)
  {
    hide IdsInv;
    var c := w.customers[p];
    if HasType(c) && c.pc != IdSignal {
      IdsStepOutside(w, p, ty);
    } else {
      var w' := CustomerStep(w, p, ty).w;
      IdsInside(w.ids, w'.ids, w.customers, p, w'.customers[p]);
    }
  }

  // ---------------------------------------------------------------------------
  // The line: every request is taken once
  // ---------------------------------------------------------------------------

  predicate ClerkInLine(c: Clerk) {
    c.pc == Peek || c.pc == QueueBack || c.pc == Advance || c.pc == QueueSignal
  }

  predicate CustomerInLine(c: Customer) {
    c.pc == LineWrite || c.pc == LineCount || c.pc == LineSignal
  }

  /** Between taking a unit of cust_ready and taking the request. */
  predicate InFlight(c: Clerk) {
    c.pc == QueueWait || c.pc == Peek || c.pc == QueueBack || c.pc == Advance
  }

  /** With a request in hand. */
  predicate Working(c: Clerk) {
    match c.pc
    case Opened | ReadyWait | QueueWait | Peek | QueueBack | Advance | ClerkSignal | Closing | Gone => false
    case _ => true
  }

  predicate Told(c: Customer) {
    c.pc == CapacitySignal || c.pc == TermSignal || c.pc == Done
  }

  predicate Enqueued(c: Customer) {
    c.pc == LineSignal || c.pc == ReadySignal || c.pc == FinishWait || Told(c)
  }

  /** Enqueued, and cust_ready not signalled yet. */
  predicate Signalling(c: Customer) {
    c.pc == LineSignal || c.pc == ReadySignal
  }

  predicate IsDone(c: Customer) {
    c.pc == Done
  }

  ghost predicate LineOwned(l: Line, clerks: map<int, Clerk>, customers: map<int, Customer>) {
    && l.cs == (if l.owner.None? then 1 else 0)
    && (forall k | k in clerks :: ClerkInLine(clerks[k]) <==> l.owner == Some(ClerkProc(k)))
    && (forall p | p in customers :: CustomerInLine(customers[p]) <==> l.owner == Some(CustomerProc(p)))
  }

  ghost predicate RequestOk(l: Line, who: map<int, int>, clerks: map<int, Clerk>, customers: map<int, Customer>, c: int)
    requires c in l.stage
  {
    && c in who && who[c] in customers && customers[who[c]].id == c && Enqueued(customers[who[c]])
    && (l.stage[c] == Collected <==> Told(customers[who[c]]))
    && (l.stage[c].Serving? ==>
          var k := l.stage[c].k; k in clerks && Working(clerks[k]) && clerks[k].cust == c)
  }

  ghost predicate CustomerLine(l: Line, c: Customer) {
    && (HasId(c) ==> (c.id in l.stage <==> Enqueued(c)))
    && (c.pc == LineCount ==> l.qin < |l.cells| && l.cells[l.qin] == c.id)
  }

  ghost predicate ClerkLine(l: Line, k: int, c: Clerk, awake: bool) {
    && (c.pc == Advance ==> l.qout < l.qin < |l.cells| && c.cust == l.cells[l.qout])
    && (c.pc == QueueBack ==> awake)
    && (Working(c) ==> c.cust in l.stage && l.stage[c.cust] == Serving(k))
  }

  ghost predicate CellOk(l: Line, i: nat)
    requires i < |l.cells|
  {
    l.cells[i] in l.stage && (l.stage[l.cells[i]] == Queued <==> i >= l.qout)
  }

  /** The line holds distinct requests; those from queue_out on are the ones nobody has taken yet. */
  ghost predicate CellsOk(l: Line, n: nat) {
    && l.qout <= l.qin <= n && |l.cells| == n + 1
    && (forall i: nat | i < l.qin :: CellOk(l, i))
    && (forall i, j | 0 <= i < j < l.qin :: l.cells[i] != l.cells[j])
  }

  ghost predicate FinishedOk(l: Line, n: nat) {
    && (forall c | 0 <= c < n :: c in l.finished)
    && (forall c | c in l.finished :: l.finished[c] == if c in l.stage && l.stage[c] == Served then 1 else 0)
  }

  predicate Awake(a: Agency) {
    a.Wake? || a.Await? || a.Over?
  }

  /** Units of cust_ready, clerks that have one, requests taken and requests not announced yet make up the line. */
  ghost predicate CountsOk(l: Line, clerks: map<int, Clerk>, customers: map<int, Customer>, a: Agency) {
    && l.qin == |Where(customers, Enqueued)|
    && (a.Collect? ==> a.n <= |customers| && l.term + a.n == |Where(customers, IsDone)|)
    && (!Awake(a) ==> l.ready + |Where(clerks, InFlight)| + l.qout + |Where(customers, Signalling)| == l.qin)
  }

  /** Once the agency closes, all customers are done and the line is used up. */
  ghost predicate PhaseOk(l: Line, customers: map<int, Customer>, a: Agency) {
    && (!a.Collect? ==> l.qout == |customers| && forall p | p in customers :: IsDone(customers[p]))
    && (Awake(a) ==> |l.cells| == |customers| + 1 && l.cells[|customers|] == -1)
  }

  ghost predicate Requests(l: Line, who: map<int, int>, clerks: map<int, Clerk>, customers: map<int, Customer>) {
    forall c | c in l.stage :: RequestOk(l, who, clerks, customers, c)
  }

  ghost predicate Local(l: Line, clerks: map<int, Clerk>, customers: map<int, Customer>, awake: bool) {
    && (forall p | p in customers :: CustomerLine(l, customers[p]))
    && (forall k | k in clerks :: ClerkLine(l, k, clerks[k], awake))
  }

  ghost predicate LineInv(l: Line, who: map<int, int>, clerks: map<int, Clerk>, customers: map<int, Customer>, a: Agency) {
    && LineOwned(l, clerks, customers) && Requests(l, who, clerks, customers) && Local(l, clerks, customers, Awake(a))
    && CellsOk(l, |customers|) && FinishedOk(l, |customers|) && CountsOk(l, clerks, customers, a)
    && PhaseOk(l, customers, a)
  }

  // Clerk steps ----------------------------------------------------------------

  lemma SameCells(l: Line, l': Line, n: nat)
    requires CellsOk(l, n) && l'.cells == l.cells && l'.qin == l.qin && l'.qout == l.qout && l'.stage == l.stage
    ensures CellsOk(l', n)
  {
    forall i: nat | i < l'.qin ensures CellOk(l', i) {
      assert CellOk(l, i);
    }
  }

  /** Requests do not see the semaphores, and see of the clerks only who works on what. */
  lemma RequestsKept(l: Line, l': Line, who: map<int, int>, clerks: map<int, Clerk>, k: int, c: Clerk,
                     customers: map<int, Customer>)
    requires Requests(l, who, clerks, customers) && l'.stage == l.stage && k in clerks
    requires Working(c) == Working(clerks[k]) && (Working(c) ==> c.cust == clerks[k].cust)
    ensures Requests(l', who, clerks[k := c], customers)
  {
  }

  lemma LocalKept(l: Line, l': Line, clerks: map<int, Clerk>, k: int, c: Clerk, customers: map<int, Customer>, awake: bool)
    requires Local(l, clerks, customers, awake) && k in clerks && ClerkLine(l', k, c, awake)
    requires l'.stage == l.stage && l'.cells == l.cells && l'.qin == l.qin && l'.qout == l.qout
    ensures Local(l', clerks[k := c], customers, awake)
  {
  }

  predicate SameRequests(l: Line, l': Line) {
    && l'.stage == l.stage && l'.cells == l.cells && l'.qin == l.qin && l'.qout == l.qout && l'.finished == l.finished
  }

  /** A clerk step that only uses the semaphores of the line. */
  lemma LineClerk(w: World, l: Line, k: int, c: Clerk)
    requires LineInv(w.line, w.ids.who, w.clerks, w.customers, w.agency) && k in w.clerks
    requires SameRequests(w.line, l) && l.term == w.line.term
    requires LineOwned(l, w.clerks[k := c], w.customers) && ClerkLine(l, k, c, Awake(w.agency))
    requires Working(c) == Working(w.clerks[k]) && (Working(c) ==> c.cust == w.clerks[k].cust)
    requires !Awake(w.agency) ==>
               l.ready + (if InFlight(c) then 1 else 0) == w.line.ready + (if InFlight(w.clerks[k]) then 1 else 0)
    ensures LineInv(l, w.ids.who, w.clerks[k := c], w.customers, w.agency)
  {
    hide Where, LineOwned, Requests, Local, CellsOk, InFlight, ClerkLine, Working;
    WhereMoves(w.clerks, k, c, InFlight);
    RequestsKept(w.line, l, w.ids.who, w.clerks, k, c, w.customers);
    LocalKept(w.line, l, w.clerks, k, c, w.customers, Awake(w.agency));
    SameCells(w.line, l, |w.customers|);
  }

  /** A cell that is being looked at is a request, unless the agency has marked the end. */
  lemma PeekFinds(w: World, k: int)
    requires IdsInv(w.ids, w.customers) && LineInv(w.line, w.ids.who, w.clerks, w.customers, w.agency)
    requires k in w.clerks && w.clerks[k].pc == Peek
    ensures w.line.qout < |w.line.cells|
    ensures Awake(w.agency) <==> w.line.cells[w.line.qout] == -1
    ensures !Awake(w.agency) ==> w.line.qout < w.line.qin
  {
    hide Where, LineOwned, Local, FinishedOk;
    if !Awake(w.agency) {
      WhereAtMost(w.clerks, InFlight);
      assert |Where(w.clerks, InFlight)| > 0;
      var c := w.line.cells[w.line.qout];
      assert CellOk(w.line, w.line.qout);
      assert RequestOk(w.line, w.ids.who, w.clerks, w.customers, c);
      assert IdTaken(w.ids, w.customers, c);
      assert w.ids.counter >= 0;
    }
  }

  lemma ClerkFacts(w: World, k: int)
    requires LineInv(w.line, w.ids.who, w.clerks, w.customers, w.agency) && k in w.clerks
    ensures ClerkLine(w.line, k, w.clerks[k], Awake(w.agency))
    ensures ClerkInLine(w.clerks[k]) <==> w.line.owner == Some(ClerkProc(k))
    ensures LineOwned(w.line, w.clerks, w.customers)
  {
  }

  lemma OwnedByClerk(l: Line, clerks: map<int, Clerk>, customers: map<int, Customer>, k: int, c: Clerk, l': Line)
    requires LineOwned(l, clerks, customers) && k in clerks
    requires || (l.cs > 0 && ClerkInLine(c) && l'.cs == l.cs - 1 && l'.owner == Some(ClerkProc(k)))
             || (ClerkInLine(clerks[k]) && !ClerkInLine(c) && l'.cs == l.cs + 1 && l'.owner == None)
             || (ClerkInLine(clerks[k]) == ClerkInLine(c) && l'.cs == l.cs && l'.owner == l.owner)
    ensures LineOwned(l', clerks[k := c], customers)
  {
  }

  /** What those steps do to the clerk and to the line. */
  lemma FetchShape(w: World, k: int)
    requires k in w.clerks && ClerkStep(w, k).Next?
    requires var pc := w.clerks[k].pc; pc == ReadyWait || pc == QueueWait || pc == Peek || pc == QueueBack || pc == QueueSignal
    ensures var w', l, o := ClerkStep(w, k).w, w.line, w.clerks[k];
            && w'.customers == w.customers && w'.agency == w.agency && w'.ids == w.ids
            && (o.pc == ReadyWait ==>
                  l.ready > 0 && w'.clerks == w.clerks[k := o.(pc := QueueWait)] && w'.line == l.(ready := l.ready - 1))
            && (o.pc == QueueWait ==>
                  && l.cs > 0 && w'.clerks == w.clerks[k := o.(pc := Peek)]
                  && w'.line == l.(cs := l.cs - 1, owner := Some(ClerkProc(k))))
            && (o.pc == Peek ==>
                  && w'.line == l && l.qout < |l.cells|
                  && w'.clerks == w.clerks[k := if l.cells[l.qout] == -1 then o.(pc := QueueBack)
                                                else o.(pc := Advance, cust := l.cells[l.qout])])
            && (o.pc == QueueBack ==> w'.clerks == w.clerks[k := o.(pc := Opened)])
            && (o.pc == QueueSignal ==> w'.clerks == w.clerks[k := o.(pc := Switch)])
            && (o.pc == QueueBack || o.pc == QueueSignal ==> w'.line == l.(cs := l.cs + 1, owner := None))
  {
  }

  /** The steps of a clerk that only use the line's semaphores. */
  lemma LineClerkStep(w: World, k: int)
    requires IdsInv(w.ids, w.customers) && LineInv(w.line, w.ids.who, w.clerks, w.customers, w.agency)
    requires k in w.clerks && ClerkStep(w, k).Next?
    requires var pc := w.clerks[k].pc; pc == ReadyWait || pc == QueueWait || pc == Peek || pc == QueueBack || pc == QueueSignal
    ensures var w' := ClerkStep(w, k).w;
            LineInv(w'.line, w'.ids.who, w'.clerks, w'.customers, w'.agency)
  {
    hide IdsInv, LineInv, LineOwned, ClerkStep;
    ClerkFacts(w, k);
    FetchShape(w, k);
    var w' := ClerkStep(w, k).w;
    if w.clerks[k].pc == Peek {
      PeekFinds(w, k);
    }
    CellsBound(w);
    OwnedByClerk(w.line, w.clerks, w.customers, k, w'.clerks[k], w'.line);
    LineClerk(w, w'.line, k, w'.clerks[k]);
  }

  lemma CellsBound(w: World)
    requires LineInv(w.line, w.ids.who, w.clerks, w.customers, w.agency)
    ensures w.line.qout <= w.line.qin < |w.line.cells| == |w.customers| + 1
  {
  }

  // Taking a request, and finishing it -----------------------------------------

  /** The stage of one request changes, and its cell, if any, falls on the same side of queue_out as before. */
  lemma AdvanceCells(l: Line, n: nat, k: int)
    requires CellsOk(l, n) && l.qout < l.qin
    ensures CellsOk(l.(qout := l.qout + 1, stage := l.stage[l.cells[l.qout] := Serving(k)]), n)
  {
    var l' := l.(qout := l.qout + 1, stage := l.stage[l.cells[l.qout] := Serving(k)]);
    forall i: nat | i < l'.qin ensures CellOk(l', i) {
      assert CellOk(l, i);
      assert i < l.qout ==> l.cells[i] != l.cells[l.qout];
      assert i > l.qout ==> l.cells[l.qout] != l.cells[i];
    }
  }

  lemma LineAdvance(w: World, k: int)
    requires LineInv(w.line, w.ids.who, w.clerks, w.customers, w.agency) && k in w.clerks && w.clerks[k].pc == Advance
    ensures var w' := ClerkStep(w, k).w;
            LineInv(w'.line, w'.ids.who, w'.clerks, w'.customers, w'.agency)
  {
    hide Where, CellsOk, LineOwned, Requests, Local, ClerkStep;
    var l, c := w.line, w.clerks[k];
    ClerkFacts(w, k);
    CellsBound(w);
    CellAt(w);
    var l' := l.(qout := l.qout + 1, stage := l.stage[c.cust := Serving(k)]);
    var after := w.clerks[k := c.(pc := QueueSignal)];
    assert ClerkStep(w, k) == Next(w.(clerks := after, line := l')) by { AdvanceStep(w, k); }
    WhereMoves(w.clerks, k, c.(pc := QueueSignal), InFlight);
    AdvanceCells(l, |w.customers|, k);
    OwnedByClerk(l, w.clerks, w.customers, k, c.(pc := QueueSignal), l');
    AdvanceRequests(w, k, l');
    AdvanceLocal(w, k, l');
  }

  lemma AdvanceStep(w: World, k: int)
    requires k in w.clerks && w.clerks[k].pc == Advance
    ensures var l, c := w.line, w.clerks[k];
            ClerkStep(w, k) == Next(w.(clerks := w.clerks[k := c.(pc := QueueSignal)],
                                       line := l.(qout := l.qout + 1, stage := l.stage[c.cust := Serving(k)])))
  {
  }

  lemma CellAt(w: World)
    requires LineInv(w.line, w.ids.who, w.clerks, w.customers, w.agency) && w.line.qout < w.line.qin
    ensures w.line.qout < |w.line.cells|
    ensures var c := w.line.cells[w.line.qout]; c in w.line.stage && w.line.stage[c] == Queued
  {
    assert CellOk(w.line, w.line.qout);
  }

  lemma AdvanceRequests(w: World, k: int, l: Line)
    requires LineInv(w.line, w.ids.who, w.clerks, w.customers, w.agency) && k in w.clerks && w.clerks[k].pc == Advance
    requires w.clerks[k].cust in w.line.stage && w.line.stage[w.clerks[k].cust] == Queued
    requires l.stage == w.line.stage[w.clerks[k].cust := Serving(k)]
    ensures Requests(l, w.ids.who, w.clerks[k := w.clerks[k].(pc := QueueSignal)], w.customers)
  {
  }

  lemma AdvanceLocal(w: World, k: int, l: Line)
    requires LineInv(w.line, w.ids.who, w.clerks, w.customers, w.agency) && k in w.clerks && w.clerks[k].pc == Advance
    requires w.clerks[k].cust in w.line.stage && w.line.stage[w.clerks[k].cust] == Queued
    requires l == w.line.(qout := w.line.qout + 1, stage := w.line.stage[w.clerks[k].cust := Serving(k)])
    ensures Local(l, w.clerks[k := w.clerks[k].(pc := QueueSignal)], w.customers, Awake(w.agency))
  {
  }

  lemma SameSide(l: Line, l': Line, n: nat, c: int)
    requires CellsOk(l, n) && l'.cells == l.cells && l'.qin == l.qin && l'.qout == l.qout
    requires c in l.stage && l.stage[c] != Queued && c in l'.stage && l'.stage[c] != Queued
    requires l'.stage == l.stage[c := l'.stage[c]]
    ensures CellsOk(l', n)
  {
    forall i: nat | i < l'.qin ensures CellOk(l', i) {
      assert CellOk(l, i);
    }
  }

  /** The clerk's request has a finish semaphore, and it is at zero. */
  lemma FinishReady(w: World, k: int)
    requires IdsInv(w.ids, w.customers) && LineInv(w.line, w.ids.who, w.clerks, w.customers, w.agency)
    requires k in w.clerks && Working(w.clerks[k])
    ensures var c := w.clerks[k].cust;
            && c in w.line.stage && w.line.stage[c] == Serving(k) && c in w.line.finished && w.line.finished[c] == 0
            && RequestOk(w.line, w.ids.who, w.clerks, w.customers, c)
  {
    hide Where, CellsOk, LineOwned, CountsOk, PhaseOk;
    var c := w.clerks[k].cust;
    ClerkFacts(w, k);
    assert RequestOk(w.line, w.ids.who, w.clerks, w.customers, c);
    IdInRange(w, c);
  }

  lemma IdInRange(w: World, c: int)
    requires IdsInv(w.ids, w.customers) && c in w.ids.who
    ensures 0 <= c < |w.customers|
  {
    assert IdTaken(w.ids, w.customers, c);
    WhereAtMost(w.customers, Counted);
    var p := w.ids.who[c];
    assert p in w.customers && (w.customers[p].pc == IdCount ==> !Counted(w.customers[p]));
  }

  lemma FinishShape(w: World, k: int)
    requires k in w.clerks && w.clerks[k].pc == FinishSignal && w.clerks[k].cust in w.line.finished
    ensures var l, c := w.line, w.clerks[k];
            ClerkStep(w, k) == Next(w.(clerks := w.clerks[k := c.(pc := ClerkSignal)],
                                       line := l.(finished := l.finished[c.cust := l.finished[c.cust] + 1],
                                                  stage := l.stage[c.cust := Served])))
  {
  }

  lemma LineFinish(w: World, k: int)
    requires IdsInv(w.ids, w.customers) && LineInv(w.line, w.ids.who, w.clerks, w.customers, w.agency)
    requires k in w.clerks && w.clerks[k].pc == FinishSignal
    ensures ClerkStep(w, k).Next?
    ensures var w' := ClerkStep(w, k).w;
            LineInv(w'.line, w'.ids.who, w'.clerks, w'.customers, w'.agency)
  {
    hide Where, CellsOk, LineOwned, Requests, Local, IdsInv, ClerkStep;
    FinishReady(w, k);
    FinishShape(w, k);
    var l, c := w.line, w.clerks[k];
    var l' := l.(finished := l.finished[c.cust := l.finished[c.cust] + 1], stage := l.stage[c.cust := Served]);
    WhereMoves(w.clerks, k, c.(pc := ClerkSignal), InFlight);
    SameSide(l, l', |w.customers|, c.cust);
    OwnedByClerk(l, w.clerks, w.customers, k, c.(pc := ClerkSignal), l');
    FinishRequests(w, k, l');
    FinishLocal(w, k, l');
  }

  lemma FinishRequests(w: World, k: int, l: Line)
    requires LineInv(w.line, w.ids.who, w.clerks, w.customers, w.agency) && k in w.clerks && w.clerks[k].pc == FinishSignal
    requires w.clerks[k].cust in w.line.stage && w.line.stage[w.clerks[k].cust] == Serving(k)
    requires l.stage == w.line.stage[w.clerks[k].cust := Served]
    ensures Requests(l, w.ids.who, w.clerks[k := w.clerks[k].(pc := ClerkSignal)], w.customers)
  {
  }

  lemma FinishLocal(w: World, k: int, l: Line)
    requires LineInv(w.line, w.ids.who, w.clerks, w.customers, w.agency) && k in w.clerks && w.clerks[k].pc == FinishSignal
    requires w.clerks[k].cust in w.line.stage && w.line.stage[w.clerks[k].cust] == Serving(k)
    requires l == w.line.(finished := l.finished, stage := w.line.stage[w.clerks[k].cust := Served])
    ensures Local(l, w.clerks[k := w.clerks[k].(pc := ClerkSignal)], w.customers, Awake(w.agency))
  {
  }

  // Customer steps --------------------------------------------------------------

  lemma OwnedByCustomer(l: Line, clerks: map<int, Clerk>, customers: map<int, Customer>, p: int, c: Customer, l': Line)
    requires LineOwned(l, clerks, customers) && p in customers
    requires || (l.cs > 0 && CustomerInLine(c) && l'.cs == l.cs - 1 && l'.owner == Some(CustomerProc(p)))
             || (CustomerInLine(customers[p]) && !CustomerInLine(c) && l'.cs == l.cs + 1 && l'.owner == None)
             || (CustomerInLine(customers[p]) == CustomerInLine(c) && l'.cs == l.cs && l'.owner == l.owner)
    ensures LineOwned(l', clerks, customers[p := c])
  {
  }

  lemma CustomerFacts(w: World, p: int)
    requires LineInv(w.line, w.ids.who, w.clerks, w.customers, w.agency) && p in w.customers
    ensures CustomerLine(w.line, w.customers[p]) && LineOwned(w.line, w.clerks, w.customers)
    ensures CustomerInLine(w.customers[p]) <==> w.line.owner == Some(CustomerProc(p))
    ensures !IsDone(w.customers[p]) ==> w.agency.Collect?
  {
  }

  lemma RequestsMoved(l: Line, who: map<int, int>, who': map<int, int>, clerks: map<int, Clerk>, p: int, c: Customer,
                      customers: map<int, Customer>)
    requires Requests(l, who, clerks, customers) && p in customers && forall x | x in l.stage :: x in who' && (x in who ==> who'[x] == who[x])
    requires c.id == customers[p].id || customers[p].id !in l.stage || !Enqueued(customers[p])
    requires Enqueued(c) == Enqueued(customers[p]) && (Enqueued(c) ==> Told(c) == Told(customers[p]))
    ensures Requests(l, who', clerks, customers[p := c])
  {
  }

  lemma LocalMoved(l: Line, l': Line, clerks: map<int, Clerk>, p: int, c: Customer, customers: map<int, Customer>, awake: bool)
    requires Local(l, clerks, customers, awake) && p in customers && CustomerLine(l', c)
    requires SameRequests(l, l')
    ensures Local(l', clerks, customers[p := c], awake)
  {
  }

  /** A customer step that leaves the requests as they are. */
  lemma LineCustomer(w: World, l: Line, who: map<int, int>, p: int, c: Customer)
    requires LineInv(w.line, w.ids.who, w.clerks, w.customers, w.agency) && p in w.customers && !IsDone(w.customers[p])
    requires SameRequests(w.line, l) && LineOwned(l, w.clerks, w.customers[p := c]) && CustomerLine(l, c)
    requires Enqueued(c) == Enqueued(w.customers[p]) && (Enqueued(c) ==> Told(c) == Told(w.customers[p]))
    requires Enqueued(c) ==> c.id == w.customers[p].id
    requires forall x | x in l.stage :: x in who && (x in w.ids.who ==> who[x] == w.ids.who[x])
    requires l.ready + (if Signalling(c) then 1 else 0) == w.line.ready + (if Signalling(w.customers[p]) then 1 else 0)
    requires l.term == w.line.term + (if IsDone(c) then 1 else 0)
    ensures LineInv(l, who, w.clerks, w.customers[p := c], w.agency)
  {
    hide Where, LineOwned, Requests, Local, CellsOk, Enqueued, Signalling, IsDone, CustomerLine, Told;
    CustomerFacts(w, p);
    WhereMoves(w.customers, p, c, Enqueued);
    WhereMoves(w.customers, p, c, Signalling);
    WhereMoves(w.customers, p, c, IsDone);
    assert |w.customers[p := c]| == |w.customers| by { SameSize(w.customers, p, c); }
    RequestsMoved(w.line, w.ids.who, who, w.clerks, p, c, w.customers);
    StageOnly(w.line, l, who, w.clerks, w.customers[p := c]);
    LocalMoved(w.line, l, w.clerks, p, c, w.customers, Awake(w.agency));
    SameCells(w.line, l, |w.customers|);
  }

  lemma StageOnly(l: Line, l': Line, who: map<int, int>, clerks: map<int, Clerk>, customers: map<int, Customer>)
    requires Requests(l, who, clerks, customers) && l'.stage == l.stage
    ensures Requests(l', who, clerks, customers)
  {
  }

  lemma SameSize<T>(m: map<int, T>, k: int, v: T)
    requires k in m
    ensures |m[k := v]| == |m|
  {
  }

  predicate Special(c: Customer) {
    c.pc == IdRead || c.pc == LineWrite || c.pc == LineCount || c.pc == FinishWait
  }

  /** What the other customer steps do to the line: at most its semaphores change. */
  ghost predicate Quiet(w: World, w': World, p: int) {
    && p in w.customers && p in w'.customers && w'.customers == w.customers[p := w'.customers[p]]
    && w'.clerks == w.clerks && w'.agency == w.agency && w'.ids.who == w.ids.who && SameRequests(w.line, w'.line)
    && var o, c, l, l' := w.customers[p], w'.customers[p], w.line, w'.line;
    && !IsDone(o) && c.id == o.id && HasId(c) == HasId(o) && c.pc != LineCount && c.pc == After(o.pc)
    && Enqueued(c) == Enqueued(o) && (Enqueued(c) ==> Told(c) == Told(o))
    && l'.ready + (if Signalling(c) then 1 else 0) == l.ready + (if Signalling(o) then 1 else 0)
    && l'.term == l.term + (if IsDone(c) then 1 else 0)
    && (|| (l.cs > 0 && CustomerInLine(c) && l'.cs == l.cs - 1 && l'.owner == Some(CustomerProc(p)))
        || (CustomerInLine(o) && !CustomerInLine(c) && l'.cs == l.cs + 1 && l'.owner == None)
        || (CustomerInLine(o) == CustomerInLine(c) && l'.cs == l.cs && l'.owner == l.owner))
  }

  /** A customer goes from place to place without branching. */
  function After(pc: CustomerPc): CustomerPc {
    match pc
    case IdWait => IdRead
    case IdRead => IdCount
    case IdCount => Choose
    case Choose => IdSignal
    case IdSignal => CapacityWait
    case CapacityWait => ClerkWait
    case ClerkWait => InfoBooked
    case InfoBooked => InfoType
    case InfoType => LineWait
    case LineWait => LineWrite
    case LineWrite => LineCount
    case LineCount => LineSignal
    case LineSignal => ReadySignal
    case ReadySignal => FinishWait
    case FinishWait => CapacitySignal
    case CapacitySignal => TermSignal
    case TermSignal => Done
    case Done => Done
  }

  lemma ShapeIds(w: World, p: int, ty: int)
    requires p in w.customers && CustomerStep(w, p, ty).Next?
    requires var pc := w.customers[p].pc; pc == IdWait || pc == IdCount || pc == Choose || pc == IdSignal
    ensures var w', c := CustomerStep(w, p, ty).w, w.customers[p].(pc := After(w.customers[p].pc));
            && (exists t :: w'.customers == w.customers[p := c.(ty := t)])
            && w'.clerks == w.clerks && w'.agency == w.agency && w'.ids.who == w.ids.who && w'.line == w.line
  {
  }

  lemma QuietIds(w: World, p: int, ty: int)
    requires p in w.customers && CustomerStep(w, p, ty).Next?
    requires var pc := w.customers[p].pc; pc == IdWait || pc == IdCount || pc == Choose || pc == IdSignal
    ensures Quiet(w, CustomerStep(w, p, ty).w, p)
  {
    hide CustomerStep;
    ShapeIds(w, p, ty);
  }

  lemma ShapeInfo(w: World, p: int, ty: int)
    requires p in w.customers && CustomerStep(w, p, ty).Next?
    requires var pc := w.customers[p].pc; pc == CapacityWait || pc == ClerkWait || pc == InfoBooked || pc == InfoType
    ensures var w' := CustomerStep(w, p, ty).w;
            && w'.customers == w.customers[p := w.customers[p].(pc := After(w.customers[p].pc))]
            && w'.clerks == w.clerks && w'.agency == w.agency && w'.ids == w.ids && w'.line == w.line
  {
  }

  lemma QuietInfo(w: World, p: int, ty: int)
    requires p in w.customers && CustomerStep(w, p, ty).Next?
    requires var pc := w.customers[p].pc; pc == CapacityWait || pc == ClerkWait || pc == InfoBooked || pc == InfoType
    ensures Quiet(w, CustomerStep(w, p, ty).w, p)
  {
    hide CustomerStep;
    ShapeInfo(w, p, ty);
  }

  lemma ShapeLine(w: World, p: int, ty: int)
    requires p in w.customers && CustomerStep(w, p, ty).Next?
    requires var pc := w.customers[p].pc; pc == LineWait || pc == LineSignal || pc == ReadySignal
    ensures var w', l, pc := CustomerStep(w, p, ty).w, w.line, w.customers[p].pc;
            && w'.customers == w.customers[p := w.customers[p].(pc := After(pc))]
            && w'.clerks == w.clerks && w'.agency == w.agency && w'.ids == w.ids
            && w'.line == (if pc == LineWait then l.(cs := w'.line.cs, owner := Some(CustomerProc(p)))
                           else if pc == LineSignal then l.(cs := l.cs + 1, owner := None)
                           else l.(ready := l.ready + 1))
            && (pc == LineWait ==> l.cs > 0 && w'.line.cs == l.cs - 1)
  {
  }

  lemma QuietLine(w: World, p: int, ty: int)
    requires p in w.customers && CustomerStep(w, p, ty).Next?
    requires var pc := w.customers[p].pc; pc == LineWait || pc == LineSignal || pc == ReadySignal
    ensures Quiet(w, CustomerStep(w, p, ty).w, p)
  {
    hide CustomerStep;
    ShapeLine(w, p, ty);
  }

  lemma ShapeExit(w: World, p: int, ty: int)
    requires p in w.customers && CustomerStep(w, p, ty).Next?
    requires var pc := w.customers[p].pc; pc == CapacitySignal || pc == TermSignal
    ensures var w', l, pc := CustomerStep(w, p, ty).w, w.line, w.customers[p].pc;
            && w'.customers == w.customers[p := w.customers[p].(pc := After(pc))]
            && w'.clerks == w.clerks && w'.agency == w.agency && w'.ids == w.ids
            && w'.line == if pc == TermSignal then l.(term := l.term + 1) else l
  {
  }

  lemma QuietExit(w: World, p: int, ty: int)
    requires p in w.customers && CustomerStep(w, p, ty).Next?
    requires var pc := w.customers[p].pc; pc == CapacitySignal || pc == TermSignal
    ensures Quiet(w, CustomerStep(w, p, ty).w, p)
  {
    hide CustomerStep;
    ShapeExit(w, p, ty);
  }

  lemma QuietEffect(w: World, p: int, ty: int)
    requires p in w.customers && CustomerStep(w, p, ty).Next? && !Special(w.customers[p])
    ensures Quiet(w, CustomerStep(w, p, ty).w, p)
  {
    hide Quiet;
    match w.customers[p].pc
    case IdWait | IdCount | Choose | IdSignal => QuietIds(w, p, ty);
    case CapacityWait | ClerkWait | InfoBooked | InfoType => QuietInfo(w, p, ty);
    case LineWait | LineSignal | ReadySignal => QuietLine(w, p, ty);
    case CapacitySignal | TermSignal => QuietExit(w, p, ty);
    case Done =>
  }

  lemma LineQuietStep(w: World, p: int, ty: int)
    requires LineInv(w.line, w.ids.who, w.clerks, w.customers, w.agency)
    requires p in w.customers && CustomerStep(w, p, ty).Next? && !Special(w.customers[p])
    ensures var w' := CustomerStep(w, p, ty).w;
            LineInv(w'.line, w'.ids.who, w'.clerks, w'.customers, w'.agency)
  {
    hide LineInv, LineOwned, CustomerStep, Special, CustomerInLine, Signalling, Enqueued, Told, IsDone, HasId;
    CustomerFacts(w, p);
    WhoKnows(w);
    QuietEffect(w, p, ty);
    var w' := CustomerStep(w, p, ty).w;
    OwnedByCustomer(w.line, w.clerks, w.customers, p, w'.customers[p], w'.line);
    LineCustomer(w, w'.line, w'.ids.who, p, w'.customers[p]);
  }

  lemma WhoKnows(w: World)
    requires LineInv(w.line, w.ids.who, w.clerks, w.customers, w.agency)
    ensures forall x | x in w.line.stage :: x in w.ids.who
  {
  }

  /** A new id names no request. */
  lemma LineIdRead(w: World, p: int, ty: int)
    requires IdsInv(w.ids, w.customers) && LineInv(w.line, w.ids.who, w.clerks, w.customers, w.agency)
    requires p in w.customers && w.customers[p].pc == IdRead
    ensures var w' := CustomerStep(w, p, ty).w;
            LineInv(w'.line, w'.ids.who, w'.clerks, w'.customers, w'.agency)
  {
    hide LineInv, LineOwned, IdsInv;
    CustomerFacts(w, p);
    WhoKnows(w);
    FreshId(w, p);
    var w' := CustomerStep(w, p, ty).w;
    assert w'.customers == w.customers[p := w'.customers[p]];
    OwnedByCustomer(w.line, w.clerks, w.customers, p, w'.customers[p], w'.line);
    LineCustomer(w, w'.line, w'.ids.who, p, w'.customers[p]);
  }

  lemma FreshId(w: World, p: int)
    requires IdsInv(w.ids, w.customers) && p in w.customers && w.customers[p].pc == IdRead
    ensures w.ids.counter !in w.ids.who
  {
    hide Where;
    forall x | x in w.ids.who ensures x != w.ids.counter {
      assert IdTaken(w.ids, w.customers, x);
      var q := w.ids.who[x];
      assert q in w.customers;
    }
  }

  /** There is room in the line for every customer that is not in it. */
  lemma LineHasRoom(w: World, p: int)
    requires LineInv(w.line, w.ids.who, w.clerks, w.customers, w.agency) && p in w.customers && !Enqueued(w.customers[p])
    ensures w.line.qin < |w.customers| == |w.line.cells| - 1
  {
    hide LineOwned, Requests, Local, FinishedOk, PhaseOk;
    WhereAtMost(w.customers, Enqueued);
  }

  lemma WriteCells(l: Line, n: nat, id: int)
    requires CellsOk(l, n) && l.qin < n
    ensures CellsOk(l.(cells := l.cells[l.qin := id]), n)
  {
    var l' := l.(cells := l.cells[l.qin := id]);
    forall i: nat | i < l'.qin ensures CellOk(l', i) {
      assert CellOk(l, i);
    }
  }

  lemma LineWriteStep(w: World, p: int, ty: int)
    requires LineInv(w.line, w.ids.who, w.clerks, w.customers, w.agency)
    requires p in w.customers && w.customers[p].pc == LineWrite
    ensures CustomerStep(w, p, ty).Next?
    ensures var w' := CustomerStep(w, p, ty).w;
            LineInv(w'.line, w'.ids.who, w'.clerks, w'.customers, w'.agency)
  {
    hide Where, LineOwned, Requests, Local, CellsOk, Enqueued, Signalling, IsDone, Told;
    var l, c := w.line, w.customers[p].(pc := LineCount);
    CustomerFacts(w, p);
    NotDone(w, p);
    LineHasRoom(w, p);
    var l' := l.(cells := l.cells[l.qin := c.id]);
    assert CustomerStep(w, p, ty) == Next(w.(customers := w.customers[p := c], line := l'));
    WhereMoves(w.customers, p, c, Enqueued);
    WhereMoves(w.customers, p, c, Signalling);
    WhereMoves(w.customers, p, c, IsDone);
    SameSize(w.customers, p, c);
    OwnedByCustomer(l, w.clerks, w.customers, p, c, l');
    WriteRest(w, p, l');
    WriteCells(l, |w.customers|, c.id);
    NotDoneAfter(c);
  }

  lemma NotDone(w: World, p: int)
    requires p in w.customers && w.customers[p].pc == LineWrite
    ensures !IsDone(w.customers[p]) && !Enqueued(w.customers[p]) && !Signalling(w.customers[p])
  {
  }

  lemma NotDoneAfter(c: Customer)
    requires c.pc == LineCount
    ensures !IsDone(c) && !Enqueued(c) && !Signalling(c)
  {
  }

  lemma WriteRest(w: World, p: int, l: Line)
    requires LineInv(w.line, w.ids.who, w.clerks, w.customers, w.agency)
    requires p in w.customers && w.customers[p].pc == LineWrite && w.line.qin < |w.line.cells|
    requires l == w.line.(cells := w.line.cells[w.line.qin := w.customers[p].id])
    ensures var c := w.customers[p].(pc := LineCount);
            Requests(l, w.ids.who, w.clerks, w.customers[p := c]) && Local(l, w.clerks, w.customers[p := c], Awake(w.agency))
  {
    hide Where, CellsOk, CountsOk, PhaseOk, FinishedOk;
    var c := w.customers[p].(pc := LineCount);
    forall x | x in l.stage ensures RequestOk(l, w.ids.who, w.clerks, w.customers[p := c], x) {
      assert RequestOk(w.line, w.ids.who, w.clerks, w.customers, x);
    }
    forall k | k in w.clerks ensures ClerkLine(l, k, w.clerks[k], Awake(w.agency)) {
      ClerkFacts(w, k);
    }
    forall q | q in w.customers ensures CustomerLine(l, w.customers[p := c][q]) {
      CustomerFacts(w, q);
      CustomerFacts(w, p);
    }
  }

  lemma CountCells(l: Line, n: nat, id: int)
    requires CellsOk(l, n) && l.qin < n && id !in l.stage && l.cells[l.qin] == id
    ensures CellsOk(l.(qin := l.qin + 1, stage := l.stage[id := Queued]), n)
  {
    var l' := l.(qin := l.qin + 1, stage := l.stage[id := Queued]);
    forall i: nat | i < l'.qin ensures CellOk(l', i) {
      if i < l.qin {
        assert CellOk(l, i);
      }
    }
    forall i, j | 0 <= i < j < l'.qin ensures l'.cells[i] != l'.cells[j] {
      assert CellOk(l, i);
    }
  }

  lemma LineCountStep(w: World, p: int, ty: int)
    requires IdsInv(w.ids, w.customers) && LineInv(w.line, w.ids.who, w.clerks, w.customers, w.agency)
    requires p in w.customers && w.customers[p].pc == LineCount
    ensures var w' := CustomerStep(w, p, ty).w;
            LineInv(w'.line, w'.ids.who, w'.clerks, w'.customers, w'.agency)
  {
    hide Where, LineOwned, Requests, Local, CellsOk, IdsInv;
    var l, c := w.line, w.customers[p].(pc := LineSignal);
    CustomerFacts(w, p);
    LineHasRoom(w, p);
    var l' := l.(qin := l.qin + 1, stage := l.stage[c.id := Queued]);
    assert CustomerStep(w, p, ty) == Next(w.(customers := w.customers[p := c], line := l'));
    WhereMoves(w.customers, p, c, Enqueued);
    WhereMoves(w.customers, p, c, Signalling);
    WhereMoves(w.customers, p, c, IsDone);
    SameSize(w.customers, p, c);
    OwnedByCustomer(l, w.clerks, w.customers, p, c, l');
    CountRest(w, p, l');
    CountCells(l, |w.customers|, c.id);
  }

  lemma CountRest(w: World, p: int, l: Line)
    requires IdsInv(w.ids, w.customers) && LineInv(w.line, w.ids.who, w.clerks, w.customers, w.agency)
    requires p in w.customers && w.customers[p].pc == LineCount && w.customers[p].id !in w.line.stage
    requires l == w.line.(qin := w.line.qin + 1, stage := w.line.stage[w.customers[p].id := Queued])
    ensures var c := w.customers[p].(pc := LineSignal);
            Requests(l, w.ids.who, w.clerks, w.customers[p := c]) && Local(l, w.clerks, w.customers[p := c], Awake(w.agency))
  {
    hide Where, CellsOk, CountsOk, PhaseOk, FinishedOk, IdTaken;
    var c := w.customers[p].(pc := LineSignal);
    assert CustomerId(w.ids, p, w.customers[p]);
    forall x | x in l.stage ensures RequestOk(l, w.ids.who, w.clerks, w.customers[p := c], x) {
      assert x != c.id ==> RequestOk(w.line, w.ids.who, w.clerks, w.customers, x);
    }
    forall k | k in w.clerks ensures ClerkLine(l, k, w.clerks[k], Awake(w.agency)) {
      ClerkFacts(w, k);
      CustomerFacts(w, p);
    }
    forall q | q in w.customers ensures CustomerLine(l, w.customers[p := c][q]) {
      assert CustomerId(w.ids, q, w.customers[q]);
      CustomerFacts(w, q);
      CustomerFacts(w, p);
    }
  }

  /** A customer that waits for its finish semaphore has a request, and finds the semaphore up once it is served. */
  lemma FinishWaits(w: World, p: int)
    requires IdsInv(w.ids, w.customers) && LineInv(w.line, w.ids.who, w.clerks, w.customers, w.agency)
    requires p in w.customers && w.customers[p].pc == FinishWait
    ensures var id := w.customers[p].id;
            && id in w.line.finished && id in w.line.stage && w.line.stage[id] != Collected
            && w.line.finished[id] == (if w.line.stage[id] == Served then 1 else 0)
            && id in w.ids.who && w.ids.who[id] == p
  {
    hide Where, CellsOk, CountsOk, PhaseOk, LineOwned, IdTaken;
    assert CustomerId(w.ids, p, w.customers[p]);
    CustomerFacts(w, p);
    var id := w.customers[p].id;
    assert RequestOk(w.line, w.ids.who, w.clerks, w.customers, id);
    IdInRange(w, id);
  }

  lemma LineFinishWait(w: World, p: int, ty: int)
    requires IdsInv(w.ids, w.customers) && LineInv(w.line, w.ids.who, w.clerks, w.customers, w.agency)
    requires p in w.customers && w.customers[p].pc == FinishWait && CustomerStep(w, p, ty).Next?
    ensures var w' := CustomerStep(w, p, ty).w;
            LineInv(w'.line, w'.ids.who, w'.clerks, w'.customers, w'.agency)
  {
    hide Where, LineOwned, Requests, Local, CellsOk, IdsInv;
    var l, c := w.line, w.customers[p].(pc := CapacitySignal);
    CustomerFacts(w, p);
    FinishWaits(w, p);
    var l' := l.(finished := l.finished[c.id := 0], stage := l.stage[c.id := Collected]);
    assert CustomerStep(w, p, ty) == Next(w.(customers := w.customers[p := c], line := l'));
    WhereMoves(w.customers, p, c, Enqueued);
    WhereMoves(w.customers, p, c, Signalling);
    WhereMoves(w.customers, p, c, IsDone);
    SameSize(w.customers, p, c);
    OwnedByCustomer(l, w.clerks, w.customers, p, c, l');
    CollectRest(w, p, l');
    SameSide(l, l', |w.customers|, c.id);
  }

  lemma CollectRest(w: World, p: int, l: Line)
    requires IdsInv(w.ids, w.customers) && LineInv(w.line, w.ids.who, w.clerks, w.customers, w.agency)
    requires p in w.customers && w.customers[p].pc == FinishWait && w.customers[p].id in w.line.stage
    requires w.line.stage[w.customers[p].id] == Served && w.customers[p].id in w.ids.who && w.ids.who[w.customers[p].id] == p
    requires l == w.line.(finished := l.finished, stage := w.line.stage[w.customers[p].id := Collected])
    ensures var c := w.customers[p].(pc := CapacitySignal);
            Requests(l, w.ids.who, w.clerks, w.customers[p := c]) && Local(l, w.clerks, w.customers[p := c], Awake(w.agency))
  {
    hide Where, CellsOk, CountsOk, PhaseOk, FinishedOk, IdTaken;
    var c := w.customers[p].(pc := CapacitySignal);
    forall x | x in l.stage ensures RequestOk(l, w.ids.who, w.clerks, w.customers[p := c], x) {
      assert RequestOk(w.line, w.ids.who, w.clerks, w.customers, x);
    }
    forall k | k in w.clerks ensures ClerkLine(l, k, w.clerks[k], Awake(w.agency)) {
      ClerkFacts(w, k);
    }
    forall q | q in w.customers ensures CustomerLine(l, w.customers[p := c][q]) {
      CustomerFacts(w, q);
    }
  }

  // Clerk steps away from the line, and the agency ------------------------------

  predicate AtDesk(c: Clerk) {
    match c.pc
    case Switch | Wait1 | Wait2 | Test | Dec(_) | Flag(_) | Store(_) | Count(_) | Signal1 | Signal2 => true
    case _ => false
  }

  predicate Between(c: Clerk) {
    c.pc == Opened || c.pc == ClerkSignal || c.pc == Closing
  }

  /** At the desk a clerk keeps its request and does not touch the line. */
  lemma DeskEffect(w: World, k: int)
    requires k in w.clerks && AtDesk(w.clerks[k]) && ClerkStep(w, k).Next?
    ensures var w' := ClerkStep(w, k).w;
            && k in w'.clerks && w' == w.(clerks := w.clerks[k := w'.clerks[k]], book := w'.book)
            && w'.clerks[k].cust == w.clerks[k].cust && Working(w.clerks[k]) && Working(w'.clerks[k])
            && !ClerkInLine(w.clerks[k]) && !ClerkInLine(w'.clerks[k]) && !InFlight(w.clerks[k]) && !InFlight(w'.clerks[k])
  {
  }

  lemma LineDeskStep(w: World, k: int)
    requires LineInv(w.line, w.ids.who, w.clerks, w.customers, w.agency)
    requires k in w.clerks && AtDesk(w.clerks[k]) && ClerkStep(w, k).Next?
    ensures var w' := ClerkStep(w, k).w;
            LineInv(w'.line, w'.ids.who, w'.clerks, w'.customers, w'.agency)
  {
    hide LineInv, LineOwned, ClerkStep, AtDesk, Working, ClerkInLine, InFlight;
    DeskEffect(w, k);
    ClerkFacts(w, k);
    var w' := ClerkStep(w, k).w;
    DeskPcs(w.clerks[k], w'.clerks[k]);
    OwnedByClerk(w.line, w.clerks, w.customers, k, w'.clerks[k], w.line);
    LineClerk(w, w.line, k, w'.clerks[k]);
  }

  lemma DeskPcs(o: Clerk, c: Clerk)
    requires !InFlight(c)
    ensures c.pc != Advance && c.pc != QueueBack
  {
  }

  lemma LineBetweenStep(w: World, k: int)
    requires LineInv(w.line, w.ids.who, w.clerks, w.customers, w.agency)
    requires k in w.clerks && Between(w.clerks[k]) && ClerkStep(w, k).Next?
    ensures var w' := ClerkStep(w, k).w;
            LineInv(w'.line, w'.ids.who, w'.clerks, w'.customers, w'.agency)
  {
    hide LineInv, LineOwned;
    ClerkFacts(w, k);
    var w' := ClerkStep(w, k).w;
    assert w'.clerks == w.clerks[k := w'.clerks[k]];
    OwnedByClerk(w.line, w.clerks, w.customers, k, w'.clerks[k], w.line);
    LineClerk(w, w.line, k, w'.clerks[k]);
  }

  /** When the last customer has terminated, the line is used up. */
  lemma AllCollected(w: World)
    requires LineInv(w.line, w.ids.who, w.clerks, w.customers, w.agency) && w.agency == Collect(|w.customers|)
    ensures w.line.qout == w.line.qin == |w.customers| && forall p | p in w.customers :: IsDone(w.customers[p])
  {
    hide LineOwned, Local, FinishedOk, Where, Requests, CellsOk;
    WhereAtMost(w.customers, IsDone);
    WhereAll(w.customers, Enqueued, IsDone);
    CellsBound(w);
    if w.line.qout < w.line.qin {
      CellAt(w);
      NoneLeft(w, w.line.cells[w.line.qout]);
    }
  }

  lemma WhereAll<T>(m: map<int, T>, P: T -> bool, R: T -> bool)
    requires (forall k | k in m :: R(m[k])) && forall v | R(v) :: P(v)
    ensures |Where(m, P)| == |m|
  {
    forall k | k in m ensures P(m[k]) {
      assert R(m[k]);
    }
    assert Where(m, P) == m.Keys;
  }

  lemma NoneLeft(w: World, c: int)
    requires LineInv(w.line, w.ids.who, w.clerks, w.customers, w.agency) && c in w.line.stage
    requires forall p | p in w.customers :: IsDone(w.customers[p])
    ensures w.line.stage[c] == Collected
  {
    hide LineOwned, Local, FinishedOk, Where, CellsOk, CountsOk, PhaseOk;
    assert RequestOk(w.line, w.ids.who, w.clerks, w.customers, c);
    var p := w.ids.who[c];
    assert p in w.customers;
  }

  lemma SameLocal(l: Line, l': Line, clerks: map<int, Clerk>, customers: map<int, Customer>, a: bool, a': bool)
    requires Local(l, clerks, customers, a) && (a ==> a') && l'.stage == l.stage && l'.qin == l.qin && l'.qout == l.qout
    requires |l'.cells| == |l.cells|
    requires l'.cells == l.cells || (l.qout >= l.qin && forall p | p in customers :: IsDone(customers[p]))
    ensures Local(l', clerks, customers, a')
  {
  }

  lemma MarkCells(l: Line, n: nat)
    requires CellsOk(l, n)
    ensures CellsOk(l.(cells := l.cells[n := -1]), n)
  {
    var l' := l.(cells := l.cells[n := -1]);
    forall i: nat | i < l'.qin ensures CellOk(l', i) {
      assert CellOk(l, i);
    }
  }

  lemma LineCollectStep(w: World)
    requires LineInv(w.line, w.ids.who, w.clerks, w.customers, w.agency) && w.agency.Collect? && AgencyStep(w).Next?
    ensures var w' := AgencyStep(w).w; LineInv(w'.line, w'.ids.who, w'.clerks, w'.customers, w'.agency)
  {
    hide Where, LineOwned, Requests, Local, CellsOk, IsDone, FinishedOk;
    CellsBound(w);
    var w' := AgencyStep(w).w;
    if w.agency == Collect(|w.customers|) {
      AllCollected(w);
    }
    SameRest(w, w'.line);
  }

  lemma SameRest(w: World, l: Line)
    requires LineInv(w.line, w.ids.who, w.clerks, w.customers, w.agency) && SameRequests(w.line, l)
    requires l.cs == w.line.cs && l.owner == w.line.owner
    ensures LineOwned(l, w.clerks, w.customers) && Requests(l, w.ids.who, w.clerks, w.customers)
    ensures forall a | Awake(w.agency) ==> a :: Local(l, w.clerks, w.customers, a)
    ensures CellsOk(l, |w.customers|) && FinishedOk(l, |w.customers|)
  {
    hide LineOwned, Requests, Local, CellsOk, CountsOk, PhaseOk;
    SameOwner(w.line, l, w.clerks, w.customers);
    StageOnly(w.line, l, w.ids.who, w.clerks, w.customers);
    SameCells(w.line, l, |w.customers|);
    forall a | Awake(w.agency) ==> a ensures Local(l, w.clerks, w.customers, a) {
      SameLocal(w.line, l, w.clerks, w.customers, Awake(w.agency), a);
    }
  }

  lemma LineMarkStep(w: World)
    requires LineInv(w.line, w.ids.who, w.clerks, w.customers, w.agency) && w.agency == Mark && AgencyStep(w).Next?
    ensures var w' := AgencyStep(w).w; LineInv(w'.line, w'.ids.who, w'.clerks, w'.customers, w'.agency)
  {
    hide Where, LineOwned, Requests, Local, CellsOk, IsDone;
    CellsBound(w);
    var l := w.line.(cells := w.line.cells[|w.customers| := -1]);
    assert AgencyStep(w).w == w.(agency := Wake(0), line := l);
    SameOwner(w.line, l, w.clerks, w.customers);
    StageOnly(w.line, l, w.ids.who, w.clerks, w.customers);
    SameLocal(w.line, l, w.clerks, w.customers, Awake(w.agency), true);
    MarkCells(w.line, |w.customers|);
  }

  lemma LineCloseStep(w: World)
    requires LineInv(w.line, w.ids.who, w.clerks, w.customers, w.agency) && AgencyStep(w).Next?
    requires !w.agency.Collect? && w.agency != Mark
    ensures var w' := AgencyStep(w).w; LineInv(w'.line, w'.ids.who, w'.clerks, w'.customers, w'.agency)
  {
    hide Where, LineOwned, Requests, Local, CellsOk, IsDone, FinishedOk;
    CellsBound(w);
    SameRest(w, AgencyStep(w).w.line);
  }

  lemma LineAgencyStep(w: World)
    requires LineInv(w.line, w.ids.who, w.clerks, w.customers, w.agency)
    ensures AgencyStep(w) != Panic
    ensures AgencyStep(w).Next? ==>
              var w' := AgencyStep(w).w; LineInv(w'.line, w'.ids.who, w'.clerks, w'.customers, w'.agency)
  {
    hide LineInv;
    CellsBound(w);
    if AgencyStep(w).Next? {
      if w.agency.Collect? {
        LineCollectStep(w);
      } else if w.agency == Mark {
        LineMarkStep(w);
      } else {
        LineCloseStep(w);
      }
    }
  }

  lemma SameOwner(l: Line, l': Line, clerks: map<int, Clerk>, customers: map<int, Customer>)
    requires LineOwned(l, clerks, customers) && l'.cs == l.cs && l'.owner == l.owner
    ensures LineOwned(l', clerks, customers)
  {
  }

  // ---------------------------------------------------------------------------
  // The flights: tickets are conserved and nobody is booked twice
  // ---------------------------------------------------------------------------

  function Booked(fl: Flight): seq<int> {
    if fl.booked <= |fl.arr| then fl.arr[..fl.booked] else fl.arr
  }

  /** Inside the flight's critical section. */
  predicate Holds(c: Clerk, f: int) {
    match c.pc
    case Wait2 => f == 1 && c.ty == 3
    case Test | Dec(_) | Flag(_) | Store(_) | Count(_) => Wants(c.ty, f)
    case Signal1 => Wants(c.ty, f)
    case Signal2 => f == 2
    case _ => false
  }

  /** Between taking a ticket of the flight and entering the customer. */
  predicate Pending(c: Clerk, f: int) {
    c.pc == Flag(f) || c.pc == Store(f) || c.pc == Count(f)
  }

  ghost predicate FlightOwned(fl: Flight, f: int, clerks: map<int, Clerk>) {
    && fl.cs == (if fl.owner.None? then 1 else 0)
    && (fl.owner.Some? ==> fl.owner.value in clerks)
    && (forall k | k in clerks :: Holds(clerks[k], f) <==> fl.owner == Some(k))
  }

  /** Remaining plus booked tickets are those there were, but for one in the hands of the clerk in the section. */
  ghost predicate FlightOk(fl: Flight, f: int, clerks: map<int, Clerk>, tickets: nat) {
    && fl.counter >= 0 && fl.booked <= |fl.arr| == tickets && NoDup(Booked(fl))
    && fl.counter + fl.booked
       + (if fl.owner.Some? && fl.owner.value in clerks && Pending(clerks[fl.owner.value], f) then 1 else 0) == tickets
  }

  ghost predicate HasInfo(b: Book, x: int) {
    x in b.booked && x in b.ftype && 1 <= b.ftype[x] <= 3
  }

  ghost predicate In(b: Book, f: int, x: int) {
    x in Booked(FlightOf(b, f))
  }

  /** Not booked on anything yet. */
  ghost predicate Fresh(b: Book, x: int) {
    HasInfo(b, x) && !b.booked[x] && !In(b, 1, x) && !In(b, 2, x)
  }

  /** Booked on all the flights it wants, or on none. */
  ghost predicate Settled(b: Book, x: int) {
    HasInfo(b, x) && forall f | 1 <= f <= 2 :: In(b, f, x) <==> b.booked[x] && Wants(b.ftype[x], f)
  }

  predicate PcFits(c: Clerk) {
    match c.pc
    case Wait1 => c.ty == 1 || c.ty == 3
    case Wait2 => c.ty == 2 || c.ty == 3
    case Test => 1 <= c.ty <= 3
    case Dec(f) => 1 <= c.ty <= 3 && 1 <= f <= 2 && Wants(c.ty, f)
    case Flag(f) => 1 <= c.ty <= 3 && 1 <= f <= 2 && Wants(c.ty, f)
    case Store(f) => 1 <= c.ty <= 3 && 1 <= f <= 2 && Wants(c.ty, f)
    case Count(f) => 1 <= c.ty <= 3 && 1 <= f <= 2 && Wants(c.ty, f)
    case Signal1 => c.ty == 1 || c.ty == 3
    case Signal2 => c.ty == 2 || c.ty == 3
    case _ => true
  }

  /** The second half of booking both flights. */
  predicate SecondHalf(c: Clerk, f: int) {
    c.ty == 3 && f == 2
  }

  /** What has happened to the request a clerk has in hand, at each place. */
  ghost predicate RequestAt(b: Book, c: Clerk) {
    var x := c.cust;
    match c.pc
    case QueueSignal | Switch => Fresh(b, x)
    case Wait1 | Wait2 | Test => Fresh(b, x) && b.ftype[x] == c.ty
    case Dec(f) => Half(b, c, f, SecondHalf(c, f)) && FlightOf(b, f).counter > 0 && OtherTicket(b, c, f)
    case Flag(f) => Half(b, c, f, SecondHalf(c, f)) && OtherTicket(b, c, f)
    case Store(f) => Half(b, c, f, true) && OtherTicket(b, c, f)
    case Count(f) =>
      && Half(b, c, f, true) && OtherTicket(b, c, f)
      && var fl := FlightOf(b, f); fl.booked < |fl.arr| && fl.arr[fl.booked] == x
    case Signal1 | Signal2 => Settled(b, x) && b.ftype[x] == c.ty
    case FinishSignal => Settled(b, x)
    case _ => true
  }

  /** While booking flight `f`: not on it yet, on the other one only if that was the first of two. */
  ghost predicate Half(b: Book, c: Clerk, f: int, booked: bool) {
    var x := c.cust;
    && HasInfo(b, x) && b.ftype[x] == c.ty && b.booked[x] == booked && !In(b, f, x)
    && (In(b, 3 - f, x) <==> SecondHalf(c, f))
  }

  /** A ticket of the second flight is kept for a customer who wants both. */
  predicate OtherTicket(b: Book, c: Clerk, f: int) {
    c.ty == 3 && f == 1 ==> b.f2.counter > 0
  }

  ghost predicate ClerkDesk(b: Book, c: Clerk) {
    PcFits(c) && RequestAt(b, c)
  }

  ghost predicate CustomerDesk(b: Book, c: Customer) {
    match c.pc
    case InfoType => c.id in b.booked && !b.booked[c.id]
    case LineWait | LineWrite | LineCount => HasInfo(b, c.id) && !b.booked[c.id]
    case _ => true
  }

  ghost predicate RequestDesk(b: Book, st: Stage, x: int) {
    match st
    case Queued => Fresh(b, x)
    case Serving(_) => true
    case Served => Settled(b, x)
    case Collected => Settled(b, x)
  }

  ghost predicate Members(b: Book, stage: map<int, Stage>) {
    forall f, x | 1 <= f <= 2 && In(b, f, x) :: x in stage && stage[x] != Queued
  }

  ghost predicate FlightsOk(b: Book, clerks: map<int, Clerk>, t1: nat, t2: nat) {
    && FlightOwned(b.f1, 1, clerks) && FlightOwned(b.f2, 2, clerks)
    && FlightOk(b.f1, 1, clerks, t1) && FlightOk(b.f2, 2, clerks, t2)
  }

  ghost predicate BookInv(b: Book, stage: map<int, Stage>, clerks: map<int, Clerk>, customers: map<int, Customer>,
                          t1: nat, t2: nat) {
    && FlightsOk(b, clerks, t1, t2) && Members(b, stage)
    && (forall k | k in clerks :: ClerkDesk(b, clerks[k]))
    && (forall p | p in customers :: CustomerDesk(b, customers[p]))
    && (forall x | x in stage :: RequestDesk(b, stage[x], x))
  }

  // What stays the same ----------------------------------------------------------

  ghost predicate SameSeats(fl: Flight, fl': Flight) {
    fl'.counter == fl.counter && fl'.booked == fl.booked && fl'.arr == fl.arr
  }

  /** For everybody but customer `x` the book says the same. */
  ghost predicate Agree(b: Book, b': Book, x: int) {
    && (forall y | y != x :: (y in b'.ftype <==> y in b.ftype) && (y in b.ftype ==> b'.ftype[y] == b.ftype[y]))
    && (forall y | y != x :: (y in b'.booked <==> y in b.booked) && (y in b.booked ==> b'.booked[y] == b.booked[y]))
    && (forall f, y | 1 <= f <= 2 && y != x :: In(b', f, y) <==> In(b, f, y))
  }

  /** A clerk with another customer in hand does not notice. */
  lemma OtherClerk(b: Book, b': Book, c: Clerk, x: int)
    requires ClerkDesk(b, c) && Agree(b, b', x) && (Working(c) ==> c.cust != x)
    requires forall f | 1 <= f <= 2 && Holds(c, f) :: SameSeats(FlightOf(b, f), FlightOf(b', f))
    ensures ClerkDesk(b', c)
  {
    hide In;
    assert Holds(c, 1) ==> SameSeats(FlightOf(b, 1), FlightOf(b', 1));
    assert Holds(c, 2) ==> SameSeats(FlightOf(b, 2), FlightOf(b', 2));
  }

  lemma OtherRequest(b: Book, b': Book, st: Stage, y: int, x: int)
    requires RequestDesk(b, st, y) && Agree(b, b', x) && y != x
    ensures RequestDesk(b', st, y)
  {
  }

  lemma OtherCustomer(b: Book, b': Book, c: Customer, x: int)
    requires CustomerDesk(b, c) && Agree(b, b', x) && (c.pc in {InfoType, LineWait, LineWrite, LineCount} ==> c.id != x)
    ensures CustomerDesk(b', c)
  {
  }

  /** The book as a clerk `k` finds it, with its customer in hand. */
  ghost predicate DeskReady(w: World, k: int, t1: nat, t2: nat) {
    && IdsInv(w.ids, w.customers) && LineInv(w.line, w.ids.who, w.clerks, w.customers, w.agency)
    && BookInv(w.book, w.line.stage, w.clerks, w.customers, t1, t2)
    && k in w.clerks && Working(w.clerks[k])
  }

  /** The customer in hand is nobody else's. */
  lemma MineAlone(w: World, k: int)
    requires LineInv(w.line, w.ids.who, w.clerks, w.customers, w.agency) && k in w.clerks && Working(w.clerks[k])
    ensures var x := w.clerks[k].cust;
            && x in w.line.stage && w.line.stage[x] == Serving(k)
            && (forall j | j in w.clerks && j != k && Working(w.clerks[j]) :: w.clerks[j].cust != x)
            && (forall p | p in w.customers && w.customers[p].pc in {InfoType, LineWait, LineWrite, LineCount} ::
                  w.customers[p].id != x)
  {
    hide Where, LineOwned, Requests, CellsOk, FinishedOk, CountsOk, PhaseOk;
    ClerkFacts(w, k);
    forall j | j in w.clerks && j != k && Working(w.clerks[j]) ensures w.clerks[j].cust != w.clerks[k].cust {
      ClerkFacts(w, j);
    }
    forall p | p in w.customers && w.customers[p].pc in {InfoType, LineWait, LineWrite, LineCount}
      ensures w.customers[p].id != w.clerks[k].cust {
      assert CustomerLine(w.line, w.customers[p]);
    }
  }

  /** A change of the book that concerns only the customer in the hands of clerk `k`, and only flights `k` holds. */
  lemma DeskKeeps(w: World, k: int, b: Book, c: Clerk, t1: nat, t2: nat)
    requires DeskReady(w, k, t1, t2) && Agree(w.book, b, w.clerks[k].cust)
    requires c.cust == w.clerks[k].cust && ClerkDesk(b, c) && FlightsOk(b, w.clerks[k := c], t1, t2)
    requires forall f, j | 1 <= f <= 2 && j in w.clerks && j != k && Holds(w.clerks[j], f) ::
               SameSeats(FlightOf(w.book, f), FlightOf(b, f))
    ensures BookInv(b, w.line.stage, w.clerks[k := c], w.customers, t1, t2)
  {
    hide LineInv, IdsInv, FlightsOk, ClerkDesk, CustomerDesk, RequestDesk, In, Holds, SameSeats, Working;
    MineAlone(w, k);
    var x := w.clerks[k].cust;
    forall j | j in w.clerks ensures ClerkDesk(b, w.clerks[k := c][j]) {
      if j != k {
        assert ClerkDesk(w.book, w.clerks[j]);
        OtherClerk(w.book, b, w.clerks[j], x);
      }
    }
    forall p | p in w.customers ensures CustomerDesk(b, w.customers[p]) {
      assert CustomerDesk(w.book, w.customers[p]);
      OtherCustomer(w.book, b, w.customers[p], x);
    }
    forall y | y in w.line.stage ensures RequestDesk(b, w.line.stage[y], y) {
      assert RequestDesk(w.book, w.line.stage[y], y);
      if y == x {
        ServingOk(b, k, x);
      } else {
        OtherRequest(w.book, b, w.line.stage[y], y, x);
      }
    }
  }

  lemma ServingOk(b: Book, k: int, x: int)
    ensures RequestDesk(b, Serving(k), x)
  {
  }

  // Steps at the desk --------------------------------------------------------------

  function Tickets(f: int, t1: nat, t2: nat): nat {
    if f == 1 then t1 else t2
  }

  /** A flight whose section the clerk neither enters nor leaves nor works in. */
  lemma FlightKept(fl: Flight, f: int, clerks: map<int, Clerk>, k: int, c: Clerk, t: nat)
    requires FlightOwned(fl, f, clerks) && FlightOk(fl, f, clerks, t) && k in clerks
    requires Holds(c, f) == Holds(clerks[k], f) && Pending(c, f) == Pending(clerks[k], f)
    ensures FlightOwned(fl, f, clerks[k := c]) && FlightOk(fl, f, clerks[k := c], t)
  {
  }

  lemma DeskFacts(w: World, k: int, t1: nat, t2: nat)
    requires DeskReady(w, k, t1, t2)
    ensures k in w.clerks && ClerkDesk(w.book, w.clerks[k]) && FlightsOk(w.book, w.clerks, t1, t2)
  {
    hide IdsInv, LineInv, FlightsOk, ClerkDesk, CustomerDesk, RequestDesk, Members;
  }

  lemma SameAgree(b: Book, b': Book, x: int)
    requires b'.ftype == b.ftype && b'.booked == b.booked && SameSeats(b.f1, b'.f1) && SameSeats(b.f2, b'.f2)
    ensures Agree(b, b', x)
    ensures forall f, y :: In(b', f, y) <==> In(b, f, y)
  {
  }

  lemma SameRequestAt(b: Book, b': Book, c: Clerk)
    requires RequestAt(b, c) && b'.ftype == b.ftype && b'.booked == b.booked && SameSeats(b.f1, b'.f1) && SameSeats(b.f2, b'.f2)
    ensures RequestAt(b', c)
  {
    hide In;
    SameAgree(b, b', c.cust);
  }

  /** Reading the flight type: it is one of the three. */
  lemma BookSwitch(w: World, k: int, t1: nat, t2: nat)
    requires DeskReady(w, k, t1, t2) && w.clerks[k].pc == Switch
    ensures ClerkStep(w, k).Next?
    ensures var w' := ClerkStep(w, k).w; BookInv(w'.book, w'.line.stage, w'.clerks, w'.customers, t1, t2)
  {
    hide IdsInv, LineInv, BookInv, In;
    var b, o := w.book, w.clerks[k];
    DeskFacts(w, k, t1, t2);
    var ty := b.ftype[o.cust];
    var c := o.(pc := if ty == 2 then Wait2 else Wait1, ty := ty);
    assert ClerkStep(w, k) == Next(w.(clerks := w.clerks[k := c]));
    FlightKept(b.f1, 1, w.clerks, k, c, t1);
    FlightKept(b.f2, 2, w.clerks, k, c, t2);
    SameAgree(b, b, o.cust);
    DeskKeeps(w, k, b, c, t1, t2);
  }

  /** Taking and giving back the section of a flight. */
  lemma LockFlight(fl: Flight, f: int, clerks: map<int, Clerk>, k: int, c: Clerk, t: nat)
    requires FlightOwned(fl, f, clerks) && FlightOk(fl, f, clerks, t) && k in clerks
    requires fl.cs > 0 && Holds(c, f) && !Pending(c, f)
    ensures var fl' := fl.(cs := fl.cs - 1, owner := Some(k));
            FlightOwned(fl', f, clerks[k := c]) && FlightOk(fl', f, clerks[k := c], t) && SameSeats(fl, fl')
  {
  }

  lemma UnlockFlight(fl: Flight, f: int, clerks: map<int, Clerk>, k: int, c: Clerk, t: nat)
    requires FlightOwned(fl, f, clerks) && FlightOk(fl, f, clerks, t) && k in clerks
    requires Holds(clerks[k], f) && !Pending(clerks[k], f) && !Holds(c, f)
    ensures var fl' := fl.(cs := fl.cs + 1, owner := None);
            FlightOwned(fl', f, clerks[k := c]) && FlightOk(fl', f, clerks[k := c], t) && SameSeats(fl, fl')
  {
  }

  /** A step of a clerk that only locks or unlocks flights. */
  lemma LockKeeps(w: World, k: int, b: Book, c: Clerk, t1: nat, t2: nat)
    requires DeskReady(w, k, t1, t2) && FlightsOk(b, w.clerks[k := c], t1, t2) && c.cust == w.clerks[k].cust
    requires b.ftype == w.book.ftype && b.booked == w.book.booked && SameSeats(w.book.f1, b.f1) && SameSeats(w.book.f2, b.f2)
    requires PcFits(c) && RequestAt(w.book, c)
    ensures BookInv(b, w.line.stage, w.clerks[k := c], w.customers, t1, t2)
  {
    hide DeskReady, FlightsOk, BookInv, RequestAt, In, Holds, Agree;
    SameAgree(w.book, b, c.cust);
    SameRequestAt(w.book, b, c);
    DeskKeeps(w, k, b, c, t1, t2);
  }

  lemma BookWait(w: World, k: int, t1: nat, t2: nat)
    requires DeskReady(w, k, t1, t2) && (w.clerks[k].pc == Wait1 || w.clerks[k].pc == Wait2) && ClerkStep(w, k).Next?
    ensures var w' := ClerkStep(w, k).w; BookInv(w'.book, w'.line.stage, w'.clerks, w'.customers, t1, t2)
  {
    hide DeskReady, BookInv, In, FlightOwned, FlightOk, Agree;
    DeskFacts(w, k, t1, t2);
    var b, o := w.book, w.clerks[k];
    if o.pc == Wait1 {
      var c := o.(pc := if o.ty == 3 then Wait2 else Test);
      LockFlight(b.f1, 1, w.clerks, k, c, t1);
      FlightKept(b.f2, 2, w.clerks, k, c, t2);
      LockKeeps(w, k, b.(f1 := b.f1.(cs := b.f1.cs - 1, owner := Some(k))), c, t1, t2);
    } else {
      var c := o.(pc := Test);
      LockFlight(b.f2, 2, w.clerks, k, c, t2);
      FlightKept(b.f1, 1, w.clerks, k, c, t1);
      LockKeeps(w, k, b.(f2 := b.f2.(cs := b.f2.cs - 1, owner := Some(k))), c, t1, t2);
    }
  }

  lemma BookSignal(w: World, k: int, t1: nat, t2: nat)
    requires DeskReady(w, k, t1, t2) && (w.clerks[k].pc == Signal1 || w.clerks[k].pc == Signal2)
    ensures ClerkStep(w, k).Next?
    ensures var w' := ClerkStep(w, k).w; BookInv(w'.book, w'.line.stage, w'.clerks, w'.customers, t1, t2)
  {
    hide DeskReady, BookInv, In, FlightOwned, FlightOk, Agree;
    DeskFacts(w, k, t1, t2);
    var b, o := w.book, w.clerks[k];
    if o.pc == Signal1 {
      var c := o.(pc := if o.ty == 3 then Signal2 else FinishSignal);
      UnlockFlight(b.f1, 1, w.clerks, k, c, t1);
      FlightKept(b.f2, 2, w.clerks, k, c, t2);
      LockKeeps(w, k, b.(f1 := b.f1.(cs := b.f1.cs + 1, owner := None)), c, t1, t2);
    } else {
      var c := o.(pc := FinishSignal);
      UnlockFlight(b.f2, 2, w.clerks, k, c, t2);
      FlightKept(b.f1, 1, w.clerks, k, c, t1);
      LockKeeps(w, k, b.(f2 := b.f2.(cs := b.f2.cs + 1, owner := None)), c, t1, t2);
    }
  }

  // Booking ------------------------------------------------------------------------

  lemma SetFlightOf(b: Book, f: int, fl: Flight)
    requires 1 <= f <= 2
    ensures FlightOf(SetFlight(b, f, fl), f) == fl && FlightOf(SetFlight(b, f, fl), 3 - f) == FlightOf(b, 3 - f)
    ensures SetFlight(b, f, fl).ftype == b.ftype && SetFlight(b, f, fl).booked == b.booked
  {
  }

  /** The flight worked on is fine, and the other one is as before. */
  lemma FlightsChanged(b: Book, b': Book, clerks: map<int, Clerk>, k: int, c: Clerk, f: int, t1: nat, t2: nat)
    requires FlightsOk(b, clerks, t1, t2) && k in clerks && 1 <= f <= 2
    requires FlightOwned(FlightOf(b', f), f, clerks[k := c])
    requires FlightOk(FlightOf(b', f), f, clerks[k := c], Tickets(f, t1, t2))
    requires FlightOf(b', 3 - f) == FlightOf(b, 3 - f)
    requires Holds(c, 3 - f) == Holds(clerks[k], 3 - f) && !Pending(c, 3 - f) && !Pending(clerks[k], 3 - f)
    ensures FlightsOk(b', clerks[k := c], t1, t2)
  {
    hide FlightOwned, FlightOk, Holds, Pending;
    FlightKept(FlightOf(b, 3 - f), 3 - f, clerks, k, c, Tickets(3 - f, t1, t2));
  }

  /** Booking steps touch only flights that no other clerk holds. */
  lemma OthersKeepSeats(w: World, k: int, b: Book, f: int, t1: nat, t2: nat)
    requires FlightsOk(w.book, w.clerks, t1, t2) && k in w.clerks && 1 <= f <= 2 && Holds(w.clerks[k], f)
    requires FlightOf(b, 3 - f) == FlightOf(w.book, 3 - f)
    ensures forall g, j | 1 <= g <= 2 && j in w.clerks && j != k && Holds(w.clerks[j], g) ::
              SameSeats(FlightOf(w.book, g), FlightOf(b, g))
  {
  }

  lemma BookTest(w: World, k: int, t1: nat, t2: nat)
    requires DeskReady(w, k, t1, t2) && w.clerks[k].pc == Test
    ensures ClerkStep(w, k).Next?
    ensures var w' := ClerkStep(w, k).w; BookInv(w'.book, w'.line.stage, w'.clerks, w'.customers, t1, t2)
  {
    hide DeskReady, BookInv, In, FlightOwned, FlightOk, Agree;
    DeskFacts(w, k, t1, t2);
    var b, o := w.book, w.clerks[k];
    var c := ClerkStep(w, k).w.clerks[k];
    assert ClerkStep(w, k) == Next(w.(clerks := w.clerks[k := c]));
    assert c == o.(pc := c.pc);
    FlightKept(b.f1, 1, w.clerks, k, c, t1);
    FlightKept(b.f2, 2, w.clerks, k, c, t2);
    LockKeeps(w, k, b, c, t1, t2);
  }

  /** One ticket less, and a clerk with it in hand. */
  lemma BookDec(w: World, k: int, t1: nat, t2: nat)
    requires DeskReady(w, k, t1, t2) && w.clerks[k].pc.Dec?
    ensures ClerkStep(w, k).Next?
    ensures var w' := ClerkStep(w, k).w; BookInv(w'.book, w'.line.stage, w'.clerks, w'.customers, t1, t2)
  {
    hide DeskReady, BookInv, In, FlightOwned, FlightOk, Agree;
    DeskFacts(w, k, t1, t2);
    var b, o, f := w.book, w.clerks[k], w.clerks[k].pc.f;
    var fl, c := FlightOf(b, f), o.(pc := Flag(f));
    var b' := SetFlight(b, f, fl.(counter := fl.counter - 1));
    assert ClerkStep(w, k) == Next(w.(clerks := w.clerks[k := c], book := b'));
    SetFlightOf(b, f, fl.(counter := fl.counter - 1));
    DecFlight(fl, f, w.clerks, k, c, Tickets(f, t1, t2));
    FlightsChanged(b, b', w.clerks, k, c, f, t1, t2);
    OthersKeepSeats(w, k, b', f, t1, t2);
    SameEntries(b, b', o.cust);
    DeskKeeps(w, k, b', c, t1, t2);
  }

  lemma DecFlight(fl: Flight, f: int, clerks: map<int, Clerk>, k: int, c: Clerk, t: nat)
    requires FlightOwned(fl, f, clerks) && FlightOk(fl, f, clerks, t) && k in clerks
    requires Holds(clerks[k], f) && Holds(c, f) && !Pending(clerks[k], f) && Pending(c, f) && fl.counter > 0
    ensures var fl' := fl.(counter := fl.counter - 1); FlightOwned(fl', f, clerks[k := c]) && FlightOk(fl', f, clerks[k := c], t)
  {
  }

  lemma SameEntries(b: Book, b': Book, x: int)
    requires b'.ftype == b.ftype && b'.booked == b.booked && Booked(b'.f1) == Booked(b.f1) && Booked(b'.f2) == Booked(b.f2)
    ensures Agree(b, b', x) && forall f, y :: In(b', f, y) <==> In(b, f, y)
  {
  }

  lemma BookFlag(w: World, k: int, t1: nat, t2: nat)
    requires DeskReady(w, k, t1, t2) && w.clerks[k].pc.Flag?
    ensures ClerkStep(w, k).Next?
    ensures var w' := ClerkStep(w, k).w; BookInv(w'.book, w'.line.stage, w'.clerks, w'.customers, t1, t2)
  {
    hide DeskReady, BookInv, In, FlightOwned, FlightOk;
    DeskFacts(w, k, t1, t2);
    var b, o, f := w.book, w.clerks[k], w.clerks[k].pc.f;
    var c, b' := o.(pc := Store(f)), b.(booked := b.booked[o.cust := true]);
    assert ClerkStep(w, k) == Next(w.(clerks := w.clerks[k := c], book := b'));
    FlightKept(b.f1, 1, w.clerks, k, c, t1);
    FlightKept(b.f2, 2, w.clerks, k, c, t2);
    SameBookings(b, b');
    DeskKeeps(w, k, b', c, t1, t2);
  }

  lemma SameBookings(b: Book, b': Book)
    requires b'.f1 == b.f1 && b'.f2 == b.f2
    ensures forall f, y :: In(b', f, y) <==> In(b, f, y)
  {
  }

  /** The array has room for every ticket. */
  lemma BookStore(w: World, k: int, t1: nat, t2: nat)
    requires DeskReady(w, k, t1, t2) && w.clerks[k].pc.Store?
    ensures ClerkStep(w, k).Next?
    ensures var w' := ClerkStep(w, k).w; BookInv(w'.book, w'.line.stage, w'.clerks, w'.customers, t1, t2)
  {
    hide DeskReady, BookInv, In, FlightOwned, FlightOk, Agree;
    DeskFacts(w, k, t1, t2);
    var b, o, f := w.book, w.clerks[k], w.clerks[k].pc.f;
    var fl, c := FlightOf(b, f), o.(pc := Count(f));
    StoreFlight(fl, f, w.clerks, k, c, Tickets(f, t1, t2));
    var fl' := fl.(arr := fl.arr[fl.booked := o.cust]);
    var b' := SetFlight(b, f, fl');
    assert ClerkStep(w, k) == Next(w.(clerks := w.clerks[k := c], book := b'));
    SetFlightOf(b, f, fl');
    FlightsChanged(b, b', w.clerks, k, c, f, t1, t2);
    OthersKeepSeats(w, k, b', f, t1, t2);
    SameEntries(b, b', o.cust);
    DeskKeeps(w, k, b', c, t1, t2);
  }

  lemma StoreFlight(fl: Flight, f: int, clerks: map<int, Clerk>, k: int, c: Clerk, t: nat)
    requires FlightOwned(fl, f, clerks) && FlightOk(fl, f, clerks, t) && k in clerks
    requires Holds(clerks[k], f) && Holds(c, f) && Pending(clerks[k], f) && Pending(c, f)
    ensures fl.booked < |fl.arr|
    ensures var fl' := fl.(arr := fl.arr[fl.booked := c.cust]);
            FlightOwned(fl', f, clerks[k := c]) && FlightOk(fl', f, clerks[k := c], t) && Booked(fl') == Booked(fl)
  {
  }

  lemma CountShape(w: World, k: int)
    requires k in w.clerks && w.clerks[k].pc.Count?
    ensures var b, o, f := w.book, w.clerks[k], w.clerks[k].pc.f;
            var fl := FlightOf(b, f);
            ClerkStep(w, k)
            == Next(w.(clerks := w.clerks[k := o.(pc := if o.ty == 3 && f == 1 then Dec(2) else FirstSignal(o.ty))],
                       book := SetFlight(b, f, fl.(booked := fl.booked + 1))))
  {
  }

  lemma BookCount(w: World, k: int, t1: nat, t2: nat)
    requires DeskReady(w, k, t1, t2) && w.clerks[k].pc.Count?
    ensures ClerkStep(w, k).Next?
    ensures var w' := ClerkStep(w, k).w; BookInv(w'.book, w'.line.stage, w'.clerks, w'.customers, t1, t2)
  {
    hide DeskReady, BookInv, FlightOwned, FlightOk, Agree, In, ClerkStep, SetFlight, NoDup;
    DeskFacts(w, k, t1, t2);
    var b, o, f := w.book, w.clerks[k], w.clerks[k].pc.f;
    var fl, c := FlightOf(b, f), o.(pc := if o.ty == 3 && f == 1 then Dec(2) else FirstSignal(o.ty));
    var b' := SetFlight(b, f, fl.(booked := fl.booked + 1));
    CountShape(w, k);
    SetFlightOf(b, f, fl.(booked := fl.booked + 1));
    NotInYet(b, o, f);
    CountFlight(fl, f, w.clerks, k, c, Tickets(f, t1, t2), o.cust);
    FlightsChanged(b, b', w.clerks, k, c, f, t1, t2);
    OthersKeepSeats(w, k, b', f, t1, t2);
    CountEntries(b, b', f, o.cust);
    CountDesk(b, b', o, c);
    hide ClerkDesk, Holds, FlightsOk, FirstSignal;
    DeskKeeps(w, k, b', c, t1, t2);
  }

  /** After counting, the customer is on the flight: the clerk goes on to the other one or is done. */
  lemma CountDesk(b: Book, b': Book, o: Clerk, c: Clerk)
    requires ClerkDesk(b, o) && o.pc.Count? && b'.ftype == b.ftype && b'.booked == b.booked
    requires c == o.(pc := if o.ty == 3 && o.pc.f == 1 then Dec(2) else FirstSignal(o.ty))
    requires FlightOf(b', 3 - o.pc.f).counter == FlightOf(b, 3 - o.pc.f).counter
    requires In(b', o.pc.f, o.cust) && (In(b', 3 - o.pc.f, o.cust) <==> In(b, 3 - o.pc.f, o.cust))
    ensures ClerkDesk(b', c)
  {
    hide In;
  }

  lemma NotInYet(b: Book, c: Clerk, f: int)
    requires !In(b, f, c.cust)
    ensures c.cust !in Booked(FlightOf(b, f))
  {
  }

  lemma CountFlight(fl: Flight, f: int, clerks: map<int, Clerk>, k: int, c: Clerk, t: nat, x: int)
    requires FlightOwned(fl, f, clerks) && FlightOk(fl, f, clerks, t) && k in clerks
    requires Holds(clerks[k], f) && Holds(c, f) && Pending(clerks[k], f) && !Pending(c, f)
    requires fl.booked < |fl.arr| && fl.arr[fl.booked] == x && x !in Booked(fl)
    ensures var fl' := fl.(booked := fl.booked + 1);
            FlightOwned(fl', f, clerks[k := c]) && FlightOk(fl', f, clerks[k := c], t) && Booked(fl') == Booked(fl) + [x]
  {
  }

  lemma CountEntries(b: Book, b': Book, f: int, x: int)
    requires 1 <= f <= 2 && b'.ftype == b.ftype && b'.booked == b.booked
    requires Booked(FlightOf(b', f)) == Booked(FlightOf(b, f)) + [x] && FlightOf(b', 3 - f) == FlightOf(b, 3 - f)
    ensures Agree(b, b', x) && In(b', f, x) && (In(b', 3 - f, x) <==> In(b, 3 - f, x))
  {
  }

  // Steps away from the desk -----------------------------------------------------------

  ghost predicate Inv(w: World, t1: nat, t2: nat) {
    && IdsInv(w.ids, w.customers) && LineInv(w.line, w.ids.who, w.clerks, w.customers, w.agency)
    && BookInv(w.book, w.line.stage, w.clerks, w.customers, t1, t2)
  }

  /** A clerk moves outside the flights' sections, with the stages as they are. */
  lemma BookClerkMoves(w: World, k: int, c: Clerk, t1: nat, t2: nat)
    requires BookInv(w.book, w.line.stage, w.clerks, w.customers, t1, t2) && k in w.clerks && ClerkDesk(w.book, c)
    requires forall f :: !Holds(c, f) && !Holds(w.clerks[k], f) && !Pending(c, f) && !Pending(w.clerks[k], f)
    ensures BookInv(w.book, w.line.stage, w.clerks[k := c], w.customers, t1, t2)
  {
  }

  /** A request goes from one stage to the next. */
  lemma BookStage(b: Book, stage: map<int, Stage>, clerks: map<int, Clerk>, customers: map<int, Customer>, x: int, st: Stage,
                  t1: nat, t2: nat)
    requires BookInv(b, stage, clerks, customers, t1, t2) && RequestDesk(b, st, x)
    ensures BookInv(b, stage[x := st], clerks, customers, t1, t2)
  {
  }

  lemma BookFetch(w: World, k: int, t1: nat, t2: nat)
    requires Inv(w, t1, t2) && k in w.clerks && ClerkStep(w, k).Next?
    requires var pc := w.clerks[k].pc; pc == ReadyWait || pc == QueueWait || pc == Peek || pc == QueueBack || pc == QueueSignal
    ensures var w' := ClerkStep(w, k).w; BookInv(w'.book, w'.line.stage, w'.clerks, w'.customers, t1, t2)
  {
    hide IdsInv, LineInv, BookInv, ClerkStep, In;
    FetchShape(w, k);
    BookSame(w, k);
    ClerkDeskFact(w, k, t1, t2);
    BookClerkMoves(w, k, ClerkStep(w, k).w.clerks[k], t1, t2);
  }

  lemma BookSame(w: World, k: int)
    requires k in w.clerks && ClerkStep(w, k).Next?
    requires var pc := w.clerks[k].pc; pc == ReadyWait || pc == QueueWait || pc == Peek || pc == QueueBack || pc == QueueSignal
    ensures ClerkStep(w, k).w.book == w.book
  {
  }

  lemma ClerkDeskFact(w: World, k: int, t1: nat, t2: nat)
    requires BookInv(w.book, w.line.stage, w.clerks, w.customers, t1, t2) && k in w.clerks
    ensures ClerkDesk(w.book, w.clerks[k])
  {
  }

  lemma RequestDeskFact(w: World, x: int, t1: nat, t2: nat)
    requires BookInv(w.book, w.line.stage, w.clerks, w.customers, t1, t2) && x in w.line.stage
    ensures RequestDesk(w.book, w.line.stage[x], x)
  {
  }

  lemma BookAdvance(w: World, k: int, t1: nat, t2: nat)
    requires Inv(w, t1, t2) && k in w.clerks && w.clerks[k].pc == Advance
    ensures var w' := ClerkStep(w, k).w; BookInv(w'.book, w'.line.stage, w'.clerks, w'.customers, t1, t2)
  {
    hide IdsInv, LineInv, BookInv, ClerkStep, In;
    AdvanceStep(w, k);
    ClerkFacts(w, k);
    CellAt(w);
    var o := w.clerks[k];
    RequestDeskFact(w, o.cust, t1, t2);
    BookClerkMoves(w, k, o.(pc := QueueSignal), t1, t2);
    BookStage(w.book, w.line.stage, w.clerks[k := o.(pc := QueueSignal)], w.customers, o.cust, Serving(k), t1, t2);
  }

  lemma BookFinish(w: World, k: int, t1: nat, t2: nat)
    requires Inv(w, t1, t2) && k in w.clerks && w.clerks[k].pc == FinishSignal
    ensures ClerkStep(w, k).Next?
    ensures var w' := ClerkStep(w, k).w; BookInv(w'.book, w'.line.stage, w'.clerks, w'.customers, t1, t2)
  {
    hide IdsInv, LineInv, BookInv, ClerkStep, In;
    FinishReady(w, k);
    FinishShape(w, k);
    var o := w.clerks[k];
    ClerkDeskFact(w, k, t1, t2);
    BookClerkMoves(w, k, o.(pc := ClerkSignal), t1, t2);
    BookStage(w.book, w.line.stage, w.clerks[k := o.(pc := ClerkSignal)], w.customers, o.cust, Served, t1, t2);
  }

  lemma BookBetween(w: World, k: int, t1: nat, t2: nat)
    requires Inv(w, t1, t2) && k in w.clerks && Between(w.clerks[k]) && ClerkStep(w, k).Next?
    ensures var w' := ClerkStep(w, k).w; BookInv(w'.book, w'.line.stage, w'.clerks, w'.customers, t1, t2)
  {
    hide IdsInv, LineInv, BookInv, In;
    var w' := ClerkStep(w, k).w;
    assert w'.clerks == w.clerks[k := w.clerks[k].(pc := w'.clerks[k].pc)];
    BookClerkMoves(w, k, w'.clerks[k], t1, t2);
  }

  /** Every step of a clerk keeps the invariant, and none panics or leaves an array. */
  lemma ClerkKeeps(w: World, k: int, t1: nat, t2: nat)
    requires Inv(w, t1, t2) && k in w.clerks
    ensures ClerkStep(w, k) != Panic && (ClerkStep(w, k).Next? ==> Inv(ClerkStep(w, k).w, t1, t2))
  {
    hide IdsInv, LineInv, BookInv, ClerkStep;
    match w.clerks[k].pc
    case Opened | ClerkSignal | Closing => BetweenGoes(w, k); LineBetweenStep(w, k); BookBetween(w, k, t1, t2); OutsideIds(w, k);
    case ReadyWait | QueueWait | Peek | QueueBack | QueueSignal =>
      FetchGoes(w, k);
      if ClerkStep(w, k).Next? {
        LineClerkStep(w, k);
        BookFetch(w, k, t1, t2);
        OutsideIds(w, k);
      }
    case Advance => AdvanceStep(w, k); LineAdvance(w, k); BookAdvance(w, k, t1, t2);
    case FinishSignal => LineFinish(w, k); BookFinish(w, k, t1, t2); OutsideIds(w, k);
    case Gone => GoneStays(w, k);
    case _ =>
      DeskGoes(w, k, t1, t2);
      if ClerkStep(w, k).Next? {
        LineDeskStep(w, k);
        OutsideIds(w, k);
      }
  }

  lemma OutsideIds(w: World, k: int)
    requires k in w.clerks && ClerkStep(w, k).Next?
    ensures ClerkStep(w, k).w.ids == w.ids && ClerkStep(w, k).w.customers == w.customers
  {
    hide FetchStep, LockStep, BookStep, LeaveStep;
    FetchOutside(w, k);
    LockOutside(w, k);
    BookOutside(w, k);
    LeaveOutside(w, k);
  }

  ghost predicate Outside(w: World, r: Outcome) {
    r.Next? ==> r.w.ids == w.ids && r.w.customers == w.customers
  }

  lemma FetchOutside(w: World, k: int)
    requires k in w.clerks
    ensures Outside(w, FetchStep(w, k))
  {
  }

  lemma LockOutside(w: World, k: int)
    requires k in w.clerks
    ensures Outside(w, LockStep(w, k))
  {
  }

  lemma BookOutside(w: World, k: int)
    requires k in w.clerks
    ensures Outside(w, BookStep(w, k))
  {
  }

  lemma LeaveOutside(w: World, k: int)
    requires k in w.clerks
    ensures Outside(w, LeaveStep(w, k))
  {
  }

  lemma BetweenGoes(w: World, k: int)
    requires k in w.clerks && Between(w.clerks[k])
    ensures ClerkStep(w, k).Next?
  {
  }

  lemma FetchGoes(w: World, k: int)
    requires IdsInv(w.ids, w.customers) && LineInv(w.line, w.ids.who, w.clerks, w.customers, w.agency) && k in w.clerks
    requires var pc := w.clerks[k].pc; pc == ReadyWait || pc == QueueWait || pc == Peek || pc == QueueBack || pc == QueueSignal
    ensures ClerkStep(w, k) != Panic
  {
    hide IdsInv, LineInv;
    if w.clerks[k].pc == Peek {
      PeekFinds(w, k);
    }
  }

  lemma GoneStays(w: World, k: int)
    requires k in w.clerks && w.clerks[k].pc == Gone
    ensures ClerkStep(w, k) == Blocked
  {
  }

  lemma DeskGoes(w: World, k: int, t1: nat, t2: nat)
    requires Inv(w, t1, t2) && k in w.clerks && AtDesk(w.clerks[k])
    ensures ClerkStep(w, k) != Panic
    ensures ClerkStep(w, k).Next? ==>
              var w' := ClerkStep(w, k).w; BookInv(w'.book, w'.line.stage, w'.clerks, w'.customers, t1, t2)
  {
    hide IdsInv, LineInv, BookInv, ClerkStep;
    match w.clerks[k].pc
    case Switch => BookSwitch(w, k, t1, t2);
    case Wait1 | Wait2 =>
      WaitGoes(w, k);
      if ClerkStep(w, k).Next? {
        BookWait(w, k, t1, t2);
      }
    case Test => BookTest(w, k, t1, t2);
    case Dec(_) => BookDec(w, k, t1, t2);
    case Flag(_) => BookFlag(w, k, t1, t2);
    case Store(_) => BookStore(w, k, t1, t2);
    case Count(_) => BookCount(w, k, t1, t2);
    case Signal1 | Signal2 => BookSignal(w, k, t1, t2);
    case _ =>
  }

  lemma WaitGoes(w: World, k: int)
    requires k in w.clerks && (w.clerks[k].pc == Wait1 || w.clerks[k].pc == Wait2)
    ensures ClerkStep(w, k) != Panic
  {
  }

  // Customer steps ------------------------------------------------------------------------

  lemma BookCustomerMoves(w: World, p: int, c: Customer, t1: nat, t2: nat)
    requires BookInv(w.book, w.line.stage, w.clerks, w.customers, t1, t2) && p in w.customers && CustomerDesk(w.book, c)
    ensures BookInv(w.book, w.line.stage, w.clerks, w.customers[p := c], t1, t2)
  {
  }

  /** Nobody else knows the id of a customer that is not in the line. */
  lemma UnknownId(w: World, p: int, t1: nat, t2: nat)
    requires Inv(w, t1, t2) && p in w.customers && HasId(w.customers[p]) && !Enqueued(w.customers[p])
    ensures var x := w.customers[p].id;
            && x !in w.line.stage && (forall f | 1 <= f <= 2 :: !In(w.book, f, x))
            && (forall k | k in w.clerks && Working(w.clerks[k]) :: w.clerks[k].cust != x)
            && (forall q | q in w.customers && q != p && HasId(w.customers[q]) :: w.customers[q].id != x)
  {
    hide FlightsOk, ClerkDesk, CustomerDesk, RequestDesk, In, IdOwned, IdTaken, Where, LineOwned, Requests, CellsOk,
         FinishedOk, CountsOk, PhaseOk;
    var x := w.customers[p].id;
    assert CustomerId(w.ids, p, w.customers[p]);
    assert CustomerLine(w.line, w.customers[p]);
    forall k | k in w.clerks && Working(w.clerks[k]) ensures w.clerks[k].cust != x {
      assert ClerkLine(w.line, k, w.clerks[k], Awake(w.agency));
    }
    forall q | q in w.customers && q != p && HasId(w.customers[q]) ensures w.customers[q].id != x {
      assert CustomerId(w.ids, q, w.customers[q]);
    }
  }

  /** A customer fills in its own record. */
  lemma InfoKeeps(w: World, p: int, b: Book, c: Customer, t1: nat, t2: nat)
    requires Inv(w, t1, t2) && p in w.customers && HasId(w.customers[p]) && !Enqueued(w.customers[p])
    requires Agree(w.book, b, w.customers[p].id) && b.f1 == w.book.f1 && b.f2 == w.book.f2 && CustomerDesk(b, c)
    ensures BookInv(b, w.line.stage, w.clerks, w.customers[p := c], t1, t2)
  {
    hide IdsInv, LineInv, FlightOwned, FlightOk, ClerkDesk, CustomerDesk, RequestDesk, In, Agree, Holds, Working;
    UnknownId(w, p, t1, t2);
    var x, after := w.customers[p].id, w.customers[p := c];
    SameBookings(w.book, b);
    forall k | k in w.clerks ensures ClerkDesk(b, w.clerks[k]) {
      assert ClerkDesk(w.book, w.clerks[k]);
      OtherClerk(w.book, b, w.clerks[k], x);
    }
    forall q | q in after ensures CustomerDesk(b, after[q]) {
      assert CustomerDesk(w.book, w.customers[q]);
      if q != p {
        OtherCustomer(w.book, b, w.customers[q], x);
      }
    }
    forall y | y in w.line.stage ensures RequestDesk(b, w.line.stage[y], y) {
      assert RequestDesk(w.book, w.line.stage[y], y);
      OtherRequest(w.book, b, w.line.stage[y], y, x);
    }
  }

  lemma CustomerDeskFact(w: World, p: int, t1: nat, t2: nat)
    requires BookInv(w.book, w.line.stage, w.clerks, w.customers, t1, t2) && p in w.customers
    ensures CustomerDesk(w.book, w.customers[p])
  {
  }

  lemma BookInfo(w: World, p: int, ty: int, t1: nat, t2: nat)
    requires Inv(w, t1, t2) && p in w.customers && (w.customers[p].pc == InfoBooked || w.customers[p].pc == InfoType)
    ensures CustomerStep(w, p, ty).Next?
    ensures var w' := CustomerStep(w, p, ty).w; BookInv(w'.book, w'.line.stage, w'.clerks, w'.customers, t1, t2)
  {
    hide IdsInv, LineInv, BookInv, In;
    var b, o := w.book, w.customers[p];
    CustomerDeskFact(w, p, t1, t2);
    TypeFact(w, p);
    var b' := if o.pc == InfoBooked then b.(booked := b.booked[o.id := false]) else b.(ftype := b.ftype[o.id := o.ty]);
    var c := o.(pc := After(o.pc));
    assert CustomerStep(w, p, ty) == Next(w.(customers := w.customers[p := c], book := b'));
    SameBookings(b, b');
    InfoKeeps(w, p, b', c, t1, t2);
  }

  lemma TypeFact(w: World, p: int)
    requires IdsInv(w.ids, w.customers) && p in w.customers && HasType(w.customers[p])
    ensures 1 <= w.customers[p].ty <= 3
  {
  }

  /** The steps that change neither the book nor a stage. */
  lemma BookQuiet(w: World, p: int, ty: int, t1: nat, t2: nat)
    requires Inv(w, t1, t2) && p in w.customers && CustomerStep(w, p, ty).Next?
    requires w.customers[p].pc !in {InfoBooked, InfoType, LineCount, FinishWait}
    ensures var w' := CustomerStep(w, p, ty).w; BookInv(w'.book, w'.line.stage, w'.clerks, w'.customers, t1, t2)
  {
    hide IdsInv, LineInv, BookInv, In, CustomerStep;
    CustomerDeskFact(w, p, t1, t2);
    BookUntouched(w, p, ty);
    BookCustomerMoves(w, p, CustomerStep(w, p, ty).w.customers[p], t1, t2);
  }

  lemma BookUntouched(w: World, p: int, ty: int)
    requires p in w.customers && CustomerStep(w, p, ty).Next?
    requires w.customers[p].pc !in {InfoBooked, InfoType, LineCount, FinishWait}
    ensures var w', o := CustomerStep(w, p, ty).w, w.customers[p];
            && w'.book == w.book && w'.line.stage == w.line.stage && w'.clerks == w.clerks
            && p in w'.customers && w'.customers == w.customers[p := w'.customers[p]]
            && w'.customers[p].pc == After(o.pc) && (o.pc != IdRead ==> w'.customers[p].id == o.id)
  {
    hide CustomerStep, After;
    SameBook(w, p, ty);
    if Special(w.customers[p]) {
      SpecialShape(w, p, ty);
    } else {
      QuietEffect(w, p, ty);
    }
  }

  lemma SameBook(w: World, p: int, ty: int)
    requires p in w.customers && CustomerStep(w, p, ty).Next? && w.customers[p].pc !in {InfoBooked, InfoType}
    ensures CustomerStep(w, p, ty).w.book == w.book
  {
  }

  lemma SpecialShape(w: World, p: int, ty: int)
    requires p in w.customers && CustomerStep(w, p, ty).Next? && (w.customers[p].pc == IdRead || w.customers[p].pc == LineWrite)
    ensures var w', o := CustomerStep(w, p, ty).w, w.customers[p];
            && w'.line.stage == w.line.stage && w'.clerks == w.clerks
            && p in w'.customers && w'.customers == w.customers[p := w'.customers[p]]
            && w'.customers[p].pc == After(o.pc) && (o.pc != IdRead ==> w'.customers[p].id == o.id)
  {
  }

  lemma BookEnqueue(w: World, p: int, ty: int, t1: nat, t2: nat)
    requires Inv(w, t1, t2) && p in w.customers && w.customers[p].pc == LineCount
    ensures CustomerStep(w, p, ty).Next?
    ensures var w' := CustomerStep(w, p, ty).w; BookInv(w'.book, w'.line.stage, w'.clerks, w'.customers, t1, t2)
  {
    hide IdsInv, LineInv, BookInv, In;
    var o, l := w.customers[p], w.line;
    UnknownId(w, p, t1, t2);
    CustomerDeskFact(w, p, t1, t2);
    assert CustomerStep(w, p, ty) == Next(w.(customers := w.customers[p := o.(pc := LineSignal)],
                                             line := l.(qin := l.qin + 1, stage := l.stage[o.id := Queued])));
    BookCustomerMoves(w, p, o.(pc := LineSignal), t1, t2);
    BookStage(w.book, l.stage, w.clerks, w.customers[p := o.(pc := LineSignal)], o.id, Queued, t1, t2);
  }

  lemma BookCollect(w: World, p: int, ty: int, t1: nat, t2: nat)
    requires Inv(w, t1, t2) && p in w.customers && w.customers[p].pc == FinishWait && CustomerStep(w, p, ty).Next?
    ensures var w' := CustomerStep(w, p, ty).w; BookInv(w'.book, w'.line.stage, w'.clerks, w'.customers, t1, t2)
  {
    hide IdsInv, LineInv, BookInv, In;
    var o, l := w.customers[p], w.line;
    FinishWaits(w, p);
    RequestDeskFact(w, o.id, t1, t2);
    var w' := CustomerStep(w, p, ty).w;
    assert w'.customers == w.customers[p := o.(pc := CapacitySignal)] && w'.line.stage == l.stage[o.id := Collected];
    BookCustomerMoves(w, p, o.(pc := CapacitySignal), t1, t2);
    BookStage(w.book, l.stage, w.clerks, w.customers[p := o.(pc := CapacitySignal)], o.id, Collected, t1, t2);
  }

  /** Every step of a customer keeps the invariant, and none leaves an array. */
  lemma CustomerKeeps(w: World, p: int, ty: int, t1: nat, t2: nat)
    requires Inv(w, t1, t2) && p in w.customers
    ensures CustomerStep(w, p, ty) != Panic && (CustomerStep(w, p, ty).Next? ==> Inv(CustomerStep(w, p, ty).w, t1, t2))
  {
    hide IdsInv, LineInv, BookInv, CustomerStep;
    CustomerGoes(w, p, ty);
    if CustomerStep(w, p, ty).Next? {
      IdsStep(w, p, ty);
      match w.customers[p].pc
      case InfoBooked | InfoType => LineQuietStep(w, p, ty); BookInfo(w, p, ty, t1, t2);
      case LineCount => LineCountStep(w, p, ty); BookEnqueue(w, p, ty, t1, t2);
      case FinishWait => LineFinishWait(w, p, ty); BookCollect(w, p, ty, t1, t2);
      case IdRead => LineIdRead(w, p, ty); BookQuiet(w, p, ty, t1, t2);
      case LineWrite => LineWriteStep(w, p, ty); BookQuiet(w, p, ty, t1, t2);
      case _ => LineQuietStep(w, p, ty); BookQuiet(w, p, ty, t1, t2);
    }
  }

  lemma CustomerGoes(w: World, p: int, ty: int)
    requires IdsInv(w.ids, w.customers) && LineInv(w.line, w.ids.who, w.clerks, w.customers, w.agency) && p in w.customers
    ensures CustomerStep(w, p, ty) != Panic
  {
    hide IdsInv, LineInv;
    if w.customers[p].pc == LineWrite {
      LineWriteStep(w, p, ty);
    } else if w.customers[p].pc == FinishWait {
      FinishWaits(w, p);
    }
  }

  lemma AgencyKeeps(w: World, t1: nat, t2: nat)
    requires Inv(w, t1, t2)
    ensures AgencyStep(w) != Panic && (AgencyStep(w).Next? ==> Inv(AgencyStep(w).w, t1, t2))
  {
    hide IdsInv, LineInv, BookInv;
    LineAgencyStep(w);
  }

  // ---------------------------------------------------------------------------
  // Runs
  // ---------------------------------------------------------------------------

  datatype Action = ClerkMoves(k: int) | CustomerMoves(p: int, ty: int) | AgencyMoves

  function Step(w: World, a: Action): Outcome {
    match a
    case ClerkMoves(k) => if k in w.clerks then ClerkStep(w, k) else Blocked
    case CustomerMoves(p, ty) => if p in w.customers then CustomerStep(w, p, ty) else Blocked
    case AgencyMoves => AgencyStep(w)
  }

  ghost predicate FlightInit(fl: Flight, t: nat) {
    fl.counter == t && fl.booked == 0 && |fl.arr| == t && fl.cs == 1 && fl.owner == None
  }

  /** The shared state that tst_air sets up before it starts the clerks and the customers. */
  ghost predicate Init(w: World, t1: nat, t2: nat) {
    && (forall k | k in w.clerks :: w.clerks[k].pc == Opened) && (forall p | p in w.customers :: w.customers[p].pc == IdWait)
    && w.agency == Collect(0) && w.isOpened && w.clerkTerm == 0
    && w.ids.counter == 0 && w.ids.cs == 1 && w.ids.owner == None && w.ids.who == map[]
    && w.line.cs == 1 && w.line.owner == None && |w.line.cells| == |w.customers| + 1
    && w.line.qin == w.line.qout == w.line.ready == w.line.term == 0 && w.line.stage == map[]
    && (forall c | 0 <= c < |w.customers| :: c in w.line.finished) && (forall c | c in w.line.finished :: w.line.finished[c] == 0)
    && FlightInit(w.book.f1, t1) && FlightInit(w.book.f2, t2)
  }

  ghost predicate Run(ws: seq<World>, acts: seq<Action>, t1: nat, t2: nat) {
    && |ws| == |acts| + 1 && Init(ws[0], t1, t2)
    && forall i | 0 <= i < |acts| :: Step(ws[i], acts[i]) == Next(ws[i + 1])
  }

  lemma WhereNone<T>(m: map<int, T>, P: T -> bool)
    requires forall k | k in m :: !P(m[k])
    ensures |Where(m, P)| == 0
  {
    forall k ensures k !in Where(m, P) {
      assert k in m ==> !P(m[k]);
    }
    assert Where(m, P) == {};
  }

  lemma InitIds(w: World, t1: nat, t2: nat)
    requires Init(w, t1, t2)
    ensures IdsInv(w.ids, w.customers)
  {
  }

  lemma InitCounts(w: World, t1: nat, t2: nat)
    requires Init(w, t1, t2)
    ensures CountsOk(w.line, w.clerks, w.customers, w.agency)
  {
    hide Where, FlightInit;
    WhereNone(w.customers, Enqueued);
    WhereNone(w.customers, Signalling);
    WhereNone(w.customers, IsDone);
    WhereNone(w.clerks, InFlight);
  }

  lemma InitLocal(w: World, t1: nat, t2: nat)
    requires Init(w, t1, t2)
    ensures LineOwned(w.line, w.clerks, w.customers) && Local(w.line, w.clerks, w.customers, Awake(w.agency))
  {
    hide FlightInit;
  }

  lemma InitLine(w: World, t1: nat, t2: nat)
    requires Init(w, t1, t2)
    ensures LineInv(w.line, w.ids.who, w.clerks, w.customers, w.agency)
  {
    hide Where, FlightInit, CountsOk, LineOwned, Local;
    InitCounts(w, t1, t2);
    InitLocal(w, t1, t2);
  }

  lemma InitBook(w: World, t1: nat, t2: nat)
    requires Init(w, t1, t2)
    ensures BookInv(w.book, w.line.stage, w.clerks, w.customers, t1, t2)
  {
  }

  lemma InitInv(w: World, t1: nat, t2: nat)
    requires Init(w, t1, t2)
    ensures Inv(w, t1, t2)
  {
    hide Init, IdsInv, LineInv, BookInv;
    InitIds(w, t1, t2);
    InitLine(w, t1, t2);
    InitBook(w, t1, t2);
  }

  /** No step panics, and every step keeps the invariant. */
  lemma StepKeeps(w: World, a: Action, t1: nat, t2: nat)
    requires Inv(w, t1, t2)
    ensures Step(w, a) != Panic && (Step(w, a).Next? ==> Inv(Step(w, a).w, t1, t2))
  {
    hide Inv, ClerkStep, CustomerStep, AgencyStep;
    match a
    case ClerkMoves(k) =>
      if k in w.clerks {
        ClerkKeeps(w, k, t1, t2);
      }
    case CustomerMoves(p, ty) =>
      if p in w.customers {
        CustomerKeeps(w, p, ty, t1, t2);
      }
    case AgencyMoves => AgencyKeeps(w, t1, t2);
  }

  lemma {:induction false} RunInv(ws: seq<World>, acts: seq<Action>, t1: nat, t2: nat, i: nat)
    requires Run(ws, acts, t1, t2) && i < |ws|
    ensures Inv(ws[i], t1, t2)
    decreases i
  {
    hide Inv, Init, Step;
    if i == 0 {
      InitInv(ws[0], t1, t2);
    } else {
      RunInv(ws, acts, t1, t2, i - 1);
      StepKeeps(ws[i - 1], acts[i - 1], t1, t2);
      assert Step(ws[i - 1], acts[i - 1]) == Next(ws[i - 1 + 1]);
    }
  }

  /** Outside its critical section each flight's remaining and booked tickets add up to those there were; never more are
      booked than there were, and nobody is booked twice on a flight. */
  lemma RunTickets(ws: seq<World>, acts: seq<Action>, t1: nat, t2: nat, i: nat, f: int)
    requires Run(ws, acts, t1, t2) && i < |ws| && 1 <= f <= 2
    ensures var fl, t := FlightOf(ws[i].book, f), Tickets(f, t1, t2);
            && (fl.cs == 1 ==> fl.counter + fl.booked == t)
            && t - 1 <= fl.counter + fl.booked <= t && 0 <= fl.counter && fl.booked <= |fl.arr| && NoDup(fl.arr[..fl.booked])
  {
    hide Init, Step, IdsInv, LineInv, ClerkDesk, CustomerDesk, RequestDesk, Members, NoDup;
    RunInv(ws, acts, t1, t2, i);
  }

  /** A customer that has been told is booked on every flight it wants or on none: both or neither for type 3. */
  lemma RunBothOrNeither(ws: seq<World>, acts: seq<Action>, t1: nat, t2: nat, i: nat, p: int)
    requires Run(ws, acts, t1, t2) && i < |ws| && p in ws[i].customers && Told(ws[i].customers[p])
    ensures var b, x := ws[i].book, ws[i].customers[p].id;
            && x in b.booked && x in b.ftype && 1 <= b.ftype[x] <= 3
            && (forall f | 1 <= f <= 2 :: In(b, f, x) <==> b.booked[x] && Wants(b.ftype[x], f))
  {
    hide Init, Step, In, Inv, IdsInv, LineInv, BookInv, Told;
    RunInv(ws, acts, t1, t2, i);
    ToldIsCollected(ws[i], p, t1, t2);
    TakeBook(ws[i], t1, t2);
    RequestDeskFact(ws[i], ws[i].customers[p].id, t1, t2);
  }

  lemma TakeBook(w: World, t1: nat, t2: nat)
    requires Inv(w, t1, t2)
    ensures IdsInv(w.ids, w.customers) && LineInv(w.line, w.ids.who, w.clerks, w.customers, w.agency)
    ensures BookInv(w.book, w.line.stage, w.clerks, w.customers, t1, t2)
  {
  }

  lemma ToldIsCollected(w: World, p: int, t1: nat, t2: nat)
    requires Inv(w, t1, t2) && p in w.customers && Told(w.customers[p])
    ensures w.customers[p].id in w.line.stage && w.line.stage[w.customers[p].id] == Collected
  {
  }

  /** Before the agency closes, a clerk that looks at the line finds a request there. */
  lemma RunNeverAhead(ws: seq<World>, acts: seq<Action>, t1: nat, t2: nat, i: nat, k: int)
    requires Run(ws, acts, t1, t2) && i < |ws| && k in ws[i].clerks && ws[i].clerks[k].pc == Peek
    ensures var l := ws[i].line;
            && l.qout <= l.qin && l.qout < |l.cells|
            && (ws[i].isOpened ==> l.qout < l.qin && l.cells[l.qout] in l.stage && l.stage[l.cells[l.qout]] == Queued)
  {
    hide Init, Step, Inv, IdsInv, LineInv, BookInv;
    RunInv(ws, acts, t1, t2, i);
    TakeBook(ws[i], t1, t2);
    PeekFinds(ws[i], k);
    CellsBound(ws[i]);
    OpenNotAwake(ws, acts, t1, t2, i);
    if ws[i].isOpened {
      CellAt(ws[i]);
    }
  }

  /** The flag is cleared before the clerks are woken. */
  lemma {:induction false} OpenNotAwake(ws: seq<World>, acts: seq<Action>, t1: nat, t2: nat, i: nat)
    requires Run(ws, acts, t1, t2) && i < |ws|
    ensures ws[i].isOpened <==> ws[i].agency.Collect? || ws[i].agency == Close
    decreases i
  {
    hide IdPhase, InfoPhase, LinePhase, ExitPhase, FetchStep, LockStep, BookStep, LeaveStep;
    if i > 0 {
      OpenNotAwake(ws, acts, t1, t2, i - 1);
      assert Step(ws[i - 1], acts[i - 1]) == Next(ws[i - 1 + 1]);
      if acts[i - 1] != AgencyMoves {
        AgencyOnly(ws[i - 1], acts[i - 1]);
      }
    }
  }

  lemma AgencyOnly(w: World, a: Action)
    requires Step(w, a).Next? && a != AgencyMoves
    ensures Step(w, a).w.agency == w.agency && Step(w, a).w.isOpened == w.isOpened
  {
  }

  // Every request is dequeued exactly once ----------------------------------------------

  function Rank(st: Stage): nat {
    match st
    case Queued => 0
    case Serving(_) => 1
    case Served => 2
    case Collected => 3
  }

  /** Requests are never dropped, and go from stage to stage one way. */
  ghost predicate Grows(stage: map<int, Stage>, stage': map<int, Stage>) {
    forall x | x in stage :: x in stage' && Rank(stage[x]) <= Rank(stage'[x])
  }

  /** A clerk moves one request at most: off the line, or to the served ones. */
  lemma StageOfClerk(w: World, k: int, t1: nat, t2: nat)
    requires Inv(w, t1, t2) && k in w.clerks && ClerkStep(w, k).Next?
    ensures var stage, stage', x := w.line.stage, ClerkStep(w, k).w.line.stage, w.clerks[k].cust;
            if w.clerks[k].pc == Advance then x in stage && stage[x] == Queued && stage' == stage[x := Serving(k)]
            else if w.clerks[k].pc == FinishSignal then x in stage && stage[x] == Serving(k) && stage' == stage[x := Served]
            else stage' == stage
  {
    hide Inv, IdsInv, LineInv, BookInv, ClerkStep;
    TakeBook(w, t1, t2);
    if w.clerks[k].pc == Advance {
      ClerkFacts(w, k);
      CellAt(w);
      AdvanceStep(w, k);
    } else if w.clerks[k].pc == FinishSignal {
      FinishReady(w, k);
      FinishShape(w, k);
    } else {
      StageKept(w, k);
    }
  }

  lemma StageKept(w: World, k: int)
    requires k in w.clerks && ClerkStep(w, k).Next? && w.clerks[k].pc != Advance && w.clerks[k].pc != FinishSignal
    ensures ClerkStep(w, k).w.line.stage == w.line.stage
  {
  }

  /** A customer moves its own request at most: into the line, or to the collected ones. */
  lemma StageOfCustomer(w: World, p: int, ty: int, t1: nat, t2: nat)
    requires Inv(w, t1, t2) && p in w.customers && CustomerStep(w, p, ty).Next?
    ensures var stage, stage', x := w.line.stage, CustomerStep(w, p, ty).w.line.stage, w.customers[p].id;
            if w.customers[p].pc == LineCount then x !in stage && stage' == stage[x := Queued]
            else if w.customers[p].pc == FinishWait then
              x in stage && stage[x] == Served && stage' == stage[x := Collected]
            else stage' == stage
  {
    hide Inv, IdsInv, LineInv, BookInv, CustomerStep;
    TakeBook(w, t1, t2);
    if w.customers[p].pc == LineCount {
      CustomerFacts(w, p);
    } else if w.customers[p].pc == FinishWait {
      FinishWaits(w, p);
    }
    CustomerStage(w, p, ty);
  }

  lemma CustomerStage(w: World, p: int, ty: int)
    requires p in w.customers && CustomerStep(w, p, ty).Next?
    ensures var stage, stage', c := w.line.stage, CustomerStep(w, p, ty).w.line.stage, w.customers[p];
            if c.pc == LineCount then stage' == stage[c.id := Queued]
            else if c.pc == FinishWait then
              c.id in w.line.finished && w.line.finished[c.id] > 0 && stage' == stage[c.id := Collected]
            else stage' == stage
  {
  }

  lemma StepGrows(w: World, a: Action, t1: nat, t2: nat)
    requires Inv(w, t1, t2) && Step(w, a).Next?
    ensures Grows(w.line.stage, Step(w, a).w.line.stage)
  {
    hide Inv, ClerkStep, CustomerStep;
    match a
    case ClerkMoves(k) => StageOfClerk(w, k, t1, t2);
    case CustomerMoves(p, ty) => StageOfCustomer(w, p, ty, t1, t2);
    case AgencyMoves =>
  }

  lemma {:induction false} RunGrows(ws: seq<World>, acts: seq<Action>, t1: nat, t2: nat, i: nat, j: nat)
    requires Run(ws, acts, t1, t2) && i <= j < |ws|
    ensures Grows(ws[i].line.stage, ws[j].line.stage)
    decreases j
  {
    hide Init, Step, Inv;
    if i < j {
      RunGrows(ws, acts, t1, t2, i, j - 1);
      RunInv(ws, acts, t1, t2, j - 1);
      assert Step(ws[j - 1], acts[j - 1]) == Next(ws[j - 1 + 1]);
      StepGrows(ws[j - 1], acts[j - 1], t1, t2);
    }
  }

  /** Step `i` of the run takes the request of customer `x` off the line. */
  ghost predicate Takes(ws: seq<World>, acts: seq<Action>, i: nat, x: int)
    requires i < |acts| <= |ws|
  {
    && acts[i].ClerkMoves? && acts[i].k in ws[i].clerks
    && ws[i].clerks[acts[i].k].pc == Advance && ws[i].clerks[acts[i].k].cust == x
  }

  lemma TakenFromLine(ws: seq<World>, acts: seq<Action>, t1: nat, t2: nat, i: nat, x: int)
    requires Run(ws, acts, t1, t2) && i < |acts| && Takes(ws, acts, i, x)
    ensures x in ws[i].line.stage && ws[i].line.stage[x] == Queued
    ensures x in ws[i + 1].line.stage && ws[i + 1].line.stage[x] == Serving(acts[i].k)
  {
    hide Init, Inv, IdsInv, LineInv, BookInv;
    RunInv(ws, acts, t1, t2, i);
    TakeBook(ws[i], t1, t2);
    ClerkFacts(ws[i], acts[i].k);
    CellAt(ws[i]);
    assert Step(ws[i], acts[i]) == Next(ws[i + 1]);
  }

  /** No request is taken twice. */
  lemma RunTakesOnce(ws: seq<World>, acts: seq<Action>, t1: nat, t2: nat, i: nat, j: nat, x: int)
    requires Run(ws, acts, t1, t2) && i < |acts| && j < |acts| && Takes(ws, acts, i, x) && Takes(ws, acts, j, x)
    ensures i == j
  {
    hide Run, Takes;
    if i < j {
      TakenBefore(ws, acts, t1, t2, i, j, x);
    } else if j < i {
      TakenBefore(ws, acts, t1, t2, j, i, x);
    }
  }

  lemma TakenBefore(ws: seq<World>, acts: seq<Action>, t1: nat, t2: nat, i: nat, j: nat, x: int)
    requires Run(ws, acts, t1, t2) && i < j < |acts| && Takes(ws, acts, i, x)
    ensures !Takes(ws, acts, j, x)
  {
    hide Init, Step, Takes;
    TakenFromLine(ws, acts, t1, t2, i, x);
    RunGrows(ws, acts, t1, t2, i + 1, j);
    if Takes(ws, acts, j, x) {
      TakenFromLine(ws, acts, t1, t2, j, x);
    }
  }

  /** Every request that is no longer in the line has been taken off it by a clerk. */
  lemma {:induction false} RunTakesAll(ws: seq<World>, acts: seq<Action>, t1: nat, t2: nat, j: nat, x: int)
    requires Run(ws, acts, t1, t2) && j < |ws| && x in ws[j].line.stage && ws[j].line.stage[x] != Queued
    ensures exists i: nat :: i < j && Takes(ws, acts, i, x)
    decreases j
  {
    hide Init, Inv, Step;
    if j > 0 {
      var w := ws[j - 1];
      assert Step(w, acts[j - 1]) == Next(ws[j - 1 + 1]);
      if x in w.line.stage && w.line.stage[x] != Queued {
        RunTakesAll(ws, acts, t1, t2, j - 1, x);
      } else {
        RunInv(ws, acts, t1, t2, j - 1);
        FirstTaken(w, acts[j - 1], t1, t2, x);
        assert Takes(ws, acts, j - 1, x);
      }
    } else {
      NothingYet(ws[0], t1, t2);
    }
  }

  lemma NothingYet(w: World, t1: nat, t2: nat)
    requires Init(w, t1, t2)
    ensures w.line.stage == map[]
  {
  }

  lemma FirstTaken(w: World, a: Action, t1: nat, t2: nat, x: int)
    requires Inv(w, t1, t2) && Step(w, a).Next? && (x in w.line.stage ==> w.line.stage[x] == Queued)
    requires x in Step(w, a).w.line.stage && Step(w, a).w.line.stage[x] != Queued
    ensures a.ClerkMoves? && a.k in w.clerks && w.clerks[a.k].pc == Advance && w.clerks[a.k].cust == x
  {
    hide Inv, ClerkStep, CustomerStep;
    match a
    case ClerkMoves(k) => StageOfClerk(w, k, t1, t2);
    case CustomerMoves(p, ty) => StageOfCustomer(w, p, ty, t1, t2);
    case AgencyMoves =>
  }

  // The flights' sections cannot deadlock -------------------------------------------------

  /** A clerk that is in the section of flight 2 can go on. */
  lemma SecondGoes(w: World, j: int, t1: nat, t2: nat)
    requires Inv(w, t1, t2) && j in w.clerks && Holds(w.clerks[j], 2) && AtDesk(w.clerks[j])
    ensures ClerkStep(w, j).Next?
  {
    hide IdsInv, LineInv, BookInv;
    DeskGoes(w, j, t1, t2);
  }

  lemma HolderAtDesk(c: Clerk, f: int)
    requires Holds(c, f)
    ensures AtDesk(c) && Working(c)
  {
  }

  lemma HolderOf(w: World, f: int, t1: nat, t2: nat)
    requires Inv(w, t1, t2) && 1 <= f <= 2 && FlightOf(w.book, f).cs == 0
    ensures FlightOf(w.book, f).owner.Some?
    ensures var j := FlightOf(w.book, f).owner.value; j in w.clerks && Holds(w.clerks[j], f)
  {
  }

  /** Whenever a clerk waits for a flight, some clerk at the desk can move: flight 1 is always locked before flight 2. */
  lemma FlightsNeverDeadlock(w: World, k: int, t1: nat, t2: nat)
    requires Inv(w, t1, t2) && k in w.clerks && (w.clerks[k].pc == Wait1 || w.clerks[k].pc == Wait2)
    ensures exists j :: j in w.clerks && AtDesk(w.clerks[j]) && ClerkStep(w, j).Next?
  {
    hide Inv, Holds;
    if w.book.f2.cs == 0 {
      HolderOf(w, 2, t1, t2);
      var j := w.book.f2.owner.value;
      HolderAtDesk(w.clerks[j], 2);
      SecondGoes(w, j, t1, t2);
    } else if w.clerks[k].pc == Wait2 || w.book.f1.cs > 0 {
      assert ClerkStep(w, k).Next?;
    } else {
      HolderOf(w, 1, t1, t2);
      var j := w.book.f1.owner.value;
      HolderAtDesk(w.clerks[j], 1);
      FirstGoes(w, j, t1, t2);
    }
  }

  /** With flight 2 free, a clerk in the section of flight 1 can go on. */
  lemma FirstGoes(w: World, j: int, t1: nat, t2: nat)
    requires Inv(w, t1, t2) && j in w.clerks && Holds(w.clerks[j], 1) && AtDesk(w.clerks[j]) && w.book.f2.cs > 0
    ensures ClerkStep(w, j).Next?
  {
    hide IdsInv, LineInv, BookInv;
    DeskGoes(w, j, t1, t2);
  }

  // The agency's final checks ------------------------------------------------------------

  /** find: 1 if the value is in the array, else 0. */
  method Find(arr: array<int>, size: nat, val: int) returns (result: int)
    requires size <= arr.Length
    ensures result == if val in arr[..size] then 1 else 0
  {
    result := 0;
    var i := 0;
    while i < size
      invariant i <= size && result == 0 && val !in arr[..i]
    {
      if arr[i] == val {
        assert arr[..size][i] == val;
        result := 1;
        break;
      }
      i := i + 1;
    }
  }

  /** Every customer has terminated and the agency has noticed: the moment of its checks and asserts. */
  predicate Checking(w: World) {
    w.agency == Collect(|w.customers|)
  }

  /** At that moment or later. */
  predicate Checked(w: World) {
    Checking(w) || !w.agency.Collect?
  }

  ghost function Found(fl: Flight, x: int): int {
    if x in fl.arr then 1 else 0
  }

  lemma FoundIfBooked(b: Book, f: int, x: int)
    requires 1 <= f <= 2 && In(b, f, x)
    ensures Found(FlightOf(b, f), x) == 1
  {
  }

  /** When all customers have terminated, every customer marked as booked is found in the array of each flight it wanted:
      none of the agency's panics is reached. */
  lemma FinalChecksPass(ws: seq<World>, acts: seq<Action>, t1: nat, t2: nat, i: nat, x: int)
    requires Run(ws, acts, t1, t2) && i < |ws| && Checked(ws[i]) && 0 <= x < |ws[i].customers|
    ensures var b := ws[i].book;
            && x in b.booked && x in b.ftype
            && (b.booked[x] ==>
                  && (b.ftype[x] == 1 ==> Found(b.f1, x) == 1)
                  && (b.ftype[x] == 2 ==> Found(b.f2, x) == 1)
                  && (b.ftype[x] == 3 ==> Found(b.f1, x) + Found(b.f2, x) == 2))
  {
    hide Init, Step, In, Inv, IdsInv, LineInv, BookInv;
    RunInv(ws, acts, t1, t2, i);
    TakeBook(ws[i], t1, t2);
    EveryIdCollected(ws[i], x, t1, t2);
    RequestDeskFact(ws[i], x, t1, t2);
    var b := ws[i].book;
    if b.booked[x] && In(b, 1, x) {
      FoundIfBooked(b, 1, x);
    }
    if b.booked[x] && In(b, 2, x) {
      FoundIfBooked(b, 2, x);
    }
  }

  /** Ids are 0 to n - 1 with none left out, and all of them have been served. */
  lemma EveryIdCollected(w: World, x: int, t1: nat, t2: nat)
    requires Inv(w, t1, t2) && Checked(w) && 0 <= x < |w.customers|
    ensures x in w.line.stage && w.line.stage[x] == Collected
  {
    hide IdsInv, LineInv, BookInv, Where;
    AllDone(w);
    AllStaged(w);
    NoneLeft(w, x);
  }

  lemma AllDone(w: World)
    requires LineInv(w.line, w.ids.who, w.clerks, w.customers, w.agency) && Checked(w)
    ensures forall p | p in w.customers :: IsDone(w.customers[p])
  {
    if w.agency.Collect? {
      AllCollected(w);
    }
  }

  lemma AllStaged(w: World)
    requires IdsInv(w.ids, w.customers) && LineInv(w.line, w.ids.who, w.clerks, w.customers, w.agency)
    requires forall p | p in w.customers :: IsDone(w.customers[p])
    ensures forall x | 0 <= x < |w.customers| :: x in w.line.stage
  {
    hide LineOwned, FinishedOk, Where, CellsOk, CountsOk, Requests, IdOwned, IdTaken;
    WhereAll(w.customers, Counted, IsDone);
    var taken := set p | p in w.customers :: w.customers[p].id;
    forall x | x in taken ensures 0 <= x < |w.customers| && x in w.line.stage {
      var p :| p in w.customers && w.customers[p].id == x;
      assert CustomerId(w.ids, p, w.customers[p]);
      assert CustomerLine(w.line, w.customers[p]);
    }
    DistinctIds(w);
    FullRange(taken, |w.customers|);
  }

  lemma DistinctIds(w: World)
    requires IdsInv(w.ids, w.customers) && forall p | p in w.customers :: IsDone(w.customers[p])
    ensures |set p | p in w.customers :: w.customers[p].id| == |w.customers|
  {
    hide IdOwned, IdTaken, Where;
    forall p, q | p in w.customers && q in w.customers && w.customers[p].id == w.customers[q].id ensures p == q {
      assert CustomerId(w.ids, p, w.customers[p]);
      assert CustomerId(w.ids, q, w.customers[q]);
    }
    InjectiveCount(w.customers, w.customers.Keys);
    assert (set p | p in w.customers :: w.customers[p].id) == (set p | p in w.customers.Keys :: w.customers[p].id);
  }

  lemma {:induction false} InjectiveCount(m: map<int, Customer>, K: set<int>)
    requires K <= m.Keys && forall p, q | p in m && q in m && m[p].id == m[q].id :: p == q
    ensures |set p | p in K :: m[p].id| == |K|
    decreases |K|
  {
    if k :| k in K {
      InjectiveCount(m, K - {k});
      var A := set p | p in K - {k} :: m[p].id;
      assert m[k].id !in A;
      assert (set p | p in K :: m[p].id) == A + {m[k].id};
    } else {
      forall x ensures x !in K {
      }
      assert K == {};
    }
  }

  lemma {:induction false} FullRange(A: set<int>, n: nat)
    requires |A| == n && forall x | x in A :: 0 <= x < n
    ensures forall x | 0 <= x < n :: x in A
    decreases n
  {
    if n > 0 {
      if n - 1 in A {
        var B := A - {n - 1};
        FullRange(B, n - 1);
        forall x | 0 <= x < n ensures x in A {
          assert x < n - 1 ==> x in B;
        }
      } else {
        TooMany(A, n - 1);
      }
    }
  }

  lemma {:induction false} TooMany(A: set<int>, n: nat)
    requires forall x | x in A :: 0 <= x < n
    ensures |A| <= n
    decreases n
  {
    if n > 0 {
      TooMany(A - {n - 1}, n - 1);
      WithOne(A, n - 1);
    } else {
      forall x ensures x !in A {
      }
      assert A == {};
    }
  }
}
