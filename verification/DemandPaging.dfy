/** Demand paging: the page fault handler (kern/trap/fault_handler.c) under CLOCK, modified CLOCK and LRU aging,
    with write-back to the page file. The whole is a write-back cache of the process's flat byte memory. */
module DemandPaging {
  import opened Common
  import opened ClockRing
  import Lru = LruAging

  datatype Algorithm = Clock | ModifiedClock | LruTimeApprox

  /** A present page-table entry with the contents of its frame. */
  datatype Entry = Entry(data: PageData, used: bool, modified: bool)
  type Table = map<Page, Entry>
  type File = map<Page, PageData>

  /** The process's own view: the last byte it wrote at each address it wrote (or was loaded with). */
  type Flat = imap<(Page, nat), Byte>

  // ---------------------------------------------------------------------------
  // The cache invariant and what each step does to it
  // ---------------------------------------------------------------------------

  predicate LegalFault(p: Page, file: File, stackBottom: int) {
    p in file || Growable(p, stackBottom)
  }

  /** RAM and page file together hold the flat memory: a resident page speaks for itself, an absent one has a file
      copy, and a clean resident page agrees with its file copy, so dropping it loses nothing. */
  ghost predicate Coherent(table: Table, file: File, flat: Flat, stackBottom: int) {
    && (forall q | q in table :: LegalFault(q, file, stackBottom))
    && (forall q | q in table && !table[q].modified && q in file :: table[q].data == file[q])
    && (forall a | a in flat ::
          && a.1 < PAGE_SIZE
          && (if a.0 in table
              then table[a.0].data[a.1] == flat[a] && (table[a.0].modified || a.0 in file)
              else a.0 in file && file[a.0][a.1] == flat[a]))
  }

  function ClearUsed(table: Table, pages: set<Page>): (r: Table)
    ensures r.Keys == table.Keys
  {
    map q | q in table :: if q in pages then table[q].(used := false) else table[q]
  }

  function Used(table: Table): set<Page> {
    set q | q in table && table[q].used
  }

  function Unused(table: Table): set<Page> {
    set q | q in table && !table[q].used
  }

  function Clean(table: Table): set<Page> {
    set q | q in table && !table[q].modified
  }

  function Dirty(table: Table): set<Page> {
    set q | q in table && table[q].modified
  }

  /** The page file after the handler has saved `v`, if it was modified. */
  function WrittenBack(file: File, table: Table, v: Page): File
    requires v in table
  {
    if table[v].modified then file[v := table[v].data] else file
  }

  /** The entry of a newly placed page: its file copy, or whatever the frame held. */
  function Placed(file: File, p: Page, garbage: PageData, used: bool): Entry {
    Entry(if p in file then file[p] else garbage, used, false)
  }

  lemma EvictKeepsCoherence(table: Table, file: File, flat: Flat, sb: int, v: Page)
    requires Coherent(table, file, flat, sb) && v in table
    ensures Coherent(table - {v}, WrittenBack(file, table, v), flat, sb)
  {
  }

  lemma PlaceKeepsCoherence(table: Table, file: File, flat: Flat, sb: int, p: Page, garbage: PageData, used: bool)
    requires Coherent(table, file, flat, sb) && p !in table && LegalFault(p, file, sb)
    ensures Coherent(table[p := Placed(file, p, garbage, used)], file, flat, sb)
  {
  }

  // ---------------------------------------------------------------------------
  // Closed forms of the victims
  // ---------------------------------------------------------------------------

  /** Modified CLOCK: the first unused clean page; else the first unused page; else, all used bits having been
      cleared, the first clean page; else the page at the hand. */
  function ModifiedVictim(ring: seq<Page>, table: Table): (k: nat)
    requires ring != []
    ensures k < |ring|
  {
    var best, unused, clean := First(ring, Unused(table) * Clean(table)), First(ring, Unused(table)), First(ring, Clean(table));
    if best < |ring| then best
    else if unused < |ring| then unused
    else if clean < |ring| then clean
    else 0
  }

  function ModifiedCleared(ring: seq<Page>, table: Table): seq<Page> {
    if First(ring, Unused(table) * Clean(table)) < |ring| then [] else ring[..First(ring, Unused(table))]
  }

  /** The ring without its `k`-th element, read from the one after it. */
  function Without(ring: seq<Page>, k: nat): seq<Page>
    requires k < |ring|
  {
    ring[k + 1..] + ring[..k]
  }

  /** Clearing the used bit of the next ring element extends the cleared prefix. */
  lemma ClearNext(t0: Table, ring: seq<Page>, i: nat)
    requires NoDup(ring) && i < |ring| && ring[i] in t0
    ensures var t := ClearUsed(t0, PagesOf(ring[..i]));
            && t[ring[i]] == t0[ring[i]]
            && t[ring[i] := t0[ring[i]].(used := false)] == ClearUsed(t0, PagesOf(ring[..i + 1]))
  {
  }

  /** What the hand sees after `i` cleared elements; after a full turn the first is no longer used. */
  lemma Look(t0: Table, ring: seq<Page>, i: nat)
    requires NoDup(ring) && 0 < |ring| && i <= |ring| && t0.Keys == PagesOf(ring)
    ensures var t, q := ClearUsed(t0, PagesOf(ring[..i])), ring[if i == |ring| then 0 else i];
            && q in t
            && (t[q].used ==> i < |ring| && q !in Unused(t0)
                              && t[q := t[q].(used := false)] == ClearUsed(t0, PagesOf(ring[..i + 1])))
            && (!t[q].used && i < |ring| ==> q in Unused(t0))
  {
  }

  /** The flat memory of a process as loaded. */
  ghost function Loaded(image: File): Flat {
    imap a: (Page, nat) | a.0 in image && a.1 < PAGE_SIZE :: image[a.0][a.1]
  }

  // ---------------------------------------------------------------------------
  // The victim searches
  // ---------------------------------------------------------------------------

  /** The hand's loop of CLOCK: at most one full turn and one more look. */
  method ClockSearch(ws: seq<Page>, ghost ring: seq<Page>, start: Page, table: Table)
      returns (v: Page, table': Table, inspections: nat)
    requires Walk(ws, ring) && start == ring[0] && table.Keys == PagesOf(ws)
    ensures var k := First(ring, Unused(table));
            && v == ring[if k < |ring| then k else 0]
            && table' == ClearUsed(table, PagesOf(ring[..k]))
    ensures 1 <= inspections <= |ws| + 1
  {
    ghost var n, good := |ws|, Unused(table);
    var hand := start;
    table', inspections := table, 0;
    while true
      invariant inspections <= n
      invariant hand == ring[if inspections == n then 0 else inspections]
      invariant table' == ClearUsed(table, PagesOf(ring[..inspections]))
      invariant forall j | 0 <= j < inspections :: ring[j] !in good
      decreases n - inspections
    {
      ghost var i := inspections;
      inspections := inspections + 1;
      Look(table, ring, i);
      if table'[hand].used {
        table' := table'[hand := table'[hand].(used := false)];
        hand := After(ws, hand);
      } else {
        FirstIs(ring, good, i);
        v := hand;
        return;
      }
    }
  }

  /** Try 1 of modified CLOCK: look once around for a page neither used nor modified. */
  method FindUnusedClean(ws: seq<Page>, ghost ring: seq<Page>, start: Page, table: Table) returns (v: Option<Page>, hand: Page)
    requires Walk(ws, ring) && start == ring[0] && table.Keys == PagesOf(ws)
    ensures var k := First(ring, Unused(table) * Clean(table));
            if k < |ring| then v == Some(ring[k]) && hand == ring[k] else v == None && hand == start
  {
    ghost var n, good := |ws|, Unused(table) * Clean(table);
    v, hand := None, start;
    var checked := 0;
    while checked < |ws|
      invariant checked <= n
      invariant hand == ring[if checked == n then 0 else checked]
      invariant forall j | 0 <= j < checked :: ring[j] !in good
    {
      if !table[hand].used && !table[hand].modified {
        FirstIs(ring, good, checked);
        v := Some(hand);
        return;
      }
      hand := After(ws, hand);
      checked := checked + 1;
    }
    FirstIs(ring, good, n);
  }

  /** Try 2 of modified CLOCK: the ordinary clock, for at most one turn. */
  method FindUnusedClearing(ws: seq<Page>, ghost ring: seq<Page>, start: Page, table: Table) returns (v: Option<Page>, hand: Page, table': Table)
    requires Walk(ws, ring) && start == ring[0] && table.Keys == PagesOf(ws)
    ensures var k := First(ring, Unused(table));
            && table' == ClearUsed(table, PagesOf(ring[..k]))
            && if k < |ring| then v == Some(ring[k]) && hand == ring[k] else v == None && hand == start
  {
    ghost var n, good := |ws|, Unused(table);
    v, hand, table' := None, start, table;
    var checked := 0;
    while checked < |ws|
      invariant checked <= n
      invariant hand == ring[if checked == n then 0 else checked]
      invariant table' == ClearUsed(table, PagesOf(ring[..checked]))
      invariant forall j | 0 <= j < checked :: ring[j] !in good
    {
      ClearNext(table, ring, checked);
      if table'[hand].used {
        table' := table'[hand := table'[hand].(used := false)];
      } else {
        FirstIs(ring, good, checked);
        v := Some(hand);
        return;
      }
      hand := After(ws, hand);
      checked := checked + 1;
    }
    FirstIs(ring, good, n);
  }

  /** What the two tries of the second round see, all used bits having been cleared. */
  lemma SecondRound(ring: seq<Page>, table: Table)
    requires PagesOf(ring) == table.Keys && ring != [] && First(ring, Unused(table)) == |ring|
    ensures var t := ClearUsed(table, PagesOf(ring[..First(ring, Unused(table))]));
            && First(ring, Unused(t) * Clean(t)) == First(ring, Clean(table))
            && First(ring, Unused(t)) == 0
            && ClearUsed(t, PagesOf(ring[..0])) == t
  {
    assert ring[..|ring|] == ring;
    var t := ClearUsed(table, PagesOf(ring));
    assert Unused(t) == table.Keys && Clean(t) == Clean(table);
    assert Unused(t) * Clean(t) == Clean(table);
    assert ring[0] in PagesOf(ring);
  }

  /** What one round of modified CLOCK finds, and the used bits it leaves. */
  function RoundResult(ring: seq<Page>, table: Table): (Option<Page>, Table) {
    var best, unused := First(ring, Unused(table) * Clean(table)), First(ring, Unused(table));
    if best < |ring| then (Some(ring[best]), table)
    else (if unused < |ring| then Some(ring[unused]) else None, ClearUsed(table, PagesOf(ring[..unused])))
  }

  /** The closed form is what at most two rounds find. */
  lemma TwoRounds(ring: seq<Page>, table: Table)
    requires PagesOf(ring) == table.Keys && ring != []
    ensures var found := (Some(ring[ModifiedVictim(ring, table)]), ClearUsed(table, PagesOf(ModifiedCleared(ring, table))));
            var first := RoundResult(ring, table);
            if first.0.Some? then first == found else RoundResult(ring, first.1) == found
  {
    assert ClearUsed(table, PagesOf([])) == table;
    if RoundResult(ring, table).0.None? {
      SecondRound(ring, table);
    }
  }

  /** One round: try 1, then try 2. */
  method Round(ws: seq<Page>, ghost ring: seq<Page>, start: Page, table: Table)
      returns (v: Option<Page>, hand: Page, table': Table)
    requires Walk(ws, ring) && start == ring[0] && table.Keys == PagesOf(ws)
    ensures (v, table') == RoundResult(ring, table) && (v.None? ==> hand == start)
  {
    v, hand := FindUnusedClean(ws, ring, start, table);
    table' := table;
    if v.None? {
      v, hand, table' := FindUnusedClearing(ws, ring, start, table);
    }
  }

  /** Modified CLOCK alternates the two tries; the second round always succeeds. */
  method ModifiedClockSearch(ws: seq<Page>, ghost ring: seq<Page>, start: Page, table: Table)
      returns (v: Page, table': Table, rounds: nat)
    requires Walk(ws, ring) && start == ring[0] && table.Keys == PagesOf(ws)
    ensures v == ring[ModifiedVictim(ring, table)]
    ensures table' == ClearUsed(table, PagesOf(ModifiedCleared(ring, table)))
    ensures 1 <= rounds <= 2
  {
    TwoRounds(ring, table);
    ghost var first := RoundResult(ring, table);
    var victim, hand := None, start;
    table', rounds := table, 0;
    while victim.None?
      invariant rounds <= 2 && (victim.None? ==> hand == start)
      invariant rounds == 0 ==> victim.None? && table' == table
      invariant rounds == 1 ==> (victim, table') == first
      invariant rounds == 2 ==> first.0.None? && (victim, table') == RoundResult(ring, first.1)
      decreases 2 - rounds
    {
      rounds := rounds + 1;
      victim, hand, table' := Round(ws, ring, hand, table');
    }
    v := victim.value;
  }

  /** LRU aging: the first element with the least stamp, as its position in the list. A stamp of UINT_MAX is never
      chosen, so the search comes back empty-handed (`|ws|`), and the handler then follows a null pointer, just when
      every stamp is UINT_MAX. */
  method LruSearch(ws: seq<Page>, stamps: map<Page, nat>) returns (at: nat)
    requires forall j | 0 <= j < |ws| :: ws[j] in stamps && stamps[ws[j]] <= Lru.UINT_MAX
    ensures at <= |ws|
    ensures at == |ws| <==> forall j | 0 <= j < |ws| :: stamps[ws[j]] == Lru.UINT_MAX
    ensures at < |ws| ==>
              && (forall j | 0 <= j < |ws| :: stamps[ws[at]] <= stamps[ws[j]])
              && (forall j | 0 <= j < at :: stamps[ws[at]] < stamps[ws[j]])
  {
    var least, i := Lru.UINT_MAX, 0;
    at := |ws|;
    while i < |ws|
      invariant i <= |ws| && at <= |ws|
      invariant at == |ws| ==> least == Lru.UINT_MAX
      invariant at < |ws| ==> at < i && least == stamps[ws[at]] < Lru.UINT_MAX && forall j | 0 <= j < at :: least < stamps[ws[j]]
      invariant forall j | 0 <= j < i :: least <= stamps[ws[j]]
    {
      if stamps[ws[i]] < least {
        least := stamps[ws[i]];
        at := i;
      }
      i := i + 1;
    }
    assert at < |ws| ==> stamps[ws[at]] < Lru.UINT_MAX;
  }

  /** Rotate the list until the victim is first, then take it off. */
  method RotateAndRemove(ws: seq<Page>, v: Page) returns (ws': seq<Page>)
    requires NoDup(ws) && v in ws
    ensures ws' == From(ws, v)[1..]
  {
    ws' := ws;
    while ws'[0] != v
      invariant NoDup(ws') && v in ws' && From(ws', v) == From(ws, v)
      decreases IndexOf(ws', v)
    {
      RotateKeepsRing(ws', v);
      ws' := ws'[1..] + [ws'[0]];
    }
    ws' := ws'[1..];
  }

  lemma WithoutOne(ring: seq<Page>, k: nat)
    requires NoDup(ring) && k < |ring|
    ensures NoDup(Without(ring, k)) && PagesOf(Without(ring, k)) == PagesOf(ring) - {ring[k]}
  {
  }

  lemma RotationDropsVictim(ws: seq<Page>, h: Page, k: nat)
    requires NoDup(ws) && h in ws && k < |ws|
    ensures From(ws, h)[k] in ws && From(ws, From(ws, h)[k])[1..] == Without(From(ws, h), k)
  {
    hide From, NoDup;
    FromShift(ws, h, k);
    var r := From(ws, h);
    assert (r[k..] + r[..k])[1..] == Without(r, k);
  }

  /** Which ring element gives way, and which lose their used bit. */
  function Chosen(algorithm: Algorithm, ring: seq<Page>, table: Table): (k: nat)
    requires ring != []
    ensures k < |ring|
  {
    if algorithm == ModifiedClock then ModifiedVictim(ring, table) else ClockVictim(ring, Used(table))
  }

  function Cleared(algorithm: Algorithm, ring: seq<Page>, table: Table): seq<Page> {
    if algorithm == ModifiedClock then ModifiedCleared(ring, table) else ClockCleared(ring, Used(table))
  }

  // ---------------------------------------------------------------------------
  // The state of an address space and its steps
  // ---------------------------------------------------------------------------

  datatype Space = Space(
    algorithm: Algorithm, max: nat, stackBottom: int,
    ws: seq<Page>, hand: Option<Page>, stamps: map<Page, nat>, table: Table, file: File)

  /** List, page table and stamps agree, and a full list under a clock has its hand on it. */
  ghost predicate Structure(s: Space) {
    && |s.ws| <= s.max && NoDup(s.ws)
    && s.table.Keys == PagesOf(s.ws) && s.stamps.Keys == PagesOf(s.ws)
    && (s.algorithm != LruTimeApprox && |s.ws| == s.max > 0 ==> s.hand.Some? && s.hand.value in s.ws)
  }

  ghost predicate Aging(stamps: map<Page, nat>, history: map<Page, Lru.History>) {
    && stamps.Keys == history.Keys
    && forall q | q in stamps :: stamps[q] == Lru.Bits(history[q], Lru.WIDTH)
  }

  ghost predicate Invariant(s: Space, flat: Flat, history: map<Page, Lru.History>) {
    && s.max > 0 && Structure(s) && Aging(s.stamps, history)
    && Coherent(s.table, s.file, flat, s.stackBottom)
  }

  lemma Facts(s: Space, flat: Flat, history: map<Page, Lru.History>)
    requires Invariant(s, flat, history)
    ensures |s.ws| <= s.max && s.max > 0 && NoDup(s.ws) && Aging(s.stamps, history)
    ensures s.table.Keys == PagesOf(s.ws) && s.stamps.Keys == PagesOf(s.ws)
    ensures s.algorithm != LruTimeApprox && |s.ws| == s.max ==> s.hand.Some? && s.hand.value in s.ws
  {
  }

  /** What the outside world decides about a fault: what the new frame held before, the used bit that the kernel's copying
      of the page from the disk leaves behind, and whether the page file has a free disk frame. */
  datatype Load = Load(garbage: PageData, used: bool, room: bool)

  /** The page is mapped and joins the tail of the list. */
  function AppendStep(s: Space, p: Page, load: Load): Space {
    s.(ws := s.ws + [p], stamps := s.stamps[p := 0], table := s.table[p := Placed(s.file, p, load.garbage, load.used)])
  }

  /** Placement: the hand is put on the first element when the set has become full. */
  function PlaceStep(s: Space, p: Page, load: Load): Space {
    AppendStep(s, p, load).(hand := if |s.ws| + 1 == s.max then Some((s.ws + [p])[0]) else None)
  }

  /** Eviction: save the victim if it is dirty, unmap it and drop its element; `rest` is the list without it. */
  function DropStep(s: Space, v: Page, rest: seq<Page>): Space
    requires v in s.table
  {
    s.(ws := rest, stamps := s.stamps - {v}, table := s.table - {v}, file := WrittenBack(s.file, s.table, v))
  }

  lemma PlaceKeepsStructure(s: Space, p: Page, load: Load)
    requires Structure(s) && |s.ws| < s.max && p !in s.table
    ensures Structure(PlaceStep(s, p, load))
    ensures s.algorithm == LruTimeApprox ==> Structure(AppendStep(s, p, load))
  {
  }

  lemma PlaceKeepsAging(stamps: map<Page, nat>, history: map<Page, Lru.History>, p: Page)
    requires Aging(stamps, history)
    ensures Aging(stamps[p := 0], history[p := []])
  {
  }

  lemma PlaceKeepsInvariant(s: Space, flat: Flat, history: map<Page, Lru.History>, p: Page, load: Load)
    requires Invariant(s, flat, history) && |s.ws| < s.max && p !in s.table && LegalFault(p, s.file, s.stackBottom)
    ensures Invariant(PlaceStep(s, p, load), flat, history[p := []])
    ensures s.algorithm == LruTimeApprox ==> Invariant(AppendStep(s, p, load), flat, history[p := []])
  {
    PlaceKeepsStructure(s, p, load);
    PlaceKeepsAging(s.stamps, history, p);
    PlaceKeepsCoherence(s.table, s.file, flat, s.stackBottom, p, load.garbage, load.used);
  }

  lemma DropKeepsInvariant(s: Space, flat: Flat, history: map<Page, Lru.History>, v: Page, rest: seq<Page>)
    requires Invariant(s, flat, history) && v in s.table
    requires NoDup(rest) && PagesOf(rest) == PagesOf(s.ws) - {v} && |rest| < s.max
    ensures Invariant(DropStep(s, v, rest), flat, history - {v})
  {
    EvictKeepsCoherence(s.table, s.file, flat, s.stackBottom, v);
  }

  // ---------------------------------------------------------------------------
  // The replacement step and the fault as a whole
  // ---------------------------------------------------------------------------

  /** A replacement under a clock: used bits cleared, victim saved and dropped, the list left as the rotation leaves it. */
  function ClockEvict(s: Space): Space
    requires s.hand.Some? && s.hand.value in s.ws && s.table.Keys == PagesOf(s.ws)
  {
    var ring := From(s.ws, s.hand.value);
    var k := Chosen(s.algorithm, ring, s.table);
    assert ring[k] in PagesOf(s.ws) by { RingPages(s.ws, IndexOf(s.ws, s.hand.value)); assert ring[k] in PagesOf(ring); }
    DropStep(s.(table := ClearUsed(s.table, PagesOf(Cleared(s.algorithm, ring, s.table)))), ring[k], Without(ring, k))
  }

  lemma ClearKeepsCoherence(table: Table, file: File, flat: Flat, sb: int, pages: set<Page>)
    requires Coherent(table, file, flat, sb)
    ensures Coherent(ClearUsed(table, pages), file, flat, sb)
  {
  }

  lemma ClockEvictKeepsInvariant(s: Space, flat: Flat, history: map<Page, Lru.History>)
    requires Invariant(s, flat, history) && |s.ws| == s.max && s.algorithm != LruTimeApprox
    ensures var ring := From(s.ws, s.hand.value);
            Invariant(ClockEvict(s), flat, history - {ring[Chosen(s.algorithm, ring, s.table)]})
  {
    var h := s.hand.value;
    var ring := From(s.ws, h);
    var k := Chosen(s.algorithm, ring, s.table);
    RingPages(s.ws, IndexOf(s.ws, h));
    RingDistinct(s.ws, IndexOf(s.ws, h));
    WithoutOne(ring, k);
    var cleared := PagesOf(Cleared(s.algorithm, ring, s.table));
    ClearKeepsCoherence(s.table, s.file, flat, s.stackBottom, cleared);
    assert ring[k] in PagesOf(ring);
    DropKeepsInvariant(s.(table := ClearUsed(s.table, cleared)), flat, history, ring[k], Without(ring, k));
  }

  lemma HandIsFree(s: Space, hand: Option<Page>, flat: Flat, history: map<Page, Lru.History>)
    requires Invariant(s, flat, history) && |s.ws| < s.max
    ensures Invariant(s.(hand := hand), flat, history)
  {
  }

  lemma ClockChoice(ring: seq<Page>, table: Table)
    requires table.Keys == PagesOf(ring) && ring != []
    ensures var k := First(ring, Unused(table));
            ClockVictim(ring, Used(table)) == (if k < |ring| then k else 0) && ClockCleared(ring, Used(table)) == ring[..k]
  {
  }

  /** Both clocks' search together with the list rotation that follows it. */
  method SearchAndRotate(algorithm: Algorithm, ws: seq<Page>, hand: Page, table: Table)
      returns (v: Page, table': Table, rest: seq<Page>)
    requires NoDup(ws) && hand in ws && table.Keys == PagesOf(ws)
    ensures var ring := From(ws, hand);
            var k := Chosen(algorithm, ring, table);
            && v in ws && v == ring[k] && rest == Without(ring, k)
            && table' == ClearUsed(table, PagesOf(Cleared(algorithm, ring, table)))
    ensures |rest| < |ws| && table'.Keys == table.Keys && v in table'
  {
    ghost var ring := From(ws, hand);
    FromIsWalk(ws, hand);
    if algorithm == ModifiedClock {
      var rounds;
      v, table', rounds := ModifiedClockSearch(ws, ring, hand, table);
    } else {
      var inspections;
      ClockChoice(ring, table);
      v, table', inspections := ClockSearch(ws, ring, hand, table);
    }
    RotationDropsVictim(ws, hand, Chosen(algorithm, ring, table));
    rest := RotateAndRemove(ws, v);
  }

  lemma RemoveAtPages(ws: seq<Page>, i: nat)
    requires NoDup(ws) && i < |ws|
    ensures NoDup(RemoveAt(ws, i)) && PagesOf(RemoveAt(ws, i)) == PagesOf(ws) - {ws[i]}
  {
  }

  /** The victim LRU aging takes: the first of the pages with the least stamp. */
  ghost predicate LeastRecent(s: Space, i: nat)
    requires s.stamps.Keys == PagesOf(s.ws)
  {
    && i < |s.ws|
    && (forall j | 0 <= j < |s.ws| :: s.stamps[s.ws[i]] <= s.stamps[s.ws[j]])
    && (forall j | 0 <= j < i :: s.stamps[s.ws[i]] < s.stamps[s.ws[j]])
  }

  /** The same in terms of use: no page has an older history over the last 32 ticks, and every page before it in the list
      has a more recent one. */
  ghost predicate LeastHistory(s: Space, history: map<Page, Lru.History>, i: nat)
    requires history.Keys == PagesOf(s.ws)
  {
    && i < |s.ws|
    && (forall j | 0 <= j < |s.ws| :: !Lru.Older(history[s.ws[j]], history[s.ws[i]], Lru.WIDTH))
    && (forall j | 0 <= j < i :: Lru.Older(history[s.ws[i]], history[s.ws[j]], Lru.WIDTH))
  }

  /** The page of least stamp is the page of least history. */
  lemma LeastStampIsLeastHistory(s: Space, flat: Flat, history: map<Page, Lru.History>, i: nat)
    requires Invariant(s, flat, history) && LeastRecent(s, i)
    ensures LeastHistory(s, history, i)
  {
    var v := s.ws[i];
    assert v in s.stamps;
    forall j | 0 <= j < |s.ws|
      ensures !Lru.Older(history[s.ws[j]], history[v], Lru.WIDTH)
      ensures j < i ==> Lru.Older(history[v], history[s.ws[j]], Lru.WIDTH) {
      var q := s.ws[j];
      assert q in s.stamps;
      Lru.StampOrderIsRecency(history[q], history[v], Lru.WIDTH);
      Lru.StampOrderIsRecency(history[v], history[q], Lru.WIDTH);
    }
  }

  /** Saving the page takes a new disk frame. */
  ghost predicate Unsaved(s: Space, v: Page) {
    v in s.table && s.table[v].modified && v !in s.file
  }

  /** A fault would evict a page that needs a new disk frame. */
  ghost predicate MustSave(s: Space)
    requires Structure(s) && s.max > 0
  {
    |s.ws| == s.max &&
    if s.algorithm == LruTimeApprox then !NoVictim(s) && exists i: nat :: LeastRecent(s, i) && Unsaved(s, s.ws[i])
    else var ring := From(s.ws, s.hand.value); Unsaved(s, ring[Chosen(s.algorithm, ring, s.table)])
  }

  /** The state in which the LRU branch finds no victim: the set is full and every stamp is UINT_MAX. */
  ghost predicate NoVictim(s: Space) {
    && s.algorithm == LruTimeApprox && |s.ws| == s.max
    && forall j | 0 <= j < |s.ws| :: s.ws[j] in s.stamps && s.stamps[s.ws[j]] == Lru.UINT_MAX
  }

  /** An access that the run does not survive: illegal, or a fault for which LRU finds no victim, or one whose victim needs a
      disk frame when there is none. */
  ghost predicate EndsRun(s: Space, op: Op, load: Load)
    requires Structure(s) && s.max > 0
  {
    && !op.Tick? && op.page !in s.table
    && (!LegalFault(op.page, s.file, s.stackBottom) || NoVictim(s) || (!load.room && MustSave(s)))
  }

  /** All that a fault has changed before it fails: the hand, and used bits. */
  ghost predicate SameButBits(s: Space, t: Space) {
    && t == s.(hand := t.hand, table := t.table) && t.table.Keys == s.table.Keys
    && forall q | q in s.table :: t.table[q].data == s.table[q].data && t.table[q].modified == s.table[q].modified
  }

  /** In terms of what a process does: every resident page was used at each of the last 32 ticks. */
  lemma NoVictimMeansAlwaysUsed(s: Space, flat: Flat, history: map<Page, Lru.History>)
    requires Invariant(s, flat, history) && s.algorithm == LruTimeApprox && |s.ws| == s.max
    ensures NoVictim(s) <==>
            forall q | q in history :: |history[q]| >= Lru.WIDTH && forall t | 0 <= t < Lru.WIDTH :: history[q][t]
  {
    Lru.Pow2Of31();
    forall q | q in history
      ensures s.stamps[q] == Lru.UINT_MAX <==>
              |history[q]| >= Lru.WIDTH && forall t | 0 <= t < Lru.WIDTH :: history[q][t]
    {
      Lru.FullStamp(history[q], Lru.WIDTH);
    }
    if forall q | q in history :: s.stamps[q] == Lru.UINT_MAX {
      forall j | 0 <= j < |s.ws| ensures s.ws[j] in s.stamps && s.stamps[s.ws[j]] == Lru.UINT_MAX {
        var q := s.ws[j];
        assert q in history;
      }
    }
    if NoVictim(s) {
      forall q | q in history ensures s.stamps[q] == Lru.UINT_MAX {
        var j :| 0 <= j < |s.ws| && s.ws[j] == q;
      }
    }
  }

  lemma StampsFit(ws: seq<Page>, stamps: map<Page, nat>, history: map<Page, Lru.History>)
    requires Aging(stamps, history) && stamps.Keys == PagesOf(ws)
    ensures forall j | 0 <= j < |ws| :: ws[j] in stamps && stamps[ws[j]] <= Lru.UINT_MAX
  {
    Lru.Pow2Of31();
    forall j | 0 <= j < |ws| ensures ws[j] in stamps && stamps[ws[j]] <= Lru.UINT_MAX {
      var q := ws[j];
      assert q in stamps;
      assert stamps[q] == Lru.Bits(history[q], Lru.WIDTH);
    }
  }

  /** LRU replacement: the victim leaves, the new page joins the tail marked used. */
  ghost function LruReplace(s: Space, i: nat, p: Page, garbage: PageData): Space
    requires i < |s.ws| && s.table.Keys == PagesOf(s.ws)
  {
    assert s.ws[i] in PagesOf(s.ws);
    AppendStep(DropStep(s, s.ws[i], RemoveAt(s.ws, i)), p, Load(garbage, true, true))
  }

  lemma LruReplaceKeepsInvariant(s: Space, flat: Flat, history: map<Page, Lru.History>, i: nat, p: Page, garbage: PageData)
    requires Invariant(s, flat, history) && s.algorithm == LruTimeApprox && i < |s.ws|
    requires p !in s.table && LegalFault(p, s.file, s.stackBottom)
    ensures Invariant(LruReplace(s, i, p, garbage), flat, (history - {s.ws[i]})[p := []])
  {
    assert s.ws[i] in PagesOf(s.ws);
    RemoveAtPages(s.ws, i);
    DropKeepsInvariant(s, flat, history, s.ws[i], RemoveAt(s.ws, i));
    PlaceKeepsInvariant(DropStep(s, s.ws[i], RemoveAt(s.ws, i)), flat, history - {s.ws[i]}, p, Load(garbage, true, true));
  }

  // ---------------------------------------------------------------------------
  // The whole CLOCK fault against the circular-buffer clock
  // ---------------------------------------------------------------------------

  lemma FromHead(ws: seq<Page>)
    requires ws != []
    ensures From(ws, ws[0]) == ws
  {
  }

  /** If the list read from the hand is the buffer read from its hand, it still is after a fault under either clock:
      the victim's slot holds the new page and the hand is one past it, the used bits passed are cleared, and the new
      page has the bit its loading left. Under CLOCK the slot and the bits are those of the buffer clock's sweep. */
  lemma ClockFaultIsBufferStep(s: Space, buf: seq<Page>, h: nat, p: Page, load: Load)
    requires Structure(s) && s.algorithm != LruTimeApprox && |s.ws| == s.max > 0 && p !in s.table
    requires NoDup(buf) && h < |buf| && From(s.ws, s.hand.value) == RingAt(buf, h)
    ensures var s', ring := PlaceStep(ClockEvict(s), p, load), RingAt(buf, h);
            var v := Slot(h, Chosen(s.algorithm, ring, s.table), |buf|);
            var left := Used(s.table) - PagesOf(Cleared(s.algorithm, ring, s.table));
            && s'.hand.Some? && s'.hand.value in s'.ws
            && From(s'.ws, s'.hand.value) == RingAt(buf[v := p], Slot(v, 1, |buf|))
            && Used(s'.table) == (if load.used then left + {p} else left)
            && (s.algorithm == Clock ==> Sweep(buf, h, Used(s.table)) == (v, left))
  {
    hide NoDup, RingAt, From, Chosen, Cleared, Used, ClearUsed, PagesOf, Sweep, Slot;
    var ring := RingAt(buf, h);
    var k, cleared := Chosen(s.algorithm, ring, s.table), PagesOf(Cleared(s.algorithm, ring, s.table));
    RingLength(buf, h);
    ReplaceInPlace(buf, h, k, p);
    VictimUnused(s.algorithm, ring, s.table);
    if s.algorithm == Clock {
      ClockSlot(buf, h, s.table, p);
    }
    var s1 := ClockEvict(s);
    var s' := PlaceStep(s1, p, load);
    assert s'.ws == ring[k + 1..] + ring[..k] + [p];
    FromHead(s'.ws);
    assert s'.table == (ClearUsed(s.table, cleared) - {ring[k]})[p := Placed(s1.file, p, load.garbage, load.used)];
    UsedAfter(s.table, cleared, ring[k], p, Placed(s1.file, p, load.garbage, load.used));
  }

  lemma RingLength(buf: seq<Page>, h: nat)
    requires h < |buf|
    ensures |RingAt(buf, h)| == |buf|
  {
  }

  lemma ClockSlot(buf: seq<Page>, h: nat, table: Table, p: Page)
    requires NoDup(buf) && h < |buf|
    ensures var ring := RingAt(buf, h);
            Sweep(buf, h, Used(table))
            == (Slot(h, Chosen(Clock, ring, table), |buf|), Used(table) - PagesOf(Cleared(Clock, ring, table)))
  {
    ClockRefinesBuffer(buf, h, Used(table), p);
  }

  lemma UsedAfter(table: Table, cleared: set<Page>, v: Page, p: Page, e: Entry)
    requires v !in Used(table) - cleared && p !in table
    ensures Used((ClearUsed(table, cleared) - {v})[p := e])
            == if e.used then Used(table) - cleared + {p} else Used(table) - cleared
  {
  }

  /** Neither clock evicts a page that keeps its used bit. */
  lemma VictimUnused(algorithm: Algorithm, ring: seq<Page>, table: Table)
    requires ring != []
    ensures ring[Chosen(algorithm, ring, table)] !in Used(table) - PagesOf(Cleared(algorithm, ring, table))
  {
  }

  // ---------------------------------------------------------------------------
  // User accesses and clock ticks
  // ---------------------------------------------------------------------------

  datatype Op = Read(page: Page, offset: nat) | Write(page: Page, offset: nat, byte: Byte) | Tick {
    predicate Wf() {
      Tick? || offset < PAGE_SIZE
    }
  }

  /** A user access: the hardware sets the used bit, and on a write the modified bit. */
  function AccessStep(s: Space, op: Op): Space
    requires !op.Tick? && op.Wf() && op.page in s.table
  {
    var e := s.table[op.page];
    var e' := if op.Read? then e.(used := true) else Entry(e.data[op.offset := op.byte], true, true);
    s.(table := s.table[op.page := e'])
  }

  /** Flat memory under the same operations: no pages, no faults, no clock. */
  ghost function FlatStep(flat: Flat, op: Op): Flat {
    if op.Write? then flat[(op.page, op.offset) := op.byte] else flat
  }

  /** The pages that a sequence of operations writes. */
  ghost function PagesWritten(ops: seq<Op>): set<Page> {
    set i | 0 <= i < |ops| && ops[i].Write? :: ops[i].page
  }

  ghost function FlatAfter(flat: Flat, ops: seq<Op>): Flat
    decreases |ops|
  {
    if ops == [] then flat else FlatStep(FlatAfter(flat, ops[..|ops| - 1]), ops[|ops| - 1])
  }

  /** One aging tick over the whole working set. */
  function TickStep(s: Space): Space
    requires s.table.Keys == s.stamps.Keys
  {
    s.(stamps := map q | q in s.stamps :: Lru.Aged(s.stamps[q], s.table[q].used), table := ClearUsed(s.table, s.table.Keys))
  }

  ghost function TickHistory(history: map<Page, Lru.History>, table: Table): map<Page, Lru.History>
    requires history.Keys == table.Keys
  {
    map q | q in history :: [table[q].used] + history[q]
  }

  lemma AccessKeepsCoherence(s: Space, flat: Flat, op: Op)
    requires Coherent(s.table, s.file, flat, s.stackBottom) && !op.Tick? && op.Wf() && op.page in s.table
    ensures Coherent(AccessStep(s, op).table, s.file, FlatStep(flat, op), s.stackBottom)
  {
  }

  lemma AccessKeepsInvariant(s: Space, flat: Flat, history: map<Page, Lru.History>, op: Op)
    requires Invariant(s, flat, history) && !op.Tick? && op.Wf() && op.page in s.table
    ensures Invariant(AccessStep(s, op), FlatStep(flat, op), history)
    ensures op.Read? && (op.page, op.offset) in flat ==> s.table[op.page].data[op.offset] == flat[(op.page, op.offset)]
  {
    AccessKeepsCoherence(s, flat, op);
    assert AccessStep(s, op).table.Keys == s.table.Keys;
  }

  lemma TickKeepsAging(s: Space, history: map<Page, Lru.History>)
    requires Aging(s.stamps, history) && s.table.Keys == s.stamps.Keys
    ensures Aging(TickStep(s).stamps, TickHistory(history, s.table))
  {
    forall q | q in s.stamps
      ensures Lru.Aged(s.stamps[q], s.table[q].used) == Lru.Bits([s.table[q].used] + history[q], Lru.WIDTH)
    {
      Lru.AgedIsHistory(history[q], s.table[q].used);
    }
  }

  lemma TickKeepsInvariant(s: Space, flat: Flat, history: map<Page, Lru.History>)
    requires Invariant(s, flat, history)
    ensures Invariant(TickStep(s), flat, TickHistory(history, s.table))
  {
    TickKeepsAging(s, history);
    ClearKeepsCoherence(s.table, s.file, flat, s.stackBottom, s.table.Keys);
  }

  // ---------------------------------------------------------------------------
  // The address space
  // ---------------------------------------------------------------------------

  /** The bits say what the process has done: a page is modified exactly if it was written since it was placed, and used
      exactly if it was accessed since it was placed, last aged, or last passed by the hand. */
  ghost predicate BitsOk(table: Table, written: set<Page>, accessed: set<Page>) {
    Dirty(table) == written && Used(table) == accessed
  }

  lemma BitsPlaced(table: Table, written: set<Page>, accessed: set<Page>, p: Page, data: PageData, used: bool)
    requires BitsOk(table, written, accessed)
    ensures BitsOk(table[p := Entry(data, used, false)], written - {p}, if used then accessed + {p} else accessed - {p})
  {
  }

  lemma BitsDropped(table: Table, written: set<Page>, accessed: set<Page>, v: Page)
    requires BitsOk(table, written, accessed)
    ensures BitsOk(table - {v}, written - {v}, accessed - {v})
  {
  }

  lemma BitsCleared(table: Table, written: set<Page>, accessed: set<Page>, pages: set<Page>)
    requires BitsOk(table, written, accessed)
    ensures BitsOk(ClearUsed(table, pages), written, accessed - pages)
  {
  }

  lemma NoneAccessed(table: Table, written: set<Page>, accessed: set<Page>)
    requires BitsOk(table, written, accessed)
    ensures accessed - table.Keys == {}
  {
  }

  lemma BitsAccessed(table: Table, written: set<Page>, accessed: set<Page>, p: Page, data: PageData)
    requires BitsOk(table, written, accessed) && p in table
    ensures BitsOk(table[p := table[p].(used := true)], written, accessed + {p})
    ensures BitsOk(table[p := Entry(data, true, true)], written + {p}, accessed + {p})
  {
  }

  /** The page file is the same but for pages of `pages`. */
  ghost predicate SameFile(file: File, file': File, pages: set<Page>) {
    forall q | q !in pages :: (q in file' <==> q in file) && (q in file ==> file'[q] == file[q])
  }

  lemma SameFileAsItself(file: File, pages: set<Page>)
    ensures SameFile(file, file, pages)
  {
  }

  lemma SameFileTwice(f0: File, f1: File, f2: File, S: set<Page>, T: set<Page>, U: set<Page>)
    requires SameFile(f0, f1, S) && SameFile(f1, f2, T) && S <= U && T <= U
    ensures SameFile(f0, f2, U)
  {
  }

  lemma CleanPage(table: Table, written: set<Page>, accessed: set<Page>, p: Page)
    requires BitsOk(table, written, accessed) && p in table && p !in written
    ensures !table[p].modified
  {
  }

  /** How a page fault ends. */
  datatype Outcome = Done | NullVictim | DiskFull

  /** Clearing used bits does not change what must be saved. */
  lemma ClearedUnsaved(table: Table, file: File, pages: set<Page>, v: Page)
    requires v in table
    ensures v in ClearUsed(table, pages) && ClearUsed(table, pages)[v].modified == table[v].modified
  {
  }

  lemma ClearedBits(s: Space, hand: Option<Page>, pages: set<Page>)
    ensures SameButBits(s, s.(hand := hand, table := ClearUsed(s.table, pages)))
  {
  }

  /** There is one page of least stamp that comes first. */
  lemma LruMustSave(s: Space, i: nat)
    requires Structure(s) && s.algorithm == LruTimeApprox && |s.ws| == s.max > 0 && LeastRecent(s, i) && !NoVictim(s)
    ensures MustSave(s) <==> Unsaved(s, s.ws[i])
  {
    hide NoVictim, NoDup;
    forall j: nat | LeastRecent(s, j) ensures j == i {
      assert s.stamps[s.ws[i]] <= s.stamps[s.ws[j]] <= s.stamps[s.ws[i]];
    }
  }

  lemma LruNeverSaves(s: Space)
    requires Structure(s) && s.max > 0 && NoVictim(s)
    ensures !MustSave(s)
  {
  }

  lemma LruReplaced(s: Space, i: nat, p: Page, garbage: PageData, s': Space)
    requires i < |s.ws| && s.table.Keys == PagesOf(s.ws) && s.ws[i] in s.table
    requires s' == AppendStep(DropStep(s, s.ws[i], RemoveAt(s.ws, i)), p, Load(garbage, true, true))
    ensures s' == LruReplace(s, i, p, garbage)
  {
  }

  lemma StructureOf(s: Space, flat: Flat, history: map<Page, Lru.History>)
    requires Invariant(s, flat, history)
    ensures Structure(s)
  {
  }

  lemma CoherenceOf(s: Space, flat: Flat, history: map<Page, Lru.History>)
    requires Invariant(s, flat, history)
    ensures s.max > 0 && Structure(s) && Coherent(s.table, s.file, flat, s.stackBottom)
  {
  }

  class AddressSpace {
    const algorithm: Algorithm
    const max: nat
    const stackBottom: int
    var ws: seq<Page>
    var hand: Option<Page>
    var stamps: map<Page, nat>
    var table: Table
    var file: File
    ghost var flat: Flat
    ghost var history: map<Page, Lru.History>
    ghost var written: set<Page>
    ghost var accessed: set<Page>

    ghost function View(): Space
      reads this
    {
      Space(algorithm, max, stackBottom, ws, hand, stamps, table, file)
    }

    ghost predicate Valid()
      reads this
    {
      Invariant(View(), flat, history) && BitsOk(table, written, accessed)
    }

    /** A process whose image is in the page file, none of it resident yet. */
    constructor (algorithm: Algorithm, max: nat, stackBottom: int, image: File)
      requires 0 < max
      ensures Valid() && View() == Space(algorithm, max, stackBottom, [], None, map[], map[], image)
      ensures flat == Loaded(image) && written == {}
    {
      this.algorithm, this.max, this.stackBottom := algorithm, max, stackBottom;
      ws, hand, stamps, table, file := [], None, map[], map[], image;
      flat := Loaded(image);
      history := map[];
      written, accessed := {}, {};
    }

    /** Save the victim if it is dirty, then unmap it and free its element. Without room for a page that is not in the
        page file yet the kernel panics. */
    method Drop(v: Page, room: bool) returns (full: bool)
      requires v in table
      modifies this`table, this`file, this`stamps, this`history, this`written, this`accessed
      ensures full <==> !room && old(Unsaved(View(), v))
      ensures full ==> View() == old(View()) && history == old(history)
      ensures !full ==> View() == old(DropStep(View(), v, ws)) && history == old(history) - {v}
      ensures !full && old(BitsOk(table, written, accessed)) ==> BitsOk(table, written, accessed)
      ensures written <= old(written) && (old(BitsOk(table, written, accessed)) ==> SameFile(old(file), file, old(written)))
    {
      if BitsOk(table, written, accessed) {
        BitsDropped(table, written, accessed, v);
      }
      if table[v].modified {
        if v !in file && !room {
          return true;
        }
        file := file[v := table[v].data];
      }
      table := table - {v};
      stamps := stamps - {v};
      history := history - {v};
      written, accessed := written - {v}, accessed - {v};
      return false;
    }

    /** Map a frame for the page, fill it from the page file if it is there, and append its element. */
    method Map(p: Page, load: Load)
      modifies this`table, this`ws, this`stamps, this`history, this`written, this`accessed
      ensures View() == old(AppendStep(View(), p, load)) && history == old(history)[p := []]
      ensures old(BitsOk(table, written, accessed)) ==> BitsOk(table, written, accessed)
      ensures written == old(written) - {p}
    {
      var data := load.garbage;
      if p in file {
        data := file[p];
      }
      if BitsOk(table, written, accessed) {
        BitsPlaced(table, written, accessed, p, data, load.used);
      }
      table := table[p := Entry(data, load.used, false)];
      ws := ws + [p];
      stamps := stamps[p := 0];
      history := history[p := []];
      written, accessed := written - {p}, if load.used then accessed + {p} else accessed - {p};
    }

    /** The placement branch. */
    method Placement(p: Page, load: Load)
      requires Valid() && |ws| < max && p !in table && LegalFault(p, file, stackBottom)
      modifies this
      ensures Valid() && flat == old(flat) && View() == old(PlaceStep(View(), p, load))
      ensures written == old(written) - {p}
    {
      hide Invariant, NoDup, Aging, BitsOk;
      PlaceKeepsInvariant(View(), flat, history, p, load);
      Map(p, load);
      hand := if |ws| == max then Some(ws[0]) else None;
    }

    /** The search for a victim of both clocks, with the list as it is rotated and cut there. */
    method TurnHand() returns (v: Page, rest: seq<Page>)
      requires Structure(View()) && |ws| == max > 0 && algorithm != LruTimeApprox && BitsOk(table, written, accessed)
      modifies this`table, this`accessed, this`hand
      ensures var ring := From(ws, old(hand).value);
              var k := Chosen(algorithm, ring, old(table));
              && v in ws && v == ring[k] && rest == Without(ring, k)
              && table == ClearUsed(old(table), PagesOf(Cleared(algorithm, ring, old(table))))
      ensures |rest| < |ws| && table.Keys == old(table.Keys) && v in table
      ensures Unsaved(View(), v) <==> old(Unsaved(View(), v))
      ensures BitsOk(table, written, accessed)
    {
      hide NoDup, From, Chosen, Cleared, Without, ClearUsed, After, BitsOk;
      var cleared;
      v, cleared, rest := SearchAndRotate(algorithm, ws, hand.value, table);
      ghost var passed := PagesOf(Cleared(algorithm, From(ws, hand.value), table));
      ClearedUnsaved(table, file, passed, v);
      BitsCleared(table, written, accessed, passed);
      table, accessed := cleared, accessed - passed;
      hand := Some(if algorithm == Clock then v else After(ws, v));
    }

    /** The replacement half of the CLOCK and modified CLOCK branches: the victim is found, saved, unmapped and taken
        off the rotated list. */
    method ClockReplacement(room: bool) returns (full: bool)
      requires Valid() && algorithm != LruTimeApprox && |ws| == max
      modifies this
      ensures flat == old(flat) && (full <==> !room && old(MustSave(View())))
      ensures full ==> SameButBits(old(View()), View())
      ensures !full ==> Valid() && View() == old(ClockEvict(View())).(hand := hand)
      ensures !full ==> |ws| < old(|ws|) && table.Keys <= old(table.Keys) && old(file.Keys) <= file.Keys
      ensures written <= old(written) && SameFile(old(file), file, old(written))
    {
      hide Invariant, NoDup, Aging, From, Chosen, Cleared, Without, ClearUsed, After, PagesOf, SameButBits, BitsOk, SameFile;
      Facts(View(), flat, history);
      ClockEvictKeepsInvariant(View(), flat, history);
      ghost var s0 := View();
      var v, rest := TurnHand();
      full := Drop(v, room);
      if !full {
        ws := rest;
        HandIsFree(ClockEvict(s0), hand, flat, history);
      } else {
        ClearedBits(s0, hand, PagesOf(Cleared(algorithm, From(s0.ws, s0.hand.value), s0.table)));
      }
    }

    /** The LRU branch. */
    method LruReplacement(p: Page, load: Load) returns (outcome: Outcome)
      requires Valid() && algorithm == LruTimeApprox && |ws| == max && p !in table && LegalFault(p, file, stackBottom)
      modifies this
      ensures outcome == NullVictim <==> old(NoVictim(View()))
      ensures outcome == DiskFull <==> !load.room && old(MustSave(View()))
      ensures flat == old(flat) && (outcome != Done ==> View() == old(View()))
      ensures outcome == Done ==>
                && Valid() && p in table
                && exists i | old(LeastRecent(View(), i)) ::
                     old(LeastHistory(View(), history, i)) && View() == old(LruReplace(View(), i, p, load.garbage))
      ensures written <= old(written) && SameFile(old(file), file, old(written)) && (outcome == Done ==> p !in written)
    {
      hide Invariant, NoDup, Aging, Placed, WrittenBack, PagesOf, LeastHistory, MustSave, Unsaved, LruReplace, Structure;
      hide BitsOk, SameFile;
      SameFileAsItself(file, written);
      Facts(View(), flat, history);
      StampsFit(ws, stamps, history);
      StructureOf(View(), flat, history);
      var i := LruSearch(ws, stamps);
      if i == |ws| {
        LruNeverSaves(View());
        return NullVictim;
      }
      LeastStampIsLeastHistory(View(), flat, history, i);
      LruReplaceKeepsInvariant(View(), flat, history, i, p, load.garbage);
      var v := ws[i];
      assert v in stamps;
      LruMustSave(View(), i);
      ghost var s0 := View();
      var full := Drop(v, load.room);
      if full {
        return DiskFull;
      }
      ws := RemoveAt(ws, i);
      Map(p, Load(load.garbage, true, true));
      LruReplaced(s0, i, p, load.garbage, View());
      return Done;
    }

    /** page_fault_handler on a legal fault; `depth` counts its recursive calls. It ends early when LRU finds no victim,
        which dereferences a null pointer, or when a victim must be saved and the page file is full, which panics. */
    method PageFaultHandler(p: Page, load: Load) returns (outcome: Outcome, depth: nat)
      requires Valid() && p !in table && LegalFault(p, file, stackBottom)
      modifies this
      ensures flat == old(flat) && (outcome == Done ==> Valid() && p in table)
      ensures outcome == NullVictim <==> old(NoVictim(View()))
      ensures outcome == DiskFull <==> !load.room && old(MustSave(View()))
      ensures outcome == NullVictim ==> View() == old(View())
      ensures outcome == DiskFull ==> SameButBits(old(View()), View())
      ensures outcome == Done ==> !table[p].modified && p !in written
      ensures written <= old(written) && SameFile(old(file), file, old(written))
      ensures old(|ws| < max) ==> depth == 0 && View() == old(PlaceStep(View(), p, load))
      ensures old(|ws| == max && algorithm != LruTimeApprox) && outcome == Done ==>
                depth == 1 && View() == old(PlaceStep(ClockEvict(View()), p, load))
      ensures old(|ws| == max && algorithm == LruTimeApprox) && outcome == Done ==>
                exists i | old(LeastRecent(View(), i)) ::
                  old(LeastHistory(View(), history, i)) && View() == old(LruReplace(View(), i, p, load.garbage))
      decreases |ws|
    {
      hide Invariant, NoDup, Aging, ClockEvict, LruReplace, LeastRecent, LeastHistory, PagesOf, From, Chosen, BitsOk;
      hide SameFile;
      SameFileAsItself(file, written);
      Facts(View(), flat, history);
      outcome, depth := Done, 0;
      if |ws| < max {
        Placement(p, load);
      } else if algorithm != LruTimeApprox {
        var full := ClockReplacement(load.room);
        if full {
          return DiskFull, 0;
        }
        ghost var file1, written1 := file, written;
        outcome, depth := PageFaultHandler(p, load);
        depth := depth + 1;
        SameFileTwice(old(file), file1, file, old(written), written1, old(written));
      } else {
        outcome := LruReplacement(p, load);
      }
      if outcome == Done {
        CleanPage(table, written, accessed, p);
      }
    }

    // --- the process at work -------------------------------------------------

    /** A user access to a resident page. */
    method Access(op: Op) returns (b: Byte)
      requires Valid() && !op.Tick? && op.Wf() && op.page in table
      modifies this`table, this`flat, this`written, this`accessed
      ensures Valid() && flat == old(FlatStep(flat, op)) && View() == old(AccessStep(View(), op))
      ensures written == if op.Write? then old(written) + {op.page} else old(written)
      ensures op.Read? && (op.page, op.offset) in old(flat) ==> b == old(flat)[(op.page, op.offset)]
    {
      hide Invariant, BitsOk;
      AccessKeepsInvariant(View(), flat, history, op);
      var e := table[op.page];
      BitsAccessed(table, written, accessed, op.page, if op.Write? then e.data[op.offset := op.byte] else e.data);
      b := e.data[op.offset];
      if op.Read? {
        table := table[op.page := e.(used := true)];
      } else {
        table := table[op.page := Entry(e.data[op.offset := op.byte], true, true)];
        written := written + {op.page};
      }
      accessed := accessed + {op.page};
      flat := FlatStep(flat, op);
    }

    /** update_WS_time_stamps. */
    method UpdateTimeStamps()
      requires Valid()
      modifies this`table, this`stamps, this`history, this`accessed
      ensures Valid() && View() == old(TickStep(View())) && history == old(TickHistory(history, table))
    {
      hide Invariant, Aging, PagesOf, NoDup, BitsOk, Used, Dirty;
      BitsCleared(table, written, accessed, table.Keys);
      NoneAccessed(table, written, accessed);
      TickKeepsInvariant(View(), flat, history);
      Facts(View(), flat, history);
      ghost var h := TickHistory(history, table);
      stamps, table := AgeAll(ws, stamps, table);
      history, accessed := h, {};
    }

    /** One operation of the process; not `ok` when the run does not survive it. */
    method Operate(op: Op, load: Load) returns (ok: bool, b: Byte)
      requires Valid() && op.Wf()
      modifies this
      ensures ok ==> Valid() && flat == FlatStep(old(flat), op)
      ensures ok && op.Read? && (op.page, op.offset) in old(flat) ==> b == old(flat)[(op.page, op.offset)]
      ensures old(max > 0 && Structure(View()))
      ensures !ok ==> flat == old(flat) && SameButBits(old(View()), View()) && old(EndsRun(View(), op, load))
      ensures written <= if op.Write? then old(written) + {op.page} else old(written)
      ensures SameFile(old(file), file, old(written))
    {
      hide Invariant, FlatStep, NoVictim, MustSave, BitsOk, SameFile;
      SameFileAsItself(file, written);
      CoherenceOf(View(), flat, history);
      hide Structure, Coherent;
      b := 0;
      if op.Tick? {
        FlatTicks(flat, op);
        if algorithm == LruTimeApprox {
          UpdateTimeStamps();
        }
        return true, b;
      }
      if op.page !in table {
        if !(op.page in file || Growable(op.page, stackBottom)) {
          return false, b;
        }
        var outcome, depth := PageFaultHandler(op.page, load);
        if outcome != Done {
          return false, b;
        }
      }
      b := Access(op);
      return true, b;
    }

    /** Any run of the process: each access faults its page in when it is absent, and every byte the process wrote
        (or was loaded with) reads back as flat memory has it. `end` is the state in which it ended: early only at an
        illegal access, when LRU finds no victim, or when a victim must be saved and the page file is full. Only pages
        that the run writes, or that were written before it, are ever modified, and only they are saved. */
    method Run(ops: seq<Op>, loads: seq<Load>) returns (outputs: seq<Byte>, ghost end: Space)
      requires Valid() && |loads| >= |ops| && forall i | 0 <= i < |ops| :: ops[i].Wf()
      modifies this
      ensures |outputs| <= |ops| && flat == FlatAfter(old(flat), ops[..|outputs|])
      ensures forall i | 0 <= i < |outputs| :: ReadsAsFlat(old(flat), ops, i, outputs[i])
      ensures end.max > 0 && Structure(end) && Coherent(end.table, end.file, flat, stackBottom) && SameButBits(end, View())
      ensures |outputs| < |ops| ==> EndsRun(end, ops[|outputs|], loads[|outputs|])
      ensures Dirty(end.table) <= old(written) + PagesWritten(ops[..|outputs|])
      ensures SameFile(old(file), file, old(written) + PagesWritten(ops[..|outputs|]))
    {
      hide Invariant, FlatStep, Structure, Coherent, NoVictim, MustSave, SameFile, PagesWritten, EndsRun, BitsOk, Dirty;
      outputs := [];
      var i := 0;
      SameFileAsItself(file, written + PagesWritten(ops[..0]));
      while i < |ops|
        invariant 0 <= i == |outputs| <= |ops| && Valid() && flat == FlatAfter(old(flat), ops[..i])
        invariant forall j | 0 <= j < i :: ReadsAsFlat(old(flat), ops, j, outputs[j])
        invariant written <= old(written) + PagesWritten(ops[..i])
        invariant SameFile(old(file), file, old(written) + PagesWritten(ops[..i]))
      {
        assert ops[..i + 1][..i] == ops[..i];
        ghost var file0, written0, modified := file, written, old(written) + PagesWritten(ops[..i]);
        end := View();
        CoherenceOf(end, flat, history);
        BitsFact(end.table, written, accessed);
        var ok, b := Operate(ops[i], loads[i]);
        SameFileTwice(old(file), file0, file, modified, written0, modified);
        if !ok {
          return;
        }
        MoreWritten(ops, i);
        SameFileMore(old(file), file, modified, old(written) + PagesWritten(ops[..i + 1]));
        outputs := outputs + [b];
        i := i + 1;
      }
      end := View();
      CoherenceOf(end, flat, history);
      BitsFact(end.table, written, accessed);
    }
  }

  lemma FlatTicks(flat: Flat, op: Op)
    requires !op.Write?
    ensures FlatStep(flat, op) == flat
  {
  }

  lemma BitsFact(table: Table, written: set<Page>, accessed: set<Page>)
    requires BitsOk(table, written, accessed)
    ensures Dirty(table) == written
  {
  }

  lemma SameFileMore(file: File, file': File, S: set<Page>, T: set<Page>)
    requires SameFile(file, file', S) && S <= T
    ensures SameFile(file, file', T)
  {
  }

  lemma MoreWritten(ops: seq<Op>, i: nat)
    requires i < |ops|
    ensures PagesWritten(ops[..i + 1]) == PagesWritten(ops[..i]) + if ops[i].Write? then {ops[i].page} else {}
  {
    var later := PagesWritten(ops[..i + 1]);
    forall q | q in PagesWritten(ops[..i]) ensures q in later {
      var j :| 0 <= j < i && ops[..i][j].Write? && ops[..i][j].page == q;
      assert ops[..i + 1][j] == ops[j];
    }
    if ops[i].Write? {
      assert ops[..i + 1][i] == ops[i];
    }
    forall q | q in later ensures q in PagesWritten(ops[..i]) || (ops[i].Write? && q == ops[i].page) {
      var j :| 0 <= j < i + 1 && ops[..i + 1][j].Write? && ops[..i + 1][j].page == q;
      if j < i {
        assert ops[..i][j] == ops[j];
      }
    }
  }

  /** A process that only reads, from a state without modified pages, never changes the page file and never fails for want
      of room there: the pages it drops are clean. */
  method ReadOnlyRun(space: AddressSpace, ops: seq<Op>, loads: seq<Load>) returns (outputs: seq<Byte>, ghost end: Space)
    requires space.Valid() && space.written == {} && |loads| >= |ops|
    requires forall i | 0 <= i < |ops| :: ops[i].Wf() && !ops[i].Write?
    modifies space
    ensures space.file == old(space.file) && end.file == old(space.file)
    ensures |outputs| <= |ops|
    ensures |outputs| < |ops| ==>
              !ops[|outputs|].Tick? && (!LegalFault(ops[|outputs|].page, space.file, space.stackBottom) || NoVictim(end))
  {
    hide Invariant, FlatStep, Coherent, NoVictim, BitsOk;
    outputs, end := space.Run(ops, loads);
    SameFileAll(old(space.file), space.file, old(space.written) + PagesWritten(ops[..|outputs|]));
    NothingToSave(end);
  }

  lemma SameFileAll(file: File, file': File, pages: set<Page>)
    requires SameFile(file, file', pages) && pages == {}
    ensures file' == file
  {
    forall q ensures (q in file' <==> q in file) && (q in file ==> file'[q] == file[q]) {
      assert q !in pages;
    }
  }

  lemma NothingToSave(s: Space)
    requires Structure(s) && s.max > 0 && Dirty(s.table) == {}
    ensures !MustSave(s)
  {
    hide NoVictim, LeastRecent, Chosen;
    forall v ensures !Unsaved(s, v) {
      assert v !in Dirty(s.table);
    }
  }

  /** Output `i` of a run is what flat memory holds there, if the process ever wrote it. */
  ghost predicate ReadsAsFlat(flat: Flat, ops: seq<Op>, i: nat, output: Byte)
    requires i < |ops|
  {
    var memory := FlatAfter(flat, ops[..i]);
    ops[i].Read? && (ops[i].page, ops[i].offset) in memory ==> output == memory[(ops[i].page, ops[i].offset)]
  }

  /** The loop of update_WS_time_stamps over the working-set list. */
  method AgeAll(ws: seq<Page>, stamps: map<Page, nat>, table: Table) returns (stamps': map<Page, nat>, table': Table)
    requires NoDup(ws) && table.Keys == PagesOf(ws) && stamps.Keys == PagesOf(ws)
    ensures stamps' == map q | q in stamps :: Lru.Aged(stamps[q], table[q].used)
    ensures table' == ClearUsed(table, table.Keys)
  {
    stamps', table' := stamps, table;
    var i := 0;
    while i < |ws|
      invariant 0 <= i <= |ws|
      invariant stamps'.Keys == stamps.Keys && table'.Keys == table.Keys
      invariant forall j | 0 <= j < |ws| ::
                  && ws[j] in stamps && ws[j] in table
                  && stamps'[ws[j]] == (if j < i then Lru.Aged(stamps[ws[j]], table[ws[j]].used) else stamps[ws[j]])
                  && table'[ws[j]] == (if j < i then table[ws[j]].(used := false) else table[ws[j]])
    {
      var q := ws[i];
      if table'[q].used {
        stamps' := stamps'[q := stamps'[q] / 2 + Lru.TOP_BIT];
        table' := table'[q := table'[q].(used := false)];
      } else {
        stamps' := stamps'[q := stamps'[q] / 2];
      }
      i := i + 1;
    }
  }

  /** The space of a process under LRU whose working set is full, with pages that were used at each of the last `t` ticks. */
  ghost predicate KeepsUsing(space: AddressSpace, pages: seq<Page>, t: nat)
    reads space
  {
    && space.Valid() && space.algorithm == LruTimeApprox && |pages| == space.max && space.ws == pages
    && space.table.Keys == PagesOf(pages) && space.history.Keys == PagesOf(pages)
    && forall q | q in space.history :: t <= |space.history[q]| && forall i | 0 <= i < t :: space.history[q][i]
  }

  /** One read of every page. */
  method ReadAll(space: AddressSpace, pages: seq<Page>, ghost t: nat)
    requires KeepsUsing(space, pages, t)
    modifies space
    ensures KeepsUsing(space, pages, t) && space.file == old(space.file)
    ensures forall q | q in space.table :: space.table[q].used
  {
    hide Invariant, PagesOf, KeepsUsing;
    Resident(space, pages, t);
    var i := 0;
    while i < |pages|
      invariant 0 <= i <= |pages| && KeepsUsing(space, pages, t) && space.file == old(space.file)
      invariant space.table.Keys == PagesOf(pages) && forall j | 0 <= j < i :: pages[j] in space.table && space.table[pages[j]].used
    {
      ReadOne(space, pages, pages[i], t);
      i := i + 1;
    }
    AllUsed(pages, space.table);
  }

  method ReadOne(space: AddressSpace, pages: seq<Page>, q: Page, ghost t: nat)
    requires KeepsUsing(space, pages, t) && q in pages
    modifies space
    ensures KeepsUsing(space, pages, t) && space.file == old(space.file)
    ensures q in old(space.table) && space.table == old(space.table)[q := old(space.table)[q].(used := true)]
  {
    hide Invariant;
    var b := space.Access(Read(q, 0));
  }

  lemma Resident(space: AddressSpace, pages: seq<Page>, t: nat)
    requires KeepsUsing(space, pages, t)
    ensures space.table.Keys == PagesOf(pages)
  {
  }

  lemma AllUsed(pages: seq<Page>, table: Table)
    requires table.Keys == PagesOf(pages) && forall j | 0 <= j < |pages| :: pages[j] in table && table[pages[j]].used
    ensures forall q | q in table :: table[q].used
  {
    forall q | q in table ensures table[q].used {
      var j :| 0 <= j < |pages| && pages[j] == q;
    }
  }

  /** One read of every page, and the clock tick after it. */
  method ReadAllAndTick(space: AddressSpace, pages: seq<Page>, ghost t: nat)
    requires KeepsUsing(space, pages, t)
    modifies space
    ensures KeepsUsing(space, pages, t + 1) && space.file == old(space.file)
  {
    hide Invariant;
    ReadAll(space, pages, t);
    space.UpdateTimeStamps();
  }

  /** A process that makes LRU dereference a null victim, for any size of its working set: it reads as many pages as fit
      before each of 32 clock ticks and then touches another. */
  method LruCrash(pages: seq<Page>, next: Page, image: File, load: Load, stackBottom: int) returns (outcome: Outcome)
    requires pages != [] && NoDup(pages) && next !in pages && LegalFault(next, image, stackBottom)
    requires forall i | 0 <= i < |pages| :: LegalFault(pages[i], image, stackBottom)
    ensures outcome == NullVictim
  {
    hide KeepsUsing;
    var space := FullSpace(pages, image, load, stackBottom);
    var t := 0;
    while t < Lru.WIDTH
      invariant t <= Lru.WIDTH && KeepsUsing(space, pages, t) && space.file == image
    {
      ReadAllAndTick(space, pages, t);
      t := t + 1;
    }
    outcome := FaultWhenUsed(space, pages, next, load);
  }

  /** Placement fills the working set. */
  method FullSpace(pages: seq<Page>, image: File, load: Load, stackBottom: int) returns (space: AddressSpace)
    requires pages != [] && NoDup(pages)
    requires forall i | 0 <= i < |pages| :: LegalFault(pages[i], image, stackBottom)
    ensures fresh(space) && KeepsUsing(space, pages, 0) && space.file == image && space.stackBottom == stackBottom
  {
    hide Invariant, KeepsUsing, PagesOf;
    space := new AddressSpace(LruTimeApprox, |pages|, stackBottom, image);
    var i := 0;
    while i < |pages|
      invariant 0 <= i <= |pages| && fresh(space) && space.Valid() && space.ws == pages[..i] && space.file == image
    {
      Facts(space.View(), space.flat, space.history);
      NotYetPlaced(pages, i);
      var outcome, depth := space.PageFaultHandler(pages[i], load);
      i := i + 1;
    }
    Facts(space.View(), space.flat, space.history);
    assert pages[..i] == pages;
    AllPlaced(space, pages);
  }

  lemma NotYetPlaced(pages: seq<Page>, i: nat)
    requires NoDup(pages) && i < |pages|
    ensures pages[i] !in PagesOf(pages[..i])
  {
  }

  lemma AllPlaced(space: AddressSpace, pages: seq<Page>)
    requires space.Valid() && space.algorithm == LruTimeApprox && |pages| == space.max && space.ws == pages
    ensures KeepsUsing(space, pages, 0)
  {
  }

  method FaultWhenUsed(space: AddressSpace, pages: seq<Page>, next: Page, load: Load) returns (outcome: Outcome)
    requires KeepsUsing(space, pages, Lru.WIDTH) && next !in pages && LegalFault(next, space.file, space.stackBottom)
    modifies space
    ensures outcome == NullVictim
  {
    hide Invariant;
    NoVictimMeansAlwaysUsed(space.View(), space.flat, space.history);
    var depth;
    outcome, depth := space.PageFaultHandler(next, load);
  }
}
