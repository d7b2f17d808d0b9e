/** The kernel page heap's size array (kern/mem/kheap.c): only a region's first page records its size, holes are
    implicit, and the custom-fit scan depends on the tiling that leaves. Pages are numbered from the start of the
    page allocator's range. */
module CustomFit {
  import opened Common

  predicate Live(sizes: seq<nat>, i: nat) {
    i < |sizes| && sizes[i] != 0
  }

  function End(sizes: seq<nat>, i: nat): nat
    requires i < |sizes|
  {
    i + PagesFor(sizes[i])
  }

  /** Page `j` belongs to the region that starts at page `i`. */
  predicate Covers(sizes: seq<nat>, i: nat, j: nat) {
    Live(sizes, i) && i <= j < End(sizes, i)
  }

  /** The tiling invariant: live regions are disjoint and below the break, the mapped pages are exactly theirs, and
      the break is the start or sits just above a mapped page. */
  ghost predicate Shape(sizes: seq<nat>, brk: nat, mapped: set<nat>) {
    Regions(sizes, brk) && Union(sizes, mapped) && (brk > 0 ==> brk - 1 in mapped)
  }

  ghost predicate Regions(sizes: seq<nat>, brk: nat) {
    && brk <= |sizes|
    && (forall i: nat | Live(sizes, i) :: End(sizes, i) <= brk)
    && (forall i: nat, j: nat | Live(sizes, i) && Live(sizes, j) && i < j :: End(sizes, i) <= j)
  }

  ghost predicate Union(sizes: seq<nat>, mapped: set<nat>) {
    && (forall i: nat, j: nat | Covers(sizes, i, j) :: j in mapped)
    && (forall j | j in mapped :: exists i: nat :: Covers(sizes, i, j))
  }

  // ---------------------------------------------------------------------------
  // The specification: maximal runs of free pages
  // ---------------------------------------------------------------------------

  /** Pages `a` up to `b` are free, and the run cannot be extended either way. */
  ghost predicate IsRun(mapped: set<nat>, brk: nat, a: nat, b: nat) {
    && a < b <= brk
    && (forall j: nat | a <= j < b :: j !in mapped)
    && (a == 0 || a - 1 in mapped)
    && (b == brk || b in mapped)
  }

  /** `r` is the lowest run of exactly `n` pages; else the lowest of the longest runs that fit; else nothing. */
  ghost predicate BestFit(mapped: set<nat>, brk: nat, n: nat, r: Option<nat>) {
    match r
    case None => forall a: nat, b: nat | IsRun(mapped, brk, a, b) :: b - a < n
    case Some(s) =>
      if IsRun(mapped, brk, s, s + n) then
        forall a: nat, b: nat | IsRun(mapped, brk, a, b) && b - a == n :: s <= a
      else
        && (forall a: nat, b: nat | IsRun(mapped, brk, a, b) :: b - a != n)
        && exists e: nat :: IsRun(mapped, brk, s, e) && LongestLowest(mapped, brk, n, s, e)
  }

  ghost predicate LongestLowest(mapped: set<nat>, brk: nat, n: nat, s: nat, e: nat) {
    n <= e - s && forall a: nat, b: nat | IsRun(mapped, brk, a, b) :: b - a < e - s || (b - a == e - s && s <= a)
  }

  // ---------------------------------------------------------------------------
  // The scan
  // ---------------------------------------------------------------------------

  /** The scan's position never falls inside a region or inside a run. */
  ghost predicate Boundary(sizes: seq<nat>, brk: nat, mapped: set<nat>, c: nat) {
    && c <= brk
    && (c == brk || Live(sizes, c) || c == 0 || c - 1 in mapped)
    && (forall i: nat | Live(sizes, i) && i < c :: End(sizes, i) <= c)
  }

  lemma SkipRegion(sizes: seq<nat>, brk: nat, mapped: set<nat>, c: nat)
    requires Shape(sizes, brk, mapped) && Boundary(sizes, brk, mapped, c) && Live(sizes, c)
    ensures c < End(sizes, c) && Boundary(sizes, brk, mapped, End(sizes, c))
    ensures forall a: nat, b: nat | IsRun(mapped, brk, a, b) && c <= a :: End(sizes, c) <= a
  {
    assert Covers(sizes, c, End(sizes, c) - 1);
    forall a: nat, b: nat | IsRun(mapped, brk, a, b) && c <= a ensures End(sizes, c) <= a {
      assert a < End(sizes, c) ==> Covers(sizes, c, a);
    }
  }

  lemma FreeHere(sizes: seq<nat>, brk: nat, mapped: set<nat>, c: nat, t: nat)
    requires Shape(sizes, brk, mapped) && Boundary(sizes, brk, mapped, c)
    requires c <= t < brk && forall j: nat | c <= j <= t :: sizes[j] == 0
    ensures t !in mapped
  {
  }

  lemma RunFound(sizes: seq<nat>, brk: nat, mapped: set<nat>, c: nat, t: nat)
    requires Shape(sizes, brk, mapped) && Boundary(sizes, brk, mapped, c)
    requires c < t <= brk && (forall j: nat | c <= j < t :: sizes[j] == 0) && (t == brk || sizes[t] != 0)
    ensures IsRun(mapped, brk, c, t) && Boundary(sizes, brk, mapped, t)
    ensures forall a: nat, b: nat | IsRun(mapped, brk, a, b) && c <= a :: (a == c && b == t) || t <= a
  {
    forall j: nat | c <= j < t ensures j !in mapped {
      FreeHere(sizes, brk, mapped, c, j);
    }
    if t < brk {
      assert Covers(sizes, t, t);
    }
    forall a: nat, b: nat | IsRun(mapped, brk, a, b) && c <= a ensures (a == c && b == t) || t <= a {
      assert c < a ==> a - 1 in mapped;
      assert b < t ==> a < b && b in mapped;
    }
  }

  /** What the scan knows of the runs that start below `c`. */
  ghost predicate ExactSoFar(mapped: set<nat>, brk: nat, n: nat, c: nat, exact: Option<nat>) {
    && (exact.Some? ==> exact.value < c && IsRun(mapped, brk, exact.value, exact.value + n))
    && (forall a: nat, b: nat | IsRun(mapped, brk, a, b) && a < c && b - a == n :: exact.Some? && exact.value <= a)
  }

  ghost predicate WorstSoFar(mapped: set<nat>, brk: nat, n: nat, c: nat, start: nat, size: nat) {
    && (size > 0 ==> n <= size && start < c && IsRun(mapped, brk, start, start + size))
    && (forall a: nat, b: nat | IsRun(mapped, brk, a, b) && a < c && n <= b - a ::
          b - a < size || (b - a == size && start <= a))
  }

  /** Stepping over a region. */
  lemma SkipKeeps(sizes: seq<nat>, brk: nat, mapped: set<nat>, n: nat, c: nat, exact: Option<nat>, start: nat, size: nat)
    requires Shape(sizes, brk, mapped) && Boundary(sizes, brk, mapped, c) && Live(sizes, c)
    requires ExactSoFar(mapped, brk, n, c, exact) && WorstSoFar(mapped, brk, n, c, start, size)
    ensures var e := End(sizes, c);
            && c < e <= brk && Boundary(sizes, brk, mapped, e)
            && ExactSoFar(mapped, brk, n, e, exact) && WorstSoFar(mapped, brk, n, e, start, size)
  {
    hide Shape, Boundary, IsRun;
    SkipRegion(sizes, brk, mapped, c);
    InRange(sizes, brk, mapped, c);
  }

  /** Taking a maximal run into account. */
  lemma RunKeeps(sizes: seq<nat>, brk: nat, mapped: set<nat>, n: nat, c: nat, t: nat, exact: Option<nat>, start: nat,
                 size: nat)
    requires Shape(sizes, brk, mapped) && Boundary(sizes, brk, mapped, c)
    requires c < t <= brk && (forall j: nat | c <= j < t :: sizes[j] == 0) && (t == brk || sizes[t] != 0)
    requires ExactSoFar(mapped, brk, n, c, exact) && WorstSoFar(mapped, brk, n, c, start, size)
    ensures Boundary(sizes, brk, mapped, t)
    ensures ExactSoFar(mapped, brk, n, t, if t - c == n && exact.None? then Some(c) else exact)
    ensures if t - c >= n && t - c > size then WorstSoFar(mapped, brk, n, t, c, t - c)
            else WorstSoFar(mapped, brk, n, t, start, size)
  {
    hide Shape, Boundary, IsRun;
    RunFound(sizes, brk, mapped, c, t);
    assert c + (t - c) == t;
  }

  /** find_customfit. */
  method FindCustomFit(sizes: seq<nat>, brk: nat, n: nat, ghost mapped: set<nat>) returns (r: Option<nat>)
    requires Shape(sizes, brk, mapped) && n > 0
    ensures BestFit(mapped, brk, n, r)
  {
    hide Shape, Boundary, BestFit, ExactSoFar, WorstSoFar;
    var exact: Option<nat>, worst: nat, worstSize: nat, c: nat := None, 0, 0, 0;
    StartOfScan(sizes, brk, mapped, n);
    while c < brk
      invariant 0 <= c <= brk <= |sizes| && Boundary(sizes, brk, mapped, c)
      invariant ExactSoFar(mapped, brk, n, c, exact)
      invariant WorstSoFar(mapped, brk, n, c, worst, worstSize)
    {
      if sizes[c] != 0 {
        SkipKeeps(sizes, brk, mapped, n, c, exact, worst, worstSize);
        c := c + PagesFor(sizes[c]);
        continue;
      }
      var t, size := c, 0;
      while t < brk && sizes[t] == 0
        invariant c <= t <= brk && size == t - c
        invariant forall j: nat | c <= j < t :: sizes[j] == 0
      {
        size := size + 1;
        t := t + 1;
      }
      RunKeeps(sizes, brk, mapped, n, c, t, exact, worst, worstSize);
      if size == n && exact.None? {
        exact := Some(c);
      }
      if size >= n && size > worstSize {
        worst, worstSize := c, size;
      }
      c := t;
    }
    Conclude(sizes, brk, mapped, n, exact, worst, worstSize);
    r := if exact.Some? then exact else if worstSize >= n then Some(worst) else None;
  }

  lemma StartOfScan(sizes: seq<nat>, brk: nat, mapped: set<nat>, n: nat)
    requires Shape(sizes, brk, mapped)
    ensures brk <= |sizes| && Boundary(sizes, brk, mapped, 0)
    ensures ExactSoFar(mapped, brk, n, 0, None) && WorstSoFar(mapped, brk, n, 0, 0, 0)
  {
  }

  lemma InRange(sizes: seq<nat>, brk: nat, mapped: set<nat>, c: nat)
    requires Shape(sizes, brk, mapped) && Live(sizes, c)
    ensures End(sizes, c) <= brk
  {
  }

  lemma Conclude(sizes: seq<nat>, brk: nat, mapped: set<nat>, n: nat, exact: Option<nat>, worst: nat, worstSize: nat)
    requires n > 0 && ExactSoFar(mapped, brk, n, brk, exact) && WorstSoFar(mapped, brk, n, brk, worst, worstSize)
    ensures BestFit(mapped, brk, n, if exact.Some? then exact else if worstSize >= n then Some(worst) else None)
  {
  }

  // ---------------------------------------------------------------------------
  // What the heap operations do to the tiling
  // ---------------------------------------------------------------------------

  function Range(a: nat, n: nat): (r: set<nat>)
    ensures forall j: nat :: j in r <==> a <= j < a + n
  {
    if n == 0 then {} else Range(a, n - 1) + {a + n - 1}
  }

  /** Putting `size` at `a`, where it was free or a region of `n` pages, changes the union there and nowhere else. */
  lemma UpdateUnion(sizes: seq<nat>, mapped: set<nat>, a: nat, size: nat)
    requires Union(sizes, mapped) && a < |sizes|
    requires forall i: nat, j: nat | Covers(sizes, i, j) && i != a :: !Covers(sizes, a, j)
    ensures Union(sizes[a := size], mapped - Range(a, PagesFor(sizes[a])) + Range(a, PagesFor(size)))
  {
    assert sizes[a] == 0 ==> PagesFor(sizes[a]) == 0;
    hide PagesFor;
    var sizes', m, n := sizes[a := size], PagesFor(size), PagesFor(sizes[a]);
    var mapped' := mapped - Range(a, n) + Range(a, m);
    assert forall j: nat :: Covers(sizes, a, j) <==> j in Range(a, n);
    forall i: nat, j: nat | Covers(sizes', i, j) ensures j in mapped' {
      assert i != a ==> Covers(sizes, i, j);
    }
    forall j | j in mapped' ensures exists i: nat :: Covers(sizes', i, j) {
      if j in Range(a, m) {
        assert Covers(sizes', a, j);
      } else {
        var i: nat :| Covers(sizes, i, j);
        assert Covers(sizes', i, j);
      }
    }
  }

  lemma UpdateRegions(sizes: seq<nat>, brk: nat, a: nat, sizes': seq<nat>, brk': nat)
    requires Regions(sizes, brk) && a < |sizes| && brk' <= |sizes| == |sizes'| && sizes' == sizes[a := sizes'[a]]
    requires forall i: nat | Live(sizes, i) && i != a :: End(sizes, i) <= a || End(sizes', a) <= i
    requires forall i: nat | Live(sizes', i) :: End(sizes', i) <= brk'
    ensures Regions(sizes', brk')
  {
    hide PagesFor;
    assert forall i: nat | Live(sizes', i) && i != a :: Live(sizes, i) && End(sizes', i) == End(sizes, i);
  }

  /** Regions keep clear of free pages and of one another. */
  lemma Clear(sizes: seq<nat>, brk: nat, mapped: set<nat>, a: nat, n: nat, i: nat)
    requires Shape(sizes, brk, mapped) && Live(sizes, i) && i != a
    requires Live(sizes, a) || (n > 0 && a !in mapped)
    requires forall j: nat | a <= j < a + n :: j in mapped ==> Live(sizes, a) && j < End(sizes, a)
    ensures End(sizes, i) <= a || a + n <= i
    ensures forall j: nat | Covers(sizes, i, j) :: !Covers(sizes, a, j)
  {
    hide PagesFor;
    assert Covers(sizes, i, i);
    assert i < a < End(sizes, i) ==> Covers(sizes, i, a);
  }

  /** A new region in free pages at or below the break; the break moves only if the region reaches past it. */
  lemma AllocateShape(sizes: seq<nat>, brk: nat, mapped: set<nat>, a: nat, size: nat)
    requires Shape(sizes, brk, mapped) && size > 0 && a <= brk && a + PagesFor(size) <= |sizes|
    requires forall j: nat | a <= j < a + PagesFor(size) :: j !in mapped
    ensures sizes[a] == 0
    ensures var e := a + PagesFor(size);
            Shape(sizes[a := size], if e <= brk then brk else e, mapped + Range(a, PagesFor(size)))
  {
    hide Regions, Union, PagesFor, End;
    FreeStart(sizes, mapped, a);
    UpdateUnion(sizes, mapped, a, size);
    AllocateRegions(sizes, brk, mapped, a, size);
  }

  lemma AllocateRegions(sizes: seq<nat>, brk: nat, mapped: set<nat>, a: nat, size: nat)
    requires Shape(sizes, brk, mapped) && size > 0 && a <= brk && a + PagesFor(size) <= |sizes|
    requires forall j: nat | a <= j < a + PagesFor(size) :: j !in mapped
    ensures var e := a + PagesFor(size); Regions(sizes[a := size], if e <= brk then brk else e)
  {
    hide PagesFor, Range;
    var sizes', e := sizes[a := size], a + PagesFor(size);
    forall i: nat | Live(sizes, i) && i != a ensures End(sizes, i) <= a || e <= i {
      Clear(sizes, brk, mapped, a, PagesFor(size), i);
    }
    assert forall i: nat | Live(sizes', i) && i != a :: Live(sizes, i) && End(sizes', i) == End(sizes, i);
    UpdateRegions(sizes, brk, a, sizes', if e <= brk then brk else e);
  }

  lemma FreeStart(sizes: seq<nat>, mapped: set<nat>, a: nat)
    requires Union(sizes, mapped) && a < |sizes| && a !in mapped
    ensures sizes[a] == 0 && mapped - Range(a, PagesFor(sizes[a])) == mapped
  {
    assert sizes[a] != 0 ==> Covers(sizes, a, a);
    assert PagesFor(0) == 0;
  }

  /** A region takes a new size, or disappears (`size == 0`), and the break comes down over unmapped pages. */
  lemma ResizeShape(sizes: seq<nat>, brk: nat, mapped: set<nat>, a: nat, size: nat, brk': nat)
    requires Shape(sizes, brk, mapped) && Live(sizes, a) && brk' <= brk
    requires var m, n := PagesFor(size), PagesFor(sizes[a]);
             var mapped' := mapped - Range(a, n) + Range(a, m);
             && (forall j: nat | a + n <= j < a + m :: j !in mapped)
             && (forall j | j in mapped' :: j < brk') && (brk' > 0 ==> brk' - 1 in mapped')
    ensures Shape(sizes[a := size], brk', mapped - Range(a, PagesFor(sizes[a])) + Range(a, PagesFor(size)))
  {
    hide PagesFor;
    var sizes', m := sizes[a := size], PagesFor(size);
    forall i: nat | Live(sizes, i) && i != a
      ensures End(sizes, i) <= a || a + m <= i
      ensures forall j: nat | Covers(sizes, i, j) :: !Covers(sizes, a, j)
    {
      Clear(sizes, brk, mapped, a, m, i);
    }
    UpdateUnion(sizes, mapped, a, size);
    forall i: nat | Live(sizes', i) ensures End(sizes', i) <= brk' {
      assert Covers(sizes', i, End(sizes', i) - 1);
    }
    UpdateRegions(sizes, brk, a, sizes', brk');
  }
}
