/** The kernel page heap (kern/mem/kheap.c): page-sized kmalloc, kfree and krealloc, and the two address translations.
    Heap addresses are page numbers from the start of the page allocator's range; sizes are those above the block
    allocator's limit whose rounding to pages does not wrap. */
module KernelHeap {
  import opened Common
  import opened CustomFit

  const MAX_BLOCK: nat := 2048

  /** The page allocator's range starts one page above the block allocator's 32 MB at KERNEL_HEAP_START. */
  const HEAP_START: nat := 0xF800_1000

  /** The pages of that range, up to KERNEL_HEAP_MAX. */
  const HEAP_PAGES: nat := (0xFFFF_F000 - HEAP_START) / PAGE_SIZE

  type Frame = nat
  type Contents = map<Frame, PageData>

  predicate PageSized(size: nat) {
    MAX_BLOCK < size <= MAX_ROUNDABLE
  }

  // ---------------------------------------------------------------------------
  // Frames behind the heap
  // ---------------------------------------------------------------------------

  /** The page table, the free frame list and each frame's recorded heap page (kheap_mapped_va; absent when it is 0).
      A frame is mapped at most once because its record names its only page. */
  ghost predicate Backed(table: map<nat, Frame>, free: seq<Frame>, kva: map<Frame, nat>, content: Contents) {
    && (forall p | p in table :: table[p] in kva && kva[table[p]] == p && table[p] in content)
    && (forall f | f in kva :: kva[f] in table && table[kva[f]] == f)
    && (forall i | 0 <= i < |free| :: free[i] !in kva && free[i] in content)
    && NoDup(free)
  }

  /** Only page-sized requests are ever recorded, so kfree's and krealloc's block branches are never taken. */
  ghost predicate Recorded(sizes: seq<nat>) {
    forall i | 0 <= i < |sizes| :: sizes[i] == 0 || PageSized(sizes[i])
  }

  /** get_page: map the first free frame at page `p`. */
  method GetPage(table: map<nat, Frame>, free: seq<Frame>, kva: map<Frame, nat>, p: nat, ghost content: Contents)
      returns (table': map<nat, Frame>, free': seq<Frame>, kva': map<Frame, nat>)
    requires Backed(table, free, kva, content) && free != [] && p !in table
    ensures Backed(table', free', kva', content)
    ensures table' == table[p := free[0]] && free' == free[1..] && kva' == kva[free[0] := p]
  {
    table', free', kva' := table[p := free[0]], free[1..], kva[free[0] := p];
  }

  /** return_page: unmap page `p`; its frame's record is cleared and the frame goes to the head of the free list. */
  method ReturnPage(table: map<nat, Frame>, free: seq<Frame>, kva: map<Frame, nat>, p: nat, ghost content: Contents)
      returns (table': map<nat, Frame>, free': seq<Frame>, kva': map<Frame, nat>)
    requires Backed(table, free, kva, content) && p in table
    ensures Backed(table', free', kva', content)
    ensures table' == table - {p} && free' == [table[p]] + free && kva' == kva - {table[p]}
  {
    table', free', kva' := table - {p}, [table[p]] + free, kva - {table[p]};
  }

  /** The allocation loop of kmalloc and of krealloc's growth. */
  method MapPages(table: map<nat, Frame>, free: seq<Frame>, kva: map<Frame, nat>, a: nat, n: nat, ghost content: Contents)
      returns (table': map<nat, Frame>, free': seq<Frame>, kva': map<Frame, nat>)
    requires Backed(table, free, kva, content) && n <= |free| && forall j: nat | a <= j < a + n :: j !in table
    ensures Backed(table', free', kva', content) && table'.Keys == table.Keys + Range(a, n)
    ensures forall p | p in table :: table'[p] == table[p]
    ensures |free'| == |free| - n
  {
    hide Backed;
    table', free', kva' := table, free, kva;
    var i := 0;
    while i < n
      invariant 0 <= i <= n && Backed(table', free', kva', content) && table'.Keys == table.Keys + Range(a, i)
      invariant forall p | p in table :: table'[p] == table[p]
      invariant |free'| == |free| - i
    {
      table', free', kva' := GetPage(table', free', kva', a + i, content);
      i := i + 1;
    }
  }

  /** The release loop of kfree and of krealloc's shrinking. */
  method UnmapPages(table: map<nat, Frame>, free: seq<Frame>, kva: map<Frame, nat>, a: nat, n: nat, ghost content: Contents)
      returns (table': map<nat, Frame>, free': seq<Frame>, kva': map<Frame, nat>)
    requires Backed(table, free, kva, content) && forall j: nat | a <= j < a + n :: j in table
    ensures Backed(table', free', kva', content) && table' == table - Range(a, n) && table'.Keys == table.Keys - Range(a, n)
    ensures |free'| == |free| + n && forall j: nat | a <= j < a + n :: table[j] !in kva'
  {
    hide Backed;
    table', free', kva' := table, free, kva;
    var i := 0;
    while i < n
      invariant 0 <= i <= n && Backed(table', free', kva', content) && table' == table - Range(a, i)
      invariant |free'| == |free| + i && kva'.Keys <= kva.Keys
      invariant forall j: nat | a <= j < a + i :: table[j] !in kva'
    {
      table', free', kva' := ReturnPage(table', free', kva', a + i, content);
      i := i + 1;
    }
  }

  /** The contents of a heap page. */
  function Data(table: map<nat, Frame>, content: Contents, p: nat): PageData {
    if p in table && table[p] in content then content[table[p]] else seq(PAGE_SIZE, _ => 0)
  }

  /** Byte `k` of the region that starts at page `a`. */
  function ByteAt(table: map<nat, Frame>, content: Contents, a: nat, k: nat): Byte {
    Data(table, content, a + k / PAGE_SIZE)[k % PAGE_SIZE]
  }

  /** No two pages share a frame, and every mapped frame has contents. */
  ghost predicate Separate(table: map<nat, Frame>, content: Contents) {
    && (forall p, q | p in table && q in table && p != q :: table[p] != table[q])
    && (forall p | p in table :: table[p] in content)
  }

  /** Storing a byte in page `p`. */
  function Store(table: map<nat, Frame>, content: Contents, p: nat, o: nat, b: Byte): Contents
    requires p in table && table[p] in content && o < PAGE_SIZE
  {
    content[table[p] := content[table[p]][o := b]]
  }

  lemma StoreElsewhere(table: map<nat, Frame>, content: Contents, p: nat, o: nat, b: Byte)
    requires Separate(table, content) && p in table && o < PAGE_SIZE
    ensures table[p] in content && Store(table, content, p, o, b).Keys == content.Keys
    ensures Separate(table, Store(table, content, p, o, b))
    ensures Data(table, Store(table, content, p, o, b), p) == Data(table, content, p)[o := b]
    ensures forall q: nat | q != p :: Data(table, Store(table, content, p, o, b), q) == Data(table, content, q)
  {
  }

  /** memcpy from the region at page `src` to the region at page `dst`. */
  method MemCpy(table: map<nat, Frame>, content: Contents, dst: nat, src: nat, len: nat) returns (content': Contents)
    requires Separate(table, content)
    requires forall p: nat | dst <= p < dst + PagesFor(len) :: p in table
    requires dst + PagesFor(len) <= src || src + PagesFor(len) <= dst
    ensures content'.Keys == content.Keys
    ensures forall k: nat | k < len :: ByteAt(table, content', dst, k) == ByteAt(table, content, src, k)
    ensures forall p: nat | !(dst <= p < dst + PagesFor(len)) :: Data(table, content', p) == Data(table, content, p)
  {
    hide Separate, Store, Data;
    content' := content;
    var k := 0;
    while k < len
      invariant 0 <= k <= len && Separate(table, content') && content'.Keys == content.Keys
      invariant forall j: nat | j < k :: ByteAt(table, content', dst, j) == ByteAt(table, content, src, j)
      invariant forall p: nat | !(dst <= p < dst + PagesFor(len)) :: Data(table, content', p) == Data(table, content, p)
    {
      var p, o, b := dst + k / PAGE_SIZE, k % PAGE_SIZE, ByteAt(table, content', src, k);
      StoreElsewhere(table, content', p, o, b);
      assert k / PAGE_SIZE < PagesFor(len);
      content' := Store(table, content', p, o, b);
      k := k + 1;
    }
  }

  // ---------------------------------------------------------------------------
  // The heap
  // ---------------------------------------------------------------------------

  class PageHeap {
    var sizes: seq<nat>
    var brk: nat
    var table: map<nat, Frame>
    var free: seq<Frame>
    var kva: map<Frame, nat>
    var content: Contents

    ghost predicate Valid()
      reads this
    {
      Shape(sizes, brk, table.Keys) && Backed(table, free, kva, content) && Recorded(sizes)
    }

    /** kheap_init: an empty heap of `pages` pages over the given free frames. */
    constructor (pages: nat, frames: seq<Frame>, memory: Contents)
      requires forall i | 0 <= i < |frames| :: frames[i] in memory
      requires NoDup(frames)
      ensures Valid() && brk == 0 && table == map[] && free == frames && content == memory
      ensures |sizes| == pages && forall i | 0 <= i < pages :: sizes[i] == 0
    {
      sizes, brk := seq(pages, _ => 0), 0;
      table, free, kva, content := map[], frames, map[], memory;
    }

    /** kmalloc of a page-sized request. It fails just when the request exceeds the room above the break, even if a
        hole would fit; otherwise it takes the custom fit, or extends the break when no run fits. */
    method KMalloc(size: nat) returns (r: Option<nat>)
      requires Valid() && PageSized(size) && (PagesFor(size) <= |sizes| - brk ==> PagesFor(size) <= |free|)
      modifies this
      ensures Valid() && content == old(content)
      ensures r.None? <==> PagesFor(size) > |sizes| - old(brk)
      ensures r.None? ==> sizes == old(sizes) && brk == old(brk) && table == old(table) && free == old(free) && kva == old(kva)
      ensures r.Some? ==>
                var a, n := r.value, PagesFor(size);
                && a < |old(sizes)| && sizes == old(sizes)[a := size]
                && (forall j: nat | a <= j < a + n :: j !in old(table))
                && table.Keys == old(table.Keys) + Range(a, n)
                && (forall p | p in old(table) :: table[p] == old(table)[p]) && |free| == |old(free)| - n
      ensures r.Some? ==>
                if brk == old(brk) then BestFit(old(table.Keys), brk, PagesFor(size), r)
                else BestFit(old(table.Keys), old(brk), PagesFor(size), None) && r.value == old(brk) && brk == r.value + PagesFor(size)
    {
      var n := PagesFor(size);
      hide PagesFor, Shape, Backed, BestFit;
      ShapeBounds(sizes, brk, table.Keys);
      if n > |sizes| - brk {
        return None;
      }
      var fit := FindCustomFit(sizes, brk, n, table.Keys);
      var a := brk;
      if fit.Some? {
        a := fit.value;
        FitIsFree(sizes, brk, table.Keys, n, a);
      } else {
        AboveBreak(sizes, brk, table.Keys);
      }
      AllocateShape(sizes, brk, table.Keys, a, size);
      table, free, kva := MapPages(table, free, kva, a, n, content);
      if fit.None? {
        brk := brk + n;
      }
      sizes := sizes[a := size];
      r := Some(a);
    }

    /** The loop that brings the break down over unmapped pages. */
    method LowerBreak()
      modifies this`brk
      ensures brk <= old(brk) && (brk > 0 ==> brk - 1 in table)
      ensures forall j: nat | brk <= j < old(brk) :: j !in table
    {
      while brk > 0
        invariant brk <= old(brk) && forall j: nat | brk <= j < old(brk) :: j !in table
      {
        if brk - 1 in table {
          break;
        }
        brk := brk - 1;
      }
    }

    /** kfree: an address that starts no live region is ignored; a live region disappears and nothing else changes,
        except that the break comes down to just above the highest mapped page. */
    method KFree(a: nat)
      requires Valid()
      modifies this
      ensures Valid() && content == old(content)
      ensures !Live(old(sizes), a) ==>
                sizes == old(sizes) && brk == old(brk) && table == old(table) && free == old(free) && kva == old(kva)
      ensures Live(old(sizes), a) ==>
                var n := PagesFor(old(sizes)[a]);
                && sizes == old(sizes)[a := 0] && table == old(table) - Range(a, n) && |free| == |old(free)| + n
                && Range(a, n) <= old(table.Keys) && forall j: nat | a <= j < a + n :: old(table)[j] !in kva
    {
      hide Shape, Backed;
      if a >= |sizes| || sizes[a] == 0 {
        return;
      }
      var n := PagesFor(sizes[a]);
      ghost var mapped, brk0 := table.Keys, brk;
      RegionIsMapped(sizes, brk, mapped, a);
      AboveBreak(sizes, brk, mapped);
      table, free, kva := UnmapPages(table, free, kva, a, n, content);
      LowerBreak();
      assert PagesFor(0) == 0 && table.Keys == mapped - Range(a, n) + Range(a, 0);
      hide PagesFor;
      ResizeShape(sizes, brk0, mapped, a, 0, brk);
      sizes := sizes[a := 0];
    }

    /** krealloc's shrinking branch. */
    method Shrink(a: nat, size: nat)
      requires Valid() && a < |sizes| && Live(sizes, a) && PageSized(size) && PagesFor(size) < PagesFor(sizes[a])
      modifies this
      ensures Valid() && content == old(content) && sizes == old(sizes)[a := size]
      ensures table == old(table - Range(a + PagesFor(size), PagesFor(sizes[a]) - PagesFor(size)))
    {
      hide Shape, Backed, PagesFor, Recorded, Range, Live;
      var m, n := PagesFor(size), PagesFor(sizes[a]);
      RecordOne(sizes, a, size);
      ShrinkShape(sizes, brk, table.Keys, a, size);
      table, free, kva := UnmapPages(table, free, kva, a + m, n - m, content);
      if a + n == brk {
        brk := a + m;
      }
      sizes := sizes[a := size];
    }

    /** The loop that looks for room behind the region. */
    method CanExtend(a: nat, n: nat, m: nat) returns (yes: bool)
      requires n < m && brk <= |sizes|
      ensures yes <==> RoomBehind(a, n, m)
    {
      var i := 0;
      yes := true;
      while i < m - n
        invariant 0 <= i <= m - n && yes
        invariant i > 0 ==> a + n + i <= brk
        invariant forall j: nat | a + n <= j < a + n + i :: j < brk && sizes[j] == 0
      {
        if a + n + i >= brk || sizes[a + n + i] != 0 {
          yes := false;
          return;
        }
        i := i + 1;
      }
    }

    /** krealloc's growth in place. */
    method Grow(a: nat, size: nat)
      requires Valid() && a < |sizes| && Live(sizes, a) && PageSized(size)
      requires var m, n := PagesFor(size), PagesFor(sizes[a]);
               n < m && m - n <= |free| && brk <= |sizes| && RoomBehind(a, n, m)
      modifies this
      ensures Valid() && content == old(content) && sizes == old(sizes)[a := size]
      ensures table.Keys == old(table.Keys) + Range(a, PagesFor(size))
      ensures forall p | p in old(table) :: table[p] == old(table)[p]
    {
      hide Shape, Backed, PagesFor, Recorded, Range, Live;
      var m, n := PagesFor(size), PagesFor(sizes[a]);
      RecordOne(sizes, a, size);
      GrowShape(sizes, brk, table.Keys, a, size);
      table, free, kva := MapPages(table, free, kva, a + n, m - n, content);
      sizes := sizes[a := size];
    }

    /** krealloc's last resort: allocate anew, copy the old bytes, free the old region. */
    method Move(a: nat, size: nat) returns (r: Option<nat>)
      requires Valid() && a < |sizes| && Live(sizes, a) && PageSized(size)
      requires PagesFor(sizes[a]) <= PagesFor(size) && (PagesFor(size) <= |sizes| - brk ==> PagesFor(size) <= |free|)
      modifies this
      ensures Valid() && (r.None? <==> PagesFor(size) > |sizes| - old(brk))
      ensures r.None? ==> sizes == old(sizes) && brk == old(brk) && table == old(table) && content == old(content)
      ensures r.Some? ==> r.value != a && r.value < |old(sizes)| && sizes == old(sizes)[r.value := size][a := 0]
      ensures r.Some? ==> SameBytes(old(table), old(content), a, table, content, r.value, old(sizes)[a])
      ensures r.Some? ==> SameElsewhere(old(table), old(content), table, content, a, PagesFor(old(sizes)[a]))
    {
      hide Shape, Backed, Recorded, PagesFor, BestFit, Separate, ByteAt, Range;
      ghost var t0, c0, len := table, content, sizes[a];
      RegionIsMapped(sizes, brk, table.Keys, a);
      r := KMalloc(size);
      if r.None? {
        return;
      }
      RegionIsMapped(sizes, brk, table.Keys, a);
      RegionIsMapped(sizes, brk, table.Keys, r.value);
      ghost var b := r.value;
      assert b !in t0 && a in t0;
      TwoRegions(sizes, brk, table.Keys, a, r.value);
      BackedSeparate(table, free, kva, content);
      var t1, c1 := table, content;
      content := MemCpy(table, content, r.value, a, sizes[a]);
      BackedContent(table, free, kva, c1, content);
      KFree(a);
      Moved(t0, c0, t1, c1, content, table, a, r.value, PagesFor(len), len);
    }

    /** The pages behind a region of `n` pages are below the break and start no region, up to `m` pages in all. */
    predicate RoomBehind(a: nat, n: nat, m: nat)
      requires brk <= |sizes|
      reads this
    {
      a + m <= brk && forall j: nat | a + n <= j < a + m :: sizes[j] == 0
    }

    /** krealloc cannot leave the region where it is. */
    predicate MustMove(a: nat, size: nat)
      requires brk <= |sizes| && Live(sizes, a)
      reads this
    {
      var m, n := PagesFor(size), PagesFor(sizes[a]);
      sizes[a] != size && n <= m && !(n < m && RoomBehind(a, n, m))
    }

    /** The frames that krealloc takes, branch by branch: none to stay or to shrink, the missing ones to grow in place,
        all of them to move, and none for a move that kmalloc refuses. */
    predicate FramesSuffice(a: nat, size: nat)
      reads this
    {
      brk <= |sizes| && Live(sizes, a) ==>
        var m, n := PagesFor(size), PagesFor(sizes[a]);
        if MustMove(a, size) then m <= |sizes| - brk ==> m <= |free| else m - n <= |free|
    }

    /** krealloc from one page-sized region to another size: whatever branch it takes, the first min(old, new) bytes
        and all other regions are as before; on failure nothing has changed. */
    method KRealloc(a: nat, size: nat) returns (r: Option<nat>)
      requires Valid() && PageSized(size) && FramesSuffice(a, size)
      modifies this
      ensures Valid()
      ensures r.None? ==> sizes == old(sizes) && brk == old(brk) && table == old(table) && content == old(content)
      ensures !Live(old(sizes), a) ==> r.None?
      ensures old(brk <= |sizes|) && (Live(old(sizes), a) ==> (r == Some(a) <==> !old(MustMove(a, size))))
      ensures Live(old(sizes), a) ==> (r.None? <==> old(MustMove(a, size) && PagesFor(size) > |sizes| - brk))
      ensures r.Some? ==>
                && Live(old(sizes), a) && r.value < |old(sizes)|
                && sizes == (if r.value == a then old(sizes) else old(sizes)[a := 0])[r.value := size]
                && SameBytes(old(table), old(content), a, table, content, r.value,
                             if size < old(sizes)[a] then size else old(sizes)[a])
                && SameElsewhere(old(table), old(content), table, content, a, PagesFor(old(sizes)[a]))
    {
      hide Shape, Backed, Recorded, PagesFor, ByteAt, Range;
      ShapeBounds(sizes, brk, table.Keys);
      if a >= brk || sizes[a] == 0 {
        NotLive(sizes, brk, table.Keys, a);
        return None;
      }
      if sizes[a] == size {
        assert sizes[a := size] == sizes;
        return Some(a);
      }
      ghost var t0, c0, n := table, content, PagesFor(sizes[a]);
      RegionIsMapped(sizes, brk, table.Keys, a);
      if PagesFor(size) < PagesFor(sizes[a]) {
        Shrink(a, size);
        Shrunk(t0, c0, table, a, n, PagesFor(size), size);
        return Some(a);
      }
      if PagesFor(size) > PagesFor(sizes[a]) {
        var room := CanExtend(a, PagesFor(sizes[a]), PagesFor(size));
        if room {
          ghost var len := sizes[a];
          Grow(a, size);
          Grown(t0, c0, table, a, n, len);
          return Some(a);
        }
      }
      r := Move(a, size);
      if r.Some? {
        FewerBytes(t0, c0, a, table, content, r.value, old(sizes)[a], size);
        assert old(sizes)[r.value := size][a := 0] == old(sizes)[a := 0][r.value := size];
      }
    }

    // --- address translation -------------------------------------------------

    /** kheap_physical_address: through the page table; 0 when the page is not mapped. */
    function PhysicalAddress(va: nat): nat
      requires HEAP_START <= va
      reads this
    {
      var p := (va - HEAP_START) / PAGE_SIZE;
      if p in table then table[p] * PAGE_SIZE + va % PAGE_SIZE else 0
    }

    /** kheap_virtual_address: through the frame's own record; 0 when it has none. */
    function VirtualAddress(pa: nat): nat
      reads this
    {
      var f := pa / PAGE_SIZE;
      if f in kva then HEAP_START + kva[f] * PAGE_SIZE + pa % PAGE_SIZE else 0
    }

    /** For every address of a live heap page the two translations undo each other, offset included. */
    lemma TranslationRoundTrip(va: nat)
      requires Valid() && HEAP_START <= va && (va - HEAP_START) / PAGE_SIZE in table
      ensures VirtualAddress(PhysicalAddress(va)) == va
      ensures PhysicalAddress(VirtualAddress(PhysicalAddress(va))) == PhysicalAddress(va)
    {
    }

    /** The byte of physical memory at the translated address is the heap's byte there; an unmapped page has no address. */
    lemma TranslatedByte(va: nat)
      requires Valid() && HEAP_START <= va
      ensures (va - HEAP_START) / PAGE_SIZE !in table ==> PhysicalAddress(va) == 0
      ensures (va - HEAP_START) / PAGE_SIZE in table ==>
                && PhysicalAddress(va) / PAGE_SIZE in content
                && content[PhysicalAddress(va) / PAGE_SIZE][PhysicalAddress(va) % PAGE_SIZE]
                   == ByteAt(table, content, 0, va - HEAP_START)
    {
      hide Shape, Recorded;
      var p := (va - HEAP_START) / PAGE_SIZE;
      if p in table {
        assert PhysicalAddress(va) / PAGE_SIZE == table[p] && PhysicalAddress(va) % PAGE_SIZE == va % PAGE_SIZE;
      }
    }

    /** From the other side: a physical address translates exactly when its frame is behind a heap page, and back. */
    lemma BackTranslation(pa: nat)
      requires Valid()
      ensures VirtualAddress(pa) != 0 <==> exists p :: p in table && table[p] == pa / PAGE_SIZE
      ensures VirtualAddress(pa) != 0 ==> VirtualAddress(pa) >= HEAP_START && PhysicalAddress(VirtualAddress(pa)) == pa
    {
      hide Shape, Recorded;
      var f := pa / PAGE_SIZE;
      if f in kva {
        var p := kva[f];
        assert p in table && table[p] == f;
        assert (VirtualAddress(pa) - HEAP_START) / PAGE_SIZE == p;
      }
    }

    /** Frames on the free list translate to 0, so a freed address is not found again. */
    lemma FreeFrameHasNoAddress(i: nat, o: nat)
      requires Valid() && i < |free| && o < PAGE_SIZE
      ensures VirtualAddress(free[i] * PAGE_SIZE + o) == 0
    {
    }
  }

  lemma NotLive(sizes: seq<nat>, brk: nat, mapped: set<nat>, a: nat)
    requires Shape(sizes, brk, mapped) && (a >= brk || sizes[a] == 0)
    ensures !Live(sizes, a)
  {
  }

  lemma FewerBytes(table: map<nat, Frame>, content: Contents, a: nat,
                   table': map<nat, Frame>, content': Contents, b: nat, len: nat, size: nat)
    requires SameBytes(table, content, a, table', content', b, len)
    ensures SameBytes(table, content, a, table', content', b, if size < len then size else len)
  {
  }

  lemma Shrunk(t0: map<nat, Frame>, c: Contents, t1: map<nat, Frame>, a: nat, n: nat, m: nat, size: nat)
    requires m <= n && size <= m * PAGE_SIZE && t1 == t0 - Range(a + m, n - m)
    ensures SameBytes(t0, c, a, t1, c, a, size) && SameElsewhere(t0, c, t1, c, a, n)
  {
  }

  lemma Grown(t0: map<nat, Frame>, c: Contents, t1: map<nat, Frame>, a: nat, n: nat, len: nat)
    requires len <= n * PAGE_SIZE && (forall p | p in t0 :: p in t1 && t1[p] == t0[p])
    requires forall p: nat | a <= p < a + n :: p in t0
    ensures SameBytes(t0, c, a, t1, c, a, len) && SameElsewhere(t0, c, t1, c, a, n)
  {
  }

  /** The first `len` bytes of the region at `b` are those the region at `a` had. */
  ghost predicate SameBytes(table: map<nat, Frame>, content: Contents, a: nat,
                            table': map<nat, Frame>, content': Contents, b: nat, len: nat)
  {
    forall k: nat | k < len :: ByteAt(table', content', b, k) == ByteAt(table, content, a, k)
  }

  /** Every mapped page outside the `n` pages at `a` is still mapped, with the same contents. */
  ghost predicate SameElsewhere(table: map<nat, Frame>, content: Contents, table': map<nat, Frame>, content': Contents,
                                a: nat, n: nat)
  {
    forall p | p in table && !(a <= p < a + n) :: p in table' && Data(table', content', p) == Data(table, content, p)
  }

  lemma TwoRegions(sizes: seq<nat>, brk: nat, mapped: set<nat>, a: nat, b: nat)
    requires Shape(sizes, brk, mapped) && Live(sizes, a) && Live(sizes, b) && a != b
    ensures End(sizes, a) <= b || End(sizes, b) <= a
  {
  }

  lemma BackedSeparate(table: map<nat, Frame>, free: seq<Frame>, kva: map<Frame, nat>, content: Contents)
    requires Backed(table, free, kva, content)
    ensures Separate(table, content)
  {
  }

  lemma BackedContent(table: map<nat, Frame>, free: seq<Frame>, kva: map<Frame, nat>, content: Contents, content': Contents)
    requires Backed(table, free, kva, content) && content'.Keys == content.Keys
    ensures Backed(table, free, kva, content')
  {
  }

  /** Allocation, copy and release together. */
  lemma Moved(t0: map<nat, Frame>, c0: Contents, t1: map<nat, Frame>, c1: Contents, c2: Contents, t3: map<nat, Frame>,
              a: nat, b: nat, n: nat, len: nat)
    requires c1 == c0 && (forall p | p in t0 :: p in t1 && t1[p] == t0[p]) && t3 == t1 - Range(a, n)
    requires forall k: nat | k < len :: ByteAt(t1, c2, b, k) == ByteAt(t1, c1, a, k)
    requires forall p: nat | !(b <= p < b + n) :: Data(t1, c2, p) == Data(t1, c1, p)
    requires (a + n <= b || b + n <= a) && len <= n * PAGE_SIZE
    requires forall p: nat | a <= p < a + n :: p in t0
    requires forall p: nat | b <= p < b + n :: p !in t0
    ensures SameBytes(t0, c0, a, t3, c2, b, len)
    ensures SameElsewhere(t0, c0, t3, c2, a, n)
  {
    forall p: nat | p in t0 ensures Data(t1, c1, p) == Data(t0, c0, p) {
      assert t1[p] == t0[p];
    }
    forall p: nat | !(a <= p < a + n) ensures Data(t3, c2, p) == Data(t1, c2, p) {
      assert p !in Range(a, n);
    }
    forall k: nat | k < len ensures ByteAt(t3, c2, b, k) == ByteAt(t0, c0, a, k) {
      var p, q := a + k / PAGE_SIZE, b + k / PAGE_SIZE;
      assert p in t0;
      assert Data(t3, c2, q) == Data(t1, c2, q) && Data(t1, c1, p) == Data(t0, c0, p);
      assert ByteAt(t1, c2, b, k) == ByteAt(t1, c1, a, k);
    }
    forall p | p in t0 && !(a <= p < a + n) ensures p in t3 && Data(t3, c2, p) == Data(t0, c0, p) {
      assert p !in Range(a, n);
      assert Data(t1, c2, p) == Data(t1, c1, p);
    }
  }

  lemma RecordOne(sizes: seq<nat>, a: nat, size: nat)
    requires Recorded(sizes) && a < |sizes| && PageSized(size)
    ensures Recorded(sizes[a := size])
  {
  }

  lemma ShrinkShape(sizes: seq<nat>, brk: nat, mapped: set<nat>, a: nat, size: nat)
    requires Shape(sizes, brk, mapped) && Live(sizes, a) && 0 < PagesFor(size) < PagesFor(sizes[a])
    ensures var m, n := PagesFor(size), PagesFor(sizes[a]);
            && (forall j: nat | a + m <= j < a + n :: j in mapped)
            && Shape(sizes[a := size], if a + n == brk then a + m else brk, mapped - Range(a + m, n - m))
  {
    hide PagesFor, Shape;
    var m, n := PagesFor(size), PagesFor(sizes[a]);
    var mapped' := mapped - Range(a + m, n - m);
    RegionIsMapped(sizes, brk, mapped, a);
    AboveBreak(sizes, brk, mapped);
    TopIsMapped(sizes, brk, mapped, a);
    assert mapped' == mapped - Range(a, n) + Range(a, m);
    ResizeShape(sizes, brk, mapped, a, size, if a + n == brk then a + m else brk);
  }

  lemma GrowShape(sizes: seq<nat>, brk: nat, mapped: set<nat>, a: nat, size: nat)
    requires Shape(sizes, brk, mapped) && Live(sizes, a) && PagesFor(sizes[a]) < PagesFor(size) && a + PagesFor(size) <= brk
    requires forall j: nat | End(sizes, a) <= j < a + PagesFor(size) :: sizes[j] == 0
    ensures var m, n := PagesFor(size), PagesFor(sizes[a]);
            && (forall j: nat | a + n <= j < a + m :: j !in mapped)
            && mapped + Range(a + n, m - n) == mapped + Range(a, m)
            && Shape(sizes[a := size], brk, mapped + Range(a + n, m - n))
  {
    hide PagesFor, Shape;
    var m, n := PagesFor(size), PagesFor(sizes[a]);
    RegionIsMapped(sizes, brk, mapped, a);
    RoomIsFree(sizes, brk, mapped, a, m);
    AboveBreak(sizes, brk, mapped);
    TopIsMapped(sizes, brk, mapped, a);
    assert mapped + Range(a + n, m - n) == mapped - Range(a, n) + Range(a, m);
    ResizeShape(sizes, brk, mapped, a, size, brk);
  }

  lemma TopIsMapped(sizes: seq<nat>, brk: nat, mapped: set<nat>, a: nat)
    requires Shape(sizes, brk, mapped) && Live(sizes, a)
    ensures brk > 0 && brk - 1 in mapped
    ensures forall i: nat | Live(sizes, i) && a < i :: End(sizes, a) <= i
    ensures forall i: nat, j: nat | i != a && Covers(sizes, i, j) :: !(a <= j < End(sizes, a))
  {
  }

  /** Zero entries behind a region are free pages: only a region's first page is non-zero. */
  lemma RoomIsFree(sizes: seq<nat>, brk: nat, mapped: set<nat>, a: nat, m: nat)
    requires Shape(sizes, brk, mapped) && Live(sizes, a) && a + m <= brk
    requires forall j: nat | End(sizes, a) <= j < a + m :: sizes[j] == 0
    ensures forall j: nat | End(sizes, a) <= j < a + m :: j !in mapped
  {
  }

  lemma RegionIsMapped(sizes: seq<nat>, brk: nat, mapped: set<nat>, a: nat)
    requires Shape(sizes, brk, mapped) && Live(sizes, a)
    ensures forall j: nat | a <= j < End(sizes, a) :: j in mapped
    ensures Range(a, PagesFor(sizes[a])) <= mapped && End(sizes, a) <= brk
  {
    hide PagesFor;
    forall j: nat | a <= j < End(sizes, a) ensures j in mapped {
      assert Covers(sizes, a, j);
    }
  }

  lemma ShapeBounds(sizes: seq<nat>, brk: nat, mapped: set<nat>)
    requires Shape(sizes, brk, mapped)
    ensures brk <= |sizes|
  {
  }

  lemma AboveBreak(sizes: seq<nat>, brk: nat, mapped: set<nat>)
    requires Shape(sizes, brk, mapped)
    ensures forall j | j in mapped :: j < brk
  {
  }

  lemma FitIsFree(sizes: seq<nat>, brk: nat, mapped: set<nat>, n: nat, a: nat)
    requires BestFit(mapped, brk, n, Some(a)) && n > 0
    ensures a + n <= brk && forall j: nat | a <= j < a + n :: j !in mapped
  {
  }

  /** A heap of `pages` pages: all but the last two are one region, the last but one is another, and the last is above the
      break. */
  method TwoRegionHeap(pages: nat, frames: seq<Frame>, memory: Contents) returns (heap: PageHeap)
    requires 4 <= pages <= HEAP_PAGES && pages <= |frames|
    requires NoDup(frames) && forall i | 0 <= i < |frames| :: frames[i] in memory
    ensures fresh(heap) && heap.Valid() && |heap.sizes| == pages && heap.brk == pages - 1
    ensures heap.sizes[0] == PAGE_SIZE * (pages - 2) && forall j: nat :: j in heap.table <==> j < pages - 1
  {
    hide Shape, Backed, PagesFor, BestFit, Recorded, Range, NoDup;
    PageCounts(pages - 2);
    PageCounts(1);
    heap := new PageHeap(pages, frames, memory);
    NoHole(heap.table.Keys, 0, pages - 2);
    var low := heap.KMalloc(PAGE_SIZE * (pages - 2));
    ghost var lower := heap.table.Keys;
    RangeKeys(0, pages - 2, lower, {});
    NoHole(lower, pages - 2, 1);
    var high := heap.KMalloc(PAGE_SIZE);
    RangeKeys(pages - 2, 1, heap.table.Keys, lower);
  }

  /** A request that a hole serves exactly is refused, in a heap of any size, that of the kernel's range included: when all
      pages but the last two are freed again, a request for as many finds only one page above the break. */
  method HoleIsRefused(pages: nat, frames: seq<Frame>, memory: Contents) returns (heap: PageHeap, r: Option<nat>)
    requires 4 <= pages <= HEAP_PAGES && pages <= |frames|
    requires NoDup(frames) && forall i | 0 <= i < |frames| :: frames[i] in memory
    ensures heap.Valid() && |heap.sizes| == pages && |heap.free| >= pages - 2
    ensures BestFit(heap.table.Keys, heap.brk, pages - 2, Some(0)) && r.None?
  {
    hide Shape, Backed, PagesFor, BestFit, Recorded, Range, NoDup;
    PageCounts(pages - 2);
    heap := TwoRegionHeap(pages, frames, memory);
    RangeKeys(0, pages - 2, Range(0, pages - 2), {});
    heap.KFree(0);
    assert forall j: nat :: j in heap.table <==> j == pages - 2;
    OneRegion(heap.sizes, heap.brk, heap.table.Keys, pages - 2);
    r := heap.KMalloc(PAGE_SIZE * (pages - 2));
  }

  lemma PageCounts(n: nat)
    ensures PagesFor(PAGE_SIZE * n) == n
  {
  }

  /** Without a free page below the break no run fits. */
  lemma NoHole(mapped: set<nat>, brk: nat, n: nat)
    requires n > 0 && forall j: nat | j < brk :: j in mapped
    ensures forall a :: !BestFit(mapped, brk, n, Some(a))
  {
    forall x: nat, y: nat ensures !IsRun(mapped, brk, x, y) {
      assert x < brk ==> x in mapped;
    }
  }

  lemma RangeKeys(a: nat, n: nat, keys: set<nat>, before: set<nat>)
    requires keys == before + Range(a, n)
    ensures forall j: nat :: j in keys <==> j in before || a <= j < a + n
  {
  }

  lemma OneRegion(sizes: seq<nat>, brk: nat, mapped: set<nat>, n: nat)
    requires Shape(sizes, brk, mapped) && n > 0 && forall j: nat :: j in mapped <==> j == n
    ensures brk == n + 1 && BestFit(mapped, brk, n, Some(0))
  {
    AboveBreak(sizes, brk, mapped);
    assert n in mapped;
    assert IsRun(mapped, n + 1, 0, n);
  }
}
