/** Physical frames: the free list, the 16-bit reference counts and the page-table entries that hold frames
    (kern/mem/memory_manager.c, kern/mem/paging_helpers.c), for the non-reserved frames. */
module Frames {
  import opened Common

  type Frame = int

  /** A page-table entry: its directory and its page number. */
  datatype Slot = Slot(dir: int, page: int)

  /** The free list from its head, the references field of every frame, and the frame in every entry that has one. */
  datatype Mem = Mem(free: seq<Frame>, refs: map<Frame, nat>, table: map<Slot, Frame>)

  const COUNTS: nat := 0x1_0000

  // ---------------------------------------------------------------------------
  // Operations
  // ---------------------------------------------------------------------------

  /** initialize_frame_info and LIST_INSERT_HEAD. */
  function FreeFrame(m: Mem, f: Frame): Mem {
    m.(free := [f] + m.free, refs := m.refs[f := 0])
  }

  function DecrementReferences(m: Mem, f: Frame): Mem
    requires f in m.refs
  {
    var r := (m.refs[f] + COUNTS - 1) % COUNTS;
    if r == 0 then FreeFrame(m, f) else m.(refs := m.refs[f := r])
  }

  function UnmapFrame(m: Mem, s: Slot): Mem
    requires s in m.table ==> m.table[s] in m.refs
  {
    if s !in m.table then m
    else var m1 := DecrementReferences(m, m.table[s]); m1.(table := m1.table - {s})
  }

  function MapFrame(m: Mem, f: Frame, s: Slot): Mem
    requires f in m.refs && (s in m.table ==> m.table[s] in m.refs)
  {
    if s in m.table && m.table[s] == f then m
    else
      var m1 := UnmapFrame(m, s);
      m1.(refs := m1.refs[f := (m1.refs[f] + 1) % COUNTS], table := m1.table[s := f])
  }

  /** allocate_frame: the head of the free list; without one the kernel panics. */
  function AllocateFrame(m: Mem): (Mem, Frame)
    requires m.free != []
  {
    (m.(free := m.free[1..], refs := m.refs[m.free[0] := 0]), m.free[0])
  }

  /** alloc_page: 1 if the page has a frame, else a fresh frame is mapped there; None is the panic. */
  function AllocPage(m: Mem, s: Slot): Option<(Mem, int)> {
    if s in m.table then Some((m, 1))
    else if m.free == [] then None
    else var (m1, f) := AllocateFrame(m); Some((MapFrame(m1, f, s), 0))
  }

  // ---------------------------------------------------------------------------
  // The invariant
  // ---------------------------------------------------------------------------

  ghost function Holders(table: map<Slot, Frame>, f: Frame): set<Slot> {
    set s | s in table && table[s] == f
  }

  /** A frame's count is that of the entries holding it, up to 16 bits; it is free just when no entry holds it.
      `loose` is a frame that has been taken off the free list and is not mapped yet. */
  ghost predicate FrameOk(m: Mem, f: Frame, loose: set<Frame>)
    requires f in m.refs
  {
    var n := |Holders(m.table, f)|;
    && m.refs[f] == n % COUNTS && n <= COUNTS
    && (f in m.free <==> n == 0 && f !in loose)
  }

  ghost predicate Known(m: Mem) {
    NoDup(m.free) && (forall f | f in m.free :: f in m.refs) && (forall s | s in m.table :: m.table[s] in m.refs)
  }

  /** The counts fit, but for at most one that has just wrapped to zero. */
  ghost predicate Tracked(m: Mem, loose: set<Frame>) {
    Known(m) && forall f | f in m.refs :: FrameOk(m, f, loose)
  }

  /** Every count is exactly the number of entries holding the frame, and exactly the frames nobody holds are on the
      free list, once each. */
  ghost predicate Inv(m: Mem) {
    && Known(m)
    && (forall f | f in m.refs :: m.refs[f] == |Holders(m.table, f)|)
    && (forall f | f in m.refs :: f in m.free <==> m.refs[f] == 0)
    && (forall f | f in m.refs :: m.refs[f] < COUNTS)
  }

  ghost predicate InRange(m: Mem) {
    forall f | f in m.refs :: |Holders(m.table, f)| < COUNTS
  }

  lemma InvIsTracked(m: Mem)
    ensures Inv(m) <==> Tracked(m, {}) && InRange(m)
  {
  }

  // ---------------------------------------------------------------------------
  // Unmapping
  // ---------------------------------------------------------------------------

  lemma HoldersWithout(table: map<Slot, Frame>, s: Slot, f: Frame)
    requires s in table
    ensures Holders(table - {s}, f) == Holders(table, f) - {s}
    ensures |Holders(table - {s}, f)| == |Holders(table, f)| - (if table[s] == f then 1 else 0)
  {
  }

  lemma HoldersWith(table: map<Slot, Frame>, s: Slot, g: Frame, f: Frame)
    requires s !in table
    ensures Holders(table[s := g], f) == Holders(table, f) + (if g == f then {s} else {})
    ensures |Holders(table[s := g], f)| == |Holders(table, f)| + (if g == f then 1 else 0)
  {
  }

  lemma UnmapFrameOk(m: Mem, s: Slot, loose: set<Frame>, f: Frame)
    requires Tracked(m, loose) && s in m.table && f in m.refs && m.table[s] !in loose
    ensures f in UnmapFrame(m, s).refs && FrameOk(UnmapFrame(m, s), f, loose)
  {
    hide Holders, Known;
    HoldersWithout(m.table, s, f);
    assert FrameOk(m, f, loose);
  }

  lemma UnmapKnown(m: Mem, s: Slot, loose: set<Frame>)
    requires Tracked(m, loose) && s in m.table
    ensures m.table[s] in m.refs && Known(UnmapFrame(m, s))
  {
  }

  lemma UnmapKeepsTracked(m: Mem, s: Slot, loose: set<Frame>)
    requires Tracked(m, loose) && (s in m.table ==> m.table[s] !in loose)
    ensures s in m.table ==> m.table[s] in m.refs
    ensures Tracked(UnmapFrame(m, s), loose) && UnmapFrame(m, s).refs.Keys == m.refs.Keys
    ensures UnmapFrame(m, s).table == m.table - {s}
  {
    hide FrameOk, Known;
    if s in m.table {
      UnmapKnown(m, s, loose);
      forall f | f in UnmapFrame(m, s).refs ensures FrameOk(UnmapFrame(m, s), f, loose) {
        UnmapFrameOk(m, s, loose, f);
      }
    } else {
      assert m.table - {s} == m.table;
    }
  }

  // ---------------------------------------------------------------------------
  // Mapping
  // ---------------------------------------------------------------------------

  /** The last step of map_frame, into an entry that is empty. */
  function Enter(m: Mem, f: Frame, s: Slot): Mem
    requires f in m.refs
  {
    m.(refs := m.refs[f := (m.refs[f] + 1) % COUNTS], table := m.table[s := f])
  }

  lemma EnterKeepsTracked(m: Mem, f: Frame, s: Slot, loose: set<Frame>)
    requires Tracked(m, loose) && f in m.refs && s !in m.table && f !in m.free && |Holders(m.table, f)| < COUNTS
    ensures Tracked(Enter(m, f, s), loose - {f})
  {
    hide Holders, NoDup;
    var m' := Enter(m, f, s);
    forall g | g in m'.refs ensures FrameOk(m', g, loose - {f}) {
      assert FrameOk(m, g, loose);
      HoldersWith(m.table, s, f, g);
    }
  }

  lemma MapKeepsTracked(m: Mem, f: Frame, s: Slot, loose: set<Frame>)
    requires Tracked(m, loose) && f in m.refs && f !in m.free && (s in m.table ==> m.table[s] !in loose)
    requires |Holders(m.table, f)| < COUNTS && f !in loose - {f}
    ensures s in m.table ==> m.table[s] in m.refs
    ensures var m' := MapFrame(m, f, s);
            Tracked(m', loose - {f}) && m'.refs.Keys == m.refs.Keys && m'.table == m.table[s := f]
  {
    hide FrameOk, Known, Holders, UnmapFrame;
    UnmapKeepsTracked(m, s, loose);
    if s in m.table && m.table[s] == f {
      assert m.table[s := f] == m.table;
      LooseMapped(m, s, loose);
    } else {
      OtherFree(m, f, s);
      HoldersShrink(m.table, s, f);
      EnterKeepsTracked(UnmapFrame(m, s), f, s, loose);
      assert (m.table - {s})[s := f] == m.table[s := f];
    }
  }

  lemma LooseMapped(m: Mem, s: Slot, loose: set<Frame>)
    requires Tracked(m, loose) && s in m.table && m.table[s] !in loose
    ensures Tracked(m, loose - {m.table[s]})
  {
  }

  /** Unmapping one frame frees no other. */
  lemma OtherFree(m: Mem, f: Frame, s: Slot)
    requires s in m.table ==> m.table[s] in m.refs && m.table[s] != f
    ensures f in UnmapFrame(m, s).free <==> f in m.free
  {
  }

  lemma HoldersShrink(table: map<Slot, Frame>, s: Slot, f: Frame)
    ensures |Holders(table - {s}, f)| <= |Holders(table, f)|
  {
    if s in table {
      HoldersWithout(table, s, f);
    } else {
      assert table - {s} == table;
    }
  }

  // ---------------------------------------------------------------------------
  // When mapping keeps the counts right
  // ---------------------------------------------------------------------------

  lemma UnmapKeepsInv(m: Mem, s: Slot)
    requires Inv(m)
    ensures s in m.table ==> m.table[s] in m.refs
    ensures Inv(UnmapFrame(m, s)) && UnmapFrame(m, s).table == m.table - {s}
    ensures UnmapFrame(m, s).refs.Keys == m.refs.Keys
  {
    hide Tracked, Known, Holders, FrameOk, UnmapFrame, Inv;
    InvIsTracked(m);
    UnmapKeepsTracked(m, s, {});
    forall f | f in UnmapFrame(m, s).refs ensures |Holders(UnmapFrame(m, s).table, f)| < COUNTS {
      HoldersShrink(m.table, s, f);
    }
    InvIsTracked(UnmapFrame(m, s));
  }

  /** A frame whose last entry goes is put on the free list, once, and only then. */
  lemma UnmapFreesLast(m: Mem, s: Slot)
    requires Inv(m) && s in m.table
    ensures m.table[s] in m.refs
    ensures var f := m.table[s]; var m' := UnmapFrame(m, s);
            && f !in m.free
            && m'.free == (if Holders(m.table, f) == {s} then [f] + m.free else m.free)
  {
    hide NoDup;
    var f := m.table[s];
    assert s in Holders(m.table, f);
    if |Holders(m.table, f)| == 1 {
      SingleHolder(Holders(m.table, f), s);
    }
  }

  lemma SingleHolder(S: set<Slot>, s: Slot)
    requires |S| == 1 && s in S
    ensures S == {s}
  {
    assert |S - {s}| == 0;
    assert S == (S - {s}) + {s};
  }

  /** map_frame keeps the invariant exactly when it finds its frame in the entry already, or the frame is in use (off
      the free list) with room in its count. */
  lemma MapKeepsInvIff(m: Mem, f: Frame, s: Slot)
    requires Inv(m) && f in m.refs
    ensures s in m.table ==> m.table[s] in m.refs
    ensures Inv(MapFrame(m, f, s)) <==> (s in m.table && m.table[s] == f) || (f !in m.free && m.refs[f] < COUNTS - 1)
  {
    hide Known, Holders, FrameOk, Inv;
    InvIsTracked(m);
    UnmapKeepsInv(m, s);
    InvFacts(m, f);
    if !(s in m.table && m.table[s] == f) {
      var m' := MapFrame(m, f, s);
      OtherFree(m, f, s);
      MapCount(m, f, s);
      InvIsTracked(m');
      if f !in m.free {
        var none: set<Frame> := {};
        MapKeepsTracked(m, f, s, none);
        assert none - {f} == none;
        if m.refs[f] < COUNTS - 1 {
          forall g | g in m'.refs ensures |Holders(m'.table, g)| < COUNTS {
            InvFacts(m, g);
            MapOther(m, f, s, g);
          }
        } else {
          assert |Holders(m'.table, f)| == COUNTS;
        }
      } else {
        if Inv(m') {
          InvFacts(m', f);
        }
      }
    }
  }

  /** The entries 0 up to `n` of directory 0 all hold frame 7. */
  function Crowd(n: nat): map<Slot, Frame> {
    if n == 0 then map[] else Crowd(n - 1)[Slot(0, n - 1) := 7]
  }

  lemma {:induction false} CrowdHolds(n: nat)
    ensures |Holders(Crowd(n), 7)| == n && (forall s | s in Crowd(n) :: s.dir == 0 && s.page < n && Crowd(n)[s] == 7)
  {
    if n > 0 {
      CrowdHolds(n - 1);
      HoldersWith(Crowd(n - 1), Slot(0, n - 1), 7, 7);
    }
  }

  /** The count runs over: a frame held by 65535 entries is counted right, and mapping it once more makes its count 0
      although 65536 entries hold it. */
  lemma CountRunsOver()
    ensures var m := Mem([], map[7 := COUNTS - 1], Crowd(COUNTS - 1));
            && Inv(m) && Slot(1, 0) !in m.table
            && var m' := MapFrame(m, 7, Slot(1, 0)); m'.refs[7] == 0 && |Holders(m'.table, 7)| == COUNTS && !Inv(m')
  {
    hide Crowd;
    CrowdHolds(COUNTS - 1);
    var m := Mem([], map[7 := COUNTS - 1], Crowd(COUNTS - 1));
    assert Inv(m);
    MapCount(m, 7, Slot(1, 0));
  }

  lemma InvFacts(m: Mem, f: Frame)
    requires Inv(m) && f in m.refs
    ensures m.refs[f] == |Holders(m.table, f)| < COUNTS && (f in m.free <==> m.refs[f] == 0)
  {
  }

  lemma MapCount(m: Mem, f: Frame, s: Slot)
    requires Inv(m) && f in m.refs && !(s in m.table && m.table[s] == f)
    requires s in m.table ==> m.table[s] in m.refs
    ensures |Holders(MapFrame(m, f, s).table, f)| == |Holders(m.table, f)| + 1
    ensures f in MapFrame(m, f, s).free <==> f in m.free
    ensures f in MapFrame(m, f, s).refs
  {
    hide Inv, Holders;
    OtherFree(m, f, s);
    var t := m.table - {s};
    assert UnmapFrame(m, s).table == t;
    HoldersWith(t, s, f, f);
    if s in m.table {
      HoldersWithout(m.table, s, f);
    }
  }

  lemma MapOther(m: Mem, f: Frame, s: Slot, g: Frame)
    requires Inv(m) && f in m.refs && g in m.refs && !(s in m.table && m.table[s] == f)
    requires s in m.table ==> m.table[s] in m.refs
    ensures |Holders(MapFrame(m, f, s).table, g)| <= |Holders(m.table, g)| + (if f == g then 1 else 0)
  {
    hide Inv, Holders;
    var t := m.table - {s};
    assert UnmapFrame(m, s).table == t;
    HoldersWith(t, s, f, g);
    HoldersShrink(m.table, s, g);
  }

  // ---------------------------------------------------------------------------
  // Fresh frames
  // ---------------------------------------------------------------------------

  lemma AllocateLoosens(m: Mem)
    requires Inv(m) && m.free != []
    ensures var (m1, f) := AllocateFrame(m);
            && f in m.refs && m1.refs == m.refs && m1.table == m.table && f !in m1.free && Tracked(m1, {f})
            && Holders(m.table, f) == {} && InRange(m1)
  {
  }

  /** A fresh frame mapped into any entry: the frame that was there, if any, gives up that entry. */
  lemma AllocateAndMap(m: Mem, s: Slot)
    requires Inv(m) && m.free != []
    ensures var (m1, f) := AllocateFrame(m);
            && f in m.refs && f in m1.refs && f == m.free[0] && (s in m1.table ==> m1.table[s] in m1.refs)
            && var m' := MapFrame(m1, f, s);
            && Inv(m') && m'.table == m.table[s := f] && m'.refs.Keys == m.refs.Keys
            && Holders(m.table, f) == {}
  {
    hide Known, Holders, FrameOk, Inv, MapFrame;
    AllocateLoosens(m);
    var (m1, f) := AllocateFrame(m);
    UnmapKeepsInv(m, s);
    FreshIsUnmapped(m, s);
    MapKeepsTracked(m1, f, s, {f});
    var m' := MapFrame(m1, f, s);
    assert {f} - {f} == {};
    forall g | g in m'.refs ensures |Holders(m'.table, g)| < COUNTS {
      assert |Holders(m1.table, g)| < COUNTS;
      SetHolder(m.table, s, f, g);
    }
    InvIsTracked(m');
  }

  lemma FreshIsUnmapped(m: Mem, s: Slot)
    requires Inv(m) && m.free != []
    ensures s in m.table ==> m.table[s] != m.free[0]
  {
    if s in m.table {
      assert s in Holders(m.table, m.table[s]);
      assert m.free[0] in m.free;
    }
  }

  lemma SetHolder(table: map<Slot, Frame>, s: Slot, f: Frame, g: Frame)
    requires Holders(table, f) == {}
    ensures |Holders(table[s := f], g)| <= if f == g then 1 else |Holders(table, g)|
  {
    hide Holders;
    assert (table - {s})[s := f] == table[s := f];
    HoldersWith(table - {s}, s, f, g);
    HoldersShrink(table, s, g);
  }

  /** alloc_page leaves a mapped page alone and gives an unmapped one a frame that no entry held. */
  lemma AllocPageKeepsInv(m: Mem, s: Slot)
    requires Inv(m) && AllocPage(m, s).Some?
    ensures var (m', code) := AllocPage(m, s).value;
            && Inv(m') && s in m'.table
            && (code == 1 ==> m' == m && s in m.table)
            && (code == 0 ==> s !in m.table && m'.table == m.table[s := m'.table[s]] && Holders(m'.table, m'.table[s]) == {s})
  {
    hide Inv, MapFrame, Holders;
    if s !in m.table {
      AllocateAndMap(m, s);
      var f := m.free[0];
      HoldersWith(m.table, s, f, f);
    }
  }

  // ---------------------------------------------------------------------------
  // The frame lists as they are updated
  // ---------------------------------------------------------------------------

  class FrameManager {
    var free: seq<Frame>
    var refs: map<Frame, nat>
    var table: map<Slot, Frame>

    function View(): Mem
      reads this
    {
      Mem(free, refs, table)
    }

    method Allocate() returns (f: Frame)
      requires free != []
      modifies this
      ensures (View(), f) == AllocateFrame(old(View()))
    {
      f := free[0];
      free := free[1..];
      refs := refs[f := 0];
    }

    method Free(f: Frame)
      modifies this
      ensures View() == FreeFrame(old(View()), f)
    {
      refs := refs[f := 0];
      free := [f] + free;
    }

    method Decrement(f: Frame)
      requires f in refs && refs[f] < COUNTS
      modifies this
      ensures View() == DecrementReferences(old(View()), f)
    {
      var r := if refs[f] == 0 then COUNTS - 1 else refs[f] - 1;
      refs := refs[f := r];
      if r == 0 {
        Free(f);
      }
    }

    method Unmap(s: Slot)
      requires s in table ==> table[s] in refs && refs[table[s]] < COUNTS
      modifies this
      ensures View() == UnmapFrame(old(View()), s)
    {
      if s in table {
        Decrement(table[s]);
        table := table - {s};
      }
    }

    method Map(f: Frame, s: Slot)
      requires f in refs && refs[f] < COUNTS
      requires s in table ==> table[s] in refs && refs[table[s]] < COUNTS
      modifies this
      ensures View() == MapFrame(old(View()), f, s)
    {
      if s in table {
        if table[s] == f {
          return;
        }
        Unmap(s);
      }
      refs := refs[f := (refs[f] + 1) % COUNTS];
      table := table[s := f];
    }

    /** alloc_page; running out of frames stops the kernel. */
    method AllocatePage(s: Slot) returns (code: int)
      requires Inv(View()) && (s !in table ==> free != [])
      modifies this
      ensures Some((View(), code)) == AllocPage(old(View()), s)
      ensures Inv(View()) && s in table
    {
      hide Inv;
      AllocPageKeepsInv(View(), s);
      if s in table {
        return 1;
      }
      AllocateAndMap(View(), s);
      var f := Allocate();
      Map(f, s);
      return 0;
    }
  }
}
