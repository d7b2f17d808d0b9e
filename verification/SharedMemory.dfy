/** Shared objects over reference-counted frames (kern/mem/shared_memory_manager.c:41-252). */
module SharedMemory {
  import opened Common
  import opened Frames

  // ---------------------------------------------------------------------------
  // Mapping a range of pages
  // ---------------------------------------------------------------------------

  /** Every entry holds a known frame, and counts are 16-bit words. */
  ghost predicate Typed(m: Mem) {
    (forall s | s in m.table :: m.table[s] in m.refs) && (forall f | f in m.refs :: m.refs[f] < COUNTS)
  }

  lemma MapTyped(m: Mem, f: Frame, s: Slot)
    requires Typed(m) && f in m.refs
    ensures s in m.table ==> m.table[s] in m.refs
    ensures Typed(MapFrame(m, f, s)) && MapFrame(m, f, s).refs.Keys == m.refs.Keys
    ensures MapFrame(m, f, s).table == m.table[s := f]
    ensures forall g | g in m.free :: g in MapFrame(m, f, s).free
  {
  }

  /** The loop of get_shared_object after `i` turns. */
  ghost function GetPages(m: Mem, frames: seq<Frame>, d: int, va: int, i: nat): (r: Mem)
    requires Typed(m) && (forall f | f in frames :: f in m.refs) && i <= |frames|
    ensures Typed(r) && r.refs.Keys == m.refs.Keys
  {
    if i == 0 then m
    else
      var m1 := GetPages(m, frames, d, va, i - 1);
      var f := frames[i - 1];
      assert f in frames;
      MapTyped(m1, f, Slot(d, va + i - 1));
      MapFrame(m1, f, Slot(d, va + i - 1))
  }

  ghost function Targets(d: int, va: int, i: nat): set<Slot> {
    set p | va <= p < va + i :: Slot(d, p)
  }

  /** Entries `t` agree with `old` outside the targets and hold the frames in order inside. */
  ghost predicate Placed(t: map<Slot, Frame>, was: map<Slot, Frame>, frames: seq<Frame>, d: int, va: int) {
    && (forall p | va <= p < va + |frames| :: Slot(d, p) in t && t[Slot(d, p)] == frames[p - va])
    && (forall s | s !in Targets(d, va, |frames|) :: (s in t <==> s in was) && (s in t ==> t[s] == was[s]))
  }

  lemma PlaceOne(t: map<Slot, Frame>, was: map<Slot, Frame>, frames: seq<Frame>, d: int, va: int, f: Frame)
    requires Placed(t, was, frames, d, va)
    ensures Placed(t[Slot(d, va + |frames|) := f], was, frames + [f], d, va)
  {
  }

  lemma {:induction false} GetPlaces(m: Mem, frames: seq<Frame>, d: int, va: int, i: nat)
    requires Typed(m) && (forall f | f in frames :: f in m.refs) && i <= |frames|
    ensures Placed(GetPages(m, frames, d, va, i).table, m.table, frames[..i], d, va)
    decreases i
  {
    hide Typed, MapFrame, Placed;
    if i == 0 {
      NothingPlaced(m.table, d, va);
      assert frames[..0] == [];
    } else {
      GetPlaces(m, frames, d, va, i - 1);
      var m1 := GetPages(m, frames, d, va, i - 1);
      var f := frames[i - 1];
      assert f in frames;
      MapTyped(m1, f, Slot(d, va + i - 1));
      PlaceOne(m1.table, m.table, frames[..i - 1], d, va, f);
      assert frames[..i] == frames[..i - 1] + [f];
    }
  }

  lemma NothingPlaced(t: map<Slot, Frame>, d: int, va: int)
    ensures Placed(t, t, [], d, va)
  {
  }

  /** Who holds frame `g` after frames have been placed. */
  lemma PlacedHolders(t: map<Slot, Frame>, was: map<Slot, Frame>, frames: seq<Frame>, d: int, va: int, g: Frame)
    requires Placed(t, was, frames, d, va)
    ensures g !in frames ==> Holders(t, g) == Holders(was, g) - Targets(d, va, |frames|)
    ensures forall k | 0 <= k < |frames| && NoDup(frames) && frames[k] == g ::
              Holders(t, g) == Holders(was, g) - Targets(d, va, |frames|) + {Slot(d, va + k)}
  {
  }

  // ---------------------------------------------------------------------------
  // When getting a shared object keeps the counts right
  // ---------------------------------------------------------------------------

  /** The entries outside the first `i` target pages that hold frame `f` before the call. */
  ghost function Elsewhere(m: Mem, f: Frame, d: int, va: int, i: nat): set<Slot> {
    Holders(m.table, f) - Targets(d, va, i)
  }

  /** Every frame of the object is held by some entry that the pages mapped before it do not overwrite, and by fewer
      than 65535 entries outside the target range. */
  ghost predicate Sharable(m: Mem, frames: seq<Frame>, d: int, va: int) {
    && (forall i | 0 <= i < |frames| :: Elsewhere(m, frames[i], d, va, i) != {})
    && (forall i | 0 <= i < |frames| :: |Elsewhere(m, frames[i], d, va, |frames|)| < COUNTS - 1)
  }

  ghost predicate Object(m: Mem, frames: seq<Frame>) {
    NoDup(frames) && forall f | f in frames :: f in m.refs
  }

  lemma InvTyped(m: Mem)
    requires Inv(m)
    ensures Typed(m)
  {
  }

  lemma HoldersBefore(m: Mem, frames: seq<Frame>, d: int, va: int, i: nat)
    requires Inv(m) && Typed(m) && Object(m, frames) && i < |frames|
    ensures Holders(GetPages(m, frames, d, va, i).table, frames[i]) == Elsewhere(m, frames[i], d, va, i)
  {
    hide Inv, Placed, Holders, Typed;
    GetPlaces(m, frames, d, va, i);
    PlacedHolders(GetPages(m, frames, d, va, i).table, m.table, frames[..i], d, va, frames[i]);
  }

  /** As long as each frame is still held when its turn comes, the counts are tracked. */
  lemma {:induction false} GetTracked(m: Mem, frames: seq<Frame>, d: int, va: int, i: nat)
    requires Inv(m) && Typed(m) && Object(m, frames) && i <= |frames|
    requires forall k | 0 <= k < i :: Elsewhere(m, frames[k], d, va, k) != {}
    ensures Tracked(GetPages(m, frames, d, va, i), {})
    decreases i
  {
    hide Inv, Typed, Tracked, Holders, MapFrame, Targets;
    InvIsTracked(m);
    if i > 0 {
      GetTracked(m, frames, d, va, i - 1);
      HoldersBefore(m, frames, d, va, i - 1);
      var m1, f := GetPages(m, frames, d, va, i - 1), frames[i - 1];
      assert f in frames;
      InvFacts(m, f);
      SubsetCount(Elsewhere(m, f, d, va, i - 1), Holders(m.table, f));
      HeldIsUsed(m1, f);
      var none: set<Frame> := {};
      MapKeepsTracked(m1, f, Slot(d, va + i - 1), none);
      assert none - {f} == none;
    }
  }

  lemma HeldIsUsed(m: Mem, f: Frame)
    requires Tracked(m, {}) && f in m.refs && Holders(m.table, f) != {}
    ensures f !in m.free
  {
  }

  /** A frame that is free when its turn comes stays on the free list while it is mapped. */
  lemma {:induction false} FreeStaysFree(m: Mem, frames: seq<Frame>, d: int, va: int, i: nat, n: nat, g: Frame)
    requires Typed(m) && Object(m, frames) && i <= n <= |frames| && g in GetPages(m, frames, d, va, i).free
    ensures g in GetPages(m, frames, d, va, n).free
    decreases n
  {
    hide Typed, MapFrame;
    if i < n {
      FreeStaysFree(m, frames, d, va, i, n - 1, g);
      var m1, f := GetPages(m, frames, d, va, n - 1), frames[n - 1];
      assert f in frames;
      MapTyped(m1, f, Slot(d, va + n - 1));
    }
  }

  /** The first frame that has lost its last entry when its turn comes breaks the invariant for good. */
  lemma LostFrameBreaks(m: Mem, frames: seq<Frame>, d: int, va: int, i: nat)
    requires Inv(m) && Typed(m) && Object(m, frames) && i < |frames|
    requires forall k | 0 <= k < i :: Elsewhere(m, frames[k], d, va, k) != {}
    requires Elsewhere(m, frames[i], d, va, i) == {}
    ensures !Inv(GetPages(m, frames, d, va, |frames|))
  {
    hide Typed, MapFrame, Targets, Placed, FrameOk, Known;
    GetTracked(m, frames, d, va, i);
    HoldersBefore(m, frames, d, va, i);
    var f := frames[i];
    assert f in frames;
    UnheldIsFree(GetPages(m, frames, d, va, i), f);
    FreeStaysFree(m, frames, d, va, i, |frames|, f);
    var r := GetPages(m, frames, d, va, |frames|);
    GetPlaces(m, frames, d, va, |frames|);
    assert frames[..|frames|] == frames;
    PlacedAt(r.table, m.table, frames, d, va, i);
    assert Slot(d, va + i) in Holders(r.table, f);
    if Inv(r) {
      InvFacts(r, f);
    }
  }

  lemma PlacedAt(t: map<Slot, Frame>, was: map<Slot, Frame>, frames: seq<Frame>, d: int, va: int, i: nat)
    requires Placed(t, was, frames, d, va) && i < |frames|
    ensures Slot(d, va + i) in t && t[Slot(d, va + i)] == frames[i]
  {
  }

  lemma UnheldIsFree(m: Mem, f: Frame)
    requires Tracked(m, {}) && f in m.refs && Holders(m.table, f) == {}
    ensures f in m.free
  {
  }

  lemma {:induction false} FirstLost(m: Mem, frames: seq<Frame>, d: int, va: int, i: nat)
    requires Inv(m) && Typed(m) && Object(m, frames) && i < |frames| && Elsewhere(m, frames[i], d, va, i) == {}
    ensures !Inv(GetPages(m, frames, d, va, |frames|))
    decreases i
  {
    hide Inv, Typed, Elsewhere, Object, GetPages;
    if k: nat :| k < i && Elsewhere(m, frames[k], d, va, k) == {} {
      FirstLost(m, frames, d, va, k);
    } else {
      LostFrameBreaks(m, frames, d, va, i);
    }
  }

  lemma FinalCount(m: Mem, frames: seq<Frame>, d: int, va: int, g: Frame)
    requires Inv(m) && Typed(m) && Object(m, frames) && g in m.refs
    ensures var n := |Holders(GetPages(m, frames, d, va, |frames|).table, g)|;
            && (g !in frames ==> n < COUNTS)
            && (forall k | 0 <= k < |frames| && frames[k] == g :: n == |Elsewhere(m, g, d, va, |frames|)| + 1)
  {
    hide Inv, Typed, Holders, Placed, GetPages;
    var r := GetPages(m, frames, d, va, |frames|);
    GetPlaces(m, frames, d, va, |frames|);
    assert frames[..|frames|] == frames;
    PlacedHolders(r.table, m.table, frames, d, va, g);
    InvFacts(m, g);
    if g !in frames {
      SubsetCount(Holders(r.table, g), Holders(m.table, g));
    }
    forall k | 0 <= k < |frames| && frames[k] == g
      ensures |Holders(r.table, g)| == |Elsewhere(m, g, d, va, |frames|)| + 1 {
      assert Slot(d, va + k) in Targets(d, va, |frames|);
    }
  }

  /** get_shared_object keeps every count right exactly when the object is sharable there: no frame of it has lost, or
      loses during the call, its last entry, and no count runs over. */
  lemma GetKeepsInvIff(m: Mem, frames: seq<Frame>, d: int, va: int)
    requires Inv(m) && Object(m, frames)
    ensures Typed(m) && (Inv(GetPages(m, frames, d, va, |frames|)) <==> Sharable(m, frames, d, va))
  {
    hide Inv, Typed, Elsewhere, GetPages, Holders, Tracked, NoDup;
    InvTyped(m);
    if i: nat :| i < |frames| && Elsewhere(m, frames[i], d, va, i) == {} {
      FirstLost(m, frames, d, va, i);
    } else {
      GetTracked(m, frames, d, va, |frames|);
      var r := GetPages(m, frames, d, va, |frames|);
      InvIsTracked(r);
      forall g | g in r.refs
        ensures g in frames || |Holders(r.table, g)| < COUNTS {
        FinalCount(m, frames, d, va, g);
      }
      forall i: nat | i < |frames|
        ensures frames[i] in r.refs && |Holders(r.table, frames[i])| == |Elsewhere(m, frames[i], d, va, |frames|)| + 1 {
        ObjectFrame(m, frames, i);
        FinalCount(m, frames, d, va, frames[i]);
      }
      RangeIff(m, r, frames, d, va);
    }
  }

  lemma ObjectFrame(m: Mem, frames: seq<Frame>, i: nat)
    requires Object(m, frames) && i < |frames|
    ensures frames[i] in m.refs
  {
    var f := frames[i];
    assert f in frames;
  }

  lemma RangeIff(m: Mem, r: Mem, frames: seq<Frame>, d: int, va: int)
    requires forall g | g in r.refs :: g in frames || |Holders(r.table, g)| < COUNTS
    requires forall i: nat | i < |frames| ::
               frames[i] in r.refs && |Holders(r.table, frames[i])| == |Elsewhere(m, frames[i], d, va, |frames|)| + 1
    ensures InRange(r) <==> forall i | 0 <= i < |frames| :: |Elsewhere(m, frames[i], d, va, |frames|)| < COUNTS - 1
  {
  }

  // ---------------------------------------------------------------------------
  // Creating a shared object
  // ---------------------------------------------------------------------------

  /** The loop of create_shared_object after `i` turns: the memory and the frames stored so far. None is the panic of
      allocate_frame. */
  ghost function CreatePages(m: Mem, d: int, va: int, i: nat): (r: Option<(Mem, seq<Frame>)>)
    requires Inv(m)
    ensures r.Some? ==> Inv(r.value.0) && |r.value.1| == i
  {
    if i == 0 then Some((m, []))
    else
      match CreatePages(m, d, va, i - 1)
      case None => None
      case Some((m1, frames)) =>
        if m1.free == [] then None
        else
          AllocateAndMap(m1, Slot(d, va + i - 1));
          var (m2, f) := AllocateFrame(m1);
          Some((MapFrame(m2, f, Slot(d, va + i - 1)), frames + [f]))
  }

  /** The object's frames are distinct, held by the creator's pages alone, in order. */
  lemma {:induction false} CreatePlaces(m: Mem, d: int, va: int, i: nat)
    requires Inv(m) && CreatePages(m, d, va, i).Some?
    ensures var (r, frames) := CreatePages(m, d, va, i).value;
            && Inv(r) && Object(r, frames) && r.refs.Keys == m.refs.Keys && Placed(r.table, m.table, frames, d, va)
            && forall k | 0 <= k < |frames| :: Holders(r.table, frames[k]) == {Slot(d, va + k)}
    decreases i
  {
    hide Inv, Placed, Holders, MapFrame, NoDup;
    if i == 0 {
      NothingPlaced(m.table, d, va);
      EmptyObject(m);
    } else {
      CreatePlaces(m, d, va, i - 1);
      var (m1, frames) := CreatePages(m, d, va, i - 1).value;
      var s := Slot(d, va + i - 1);
      AllocateAndMap(m1, s);
      var (r, all) := CreatePages(m, d, va, i).value;
      var f := AllocateFrame(m1).1;
      PlaceOne(m1.table, m.table, frames, d, va, f);
      CreateHolders(m1, r, frames, d, va, f);
    }
  }

  lemma EmptyObject(m: Mem)
    ensures Object(m, [])
  {
  }

  lemma CreateHolders(m1: Mem, r: Mem, frames: seq<Frame>, d: int, va: int, f: Frame)
    requires Object(m1, frames) && f in m1.refs && r.refs.Keys == m1.refs.Keys
    requires Holders(m1.table, f) == {} && r.table == m1.table[Slot(d, va + |frames|) := f]
    requires forall k | 0 <= k < |frames| :: Holders(m1.table, frames[k]) == {Slot(d, va + k)}
    ensures Object(r, frames + [f])
    ensures forall k | 0 <= k < |frames + [f]| :: Holders(r.table, (frames + [f])[k]) == {Slot(d, va + k)}
  {
  }

  // ---------------------------------------------------------------------------
  // The table of shared objects
  // ---------------------------------------------------------------------------

  datatype Share = Share(id: nat, owner: int, name: string, size: nat, writable: bool, references: nat, frames: seq<Frame>)

  datatype System = System(mem: Mem, shares: seq<Share>)

  const NO_SHARE := -14
  const EXISTS := -15
  const NOT_EXISTS := -16

  /** The object's ID: its address without the top four bits. */
  function IdOf(record: nat): nat {
    record % 0x1000_0000
  }

  /** Records come from the kernel heap, at the top of the address space, so their IDs tell them apart. */
  lemma IdsTellApart(r1: nat, r2: nat)
    requires 0xF000_0000 <= r1 <= 0xFFFF_FFFF && 0xF000_0000 <= r2 <= 0xFFFF_FFFF
    ensures IdOf(r1) == IdOf(r2) <==> r1 == r2
    ensures IdOf(r1) + 0xF000_0000 == r1
  {
  }

  predicate Matches(sh: Share, owner: int, name: string) {
    sh.owner == owner && sh.name == name
  }

  ghost predicate SharesOk(m: Mem, shares: seq<Share>) {
    && (forall k | 0 <= k < |shares| ::
          Object(m, shares[k].frames) && |shares[k].frames| == RoundedPages(shares[k].size) > 0)
    && (forall j, k | 0 <= j < k < |shares| :: !Matches(shares[j], shares[k].owner, shares[k].name))
  }

  ghost predicate SystemInv(sys: System) {
    Inv(sys.mem) && SharesOk(sys.mem, sys.shares)
  }

  ghost predicate Shared(sys: System, owner: int, name: string) {
    exists k :: 0 <= k < |sys.shares| && Matches(sys.shares[k], owner, name)
  }

  /** The object of that owner and name. */
  ghost predicate Names(sys: System, k: nat, owner: int, name: string) {
    k < |sys.shares| && Matches(sys.shares[k], owner, name)
  }

  /** create_shared_object; `record` is the address kmalloc gave the object, None when it had no room. */
  ghost predicate Create(sys: System, owner: int, name: string, size: nat, writable: bool, d: int, va: int, record: Option<nat>,
                         sys': System, code: int)
    requires SystemInv(sys)
  {
    if Shared(sys, owner, name) then sys' == sys && code == EXISTS
    else if record.None? || RoundedPages(size) == 0 then sys' == sys && code == NO_SHARE
    else
      var r := CreatePages(sys.mem, d, va, RoundedPages(size));
      && r.Some? && code == IdOf(record.value)
      && sys' == System(r.value.0, sys.shares + [Share(IdOf(record.value), owner, name, size, writable, 1, r.value.1)])
  }

  lemma CreateKeeps(sys: System, owner: int, name: string, size: nat, writable: bool, d: int, va: int, record: Option<nat>,
                    sys': System, code: int)
    requires SystemInv(sys) && Create(sys, owner, name, size, writable, d, va, record, sys', code)
    ensures SystemInv(sys')
    ensures code >= 0 ==> sys'.mem.refs.Keys == sys.mem.refs.Keys
                          && Placed(sys'.mem.table, sys.mem.table, sys'.shares[|sys.shares|].frames, d, va)
  {
    hide Inv, Placed, NoDup, CreatePages, RoundedPages;
    if code >= 0 {
      CreatePlaces(sys.mem, d, va, RoundedPages(size));
      assert forall k | 0 <= k < |sys.shares| :: Object(sys'.mem, sys.shares[k].frames);
    }
  }

  /** get_shared_object. */
  ghost predicate Get(sys: System, owner: int, name: string, d: int, va: int, sys': System, code: int)
    requires SystemInv(sys)
  {
    if !Shared(sys, owner, name) then sys' == sys && code == NOT_EXISTS
    else
      exists k: nat :: Names(sys, k, owner, name) && GetAt(sys, k, d, va, sys') && code == sys.shares[k].id
  }

  ghost predicate GetAt(sys: System, k: nat, d: int, va: int, sys': System)
    requires SystemInv(sys) && k < |sys.shares|
  {
    InvTyped(sys.mem);
    var sh := sys.shares[k];
    sys' == System(GetPages(sys.mem, sh.frames, d, va, |sh.frames|), sys.shares[k := sh.(references := sh.references + 1)])
  }

  lemma SharesKept(m: Mem, m': Mem, shares: seq<Share>, k: nat, n: nat)
    requires SharesOk(m, shares) && m'.refs.Keys == m.refs.Keys && k < |shares|
    ensures SharesOk(m', shares[k := shares[k].(references := n)])
  {
  }

  /** Getting an object keeps the whole system's invariant exactly when the object is sharable there, and maps the
      object's frames in order in any case. */
  lemma GetKeepsIff(sys: System, k: nat, d: int, va: int, sys': System)
    requires SystemInv(sys) && k < |sys.shares| && GetAt(sys, k, d, va, sys')
    ensures SystemInv(sys') <==> Sharable(sys.mem, sys.shares[k].frames, d, va)
    ensures Placed(sys'.mem.table, sys.mem.table, sys.shares[k].frames, d, va)
    ensures sys'.mem.refs.Keys == sys.mem.refs.Keys
  {
    hide Inv, Placed, NoDup, RoundedPages, GetPages, Sharable;
    var frames := sys.shares[k].frames;
    assert Object(sys.mem, frames);
    InvTyped(sys.mem);
    GetKeepsInvIff(sys.mem, frames, d, va);
    GetPlaces(sys.mem, frames, d, va, |frames|);
    assert frames[..|frames|] == frames;
    SharesKept(sys.mem, sys'.mem, sys.shares, k, sys.shares[k].references + 1);
  }

  // ---------------------------------------------------------------------------
  // Runs
  // ---------------------------------------------------------------------------

  datatype Op =
    | PageOp(slot: Slot)
    | MapOp(frame: Frame, slot: Slot)
    | UnmapOp(slot: Slot)
    | CreateOp(owner: int, name: string, size: nat, writable: bool, dir: int, va: int, record: Option<nat>)
    | GetOp(share: nat, dir: int, va: int)
    | MissOp(owner: int, name: string)

  /** One call. Out of frames the kernel panics and there is no next state. */
  ghost predicate Next(sys: System, op: Op, sys': System)
    requires SystemInv(sys)
  {
    InvTyped(sys.mem);
    match op
    case PageOp(s) =>
      AllocPage(sys.mem, s).Some? && sys' == sys.(mem := AllocPage(sys.mem, s).value.0)
    case MapOp(f, s) => f in sys.mem.refs && sys' == sys.(mem := MapFrame(sys.mem, f, s))
    case UnmapOp(s) => sys' == sys.(mem := UnmapFrame(sys.mem, s))
    case CreateOp(owner, name, size, w, d, va, record) =>
      exists code :: Create(sys, owner, name, size, w, d, va, record, sys', code)
    case GetOp(k, d, va) => k < |sys.shares| && GetAt(sys, k, d, va, sys')
    case MissOp(owner, name) => !Shared(sys, owner, name) && sys' == sys
  }

  /** What the two mapping calls need for the counts to stay right; it can be checked before the call. */
  ghost predicate Proper(sys: System, op: Op) {
    match op
    case MapOp(f, s) =>
      || (s in sys.mem.table && sys.mem.table[s] == f)
      || (f !in sys.mem.free && f in sys.mem.refs && sys.mem.refs[f] < COUNTS - 1)
    case GetOp(k, d, va) => k < |sys.shares| ==> Sharable(sys.mem, sys.shares[k].frames, d, va)
    case _ => true
  }

  lemma AllocPageKeys(m: Mem, s: Slot)
    requires Inv(m) && AllocPage(m, s).Some?
    ensures AllocPage(m, s).value.0.refs.Keys == m.refs.Keys
  {
  }

  lemma SameSharesOk(m: Mem, m': Mem, shares: seq<Share>)
    requires SharesOk(m, shares) && m'.refs.Keys == m.refs.Keys
    ensures SharesOk(m', shares)
  {
  }

  /** Every call keeps all counts, the free list and the objects right, exactly when it is proper. */
  lemma NextKeepsIff(sys: System, op: Op, sys': System)
    requires SystemInv(sys) && Next(sys, op, sys')
    ensures SystemInv(sys') <==> Proper(sys, op)
  {
    hide Inv, SharesOk, MapFrame, UnmapFrame, AllocPage, Sharable, Shared, GetAt, Create;
    InvTyped(sys.mem);
    match op
    case PageOp(s) =>
      AllocPageKeepsInv(sys.mem, s);
      AllocPageKeys(sys.mem, s);
      SameSharesOk(sys.mem, sys'.mem, sys.shares);
    case MapOp(f, s) =>
      MapKeepsInvIff(sys.mem, f, s);
      MapTyped(sys.mem, f, s);
      SameSharesOk(sys.mem, sys'.mem, sys.shares);
    case UnmapOp(s) =>
      UnmapKeepsInv(sys.mem, s);
      SameSharesOk(sys.mem, sys'.mem, sys.shares);
    case CreateOp(owner, name, size, w, d, va, record) =>
      var code :| Create(sys, owner, name, size, w, d, va, record, sys', code);
      CreateKeeps(sys, owner, name, size, w, d, va, record, sys', code);
    case GetOp(k, d, va) => GetKeepsIff(sys, k, d, va, sys');
    case MissOp(_, _) =>
  }

  ghost predicate Run(ss: seq<System>, ops: seq<Op>) {
    && |ss| == |ops| + 1 && SystemInv(ss[0])
    && forall i | 0 <= i < |ops| :: SystemInv(ss[i]) ==> Next(ss[i], ops[i], ss[i + 1]) && Proper(ss[i], ops[i])
  }

  /** In every run of proper calls, every frame's count is the number of entries holding it, and the frames that nobody
      holds are exactly those on the free list. */
  lemma {:induction false} RunKeeps(ss: seq<System>, ops: seq<Op>, k: nat)
    requires Run(ss, ops) && k < |ss|
    ensures SystemInv(ss[k])
    decreases k
  {
    hide SystemInv, Next, Proper;
    if k > 0 {
      RunKeeps(ss, ops, k - 1);
      NextKeepsIff(ss[k - 1], ops[k - 1], ss[k]);
    }
  }

  /** Getting an object counts a reference; every other call leaves the objects there are alone. */
  lemma NextShares(sys: System, op: Op, sys': System, k: nat)
    requires SystemInv(sys) && Next(sys, op, sys') && k < |sys.shares|
    ensures k < |sys'.shares|
    ensures sys'.shares[k] == sys.shares[k].(references := sys.shares[k].references
                                                           + if op.GetOp? && op.share == k then 1 else 0)
  {
    hide Inv, SharesOk, MapFrame, UnmapFrame, AllocPage, CreatePages, GetPages, Shared, RoundedPages;
  }

  ghost function GetsOf(ops: seq<Op>, k: nat, i: nat, j: nat): nat
    requires i <= j <= |ops|
    decreases j
  {
    if i == j then 0 else GetsOf(ops, k, i, j - 1) + if ops[j - 1].GetOp? && ops[j - 1].share == k then 1 else 0
  }

  /** An object keeps its ID, owner, name, size and frames, and its references grow by one with each get. */
  lemma {:induction false} RunShares(ss: seq<System>, ops: seq<Op>, i: nat, j: nat, k: nat)
    requires Run(ss, ops) && i <= j < |ss| && k < |ss[i].shares|
    ensures k < |ss[j].shares|
    ensures ss[j].shares[k] == ss[i].shares[k].(references := ss[i].shares[k].references + GetsOf(ops, k, i, j))
    decreases j
  {
    hide SystemInv, Next, Proper;
    if i < j {
      RunShares(ss, ops, i, j - 1, k);
      RunKeeps(ss, ops, j - 1);
      NextShares(ss[j - 1], ops[j - 1], ss[j], k);
    }
  }

  /** An object that was created in step `i` has as many references as calls have mapped it: its creation and the gets. */
  lemma ReferencesCountMappings(ss: seq<System>, ops: seq<Op>, i: nat, j: nat)
    requires Run(ss, ops) && i < j < |ss| && ops[i].CreateOp? && |ss[i + 1].shares| > |ss[i].shares|
    ensures var k := |ss[i].shares|;
            && k < |ss[j].shares| && ss[j].shares[k].references == 1 + GetsOf(ops, k, i + 1, j)
            && Matches(ss[j].shares[k], ops[i].owner, ops[i].name) && ss[j].shares[k].size == ops[i].size
            && ss[j].shares[k].writable == ops[i].writable
  {
    hide Inv, SharesOk, Proper, CreatePages, Shared, RoundedPages, GetsOf;
    RunKeeps(ss, ops, i);
    assert Next(ss[i], ops[i], ss[i + 1]);
    RunShares(ss, ops, i + 1, j, |ss[i].shares|);
  }

  // ---------------------------------------------------------------------------
  // Sharers see the same frames
  // ---------------------------------------------------------------------------

  /** The pages from `va` on in directory `d` hold the frames of object `k`, in order. */
  ghost predicate Attached(sys: System, k: nat, d: int, va: int) {
    && k < |sys.shares|
    && forall p | va <= p < va + |sys.shares[k].frames| ::
         Slot(d, p) in sys.mem.table && sys.mem.table[Slot(d, p)] == sys.shares[k].frames[p - va]
  }

  /** The entries a call may write. */
  ghost function Touched(sys: System, op: Op): set<Slot> {
    match op
    case PageOp(s) => {s}
    case MapOp(_, s) => {s}
    case UnmapOp(s) => {s}
    case CreateOp(_, _, size, _, d, va, _) => Targets(d, va, RoundedPages(size))
    case GetOp(k, d, va) => if k < |sys.shares| then Targets(d, va, |sys.shares[k].frames|) else {}
    case MissOp(_, _) => {}
  }

  /** Entries that are not written keep their frame, and objects keep their frames. */
  lemma NextFrames(sys: System, op: Op, sys': System)
    requires SystemInv(sys) && Next(sys, op, sys')
    ensures forall s | s !in Touched(sys, op) ::
              (s in sys'.mem.table <==> s in sys.mem.table) && (s in sys.mem.table ==> sys'.mem.table[s] == sys.mem.table[s])
    ensures |sys.shares| <= |sys'.shares|
    ensures forall k | 0 <= k < |sys.shares| :: sys'.shares[k].frames == sys.shares[k].frames
  {
    hide Inv, SharesOk, MapFrame, UnmapFrame, CreatePages, GetPages, Targets, Sharable, Shared, RoundedPages;
    InvTyped(sys.mem);
    match op
    case PageOp(s) => AllocPageTable(sys.mem, s);
    case MapOp(f, s) => MapTyped(sys.mem, f, s);
    case UnmapOp(s) => UnmapKeepsInv(sys.mem, s);
    case CreateOp(owner, name, size, w, d, va, record) =>
      var code :| Create(sys, owner, name, size, w, d, va, record, sys', code);
      CreateKeeps(sys, owner, name, size, w, d, va, record, sys', code);
    case GetOp(k, d, va) => GetKeepsIff(sys, k, d, va, sys');
    case MissOp(_, _) =>
  }

  lemma AllocPageTable(m: Mem, s: Slot)
    requires Inv(m) && AllocPage(m, s).Some?
    ensures forall x | x != s :: (x in AllocPage(m, s).value.0.table <==> x in m.table)
                                 && (x in m.table ==> AllocPage(m, s).value.0.table[x] == m.table[x])
  {
  }

  lemma NextAttached(sys: System, op: Op, sys': System, k: nat, d: int, va: int)
    requires SystemInv(sys) && Next(sys, op, sys') && Attached(sys, k, d, va)
    requires Targets(d, va, |sys.shares[k].frames|) !! Touched(sys, op)
    ensures Attached(sys', k, d, va)
  {
    hide SystemInv, Next, Touched;
    NextFrames(sys, op, sys');
  }

  /** Whoever creates or gets an object is attached to it. */
  lemma GetAttaches(sys: System, k: nat, d: int, va: int, sys': System)
    requires SystemInv(sys) && Next(sys, GetOp(k, d, va), sys')
    ensures Attached(sys', k, d, va)
  {
    hide Inv, SharesOk, GetPages, Sharable;
    GetKeepsIff(sys, k, d, va, sys');
  }

  lemma CreateAttaches(sys: System, op: Op, sys': System)
    requires SystemInv(sys) && op.CreateOp? && Next(sys, op, sys') && |sys'.shares| > |sys.shares|
    ensures Attached(sys', |sys.shares|, op.dir, op.va)
  {
    hide Inv, SharesOk, CreatePages, Shared, RoundedPages;
    var code :| Create(sys, op.owner, op.name, op.size, op.writable, op.dir, op.va, op.record, sys', code);
    CreateKeeps(sys, op.owner, op.name, op.size, op.writable, op.dir, op.va, op.record, sys', code);
  }

  /** No call between `i` and `j` writes an entry of the range. */
  ghost predicate Undisturbed(ss: seq<System>, ops: seq<Op>, i: nat, j: nat, slots: set<Slot>)
    requires i <= j <= |ops| <= |ss|
  {
    forall t | i <= t < j :: slots !! Touched(ss[t], ops[t])
  }

  lemma {:induction false} RunAttached(ss: seq<System>, ops: seq<Op>, i: nat, j: nat, k: nat, d: int, va: int)
    requires Run(ss, ops) && i <= j < |ss| && Attached(ss[i], k, d, va)
    requires Undisturbed(ss, ops, i, j, Targets(d, va, |ss[i].shares[k].frames|))
    ensures Attached(ss[j], k, d, va) && ss[j].shares[k].frames == ss[i].shares[k].frames
    decreases j
  {
    hide SystemInv, Next, Proper, Touched, Targets;
    if i < j {
      RunAttached(ss, ops, i, j - 1, k, d, va);
      RunKeeps(ss, ops, j - 1);
      NextFrames(ss[j - 1], ops[j - 1], ss[j]);
      NextAttached(ss[j - 1], ops[j - 1], ss[j], k, d, va);
    }
  }

  /** All sharers of an object map the same frame at each page offset: however long ago each of them created or got it,
      as long as its own pages have not been written since. */
  lemma SharersAgree(ss: seq<System>, ops: seq<Op>, a: nat, b: nat, j: nat, k: nat,
                     d1: int, va1: int, d2: int, va2: int, off: nat)
    requires Run(ss, ops) && a <= j < |ss| && b <= j && Attached(ss[a], k, d1, va1) && Attached(ss[b], k, d2, va2)
    requires Undisturbed(ss, ops, a, j, Targets(d1, va1, |ss[a].shares[k].frames|))
    requires Undisturbed(ss, ops, b, j, Targets(d2, va2, |ss[b].shares[k].frames|))
    requires off < |ss[a].shares[k].frames|
    ensures Slot(d1, va1 + off) in ss[j].mem.table && Slot(d2, va2 + off) in ss[j].mem.table
    ensures ss[j].mem.table[Slot(d1, va1 + off)] == ss[j].mem.table[Slot(d2, va2 + off)]
  {
    hide Run, Undisturbed, Targets;
    RunAttached(ss, ops, a, j, k, d1, va1);
    RunAttached(ss, ops, b, j, k, d2, va2);
    var p1, p2 := va1 + off, va2 + off;
    assert Slot(d1, p1) in ss[j].mem.table && Slot(d2, p2) in ss[j].mem.table;
  }

  // ---------------------------------------------------------------------------
  // An object outlives its frames
  // ---------------------------------------------------------------------------

  /** Memory with the one frame 7: its count, whether it is free, and the entries that hold it. */
  function OneFrame(n: nat, free: bool, held: map<Slot, Frame>): Mem {
    Mem(if free then [7] else [], map[7 := n], held)
  }

  lemma EmptyStart()
    ensures Inv(OneFrame(0, true, map[]))
  {
  }

  lemma StaleCreate()
    ensures Inv(OneFrame(0, true, map[]))
    ensures CreatePages(OneFrame(0, true, map[]), 0, 0, 1) == Some((OneFrame(1, false, map[Slot(0, 0) := 7]), [7]))
  {
    hide Inv;
    EmptyStart();
    var m0 := OneFrame(0, true, map[]);
    assert CreatePages(m0, 0, 0, 0) == Some((m0, []));
    assert m0.refs[7 := 0] == m0.refs;
    assert m0.free[1..] == [];
    assert AllocateFrame(m0) == (OneFrame(0, false, map[]), 7);
    assert MapFrame(OneFrame(0, false, map[]), 7, Slot(0, 0)) == OneFrame(1, false, map[Slot(0, 0) := 7]);
    var r := CreatePages(m0, 0, 0, 1);
    assert r.Some? && r.value.0 == OneFrame(1, false, map[Slot(0, 0) := 7]);
    assert r.value.1 == [] + [7] == [7];
    assert r.value == (OneFrame(1, false, map[Slot(0, 0) := 7]), [7]);
  }

  lemma StaleUnmap()
    ensures UnmapFrame(OneFrame(1, false, map[Slot(0, 0) := 7]), Slot(0, 0)) == OneFrame(0, true, map[])
  {
  }

  lemma StaleGet()
    ensures Inv(OneFrame(0, true, map[])) && !Sharable(OneFrame(0, true, map[]), [7], 1, 0)
    ensures Typed(OneFrame(0, true, map[]))
    ensures GetPages(OneFrame(0, true, map[]), [7], 1, 0, 1) == OneFrame(1, true, map[Slot(1, 0) := 7])
  {
    hide Inv;
    EmptyStart();
    var m := OneFrame(0, true, map[]);
    assert GetPages(m, [7], 1, 0, 0) == m;
    assert MapFrame(m, 7, Slot(1, 0)) == OneFrame(1, true, map[Slot(1, 0) := 7]);
    assert Elsewhere(m, [7][0], 1, 0, 0) == {};
  }

  lemma StaleAlloc()
    ensures AllocPage(OneFrame(1, true, map[Slot(1, 0) := 7]), Slot(2, 5))
            == Some((OneFrame(1, false, map[Slot(1, 0) := 7, Slot(2, 5) := 7]), 0))
  {
    var m := OneFrame(1, true, map[Slot(1, 0) := 7]);
    assert m.free[1..] == [] && m.refs[7 := 0] == map[7 := 0];
    assert AllocateFrame(m) == (OneFrame(0, false, map[Slot(1, 0) := 7]), 7);
    var m1 := OneFrame(0, false, map[Slot(1, 0) := 7]);
    assert Slot(2, 5) !in m1.table;
    assert m1.refs[7 := 1] == map[7 := 1];
    assert MapFrame(m1, 7, Slot(2, 5)) == OneFrame(1, false, map[Slot(1, 0) := 7, Slot(2, 5) := 7]);
  }

  /** An object outlives its frames: with one free frame, env 0 creates a one-page object at page 0 and unmaps it. The
      frame goes back to the free list, but the object still names it. Env 1 gets the object, and the next page anyone
      asks for is the same frame. */
  lemma StaleObject()
    ensures var start := OneFrame(0, true, map[]);
            && Inv(start)
            && CreatePages(start, 0, 0, 1) == Some((OneFrame(1, false, map[Slot(0, 0) := 7]), [7]))
            && UnmapFrame(OneFrame(1, false, map[Slot(0, 0) := 7]), Slot(0, 0)) == start
            && Typed(start) && !Inv(GetPages(start, [7], 1, 0, 1))
            && AllocPage(GetPages(start, [7], 1, 0, 1), Slot(2, 5)).Some?
            && var m := AllocPage(GetPages(start, [7], 1, 0, 1), Slot(2, 5)).value.0;
            && m.table == map[Slot(1, 0) := 7, Slot(2, 5) := 7] && m.refs[7] == 1
  {
    hide Inv, CreatePages, GetPages, Sharable, AllocPage, UnmapFrame, Typed;
    StaleCreate();
    StaleUnmap();
    StaleGet();
    StaleAlloc();
    GetKeepsInvIff(OneFrame(0, true, map[]), [7], 1, 0);
  }

  // ---------------------------------------------------------------------------
  // The table of shared objects as it is updated
  // ---------------------------------------------------------------------------

  class ShareTable {
    const frames: FrameManager
    var shares: seq<Share>

    constructor (frames: FrameManager)
      ensures this.frames == frames && shares == []
    {
      this.frames := frames;
      shares := [];
    }

    function View(): System
      reads this, frames
    {
      System(frames.View(), shares)
    }

    /** find_share: the first object in the list with that owner and name. */
    method Find(owner: int, name: string) returns (k: int)
      ensures -1 <= k < |shares|
      ensures k >= 0 ==> Matches(shares[k], owner, name) && forall j | 0 <= j < k :: !Matches(shares[j], owner, name)
      ensures k == -1 <==> !Shared(View(), owner, name)
    {
      var i := 0;
      while i < |shares|
        invariant i <= |shares| && forall j | 0 <= j < i :: !Matches(shares[j], owner, name)
      {
        if shares[i].owner == owner && shares[i].name == name {
          assert Matches(shares[i], owner, name);
          return i;
        }
        i := i + 1;
      }
      return -1;
    }

    /** The loop of create_shared_object; false is the panic of allocate_frame. */
    method MapFresh(d: int, va: int, n: nat) returns (ok: bool, storage: seq<Frame>)
      requires Inv(frames.View())
      modifies frames
      ensures ok <==> CreatePages(old(frames.View()), d, va, n).Some?
      ensures ok ==> Some((frames.View(), storage)) == CreatePages(old(frames.View()), d, va, n)
      ensures ok ==> Inv(frames.View())
    {
      hide Inv, MapFrame, Typed;
      ghost var start := frames.View();
      var i := 0;
      storage := [];
      while i < n
        invariant i <= n && Inv(frames.View()) && Some((frames.View(), storage)) == CreatePages(start, d, va, i)
      {
        var s := Slot(d, va + i);
        if frames.free == [] {
          NoFrameNoObject(start, d, va, i + 1, n);
          return false, storage;
        }
        AllocateAndMap(frames.View(), s);
        InvTyped(frames.View());
        TypedAt(frames.View(), s);
        var f := frames.Allocate();
        frames.Map(f, s);
        storage := storage + [f];
        i := i + 1;
      }
      return true, storage;
    }

    /** create_shared_object; `panicked` when the frames run out. */
    method CreateSharedObject(owner: int, name: string, size: nat, writable: bool, d: int, va: int, record: Option<nat>)
      returns (panicked: bool, code: int)
      requires SystemInv(View())
      modifies this, frames
      ensures !panicked ==> Create(old(View()), owner, name, size, writable, d, va, record, View(), code)
      ensures !panicked ==> SystemInv(View())
      ensures panicked <==> !Shared(old(View()), owner, name) && record.Some? && RoundedPages(size) > 0
                            && CreatePages(old(frames.View()), d, va, RoundedPages(size)).None?
      ensures !panicked ==> (code == EXISTS <==> Shared(old(View()), owner, name))
      ensures !panicked && size <= MAX_ROUNDABLE ==>
                (code == NO_SHARE <==> !Shared(old(View()), owner, name) && (record.None? || size == 0))
      ensures !panicked && MAX_ROUNDABLE < size <= 0xFFFF_FFFF && !Shared(old(View()), owner, name) ==> code == NO_SHARE
      ensures !panicked && code < 0 ==> View() == old(View())
      ensures !panicked && code >= 0 && size <= MAX_ROUNDABLE ==>
                && |shares| == |old(shares)| + 1
                && var sh := shares[|old(shares)|]; size <= |sh.frames| * PAGE_SIZE < size + PAGE_SIZE
    {
      hide Inv, SharesOk, CreatePages, Shared, RoundedPages, Matches;
      ghost var start := View();
      if size <= 0xFFFF_FFFF {
        RoundingIsExactUpToLimit(size);
      }
      var k := Find(owner, name);
      if k >= 0 {
        return false, EXISTS;
      }
      var n := RoundedPages(size);
      if record.None? || n == 0 {
        return false, NO_SHARE;
      }
      var ok, storage := MapFresh(d, va, n);
      if !ok {
        return true, 0;
      }
      shares := shares + [Share(IdOf(record.value), owner, name, size, writable, 1, storage)];
      CreateKeeps(start, owner, name, size, writable, d, va, record, View(), IdOf(record.value));
      return false, IdOf(record.value);
    }

    /** The loop of get_shared_object. */
    method MapObject(storage: seq<Frame>, d: int, va: int)
      requires Typed(frames.View()) && forall f | f in storage :: f in frames.refs
      modifies frames
      ensures frames.View() == GetPages(old(frames.View()), storage, d, va, |storage|)
    {
      hide Typed, MapFrame;
      ghost var start := frames.View();
      var i := 0;
      while i < |storage|
        invariant i <= |storage| && frames.View() == GetPages(start, storage, d, va, i)
      {
        var f := storage[i];
        assert f in storage;
        TypedAt(frames.View(), Slot(d, va + i));
        frames.Map(f, Slot(d, va + i));
        i := i + 1;
      }
    }

    /** get_shared_object. */
    method GetSharedObject(owner: int, name: string, d: int, va: int) returns (code: int)
      requires SystemInv(View())
      modifies this, frames
      ensures Get(old(View()), owner, name, d, va, View(), code)
      ensures code == NOT_EXISTS <==> !Shared(old(View()), owner, name)
      ensures code != NOT_EXISTS ==>
                exists k: nat | Names(old(View()), k, owner, name) ::
                  SystemInv(View()) <==> Sharable(old(frames.View()), old(shares)[k].frames, d, va)
    {
      hide Inv, SharesOk, GetPages, Shared, RoundedPages, Typed, Sharable;
      ghost var start := View();
      var k := Find(owner, name);
      if k < 0 {
        return NOT_EXISTS;
      }
      InvTyped(frames.View());
      ShareObject(start, k);
      MapObject(shares[k].frames, d, va);
      shares := shares[k := shares[k].(references := shares[k].references + 1)];
      assert Names(start, k, owner, name) && GetAt(start, k, d, va, View());
      GetKeepsIff(start, k, d, va, View());
      return shares[k].id;
    }
  }

  lemma ShareObject(sys: System, k: nat)
    requires SystemInv(sys) && k < |sys.shares|
    ensures forall f | f in sys.shares[k].frames :: f in sys.mem.refs
  {
  }

  lemma TypedAt(m: Mem, s: Slot)
    requires Typed(m)
    ensures s in m.table ==> m.table[s] in m.refs && m.refs[m.table[s]] < COUNTS
    ensures forall f | f in m.refs :: m.refs[f] < COUNTS
  {
    if s in m.table {
      var g := m.table[s];
      assert g in m.refs;
    }
  }

  lemma {:induction false} NoFrameNoObject(m: Mem, d: int, va: int, i: nat, n: nat)
    requires Inv(m) && i <= n && CreatePages(m, d, va, i).None?
    ensures CreatePages(m, d, va, n).None?
    decreases n
  {
    hide Inv, MapFrame, AllocateFrame;
    if i < n {
      NoFrameNoObject(m, d, va, i, n - 1);
    }
  }
}
