/** The page file (kern/disk/pagefile_manager.c): disk frames, the per-env two-level tables that say where each page is
    stored, and the disk itself as a map from frame number to page. */
module PageFile {
  import opened Common

  type Page = PageData

  /** ptr_zero_page. */
  function ZeroPage(): Page {
    seq(PAGE_SIZE, _ => 0)
  }

  /** A page of an env, by directory and table index. */
  datatype Slot = Slot(env: int, pde: nat, pte: nat)

  /** The free list from its head; for each env with a disk directory, its tables; the disk. */
  datatype File = File(free: seq<nat>, dirs: map<int, map<nat, seq<nat>>>, disk: map<nat, Page>)

  /** PAGES_PER_FILE: 520 MB of 4 KB pages. */
  const FRAMES: nat := 133120
  /** Entries of a table. */
  const ENTRIES: nat := 1024
  /** PDX(USER_TOP) and PDX(KERNEL_BASE). */
  const USER_TABLES: nat := 955
  const ALL_TABLES: nat := 960

  const NO_SPACE := -8

  /** A page below KERNEL_BASE. */
  predicate Valid(s: Slot) {
    s.pde < ALL_TABLES && s.pte < ENTRIES
  }

  // ---------------------------------------------------------------------------
  // Tables
  // ---------------------------------------------------------------------------

  function Zeros(): seq<nat> {
    seq(ENTRIES, _ => 0)
  }

  function Dir(f: File, e: int): map<nat, seq<nat>> {
    if e in f.dirs then f.dirs[e] else map[]
  }

  function Table(f: File, e: int, pde: nat): seq<nat> {
    if pde in Dir(f, e) then Dir(f, e)[pde] else Zeros()
  }

  /** The disk frame of a page; 0 for none. */
  function At(f: File, s: Slot): nat {
    if s.pde in Dir(f, s.env) && s.pte < |Dir(f, s.env)[s.pde]| then Dir(f, s.env)[s.pde][s.pte] else 0
  }

  ghost predicate Shaped(f: File) {
    forall e, pde | e in f.dirs && pde in f.dirs[e] :: pde < ALL_TABLES && |f.dirs[e][pde]| == ENTRIES
  }

  function SetTable(f: File, e: int, pde: nat, t: seq<nat>): File {
    f.(dirs := f.dirs[e := Dir(f, e)[pde := t]])
  }

  /** get_disk_page_directory and get_disk_page_table with create set. */
  function EnsureTable(f: File, e: int, pde: nat): File {
    SetTable(f, e, pde, Table(f, e, pde))
  }

  function SetEntry(f: File, s: Slot, d: nat): File
    requires s.pte < |Table(f, s.env, s.pde)|
  {
    SetTable(f, s.env, s.pde, Table(f, s.env, s.pde)[s.pte := d])
  }

  lemma TableLength(f: File, e: int, pde: nat)
    requires Shaped(f)
    ensures |Table(f, e, pde)| == ENTRIES
  {
  }

  lemma EnsureSame(f: File, e: int, pde: nat)
    requires Shaped(f) && pde < ALL_TABLES
    ensures Shaped(EnsureTable(f, e, pde)) && forall s | Valid(s) :: At(EnsureTable(f, e, pde), s) == At(f, s)
  {
  }

  lemma SetAt(f: File, s: Slot, d: nat)
    requires Shaped(f) && Valid(s)
    ensures |Table(f, s.env, s.pde)| == ENTRIES && Shaped(SetEntry(f, s, d))
    ensures forall t | Valid(t) :: At(SetEntry(f, s, d), t) == if t == s then d else At(f, t)
  {
  }

  // ---------------------------------------------------------------------------
  // Operations
  // ---------------------------------------------------------------------------

  /** allocate_disk_frame into an entry that has none, as pf_add_empty_env_page and pf_add_env_page begin. */
  function AddEmpty(f: File, s: Slot): (File, int)
    requires Valid(s)
  {
    var f1 := EnsureTable(f, s.env, s.pde);
    if At(f1, s) != 0 then (f1, 0)
    else if f1.free == [] || s.pte >= |Table(f1, s.env, s.pde)| then (f1, NO_SPACE)
    else (SetEntry(f1.(free := f1.free[1..]), s, f1.free[0]), 0)
  }

  /** pf_add_env_page. */
  function Add(f: File, s: Slot, data: Page): (File, int)
    requires Valid(s)
  {
    var (f1, code) := AddEmpty(f, s);
    if code != 0 then (f1, code) else (f1.(disk := f1.disk[At(f1, s) := data]), 0)
  }

  function Read(f: File, s: Slot): Option<Page> {
    if At(f, s) == 0 || At(f, s) !in f.disk then None else Some(f.disk[At(f, s)])
  }

  /** free_disk_frame: frame 0 is no frame. */
  function FreeDiskFrame(f: File, d: nat): File {
    if d == 0 then f else f.(free := [d] + f.free)
  }

  /** pf_remove_env_page, and one turn of the inner loop of pf_free_env. */
  function Remove(f: File, s: Slot): File {
    if s.pde !in Dir(f, s.env) || s.pte >= |Table(f, s.env, s.pde)| then f
    else FreeDiskFrame(SetEntry(f, s, 0), At(f, s))
  }

  /** The inner loop of pf_free_env after `i` turns. */
  function FreeTable(f: File, e: int, pde: nat, i: nat): File {
    if i == 0 then f else Remove(FreeTable(f, e, pde, i - 1), Slot(e, pde, i - 1))
  }

  /** The entry of a table in its directory is cleared. */
  function DropTable(f: File, e: int, pde: nat): File {
    f.(dirs := f.dirs[e := Dir(f, e) - {pde}])
  }

  /** The outer loop of pf_free_env after `p` turns. */
  function FreeTables(f: File, e: int, p: nat): File {
    if p == 0 then f
    else
      var g := FreeTables(f, e, p - 1);
      if p - 1 in Dir(g, e) then DropTable(FreeTable(g, e, p - 1, ENTRIES), e, p - 1) else g
  }

  /** pf_free_env: the tables below USER_TOP, then the directory. */
  function FreeEnv(f: File, e: int): File {
    var g := FreeTables(f, e, USER_TABLES);
    g.(dirs := g.dirs - {e})
  }

  // ---------------------------------------------------------------------------
  // The invariant
  // ---------------------------------------------------------------------------

  predicate IsFrame(d: nat) {
    0 < d < FRAMES
  }

  /** Stored pages have distinct frames, none of them free; the free list has no frame twice. */
  ghost predicate Sound(f: File) {
    && Shaped(f) && NoDup(f.free) && (forall d | d in f.free :: IsFrame(d))
    && (forall s | Valid(s) && At(f, s) != 0 :: IsFrame(At(f, s)) && At(f, s) !in f.free)
    && (forall s, t | Valid(s) && Valid(t) && At(f, s) == At(f, t) && At(f, s) != 0 :: s == t)
    && (forall d | IsFrame(d) :: d in f.disk)
  }

  ghost predicate Held(f: File, d: nat) {
    exists s :: Valid(s) && At(f, s) == d
  }

  /** No frame is lost: each is on the free list or stores a page. */
  ghost predicate Conserved(f: File) {
    forall d | IsFrame(d) :: d in f.free || Held(f, d)
  }

  lemma RestMembers(q: seq<nat>, g: nat)
    requires q != [] && NoDup(q)
    ensures NoDup(q[1..]) && (g in q[1..] <==> g in q && g != q[0])
  {
  }

  lemma EnsureSound(f: File, e: int, pde: nat)
    requires Sound(f) && pde < ALL_TABLES
    ensures Sound(EnsureTable(f, e, pde)) && (Conserved(f) ==> Conserved(EnsureTable(f, e, pde)))
    ensures forall s | Valid(s) :: At(EnsureTable(f, e, pde), s) == At(f, s)
  {
    hide EnsureTable, At, Shaped, NoDup, IsFrame;
    EnsureSame(f, e, pde);
    SameFree(f, e, pde);
    var g := EnsureTable(f, e, pde);
    if Conserved(f) {
      forall d | IsFrame(d) ensures d in g.free || Held(g, d) {
        if Held(f, d) {
          var s :| Valid(s) && At(f, s) == d;
          assert At(g, s) == d;
        }
      }
    }
  }

  lemma SameFree(f: File, e: int, pde: nat)
    ensures EnsureTable(f, e, pde).free == f.free && EnsureTable(f, e, pde).disk == f.disk
  {
  }

  /** Only the entry of `s` differs. */
  ghost predicate OnlyAt(f: File, g: File, s: Slot) {
    forall t | Valid(t) && t != s :: At(g, t) == At(f, t)
  }

  /** A free frame goes into an empty entry. */
  lemma FillSound(f: File, s: Slot)
    requires Sound(f) && Valid(s) && At(f, s) == 0 && f.free != []
    ensures |Table(f, s.env, s.pde)| == ENTRIES
    ensures var g := SetEntry(f.(free := f.free[1..]), s, f.free[0]);
            Sound(g) && OnlyAt(f, g, s) && At(g, s) == f.free[0] && (Conserved(f) ==> Conserved(g)) && At(g, s) != 0
  {
    hide At, SetEntry, Shaped, NoDup;
    TableLength(f, s.env, s.pde);
    FreeIrrelevant(f, f.free[1..], s, f.free[0]);
    SetAt(f, s, f.free[0]);
    var g := SetEntry(f.(free := f.free[1..]), s, f.free[0]);
    assert f.free[0] in f.free;
    RestMembers(f.free, 0);
    forall d ensures d in g.free <==> d in f.free && d != f.free[0] {
      RestMembers(f.free, d);
    }
    if Conserved(f) {
      forall d | IsFrame(d) ensures d in g.free || Held(g, d) {
        if Held(f, d) {
          var t :| Valid(t) && At(f, t) == d;
          assert At(g, t) == d;
        } else {
          assert d != f.free[0] || At(g, s) == d;
        }
      }
    }
  }

  /** The free list plays no part in the tables. */
  lemma FreeIrrelevant(f: File, free: seq<nat>, s: Slot, d: nat)
    requires Shaped(f) && Valid(s) && |Table(f, s.env, s.pde)| == ENTRIES
    ensures SetEntry(f.(free := free), s, d) == SetEntry(f, s, d).(free := free)
    ensures forall t :: At(SetEntry(f, s, d).(free := free), t) == At(SetEntry(f, s, d), t)
    ensures Shaped(SetEntry(f, s, d).(free := free)) == Shaped(SetEntry(f, s, d))
    ensures SetEntry(f, s, d).disk == f.disk && SetEntry(f, s, d).free == f.free
  {
  }

  /** pf_add_empty_env_page: fails only for a page that is not stored when no frame is free; a page that is stored keeps
      its frame. */
  lemma AddEmptySound(f: File, s: Slot)
    requires Sound(f) && Valid(s)
    ensures var (g, code) := AddEmpty(f, s);
            && Sound(g) && (Conserved(f) ==> Conserved(g)) && OnlyAt(f, g, s) && g.disk == f.disk
            && code == (if At(f, s) == 0 && f.free == [] then NO_SPACE else 0)
            && (At(g, s) != 0 <==> code == 0) && (At(f, s) != 0 ==> At(g, s) == At(f, s))
  {
    hide At, SetEntry, EnsureTable, Sound, Conserved, Table;
    EnsureSound(f, s.env, s.pde);
    SameFree(f, s.env, s.pde);
    var f1 := EnsureTable(f, s.env, s.pde);
    if At(f1, s) == 0 && f1.free != [] {
      FillSound(f1, s);
      SoundShaped(f1);
      FreeIrrelevant(f1, f1.free[1..], s, f1.free[0]);
    } else if At(f1, s) == 0 {
      SoundShaped(f1);
    }
  }

  lemma SoundShaped(f: File)
    requires Sound(f)
    ensures Shaped(f)
  {
  }

  lemma WriteSound(f: File, s: Slot, data: Page)
    requires Sound(f) && Valid(s) && At(f, s) != 0
    ensures var g := f.(disk := f.disk[At(f, s) := data]);
            && Sound(g) && (Conserved(f) ==> Conserved(g)) && (forall t :: At(g, t) == At(f, t))
            && Read(g, s) == Some(data) && forall t | Valid(t) && t != s :: Read(g, t) == Read(f, t)
  {
    hide NoDup;
    var g := f.(disk := f.disk[At(f, s) := data]);
    assert forall t :: At(g, t) == At(f, t);
    if Conserved(f) {
      forall d | IsFrame(d) ensures d in g.free || Held(g, d) {
        if Held(f, d) {
          var t :| Valid(t) && At(f, t) == d;
          assert At(g, t) == d;
        }
      }
    }
  }

  /** pf_add_env_page: the page reads back as written and no other page changes. */
  lemma AddSound(f: File, s: Slot, data: Page)
    requires Sound(f) && Valid(s)
    ensures var (g, code) := Add(f, s, data);
            && Sound(g) && (Conserved(f) ==> Conserved(g))
            && code == (if At(f, s) == 0 && f.free == [] then NO_SPACE else 0)
            && (code == 0 ==> Read(g, s) == Some(data))
            && (code != 0 ==> Read(g, s) == None == Read(f, s))
            && (forall t | Valid(t) && t != s :: Read(g, t) == Read(f, t) && (At(g, t) == 0 <==> At(f, t) == 0))
  {
    hide At, AddEmpty, Sound, Conserved;
    AddEmptySound(f, s);
    var (f1, code) := AddEmpty(f, s);
    if code == 0 {
      WriteSound(f1, s, data);
    }
  }

  /** pf_remove_env_page: the frame goes back to the free list, once; other pages stay. */
  lemma RemoveSound(f: File, s: Slot)
    requires Sound(f) && Valid(s)
    ensures var g := Remove(f, s);
            && Sound(g) && (Conserved(f) ==> Conserved(g)) && OnlyAt(f, g, s) && At(g, s) == 0 && g.disk == f.disk
            && g.free == (if At(f, s) == 0 then f.free else [At(f, s)] + f.free)
            && g.dirs.Keys == f.dirs.Keys && (forall e | e in f.dirs :: g.dirs[e].Keys == f.dirs[e].Keys)
  {
    hide SetEntry, NoDup, Table;
    TableLength(f, s.env, s.pde);
    if s.pde in Dir(f, s.env) {
      SetAt(f, s, 0);
      SetKeys(f, s);
      var g := Remove(f, s);
      FreeIrrelevant(f, g.free, s, 0);
      RemoveFrames(f, g, s);
    } else {
      assert At(f, s) == 0;
    }
  }

  lemma SetKeys(f: File, s: Slot)
    requires s.pde in Dir(f, s.env) && s.pte < |Table(f, s.env, s.pde)|
    ensures SetEntry(f, s, 0).dirs.Keys == f.dirs.Keys
    ensures forall e | e in f.dirs :: SetEntry(f, s, 0).dirs[e].Keys == f.dirs[e].Keys
  {
  }

  lemma RemoveFrames(f: File, g: File, s: Slot)
    requires Sound(f) && Valid(s) && Shaped(g) && OnlyAt(f, g, s) && At(g, s) == 0 && g.disk == f.disk
    requires g.free == if At(f, s) == 0 then f.free else [At(f, s)] + f.free
    ensures Sound(g) && (Conserved(f) ==> Conserved(g))
  {
  }

  // ---------------------------------------------------------------------------
  // Freeing an env
  // ---------------------------------------------------------------------------

  /** Entries of `done` are empty in `g`, all others as in `f`; no frame and no page is lost on the way. */
  ghost predicate Cleared(f: File, g: File, done: Slot -> bool) {
    && Sound(g) && (Conserved(f) ==> Conserved(g)) && g.disk == f.disk
    && forall t | Valid(t) :: At(g, t) == if done(t) then 0 else At(f, t)
  }

  lemma {:induction false} FreeTableClears(f: File, e: int, pde: nat, i: nat)
    requires Sound(f) && pde < ALL_TABLES && i <= ENTRIES
    ensures Cleared(f, FreeTable(f, e, pde, i), (t: Slot) => t.env == e && t.pde == pde && t.pte < i)
    ensures FreeTable(f, e, pde, i).dirs.Keys == f.dirs.Keys
    ensures forall x | x in f.dirs :: FreeTable(f, e, pde, i).dirs[x].Keys == f.dirs[x].Keys
    decreases i
  {
    hide At, Sound, Conserved, Remove;
    if i > 0 {
      FreeTableClears(f, e, pde, i - 1);
      RemoveSound(FreeTable(f, e, pde, i - 1), Slot(e, pde, i - 1));
    }
  }

  /** Clearing the directory entry of a table without pages changes nothing. */
  lemma DropSound(f: File, e: int, pde: nat)
    requires Sound(f) && pde < ALL_TABLES && forall k | 0 <= k < ENTRIES :: At(f, Slot(e, pde, k)) == 0
    ensures Cleared(f, DropTable(f, e, pde), (t: Slot) => false)
  {
    hide NoDup;
    var g := DropTable(f, e, pde);
    forall t | Valid(t) ensures At(g, t) == At(f, t) {
      if t.env == e && t.pde == pde {
        assert t == Slot(e, pde, t.pte);
      }
    }
    SameAtSound(f, g);
  }

  lemma SameAtSound(f: File, g: File)
    requires Sound(f) && Shaped(g) && g.free == f.free && g.disk == f.disk
    requires forall t | Valid(t) :: At(g, t) == At(f, t)
    ensures Sound(g) && (Conserved(f) ==> Conserved(g))
  {
  }

  lemma AbsentIsZero(f: File, e: int, pde: nat)
    requires pde !in Dir(f, e)
    ensures forall t: Slot | t.env == e && t.pde == pde :: At(f, t) == 0
  {
  }

  lemma {:induction false} FreeTablesClears(f: File, e: int, p: nat)
    requires Sound(f) && p <= ALL_TABLES
    ensures Cleared(f, FreeTables(f, e, p), (t: Slot) => t.env == e && t.pde < p)
    decreases p
  {
    hide At, Sound, Conserved, FreeTable, DropTable;
    if p > 0 {
      FreeTablesClears(f, e, p - 1);
      var g := FreeTables(f, e, p - 1);
      if p - 1 in Dir(g, e) {
        FreeTableClears(g, e, p - 1, ENTRIES);
        DropSound(FreeTable(g, e, p - 1, ENTRIES), e, p - 1);
      } else {
        AbsentIsZero(g, e, p - 1);
      }
    }
  }

  lemma DirGone(g: File, e: int)
    requires Sound(g)
    ensures var h := g.(dirs := g.dirs - {e});
            Sound(h) && forall t | Valid(t) :: At(h, t) == if t.env == e then 0 else At(g, t)
  {
    hide NoDup;
    var h := g.(dirs := g.dirs - {e});
    assert forall t | Valid(t) :: At(h, t) == if t.env == e then 0 else At(g, t);
  }

  /** No page of env `e` is stored at or above USER_TOP. */
  ghost predicate Below(f: File, e: int) {
    forall t | Valid(t) && t.env == e && t.pde >= USER_TABLES :: At(f, t) == 0
  }

  /** pf_free_env: the env's pages are gone and those of other envs are as before; every one of its frames is free again
      exactly when it stored none at or above USER_TOP. */
  lemma FreeEnvReturnsAllIff(f: File, e: int)
    requires Sound(f) && Conserved(f)
    ensures var g := FreeEnv(f, e);
            && Sound(g) && g.disk == f.disk
            && (forall t | Valid(t) :: At(g, t) == if t.env == e then 0 else At(f, t))
            && (forall t | Valid(t) && t.env == e && t.pde < USER_TABLES && At(f, t) != 0 :: At(f, t) in g.free)
            && (Conserved(g) <==> Below(f, e))
  {
    hide At, Sound, FreeTables, IsFrame;
    FreeTablesClears(f, e, USER_TABLES);
    var h := FreeTables(f, e, USER_TABLES);
    DirGone(h, e);
    var g := FreeEnv(f, e);
    SoundFrames(f);
    SoundFrames(h);
    forall t | Valid(t) && t.env == e && t.pde < USER_TABLES && At(f, t) != 0 ensures At(f, t) in g.free {
      FrameReturned(f, h, t);
    }
    if Below(f, e) {
      forall d | IsFrame(d) ensures d in g.free || Held(g, d) {
        if Held(h, d) {
          var t :| Valid(t) && At(h, t) == d;
          assert d == 0 || At(g, t) == d by { FrameIsNotZero(d); }
        }
      }
    }
    if t :| Valid(t) && t.env == e && t.pde >= USER_TABLES && At(f, t) != 0 {
      var d := At(f, t);
      assert At(h, t) == d && d !in g.free;
      assert !Held(g, d) by {
        forall x | Valid(x) ensures At(g, x) != d {
          assert x.env != e && At(h, x) == d ==> x == t;
        }
      }
      assert IsFrame(d);
    }
  }

  /** A page stored at USER_TOP costs its frame: it is neither free nor held once the env is gone. */
  lemma FrameIsLost(f: File, e: int, data: Page)
    requires Sound(f) && Conserved(f) && f.free != []
    ensures var g := Add(f, Slot(e, USER_TABLES, 0), data).0;
            Sound(g) && Conserved(g) && Read(g, Slot(e, USER_TABLES, 0)) == Some(data) && !Conserved(FreeEnv(g, e))
  {
    hide Sound, Conserved, Add, FreeEnv;
    var s := Slot(e, USER_TABLES, 0);
    AddSound(f, s, data);
    var g := Add(f, s, data).0;
    FreeEnvReturnsAllIff(g, e);
    assert At(g, s) != 0;
  }

  lemma FrameIsNotZero(d: nat)
    requires IsFrame(d)
    ensures d != 0
  {
  }

  lemma SoundFrames(f: File)
    requires Sound(f)
    ensures forall s | Valid(s) && At(f, s) != 0 :: IsFrame(At(f, s)) && At(f, s) !in f.free
    ensures forall s, t | Valid(s) && Valid(t) && At(f, s) == At(f, t) && At(f, s) != 0 :: s == t
  {
  }

  lemma FrameReturned(f: File, h: File, t: Slot)
    requires Sound(f) && Conserved(h) && Valid(t) && At(f, t) != 0 && At(h, t) == 0
    requires forall x | Valid(x) :: At(h, x) == 0 || At(h, x) == At(f, x)
    ensures At(f, t) in h.free
  {
  }

  // ---------------------------------------------------------------------------
  // Runs
  // ---------------------------------------------------------------------------

  datatype Op =
    | AddOp(slot: Slot, data: Page)
    | AddEmptyOp(slot: Slot, byZero: bool)
    | UpdateOp(slot: Slot, data: Page)
    | RemoveOp(slot: Slot)
    | FreeOp(env: int)

  /** pf_add_empty_env_page: with initializeByZero the page of zeros is stored, else the frame keeps what it has. */
  function AddEmptyEnv(f: File, s: Slot, byZero: bool): (File, int)
    requires Valid(s)
  {
    if byZero then Add(f, s, ZeroPage()) else AddEmpty(f, s)
  }

  /** The first address of a page. */
  function Address(s: Slot): int {
    s.pde * 0x40_0000 + s.pte * 0x1000
  }

  /** pf_update_env_page: a page not stored yet is added, in the heap or stack only; None is a panic. */
  function Update(f: File, s: Slot, data: Page, stackBottom: int): Option<File>
    requires Valid(s)
  {
    if At(f, s) == 0 && (!Growable(Address(s), stackBottom) || Add(f, s, data).1 != 0) then None else Some(Add(f, s, data).0)
  }

  /** It panics exactly for an unstored page outside heap and stack, or without a free frame; else the page reads back as
      written, and all other pages read as before. */
  lemma UpdateSound(f: File, s: Slot, data: Page, stackBottom: int)
    requires Sound(f) && Valid(s)
    ensures Update(f, s, data, stackBottom).None? <==> At(f, s) == 0 && (!Growable(Address(s), stackBottom) || f.free == [])
    ensures Update(f, s, data, stackBottom).Some? ==>
              var g := Update(f, s, data, stackBottom).value;
              && Sound(g) && (Conserved(f) ==> Conserved(g)) && Read(g, s) == Some(data)
              && (forall t | Valid(t) && t != s :: Read(g, t) == Read(f, t))
  {
    hide At, Add, Sound, Conserved, Read, Address;
    AddSound(f, s, data);
  }

  /** The file after a call on user pages. None after a panic, and when the env to be freed has no disk directory, which
      pf_free_env would read through a null pointer. */
  function Apply(f: File, op: Op, stackBottom: int): Option<File>
    requires !op.FreeOp? ==> Valid(op.slot)
  {
    match op
    case AddOp(s, data) => Some(Add(f, s, data).0)
    case AddEmptyOp(s, byZero) => Some(AddEmptyEnv(f, s, byZero).0)
    case UpdateOp(s, data) => Update(f, s, data, stackBottom)
    case RemoveOp(s) => Some(Remove(f, s))
    case FreeOp(e) => if e in f.dirs then Some(FreeEnv(f, e)) else None
  }

  /** The call is on a page below USER_TOP. */
  predicate UserOp(op: Op) {
    op.FreeOp? || (op.slot.pde < USER_TABLES && op.slot.pte < ENTRIES)
  }

  ghost predicate Inv(f: File) {
    Sound(f) && Conserved(f) && forall t | Valid(t) && t.pde >= USER_TABLES :: At(f, t) == 0
  }

  /** The call may change what is stored for `s`. */
  predicate Concerns(op: Op, s: Slot) {
    if op.FreeOp? then op.env == s.env else op.slot == s
  }

  lemma ApplySound(f: File, op: Op, stackBottom: int)
    requires Inv(f) && UserOp(op) && Apply(f, op, stackBottom).Some?
    ensures Inv(Apply(f, op, stackBottom).value)
    ensures forall s | Valid(s) && !Concerns(op, s) :: Read(Apply(f, op, stackBottom).value, s) == Read(f, s)
  {
    hide At, Sound, Conserved, Add, AddEmpty, Remove, FreeEnv;
    match op
    case AddOp(s, data) => AddSound(f, s, data); AddWhere(f, s, data);
    case AddEmptyOp(s, byZero) =>
      AddEmptySound(f, s);
      if byZero {
        AddSound(f, s, ZeroPage());
        AddWhere(f, s, ZeroPage());
      }
    case UpdateOp(s, data) => AddSound(f, s, data); AddWhere(f, s, data);
    case RemoveOp(s) => RemoveSound(f, s);
    case FreeOp(e) => FreeEnvReturnsAllIff(f, e);
  }

  lemma AddWhere(f: File, s: Slot, data: Page)
    requires Sound(f) && Valid(s)
    ensures OnlyAt(f, Add(f, s, data).0, s)
  {
    hide At, AddEmpty, Sound;
    AddEmptySound(f, s);
    var (f1, code) := AddEmpty(f, s);
    if code == 0 {
      WriteSound(f1, s, data);
    }
  }

  /** A call on user pages that does not panic. */
  ghost predicate Step(f: File, op: Op, g: File, sb: int) {
    UserOp(op) && Apply(f, op, sb) == Some(g)
  }

  ghost predicate Run(fs: seq<File>, ops: seq<Op>, sb: int) {
    && |fs| == |ops| + 1 && Inv(fs[0])
    && forall i | 0 <= i < |ops| :: Step(fs[i], ops[i], fs[i + 1], sb)
  }

  /** In every run the stored pages' frames and the free list partition the frames 1 .. FRAMES - 1. */
  lemma {:induction false} RunInv(fs: seq<File>, ops: seq<Op>, sb: int, k: nat)
    requires Run(fs, ops, sb) && k < |fs|
    ensures Inv(fs[k])
    decreases k
  {
    hide Inv, Apply;
    if k > 0 {
      RunInv(fs, ops, sb, k - 1);
      assert Step(fs[k - 1], ops[k - 1], fs[k], sb);
      ApplySound(fs[k - 1], ops[k - 1], sb);
    }
  }

  /** A stored page reads back unchanged through any calls that concern other pages or envs. */
  lemma {:induction false} RunReadsBack(fs: seq<File>, ops: seq<Op>, sb: int, i: nat, j: nat, s: Slot)
    requires Run(fs, ops, sb) && i <= j < |fs| && Valid(s) && forall k | i <= k < j :: !Concerns(ops[k], s)
    ensures Read(fs[j], s) == Read(fs[i], s)
    decreases j
  {
    hide Inv, Apply, Read, Concerns;
    if i < j {
      RunReadsBack(fs, ops, sb, i, j - 1, s);
      RunInv(fs, ops, sb, j - 1);
      assert Step(fs[j - 1], ops[j - 1], fs[j], sb);
      ApplySound(fs[j - 1], ops[j - 1], sb);
    }
  }

  /** The call stores that page: it updates it, or adds it with room for it. */
  predicate Stores(f: File, op: Op, s: Slot, data: Page) {
    || op == UpdateOp(s, data)
    || ((op == AddOp(s, data) || (op == AddEmptyOp(s, true) && data == ZeroPage())) && (At(f, s) != 0 || f.free != []))
  }

  /** What a call stored is what pf_read_env_page finds after any calls on other pages or envs. */
  lemma StoredPageReadsBack(fs: seq<File>, ops: seq<Op>, sb: int, i: nat, j: nat, s: Slot, data: Page)
    requires Run(fs, ops, sb) && i < j < |fs| && Stores(fs[i], ops[i], s, data)
    requires forall k | i < k < j :: !Concerns(ops[k], s)
    ensures Read(fs[j], s) == Some(data)
  {
    hide Sound, Conserved, Read, Concerns, Add, At, Update, ZeroPage;
    RunInv(fs, ops, sb, i);
    assert Step(fs[i], ops[i], fs[i + 1], sb);
    AddSound(fs[i], s, data);
    UpdateSound(fs[i], s, data, sb);
    RunReadsBack(fs, ops, sb, i + 1, j, s);
  }

  /** And what was removed, alone or with its env, is found no more. */
  lemma RemovedPageIsGone(fs: seq<File>, ops: seq<Op>, sb: int, i: nat, j: nat, s: Slot)
    requires Run(fs, ops, sb) && i < j < |fs| && Valid(s) && (ops[i] == RemoveOp(s) || ops[i] == FreeOp(s.env))
    requires forall k | i < k < j :: !Concerns(ops[k], s)
    ensures Read(fs[j], s) == None
  {
    hide Sound, Conserved, Concerns, Remove, FreeEnv, At;
    RunInv(fs, ops, sb, i);
    assert Step(fs[i], ops[i], fs[i + 1], sb);
    if ops[i].RemoveOp? {
      RemoveSound(fs[i], s);
    } else {
      FreeEnvReturnsAllIff(fs[i], s.env);
    }
    RunReadsBack(fs, ops, sb, i + 1, j, s);
  }

  // ---------------------------------------------------------------------------
  // Counting
  // ---------------------------------------------------------------------------

  /** The pages of env `e` in the first `p` tables and the first `i` entries of table `p`. */
  ghost function StoredBefore(f: File, e: int, p: nat, i: nat): set<Slot> {
    (set a: nat, b: nat | a < p && b < ENTRIES && At(f, Slot(e, a, b)) != 0 :: Slot(e, a, b))
    + (set b: nat | b < i && At(f, Slot(e, p, b)) != 0 :: Slot(e, p, b))
  }

  lemma CountEntry(f: File, e: int, p: nat, i: nat)
    ensures |StoredBefore(f, e, p, i + 1)| == |StoredBefore(f, e, p, i)| + if At(f, Slot(e, p, i)) != 0 then 1 else 0
  {
    hide At;
    var s := Slot(e, p, i);
    var before, after := StoredBefore(f, e, p, i), StoredBefore(f, e, p, i + 1);
    assert s !in before;
    assert after == before + if At(f, s) != 0 then {s} else {};
  }

  lemma CountTable(f: File, e: int, p: nat)
    ensures StoredBefore(f, e, p + 1, 0) == StoredBefore(f, e, p, ENTRIES)
  {
  }

  lemma CountAbsent(f: File, e: int, p: nat)
    requires p !in Dir(f, e)
    ensures StoredBefore(f, e, p + 1, 0) == StoredBefore(f, e, p, 0)
  {
  }

  // ---------------------------------------------------------------------------
  // The page file as it is updated
  // ---------------------------------------------------------------------------

  ghost predicate Unused(q: seq<nat>, i: nat) {
    NoDup(q) && forall d :: d in q <==> 0 < d < i
  }

  lemma PushUnused(q: seq<nat>, i: nat)
    requires Unused(q, i) && i > 0
    ensures Unused([i] + q, i + 1)
  {
    PushKeepsNoDup(q, i);
  }

  class PageFile {
    var free: seq<nat>
    var dirs: map<int, map<nat, seq<nat>>>
    var disk: map<nat, Page>

    function View(): File
      reads this
    {
      File(free, dirs, disk)
    }

    /** initialize_disk_page_file: frame 0 is left out. */
    constructor (disk: map<nat, Page>)
      requires forall d | IsFrame(d) :: d in disk
      ensures Inv(View()) && dirs == map[] && this.disk == disk
    {
      free, dirs, this.disk := [], map[], disk;
      new;
      var i := 1;
      while i < FRAMES
        invariant 1 <= i <= FRAMES && Unused(free, i) && dirs == map[] && this.disk == disk
      {
        PushUnused(free, i);
        free := [i] + free;
        i := i + 1;
      }
    }

    /** A page that has no disk frame gets one, and a table if it needs one. */
    method Reserve(s: Slot) returns (code: int)
      requires Sound(View()) && Valid(s)
      modifies this
      ensures (View(), code) == AddEmpty(old(View()), s) && Sound(View())
    {
      hide Sound, Shaped;
      AddEmptySound(View(), s);
      EnsureSound(View(), s.env, s.pde);
      ghost var f1 := EnsureTable(View(), s.env, s.pde);
      SoundShaped(f1);
      TableLength(f1, s.env, s.pde);
      dirs := dirs[s.env := Dir(View(), s.env)[s.pde := Table(View(), s.env, s.pde)]];
      var dfn := dirs[s.env][s.pde][s.pte];
      if dfn == 0 {
        if free == [] {
          return NO_SPACE;
        }
        dfn := free[0];
        free := free[1..];
        var table: seq<nat> := dirs[s.env][s.pde];
        table := table[s.pte := dfn];
        var dir: map<nat, seq<nat>> := dirs[s.env];
        dir := dir[s.pde := table];
        dirs := dirs[s.env := dir];
      }
      return 0;
    }

    method AddPage(s: Slot, data: Page) returns (code: int)
      requires Sound(View()) && Valid(s)
      modifies this
      ensures (View(), code) == Add(old(View()), s, data) && Sound(View())
    {
      hide Sound, At, AddEmpty;
      AddSound(View(), s, data);
      code := Reserve(s);
      if code == 0 {
        disk := disk[At(View(), s) := data];
      }
    }

    /** pf_add_empty_env_page. */
    method AddEmptyPage(s: Slot, byZero: bool) returns (code: int)
      requires Sound(View()) && Valid(s)
      modifies this
      ensures (View(), code) == AddEmptyEnv(old(View()), s, byZero) && Sound(View())
      ensures byZero && code == 0 ==> Read(View(), s) == Some(ZeroPage())
    {
      hide Sound, Add, AddEmpty, Read;
      if byZero {
        AddSound(View(), s, ZeroPage());
        code := AddPage(s, ZeroPage());
      } else {
        code := Reserve(s);
      }
    }

    /** pf_update_env_page; false is a panic. */
    method UpdatePage(s: Slot, data: Page, stackBottom: int) returns (ok: bool)
      requires Sound(View()) && Valid(s)
      modifies this
      ensures ok <==> Update(old(View()), s, data, stackBottom).Some?
      ensures ok ==> Some(View()) == Update(old(View()), s, data, stackBottom) && Sound(View())
      ensures !ok <==> old(At(View(), s) == 0 && (!Growable(Address(s), stackBottom) || free == []))
      ensures ok ==> Read(View(), s) == Some(data)
      ensures ok ==> forall t | Valid(t) && t != s :: Read(View(), t) == old(Read(View(), t))
    {
      hide Sound, At, AddEmpty, Address, Read;
      UpdateSound(View(), s, data, stackBottom);
      AddSound(View(), s, data);
      AddEmptySound(View(), s);
      if At(View(), s) == 0 {
        var va := Address(s);
        if !((USER_HEAP_START <= va < USER_HEAP_MAX) || (stackBottom <= va < USTACKTOP)) {
          return false;
        }
      }
      var code := Reserve(s);
      if code == NO_SPACE {
        return false;
      }
      disk := disk[At(View(), s) := data];
      return true;
    }

    method ReadPage(s: Slot) returns (page: Option<Page>)
      requires Sound(View()) && Valid(s)
      ensures page == Read(View(), s) && (page.None? <==> At(View(), s) == 0)
    {
      hide NoDup;
      var dfn := At(View(), s);
      if dfn == 0 {
        return None;
      }
      return Some(disk[dfn]);
    }

    method RemovePage(s: Slot)
      requires Sound(View()) && Valid(s)
      modifies this
      ensures View() == Remove(old(View()), s) && Sound(View())
    {
      hide Sound, Shaped;
      RemoveSound(View(), s);
      if s.env !in dirs || s.pde !in dirs[s.env] {
        return;
      }
      SoundShaped(View());
      TableLength(View(), s.env, s.pde);
      var dfn := dirs[s.env][s.pde][s.pte];
      var table: seq<nat> := dirs[s.env][s.pde];
      table := table[s.pte := 0];
      var dir: map<nat, seq<nat>> := dirs[s.env];
      dir := dir[s.pde := table];
      dirs := dirs[s.env := dir];
      if dfn != 0 {
        free := [dfn] + free;
      }
    }

    /** The inner loop of pf_free_env. */
    method FreeOneTable(e: int, pde: nat)
      requires Sound(View()) && pde < ALL_TABLES
      modifies this
      ensures View() == FreeTable(old(View()), e, pde, ENTRIES) && Sound(View())
    {
      hide Sound, Remove;
      ghost var start := View();
      var i := 0;
      while i < ENTRIES
        invariant i <= ENTRIES && Sound(View()) && View() == FreeTable(start, e, pde, i)
      {
        RemovePage(Slot(e, pde, i));
        i := i + 1;
      }
    }

    /** pf_free_env. */
    method FreeEnvironment(e: int)
      requires Sound(View()) && e in dirs
      modifies this
      ensures View() == FreeEnv(old(View()), e) && Sound(View())
    {
      hide Sound, FreeTable;
      ghost var start := View();
      var p := 0;
      while p < USER_TABLES
        invariant p <= USER_TABLES && Sound(View()) && View() == FreeTables(start, e, p)
      {
        FreeTablesClears(start, e, p + 1);
        if p in Dir(View(), e) {
          FreeOneTable(e, p);
          var dir: map<nat, seq<nat>> := Dir(View(), e) - {p};
          dirs := dirs[e := dir];
        }
        p := p + 1;
      }
      DirGone(View(), e);
      dirs := dirs - {e};
    }

    /** pf_calculate_allocated_pages: how many pages of the env are stored below USER_TOP. */
    method CalculateAllocatedPages(e: int) returns (counter: nat)
      requires Sound(View()) && e in dirs
      ensures counter == |StoredBefore(View(), e, USER_TABLES, 0)|
    {
      hide Sound, StoredBefore;
      ghost var f := View();
      SoundShaped(f);
      counter := 0;
      var p := 0;
      assert StoredBefore(f, e, 0, 0) == {} by { NothingBefore(f, e); }
      while p < USER_TABLES
        invariant p <= USER_TABLES && counter == |StoredBefore(f, e, p, 0)|
      {
        if p in dirs[e] {
          var i := 0;
          while i < ENTRIES
            invariant i <= ENTRIES && counter == |StoredBefore(f, e, p, i)|
          {
            CountEntry(f, e, p, i);
            if dirs[e][p][i] != 0 {
              counter := counter + 1;
            }
            i := i + 1;
          }
          CountTable(f, e, p);
        } else {
          CountAbsent(f, e, p);
        }
        p := p + 1;
      }
    }
  }

  lemma NothingBefore(f: File, e: int)
    ensures StoredBefore(f, e, 0, 0) == {}
  {
  }
}
