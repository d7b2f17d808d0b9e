/** The 32-bit aging stamps of LRU approximation (kern/cpu/sched.c, update_WS_time_stamps). */
module LruAging {
  const WIDTH: nat := 32
  const UINT_MAX: nat := 0xFFFF_FFFF
  const TOP_BIT: nat := 0x8000_0000

  /** A page's used bits at past clock ticks, most recent first. */
  type History = seq<bool>

  function Pow2(n: nat): (r: nat)
    ensures r > 0
  {
    if n == 0 then 1 else 2 * Pow2(n - 1)
  }

  /** The first `w` bits of the history as a binary numeral, the most recent tick as its top bit. */
  function Bits(h: History, w: nat): (b: nat)
    ensures b < Pow2(w)
  {
    if w == 0 || h == [] then 0
    else (if h[0] then Pow2(w - 1) else 0) + Bits(h[1..], w - 1)
  }

  /** What update_WS_time_stamps stores for a page: shift right, then set the top bit if it was used. */
  function Aged(stamp: nat, used: bool): nat {
    if used then stamp / 2 + TOP_BIT else stamp / 2
  }

  lemma Pow2Of31()
    ensures Pow2(31) == TOP_BIT && Pow2(32) == UINT_MAX + 1
  {
    assert Pow2(8) == 256;
    assert Pow2(16) == 65536 by { assert Pow2(12) == 4096; }
    assert Pow2(24) == 16777216 by { assert Pow2(20) == 1048576; }
    assert Pow2(31) == TOP_BIT by { assert Pow2(28) == 268435456; }
  }

  lemma {:induction false} ShiftDropsOldest(h: History, w: nat)
    ensures Bits(h, w + 1) / 2 == Bits(h, w)
  {
    if h != [] {
      if w > 0 {
        ShiftDropsOldest(h[1..], w - 1);
      }
    }
  }

  /** Aging records the tick: the stamp stays the numeral of the last 32 used bits. */
  lemma AgedIsHistory(h: History, used: bool)
    ensures Aged(Bits(h, WIDTH), used) == Bits([used] + h, WIDTH)
  {
    ShiftDropsOldest(h, WIDTH - 1);
    Pow2Of31();
    assert ([used] + h)[1..] == h;
  }

  /** `a` was used less recently than `b`: at the latest of the last `w` ticks where they differ, only `b` was used.
      Ticks before a page's history began count as not used. */
  predicate Older(a: History, b: History, w: nat) {
    w > 0 && (a != [] || b != []) &&
    var (x, y) := (a != [] && a[0], b != [] && b[0]);
    var (a', b') := (if a == [] then [] else a[1..], if b == [] then [] else b[1..]);
    (!x && y) || (x == y && Older(a', b', w - 1))
  }

  /** Stamp order is that lexicographic order on histories. */
  lemma {:induction false} StampOrderIsRecency(a: History, b: History, w: nat)
    ensures Bits(a, w) < Bits(b, w) <==> Older(a, b, w)
  {
    if w > 0 && (a != [] || b != []) {
      StampOrderIsRecency(if a == [] then [] else a[1..], if b == [] then [] else b[1..], w - 1);
    }
  }

  /** The one history on which the victim search finds nobody: used at each of the last 32 ticks. */
  lemma {:induction false} FullStamp(h: History, w: nat)
    ensures Bits(h, w) == Pow2(w) - 1 <==> |h| >= w && forall i | 0 <= i < w :: h[i]
  {
    if w > 0 && h != [] {
      FullStamp(h[1..], w - 1);
      if h[0] && |h| >= w {
        assert forall i | 1 <= i < w :: h[i] == h[1..][i - 1];
      }
    }
  }
}
