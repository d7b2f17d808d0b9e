/** Working-set lists read as rings, and the textbook circular-buffer clock that the
    list-rotating code of the page fault handler refines. */
module ClockRing {
  import opened Common

  type Page = int

  function PagesOf(ring: seq<Page>): set<Page> {
    set p | p in ring
  }

  /** The slot `k` places after slot `h` of a ring of `n`. */
  function Slot(h: nat, k: nat, n: nat): nat
    requires h < n && k <= n
  {
    if h + k < n then h + k else h + k - n
  }

  /** The ring read from slot `h` around. */
  function RingAt(buf: seq<Page>, h: nat): (r: seq<Page>)
    requires h < |buf|
    ensures |r| == |buf|
    ensures forall k | 0 <= k < |r| :: r[k] == buf[Slot(h, k, |buf|)]
  {
    buf[h..] + buf[..h]
  }

  /** The list read as a ring starting at `q`. */
  function From(ws: seq<Page>, q: Page): (r: seq<Page>)
    requires q in ws
    ensures |r| == |ws| && r[0] == q
  {
    RingAt(ws, IndexOf(ws, q))
  }

  /** The element the hand moves to: the next one, or the first after the last. */
  function After(ws: seq<Page>, q: Page): Page
    requires q in ws
  {
    if IndexOf(ws, q) == |ws| - 1 then ws[0] else ws[IndexOf(ws, q) + 1]
  }

  /** The first position whose page is in `good`; `|ring|` when there is none. */
  function First(ring: seq<Page>, good: set<Page>): (n: nat)
    ensures n <= |ring|
    ensures n < |ring| ==> ring[n] in good
    ensures forall i | 0 <= i < n :: ring[i] !in good
  {
    if ring == [] || ring[0] in good then 0 else 1 + First(ring[1..], good)
  }

  lemma IndexUnique(ws: seq<Page>, i: nat)
    requires NoDup(ws) && i < |ws|
    ensures IndexOf(ws, ws[i]) == i
  {
  }

  /** Rings of one buffer agree up to rotation. */
  lemma RingShift(buf: seq<Page>, h: nat, k: nat)
    requires h < |buf| && k < |buf|
    ensures RingAt(buf, Slot(h, k, |buf|)) == RingAt(buf, h)[k..] + RingAt(buf, h)[..k]
  {
  }

  /** The ring from its `k`-th element. */
  lemma FromShift(ws: seq<Page>, q: Page, k: nat)
    requires NoDup(ws) && q in ws && k < |ws|
    ensures var r := From(ws, q);
            r[k] in ws && From(ws, r[k]) == r[k..] + r[..k]
  {
    var j := Slot(IndexOf(ws, q), k, |ws|);
    assert From(ws, q)[k] == ws[j];
    IndexUnique(ws, j);
    RingShift(ws, IndexOf(ws, q), k);
  }

  lemma FirstIs(ring: seq<Page>, good: set<Page>, n: nat)
    requires n <= |ring| && (n < |ring| ==> ring[n] in good)
    requires forall i | 0 <= i < n :: ring[i] !in good
    ensures First(ring, good) == n
  {
  }

  lemma RingPages(buf: seq<Page>, h: nat)
    requires h < |buf|
    ensures PagesOf(RingAt(buf, h)) == PagesOf(buf)
  {
  }

  lemma RingDistinct(buf: seq<Page>, h: nat)
    requires NoDup(buf) && h < |buf|
    ensures NoDup(RingAt(buf, h))
  {
  }

  /** `ring` is the list in the order the hand visits it. */
  ghost predicate Walk(ws: seq<Page>, ring: seq<Page>) {
    && |ring| == |ws| > 0 && NoDup(ring) && PagesOf(ring) == PagesOf(ws)
    && (forall k {:trigger After(ws, ring[k])} | 0 <= k < |ring| ::
          ring[k] in ws && After(ws, ring[k]) == ring[if k + 1 == |ring| then 0 else k + 1])
  }

  lemma FromIsWalk(ws: seq<Page>, q: Page)
    requires NoDup(ws) && q in ws
    ensures Walk(ws, From(ws, q))
  {
    var h, r := IndexOf(ws, q), From(ws, q);
    RingPages(ws, h);
    RingDistinct(ws, h);
    forall k | 0 <= k < |r| ensures r[k] in ws && After(ws, r[k]) == r[if k + 1 == |r| then 0 else k + 1] {
      assert r[k] == ws[Slot(h, k, |ws|)];
      IndexUnique(ws, Slot(h, k, |ws|));
    }
  }

  /** Moving the head of the list to its tail leaves the ring alone. */
  lemma RotateKeepsRing(ws: seq<Page>, v: Page)
    requires NoDup(ws) && v in ws && ws[0] != v
    ensures var ws' := ws[1..] + [ws[0]];
            NoDup(ws') && v in ws' && From(ws', v) == From(ws, v)
            && IndexOf(ws', v) == IndexOf(ws, v) - 1 && PagesOf(ws') == PagesOf(ws)
  {
    var i, n := IndexOf(ws, v), |ws|;
    var ws' := RingAt(ws, 1);
    assert ws' == ws[1..] + [ws[0]];
    RingDistinct(ws, 1);
    RingPages(ws, 1);
    assert ws'[i - 1] == v;
    IndexUnique(ws', i - 1);
    forall j | 0 <= j < n ensures RingAt(ws', i - 1)[j] == RingAt(ws, i)[j] {
      assert RingAt(ws', i - 1)[j] == ws'[Slot(i - 1, j, n)];
    }
  }

  // ---------------------------------------------------------------------------
  // The circular-buffer clock
  // ---------------------------------------------------------------------------

  /** Sweep the hand over used slots, clearing each used bit, until it rests on an unused one. */
  function Sweep(buf: seq<Page>, h: nat, used: set<Page>): (r: (nat, set<Page>))
    requires h < |buf|
    ensures r.0 < |buf|
    decreases used
  {
    if buf[h] in used then Sweep(buf, Slot(h, 1, |buf|), used - {buf[h]}) else (h, used)
  }

  /** Where the list code finds its victim on the ring: the first unused page, or the hand after a full turn. */
  function ClockVictim(ring: seq<Page>, used: set<Page>): (k: nat)
    requires ring != []
    ensures k < |ring|
  {
    var k := First(ring, PagesOf(ring) - used);
    if k < |ring| then k else 0
  }

  /** The pages whose used bit the list code clears. */
  function ClockCleared(ring: seq<Page>, used: set<Page>): seq<Page> {
    ring[..First(ring, PagesOf(ring) - used)]
  }

  lemma SkipOne(r: seq<Page>, used: set<Page>, i: nat)
    requires NoDup(r) && i < |r| && r[i] in used
    ensures r[i] in used - PagesOf(r[..i])
    ensures used - PagesOf(r[..i]) - {r[i]} == used - PagesOf(r[..i + 1])
  {
  }

  lemma FirstFacts(ring: seq<Page>, good: set<Page>)
    ensures First(ring, good) <= |ring| && (First(ring, good) < |ring| ==> ring[First(ring, good)] in good)
    ensures forall i | 0 <= i < First(ring, good) :: ring[i] !in good
  {
  }

  lemma {:induction false} SweepFrom(buf: seq<Page>, h: nat, used: set<Page>, i: nat, f: nat)
    requires NoDup(buf) && h < |buf| && i <= f == First(RingAt(buf, h), PagesOf(buf) - used)
    ensures Sweep(buf, Slot(h, i, |buf|), used - PagesOf(RingAt(buf, h)[..i]))
            == (Slot(h, f, |buf|), used - PagesOf(RingAt(buf, h)[..f]))
    decreases f - i
  {
    hide NoDup, First;
    var r := RingAt(buf, h);
    FirstFacts(r, PagesOf(buf) - used);
    if i < f {
      assert r[i] in buf;
      RingDistinct(buf, h);
      SkipOne(r, used, i);
      SweepFrom(buf, h, used, i + 1, f);
    } else if f == |buf| {
      assert r[0] in r[..f];
    } else {
      assert r[f] !in used;
    }
  }

  /** The list code's victim and new list are the buffer clock's: the victim's slot is replaced in place,
      the hand moves one past it, and exactly the skipped used bits are cleared. */
  lemma ClockRefinesBuffer(buf: seq<Page>, h: nat, used: set<Page>, p: Page)
    requires NoDup(buf) && h < |buf|
    ensures var r := RingAt(buf, h);
            var (v, used') := Sweep(buf, h, used);
            var k := ClockVictim(r, used);
            && v == Slot(h, k, |buf|) && buf[v] == r[k]
            && RingAt(buf[v := p], Slot(v, 1, |buf|)) == r[k + 1..] + r[..k] + [p]
            && used' == used - PagesOf(ClockCleared(r, used))
  {
    var r, n := RingAt(buf, h), |buf|;
    RingPages(buf, h);
    var f := First(r, PagesOf(buf) - used);
    assert used - PagesOf(r[..0]) == used;
    SweepFrom(buf, h, used, 0, f);
    ReplaceInPlace(buf, h, ClockVictim(r, used), p);
  }

  lemma ReplaceInPlace(buf: seq<Page>, h: nat, k: nat, p: Page)
    requires h < |buf| && k < |buf|
    ensures var r, v := RingAt(buf, h), Slot(h, k, |buf|);
            RingAt(buf[v := p], Slot(v, 1, |buf|)) == r[k + 1..] + r[..k] + [p]
  {
  }
}
