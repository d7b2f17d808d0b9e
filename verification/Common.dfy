/** What several components share: optional values, sequences without repetitions, queues, pages and the user's address
    ranges. */
module Common {
  const PAGE_SIZE: nat := 4096

  /** Pages taken by `size` bytes. */
  function PagesFor(size: nat): (n: nat)
    ensures size > 0 ==> n > 0
    ensures size <= n * PAGE_SIZE < size + PAGE_SIZE
  {
    (size + PAGE_SIZE - 1) / PAGE_SIZE
  }

  /** The largest size whose rounding up to pages stays within 32 bits. */
  const MAX_ROUNDABLE: nat := 0xFFFF_F000

  /** ROUNDUP(size, PAGE_SIZE) / PAGE_SIZE as the kernel computes it, in 32 bits. */
  function RoundedPages(size: nat): nat {
    (size + PAGE_SIZE - 1) % 0x1_0000_0000 / PAGE_SIZE
  }

  /** For 32-bit sizes that is the number of pages they take just up to the limit; above it, it is 0. */
  lemma RoundingIsExactUpToLimit(size: nat)
    requires size <= 0xFFFF_FFFF
    ensures RoundedPages(size) == PagesFor(size) <==> size <= MAX_ROUNDABLE
    ensures size > MAX_ROUNDABLE ==> RoundedPages(size) == 0
  {
  }

  /** The user heap, and the top of the user stack. */
  const USER_HEAP_START: int := 0x8000_0000
  const USER_HEAP_MAX: int := 0xA000_0000
  const USTACKTOP: int := 0xEEBF_E000

  /** Addresses of pages that may be used although the page file has no copy: user heap and user stack. */
  predicate Growable(address: int, stackBottom: int) {
    USER_HEAP_START <= address < USER_HEAP_MAX || stackBottom <= address < USTACKTOP
  }

  type Byte = b: int | 0 <= b < 256
  type PageData = d: seq<Byte> | |d| == PAGE_SIZE witness seq(PAGE_SIZE, _ => 0)

  datatype Option<T> = None | Some(value: T)

  ghost predicate NoDup<T>(q: seq<T>) {
    forall i, j | 0 <= i < j < |q| :: q[i] != q[j]
  }

  function IndexOf<T(==)>(q: seq<T>, e: T): (i: nat)
    requires e in q
    ensures i < |q| && q[i] == e
  {
    if q[0] == e then 0 else 1 + IndexOf(q[1..], e)
  }

  /** Queues grow at their head, so the oldest element is the last. */
  function Oldest<T>(q: seq<T>): T
    requires q != []
  {
    q[|q| - 1]
  }

  function RemoveAt<T>(q: seq<T>, i: nat): seq<T>
    requires i < |q|
  {
    q[..i] + q[i + 1..]
  }

  lemma PushKeepsNoDup<T>(q: seq<T>, e: T)
    requires NoDup(q) && e !in q
    ensures NoDup([e] + q)
  {
  }

  lemma SubsetCount<T>(A: set<T>, B: set<T>)
    requires A <= B
    ensures |A| <= |B|
  {
    assert B == A + (B - A);
  }
}
