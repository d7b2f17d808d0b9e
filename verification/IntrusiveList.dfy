/** The doubly linked lists of inc/queue.h, whose links live inside the elements. */
module IntrusiveList {
  import opened Common

  class Node {
    var next: Node?
    var prev: Node?
  }

  // ---------------------------------------------------------------------------
  // The sequence a list stands for
  // ---------------------------------------------------------------------------

  ghost function InsertAt(c: seq<Node>, k: nat, e: Node): seq<Node>
    requires k <= |c|
  {
    c[..k] + [e] + c[k..]
  }

  ghost function Nth(c: seq<Node>, i: int): Node? {
    if 0 <= i < |c| then c[i] else null
  }

  /** Both link directions of every element agree with the sequence. */
  ghost predicate Linked(c: seq<Node>)
    reads c
  {
    forall i | 0 <= i < |c| :: c[i].next == Nth(c, i + 1) && c[i].prev == Nth(c, i - 1)
  }

  lemma InsertNoDup(c: seq<Node>, k: nat, e: Node)
    requires NoDup(c) && k <= |c| && e !in c
    ensures NoDup(InsertAt(c, k, e))
  {
  }

  lemma RemoveNoDup(c: seq<Node>, k: nat)
    requires NoDup(c) && k < |c|
    ensures NoDup(RemoveAt(c, k)) && c[k] !in RemoveAt(c, k)
  {
  }

  /** Putting `e` between its neighbours links the longer sequence. */
  lemma LinksInserted(c: seq<Node>, k: nat, e: Node)
    requires k <= |c| && e.next == Nth(c, k) && e.prev == Nth(c, k - 1)
    requires forall i | 0 <= i < |c| :: c[i].next == (if i == k - 1 then e else Nth(c, i + 1))
    requires forall i | 0 <= i < |c| :: c[i].prev == (if i == k then e else Nth(c, i - 1))
    ensures Linked(InsertAt(c, k, e))
  {
  }

  /** Joining the neighbours of element `k` links the shorter sequence. */
  lemma LinksRemoved(c: seq<Node>, k: nat)
    requires k < |c|
    requires forall i | 0 <= i < |c| && i != k :: c[i].next == (if i == k - 1 then Nth(c, k + 1) else Nth(c, i + 1))
    requires forall i | 0 <= i < |c| && i != k :: c[i].prev == (if i == k + 1 then Nth(c, k - 1) else Nth(c, i - 1))
    ensures Linked(RemoveAt(c, k))
  {
  }

  /** Which elements a traversal keeps. */
  ghost function Kept(c: seq<Node>, drop: Node -> bool): seq<Node> {
    if c == [] then [] else Kept(c[..|c| - 1], drop) + if drop(c[|c| - 1]) then [] else [c[|c| - 1]]
  }

  class List {
    var first: Node?
    var last: Node?
    var size: nat
    ghost var contents: seq<Node>

    ghost predicate Valid()
      reads this, contents
    {
      && size == |contents| && NoDup(contents) && Linked(contents)
      && first == Nth(contents, 0) && last == Nth(contents, |contents| - 1)
    }

    /** LIST_INIT. */
    constructor ()
      ensures Valid() && contents == []
    {
      first, last, size := null, null, 0;
      contents := [];
    }

    /** LIST_INSERT_HEAD. */
    method InsertHead(e: Node)
      requires Valid() && e !in contents
      modifies this, contents, e
      ensures Valid() && contents == InsertAt(old(contents), 0, e)
    {
      hide InsertAt, NoDup;
      Others(contents, 0);
      e.next := first;
      if e.next != null {
        first.prev := e;
      } else {
        last := e;
      }
      first := e;
      e.prev := null;
      size := size + 1;
      InsertNoDup(contents, 0, e);
      LinksInserted(contents, 0, e);
      InsertEnds(contents, 0, e);
      contents := InsertAt(contents, 0, e);
    }

    /** LIST_INSERT_TAIL. */
    method InsertTail(e: Node)
      requires Valid() && e !in contents
      modifies this, contents, e
      ensures Valid() && contents == InsertAt(old(contents), |old(contents)|, e)
    {
      hide InsertAt, NoDup;
      Others(contents, |contents| - 1);
      e.prev := last;
      if e.prev != null {
        last.next := e;
      } else {
        first := e;
      }
      last := e;
      e.next := null;
      size := size + 1;
      InsertNoDup(contents, |contents|, e);
      LinksInserted(contents, |contents|, e);
      InsertEnds(contents, |contents|, e);
      contents := InsertAt(contents, |contents|, e);
    }

    /** LIST_INSERT_AFTER. */
    method InsertAfter(l: Node, e: Node)
      requires Valid() && l in contents && e !in contents
      modifies this, contents, e
      ensures Valid() && contents == InsertAt(old(contents), IndexOf(old(contents), l) + 1, e)
    {
      hide InsertAt, NoDup, Linked, Nth;
      ghost var c, k := contents, IndexOf(contents, l);
      Neighbours(c, k);
      e.next := l.next;
      if e.next != null {
        l.next.prev := e;
      }
      l.next := e;
      e.prev := l;
      if e.next == null {
        last := e;
      }
      size := size + 1;
      InsertNoDup(c, k + 1, e);
      LinksInserted(c, k + 1, e);
      InsertEnds(c, k + 1, e);
      contents := InsertAt(c, k + 1, e);
    }

    /** LIST_INSERT_BEFORE. */
    method InsertBefore(l: Node, e: Node)
      requires Valid() && l in contents && e !in contents
      modifies this, contents, e
      ensures Valid() && contents == InsertAt(old(contents), IndexOf(old(contents), l), e)
    {
      hide InsertAt, NoDup, Linked, Nth;
      ghost var c, k := contents, IndexOf(contents, l);
      Neighbours(c, k);
      e.prev := l.prev;
      e.next := l;
      if l.prev != null {
        l.prev.next := e;
      } else {
        first := e;
      }
      l.prev := e;
      size := size + 1;
      InsertNoDup(c, k, e);
      LinksInserted(c, k, e);
      InsertEnds(c, k, e);
      contents := InsertAt(c, k, e);
    }

    /** LIST_REMOVE. */
    method Remove(e: Node)
      requires Valid() && e in contents
      modifies this, contents
      ensures Valid() && contents == RemoveAt(old(contents), IndexOf(old(contents), e))
      ensures e.next == null && e.prev == null
    {
      hide RemoveAt, NoDup, Linked, Nth;
      ghost var c, k := contents, IndexOf(contents, e);
      Neighbours(c, k);
      if e.next != null {
        e.next.prev := e.prev;
      } else {
        last := e.prev;
      }
      if e.prev != null {
        e.prev.next := e.next;
      } else {
        first := e.next;
      }
      e.next := null;
      e.prev := null;
      size := size - 1;
      RemoveNoDup(c, k);
      LinksRemoved(c, k);
      RemoveEnds(c, k);
      contents := RemoveAt(c, k);
    }

    /** One turn of LIST_FOREACH: the successor is read, then the body may remove the element it is at. */
    method Visit(v: Node, drop: Node -> bool, ghost c: seq<Node>, ghost i: nat) returns (next: Node?)
      requires Valid() && i < |c| && contents == Passed(c, i, drop) && v == c[i]
      modifies this, contents
      ensures Valid() && contents == Passed(c, i + 1, drop) && next == Nth(c, i + 1)
      ensures forall j | 0 <= j < |contents| :: contents[j] in old(contents)
    {
      hide RemoveAt, NoDup, Linked, Passed, Kept, IndexOf, Nth;
      PassedStep(c, i, drop);
      ghost var d, k := contents, |Kept(c[..i], drop)|;
      Neighbours(d, k);
      AtIndex(d, k);
      next := v.next;
      if drop(v) {
        Remove(v);
        RemovedMembers(d, k);
      }
    }

    /** LIST_FOREACH with a body that may remove the element it is at: every element is visited once, in order, whatever
        is removed. */
    method ForEachRemoving(drop: Node -> bool) returns (ghost visited: seq<Node>)
      requires Valid()
      modifies this, contents
      ensures Valid() && visited == old(contents) && contents == Kept(old(contents), drop)
    {
      hide NoDup, Linked, Passed, Kept;
      ghost var c, i := contents, 0;
      visited := [];
      var v := first;
      PassedEnds(c, drop);
      while v != null
        invariant 0 <= i <= |c| && Valid() && contents == Passed(c, i, drop) && v == Nth(c, i) && visited == c[..i]
        invariant forall j | 0 <= j < |contents| :: contents[j] in c
        decreases |c| - i
      {
        visited := visited + [v];
        v := Visit(v, drop, c, i);
        i := i + 1;
      }
    }
  }

  lemma PassedEnds(c: seq<Node>, drop: Node -> bool)
    ensures Passed(c, 0, drop) == c && Passed(c, |c|, drop) == Kept(c, drop) && c[..|c|] == c
  {
    assert c[..|c|] == c;
  }

  lemma RemovedMembers(c: seq<Node>, k: nat)
    requires k < |c|
    ensures forall n | n in RemoveAt(c, k) :: n in c
  {
  }

  /** The state of a traversal that has passed `i` elements: those it kept, then those still to come. */
  ghost function Passed(c: seq<Node>, i: nat, drop: Node -> bool): seq<Node>
    requires i <= |c|
  {
    Kept(c[..i], drop) + c[i..]
  }

  lemma PassedStep(c: seq<Node>, i: nat, drop: Node -> bool)
    requires i < |c|
    ensures var d, k := Passed(c, i, drop), |Kept(c[..i], drop)|;
            && k < |d| && d[k] == c[i] && Nth(d, k + 1) == Nth(c, i + 1)
            && Passed(c, i + 1, drop) == if drop(c[i]) then RemoveAt(d, k) else d
  {
    var a := Kept(c[..i], drop);
    assert c[..i + 1][..i] == c[..i];
    assert c[i..] == [c[i]] + c[i + 1..];
    var d := Passed(c, i, drop);
    assert d[..|a|] == a && d[|a| + 1..] == c[i + 1..];
  }

  lemma {:induction false} KeptMembers(c: seq<Node>, drop: Node -> bool, e: Node)
    ensures e in Kept(c, drop) <==> e in c && !drop(e)
    decreases |c|
  {
    if c != [] {
      KeptMembers(c[..|c| - 1], drop, e);
      assert c == c[..|c| - 1] + [c[|c| - 1]];
    }
  }

  lemma AtIndex(c: seq<Node>, k: nat)
    requires NoDup(c) && k < |c|
    ensures c[k] in c && IndexOf(c, c[k]) == k
  {
  }

  /** Element `k`, its neighbours, and where else they are not. */
  lemma Neighbours(c: seq<Node>, k: nat)
    requires Linked(c) && NoDup(c) && k < |c|
    ensures forall i | 0 <= i < |c| :: c[i].next == Nth(c, i + 1)
    ensures forall i | 0 <= i < |c| :: c[i].prev == Nth(c, i - 1)
    ensures forall i | 0 <= i < |c| :: c[i] == c[k] <==> i == k
    ensures forall i | 0 <= i < |c| :: c[i] == Nth(c, k + 1) <==> i == k + 1
    ensures forall i | 0 <= i < |c| :: c[i] == Nth(c, k - 1) <==> i == k - 1
    ensures Nth(c, k + 1) != null <==> k + 1 < |c|
    ensures Nth(c, k - 1) != null <==> k > 0
    ensures k + 1 < |c| ==> Nth(c, k + 1) == c[k + 1]
    ensures k > 0 ==> Nth(c, k - 1) == c[k - 1]
    ensures Nth(c, k) == c[k]
  {
  }

  /** An element is at one index only. */
  lemma Others(c: seq<Node>, k: int)
    requires NoDup(c)
    ensures forall i | 0 <= i < |c| && 0 <= k < |c| && i != k :: c[i] != c[k]
  {
  }

  lemma RemoveEnds(c: seq<Node>, k: nat)
    requires k < |c|
    ensures var d := RemoveAt(c, k);
            && |d| == |c| - 1
            && Nth(d, 0) == (if k == 0 then Nth(c, 1) else Nth(c, 0))
            && Nth(d, |d| - 1) == (if k == |c| - 1 then Nth(c, k - 1) else Nth(c, |c| - 1))
  {
  }

  lemma InsertEnds(c: seq<Node>, k: nat, e: Node)
    requires k <= |c|
    ensures var d := InsertAt(c, k, e);
            && |d| == |c| + 1
            && Nth(d, 0) == (if k == 0 then e else Nth(c, 0))
            && Nth(d, |d| - 1) == (if k == |c| then e else Nth(c, |c| - 1))
  {
  }
}
