/** The OPTIMAL replacement simulator of the page fault handler
    (kern/trap/fault_handler.c, get_optimal_num_faults) and Belady's theorem about it:
    no demand-paging run over the same references has fewer faults. */
module OptimalPaging {
  import opened Common

  type Page = int

  /** The distance the simulator gives to a page that is never referenced again. */
  const NEVER: nat := 1000000000

  /** The number of references before the first one to `p`; `|refs|` when there is none. */
  function Next(p: Page, refs: seq<Page>): (n: nat)
    ensures n <= |refs|
    ensures n < |refs| ==> refs[n] == p
    ensures forall i | 0 <= i < n :: refs[i] != p
  {
    if refs == [] || refs[0] == p then 0 else 1 + Next(p, refs[1..])
  }

  function Distance(p: Page, future: seq<Page>): nat {
    if Next(p, future) == |future| then NEVER else Next(p, future)
  }

  /** The first slot among those whose page is furthest in the future. */
  function Furthest(ws: seq<Page>, future: seq<Page>): (m: nat)
    requires |ws| > 0
    ensures m < |ws|
    ensures forall k | 0 <= k < |ws| :: Distance(ws[k], future) <= Distance(ws[m], future)
    ensures forall k | 0 <= k < m :: Distance(ws[k], future) < Distance(ws[m], future)
  {
    var last := |ws| - 1;
    if last == 0 then 0
    else
      var m := Furthest(ws[..last], future);
      if Distance(ws[last], future) > Distance(ws[m], future) then last else m
  }

  /** The simulated working set after a reference to `r`, slots in place. */
  function Step(ws: seq<Page>, cap: nat, r: Page, future: seq<Page>): seq<Page>
    requires cap > 0
  {
    if r in ws then ws
    else if |ws| < cap then ws + [r]
    else ws[Furthest(ws, future) := r]
  }

  /** The faults that furthest-in-future replacement takes. */
  function FifFaults(ws: seq<Page>, cap: nat, refs: seq<Page>): nat
    requires cap > 0
    decreases |refs|
  {
    if refs == [] then 0
    else (if refs[0] in ws then 0 else 1) + FifFaults(Step(ws, cap, refs[0], refs[1..]), cap, refs[1..])
  }

  // ---------------------------------------------------------------------------
  // Demand-paging runs, the reference the simulator is measured against
  // ---------------------------------------------------------------------------

  /** `caches[i]` is the resident set after reference `i`: it holds that page, adds no other page
      (paging is by demand only) and fits. Evictions are otherwise free: any pages, at any time. */
  ghost predicate DemandRun(s: set<Page>, cap: nat, refs: seq<Page>, caches: seq<set<Page>>)
    decreases |refs|
  {
    && |caches| == |refs|
    && (refs != [] ==>
          && refs[0] in caches[0]
          && caches[0] <= s + {refs[0]}
          && |caches[0]| <= cap
          && DemandRun(caches[0], cap, refs[1..], caches[1..]))
  }

  ghost function Faults(s: set<Page>, refs: seq<Page>, caches: seq<set<Page>>): nat
    requires |caches| == |refs|
    decreases |refs|
  {
    if refs == [] then 0
    else (if refs[0] in s then 0 else 1) + Faults(caches[0], refs[1..], caches[1..])
  }

  ghost function Pages(ws: seq<Page>): set<Page> {
    set p | p in ws
  }

  // ---------------------------------------------------------------------------
  // The exchange argument
  // ---------------------------------------------------------------------------

  lemma Droppable(y: set<Page>, z: set<Page>, r: Page) returns (w: Page)
    requires r !in y && r in z && |z| <= |y|
    ensures w in y && w !in z
  {
    if forall p | p in y :: p in z {
      SubsetCount(y, z - {r});
    }
    w :| w in y && w !in z;
  }

  /** A cache that lacks at most `k` of another cache's pages loses at most `k` faults to it. */
  lemma {:induction false} Slack(y: set<Page>, z: set<Page>, k: nat, cap: nat, refs: seq<Page>, caches: seq<set<Page>>)
      returns (mine: seq<set<Page>>)
    requires |z - y| <= k && |y| <= cap
    requires DemandRun(z, cap, refs, caches)
    ensures DemandRun(y, cap, refs, mine)
    ensures Faults(y, refs, mine) <= k + Faults(z, refs, caches)
    decreases |refs|
  {
    if refs == [] {
      return [];
    }
    var r, z' := refs[0], caches[0];
    var y', k' := y, k;
    if r in y {
      assert |z' - y| <= |z - y| by { SubsetCount(z' - y, z - y); }
    } else {
      if |y| < cap {
        y' := y + {r};
        assert z' - y' == z' - y - {r};
      } else {
        var w := Droppable(y, z', r);
        y' := y - {w} + {r};
        assert z' - y' == z' - y - {r};
      }
      if r in z {
        k' := k - 1;
        SubsetCount(z' - y', z - y - {r});
      } else {
        SubsetCount(z' - y', z - y);
      }
    }
    var rest := Slack(y', z', k', cap, refs[1..], caches[1..]);
    mine := [y'] + rest;
    assert mine[1..] == rest;
  }

  /** Keeping the page that is needed sooner never costs more. */
  lemma {:induction false} Exchange(x: set<Page>, a: Page, b: Page, cap: nat, refs: seq<Page>, caches: seq<set<Page>>)
      returns (mine: seq<set<Page>>)
    requires a !in x && b !in x && a != b && |x| < cap
    requires Next(a, refs) <= Next(b, refs)
    requires DemandRun(x + {b}, cap, refs, caches)
    ensures DemandRun(x + {a}, cap, refs, mine)
    ensures Faults(x + {a}, refs, mine) <= Faults(x + {b}, refs, caches)
    decreases |refs|
  {
    if refs == [] {
      return [];
    }
    var r, z' := refs[0], caches[0];
    if r == a {
      SubsetCount(z' - (x + {a}), {b});
      var rest := Slack(x + {a}, z', 1, cap, refs[1..], caches[1..]);
      mine := [x + {a}] + rest;
      assert mine[1..] == rest;
    } else if b !in z' {
      mine := caches;
    } else {
      var x' := z' - {b};
      assert z' == x' + {b};
      var rest := Exchange(x', a, b, cap, refs[1..], caches[1..]);
      mine := [x' + {a}] + rest;
      assert mine[1..] == rest;
    }
  }

  lemma PagesCount(ws: seq<Page>)
    requires NoDup(ws)
    ensures |Pages(ws)| == |ws|
  {
    if ws != [] {
      var last := |ws| - 1;
      PagesCount(ws[..last]);
      assert Pages(ws) == Pages(ws[..last]) + {ws[last]};
    }
  }

  lemma StepPages(ws: seq<Page>, cap: nat, r: Page, future: seq<Page>)
    requires NoDup(ws) && 0 < |ws| == cap && r !in ws
    ensures NoDup(Step(ws, cap, r, future))
    ensures Pages(Step(ws, cap, r, future)) == Pages(ws) - {ws[Furthest(ws, future)]} + {r}
  {
    var m := Furthest(ws, future);
    var ws' := ws[m := r];
    assert forall i | 0 <= i < |ws'| :: ws'[i] == if i == m then r else ws[i];
    forall p ensures p in Pages(ws') <==> p in Pages(ws) - {ws[m]} + {r} {
      if p in ws && p != ws[m] {
        var i :| 0 <= i < |ws| && ws[i] == p;
        assert ws'[i] == p;
      }
      if p == r {
        assert ws'[m] == p;
      }
    }
  }

  /** The pages the simulator keeps are needed no later than the one it evicts. */
  lemma FurthestIsLatest(ws: seq<Page>, future: seq<Page>)
    requires |ws| > 0 && |future| <= NEVER
    ensures forall p | p in ws :: Next(p, future) <= Next(ws[Furthest(ws, future)], future)
  {
  }

  /** From a full cache, evicting the page needed last is as good as whatever a run did. */
  lemma EvictLatest(s: set<Page>, f: Page, cap: nat, r: Page, future: seq<Page>, z: set<Page>, caches: seq<set<Page>>)
      returns (mine: seq<set<Page>>)
    requires f in s && |s| == cap && r !in s
    requires forall p | p in s :: Next(p, future) <= Next(f, future)
    requires r in z && z <= s + {r} && |z| <= cap && DemandRun(z, cap, future, caches)
    ensures DemandRun(s - {f} + {r}, cap, future, mine)
    ensures Faults(s - {f} + {r}, future, mine) <= Faults(z, future, caches)
  {
    hide DemandRun, Faults, Next;
    var v := Droppable(s, z, r);
    assert z - (s - {v} + {r}) == {};
    mine := Slack(s - {v} + {r}, z, 0, cap, future, caches);
    if v != f {
      var x := s - {v} - {f} + {r};
      assert s - {v} + {r} == x + {f} && s - {f} + {r} == x + {v};
      assert |x + {f}| == |x| + 1;
      mine := Exchange(x, v, f, cap, future, mine);
    }
  }

  /** After one step the simulator's cache is at least as good as any cache a run may have chosen. */
  lemma FifStepIsSafe(ws: seq<Page>, cap: nat, r: Page, future: seq<Page>, z: set<Page>, caches: seq<set<Page>>)
      returns (mine: seq<set<Page>>)
    requires NoDup(ws) && |ws| <= cap && cap > 0 && |future| <= NEVER
    requires r in z && z <= Pages(ws) + {r} && |z| <= cap && DemandRun(z, cap, future, caches)
    ensures DemandRun(Pages(Step(ws, cap, r, future)), cap, future, mine)
    ensures Faults(Pages(Step(ws, cap, r, future)), future, mine) <= Faults(z, future, caches)
  {
    PagesCount(ws);
    if r in ws || |ws| < cap {
      var ws' := Step(ws, cap, r, future);
      assert z - Pages(ws') == {};
      PagesCount(ws');
      mine := Slack(Pages(ws'), z, 0, cap, future, caches);
    } else {
      StepPages(ws, cap, r, future);
      FurthestIsLatest(ws, future);
      mine := EvictLatest(Pages(ws), ws[Furthest(ws, future)], cap, r, future, z, caches);
    }
  }

  /** Belady's theorem for the simulator, over every demand-paging run. */
  lemma {:induction false} FifIsOptimal(ws: seq<Page>, cap: nat, refs: seq<Page>, caches: seq<set<Page>>)
    requires NoDup(ws) && |ws| <= cap && cap > 0 && |refs| <= NEVER
    requires DemandRun(Pages(ws), cap, refs, caches)
    ensures FifFaults(ws, cap, refs) <= Faults(Pages(ws), refs, caches)
    decreases |refs|
  {
    if refs == [] {
      return;
    }
    var r, future := refs[0], refs[1..];
    var rest := FifStepIsSafe(ws, cap, r, future, caches[0], caches[1..]);
    if r !in ws && |ws| == cap {
      StepPages(ws, cap, r, future);
    }
    FifIsOptimal(Step(ws, cap, r, future), cap, future, rest);
  }

  lemma StepIsDemand(ws: seq<Page>, cap: nat, r: Page, future: seq<Page>)
    requires NoDup(ws) && |ws| <= cap && cap > 0
    ensures var ws' := Step(ws, cap, r, future);
            NoDup(ws') && |ws'| <= cap && r in Pages(ws') && Pages(ws') <= Pages(ws) + {r} && |Pages(ws')| <= cap
  {
    var ws' := Step(ws, cap, r, future);
    if r !in ws && |ws| == cap {
      StepPages(ws, cap, r, future);
    } else if r !in ws {
      assert ws'[|ws|] == r;
    }
    PagesCount(ws');
  }

  /** The simulated run is itself a demand-paging run, with exactly the counted faults. */
  lemma {:induction false} FifIsAchieved(ws: seq<Page>, cap: nat, refs: seq<Page>) returns (caches: seq<set<Page>>)
    requires NoDup(ws) && |ws| <= cap && cap > 0
    ensures DemandRun(Pages(ws), cap, refs, caches)
    ensures Faults(Pages(ws), refs, caches) == FifFaults(ws, cap, refs)
    decreases |refs|
  {
    if refs == [] {
      return [];
    }
    var r, future := refs[0], refs[1..];
    var ws' := Step(ws, cap, r, future);
    StepIsDemand(ws, cap, r, future);
    var rest := FifIsAchieved(ws', cap, future);
    caches := [Pages(ws')] + rest;
    assert caches[1..] == rest;
  }

  /** `n` is the minimum over all demand-paging runs: a lower bound that some run meets. */
  ghost predicate FewestFaults(s: set<Page>, cap: nat, refs: seq<Page>, n: nat) {
    && (forall caches | DemandRun(s, cap, refs, caches) :: n <= Faults(s, refs, caches))
    && (exists caches :: DemandRun(s, cap, refs, caches) && n == Faults(s, refs, caches))
  }

  lemma FifIsFewest(ws: seq<Page>, cap: nat, refs: seq<Page>)
    requires NoDup(ws) && |ws| <= cap && cap > 0 && |refs| <= NEVER
    ensures FewestFaults(Pages(ws), cap, refs, FifFaults(ws, cap, refs))
  {
    forall caches | DemandRun(Pages(ws), cap, refs, caches)
      ensures FifFaults(ws, cap, refs) <= Faults(Pages(ws), refs, caches)
    {
      FifIsOptimal(ws, cap, refs, caches);
    }
    var caches := FifIsAchieved(ws, cap, refs);
  }

  // ---------------------------------------------------------------------------
  // The simulator
  // ---------------------------------------------------------------------------

  /** The scan for the first reference to `p` after position `i`. */
  method FutureDistance(p: Page, refs: seq<Page>, i: nat) returns (distance: nat)
    requires i < |refs|
    ensures distance == Distance(p, refs[i + 1..])
  {
    var steps, j, found := 0, i + 1, false;
    while j < |refs|
      invariant i + 1 <= j <= |refs| && steps == j - i - 1
      invariant Next(p, refs[i + 1..]) == steps + Next(p, refs[j..])
      invariant !found
    {
      if p == refs[j] {
        found := true;
        break;
      }
      assert refs[j..][1..] == refs[j + 1..];
      steps := steps + 1;
      j := j + 1;
    }
    distance := if !found then NEVER else steps;
  }

  lemma FifUnfold(ws: seq<Page>, cap: nat, refs: seq<Page>, i: nat)
    requires cap > 0 && i < |refs|
    ensures FifFaults(ws, cap, refs[i..]) ==
            (if refs[i] in ws then 0 else 1) + FifFaults(Step(ws, cap, refs[i], refs[i + 1..]), cap, refs[i + 1..])
  {
  }

  /** get_optimal_num_faults: `ws_copy` is overwritten in place; initial pages beyond the capacity are dropped. */
  method GetOptimalNumFaults(initial: seq<Page>, cap: nat, refs: seq<Page>) returns (faults: nat)
    requires cap > 0
    ensures faults == FifFaults(if |initial| <= cap then initial else initial[..cap], cap, refs)
    ensures NoDup(initial) && |initial| <= cap && |refs| <= NEVER ==>
              FewestFaults(Pages(initial), cap, refs, faults)
  {
    var ws, count := CopyInitial(initial, cap);
    ghost var start := ws[..count];
    faults := 0;
    var i := 0;
    assert refs[0..] == refs;
    while i < |refs|
      invariant i <= |refs| && 0 <= count <= cap == ws.Length
      invariant faults + FifFaults(ws[..count], cap, refs[i..]) == FifFaults(start, cap, refs)
    {
      FifUnfold(ws[..count], cap, refs, i);
      var fault := false;
      count, fault := Reference(ws, count, refs, i);
      if fault {
        faults := faults + 1;
      }
      i := i + 1;
    }
    assert refs[|refs|..] == [];
    if NoDup(initial) && |initial| <= cap && |refs| <= NEVER {
      FifIsFewest(initial, cap, refs);
    }
  }

  method CopyInitial(initial: seq<Page>, cap: nat) returns (ws: array<Page>, count: nat)
    ensures fresh(ws) && count <= cap == ws.Length
    ensures ws[..count] == if |initial| <= cap then initial else initial[..cap]
  {
    ws := new Page[cap];
    count := 0;
    var n := 0;
    while n < |initial|
      invariant n <= |initial| && count == if n < cap then n else cap
      invariant ws[..count] == initial[..count]
    {
      if count < cap {
        ws[count] := initial[n];
        count := count + 1;
      }
      n := n + 1;
    }
  }

  /** One reference of the simulator's main loop. */
  method Reference(ws: array<Page>, count: nat, refs: seq<Page>, i: nat) returns (count': nat, fault: bool)
    requires 0 < ws.Length && count <= ws.Length && i < |refs|
    modifies ws
    ensures count' <= ws.Length && fault == (refs[i] !in old(ws[..count]))
    ensures ws[..count'] == Step(old(ws[..count]), ws.Length, refs[i], refs[i + 1..])
  {
    count' := count;
    var found := Holds(ws, count, refs[i]);
    fault := !found;
    if !found {
      if count == ws.Length {
        var victim := FindVictim(ws, refs, i);
        assert ws[..] == ws[..count];
        ws[victim] := refs[i];
      } else {
        ws[count] := refs[i];
        count' := count + 1;
      }
    }
  }

  method Holds(ws: array<Page>, count: nat, r: Page) returns (found: bool)
    requires count <= ws.Length
    ensures found <==> r in ws[..count]
  {
    found := false;
    var k := 0;
    while k < count
      invariant k <= count && r !in ws[..k] && !found
    {
      if ws[k] == r {
        found := true;
        break;
      }
      k := k + 1;
    }
  }

  /** The slot scan with its strict comparison, so the first of equally distant pages goes. */
  method FindVictim(ws: array<Page>, refs: seq<Page>, i: nat) returns (victim: nat)
    requires ws.Length > 0 && i < |refs|
    ensures victim == Furthest(ws[..], refs[i + 1..])
  {
    var maxSteps, k := 0, 0;
    victim := 0;
    while k < ws.Length
      invariant k <= ws.Length && victim < ws.Length
      invariant k == 0 ==> victim == 0 && maxSteps == 0
      invariant k > 0 ==> victim == Furthest(ws[..k], refs[i + 1..]) && maxSteps == Distance(ws[victim], refs[i + 1..])
    {
      var distance := FutureDistance(ws[k], refs, i);
      assert ws[..k + 1][..k] == ws[..k];
      if distance > maxSteps {
        maxSteps := distance;
        victim := k;
      }
      k := k + 1;
    }
    assert ws[..ws.Length] == ws[..];
  }
}
