/** Priority inheritance on bare arrays, away from queues and process records.

    `boss[j]` is the owner of the mutex process j is waiting for; `prio` holds the
    effective priorities (a smaller number is more urgent). A walk follows `succ`, the
    owner named by a blocked process's *record*: every real edge is in `succ`, but a
    record can outlive its wait, so `succ` may hold edges that are not in `boss`. */
module Inheritance {
  import opened Wrappers

  // "No extra claim": numerically larger than any priority.
  const NO_CLAIM: nat := 255

  datatype Graph = Graph(base: seq<nat>, boss: seq<Option<nat>>)

  ghost predicate Shaped(g: Graph, prio: seq<nat>) {
    && |g.base| == |g.boss| == |prio|
    && forall i :: 0 <= i < |g.base| ==> g.base[i] < NO_CLAIM
  }

  function Min(a: nat, b: nat): nat { if a < b then a else b }

  // ---------------------------------------------------------------- wanted priority

  /** The least of `acc` and the priorities of the first n processes that wait for i. */
  function Least(g: Graph, prio: seq<nat>, i: nat, n: nat, acc: nat): (w: nat)
    requires n <= |prio| == |g.boss|
    ensures w <= acc && forall j :: 0 <= j < n && g.boss[j] == Some(i) ==> w <= prio[j]
    ensures w == acc || exists j :: 0 <= j < n && g.boss[j] == Some(i) && prio[j] == w
  {
    if n == 0 then acc
    else
      var w := Least(g, prio, i, n - 1, acc);
      if g.boss[n - 1] == Some(i) then Min(prio[n - 1], w) else w
  }

  function Wanted(g: Graph, prio: seq<nat>, i: nat, claim: nat): nat
    requires Shaped(g, prio) && i < |prio|
  {
    Least(g, prio, i, |prio|, Min(g.base[i], claim))
  }

  /** No process is less urgent than its base priority or than a process it holds up. */
  ghost predicate Over(g: Graph, prio: seq<nat>)
    requires Shaped(g, prio)
  {
    && (forall i :: 0 <= i < |prio| ==> prio[i] <= g.base[i])
    && (forall j :: 0 <= j < |prio| && g.boss[j].Some? && g.boss[j].value < |prio|
          ==> prio[g.boss[j].value] <= prio[j])
  }

  /** i's urgency is its own or comes from a process waiting for it. */
  ghost predicate Tight(g: Graph, prio: seq<nat>, i: nat)
    requires Shaped(g, prio) && i < |prio|
  {
    prio[i] == g.base[i] || exists j :: 0 <= j < |prio| && g.boss[j] == Some(i) && prio[j] == prio[i]
  }

  /** The inheritance equation for every process: effective priority is exactly the
      minimum of base priority and the priorities of all waiters on owned mutexes. */
  ghost predicate Stable(g: Graph, prio: seq<nat>)
    requires Shaped(g, prio)
  {
    Over(g, prio) && forall i :: 0 <= i < |prio| ==> Tight(g, prio, i)
  }

  lemma StableIsEquation(g: Graph, prio: seq<nat>)
    requires Shaped(g, prio)
    ensures Stable(g, prio) <==> forall i :: 0 <= i < |prio| ==> prio[i] == Wanted(g, prio, i, NO_CLAIM)
  {
    if forall i :: 0 <= i < |prio| ==> prio[i] == Wanted(g, prio, i, NO_CLAIM) {
      forall i | 0 <= i < |prio| ensures prio[i] <= g.base[i] && Tight(g, prio, i) {
        assert prio[i] == Wanted(g, prio, i, NO_CLAIM);
      }
      forall j | 0 <= j < |prio| && g.boss[j].Some? && g.boss[j].value < |prio|
        ensures prio[g.boss[j].value] <= prio[j]
      {
        assert prio[g.boss[j].value] == Wanted(g, prio, g.boss[j].value, NO_CLAIM);
      }
    }
    if Stable(g, prio) {
      forall i | 0 <= i < |prio| ensures prio[i] == Wanted(g, prio, i, NO_CLAIM) {
        assert Tight(g, prio, i);
      }
    }
  }

  // ---------------------------------------------------------------- paths

  /** The n-th node reached from x along f. */
  ghost function Iter(f: seq<Option<nat>>, x: nat, n: nat): Option<nat>
    decreases n
  {
    if n == 0 then Some(x)
    else if x < |f| && f[x].Some? then Iter(f, f[x].value, n - 1)
    else None
  }

  lemma {:induction false} IterAdd(f: seq<Option<nat>>, x: nat, a: nat, b: nat)
    requires Iter(f, x, a).Some?
    ensures Iter(f, x, a + b) == Iter(f, Iter(f, x, a).value, b)
    decreases a
  {
    if a != 0 { IterAdd(f, f[x].value, a - 1, b); }
  }

  lemma {:induction false} IterPrefix(f: seq<Option<nat>>, x: nat, a: nat, b: nat)
    requires a <= b && Iter(f, x, b).Some?
    ensures Iter(f, x, a).Some?
    decreases a
  {
    if a != 0 { IterPrefix(f, f[x].value, a - 1, b - 1); }
  }

  /** Along a chain of real waits urgency never drops. */
  lemma {:induction false} ChainIsMonotone(g: Graph, prio: seq<nat>, x: nat, n: nat, y: nat)
    requires Shaped(g, prio) && Over(g, prio) && x < |prio| && y < |prio|
    requires forall j :: 0 <= j < |prio| && g.boss[j].Some? ==> g.boss[j].value < |prio|
    requires Iter(g.boss, x, n) == Some(y)
    ensures prio[y] <= prio[x]
    decreases n
  {
    if n != 0 { ChainIsMonotone(g, prio, g.boss[x].value, n - 1, y); }
  }

  ghost predicate InRange(f: seq<Option<nat>>) {
    forall j :: 0 <= j < |f| && f[j].Some? ==> f[j].value < |f|
  }

  lemma {:induction false} IterInRange(f: seq<Option<nat>>, x: nat, n: nat)
    requires InRange(f) && x < |f| && Iter(f, x, n).Some?
    ensures Iter(f, x, n).value < |f|
    decreases n
  {
    if n != 0 { IterInRange(f, f[x].value, n - 1); }
  }

  /** A deadlocked process is as urgent as the one that waits for it on the cycle. */
  lemma CycleIsTight(g: Graph, prio: seq<nat>, x: nat, n: nat)
    requires Shaped(g, prio) && Over(g, prio) && InRange(g.boss) && x < |prio|
    requires n > 0 && Iter(g.boss, x, n) == Some(x)
    ensures Tight(g, prio, x)
  {
    IterPrefix(g.boss, x, n - 1, n);
    IterInRange(g.boss, x, n - 1);
    var j := Iter(g.boss, x, n - 1).value;
    IterAdd(g.boss, x, n - 1, 1);
    assert Iter(g.boss, j, 1) == Some(x);
    assert g.boss[j] == Some(x) by { assert Iter(g.boss, g.boss[j].value, 0) == Some(x); }
    ChainIsMonotone(g, prio, x, n - 1, j);
  }

  // ---------------------------------------------------------------- the walk

  /** Recompute `cur`, then the owner its record names, and so on, `fuel` times at most. */
  ghost function Walk(g: Graph, succ: seq<Option<nat>>, prio: seq<nat>, cur: Option<nat>, claim: nat,
      fuel: nat): (r: seq<nat>)
    requires Shaped(g, prio) && |succ| == |prio|
    ensures |r| == |prio|
    decreases fuel
  {
    if fuel == 0 || cur.None? || cur.value >= |prio| then prio
    else
      Walk(g, succ, prio[cur.value := Wanted(g, prio, cur.value, claim)], succ[cur.value], NO_CLAIM, fuel - 1)
  }

  lemma WalkStep(g: Graph, succ: seq<Option<nat>>, prio: seq<nat>, cur: nat, claim: nat, fuel: nat)
    requires Shaped(g, prio) && |succ| == |prio| && cur < |prio| && fuel > 0
    ensures Walk(g, succ, prio, Some(cur), claim, fuel) ==
            Walk(g, succ, prio[cur := Wanted(g, prio, cur, claim)], succ[cur], NO_CLAIM, fuel - 1)
  {
  }

  /** `owners` bounds the processes a walk can reach after its first step: each owns a mutex. */
  ghost predicate Edges(g: Graph, succ: seq<Option<nat>>, owners: set<nat>) {
    && |succ| == |g.boss|
    && (forall j :: 0 <= j < |succ| && g.boss[j].Some? ==> succ[j] == g.boss[j])
    && (forall j :: 0 <= j < |succ| && succ[j].Some? ==> succ[j].value in owners && succ[j].value < |succ|)
  }

  /** y cannot be reached from any process of `u` along real waits. */
  ghost predicate Outside(g: Graph, u: set<nat>, y: nat) {
    forall z, n: nat :: z in u ==> Iter(g.boss, z, n) != Some(y)
  }

  lemma OutsideForward(g: Graph, u: set<nat>, x: nat)
    requires x < |g.boss| && g.boss[x].Some? && !Outside(g, u, x)
    ensures !Outside(g, u, g.boss[x].value)
  {
    var z, n: nat :| z in u && Iter(g.boss, z, n) == Some(x);
    IterAdd(g.boss, z, n, 1);
    assert Iter(g.boss, x, 1) == Iter(g.boss, g.boss[x].value, 0);
  }

  /** One step when nobody is too unimportant: the visited process becomes exact and only
      the process it waits for can stop being exact. */
  lemma LowerStep(g: Graph, prio: seq<nat>, x: nat)
    requires Shaped(g, prio) && Over(g, prio) && x < |prio|
    ensures var w := Wanted(g, prio, x, NO_CLAIM); var q := prio[x := w];
            && prio[x] <= w && Over(g, q) && Tight(g, q, x)
            && (Tight(g, prio, x) ==> q == prio)
            && forall y :: 0 <= y < |prio| && y != x && g.boss[x] != Some(y) && Tight(g, prio, y) ==> Tight(g, q, y)
  {
    var w := Wanted(g, prio, x, NO_CLAIM);
    var q := prio[x := w];
    VisitedIsTight(g, prio, x);
    hide Wanted, Over;
    forall y | 0 <= y < |prio| && y != x && g.boss[x] != Some(y) && Tight(g, prio, y)
      ensures Tight(g, q, y)
    {
      if prio[y] != g.base[y] {
        var j :| 0 <= j < |prio| && g.boss[j] == Some(y) && prio[j] == prio[y];
        assert j != x && q[j] == q[y];
      }
    }
  }

  lemma VisitedIsTight(g: Graph, prio: seq<nat>, x: nat)
    requires Shaped(g, prio) && Over(g, prio) && x < |prio|
    ensures var w := Wanted(g, prio, x, NO_CLAIM); var q := prio[x := w];
            prio[x] <= w && Over(g, q) && Tight(g, q, x) && (Tight(g, prio, x) ==> q == prio)
  {
    var w := Wanted(g, prio, x, NO_CLAIM);
    var q := prio[x := w];
    if w != g.base[x] {
      var j :| 0 <= j < |prio| && g.boss[j] == Some(x) && prio[j] == w;
      assert j == x ==> w == prio[x];
      assert q[j] == w;
    }
  }

  /** All dirty processes outside `u` are ahead of the walk on real waits. */
  ghost predicate Ahead(g: Graph, prio: seq<nat>, u: set<nat>, cur: nat)
    requires Shaped(g, prio)
  {
    forall y :: 0 <= y < |prio| && Outside(g, u, y) && !Tight(g, prio, y) ==>
      exists n: nat :: Iter(g.boss, cur, n) == Some(y)
  }

  ghost predicate Settled(g: Graph, prio: seq<nat>, u: set<nat>)
    requires Shaped(g, prio)
  {
    forall y :: 0 <= y < |prio| && Outside(g, u, y) ==> Tight(g, prio, y)
  }

  lemma SettledStep(g: Graph, prio: seq<nat>, x: nat, u: set<nat>)
    requires Shaped(g, prio) && Over(g, prio) && Settled(g, prio, u) && x < |prio|
    ensures Settled(g, prio[x := Wanted(g, prio, x, NO_CLAIM)], u)
  {
    var q := prio[x := Wanted(g, prio, x, NO_CLAIM)];
    LowerStep(g, prio, x);
    forall y | 0 <= y < |prio| && Outside(g, u, y) ensures Tight(g, q, y) {
      if y != x && g.boss[x] == Some(y) && !Outside(g, u, x) {
        OutsideForward(g, u, x);
      }
    }
  }

  /** Once everything outside u is exact, a walk keeps it so. */
  lemma {:induction false} WalkKeepsSettled(g: Graph, succ: seq<Option<nat>>, prio: seq<nat>, cur: Option<nat>,
      fuel: nat, u: set<nat>)
    requires Shaped(g, prio) && |succ| == |prio| && Over(g, prio) && Settled(g, prio, u)
    ensures Over(g, Walk(g, succ, prio, cur, NO_CLAIM, fuel)) && Settled(g, Walk(g, succ, prio, cur, NO_CLAIM, fuel), u)
    decreases fuel
  {
    if fuel != 0 && cur.Some? && cur.value < |prio| {
      LowerStep(g, prio, cur.value);
      SettledStep(g, prio, cur.value, u);
      WalkKeepsSettled(g, succ, prio[cur.value := Wanted(g, prio, cur.value, NO_CLAIM)], succ[cur.value], fuel - 1, u);
    }
  }

  /** While priorities only fall, a walk never changes a process that nothing in u leads to,
      nor a deadlocked one. */
  lemma {:induction false} WalkSpares(g: Graph, succ: seq<Option<nat>>, prio: seq<nat>, cur: Option<nat>, fuel: nat,
                                      u: set<nat>, y: nat)
    requires Shaped(g, prio) && |succ| == |prio| && Over(g, prio) && Settled(g, prio, u) && InRange(g.boss)
             && y < |prio|
    requires Outside(g, u, y) || OnRealCycle(g, y)
    ensures Walk(g, succ, prio, cur, NO_CLAIM, fuel)[y] == prio[y]
    decreases fuel
  {
    hide Outside, OnRealCycle, Over, Settled, Wanted, InRange;
    if fuel != 0 && cur.Some? && cur.value < |prio| {
      SpareStep(g, prio, cur.value, u, y);
      WalkSpares(g, succ, prio[cur.value := Wanted(g, prio, cur.value, NO_CLAIM)], succ[cur.value], fuel - 1, u, y);
    }
  }

  lemma SpareStep(g: Graph, prio: seq<nat>, x: nat, u: set<nat>, y: nat)
    requires Shaped(g, prio) && Over(g, prio) && Settled(g, prio, u) && InRange(g.boss) && x < |prio| && y < |prio|
    requires Outside(g, u, y) || OnRealCycle(g, y)
    ensures var q := prio[x := Wanted(g, prio, x, NO_CLAIM)]; Over(g, q) && Settled(g, q, u) && q[y] == prio[y]
  {
    hide Outside, OnRealCycle;
    LowerStep(g, prio, x);
    SettledStep(g, prio, x, u);
    if x == y && OnRealCycle(g, y) { OnCycleIsTight(g, prio, y); }
  }

  lemma OnCycleIsTight(g: Graph, prio: seq<nat>, x: nat)
    requires Shaped(g, prio) && Over(g, prio) && InRange(g.boss) && x < |prio| && OnRealCycle(g, x)
    ensures Tight(g, prio, x)
  {
    var m: nat :| m > 0 && Iter(g.boss, x, m) == Some(x);
    CycleIsTight(g, prio, x, m);
  }

  /** Where a real cycle is reached, nothing ahead is dirty. */
  lemma CycleIsClean(g: Graph, prio: seq<nat>, u: set<nat>, x: nat, n: nat)
    requires Shaped(g, prio) && Over(g, prio) && InRange(g.boss) && x < |prio|
    requires n > 0 && Iter(g.boss, x, n) == Some(x) && Ahead(g, prio, u, x)
    ensures Settled(g, prio, u)
  {
    forall y | 0 <= y < |prio| && Outside(g, u, y) ensures Tight(g, prio, y) {
      if !Tight(g, prio, y) {
        var m: nat :| Iter(g.boss, x, m) == Some(y);
        IterAdd(g.boss, x, n, m);
        IterAdd(g.boss, x, m, n);
        CycleIsTight(g, prio, y, n);
      }
    }
  }

  /** Moving on along a real wait keeps the dirty processes ahead. */
  lemma AheadStep(g: Graph, prio: seq<nat>, u: set<nat>, x: nat)
    requires Shaped(g, prio) && Over(g, prio) && InRange(g.boss) && x < |prio| && Ahead(g, prio, u, x)
    ensures var q := prio[x := Wanted(g, prio, x, NO_CLAIM)];
            if g.boss[x].Some? then Ahead(g, q, u, g.boss[x].value) else Settled(g, q, u)
  {
    var q := prio[x := Wanted(g, prio, x, NO_CLAIM)];
    LowerStep(g, prio, x);
    forall y | 0 <= y < |prio| && Outside(g, u, y) && !Tight(g, q, y)
      ensures g.boss[x].Some? && exists n: nat :: Iter(g.boss, g.boss[x].value, n) == Some(y)
    {
      if g.boss[x] == Some(y) {
        assert Iter(g.boss, y, 0) == Some(y);
      } else {
        var n: nat :| Iter(g.boss, x, n) == Some(y);
        assert n != 0;
        assert Iter(g.boss, g.boss[x].value, n - 1) == Some(y);
      }
    }
  }

  /** Every process of `visited` waits, through at least one real wait, for x. */
  ghost predicate Reach(g: Graph, visited: set<nat>, x: nat) {
    forall v :: v in visited ==> exists n: nat :: n > 0 && Iter(g.boss, v, n) == Some(x)
  }

  lemma ReachStep(g: Graph, visited: set<nat>, cur: nat)
    requires cur < |g.boss| && g.boss[cur].Some? && Reach(g, visited, cur)
    ensures Reach(g, visited + {cur}, g.boss[cur].value)
  {
    var next := g.boss[cur].value;
    assert Iter(g.boss, cur, 1) == Iter(g.boss, next, 0) == Some(next);
    forall v | v in visited ensures exists n: nat :: n > 0 && Iter(g.boss, v, n) == Some(next) {
      var n: nat :| n > 0 && Iter(g.boss, v, n) == Some(cur);
      IterAdd(g.boss, v, n, 1);
      assert Iter(g.boss, v, n + 1) == Some(next);
    }
  }

  /** The processes met by a walk are its start and mutex owners, all different. */
  lemma Pigeonhole(owners: set<nat>, bound: nat, start: nat, cur: nat, visited: set<nat>)
    requires |owners| <= bound && visited <= owners + {start} && cur in owners + {start} && cur !in visited
    ensures |visited| <= bound && |visited + {cur}| == |visited| + 1
  {
    SubsetSize(visited + {cur}, owners + {start});
    SumSize(owners, start);
  }

  /** A walk whose bound is one more than the number of mutexes always settles what it
      was started for: it ends at a process that waits for nobody, or closes a cycle. */
  lemma {:induction false} WalkLowers(g: Graph, succ: seq<Option<nat>>, owners: set<nat>, bound: nat, prio: seq<nat>,
                   start: nat, cur: nat, fuel: nat, visited: set<nat>, u: set<nat>)
    requires Shaped(g, prio) && Edges(g, succ, owners) && |owners| <= bound && Over(g, prio)
    requires cur < |prio| && Ahead(g, prio, u, cur) && Reach(g, visited, cur)
    requires |visited| + fuel == bound + 1 && visited <= owners + {start} && cur in owners + {start}
    ensures Over(g, Walk(g, succ, prio, Some(cur), NO_CLAIM, fuel))
    ensures Settled(g, Walk(g, succ, prio, Some(cur), NO_CLAIM, fuel), u)
    decreases fuel
  {
    hide Walk, Over, Settled, Ahead, Reach, Iter, Tight, Wanted;
    if cur in visited {
      var n := MetAgain(g, visited, cur);
      CycleIsClean(g, prio, u, cur, n);
      WalkKeepsSettled(g, succ, prio, Some(cur), fuel, u);
    } else {
      Pigeonhole(owners, bound, start, cur, visited);
      var q := prio[cur := Wanted(g, prio, cur, NO_CLAIM)];
      LowerStep(g, prio, cur);
      AheadStep(g, prio, u, cur);
      WalkStep(g, succ, prio, cur, NO_CLAIM, fuel);
      if g.boss[cur].Some? {
        ReachStep(g, visited, cur);
        WalkLowers(g, succ, owners, bound, q, start, g.boss[cur].value, fuel - 1, visited + {cur}, u);
      } else {
        WalkKeepsSettled(g, succ, q, succ[cur], fuel - 1, u);
      }
    }
  }

  lemma MetAgain(g: Graph, visited: set<nat>, cur: nat) returns (n: nat)
    requires Reach(g, visited, cur) && cur in visited
    ensures n > 0 && Iter(g.boss, cur, n) == Some(cur)
  {
    n :| n > 0 && Iter(g.boss, cur, n) == Some(cur);
  }

  /** Everything is exact again after a walk that starts where the trouble is. */
  lemma WalkRestores(g: Graph, succ: seq<Option<nat>>, owners: set<nat>, bound: nat, prio: seq<nat>, start: nat)
    requires Shaped(g, prio) && Edges(g, succ, owners) && |owners| <= bound && Over(g, prio)
    requires start < |prio| && Settled(g, prio, {start})
    ensures Stable(g, Walk(g, succ, prio, Some(start), NO_CLAIM, bound + 1))
  {
    WalkLowers(g, succ, owners, bound, prio, start, start, bound + 1, {}, {});
    var r := Walk(g, succ, prio, Some(start), NO_CLAIM, bound + 1);
    forall y | 0 <= y < |r| ensures Tight(g, r, y) { assert Outside(g, {}, y); }
  }

  /** Nothing left to do: a walk over exact priorities changes none, whatever its bound. */
  lemma {:induction false} WalkIdles(g: Graph, succ: seq<Option<nat>>, prio: seq<nat>, cur: Option<nat>, fuel: nat)
    requires Shaped(g, prio) && |succ| == |prio| && Stable(g, prio)
    ensures Walk(g, succ, prio, cur, NO_CLAIM, fuel) == prio
    decreases fuel
  {
    if fuel != 0 && cur.Some? && cur.value < |prio| {
      LowerStep(g, prio, cur.value);
      WalkIdles(g, succ, prio, succ[cur.value], fuel - 1);
    }
  }

  lemma {:induction false} WalkSplits(g: Graph, succ: seq<Option<nat>>, prio: seq<nat>, cur: nat, a: nat, b: nat)
    requires Shaped(g, prio) && |succ| == |prio| && cur < |prio| && InRange(succ)
    ensures Walk(g, succ, prio, Some(cur), NO_CLAIM, a + b) ==
            Walk(g, succ, Walk(g, succ, prio, Some(cur), NO_CLAIM, a), Iter(succ, cur, a), NO_CLAIM, b)
    decreases a
  {
    if a != 0 {
      var q := prio[cur := Wanted(g, prio, cur, NO_CLAIM)];
      assert Walk(g, succ, prio, Some(cur), NO_CLAIM, a + b) == Walk(g, succ, q, succ[cur], NO_CLAIM, a - 1 + b);
      assert Walk(g, succ, prio, Some(cur), NO_CLAIM, a) == Walk(g, succ, q, succ[cur], NO_CLAIM, a - 1);
      if succ[cur].Some? { WalkSplits(g, succ, q, succ[cur].value, a - 1, b); }
    }
  }

  /** The bound never truncates a walk without a claim that starts at the one owner who may
      have become too urgent: more hops change nothing. */
  lemma BoundIsEnough(g: Graph, succ: seq<Option<nat>>, owners: set<nat>, bound: nat, prio: seq<nat>, start: nat,
      more: nat)
    requires Shaped(g, prio) && Edges(g, succ, owners) && |owners| <= bound && Over(g, prio)
    requires start < |prio| && Settled(g, prio, {start})
    ensures Walk(g, succ, prio, Some(start), NO_CLAIM, bound + 1 + more) ==
            Walk(g, succ, prio, Some(start), NO_CLAIM, bound + 1)
  {
    WalkRestores(g, succ, owners, bound, prio, start);
    WalkSplits(g, succ, prio, start, bound + 1, more);
    WalkIdles(g, succ, Walk(g, succ, prio, Some(start), NO_CLAIM, bound + 1), Iter(succ, start, bound + 1), more);
  }

  // ---------------------------------------------------------------- raising for a claim

  /** Exact, except that o is also held at the priority c of a process about to wait for it. */
  ghost predicate Held(g: Graph, prio: seq<nat>, o: nat, c: nat)
    requires Shaped(g, prio) && o < |prio|
  {
    && Over(g, prio) && prio[o] <= c && (Tight(g, prio, o) || prio[o] == c)
    && forall y :: 0 <= y < |prio| && y != o ==> Tight(g, prio, y)
  }

  /** Only processes less urgent than c changed, those to c itself, and only where o's wait leads. */
  ghost predicate RaisedTo(g: Graph, before: seq<nat>, after: seq<nat>, o: nat, c: nat) {
    && |after| == |before|
    && forall x :: 0 <= x < |before| && after[x] != before[x] ==> after[x] == c < before[x] && Leads(g, o, x)
  }

  ghost predicate Leads(g: Graph, o: nat, x: nat) {
    exists n: nat :: Iter(g.boss, o, n) == Some(x)
  }

  ghost predicate OnRealCycle(g: Graph, o: nat) {
    exists m: nat :: m > 0 && Iter(g.boss, o, m) == Some(o)
  }

  lemma LeadsStep(g: Graph, o: nat, x: nat)
    requires Leads(g, o, x) && x < |g.boss| && g.boss[x].Some?
    ensures Leads(g, o, g.boss[x].value)
    ensures g.boss[x] == Some(o) ==> OnRealCycle(g, o)
  {
    var n: nat :| Iter(g.boss, o, n) == Some(x);
    IterAdd(g.boss, o, n, 1);
    assert Iter(g.boss, x, 1) == Iter(g.boss, g.boss[x].value, 0);
    assert Iter(g.boss, o, n + 1) == g.boss[x];
  }

  /** The walk under way: `visited` is a real chain from o, all of it now at c. */
  ghost predicate Raising(g: Graph, before: seq<nat>, prio: seq<nat>, o: nat, c: nat, last: nat, visited: set<nat>) {
    && Shaped(g, before) && |prio| == |before| && Stable(g, before) && InRange(g.boss)
    && o in visited && last in visited && o < |prio|
    && (forall v :: v in visited ==> v < |prio| && prio[v] == c < before[v] && Leads(g, o, v))
    && (forall v :: 0 <= v < |prio| && v !in visited ==> prio[v] == before[v])
    && (forall v {:trigger Followed(g, visited, v)} :: v in visited && v != last ==> Followed(g, visited, v))
    && (forall v {:trigger Preceded(g, visited, v)} :: v in visited && v != o ==> Preceded(g, visited, v))
  }

  ghost predicate Followed(g: Graph, visited: set<nat>, v: nat) {
    v < |g.boss| && g.boss[v].Some? && g.boss[v].value in visited
  }

  ghost predicate Preceded(g: Graph, visited: set<nat>, v: nat) {
    exists j :: j in visited && j < |g.boss| && g.boss[j] == Some(v)
  }

  lemma RaisedIsHeld(g: Graph, before: seq<nat>, prio: seq<nat>, o: nat, c: nat, last: nat, visited: set<nat>)
    requires Raising(g, before, prio, o, c, last, visited)
    requires g.boss[last].Some? ==> prio[g.boss[last].value] <= c
    ensures Held(g, prio, o, c) && RaisedTo(g, before, prio, o, c)
  {
    forall y | 0 <= y < |prio| && y != o ensures Tight(g, prio, y) {
      if y in visited {
        assert Preceded(g, visited, y);
        var j :| j in visited && j < |g.boss| && g.boss[j] == Some(y);
        assert prio[j] == prio[y];
      } else {
        assert Tight(g, before, y);
        if before[y] != g.base[y] {
          var j :| 0 <= j < |prio| && g.boss[j] == Some(y) && before[j] == before[y];
          assert j in visited ==> j == last || Followed(g, visited, j);
        }
      }
    }
    forall j | 0 <= j < |prio| && g.boss[j].Some? ensures prio[g.boss[j].value] <= prio[j] {
      assert before[g.boss[j].value] <= before[j];
      assert j in visited ==> j == last || Followed(g, visited, j);
    }
  }

  lemma WantedIsClaim(g: Graph, before: seq<nat>, prio: seq<nat>, o: nat, c: nat, last: nat, cur: nat,
      visited: set<nat>)
    requires Raising(g, before, prio, o, c, last, visited)
    requires g.boss[last] == Some(cur) && prio[cur] > c
    ensures Wanted(g, prio, cur, NO_CLAIM) == c
  {
    assert cur !in visited;
    forall j | 0 <= j < |prio| && g.boss[j] == Some(cur) ensures c <= prio[j] {
      assert before[cur] <= before[j];
    }
    assert prio[last] == c;
  }

  /** One more process joins the chain and takes the claim over. */
  lemma RaisingStep(g: Graph, before: seq<nat>, prio: seq<nat>, o: nat, c: nat, last: nat, cur: nat, visited: set<nat>)
    requires Raising(g, before, prio, o, c, last, visited)
    requires g.boss[last] == Some(cur) && prio[cur] > c
    ensures Raising(g, before, prio[cur := c], o, c, cur, visited + {cur})
  {
    hide Followed, Preceded, Leads, Stable;
    var all := visited + {cur};
    LastLeads(g, o, last, cur);
    forall v | v in all && v != cur ensures Followed(g, all, v) {
      if v == last { IsFollowed(g, all, last, cur); } else { FollowedStill(g, visited, all, v); }
    }
    forall v | v in all && v != o ensures Preceded(g, all, v) {
      if v == cur { IsPreceded(g, all, last, cur); } else { PrecededStill(g, visited, all, v); }
    }
  }

  lemma LastLeads(g: Graph, o: nat, last: nat, cur: nat)
    requires Leads(g, o, last) && last < |g.boss| && g.boss[last] == Some(cur)
    ensures Leads(g, o, cur)
  {
    LeadsStep(g, o, last);
  }

  lemma IsFollowed(g: Graph, all: set<nat>, v: nat, next: nat)
    requires v < |g.boss| && g.boss[v] == Some(next) && next in all
    ensures Followed(g, all, v)
  {
  }

  lemma IsPreceded(g: Graph, all: set<nat>, j: nat, v: nat)
    requires j in all && j < |g.boss| && g.boss[j] == Some(v)
    ensures Preceded(g, all, v)
  {
  }

  lemma FollowedStill(g: Graph, visited: set<nat>, all: set<nat>, v: nat)
    requires visited <= all && Followed(g, visited, v)
    ensures Followed(g, all, v)
  {
  }

  lemma PrecededStill(g: Graph, visited: set<nat>, all: set<nat>, v: nat)
    requires visited <= all && Preceded(g, visited, v)
    ensures Preceded(g, all, v)
  {
  }

  lemma IterNext(f: seq<Option<nat>>, x: nat, t: nat, y: nat)
    requires Iter(f, x, t) == Some(y) && y < |f|
    ensures Iter(f, x, t + 1) == f[y]
  {
    IterAdd(f, x, t, 1);
    if f[y].Some? { assert Iter(f, f[y].value, 0) == f[y]; }
  }

  /** One visit of the raising walk. */
  lemma RaiseVisit(g: Graph, succ: seq<Option<nat>>, owners: set<nat>, bound: nat, before: seq<nat>,
                   o: nat, c: nat, prio: seq<nat>, last: nat, cur: nat, visited: set<nat>, t: nat)
    requires Raising(g, before, prio, o, c, last, visited) && g.boss[last] == Some(cur) && prio[cur] > c
    requires Edges(g, succ, owners) && |owners| <= bound && visited <= owners + {o}
    requires |visited| == t && Iter(succ, o, t) == Some(cur)
    ensures cur != o && t <= bound && Raising(g, before, prio[cur := c], o, c, cur, visited + {cur})
    ensures |visited + {cur}| == t + 1 && visited + {cur} <= owners + {o} && Iter(succ, o, t + 1) == succ[cur]
    ensures Walk(g, succ, prio, Some(cur), NO_CLAIM, bound + 1 - t) ==
            Walk(g, succ, prio[cur := c], succ[cur], NO_CLAIM, bound - t)
  {
    assert cur !in visited && succ[last] == g.boss[last];
    Pigeonhole(owners, bound, o, cur, visited);
    RaisingStep(g, before, prio, o, c, last, cur, visited);
    WantedIsClaim(g, before, prio, o, c, last, cur, visited);
    IterNext(succ, o, t, cur);
  }

  /** Where the raising stopped. */
  datatype RaiseEnd = RaiseEnd(prio: seq<nat>, last: nat, visited: set<nat>, t: nat)

  /** The raising part of a walk: it ends at the first process already urgent enough, or
      that really waits for nobody. `t` counts the visits made, the last one to `last`. */
  lemma {:induction false} RaisePhase(g: Graph, succ: seq<Option<nat>>, owners: set<nat>, bound: nat, before: seq<nat>,
                   o: nat, c: nat, prio: seq<nat>, last: nat, visited: set<nat>, t: nat)
    returns (e: RaiseEnd)
    requires Raising(g, before, prio, o, c, last, visited)
    requires Edges(g, succ, owners) && |owners| <= bound && visited <= owners + {o}
    requires |visited| == t <= bound + 1 && Iter(succ, o, t) == succ[last]
    ensures Raising(g, before, e.prio, o, c, e.last, e.visited) && t <= e.t <= bound + 1
    ensures g.boss[e.last].Some? ==> e.prio[g.boss[e.last].value] <= c
    ensures Walk(g, succ, prio, succ[last], NO_CLAIM, bound + 1 - t) ==
            Walk(g, succ, e.prio, Iter(succ, o, e.t), NO_CLAIM, bound + 1 - e.t)
    ensures forall m :: t <= m < e.t ==> Iter(succ, o, m) != Some(o)
    decreases bound + 1 - t
  {
    hide Walk;
    if g.boss[last].None? || prio[g.boss[last].value] <= c {
      e := RaiseEnd(prio, last, visited, t);
    } else {
      var cur := g.boss[last].value;
      assert succ[last] == Some(cur);
      RaiseVisit(g, succ, owners, bound, before, o, c, prio, last, cur, visited, t);
      e := RaisePhase(g, succ, owners, bound, before, o, c, prio[cur := c], cur, visited + {cur}, t + 1);
    }
  }

  /** The walk comes back to o through a record whose process is not really waiting, while
      o is held for a more urgent process: the second visit knows nothing of the claim. */
  ghost predicate LosesClaim(g: Graph, succ: seq<Option<nat>>, bound: nat, prio: seq<nat>, o: nat, c: nat)
    requires o < |prio|
  {
    prio[o] > c && exists n: nat :: 1 <= n <= bound && Iter(succ, o, n) == Some(o) && Iter(g.boss, o, n) != Some(o)
  }

  /** With o not met again, a walk over held priorities changes nothing. */
  lemma {:induction false} WalkStill(g: Graph, succ: seq<Option<nat>>, prio: seq<nat>, o: nat, c: nat,
      cur: Option<nat>, fuel: nat)
    requires Shaped(g, prio) && |succ| == |prio| && o < |prio| && Held(g, prio, o, c)
    requires cur.Some? ==> forall n: nat :: n < fuel ==> Iter(succ, cur.value, n) != Some(o)
    ensures Walk(g, succ, prio, cur, NO_CLAIM, fuel) == prio
    decreases fuel
  {
    if fuel != 0 && cur.Some? && cur.value < |prio| {
      var x := cur.value;
      assert Iter(succ, x, 0) != Some(o);
      LowerStep(g, prio, x);
      if succ[x].Some? {
        forall n: nat | n < fuel - 1 ensures Iter(succ, succ[x].value, n) != Some(o) {
          assert Iter(succ, x, n + 1) != Some(o);
        }
      }
      WalkStill(g, succ, prio, o, c, succ[x], fuel - 1);
    }
  }

  lemma {:induction false} WalkGrows(g: Graph, succ: seq<Option<nat>>, prio: seq<nat>, cur: Option<nat>, fuel: nat,
      o: nat)
    requires Shaped(g, prio) && |succ| == |prio| && Over(g, prio) && o < |prio|
    ensures prio[o] <= Walk(g, succ, prio, cur, NO_CLAIM, fuel)[o]
    decreases fuel
  {
    if fuel != 0 && cur.Some? && cur.value < |prio| {
      LowerStep(g, prio, cur.value);
      WalkGrows(g, succ, prio[cur.value := Wanted(g, prio, cur.value, NO_CLAIM)], succ[cur.value], fuel - 1, o);
    }
  }

  lemma WantedGrows(g: Graph, prio: seq<nat>, q: seq<nat>, o: nat)
    requires Shaped(g, prio) && |q| == |prio| && o < |prio| && forall i :: 0 <= i < |prio| ==> prio[i] <= q[i]
    ensures Wanted(g, prio, o, NO_CLAIM) <= Wanted(g, q, o, NO_CLAIM)
  {
  }

  /** Met again with nobody urgent waiting for it, o drops back below the claim. */
  lemma {:induction false} WalkLoses(g: Graph, succ: seq<Option<nat>>, prio: seq<nat>, o: nat, c: nat, cur: nat,
      fuel: nat, n: nat)
    requires Shaped(g, prio) && |succ| == |prio| && InRange(succ) && Over(g, prio) && o < |prio| && cur < |prio|
    requires Wanted(g, prio, o, NO_CLAIM) > c && n < fuel && Iter(succ, cur, n) == Some(o)
    ensures Walk(g, succ, prio, Some(cur), NO_CLAIM, fuel)[o] > c
    decreases fuel
  {
    hide Walk, Wanted, Over, Tight;
    var q := prio[cur := Wanted(g, prio, cur, NO_CLAIM)];
    WalkStep(g, succ, prio, cur, NO_CLAIM, fuel);
    LowerStep(g, prio, cur);
    if cur == o {
      WalkGrows(g, succ, q, succ[cur], fuel - 1, o);
    } else {
      WantedGrows(g, prio, q, o);
      WalkLoses(g, succ, q, o, c, succ[cur].value, fuel - 1, n - 1);
    }
  }

  /** On a real cycle, records and waits lead the same way. */
  lemma RealCycleAgrees(g: Graph, succ: seq<Option<nat>>, owners: set<nat>, o: nat, m: nat, n: nat)
    requires Edges(g, succ, owners) && m > 0 && Iter(g.boss, o, m) == Some(o)
    ensures Iter(g.boss, o, n) == Iter(succ, o, n)
    decreases n
  {
    if n < m {
      IterPrefix(g.boss, o, n, m);
      RealPathAgrees(g, succ, owners, o, n);
    } else {
      RealPathAgrees(g, succ, owners, o, m);
      IterAdd(g.boss, o, m, n - m);
      IterAdd(succ, o, m, n - m);
      RealCycleAgrees(g, succ, owners, o, m, n - m);
    }
  }

  lemma {:induction false} RealPathAgrees(g: Graph, succ: seq<Option<nat>>, owners: set<nat>, x: nat, n: nat)
    requires Edges(g, succ, owners) && Iter(g.boss, x, n).Some?
    ensures Iter(g.boss, x, n) == Iter(succ, x, n)
    decreases n
  {
    if n != 0 {
      assert succ[x] == g.boss[x];
      RealPathAgrees(g, succ, owners, g.boss[x].value, n - 1);
    }
  }

  /** A waiter of o raised by o's own walk closes a real cycle. */
  lemma RaisedWaiterClosesCycle(g: Graph, before: seq<nat>, prio: seq<nat>, o: nat, c: nat)
    requires Shaped(g, before) && |prio| == |before| && o < |prio| && Stable(g, before) && before[o] > c
    requires prio[o] == c && RaisedTo(g, before, prio, o, c) && Tight(g, prio, o)
    ensures OnRealCycle(g, o)
  {
    var j :| 0 <= j < |prio| && g.boss[j] == Some(o) && prio[j] == c;
    assert before[o] <= before[j];
    LeadsStep(g, o, j);
  }

  lemma TightTail(g: Graph, succ: seq<Option<nat>>, owners: set<nat>, bound: nat, before: seq<nat>, prio: seq<nat>,
      o: nat, c: nat)
    requires Shaped(g, before) && Stable(g, before) && Edges(g, succ, owners) && |prio| == |before| && o < |prio|
    requires before[o] > c == prio[o] && Held(g, prio, o, c) && RaisedTo(g, before, prio, o, c) && Tight(g, prio, o)
    ensures Stable(g, prio) && !LosesClaim(g, succ, bound, before, o, c)
  {
    RaisedWaiterClosesCycle(g, before, prio, o, c);
    var m: nat :| m > 0 && Iter(g.boss, o, m) == Some(o);
    forall n: nat ensures Iter(g.boss, o, n) == Iter(succ, o, n) { RealCycleAgrees(g, succ, owners, o, m, n); }
  }

  /** ... among deadlocked processes, whatever became of the claim. */
  ghost predicate RaisedOnCycles(g: Graph, before: seq<nat>, after: seq<nat>, o: nat, c: nat) {
    && |after| == |before|
    && forall x :: 0 <= x < |before| && after[x] != before[x] && OnRealCycle(g, x) ==>
       after[x] == c < before[x] && Leads(g, o, x)
  }

  lemma CyclesRaised(g: Graph, succ: seq<Option<nat>>, before: seq<nat>, prio: seq<nat>, r: seq<nat>, o: nat, c: nat,
                     cur: Option<nat>, fuel: nat)
    requires Shaped(g, prio) && |succ| == |prio| && Over(g, prio) && Settled(g, prio, {o}) && InRange(g.boss)
    requires RaisedTo(g, before, prio, o, c) && r == Walk(g, succ, prio, cur, NO_CLAIM, fuel)
    ensures RaisedOnCycles(g, before, r, o, c)
  {
    hide Over, Settled, OnRealCycle;
    forall x | 0 <= x < |before| && OnRealCycle(g, x) ensures r[x] == prio[x] {
      WalkSpares(g, succ, prio, cur, fuel, {o}, x);
    }
  }

  /** What the tail of a raising walk does to a state that is already held. */
  lemma HeldTail(g: Graph, succ: seq<Option<nat>>, owners: set<nat>, bound: nat, before: seq<nat>, prio: seq<nat>,
      o: nat, c: nat, t: nat)
    requires Shaped(g, before) && Stable(g, before) && Edges(g, succ, owners) && |prio| == |before| && o < |prio|
    requires before[o] > c == prio[o] && Held(g, prio, o, c) && RaisedTo(g, before, prio, o, c)
    requires 1 <= t <= bound + 1 && forall m :: 1 <= m < t ==> Iter(succ, o, m) != Some(o)
    ensures var r := Walk(g, succ, prio, Iter(succ, o, t), NO_CLAIM, bound + 1 - t);
            if LosesClaim(g, succ, bound, before, o, c) then r[o] > c else r == prio
  {
    hide Walk, Held, Over, Stable, RaisedTo, Wanted, Tight, InRange;
    if Tight(g, prio, o) {
      TightTail(g, succ, owners, bound, before, prio, o, c);
      WalkIdles(g, succ, prio, Iter(succ, o, t), bound + 1 - t);
    } else if n: nat :| 1 <= n <= bound && Iter(succ, o, n) == Some(o) {
      LoseTail(g, succ, owners, bound, prio, o, c, t, n);
    } else {
      StillTail(g, succ, bound, prio, o, c, t);
    }
  }

  /** The tail meets o again, and nobody urgent waits for it. */
  lemma LoseTail(g: Graph, succ: seq<Option<nat>>, owners: set<nat>, bound: nat, prio: seq<nat>, o: nat, c: nat,
      t: nat, n: nat)
    requires Shaped(g, prio) && Edges(g, succ, owners) && o < |prio| && Held(g, prio, o, c) && !Tight(g, prio, o)
             && prio[o] == c
    requires 1 <= t <= bound + 1 && 1 <= n <= bound && Iter(succ, o, n) == Some(o)
             && forall m :: 1 <= m < t ==> Iter(succ, o, m) != Some(o)
    ensures Iter(g.boss, o, n) != Some(o)
    ensures Walk(g, succ, prio, Iter(succ, o, t), NO_CLAIM, bound + 1 - t)[o] > c
  {
    hide Walk, Iter;
    assert Over(g, prio) && InRange(succ) && InRange(g.boss);
    if Iter(g.boss, o, n) == Some(o) { CycleIsTight(g, prio, o, n); }
    LooseWants(g, prio, o, c);
    hide Held, Over, Wanted, Tight, Edges;
    IterPrefix(succ, o, t, n);
    IterInRange(succ, o, t);
    IterAdd(succ, o, t, n - t);
    WalkLoses(g, succ, prio, o, c, Iter(succ, o, t).value, bound + 1 - t, n - t);
  }

  lemma LooseWants(g: Graph, prio: seq<nat>, o: nat, c: nat)
    requires Shaped(g, prio) && Over(g, prio) && o < |prio| && prio[o] == c && !Tight(g, prio, o)
    ensures Wanted(g, prio, o, NO_CLAIM) > c
  {
  }

  lemma StillTail(g: Graph, succ: seq<Option<nat>>, bound: nat, prio: seq<nat>, o: nat, c: nat, t: nat)
    requires Shaped(g, prio) && |succ| == |prio| && o < |prio| && Held(g, prio, o, c) && 1 <= t <= bound + 1
    requires forall n: nat :: 1 <= n <= bound ==> Iter(succ, o, n) != Some(o)
    ensures Walk(g, succ, prio, Iter(succ, o, t), NO_CLAIM, bound + 1 - t) == prio
  {
    hide Walk, Held;
    var cur := Iter(succ, o, t);
    forall n: nat | cur.Some? && n < bound + 1 - t ensures Iter(succ, cur.value, n) != Some(o) {
      IterAdd(succ, o, t, n);
      assert Iter(succ, o, t + n) != Some(o);
    }
    WalkStill(g, succ, prio, o, c, cur, bound + 1 - t);
  }

  /** The walk made for a process of priority c about to wait for o. */
  lemma ClaimWalk(g: Graph, succ: seq<Option<nat>>, owners: set<nat>, bound: nat, prio: seq<nat>, o: nat, c: nat)
    returns (r: seq<nat>)
    requires Shaped(g, prio) && Edges(g, succ, owners) && |owners| <= bound && Stable(g, prio) && o < |prio|
    ensures r == Walk(g, succ, prio, Some(o), c, bound + 1) && Over(g, r) && Settled(g, r, {o})
    ensures if LosesClaim(g, succ, bound, prio, o, c) then r[o] > c else Held(g, r, o, c) && RaisedTo(g, prio, r, o, c)
    ensures RaisedOnCycles(g, prio, r, o, c) && (prio[o] <= c ==> r == prio)
  {
    r := Walk(g, succ, prio, Some(o), c, bound + 1);
    assert Iter(g.boss, o, 0) == Some(o);
    if prio[o] <= c {
      assert Tight(g, prio, o);
      assert prio[o := Wanted(g, prio, o, c)] == prio;
      assert r == Walk(g, succ, prio, succ[o], NO_CLAIM, bound);
      hide Walk;
      WalkIdles(g, succ, prio, succ[o], bound);
    } else {
      hide Walk, Stable, Over, Held, Settled, RaisedTo;
      var r' := ClaimRaise(g, succ, owners, bound, prio, o, c);
    }
  }

  lemma ClaimRaise(g: Graph, succ: seq<Option<nat>>, owners: set<nat>, bound: nat, prio: seq<nat>, o: nat, c: nat)
    returns (r: seq<nat>)
    requires Shaped(g, prio) && Edges(g, succ, owners) && |owners| <= bound && Stable(g, prio) && o < |prio|
             && prio[o] > c
    ensures r == Walk(g, succ, prio, Some(o), c, bound + 1) && Over(g, r) && Settled(g, r, {o})
    ensures if LosesClaim(g, succ, bound, prio, o, c) then r[o] > c else Held(g, r, o, c) && RaisedTo(g, prio, r, o, c)
    ensures RaisedOnCycles(g, prio, r, o, c)
  {
    var e := RaiseRun(g, succ, owners, bound, prio, o, c);
    hide *;
    r := ClaimEnd(g, succ, owners, bound, prio, o, c, e);
  }

  lemma RaiseRun(g: Graph, succ: seq<Option<nat>>, owners: set<nat>, bound: nat, prio: seq<nat>, o: nat, c: nat)
    returns (e: RaiseEnd)
    requires Shaped(g, prio) && Edges(g, succ, owners) && |owners| <= bound && Stable(g, prio) && o < |prio|
             && prio[o] > c
    ensures Raising(g, prio, e.prio, o, c, e.last, e.visited) && 1 <= e.t <= bound + 1
    ensures g.boss[e.last].Some? ==> e.prio[g.boss[e.last].value] <= c
    ensures Walk(g, succ, prio, Some(o), c, bound + 1) ==
            Walk(g, succ, e.prio, Iter(succ, o, e.t), NO_CLAIM, bound + 1 - e.t)
    ensures forall m :: 1 <= m < e.t ==> Iter(succ, o, m) != Some(o)
  {
    hide Walk, Raising, Stable, Edges, Iter;
    RaiseStart(g, succ, owners, prio, o, c, bound);
    e := RaisePhase(g, succ, owners, bound, prio, o, c, prio[o := c], o, {o}, 1);
  }

  lemma RaiseStart(g: Graph, succ: seq<Option<nat>>, owners: set<nat>, prio: seq<nat>, o: nat, c: nat, bound: nat)
    requires Shaped(g, prio) && Edges(g, succ, owners) && Stable(g, prio) && o < |prio| && prio[o] > c
    ensures Raising(g, prio, prio[o := c], o, c, o, {o}) && Iter(succ, o, 1) == succ[o]
    ensures Walk(g, succ, prio, Some(o), c, bound + 1) == Walk(g, succ, prio[o := c], succ[o], NO_CLAIM, bound)
  {
    assert Iter(g.boss, o, 0) == Some(o);
    assert Wanted(g, prio, o, c) == c by { assert Tight(g, prio, o); }
    IterNext(succ, o, 0, o);
  }

  lemma ClaimEnd(g: Graph, succ: seq<Option<nat>>, owners: set<nat>, bound: nat, before: seq<nat>, o: nat, c: nat,
      e: RaiseEnd)
    returns (r: seq<nat>)
    requires Raising(g, before, e.prio, o, c, e.last, e.visited) && Edges(g, succ, owners) && |owners| <= bound
    requires g.boss[e.last].Some? ==> e.prio[g.boss[e.last].value] <= c
    requires 1 <= e.t <= bound + 1 && forall m :: 1 <= m < e.t ==> Iter(succ, o, m) != Some(o)
    ensures r == Walk(g, succ, e.prio, Iter(succ, o, e.t), NO_CLAIM, bound + 1 - e.t) && Over(g, r)
            && Settled(g, r, {o})
    ensures if LosesClaim(g, succ, bound, before, o, c) then r[o] > c
            else Held(g, r, o, c) && RaisedTo(g, before, r, o, c)
    ensures RaisedOnCycles(g, before, r, o, c)
  {
    hide Walk, Over, Stable, RaisedTo, Held, Tight, Settled, Iter, RaisedOnCycles;
    RaisedIsHeld(g, before, e.prio, o, c, e.last, e.visited);
    HeldIsSettled(g, e.prio, o, c);
    r := Walk(g, succ, e.prio, Iter(succ, o, e.t), NO_CLAIM, bound + 1 - e.t);
    CyclesRaised(g, succ, before, e.prio, r, o, c, Iter(succ, o, e.t), bound + 1 - e.t);
    HeldTail(g, succ, owners, bound, before, e.prio, o, c, e.t);
    WalkKeepsSettled(g, succ, e.prio, Iter(succ, o, e.t), bound + 1 - e.t, {o});
  }

  lemma HeldIsSettled(g: Graph, prio: seq<nat>, o: nat, c: nat)
    requires Shaped(g, prio) && o < |prio| && Held(g, prio, o, c)
    ensures Over(g, prio) && Settled(g, prio, {o})
  {
    assert Iter(g.boss, o, 0) == Some(o);
  }

  lemma {:induction false} WalkOnly(g: Graph, succ: seq<Option<nat>>, prio: seq<nat>, cur: Option<nat>, claim: nat,
      fuel: nat, x: nat)
    requires Shaped(g, prio) && |succ| == |prio| && x < |prio|
    requires cur.Some? ==> forall n: nat :: Iter(succ, cur.value, n) != Some(x)
    ensures Walk(g, succ, prio, cur, claim, fuel)[x] == prio[x]
    decreases fuel
  {
    if fuel != 0 && cur.Some? && cur.value < |prio| {
      var y := cur.value;
      assert Iter(succ, y, 0) != Some(x);
      if succ[y].Some? {
        forall n: nat ensures Iter(succ, succ[y].value, n) != Some(x) { assert Iter(succ, y, n + 1) != Some(x); }
      }
      WalkOnly(g, succ, prio[y := Wanted(g, prio, y, claim)], succ[y], NO_CLAIM, fuel - 1, x);
    }
  }

  lemma {:induction false} LoopIsEndless(succ: seq<Option<nat>>, o: nat, n: nat, m: nat)
    requires n >= 1 && Iter(succ, o, n) == Some(o)
    ensures Iter(succ, o, m).Some?
    decreases m
  {
    if m < n {
      IterPrefix(succ, o, m, n);
    } else {
      LoopIsEndless(succ, o, n, m - n);
      IterAdd(succ, o, n, m - n);
    }
  }

  /** A walk that loses the claim goes round a loop, so it never touches a process whose
      record names nobody: the claimant keeps its priority. */
  lemma ClaimantUntouched(g: Graph, succ: seq<Option<nat>>, bound: nat, prio: seq<nat>, o: nat, c: nat, x: nat)
    requires Shaped(g, prio) && |succ| == |prio| && o < |prio| && x < |prio| && succ[x].None?
    requires LosesClaim(g, succ, bound, prio, o, c)
    ensures Walk(g, succ, prio, Some(o), c, bound + 1)[x] == prio[x]
  {
    var n: nat :| 1 <= n <= bound && Iter(succ, o, n) == Some(o);
    forall m: nat ensures Iter(succ, o, m) != Some(x) {
      LoopIsEndless(succ, o, n, m + 1);
      if Iter(succ, o, m) == Some(x) { IterNext(succ, o, m, x); }
    }
    WalkOnly(g, succ, prio, Some(o), c, bound + 1, x);
  }

  // ---------------------------------------------------------------- taking a claim back

  /** A deadlock ahead of o, with a process less urgent than c in it. */
  ghost predicate DeadlockAhead(g: Graph, prio: seq<nat>, o: nat, c: nat) {
    exists x: nat :: x < |prio| && Leads(g, o, x) && OnRealCycle(g, x) && prio[x] > c
  }

  /** A claim is only lost where the waits of its owner end. */
  lemma LostMeetsNoCycle(g: Graph, succ: seq<Option<nat>>, owners: set<nat>, bound: nat, prio: seq<nat>, o: nat,
      c: nat, x: nat)
    requires Edges(g, succ, owners) && o < |prio| && LosesClaim(g, succ, bound, prio, o, c)
    ensures !(Leads(g, o, x) && OnRealCycle(g, x))
  {
    var n: nat :| 1 <= n <= bound && Iter(succ, o, n) == Some(o) && Iter(g.boss, o, n) != Some(o);
    if Leads(g, o, x) && OnRealCycle(g, x) {
      var a: nat :| Iter(g.boss, o, a) == Some(x);
      var m: nat :| m > 0 && Iter(g.boss, x, m) == Some(x);
      LoopIsEndless(g.boss, x, m, n);
      IterAdd(g.boss, o, a, n);
      IterPrefix(g.boss, o, n, a + n);
      RealPathAgrees(g, succ, owners, o, n);
    }
  }

  /** Where a deadlocked process leads is deadlocked too. */
  lemma CycleGoesOn(g: Graph, x: nat, y: nat)
    requires OnRealCycle(g, x) && Leads(g, x, y)
    ensures OnRealCycle(g, y)
  {
    var m: nat :| m > 0 && Iter(g.boss, x, m) == Some(x);
    var a: nat :| Iter(g.boss, x, a) == Some(y);
    IterAdd(g.boss, x, m, a);
    IterAdd(g.boss, x, a, m);
  }

  /** The equation leaves a choice only to deadlocked processes. */
  lemma {:induction false} SolutionsDiffer(g: Graph, p: seq<nat>, q: seq<nat>, i: nat, seen: set<nat>)
    requires Shaped(g, p) && Shaped(g, q) && Stable(g, p) && Stable(g, q) && InRange(g.boss) && i < |p| && p[i] < q[i]
    requires Beyond(g, i, seen)
    ensures OnRealCycle(g, i)
    decreases |p| - |seen|
  {
    SeenBelow(seen, |p|);
    if i !in seen {
      assert Tight(g, p, i);
      var j :| 0 <= j < |p| && g.boss[j] == Some(i) && p[j] == p[i];
      BeyondStep(g, j, i, seen);
      SeenBelow(seen + {i}, |p|);
      SolutionsDiffer(g, p, q, j, seen + {i});
      assert Iter(g.boss, j, 1) == Some(i) by { assert Iter(g.boss, i, 0) == Some(i); }
      CycleGoesOn(g, j, i);
    }
  }

  /** Raising for a claim and taking it back restores every priority if and only if no less
      urgent process is deadlocked ahead. */
  lemma TakenBackExactly(g: Graph, succ: seq<Option<nat>>, owners: set<nat>, bound: nat, prio: seq<nat>, o: nat, c: nat,
                         succ': seq<Option<nat>>, q: seq<nat>)
    requires Shaped(g, prio) && Edges(g, succ, owners) && |owners| <= bound && Stable(g, prio) && o < |prio|
             && |succ'| == |prio|
    requires InRange(g.boss) && Shaped(g, q) && Stable(g, q)
    requires q == Walk(g, succ', Walk(g, succ, prio, Some(o), c, bound + 1), Some(o), NO_CLAIM, bound + 1)
    ensures q == prio <==> !DeadlockAhead(g, prio, o, c)
  {
    hide Walk, Stable, Over, Settled, Held, Tight, Iter, Leads, OnRealCycle, LosesClaim, Edges;
    var r := ClaimWalk(g, succ, owners, bound, prio, o, c);
    forall x | 0 <= x < |prio| && OnRealCycle(g, x) ensures q[x] == r[x] {
      WalkSpares(g, succ', r, Some(o), bound + 1, {o}, x);
    }
    if x: nat :| x < |prio| && Leads(g, o, x) && OnRealCycle(g, x) && prio[x] > c {
      if LosesClaim(g, succ, bound, prio, o, c) {
        LostMeetsNoCycle(g, succ, owners, bound, prio, o, c, x);
      } else {
        HeldReaches(g, r, o, c, x);
      }
    } else {
      forall i | 0 <= i < |prio| ensures q[i] == prio[i] {
        if q[i] != prio[i] { DifferenceIsDeadlock(g, prio, q, i); }
      }
    }
  }

  lemma HeldReaches(g: Graph, r: seq<nat>, o: nat, c: nat, x: nat)
    requires Shaped(g, r) && InRange(g.boss) && o < |r| && x < |r| && Held(g, r, o, c) && Leads(g, o, x)
    ensures r[x] <= c
  {
    var n: nat :| Iter(g.boss, o, n) == Some(x);
    ChainIsMonotone(g, r, o, n, x);
  }

  lemma DifferenceIsDeadlock(g: Graph, p: seq<nat>, q: seq<nat>, i: nat)
    requires Shaped(g, p) && Shaped(g, q) && Stable(g, p) && Stable(g, q) && InRange(g.boss) && i < |p| && p[i] != q[i]
    ensures OnRealCycle(g, i)
  {
    hide Stable;
    if p[i] < q[i] { SolutionsDiffer(g, p, q, i, {}); } else { SolutionsDiffer(g, q, p, i, {}); }
  }

  // ---------------------------------------------------------------- after a lost claim

  /** Nobody is less urgent than a process it holds up, except that `last` may wait in vain. */
  ghost predicate OverBut(g: Graph, prio: seq<nat>, last: nat)
    requires Shaped(g, prio)
  {
    && (forall i :: 0 <= i < |prio| ==> prio[i] <= g.base[i])
    && (forall j :: 0 <= j < |prio| && j != last && g.boss[j].Some? && g.boss[j].value < |prio|
          ==> prio[g.boss[j].value] <= prio[j])
  }

  /** Along the walk urgency never drops, unless `last` has become less urgent than it was. */
  ghost predicate Descends(before: seq<nat>, prio: seq<nat>, last: nat, visited: set<nat>)
    requires last < |prio| == |before|
  {
    forall v :: v in visited ==> v < |prio| && (prio[v] <= prio[last] || before[last] < prio[v])
  }

  /** No visited process is less urgent than its waiters are, or were before the walk. */
  ghost predicate Heeds(g: Graph, before: seq<nat>, prio: seq<nat>, visited: set<nat>)
    requires |prio| == |before| == |g.boss|
  {
    forall j :: 0 <= j < |prio| && g.boss[j].Some? && g.boss[j].value in visited && g.boss[j].value < |prio| ==>
      prio[g.boss[j].value] <= before[j] || prio[g.boss[j].value] <= prio[j]
  }

  /** The walk under way: `visited` is a real chain whose end is `last`. */
  ghost predicate Mending(g: Graph, before: seq<nat>, prio: seq<nat>, last: nat, visited: set<nat>) {
    && Shaped(g, before) && |prio| == |before| && InRange(g.boss) && last < |prio| && OverBut(g, prio, last)
    && (forall x :: 0 <= x < |prio| && x !in visited ==> prio[x] == before[x])
    && (forall v {:trigger Followed(g, visited, v)} :: v in visited && v != last ==> Followed(g, visited, v))
    && Descends(before, prio, last, visited) && Heeds(g, before, prio, visited)
  }

  /** One visit: the process becomes exact, and only the one it waits for may be left too
      unimportant. */
  lemma MendVisit(g: Graph, prio: seq<nat>, last: nat, cur: nat)
    requires Shaped(g, prio) && OverBut(g, prio, last) && cur < |prio| && last < |prio| && g.boss[last] == Some(cur)
    ensures var w := Wanted(g, prio, cur, NO_CLAIM); var q := prio[cur := w];
            && OverBut(g, q, cur) && Tight(g, q, cur)
            && forall y :: 0 <= y < |prio| && y != cur && g.boss[cur] != Some(y) && Tight(g, prio, y) ==> Tight(g, q, y)
  {
    var w := Wanted(g, prio, cur, NO_CLAIM);
    var q := prio[cur := w];
    assert Tight(g, q, cur) by {
      if w != g.base[cur] {
        var j :| 0 <= j < |prio| && g.boss[j] == Some(cur) && prio[j] == w;
        assert j == cur || q[j] == w;
      }
    }
    forall y | 0 <= y < |prio| && y != cur && g.boss[cur] != Some(y) && Tight(g, prio, y) ensures Tight(g, q, y) {
      if prio[y] != g.base[y] {
        var j :| 0 <= j < |prio| && g.boss[j] == Some(y) && prio[j] == prio[y];
        assert j != cur && q[j] == q[y];
      }
    }
  }

  /** The walk goes on along a real wait to a process it has not met. `first` is the waiter
      whose claim was lost. */
  ghost predicate GoesOn(g: Graph, before: seq<nat>, prio: seq<nat>, first: nat, last: nat, cur: nat,
      visited: set<nat>) {
    && Mending(g, before, prio, last, visited) && g.boss[last] == Some(cur) && cur < |prio| && cur !in visited
    && first < |prio| && OverBut(g, before, first)
    && (visited != {} ==> last in visited && g.boss[first].Some? && g.boss[first].value in visited)
  }

  lemma DescendsStep(g: Graph, before: seq<nat>, prio: seq<nat>, first: nat, last: nat, cur: nat, visited: set<nat>)
    requires GoesOn(g, before, prio, first, last, cur, visited)
    ensures Descends(before, prio[cur := Wanted(g, prio, cur, NO_CLAIM)], cur, visited + {cur})
  {
    var w := Wanted(g, prio, cur, NO_CLAIM);
    forall v | v in visited ensures prio[v] <= w || before[cur] < prio[v] {
      if w < prio[v] && w != g.base[cur] {
        var j :| 0 <= j < |prio| && g.boss[j] == Some(cur) && prio[j] == w;
        assert j in visited ==> j == last || Followed(g, visited, j);
        assert before[cur] <= before[j];
      }
    }
  }

  lemma HeedsStep(g: Graph, before: seq<nat>, prio: seq<nat>, first: nat, last: nat, cur: nat, visited: set<nat>)
    requires GoesOn(g, before, prio, first, last, cur, visited)
    ensures Heeds(g, before, prio[cur := Wanted(g, prio, cur, NO_CLAIM)], visited + {cur})
  {
    hide Descends, OverBut;
    var w := Wanted(g, prio, cur, NO_CLAIM);
    var q := prio[cur := w];
    forall j | 0 <= j < |prio| && g.boss[j].Some? && g.boss[j].value in visited + {cur}
      ensures q[g.boss[j].value] <= before[j] || q[g.boss[j].value] <= q[j]
    {
      if g.boss[j].value == cur {
        assert w <= prio[j];
      } else {
        assert prio[g.boss[j].value] <= before[j] || prio[g.boss[j].value] <= prio[j];
      }
    }
  }

  lemma MendingStep(g: Graph, before: seq<nat>, prio: seq<nat>, first: nat, last: nat, cur: nat, visited: set<nat>)
    requires GoesOn(g, before, prio, first, last, cur, visited)
    ensures Mending(g, before, prio[cur := Wanted(g, prio, cur, NO_CLAIM)], cur, visited + {cur})
  {
    hide Descends, Heeds, OverBut, Followed, Tight, Wanted;
    var all := visited + {cur};
    MendVisit(g, prio, last, cur);
    DescendsStep(g, before, prio, first, last, cur, visited);
    HeedsStep(g, before, prio, first, last, cur, visited);
    forall v | v in all && v != cur ensures Followed(g, all, v) {
      if v == last { IsFollowed(g, all, last, cur); } else { FollowedStill(g, visited, all, v); }
    }
  }

  lemma MendAhead(g: Graph, prio: seq<nat>, last: nat, cur: nat)
    requires Shaped(g, prio) && OverBut(g, prio, last) && cur < |prio| && last < |prio| && g.boss[last] == Some(cur)
    requires InRange(g.boss) && Ahead(g, prio, {}, cur)
    ensures var q := prio[cur := Wanted(g, prio, cur, NO_CLAIM)];
            if g.boss[cur].Some? then Ahead(g, q, {}, g.boss[cur].value) else Stable(g, q)
  {
    var q := prio[cur := Wanted(g, prio, cur, NO_CLAIM)];
    MendVisit(g, prio, last, cur);
    hide Wanted, Tight;
    forall y | 0 <= y < |prio| && !Tight(g, q, y)
      ensures g.boss[cur].Some? && exists n: nat :: Iter(g.boss, g.boss[cur].value, n) == Some(y)
    {
      if g.boss[cur] == Some(y) {
        assert Iter(g.boss, y, 0) == Some(y);
      } else {
        assert Outside(g, {}, y);
        var n: nat :| Iter(g.boss, cur, n) == Some(y);
        assert n != 0;
        assert Iter(g.boss, g.boss[cur].value, n - 1) == Some(y);
      }
    }
  }

  /** Back at a process it has met, the walk has mended everything. */
  lemma MendedRound(g: Graph, before: seq<nat>, prio: seq<nat>, last: nat, cur: nat, visited: set<nat>)
    requires Mending(g, before, prio, last, visited) && g.boss[last] == Some(cur) && cur in visited
    requires Ahead(g, prio, {}, cur) && Reach(g, visited, cur)
    ensures Stable(g, prio)
  {
    assert Over(g, prio);
    var n := MetAgain(g, visited, cur);
    CycleIsClean(g, prio, {}, cur, n);
    forall y | 0 <= y < |prio| ensures Tight(g, prio, y) { assert Outside(g, {}, y); }
  }

  lemma {:induction false} WalkMends(g: Graph, succ: seq<Option<nat>>, owners: set<nat>, bound: nat, before: seq<nat>,
      prio: seq<nat>,
                                     first: nat, start: nat, last: nat, cur: nat, fuel: nat, visited: set<nat>)
    requires Mending(g, before, prio, last, visited) && Edges(g, succ, owners) && |owners| <= bound
    requires g.boss[last] == Some(cur) && cur < |prio| && first < |prio| && OverBut(g, before, first)
             && g.boss[first] == Some(start)
    requires if visited == {} then last == first && cur == start else last in visited && start in visited
    requires Ahead(g, prio, {}, cur) && Reach(g, visited, cur)
    requires |visited| + fuel == bound + 1 && visited <= owners + {start} && cur in owners + {start}
    ensures Stable(g, Walk(g, succ, prio, Some(cur), NO_CLAIM, fuel))
    decreases fuel
  {
    hide Walk, Descends, Heeds, Ahead, Reach, Iter, Tight, Wanted, Stable, OverBut;
    if cur in visited {
      MendedRound(g, before, prio, last, cur, visited);
      WalkIdles(g, succ, prio, Some(cur), fuel);
    } else {
      Pigeonhole(owners, bound, start, cur, visited);
      var q := prio[cur := Wanted(g, prio, cur, NO_CLAIM)];
      MendingStep(g, before, prio, first, last, cur, visited);
      MendAhead(g, prio, last, cur);
      WalkStep(g, succ, prio, cur, NO_CLAIM, fuel);
      if g.boss[cur].Some? {
        ReachStep(g, visited, cur);
        WalkMends(g, succ, owners, bound, before, q, first, start, cur, g.boss[cur].value, fuel - 1, visited + {cur});
      } else {
        WalkIdles(g, succ, q, succ[cur], fuel - 1);
      }
    }
  }

  /** A walk from the owner that a waiter waits for in vain makes every process exact again. */
  lemma WalkRepairs(g: Graph, succ: seq<Option<nat>>, owners: set<nat>, bound: nat, prio: seq<nat>, h: nat, o: nat)
    requires Shaped(g, prio) && Edges(g, succ, owners) && |owners| <= bound && InRange(g.boss)
    requires h < |prio| && o < |prio| && g.boss[h] == Some(o) && OverBut(g, prio, h) && Settled(g, prio, {o})
    ensures Stable(g, Walk(g, succ, prio, Some(o), NO_CLAIM, bound + 1))
  {
    assert Mending(g, prio, prio, h, {});
    assert Ahead(g, prio, {}, o) by {
      hide Tight;
      forall y | 0 <= y < |prio| && !Tight(g, prio, y) ensures exists n: nat :: Iter(g.boss, o, n) == Some(y) {
        assert !Outside(g, {o}, y);
      }
    }
    NobodyMet(g, o);
    hide Walk, Mending, OverBut, Ahead, Settled;
    WalkMends(g, succ, owners, bound, prio, prio, h, o, h, o, bound + 1, {});
  }

  lemma {:induction false} PathsGrow(f: seq<Option<nat>>, h: nat, v: Option<nat>, x: nat, n: nat, y: nat)
    requires h < |f| && f[h].None? && Iter(f, x, n) == Some(y)
    ensures Iter(f[h := v], x, n) == Some(y)
    decreases n
  {
    if n != 0 { PathsGrow(f, h, v, f[x].value, n - 1, y); }
  }

  /** A process of priority c starts waiting in vain: only it is held up by a less urgent one. */
  lemma JoinsInVain(g: Graph, after: Graph, prio: seq<nat>, h: nat, o: nat)
    requires Shaped(g, prio) && Shaped(after, prio) && after.base == g.base && Over(g, prio) && Settled(g, prio, {o})
    requires h < |prio| && o < |prio| && g.boss[h].None? && after.boss == g.boss[h := Some(o)]
    ensures OverBut(after, prio, h) && Settled(after, prio, {o})
  {
    forall y | 0 <= y < |prio| && Outside(after, {o}, y) ensures Tight(after, prio, y) {
      assert Outside(g, {o}, y) by {
        forall n: nat ensures Iter(g.boss, o, n) != Some(y) {
          if Iter(g.boss, o, n) == Some(y) { PathsGrow(g.boss, h, Some(o), o, n, y); }
        }
      }
      assert Tight(g, prio, y);
      if prio[y] != g.base[y] {
        var j :| 0 <= j < |prio| && g.boss[j] == Some(y) && prio[j] == prio[y];
        assert after.boss[j] == Some(y);
      }
    }
  }

  // ---------------------------------------------------------------- one sweep over all mutexes

  /** Walk from the owner of each mutex, in index order, with so many hops each. */
  ghost function Sweep(g: Graph, succ: seq<Option<nat>>, prio: seq<nat>, holders: seq<Option<nat>>, hops: nat,
      i: nat): (r: seq<nat>)
    requires Shaped(g, prio) && |succ| == |prio| && i <= |holders|
    ensures |r| == |prio|
    decreases |holders| - i
  {
    if i == |holders| then prio
    else Sweep(g, succ, Walk(g, succ, prio, holders[i], NO_CLAIM, hops), holders, hops, i + 1)
  }

  ghost function HoldersFrom(holders: seq<Option<nat>>, i: nat): set<nat> {
    set k | i <= k < |holders| && holders[k].Some? :: holders[k].value
  }

  /** One index-order pass repairs any number of departures: whatever is not yet exact lies
      ahead, on real waits, of an owner whose mutex is still to be visited. */
  lemma {:induction false} SweepSettles(g: Graph, succ: seq<Option<nat>>, owners: set<nat>, prio: seq<nat>,
      holders: seq<Option<nat>>, hops: nat, i: nat)
    requires Shaped(g, prio) && Edges(g, succ, owners) && |owners| < hops && i <= |holders|
    requires Over(g, prio) && Settled(g, prio, HoldersFrom(holders, i))
    requires forall k :: 0 <= k < |holders| && holders[k].Some? ==> holders[k].value < |prio|
    ensures Stable(g, Sweep(g, succ, prio, holders, hops, i))
    decreases |holders| - i
  {
    if i == |holders| {
      forall y | 0 <= y < |prio| ensures Tight(g, prio, y) { assert Outside(g, HoldersFrom(holders, i), y); }
    } else {
      var q := Walk(g, succ, prio, holders[i], NO_CLAIM, hops);
      assert Over(g, q) && Settled(g, q, HoldersFrom(holders, i + 1)) by {
        if holders[i].Some? {
          SweepStep(g, succ, owners, prio, holders, hops, i);
        } else {
          assert HoldersFrom(holders, i) == HoldersFrom(holders, i + 1);
        }
      }
      hide Walk, Settled, Over;
      SweepSettles(g, succ, owners, q, holders, hops, i + 1);
    }
  }

  lemma SweepStep(g: Graph, succ: seq<Option<nat>>, owners: set<nat>, prio: seq<nat>, holders: seq<Option<nat>>,
      hops: nat, i: nat)
    requires Shaped(g, prio) && Edges(g, succ, owners) && |owners| < hops && i < |holders|
    requires Over(g, prio) && Settled(g, prio, HoldersFrom(holders, i)) && holders[i].Some? && holders[i].value < |prio|
    ensures var q := Walk(g, succ, prio, holders[i], NO_CLAIM, hops);
            Over(g, q) && Settled(g, q, HoldersFrom(holders, i + 1))
  {
    hide Walk, Over, Settled, Outside, Ahead, HoldersFrom, Reach;
    var s := holders[i].value;
    AheadOfHolder(g, prio, holders, i);
    NobodyMet(g, s);
    WalkLowers(g, succ, owners, hops - 1, prio, s, s, hops, {}, HoldersFrom(holders, i + 1));
  }

  lemma NobodyMet(g: Graph, s: nat)
    ensures Reach(g, {}, s)
  {
  }

  /** What only the i-th owner can answer for lies ahead of it. */
  lemma AheadOfHolder(g: Graph, prio: seq<nat>, holders: seq<Option<nat>>, i: nat)
    requires Shaped(g, prio) && i < |holders| && Settled(g, prio, HoldersFrom(holders, i)) && holders[i].Some?
    ensures Ahead(g, prio, HoldersFrom(holders, i + 1), holders[i].value)
  {
    var s := holders[i].value;
    var u := HoldersFrom(holders, i + 1);
    assert HoldersFrom(holders, i) == u + {s};
    hide HoldersFrom, Tight;
    forall y | 0 <= y < |prio| && Outside(g, u, y) && !Tight(g, prio, y)
      ensures exists n: nat :: Iter(g.boss, s, n) == Some(y)
    {
      assert !Outside(g, u + {s}, y);
      var z, n: nat :| z in u + {s} && Iter(g.boss, z, n) == Some(y);
    }
  }

  // ---------------------------------------------------------------- how the graph changes

  /** A mutex of o is handed to its best waiter n; `moved` are the waiters left behind. Only
      the old owner can stop being exact: the new one was the most urgent waiter. */
  lemma HandOver(g: Graph, after: Graph, prio: seq<nat>, o: nat, n: nat, moved: set<nat>)
    requires Shaped(g, prio) && Shaped(after, prio) && Stable(g, prio) && after.base == g.base
    requires o < |prio| && n < |prio| && n != o && g.boss[n] == Some(o) && n !in moved
    requires forall w :: w in moved ==> w < |prio| && g.boss[w] == Some(o) && prio[n] <= prio[w]
    requires forall w :: 0 <= w < |prio| ==>
               after.boss[w] == if w == n then None else if w in moved then Some(n) else g.boss[w]
    ensures Over(after, prio) && Settled(after, prio, {o})
  {
    forall y | 0 <= y < |prio| && y != o ensures Tight(after, prio, y) {
      assert Tight(g, prio, y);
      if prio[y] != g.base[y] {
        var j :| 0 <= j < |prio| && g.boss[j] == Some(y) && prio[j] == prio[y];
        assert after.boss[j] == Some(y);
      }
    }
    assert Iter(after.boss, o, 0) == Some(o);
  }

  /** Waiters that leave can only make the processes they waited for too urgent. */
  lemma Departures(g: Graph, after: Graph, prio: seq<nat>, u: set<nat>)
    requires Shaped(g, prio) && Shaped(after, prio) && after.base == g.base && Over(g, prio)
    requires forall w :: 0 <= w < |prio| && after.boss[w] != g.boss[w] ==>
               after.boss[w].None? && g.boss[w].Some? && g.boss[w].value in u
    ensures Over(after, prio) && forall y :: 0 <= y < |prio| && y !in u && Tight(g, prio, y) ==> Tight(after, prio, y)
  {
    forall y | 0 <= y < |prio| && y !in u && Tight(g, prio, y) ensures Tight(after, prio, y) {
      if prio[y] != g.base[y] {
        var j :| 0 <= j < |prio| && g.boss[j] == Some(y) && prio[j] == prio[y];
        assert after.boss[j] == Some(y);
      }
    }
  }

  /** A process of priority c starts waiting for an owner held at c. */
  lemma Joins(g: Graph, after: Graph, prio: seq<nat>, h: nat, o: nat)
    requires Shaped(g, prio) && Shaped(after, prio) && after.base == g.base
    requires h < |prio| && o < |prio| && g.boss[h].None? && after.boss == g.boss[h := Some(o)]
    ensures Held(g, prio, o, prio[h]) ==> Stable(after, prio)
    ensures prio[o] > prio[h] ==> !Over(after, prio)
  {
    if Held(g, prio, o, prio[h]) {
      forall y | 0 <= y < |prio| ensures Tight(after, prio, y) {
        if y == o && prio[o] == prio[h] {
          assert after.boss[h] == Some(o);
        } else if prio[y] != g.base[y] {
          assert Tight(g, prio, y);
          var j :| 0 <= j < |prio| && g.boss[j] == Some(y) && prio[j] == prio[y];
          assert after.boss[j] == Some(y);
        }
      }
    }
    assert after.boss[h] == Some(o);
  }

  // ---------------------------------------------------------------- the closed form

  /** i waits, directly or through a chain, for every process of `seen`. */
  ghost predicate Beyond(g: Graph, i: nat, seen: set<nat>) {
    forall v :: v in seen ==> v < |g.base| && exists m: nat :: m > 0 && Iter(g.boss, i, m) == Some(v)
  }

  lemma BeyondStep(g: Graph, j: nat, i: nat, seen: set<nat>)
    requires Beyond(g, i, seen) && j < |g.boss| && g.boss[j] == Some(i) && i < |g.base|
    ensures Beyond(g, j, seen + {i})
  {
    assert Iter(g.boss, j, 1) == Some(i) by { assert Iter(g.boss, i, 0) == Some(i); }
    forall v | v in seen ensures exists m: nat :: m > 0 && Iter(g.boss, j, m) == Some(v) {
      var m: nat :| m > 0 && Iter(g.boss, i, m) == Some(v);
      IterAdd(g.boss, j, 1, m);
      assert Iter(g.boss, j, 1 + m) == Some(v);
    }
  }

  /** Somebody who waits for i, directly or through a chain, brings exactly i's priority. */
  lemma {:induction false} Witness(g: Graph, prio: seq<nat>, i: nat, seen: set<nat>) returns (w: nat, n: nat)
    requires Shaped(g, prio) && Stable(g, prio) && !OnRealCycle(g, i) && i < |prio|
    requires Beyond(g, i, seen)
    ensures w < |prio| && Iter(g.boss, w, n) == Some(i) && g.base[w] == prio[i]
    decreases |prio| - |seen|
  {
    assert Tight(g, prio, i);
    if prio[i] == g.base[i] {
      w, n := i, 0;
    } else {
      var j :| 0 <= j < |prio| && g.boss[j] == Some(i) && prio[j] == prio[i];
      var more := seen + {i};
      assert i !in seen;
      BeyondStep(g, j, i, seen);
      assert Iter(g.boss, j, 1) == Some(i) by { assert Iter(g.boss, i, 0) == Some(i); }
      if OnRealCycle(g, j) { CycleGoesOn(g, j, i); }
      SeenBelow(seen, |prio|);
      SeenBelow(more, |prio|);
      w, n := Witness(g, prio, j, more);
      IterNext(g.boss, w, n, j);
      n := n + 1;
    }
  }

  lemma {:induction false} SeenBelow(s: set<nat>, n: nat)
    requires forall v :: v in s ==> v < n
    ensures |s| <= n
  {
    if n == 0 {
      assert s == {};
    } else {
      SeenBelow(s - {n - 1}, n - 1);
      SumSize(s - {n - 1}, n - 1);
      SubsetSize(s, s - {n - 1} + {n - 1});
    }
  }

  /** The effective priority of a process that is not deadlocked is the least base priority of
      the process and of all processes that wait for it directly or through a chain. */
  lemma ClosedForm(g: Graph, prio: seq<nat>, i: nat)
    requires Shaped(g, prio) && Stable(g, prio) && InRange(g.boss) && !OnRealCycle(g, i) && i < |prio|
    ensures forall w: nat, n: nat :: w < |prio| && Iter(g.boss, w, n) == Some(i) ==> prio[i] <= g.base[w]
    ensures exists w: nat, n: nat :: w < |prio| && Iter(g.boss, w, n) == Some(i) && prio[i] == g.base[w]
  {
    forall w: nat, n: nat | w < |prio| && Iter(g.boss, w, n) == Some(i) ensures prio[i] <= g.base[w] {
      ChainIsMonotone(g, prio, w, n, i);
    }
    var w, n := Witness(g, prio, i, {});
  }

  /** All solutions of the equation give the same priority to a process that is not deadlocked. */
  lemma StableIsUnique(g: Graph, p: seq<nat>, q: seq<nat>)
    requires Shaped(g, p) && Shaped(g, q) && Stable(g, p) && Stable(g, q) && InRange(g.boss)
    ensures forall i :: 0 <= i < |p| && !OnRealCycle(g, i) ==> p[i] == q[i]
  {
    hide Stable, OnRealCycle;
    forall i | 0 <= i < |p| && !OnRealCycle(g, i) ensures p[i] == q[i] {
      if p[i] != q[i] { DifferenceIsDeadlock(g, p, q, i); }
    }
  }

  // ---------------------------------------------------------------- set sizes

  lemma {:induction false} SubsetSize<T>(a: set<T>, b: set<T>)
    requires a <= b
    ensures |a| <= |b|
  {
    if a != {} {
      var x :| x in a;
      SubsetSize(a - {x}, b - {x});
    }
  }

  lemma SumSize<T>(a: set<T>, x: T)
    ensures |a + {x}| <= |a| + 1
  {
    if x in a { assert a + {x} == a; }
  }
}
