/** How the code generator packs the stacks of a partition into one protected domain, and
    domains one after the other. */
module Packing {
  import opened Arithmetic

  // A stack, or a whole domain.
  datatype Block = Block(size: nat, alignment: nat)

  // The smallest region the memory protection unit can describe.
  const MPU_MIN_REGION_SIZE: nat := 32

  predicate IsPow2(n: nat) { n == 1 || (n > 1 && n % 2 == 0 && IsPow2(n / 2)) }

  function RoundUp(cursor: nat, alignment: nat): nat
    requires alignment > 0
  {
    (cursor + alignment - 1) / alignment * alignment
  }

  // ---------------------------------------------------------------- arithmetic

  lemma RoundUpIs(cursor: nat, alignment: nat)
    requires alignment > 0
    ensures var r := RoundUp(cursor, alignment); r % alignment == 0 && cursor <= r < cursor + alignment
  {
    var x := cursor + alignment - 1;
    assert x == alignment * (x / alignment) + x % alignment;
    MultipleIs(x / alignment, alignment);
  }

  /** No padding where the cursor is already aligned. */
  lemma AlreadyAligned(cursor: nat, alignment: nat)
    requires alignment > 0 && cursor % alignment == 0
    ensures RoundUp(cursor, alignment) == cursor
  {
    RoundUpIs(cursor, alignment);
    var r := RoundUp(cursor, alignment);
    assert r == alignment * (r / alignment) && cursor == alignment * (cursor / alignment);
    assert alignment * (r / alignment - cursor / alignment) == r - cursor;
    Multiples(alignment, r / alignment - cursor / alignment);
  }

  lemma SumOfMultiples(x: nat, y: nat, a: nat)
    requires a > 0 && x % a == 0 && y % a == 0
    ensures (x + y) % a == 0
  {
    assert x == a * (x / a) && y == a * (y / a);
    assert x + y == (x / a + y / a) * a;
    MultipleIs(x / a + y / a, a);
  }

  lemma DividesThrough(x: nat, b: nat, a: nat)
    requires a > 0 && b > 0 && b % a == 0 && x % b == 0
    ensures x % a == 0
  {
    assert x == b * (x / b) && b == a * (b / a);
    assert x == (b / a * (x / b)) * a;
    MultipleIs(b / a * (x / b), a);
  }

  /** A smaller power of two divides a larger one. */
  lemma {:induction false} SmallerDivides(a: nat, b: nat)
    requires IsPow2(a) && IsPow2(b) && a <= b
    ensures b % a == 0
  {
    if a > 1 {
      SmallerDivides(a / 2, b / 2);
      assert b / 2 == a / 2 * (b / 2 / (a / 2));
      assert b == (b / 2 / (a / 2)) * a by { assert b == 2 * (b / 2) && a == 2 * (a / 2); }
      MultipleIs(b / 2 / (a / 2), a);
    }
  }

  /** The least power of two that is at least n. */
  method NextPow2(n: nat) returns (p: nat)
    ensures IsPow2(p) && p >= n && forall q: nat :: IsPow2(q) && q >= n ==> p <= q
  {
    p := 1;
    while p < n
      invariant IsPow2(p) && p > 0 && (p == 1 || p < 2 * n)
      invariant p > 1 ==> p / 2 < n
      decreases n - p
    {
      p := p * 2;
    }
    forall q: nat | IsPow2(q) && q >= n ensures p <= q {
      if p > q { HalfFits(p, q); }
    }
  }

  lemma {:induction false} HalfFits(p: nat, q: nat)
    requires IsPow2(p) && IsPow2(q) && q < p
    ensures q <= p / 2
  {
    if q > 1 { HalfFits(p / 2, q / 2); }
  }

  // ---------------------------------------------------------------- placing order

  predicate Indices(order: seq<nat>, n: nat) {
    forall x :: 0 <= x < |order| ==> order[x] < n
  }

  /** Insert index i behind every entry whose alignment is at least its own. */
  function Insert(order: seq<nat>, blocks: seq<Block>, i: nat): (r: seq<nat>)
    requires i < |blocks| && Indices(order, |blocks|)
    ensures |r| == |order| + 1 && Indices(r, |blocks|)
  {
    if order == [] then [i]
    else if blocks[order[0]].alignment >= blocks[i].alignment then [order[0]] + Insert(order[1..], blocks, i)
    else [i] + order
  }

  /** The first n indices by descending alignment, ties in index order. */
  function Order(blocks: seq<Block>, n: nat): (order: seq<nat>)
    requires n <= |blocks|
    ensures Indices(order, |blocks|) && |order| == n
  {
    if n == 0 then [] else Insert(Order(blocks, n - 1), blocks, n - 1)
  }

  ghost predicate Descending(order: seq<nat>, blocks: seq<Block>)
    requires Indices(order, |blocks|)
  {
    forall x, y :: 0 <= x < y < |order| ==> blocks[order[x]].alignment >= blocks[order[y]].alignment
  }

  ghost predicate Distinct(order: seq<nat>) {
    forall x, y :: 0 <= x < y < |order| ==> order[x] != order[y]
  }

  /** The bytes of the listed blocks. */
  function SizeOf(blocks: seq<Block>, order: seq<nat>): nat
    requires Indices(order, |blocks|)
  {
    if order == [] then 0 else blocks[order[0]].size + SizeOf(blocks, order[1..])
  }

  lemma {:induction false} InsertMembers(order: seq<nat>, blocks: seq<Block>, i: nat)
    requires i < |blocks| && Indices(order, |blocks|)
    ensures forall j :: j in Insert(order, blocks, i) <==> j in order || j == i
    ensures SizeOf(blocks, Insert(order, blocks, i)) == SizeOf(blocks, order) + blocks[i].size
  {
    if order != [] {
      assert order == [order[0]] + order[1..];
      if blocks[order[0]].alignment >= blocks[i].alignment {
        InsertMembers(order[1..], blocks, i);
        var rest := Insert(order[1..], blocks, i);
        assert ([order[0]] + rest)[1..] == rest;
      } else {
        assert ([i] + order)[1..] == order;
      }
    }
  }

  lemma {:induction false} InsertSorts(order: seq<nat>, blocks: seq<Block>, i: nat)
    requires i < |blocks| && Indices(order, |blocks|) && Descending(order, blocks)
    ensures Descending(Insert(order, blocks, i), blocks)
  {
    if order != [] && blocks[order[0]].alignment >= blocks[i].alignment {
      var rest := Insert(order[1..], blocks, i);
      InsertSorts(order[1..], blocks, i);
      InsertMembers(order[1..], blocks, i);
      forall y | 0 <= y < |rest| ensures blocks[order[0]].alignment >= blocks[rest[y]].alignment {
        assert rest[y] in rest;
        assert rest[y] == i || rest[y] in order[1..];
      }
      assert Insert(order, blocks, i) == [order[0]] + rest;
    }
  }

  lemma {:induction false} InsertDistinct(order: seq<nat>, blocks: seq<Block>, i: nat)
    requires i < |blocks| && Indices(order, |blocks|) && Distinct(order) && i !in order
    ensures Distinct(Insert(order, blocks, i))
  {
    if order != [] && blocks[order[0]].alignment >= blocks[i].alignment {
      var rest := Insert(order[1..], blocks, i);
      assert i !in order[1..];
      InsertDistinct(order[1..], blocks, i);
      InsertMembers(order[1..], blocks, i);
      forall y | 0 <= y < |rest| ensures rest[y] != order[0] {
        assert rest[y] in rest;
        assert rest[y] == i || rest[y] in order[1..];
      }
      assert Insert(order, blocks, i) == [order[0]] + rest;
    }
  }

  lemma {:induction false} OrderIs(blocks: seq<Block>, n: nat)
    requires n <= |blocks|
    ensures Descending(Order(blocks, n), blocks) && Distinct(Order(blocks, n))
    ensures forall j: nat :: j in Order(blocks, n) <==> j < n
    ensures SizeOf(blocks, Order(blocks, n)) == Total(blocks, n)
  {
    if n != 0 {
      OrderIs(blocks, n - 1);
      InsertMembers(Order(blocks, n - 1), blocks, n - 1);
      InsertSorts(Order(blocks, n - 1), blocks, n - 1);
      InsertDistinct(Order(blocks, n - 1), blocks, n - 1);
    }
  }

  function Total(blocks: seq<Block>, n: nat): nat
    requires n <= |blocks|
  {
    if n == 0 then 0 else Total(blocks, n - 1) + blocks[n - 1].size
  }

  lemma {:induction false} SizeAppends(blocks: seq<Block>, order: seq<nat>, n: nat)
    requires Indices(order, |blocks|) && n < |order|
    ensures SizeOf(blocks, order[..n + 1]) == SizeOf(blocks, order[..n]) + blocks[order[n]].size
  {
    if n != 0 {
      SizeAppends(blocks, order[1..], n - 1);
      assert order[..n + 1][1..] == order[1..][..n] && order[..n][1..] == order[1..][..n - 1];
    }
  }

  // ---------------------------------------------------------------- packing

  /** Sizes and alignments as the schema demands: powers of two, sizes whole multiples. */
  ghost predicate Regular(blocks: seq<Block>) {
    forall i :: 0 <= i < |blocks| ==>
      blocks[i].alignment > 0 && IsPow2(blocks[i].alignment) && blocks[i].size % blocks[i].alignment == 0
  }

  /** In a regular list in placing order, the bytes before an entry are a multiple of its alignment. */
  lemma {:induction false} PrefixAligned(blocks: seq<Block>, order: seq<nat>, n: nat, k: nat)
    requires Indices(order, |blocks|) && Descending(order, blocks) && Regular(blocks) && n <= k < |order|
    ensures SizeOf(blocks, order[..n]) % blocks[order[k]].alignment == 0
  {
    var a := blocks[order[k]].alignment;
    if n == 0 {
      MultipleIs(0, a);
    } else {
      PrefixAligned(blocks, order, n - 1, k);
      SizeAppends(blocks, order, n - 1);
      var b := blocks[order[n - 1]];
      SmallerDivides(a, b.alignment);
      DividesThrough(b.size, b.alignment, a);
      SumOfMultiples(SizeOf(blocks, order[..n - 1]), b.size, a);
    }
  }

  /** The stacks do not overlap and are aligned. */
  ghost predicate Laid(blocks: seq<Block>, offsets: seq<nat>) {
    && |offsets| == |blocks|
    && (forall i :: 0 <= i < |blocks| ==> blocks[i].alignment > 0 && offsets[i] % blocks[i].alignment == 0)
    && forall i, j :: 0 <= i < j < |blocks| ==>
       offsets[i] + blocks[i].size <= offsets[j] || offsets[j] + blocks[j].size <= offsets[i]
  }

  /** Stacks are placed by descending alignment. They are aligned and never overlap; the
      domain is the least power of two, at least the hardware's minimum, that holds them; and
      regular stacks leave no gap, so they end exactly at the sum of their sizes. */
  method PackDomain(blocks: seq<Block>) returns (size: nat, alignment: nat, offsets: seq<nat>, ghost end: nat)
    requires forall i :: 0 <= i < |blocks| ==> blocks[i].alignment > 0
    ensures Laid(blocks, offsets) && forall i :: 0 <= i < |blocks| ==> offsets[i] + blocks[i].size <= end
    ensures size == alignment && IsPow2(size) && size >= end && size >= MPU_MIN_REGION_SIZE
    ensures forall q: nat :: IsPow2(q) && q >= end && q >= MPU_MIN_REGION_SIZE ==> size <= q
    ensures Total(blocks, |blocks|) <= end && (Regular(blocks) ==> end == Total(blocks, |blocks|))
  {
    hide Order, Laid, SizeOf, RoundUp, Total, Regular, UpTo, IsPow2;
    var order := Order(blocks, |blocks|);
    OrderIs(blocks, |blocks|);
    offsets := seq(|blocks|, _ => 0);
    var cursor: nat, k := 0, 0;
    NothingPlaced(blocks, order, offsets);
    while k < |order|
      invariant k <= |order| && |offsets| == |blocks| && UpTo(blocks, order, offsets, k, cursor)
    {
      PlaceNext(blocks, order, offsets, k, cursor);
      cursor := RoundUp(cursor, blocks[order[k]].alignment);
      offsets := offsets[order[k] := cursor];
      cursor := cursor + blocks[order[k]].size;
      k := k + 1;
    }
    end := cursor;
    AllLaid(blocks, order, offsets, end);
    var least := NextPow2(cursor);
    size := if least < MPU_MIN_REGION_SIZE then MPU_MIN_REGION_SIZE else least;
    MinimumIsPow2();
    alignment := size;
  }

  /** The first k blocks of the placing order are placed, one after the other. */
  ghost predicate UpTo(blocks: seq<Block>, order: seq<nat>, offsets: seq<nat>, k: nat, cursor: nat)
    requires Indices(order, |blocks|) && |offsets| == |blocks| && k <= |order|
    requires forall i :: 0 <= i < |blocks| ==> blocks[i].alignment > 0
  {
    && (forall x :: 0 <= x < k ==>
       offsets[order[x]] % blocks[order[x]].alignment == 0 && offsets[order[x]] + blocks[order[x]].size <= cursor)
    && (forall x, y :: 0 <= x < y < k ==> offsets[order[x]] + blocks[order[x]].size <= offsets[order[y]])
    && SizeOf(blocks, order[..k]) <= cursor && (Regular(blocks) ==> cursor == SizeOf(blocks, order[..k]))
  }

  lemma NothingPlaced(blocks: seq<Block>, order: seq<nat>, offsets: seq<nat>)
    requires Indices(order, |blocks|) && |offsets| == |blocks|
             && forall i :: 0 <= i < |blocks| ==> blocks[i].alignment > 0
    ensures UpTo(blocks, order, offsets, 0, 0)
  {
  }

  lemma PlaceNext(blocks: seq<Block>, order: seq<nat>, offsets: seq<nat>, k: nat, cursor: nat)
    requires Indices(order, |blocks|) && Descending(order, blocks) && Distinct(order) && |offsets| == |blocks|
             && k < |order|
    requires forall i :: 0 <= i < |blocks| ==> blocks[i].alignment > 0
    requires UpTo(blocks, order, offsets, k, cursor)
    ensures var b := blocks[order[k]]; var at := RoundUp(cursor, b.alignment);
            UpTo(blocks, order, offsets[order[k] := at], k + 1, at + b.size)
  {
    var b := blocks[order[k]];
    RoundUpIs(cursor, b.alignment);
    SizeAppends(blocks, order, k);
    if Regular(blocks) {
      PrefixAligned(blocks, order, k, k);
      AlreadyAligned(cursor, b.alignment);
    }
    hide RoundUp, SizeOf, Regular;
  }

  lemma MinimumIsPow2()
    ensures IsPow2(MPU_MIN_REGION_SIZE)
  {
    assert IsPow2(2) && IsPow2(4) && IsPow2(8) && IsPow2(16);
  }

  lemma AllLaid(blocks: seq<Block>, order: seq<nat>, offsets: seq<nat>, end: nat)
    requires |offsets| == |blocks| && Indices(order, |blocks|) && forall j: nat :: j in order <==> j < |blocks|
    requires forall i :: 0 <= i < |blocks| ==> blocks[i].alignment > 0
    requires UpTo(blocks, order, offsets, |order|, end)
    ensures Laid(blocks, offsets) && forall i :: 0 <= i < |blocks| ==> offsets[i] + blocks[i].size <= end
    ensures SizeOf(blocks, order) <= end && (Regular(blocks) ==> end == SizeOf(blocks, order))
  {
    assert order[..|order|] == order;
    hide SizeOf, Regular;
    forall i: nat | i < |blocks| ensures offsets[i] % blocks[i].alignment == 0 && offsets[i] + blocks[i].size <= end {
      assert i in order;
      var x :| 0 <= x < |order| && order[x] == i;
    }
    forall i: nat, j: nat | i < j < |blocks|
      ensures offsets[i] + blocks[i].size <= offsets[j] || offsets[j] + blocks[j].size <= offsets[i]
    {
      assert i in order && j in order;
      var x :| 0 <= x < |order| && order[x] == i;
      var y :| 0 <= y < |order| && order[y] == j;
      assert x < y || y < x;
    }
  }

  /** Domains follow one another in id order, each aligned to its own size; the result is the
      end of the last one. */
  method DomainBytes(domains: seq<Block>) returns (bytes: nat, ghost offsets: seq<nat>)
    requires forall i :: 0 <= i < |domains| ==> domains[i].alignment > 0
    ensures Laid(domains, offsets) && (forall i :: 0 <= i < |domains| ==> offsets[i] + domains[i].size <= bytes)
    ensures domains != [] ==> bytes == offsets[|domains| - 1] + domains[|domains| - 1].size
    ensures domains == [] ==> bytes == 0
    ensures forall i :: 0 < i < |domains| ==> offsets[i] < offsets[i - 1] + domains[i - 1].size + domains[i].alignment
  {
    bytes, offsets := 0, [];
    var i := 0;
    while i < |domains|
      invariant i <= |domains| && Laid(domains[..i], offsets)
      invariant forall x :: 0 <= x < i ==> offsets[x] + domains[x].size <= bytes
      invariant i > 0 ==> bytes == offsets[i - 1] + domains[i - 1].size
      invariant i == 0 ==> bytes == 0
      invariant forall x :: 0 < x < i ==> offsets[x] < offsets[x - 1] + domains[x - 1].size + domains[x].alignment
    {
      RoundUpIs(bytes, domains[i].alignment);
      bytes := RoundUp(bytes, domains[i].alignment);
      offsets := offsets + [bytes];
      bytes := bytes + domains[i].size;
      i := i + 1;
    }
    assert domains[..i] == domains;
  }
}
