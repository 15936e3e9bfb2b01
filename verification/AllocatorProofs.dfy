/** The greedy packing loses nothing, is fair, does not overflow, and is optimal. */
module AllocatorProofs {
  import opened Common
  import opened Allocator

  // ---- Loads, without wrap-around ----

  function Load(es: seq<Entry>, assign: seq<nat>, j: nat): int
    requires |es| == |assign|
  {
    if es == [] then 0
    else
      var last := |es| - 1;
      Load(es[..last], assign[..last], j) + (if assign[last] == j then es[last].hosts else 0)
  }

  function SumLoads(es: seq<Entry>, assign: seq<nat>, n: nat): int
    requires |es| == |assign|
  {
    if n == 0 then 0 else SumLoads(es, assign, n - 1) + Load(es, assign, n - 1)
  }

  /** The largest of the first `n` loads. */
  function MaxLoad(es: seq<Entry>, assign: seq<nat>, n: nat): (r: int)
    requires |es| == |assign| && n > 0
    ensures forall j | 0 <= j < n :: Load(es, assign, j) <= r
    ensures exists j | 0 <= j < n :: Load(es, assign, j) == r
  {
    if n == 1 then Load(es, assign, 0)
    else
      var m := MaxLoad(es, assign, n - 1);
      if m >= Load(es, assign, n - 1) then m else Load(es, assign, n - 1)
  }

  ghost predicate IsAssignment(es: seq<Entry>, assign: seq<nat>, n: nat) {
    |assign| == |es| && forall i | 0 <= i < |es| :: assign[i] < n
  }

  // ---- Block sizes ----

  predicate IsBlockSize(h: int) {
    h == MAX_INT64 || exists e: nat :: e < 32 && h == Pow2(e)
  }

  predicate BlockSizes(es: seq<Entry>) {
    forall i | 0 <= i < |es| :: IsBlockSize(es[i].hosts)
  }

  /** How many blocks are capped, and how many addresses the others have in all. */
  function Capped(es: seq<Entry>): nat {
    if es == [] then 0 else Capped(es[..|es| - 1]) + (if es[|es| - 1].hosts == MAX_INT64 then 1 else 0)
  }

  function Rest(es: seq<Entry>): int {
    if es == [] then 0 else Rest(es[..|es| - 1]) + (if es[|es| - 1].hosts == MAX_INT64 then 0 else es[|es| - 1].hosts)
  }

  lemma BlockSizeRange(h: int)
    requires IsBlockSize(h)
    ensures 1 <= h <= MAX_INT64
    ensures h != MAX_INT64 ==> h < Pow2(32)
  {
    if h != MAX_INT64 {
      var e: nat :| e < 32 && h == Pow2(e);
      Pow2Monotone(e, 31);
      assert Pow2(31) == 0x8000_0000 && Pow2(32) == 0x1_0000_0000 by {
        Pow2Values();
      }
    }
  }

  lemma Pow2Values()
    ensures Pow2(31) == 0x8000_0000 && Pow2(32) == 0x1_0000_0000
  {
    assert Pow2(8) == 256;
    assert Pow2(16) == 65536;
    assert Pow2(24) == 0x100_0000;
  }

  // ---- Sums and divisibility ----

  lemma {:induction false} SumOfLoads(es: seq<Entry>, assign: seq<nat>, n: nat)
    requires IsAssignment(es, assign, n) && es != []
    ensures SumLoads(es, assign, n) == SumLoads(es[..|es| - 1], assign[..|es| - 1], n) + es[|es| - 1].hosts
  {
    var last := |es| - 1;
    SumOfLoadsUpTo(es, assign, n);
  }

  lemma {:induction false} SumOfLoadsUpTo(es: seq<Entry>, assign: seq<nat>, k: nat)
    requires |es| == |assign| && es != []
    ensures var last := |es| - 1;
      SumLoads(es, assign, k) ==
        SumLoads(es[..last], assign[..last], k) + (if assign[last] < k then es[last].hosts else 0)
    decreases k
  {
    if k > 0 {
      SumOfLoadsUpTo(es, assign, k - 1);
    }
  }

  /** Any two assignments of the same entries have the same sum of loads. */
  lemma {:induction false} SameSum(es: seq<Entry>, a: seq<nat>, b: seq<nat>, n: nat)
    requires IsAssignment(es, a, n) && IsAssignment(es, b, n)
    ensures SumLoads(es, a, n) == SumLoads(es, b, n)
    decreases |es|
  {
    if es == [] {
      assert a == b;
    } else {
      var last := |es| - 1;
      SumOfLoads(es, a, n);
      SumOfLoads(es, b, n);
      SameSum(es[..last], a[..last], b[..last], n);
    }
  }

  ghost predicate Multiple(x: int, p: int) {
    exists q: int :: x == q * p
  }

  lemma MultipleSum(x: int, y: int, p: int)
    requires Multiple(x, p) && Multiple(y, p)
    ensures Multiple(x + y, p)
  {
    var q: int :| x == q * p;
    var r: int :| y == r * p;
    assert x + y == (q + r) * p;
  }

  /** Two multiples of `p` that differ, differ by at least `p`. */
  lemma MultipleGap(x: int, y: int, p: int)
    requires p > 0 && Multiple(x, p) && Multiple(y, p) && x > y
    ensures x >= y + p
  {
    var q: int :| x == q * p;
    var r: int :| y == r * p;
    if q <= r {
      MulMonotone(q, r, p);
    } else {
      MulMonotone(r + 1, q, p);
      assert (r + 1) * p == r * p + p;
    }
  }

  lemma {:induction false} Pow2Multiple(e: nat, f: nat)
    requires e <= f
    ensures Multiple(Pow2(f), Pow2(e))
    decreases f
  {
    if e == f {
      assert Pow2(f) == 1 * Pow2(e);
    } else {
      Pow2Multiple(e, f - 1);
      MultipleSum(Pow2(f - 1), Pow2(f - 1), Pow2(e));
    }
  }

  /** A larger block size is a multiple of a smaller one. */
  lemma BlockMultiple(x: int, p: int)
    requires IsBlockSize(x) && IsBlockSize(p) && x >= p && x != MAX_INT64
    ensures Multiple(x, p)
  {
    BlockSizeRange(x);
    var f: nat :| f < 32 && x == Pow2(f);
    Pow2Values();
    assert p != MAX_INT64;
    var e: nat :| e < 32 && p == Pow2(e);
    assert Pow2(f + 1) == 2 * Pow2(f);
    if e > f {
      Pow2Monotone(f + 1, e);
    } else {
      Pow2Multiple(e, f);
    }
  }

  lemma {:induction false} LoadMultiple(es: seq<Entry>, assign: seq<nat>, j: nat, p: int)
    requires |es| == |assign| && forall i | 0 <= i < |es| :: Multiple(es[i].hosts, p)
    ensures Multiple(Load(es, assign, j), p)
    decreases |es|
  {
    if es == [] {
      assert 0 == 0 * p;
    } else {
      var last := |es| - 1;
      LoadMultiple(es[..last], assign[..last], j, p);
      if assign[last] == j {
        MultipleSum(Load(es[..last], assign[..last], j), es[last].hosts, p);
      }
    }
  }

  // ---- Optimality ----

  ghost predicate AtLeast(es: seq<Entry>, assign: seq<nat>, n: nat, low: int)
    requires |es| == |assign|
  {
    forall j: nat | j < n :: low <= Load(es, assign, j)
  }

  /** In any assignment some shard gets at least the smallest earlier load plus the new block. */
  lemma SomeShardIsFull(es: seq<Entry>, a: seq<nat>, b: seq<nat>, n: nat, low: int) returns (i: nat)
    requires n > 0 && es != [] && IsAssignment(es, a, n) && IsAssignment(es, b, n)
    requires forall k | 0 <= k < |es| :: Multiple(es[k].hosts, es[|es| - 1].hosts)
    requires es[|es| - 1].hosts > 0 && Multiple(low, es[|es| - 1].hosts)
    requires AtLeast(es[..|es| - 1], a[..|es| - 1], n, low)
    ensures i < n && Load(es, b, i) >= low + es[|es| - 1].hosts
  {
    var last := |es| - 1;
    var p := es[last].hosts;
    if j: nat :| j < n && Load(es, b, j) > low {
      i := j;
      LoadMultiple(es, b, j, p);
      MultipleGap(Load(es, b, j), low, p);
    } else {
      SumOfLoads(es, a, n);
      SumBoundBelow(es[..last], a[..last], n, low);
      SumBoundAbove(es, b, n, low);
      SameSum(es, a, b, n);
      assert false;
    }
  }

  lemma {:induction false} SumBoundBelow(es: seq<Entry>, assign: seq<nat>, n: nat, lo: int)
    requires |es| == |assign| && forall j: nat | j < n :: lo <= Load(es, assign, j)
    ensures n * lo <= SumLoads(es, assign, n)
  {
    if n > 0 {
      SumBoundBelow(es, assign, n - 1, lo);
      assert n * lo == (n - 1) * lo + lo;
    }
  }

  lemma {:induction false} SumBoundAbove(es: seq<Entry>, assign: seq<nat>, n: nat, hi: int)
    requires |es| == |assign| && forall j: nat | j < n :: Load(es, assign, j) <= hi
    ensures SumLoads(es, assign, n) <= n * hi
  {
    if n > 0 {
      SumBoundAbove(es, assign, n - 1, hi);
      assert n * hi == (n - 1) * hi + hi;
    }
  }

  lemma LoadGrows(es: seq<Entry>, assign: seq<nat>, j: nat)
    requires |es| == |assign| && es != [] && es[|es| - 1].hosts >= 0
    ensures Load(es[..|es| - 1], assign[..|es| - 1], j) <= Load(es, assign, j)
  {
  }

  lemma {:induction false} CappedBlockAlone(es: seq<Entry>, assign: seq<nat>, i: nat)
    requires |es| == |assign| && i < |es| && forall k | 0 <= k < |es| :: es[k].hosts >= 0
    ensures Load(es, assign, assign[i]) >= es[i].hosts
    decreases |es|
  {
    var last := |es| - 1;
    if i < last {
      CappedBlockAlone(es[..last], assign[..last], i);
    } else {
      LoadNonNegative(es[..last], assign[..last], assign[i]);
    }
  }

  lemma {:induction false} LoadNonNegative(es: seq<Entry>, assign: seq<nat>, j: nat)
    requires |es| == |assign| && forall k | 0 <= k < |es| :: es[k].hosts >= 0
    ensures Load(es, assign, j) >= 0
    decreases |es|
  {
    if es != [] {
      LoadNonNegative(es[..|es| - 1], assign[..|es| - 1], j);
    }
  }

  // ---- When the int64 totals are right ----

  ghost predicate ExactTotals(es: seq<Entry>, n: nat)
    requires n > 0
  {
    var p := Greedy(es, n);
    forall j: nat | j < n :: p.totals[j] == Load(es, p.assign, j) && 0 <= p.totals[j] <= MAX_INT64
  }

  /** Some assignment keeps every shard within an int64. */
  ghost predicate Packable(es: seq<Entry>, n: nat)
    requires n > 0
  {
    exists b: seq<nat> :: IsAssignment(es, b, n) && MaxLoad(es, b, n) <= MAX_INT64
  }

  lemma AddFits(a: int, b: int)
    requires 0 <= a && 0 <= b && a + b <= MAX_INT64
    ensures AddInt64(a, b) == a + b
  {
  }

  lemma LoadsWithin(es: seq<Entry>, b: seq<nat>, n: nat)
    requires n > 0 && IsAssignment(es, b, n)
    requires forall j: nat | j < n :: Load(es, b, j) <= MAX_INT64
    ensures Packable(es, n)
  {
    assert MaxLoad(es, b, n) <= MAX_INT64;
  }

  lemma PackablePrefix(es: seq<Entry>, n: nat)
    requires n > 0 && BlockSizes(es) && es != [] && Packable(es, n)
    ensures Packable(es[..|es| - 1], n)
  {
    var b: seq<nat> :| IsAssignment(es, b, n) && MaxLoad(es, b, n) <= MAX_INT64;
    BlockSizeRange(es[|es| - 1].hosts);
    var pre, rest := es[..|es| - 1], b[..|es| - 1];
    forall j: nat | j < n ensures Load(pre, rest, j) <= MAX_INT64 {
      LoadGrows(es, b, j);
    }
    LoadsWithin(pre, rest, n);
  }

  /** The same entries with every capped size replaced by `cap`. */
  function Recapped(es: seq<Entry>, cap: int): (r: seq<Entry>)
    ensures |r| == |es|
  {
    seq(|es|, i requires 0 <= i < |es| => if es[i].hosts == MAX_INT64 then Entry(es[i].cidr, cap) else es[i])
  }

  lemma {:induction false} RecappedLoad(es: seq<Entry>, assign: seq<nat>, j: nat, cap: int)
    requires |es| == |assign| && BlockSizes(es) && 0 <= cap <= MAX_INT64
    ensures Load(Recapped(es, cap), assign, j) <= Load(es, assign, j)
    ensures Load(es, assign, j) <= Load(Recapped(es, cap), assign, j) || cap <= Load(Recapped(es, cap), assign, j)
    decreases |es|
  {
    if es != [] {
      var last := |es| - 1;
      BlockSizeRange(es[last].hosts);
      assert Recapped(es, cap)[..last] == Recapped(es[..last], cap);
      RecappedLoad(es[..last], assign[..last], j, cap);
      RecappedNonNegative(es[..last], cap);
      LoadNonNegative(Recapped(es[..last], cap), assign[..last], j);
    }
  }

  lemma RecappedNonNegative(es: seq<Entry>, cap: int)
    requires BlockSizes(es) && 0 <= cap
    ensures forall k | 0 <= k < |es| :: Recapped(es, cap)[k].hosts >= 0
  {
    forall k | 0 <= k < |es| ensures Recapped(es, cap)[k].hosts >= 0 {
      BlockSizeRange(es[k].hosts);
    }
  }

  /** 2^63 less a block size is a multiple of that size. */
  lemma CapMultiple(h: int)
    requires IsBlockSize(h) && h != MAX_INT64
    ensures Multiple(MAX_INT64 + 1 - h, h) && Multiple(h, h)
  {
    var e: nat :| e < 32 && h == Pow2(e);
    Pow2Multiple(e, 63);
    Pow2Values();
    Pow2Of63();
    var q: int :| Pow2(63) == q * h;
    assert Pow2(63) - h == (q - 1) * h;
    assert h == 1 * h;
  }

  lemma Pow2Of63()
    ensures Pow2(63) == MAX_INT64 + 1
  {
    Pow2Sum(32, 31);
    Pow2Values();
  }

  /** The greedy choice for a block below the cap, when some other assignment fits. */
  lemma RoomForBlock(es: seq<Entry>, n: nat, b: seq<nat>)
    requires n > 0 && BlockSizes(es) && Descending(es) && es != [] && es[|es| - 1].hosts != MAX_INT64
    requires IsAssignment(es, b, n) && MaxLoad(es, b, n) <= MAX_INT64
    requires ExactTotals(es[..|es| - 1], n)
    ensures var totals := Greedy(es[..|es| - 1], n).totals;
      totals[ArgMin(totals)] + es[|es| - 1].hosts <= MAX_INT64
  {
    var last := |es| - 1;
    var pre, h := es[..last], es[last].hosts;
    var q := Greedy(pre, n);
    var low, cap := q.totals[ArgMin(q.totals)], MAX_INT64 + 1 - h;
    BlockSizeRange(h);
    if low + h > MAX_INT64 {
      var small := Recapped(es, cap);
      assert small[..last] == Recapped(pre, cap) && small[last] == es[last];
      CapMultiple(h);
      forall k | 0 <= k < |es| ensures Multiple(small[k].hosts, h) {
        if es[k].hosts != MAX_INT64 {
          BlockMultiple(es[k].hosts, h);
        }
      }
      forall j: nat | j < n ensures cap <= Load(small[..last], q.assign, j) {
        RecappedLoad(pre, q.assign, j, cap);
        assert low <= q.totals[j];
      }
      var g := Greedy(es, n).assign;
      assert g[..last] == q.assign;
      var i := SomeShardIsFull(small, g, b, n, cap);
      RecappedLoad(es, b, i, cap);
      assert false;
    }
  }

  /** The greedy choice for a capped block: a shard is still empty. */
  lemma RoomForCapped(es: seq<Entry>, n: nat, b: seq<nat>)
    requires n > 0 && BlockSizes(es) && Descending(es) && es != [] && es[|es| - 1].hosts == MAX_INT64
    requires IsAssignment(es, b, n) && MaxLoad(es, b, n) <= MAX_INT64
    requires ExactTotals(es[..|es| - 1], n)
    ensures var totals := Greedy(es[..|es| - 1], n).totals;
      totals[ArgMin(totals)] + es[|es| - 1].hosts <= MAX_INT64
  {
    var last := |es| - 1;
    var q := Greedy(es[..last], n);
    var low := q.totals[ArgMin(q.totals)];
    forall k | 0 <= k < |es| ensures Multiple(es[k].hosts, MAX_INT64) {
      BlockSizeRange(es[k].hosts);
      assert es[k].hosts == 1 * MAX_INT64;
    }
    if low > 0 {
      forall j: nat | j < n ensures MAX_INT64 <= Load(es[..last], q.assign, j) {
        LoadMultiple(es[..last], q.assign, j, MAX_INT64);
        assert 0 == 0 * MAX_INT64;
        assert low <= q.totals[j];
        MultipleGap(Load(es[..last], q.assign, j), 0, MAX_INT64);
      }
      var g := Greedy(es, n).assign;
      assert g[..last] == q.assign;
      var i := SomeShardIsFull(es, g, b, n, MAX_INT64);
      assert false;
    }
  }

  lemma TotalsStep(es: seq<Entry>, n: nat)
    requires n > 0 && BlockSizes(es) && Descending(es) && es != [] && Packable(es, n) && ExactTotals(es[..|es| - 1], n)
    ensures ExactTotals(es, n)
  {
    var last := |es| - 1;
    var b: seq<nat> :| IsAssignment(es, b, n) && MaxLoad(es, b, n) <= MAX_INT64;
    if es[last].hosts == MAX_INT64 {
      RoomForCapped(es, n, b);
    } else {
      RoomForBlock(es, n, b);
    }
    var q, p := Greedy(es[..last], n), Greedy(es, n);
    var m := ArgMin(q.totals);
    BlockSizeRange(es[last].hosts);
    assert q.totals[m] == Load(es[..last], q.assign, m) && 0 <= q.totals[m];
    AddFits(q.totals[m], es[last].hosts);
    assert p.assign[..last] == q.assign;
    forall j: nat | j < n ensures p.totals[j] == Load(es, p.assign, j) && 0 <= p.totals[j] <= MAX_INT64 {
      assert q.totals[j] == Load(es[..last], q.assign, j);
    }
  }

  lemma {:induction false} PackableIsExact(es: seq<Entry>, n: nat)
    requires n > 0 && BlockSizes(es) && Descending(es) && Packable(es, n)
    ensures ExactTotals(es, n)
    decreases |es|
  {
    if es != [] {
      PackablePrefix(es, n);
      PackableIsExact(es[..|es| - 1], n);
      TotalsStep(es, n);
    }
  }

  lemma {:induction false} PackablePrefixes(es: seq<Entry>, n: nat, k: nat)
    requires n > 0 && BlockSizes(es) && Packable(es, n) && k <= |es|
    ensures Packable(es[..k], n)
    decreases |es|
  {
    if k == |es| {
      assert es[..k] == es;
    } else {
      PackablePrefix(es, n);
      PackablePrefixes(es[..|es| - 1], n, k);
      assert es[..|es| - 1][..k] == es[..k];
    }
  }

  /**
   The int64 totals of the code stay the true loads, from the first block to the last, exactly when
   the blocks can be packed into the shards at all without a shard exceeding an int64.
   */
  lemma TotalsAreLoads(es: seq<Entry>, n: nat)
    requires n > 0 && BlockSizes(es) && Descending(es)
    ensures (forall k: nat | k <= |es| :: ExactTotals(es[..k], n)) <==> Packable(es, n)
  {
    if Packable(es, n) {
      forall k: nat | k <= |es| ensures ExactTotals(es[..k], n) {
        PackablePrefixes(es, n, k);
        PackableIsExact(es[..k], n);
      }
    } else {
      assert es[..|es|] == es;
      if ExactTotals(es, n) {
        LoadsWithin(es, Greedy(es, n).assign, n);
      }
    }
  }

  // ---- Counting the capped blocks ----

  /** Capped blocks come first and go one to a shard, in order. */
  lemma {:induction false} CappedFirst(es: seq<Entry>, n: nat)
    requires n > 0 && |es| <= n && forall i | 0 <= i < |es| :: es[i].hosts == MAX_INT64
    ensures Greedy(es, n).totals == seq(n, j => if j < |es| then MAX_INT64 else 0)
  {
    if es != [] {
      var last := |es| - 1;
      CappedFirst(es[..last], n);
      var totals := Greedy(es[..last], n).totals;
      assert totals[last] == 0;
      assert ArgMin(totals) == last;
      AddFits(0, MAX_INT64);
    }
  }

  lemma {:induction false} CappedPrefix(es: seq<Entry>, k: nat)
    requires BlockSizes(es) && Descending(es) && Capped(es) >= k
    ensures k <= |es| && forall i | 0 <= i < k :: es[i].hosts == MAX_INT64
    decreases |es|
  {
    if es != [] {
      var last := |es| - 1;
      BlockSizeRange(es[last].hosts);
      if Capped(es[..last]) >= k {
        CappedPrefix(es[..last], k);
      } else {
        CappedPrefix(es[..last], k - 1);
        forall i | 0 <= i < last ensures es[i].hosts == MAX_INT64 {
          BlockSizeRange(es[i].hosts);
        }
        AllCappedCount(es[..last]);
      }
    }
  }

  lemma {:induction false} AllCappedCount(es: seq<Entry>)
    requires forall i | 0 <= i < |es| :: es[i].hosts == MAX_INT64
    ensures Capped(es) == |es|
  {
    if es != [] {
      AllCappedCount(es[..|es| - 1]);
    }
  }

  /**
   With a capped block for every shard, the very next block wraps the total of the first shard:
   then no total can be trusted any more.
   */
  lemma TooManyCapped(es: seq<Entry>, n: nat)
    requires n > 0 && BlockSizes(es) && Descending(es) && Capped(es) >= n && |es| > n
    ensures Greedy(es[..n + 1], n).totals[0] < 0 && !ExactTotals(es[..n + 1], n)
  {
    CappedPrefix(es, n);
    var pre := es[..n];
    CappedFirst(pre, n);
    var totals := Greedy(pre, n).totals;
    assert forall j | 0 <= j < n :: totals[j] == MAX_INT64;
    assert totals[ArgMin(totals)] == totals[0] && ArgMin(totals) == 0;
    assert es[..n + 1][..n] == pre;
    BlockSizeRange(es[n].hosts);
    Wraps(es[n].hosts);
  }

  lemma Wraps(h: int)
    requires 1 <= h <= MAX_INT64
    ensures AddInt64(MAX_INT64, h) < 0
  {
  }

  /** Capped blocks one to a shard from the first, everything else into the last shard. */
  function Spread(es: seq<Entry>, n: nat): (b: seq<nat>)
    requires n > 0
    ensures |b| == |es| && forall i | 0 <= i < |es| :: b[i] < n
  {
    seq(|es|, i requires 0 <= i < |es| => if i < n && es[i].hosts == MAX_INT64 then i else n - 1)
  }

  lemma {:induction false} SpreadLoads(es: seq<Entry>, n: nat, j: nat)
    requires n > 0 && BlockSizes(es) && Descending(es) && Capped(es) < n && j < n
    ensures Load(es, Spread(es, n), j) ==
              if j == n - 1 then Rest(es) else if j < Capped(es) then MAX_INT64 else 0
    decreases |es|
  {
    if es != [] {
      var last := |es| - 1;
      assert Spread(es, n)[..last] == Spread(es[..last], n);
      SpreadLoads(es[..last], n, j);
      if es[last].hosts == MAX_INT64 {
        LastIsCapped(es);
      }
    }
  }

  /** Up to a capped block all blocks are capped. */
  lemma LastIsCapped(es: seq<Entry>)
    requires BlockSizes(es) && Descending(es) && es != [] && es[|es| - 1].hosts == MAX_INT64
    ensures Capped(es) == |es| && Capped(es[..|es| - 1]) == |es| - 1
  {
    forall i | 0 <= i < |es| ensures es[i].hosts == MAX_INT64 {
      BlockSizeRange(es[i].hosts);
    }
    AllCappedCount(es);
    AllCappedCount(es[..|es| - 1]);
  }

  lemma {:induction false} OneEach(es: seq<Entry>, j: nat)
    requires BlockSizes(es)
    ensures Load(es, seq(|es|, i => i), j) == if j < |es| then es[j].hosts else 0
    decreases |es|
  {
    if es != [] {
      assert seq(|es|, i => i)[..|es| - 1] == seq(|es| - 1, i => i);
      OneEach(es[..|es| - 1], j);
    }
  }

  /** Whether the blocks fit, read off their number, when those below the cap have at most 2^63 - 1 addresses. */
  lemma PackableIff(es: seq<Entry>, n: nat)
    requires n > 0 && BlockSizes(es) && Descending(es) && Rest(es) <= MAX_INT64
    ensures Packable(es, n) <==> Capped(es) < n || |es| <= n
  {
    if Capped(es) < n {
      forall j: nat | j < n ensures Load(es, Spread(es, n), j) <= MAX_INT64 {
        SpreadLoads(es, n, j);
      }
      LoadsWithin(es, Spread(es, n), n);
    } else if |es| <= n {
      var b: seq<nat> := seq(|es|, i => i);
      forall j: nat | j < n ensures Load(es, b, j) <= MAX_INT64 {
        OneEach(es, j);
        if j < |es| {
          BlockSizeRange(es[j].hosts);
        }
      }
      LoadsWithin(es, b, n);
    } else if Packable(es, n) {
      TotalsAreLoads(es, n);
      TooManyCapped(es, n);
      assert false;
    }
  }

  // ---- The greedy packing is optimal ----

  /** With powers of two only, no shard of the greedy packing exceeds the largest of any other assignment. */
  lemma {:induction false} GreedyBeats(es: seq<Entry>, n: nat, b: seq<nat>, j: nat)
    requires n > 0 && j < n && BlockSizes(es) && Descending(es) && Packable(es, n) && IsAssignment(es, b, n)
    requires forall i | 0 <= i < |es| :: es[i].hosts != MAX_INT64
    ensures Load(es, Greedy(es, n).assign, j) <= MaxLoad(es, b, n)
    decreases |es|
  {
    var g := Greedy(es, n).assign;
    if es == [] {
      assert g == b;
    } else {
      var last := |es| - 1;
      var pre := es[..last];
      var q := Greedy(pre, n);
      PackablePrefix(es, n);
      PackableIsExact(pre, n);
      BlockSizeRange(es[last].hosts);
      assert g[..last] == q.assign;
      var m := ArgMin(q.totals);
      if j == m {
        forall k | 0 <= k < |es| ensures Multiple(es[k].hosts, es[last].hosts) {
          BlockMultiple(es[k].hosts, es[last].hosts);
        }
        LoadMultiple(pre, q.assign, m, es[last].hosts);
        var i := SomeShardIsFull(es, g, b, n, q.totals[m]);
      } else {
        GreedyBeats(pre, n, b[..last], j);
        var i :| 0 <= i < n && Load(pre, b[..last], i) == MaxLoad(pre, b[..last], n);
        LoadGrows(es, b, i);
      }
    }
  }

  /**
   The greedy packing is optimal whenever the code can add its totals up: no assignment of the same
   blocks to the same number of shards has a smaller largest shard.
   */
  lemma GreedyIsOptimal(es: seq<Entry>, n: nat, b: seq<nat>)
    requires n > 0 && BlockSizes(es) && Descending(es) && Packable(es, n) && IsAssignment(es, b, n)
    ensures MaxLoad(es, Greedy(es, n).assign, n) <= MaxLoad(es, b, n)
  {
    var g := Greedy(es, n).assign;
    var j: nat :| j < n && Load(es, g, j) == MaxLoad(es, g, n);
    if i :| 0 <= i < |es| && es[i].hosts == MAX_INT64 {
      PackableIsExact(es, n);
      forall k | 0 <= k < |es| ensures es[k].hosts >= 0 {
        BlockSizeRange(es[k].hosts);
      }
      CappedBlockAlone(es, b, i);
    } else {
      GreedyBeats(es, n, b, j);
    }
  }

  // ---- Fairness ----

  /** Without any one of its blocks a shard is no larger than any other shard. */
  lemma {:induction false} GreedyIsFair(es: seq<Entry>, n: nat, i: nat, l: nat)
    requires n > 0 && BlockSizes(es) && Descending(es) && Packable(es, n) && i < |es| && l < n
    ensures var g := Greedy(es, n).assign;
      Load(es, g, g[i]) - es[i].hosts <= Load(es, g, l)
    decreases |es|
  {
    var g := Greedy(es, n).assign;
    var last := |es| - 1;
    var pre := es[..last];
    var q := Greedy(pre, n);
    PackablePrefix(es, n);
    PackableIsExact(pre, n);
    BlockSizeRange(es[last].hosts);
    assert g[..last] == q.assign;
    var m := ArgMin(q.totals);
    LoadGrows(es, g, l);
    if g[i] == m {
      assert Load(es, g, m) == q.totals[m] + es[last].hosts;
      assert es[i].hosts >= es[last].hosts;
    } else {
      GreedyIsFair(pre, n, i, l);
    }
  }

  // ---- Nothing is lost and nothing is invented ----

  function Cidrs(es: seq<Entry>): multiset<string> {
    if es == [] then multiset{} else Cidrs(es[..|es| - 1]) + multiset{es[|es| - 1].cidr}
  }

  /** The CIDRs that can be parsed, with their multiplicities. */
  function ValidCidrs(cidrs: seq<string>, parse: Parser): multiset<string> {
    if cidrs == [] then multiset{}
    else
      var c := cidrs[|cidrs| - 1];
      ValidCidrs(cidrs[..|cidrs| - 1], parse) + (if parse(c).Some? then multiset{c} else multiset{})
  }

  function Together(shards: seq<seq<string>>): multiset<string> {
    if shards == [] then multiset{} else Together(shards[..|shards| - 1]) + multiset(shards[|shards| - 1])
  }

  lemma {:induction false} CidrsAppend(a: seq<Entry>, b: seq<Entry>)
    ensures Cidrs(a + b) == Cidrs(a) + Cidrs(b)
    decreases |b|
  {
    if b == [] {
      assert a + b == a;
    } else {
      assert (a + b)[..|a + b| - 1] == a + b[..|b| - 1];
      CidrsAppend(a, b[..|b| - 1]);
    }
  }

  lemma CidrsInsert(a: seq<Entry>, e: Entry, b: seq<Entry>)
    ensures Cidrs(a + [e] + b) == Cidrs(a + b) + multiset{e.cidr}
  {
    CidrsAppend(a, b);
    CidrsAppend(a + [e], b);
    assert (a + [e])[..|a|] == a;
  }

  lemma {:induction false} CidrsPermute(a: seq<Entry>, b: seq<Entry>)
    requires multiset(a) == multiset(b)
    ensures Cidrs(a) == Cidrs(b)
    decreases |a|
  {
    if a == [] {
      assert |multiset(b)| == 0;
    } else {
      var e := a[|a| - 1];
      assert e in multiset(b);
      var i :| 0 <= i < |b| && b[i] == e;
      var x, y := b[..i], b[i + 1..];
      assert b == x + [e] + y;
      SamePieces(a, x, e, y);
      CidrsPermute(a[..|a| - 1], x + y);
      CidrsInsert(x, e, y);
    }
  }

  lemma SamePieces(a: seq<Entry>, x: seq<Entry>, e: Entry, y: seq<Entry>)
    requires a != [] && a[|a| - 1] == e && multiset(a) == multiset(x + [e] + y)
    ensures multiset(a[..|a| - 1]) == multiset(x + y)
  {
    assert a == a[..|a| - 1] + [e];
    var p, q := multiset(a[..|a| - 1]), multiset(x + y);
    assert p + multiset{e} == q + multiset{e};
    assert p == (p + multiset{e}) - multiset{e};
    assert q == (q + multiset{e}) - multiset{e};
  }

  lemma HostsAreBlocks(m: Mask)
    requires m.ones <= m.bits
    ensures IsBlockSize(Hosts(m))
  {
  }

  lemma {:induction false} EntriesAreValid(cidrs: seq<string>, parse: Parser)
    requires ValidParser(parse)
    ensures Cidrs(Entries(cidrs, parse)) == ValidCidrs(cidrs, parse)
  {
    if cidrs != [] {
      var c := cidrs[|cidrs| - 1];
      var pre := Entries(cidrs[..|cidrs| - 1], parse);
      EntriesAreValid(cidrs[..|cidrs| - 1], parse);
      var m := parse(c);
      if m.Some? {
        var e := Entry(c, Hosts(m.value));
        assert Entries(cidrs, parse) == pre + [e];
        assert (pre + [e])[..|pre|] == pre;
      } else {
        assert Entries(cidrs, parse) == pre + [];
        assert pre + [] == pre;
      }
    }
  }

  lemma {:induction false} EntriesAreBlocks(cidrs: seq<string>, parse: Parser)
    requires ValidParser(parse)
    ensures BlockSizes(Entries(cidrs, parse))
  {
    if cidrs != [] {
      var c := cidrs[|cidrs| - 1];
      EntriesAreBlocks(cidrs[..|cidrs| - 1], parse);
      if parse(c).Some? {
        HostsAreBlocks(parse(c).value);
      }
    }
  }

  /** The first `k` shards hold the blocks assigned to them. */
  lemma {:induction false} ShardsStep(es: seq<Entry>, assign: seq<nat>, k: nat)
    requires |es| == |assign| && es != []
    ensures var last := |es| - 1;
      Together(Shards(es, assign, k)) ==
      Together(Shards(es[..last], assign[..last], k))
      + (if assign[last] < k then multiset{es[last].cidr} else multiset{})
    decreases k
  {
    if k > 0 {
      var last := |es| - 1;
      ShardsStep(es, assign, k - 1);
      assert Shards(es, assign, k)[..k - 1] == Shards(es, assign, k - 1);
      assert Shards(es[..last], assign[..last], k)[..k - 1] == Shards(es[..last], assign[..last], k - 1);
    }
  }

  lemma {:induction false} ShardsPartition(es: seq<Entry>, assign: seq<nat>, n: nat)
    requires IsAssignment(es, assign, n)
    ensures Together(Shards(es, assign, n)) == Cidrs(es)
    decreases |es|
  {
    if es == [] {
      EmptyShards(es, assign, n);
    } else {
      var last := |es| - 1;
      ShardsStep(es, assign, n);
      ShardsPartition(es[..last], assign[..last], n);
    }
  }

  lemma {:induction false} EmptyShards(es: seq<Entry>, assign: seq<nat>, n: nat)
    requires es == [] && |assign| == 0
    ensures Together(Shards(es, assign, n)) == multiset{}
    decreases n
  {
    if n > 0 {
      EmptyShards(es, assign, n - 1);
      assert Shards(es, assign, n)[..n - 1] == Shards(es, assign, n - 1);
    }
  }

  /**
   What `DistributeCIDRs` returns for two or more shards and at least one valid CIDR: every valid
   CIDR in exactly one shard, whatever order the sort leaves equal blocks in.
   */
  lemma DistributionIsPartition(cidrs: seq<string>, n: nat, parse: Parser, sortSlice: seq<Entry> -> seq<Entry>)
    requires n > 0 && ValidParser(parse) && SortsDescending(sortSlice)
    ensures var sorted := sortSlice(Entries(cidrs, parse));
      Together(Shards(sorted, Greedy(sorted, n).assign, n)) == ValidCidrs(cidrs, parse)
  {
    var es := Entries(cidrs, parse);
    var sorted := sortSlice(es);
    ShardsPartition(sorted, Greedy(sorted, n).assign, n);
    CidrsPermute(sorted, es);
    EntriesAreValid(cidrs, parse);
  }

  /** The sorted entries of any input are block sizes in descending order. */
  lemma SortedBlocks(cidrs: seq<string>, parse: Parser, sortSlice: seq<Entry> -> seq<Entry>)
    requires ValidParser(parse) && SortsDescending(sortSlice)
    ensures var sorted := sortSlice(Entries(cidrs, parse)); BlockSizes(sorted) && Descending(sorted)
  {
    var es := Entries(cidrs, parse);
    var sorted := sortSlice(es);
    EntriesAreBlocks(cidrs, parse);
    forall i | 0 <= i < |sorted| ensures IsBlockSize(sorted[i].hosts) {
      assert sorted[i] in multiset(sorted);
      assert sorted[i] in multiset(es);
    }
  }

  // ---- What the sizes are, and what is optimal ----

  /** The number of addresses of a block, capped: all the addresses, over the number of such blocks. */
  predicate IsSizeOf(h: int, m: Mask) {
    m.ones <= m.bits && if m.bits - m.ones < 32 then h * Pow2(m.ones) == Pow2(m.bits) else h == MAX_INT64
  }

  lemma HostsAreSizes(m: Mask)
    requires m.ones <= m.bits
    ensures IsSizeOf(Hosts(m), m)
  {
    Pow2Sum(m.bits - m.ones, m.ones);
  }

  lemma SameProduct(a: int, b: int, c: int)
    requires c > 0 && a * c == b * c
    ensures a == b
  {
    MulGap(a, b, c);
    MulGap(b, a, c);
  }

  lemma MulGap(a: int, b: int, c: int)
    requires c > 0
    ensures a < b ==> a * c + c <= b * c
  {
    if a < b {
      MulMonotone(a + 1, b, c);
      assert (a + 1) * c == a * c + c;
    }
  }

  lemma OneSize(g: int, h: int, m: Mask)
    requires IsSizeOf(g, m) && IsSizeOf(h, m)
    ensures g == h
  {
    if m.bits - m.ones < 32 {
      SameProduct(g, h, Pow2(m.ones));
    }
  }

  lemma {:induction false} EntriesAreSized(cidrs: seq<string>, parse: Parser)
    requires ValidParser(parse)
    ensures forall e | e in Entries(cidrs, parse) :: parse(e.cidr).Some? && IsSizeOf(e.hosts, parse(e.cidr).value)
  {
    if cidrs != [] {
      var c := cidrs[|cidrs| - 1];
      EntriesAreSized(cidrs[..|cidrs| - 1], parse);
      if parse(c).Some? {
        HostsAreSizes(parse(c).value);
      }
    }
  }

  /** Every entry that is packed carries the size of its own CIDR. */
  lemma SortedSizes(cidrs: seq<string>, parse: Parser, sortSlice: seq<Entry> -> seq<Entry>, e: Entry)
    requires ValidParser(parse) && SortsDescending(sortSlice) && e in sortSlice(Entries(cidrs, parse))
    ensures parse(e.cidr).Some? && IsSizeOf(e.hosts, parse(e.cidr).value)
  {
    var es := Entries(cidrs, parse);
    assert e in multiset(sortSlice(es));
    assert e in multiset(es);
    EntriesAreSized(cidrs, parse);
  }

  /** `size` gives every valid CIDR its size. */
  ghost predicate GivesSizes(size: string -> int, parse: Parser) {
    forall c: string :: parse(c).Some? ==> IsSizeOf(size(c), parse(c).value)
  }

  function Total(shard: seq<string>, size: string -> int): int {
    if shard == [] then 0 else Total(shard[..|shard| - 1], size) + size(shard[|shard| - 1])
  }

  /** The valid CIDRs in `n` shards, each of them once, no shard with more than `limit` addresses. */
  ghost predicate Distributes(shards: seq<seq<string>>, valid: multiset<string>, n: nat, size: string -> int,
                              limit: int)
  {
    |shards| == n && Together(shards) == valid && forall shard | shard in shards :: Total(shard, size) <= limit
  }

  lemma {:induction false} ShardTotal(es: seq<Entry>, assign: seq<nat>, j: nat, size: string -> int)
    requires |es| == |assign| && forall e | e in es :: e.hosts == size(e.cidr)
    ensures Total(Shard(es, assign, j), size) == Load(es, assign, j)
    decreases |es|
  {
    if es != [] {
      var last := |es| - 1;
      ShardTotal(es[..last], assign[..last], j, size);
      assert es[last] in es;
      var pre := Shard(es[..last], assign[..last], j);
      if assign[last] == j {
        assert (pre + [es[last].cidr])[..|pre|] == pre;
      } else {
        assert pre + [] == pre;
      }
    }
  }

  lemma {:induction false} InSomeShard(shards: seq<seq<string>>, c: string) returns (j: nat)
    requires c in Together(shards)
    ensures j < |shards| && c in shards[j]
  {
    var last := |shards| - 1;
    if c in shards[last] {
      j := last;
    } else {
      j := InSomeShard(shards[..last], c);
    }
  }

  lemma {:induction false} TotalWithout(shard: seq<string>, i: nat, size: string -> int)
    requires i < |shard|
    ensures Total(shard, size) == Total(Without(shard, i), size) + size(shard[i])
    decreases |shard|
  {
    var last := |shard| - 1;
    if i < last {
      TotalWithout(shard[..last], i, size);
      var rest := Without(shard, i);
      assert rest[..|rest| - 1] == Without(shard[..last], i);
    } else {
      assert Without(shard, i) == shard[..last];
    }
  }

  lemma {:induction false} TogetherUpdate(shards: seq<seq<string>>, j: nat, shard: seq<string>, c: string)
    requires j < |shards| && multiset(shards[j]) == multiset{c} + multiset(shard)
    ensures Together(shards) == multiset{c} + Together(shards[j := shard])
    decreases |shards|
  {
    var last := |shards| - 1;
    if j < last {
      TogetherUpdate(shards[..last], j, shard, c);
      assert shards[j := shard][..last] == shards[..last][j := shard];
    } else {
      assert shards[j := shard][..last] == shards[..last];
    }
  }

  lemma {:induction false} AllEmpty(shards: seq<seq<string>>, j: nat)
    requires Together(shards) == multiset{} && j < |shards|
    ensures shards[j] == []
    decreases |shards|
  {
    var last := |shards| - 1;
    assert |Together(shards)| == |Together(shards[..last])| + |shards[last]|;
    if j < last {
      AllEmpty(shards[..last], j);
    }
  }

  /** One block taken out of a distribution. */
  lemma TakeOut(es: seq<Entry>, shards: seq<seq<string>>, size: string -> int) returns (k: nat, rest: seq<string>)
    requires es != [] && Cidrs(es) == Together(shards)
    ensures k < |shards| && Cidrs(es[..|es| - 1]) == Together(shards[k := rest])
    ensures Total(shards[k], size) == Total(rest, size) + size(es[|es| - 1].cidr)
  {
    var pre, c := es[..|es| - 1], es[|es| - 1].cidr;
    assert c in Cidrs(es);
    k := InSomeShard(shards, c);
    var i: nat :| i < |shards[k]| && shards[k][i] == c;
    rest := Without(shards[k], i);
    TogetherUpdate(shards, k, rest, c);
    TotalWithout(shards[k], i, size);
    SameRest(Cidrs(pre), Together(shards[k := rest]), c);
  }

  lemma LoadWith(es: seq<Entry>, b: seq<nat>, k: nat, j: nat)
    requires es != [] && |b| == |es| - 1
    ensures Load(es, b + [k], j) == Load(es[..|es| - 1], b, j) + (if k == j then es[|es| - 1].hosts else 0)
  {
    assert (b + [k])[..|b|] == b;
  }

  /** Any distribution of the CIDRs is an assignment of the entries, with the same totals. */
  lemma {:induction false} AsAssignment(es: seq<Entry>, shards: seq<seq<string>>, size: string -> int)
    returns (b: seq<nat>)
    requires Cidrs(es) == Together(shards) && forall e | e in es :: e.hosts == size(e.cidr)
    ensures IsAssignment(es, b, |shards|)
    ensures forall j: nat | j < |shards| :: Load(es, b, j) == Total(shards[j], size)
    decreases |es|
  {
    b := [];
    if es == [] {
      forall j: nat | j < |shards| ensures Total(shards[j], size) == 0 {
        AllEmpty(shards, j);
      }
    } else {
      var last := |es| - 1;
      assert es[last] in es;
      var k, rest := TakeOut(es, shards, size);
      var pre := shards[k := rest];
      var b' := AsAssignment(es[..last], pre, size);
      b := b' + [k];
      forall j: nat | j < |shards| ensures Load(es, b, j) == Total(shards[j], size) {
        LoadWith(es, b', k, j);
        assert Load(es[..last], b', j) == Total(pre[j], size);
      }
    }
  }

  lemma SameRest(a: multiset<string>, b: multiset<string>, c: string)
    requires a + multiset{c} == multiset{c} + b
    ensures a == b
  {
    assert a == (a + multiset{c}) - multiset{c};
    assert b == (multiset{c} + b) - multiset{c};
  }

  /** What is left of the optimality once the entries are known to carry the sizes of their CIDRs. */
  lemma PackingIsOptimal(es: seq<Entry>, n: nat, size: string -> int, other: seq<seq<string>>, limit: int, j: nat)
    requires j < n && BlockSizes(es) && Descending(es) && forall e | e in es :: e.hosts == size(e.cidr)
    requires limit <= MAX_INT64 && Distributes(other, Cidrs(es), n, size, limit)
    ensures Total(Shard(es, Greedy(es, n).assign, j), size) <= limit
  {
    var b := AsAssignment(es, other, size);
    forall i: nat | i < n ensures Load(es, b, i) <= limit {
      assert other[i] in other;
    }
    assert MaxLoad(es, b, n) <= limit;
    LoadsWithin(es, b, n);
    GreedyIsOptimal(es, n, b);
    ShardTotal(es, Greedy(es, n).assign, j, size);
  }

  /**
   What `DistributeCIDRs` returns for two or more shards and at least one valid CIDR is optimal in
   terms of the sizes of the CIDRs: if the valid CIDRs can be distributed with no shard above some
   limit, then no shard of the result is above that limit. The limit is at most 2^63 - 1, beyond
   which the totals of the code overflow.
   */
  lemma DistributionIsOptimal(cidrs: seq<string>, n: nat, parse: Parser, sortSlice: seq<Entry> -> seq<Entry>,
                              size: string -> int, other: seq<seq<string>>, limit: int)
    requires n > 0 && ValidParser(parse) && SortsDescending(sortSlice) && GivesSizes(size, parse)
    requires limit <= MAX_INT64 && Distributes(other, ValidCidrs(cidrs, parse), n, size, limit)
    ensures var sorted := sortSlice(Entries(cidrs, parse));
      Distributes(Shards(sorted, Greedy(sorted, n).assign, n), ValidCidrs(cidrs, parse), n, size, limit)
  {
    var sorted := sortSlice(Entries(cidrs, parse));
    SortedBlocks(cidrs, parse, sortSlice);
    DistributionIsPartition(cidrs, n, parse, sortSlice);
    CidrsOfSorted(cidrs, parse, sortSlice);
    forall e | e in sorted ensures e.hosts == size(e.cidr) {
      SortedSizes(cidrs, parse, sortSlice, e);
      OneSize(e.hosts, size(e.cidr), parse(e.cidr).value);
    }
    forall j: nat | j < n ensures Total(Shard(sorted, Greedy(sorted, n).assign, j), size) <= limit {
      PackingIsOptimal(sorted, n, size, other, limit, j);
    }
  }

  lemma CidrsOfSorted(cidrs: seq<string>, parse: Parser, sortSlice: seq<Entry> -> seq<Entry>)
    requires ValidParser(parse) && SortsDescending(sortSlice)
    ensures Cidrs(sortSlice(Entries(cidrs, parse))) == ValidCidrs(cidrs, parse)
  {
    CidrsPermute(sortSlice(Entries(cidrs, parse)), Entries(cidrs, parse));
    EntriesAreValid(cidrs, parse);
  }

  // ---- Round the shards ----

  /** Without a valid CIDR, shard `j` gets the strings at `j`, `j + n`, `j + 2 n`, .. in this order. */
  lemma {:induction false} RoundRobinAt(cidrs: seq<string>, n: nat, j: nat, k: nat)
    requires j < n
    ensures k < |RoundRobin(cidrs, n, j)| <==> j + k * n < |cidrs|
    ensures k < |RoundRobin(cidrs, n, j)| ==> RoundRobin(cidrs, n, j)[k] == cidrs[j + k * n]
    decreases |cidrs|
  {
    if cidrs == [] {
      assert k * n >= 0;
    } else {
      var last := |cidrs| - 1;
      var pre := RoundRobin(cidrs[..last], n, j);
      RoundRobinAt(cidrs[..last], n, j, k);
      RoundRobinCount(cidrs[..last], n, j);
      LastTurn(last, n, j, |pre|, k);
    }
  }

  /** The next string for shard `j` would be at this place. */
  lemma {:induction false} RoundRobinCount(cidrs: seq<string>, n: nat, j: nat)
    requires j < n
    ensures var c := |RoundRobin(cidrs, n, j)|; |cidrs| <= j + c * n < |cidrs| + n
  {
    if cidrs != [] {
      var last := |cidrs| - 1;
      RoundRobinCount(cidrs[..last], n, j);
      var c := |RoundRobin(cidrs[..last], n, j)|;
      LastTurn(last, n, j, c, c);
      assert (c + 1) * n == c * n + n;
    }
  }

  /** String `last` goes to shard `j` exactly when it is the next one of that shard. */
  lemma LastTurn(last: nat, n: nat, j: nat, c: nat, k: nat)
    requires j < n && last <= j + c * n < last + n
    ensures last % n == j <==> last == j + c * n
    ensures j + k * n == last ==> k == c
  {
    var d := last / n;
    assert last == d * n + last % n;
    MulGap(d, c, n);
    MulGap(c, d, n);
    MulGap(k, c, n);
    MulGap(c, k, n);
  }
}
