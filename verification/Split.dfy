/** How the v2 master cuts the CIDR list into one chunk per worker, weighted by scan rate. */
module Split {
  import opened Common

  function Sum(rates: seq<nat>): nat {
    if rates == [] then 0 else Sum(rates[..|rates| - 1]) + rates[|rates| - 1]
  }

  /** All-zero rates stand for equal ones. */
  function Weights(rates: seq<nat>): (r: seq<nat>)
    ensures |r| == |rates|
  {
    if Sum(rates) == 0 then seq(|rates|, _ => 1) else rates
  }

  function Share(count: nat, rate: nat, total: nat): nat
    requires total > 0
  {
    count * rate / total
  }

  function AtLeastOne(x: int): nat {
    if x < 1 then 1 else x
  }

  function Capped(x: nat, limit: nat): nat {
    if x > limit then limit else x
  }

  /** Where the chunk of worker `i` begins; the last chunk ends at `Start(.., n)`. */
  function Start(count: nat, weights: seq<nat>, total: nat, i: nat): (r: nat)
    requires total > 0 && i <= |weights|
    ensures r <= count
  {
    if i == 0 then 0
    else
      var begin := Start(count, weights, total, i - 1);
      var chunk := if i == |weights| then count - begin else Share(count, weights[i - 1], total);
      Capped(begin + AtLeastOne(chunk), count)
  }

  lemma {:induction false} OnesSum(n: nat)
    ensures Sum(seq(n, _ => 1)) == n
  {
    if n > 0 {
      var s: seq<nat> := seq(n, _ => 1);
      var p: seq<nat> := seq(n - 1, _ => 1);
      assert s[..n - 1] == p;
      OnesSum(n - 1);
    }
  }

  /** `chunk` is what lies between the start of worker `i` and the start of the next one. */
  ghost predicate IsChunk(chunk: seq<string>, cidrs: seq<string>, w: seq<nat>, total: nat, i: nat)
    requires total > 0 && i < |w|
  {
    var begin, end := Start(|cidrs|, w, total, i), Start(|cidrs|, w, total, i + 1);
    begin <= end && chunk == cidrs[begin..end]
  }

  ghost predicate IsSplit(chunks: seq<seq<string>>, cidrs: seq<string>, w: seq<nat>)
    requires Sum(w) > 0
  {
    |chunks| <= |w| && forall i: nat | i < |chunks| :: IsChunk(chunks[i], cidrs, w, Sum(w), i)
  }

  function Concat(chunks: seq<seq<string>>): seq<string> {
    if chunks == [] then [] else Concat(chunks[..|chunks| - 1]) + chunks[|chunks| - 1]
  }

  /** Every chunk before the last one has its part of `count` by rate, at least one CIDR, or what is left. */
  ghost predicate SharedOut(chunks: seq<seq<string>>, count: nat, rates: seq<nat>, total: nat)
    requires |chunks| == |rates| && total > 0
  {
    forall i: nat | i < |chunks| - 1 ::
      var fair := if count * rates[i] < total then 1 else count * rates[i] / total;
      var left := count - |Concat(chunks[..i])|;
      |chunks[i]| == if fair <= left then fair else left
  }

  /**
   For `count` CIDRs, n workers, total rate R and the last rate r: the last chunk is at most its part
   count*r/R plus the rounding of the others, and at least its part if no earlier part is below one.
   */
  ghost predicate LastIsFair(chunks: seq<seq<string>>, count: nat, rates: seq<nat>, total: nat)
    requires |chunks| == |rates| && chunks != []
  {
    var n := |chunks|;
    && total * |chunks[n - 1]| <= count * rates[n - 1] + (n - 1) * (total - 1)
    && ((forall i | 0 <= i < n - 1 :: count * rates[i] >= total) ==> total * |chunks[n - 1]| >= count * rates[n - 1])
  }

  method TotalRate(rates: seq<nat>) returns (weights: seq<nat>, totalRate: nat)
    requires rates != []
    ensures weights == Weights(rates) && totalRate == Sum(weights) > 0
  {
    var n := |rates|;
    weights := rates;
    totalRate := 0;
    for i := 0 to n
      invariant totalRate == Sum(rates[..i])
    {
      assert rates[..i + 1][..i] == rates[..i];
      totalRate := totalRate + rates[i];
    }
    assert rates[..n] == rates;
    if totalRate == 0 {
      totalRate := n;
      weights := seq(n, _ => 1);
      OnesSum(n);
    }
  }

  /** The last worker takes the remainder; every other one its share, at least one, while there are CIDRs. */
  method SplitByRate(cidrs: seq<string>, rates: seq<nat>) returns (chunks: seq<seq<string>>)
    requires rates != []
    ensures Sum(Weights(rates)) > 0 && |chunks| == |rates|
    ensures IsSplit(chunks, cidrs, Weights(rates))
    ensures Concat(chunks) == cidrs
    ensures Sum(rates) > 0 ==>
              && SharedOut(chunks, |cidrs|, rates, Sum(rates))
              && LastIsFair(chunks, |cidrs|, rates, Sum(rates))
    ensures Sum(rates) == 0 ==>
              && SharedOut(chunks, |cidrs|, seq(|rates|, _ => 1), |rates|)
              && LastIsFair(chunks, |cidrs|, seq(|rates|, _ => 1), |rates|)
  {
    var n := |rates|;
    var weights, totalRate := TotalRate(rates);
    chunks := [];
    var offset := 0;
    for i := 0 to n
      invariant |chunks| == i && offset == Start(|cidrs|, weights, totalRate, i)
      invariant IsSplit(chunks, cidrs, weights)
    {
      var chunk := |cidrs| * weights[i] / totalRate;
      if i == n - 1 {
        chunk := |cidrs| - offset;
      }
      if chunk < 1 {
        chunk := 1;
      }
      var end := offset + chunk;
      if end > |cidrs| {
        end := |cidrs|;
      }
      chunks := chunks + [cidrs[offset..end]];
      StartNext(|cidrs|, weights, totalRate, i, offset, chunk, end);
      offset := end;
    }
    ChunksPartition(cidrs, rates, chunks);
    SplitShares(cidrs, weights, chunks);
    LastShare(cidrs, weights, chunks);
    OnesSum(n);
  }

  lemma StartNext(count: nat, w: seq<nat>, total: nat, i: nat, offset: nat, chunk: nat, end: nat)
    requires total > 0 && i < |w| && offset == Start(count, w, total, i)
    requires chunk == AtLeastOne(if i == |w| - 1 then count - offset else Share(count, w[i], total))
    requires end == Capped(offset + chunk, count)
    ensures Start(count, w, total, i + 1) == end && offset <= end
    ensures offset < count ==> offset < end
  {
  }

  lemma {:induction false} ConcatUpTo(cidrs: seq<string>, w: seq<nat>, chunks: seq<seq<string>>, k: nat)
    requires Sum(w) > 0 && IsSplit(chunks, cidrs, w) && k <= |chunks|
    ensures Concat(chunks[..k]) == cidrs[..Start(|cidrs|, w, Sum(w), k)]
  {
    if k > 0 {
      ConcatUpTo(cidrs, w, chunks, k - 1);
      assert chunks[..k][..k - 1] == chunks[..k - 1];
      assert IsChunk(chunks[k - 1], cidrs, w, Sum(w), k - 1);
    }
  }

  /** The last chunk ends where the list ends. */
  lemma StartLast(count: nat, w: seq<nat>, total: nat)
    requires total > 0 && w != []
    ensures Start(count, w, total, |w|) == count
  {
    var begin := Start(count, w, total, |w| - 1);
    assert Start(count, w, total, |w|) == Capped(begin + AtLeastOne(count - begin), count);
  }

  /** The chunks, one after another, are the whole list: nothing is lost, doubled or moved. */
  lemma ChunksPartition(cidrs: seq<string>, rates: seq<nat>, chunks: seq<seq<string>>)
    requires rates != [] && Sum(Weights(rates)) > 0 && |chunks| == |rates|
    requires IsSplit(chunks, cidrs, Weights(rates))
    ensures Concat(chunks) == cidrs
  {
    var w := Weights(rates);
    ConcatUpTo(cidrs, w, chunks, |w|);
    StartLast(|cidrs|, w, Sum(w));
    assert chunks[..|w|] == chunks && cidrs[..|cidrs|] == cidrs;
  }

  /** So each chunk but the last has its part. */
  lemma SplitShares(cidrs: seq<string>, w: seq<nat>, chunks: seq<seq<string>>)
    requires Sum(w) > 0 && |chunks| == |w| && IsSplit(chunks, cidrs, w)
    ensures SharedOut(chunks, |cidrs|, w, Sum(w))
  {
    forall i: nat | i < |chunks| - 1
      ensures var fair := if |cidrs| * w[i] < Sum(w) then 1 else |cidrs| * w[i] / Sum(w);
        var left := |cidrs| - |Concat(chunks[..i])|;
        |chunks[i]| == if fair <= left then fair else left
    {
      ConcatUpTo(cidrs, w, chunks, i);
      assert IsChunk(chunks[i], cidrs, w, Sum(w), i);
      AtLeastOneShare(|cidrs|, w[i], Sum(w));
    }
  }

  lemma AtLeastOneShare(count: nat, rate: nat, total: nat)
    requires total > 0
    ensures AtLeastOne(Share(count, rate, total)) == if count * rate < total then 1 else count * rate / total
    ensures Share(count, rate, total) >= 1 <==> count * rate >= total
  {
  }

  // ---- The last worker gets what is left: how much can that be? ----

  lemma SumPrefix(w: seq<nat>, i: nat)
    requires i < |w|
    ensures Sum(w[..i + 1]) == Sum(w[..i]) + w[i]
  {
    assert w[..i + 1][..i] == w[..i];
  }

  lemma {:induction false} SumPrefixAtMost(w: seq<nat>, i: nat)
    requires i <= |w|
    ensures Sum(w[..i]) <= Sum(w)
    decreases |w| - i
  {
    if i == |w| {
      assert w[..i] == w;
    } else {
      SumPrefix(w, i);
      SumPrefixAtMost(w, i + 1);
    }
  }

  lemma ShareBounds(count: nat, rate: nat, total: nat)
    requires total > 0
    ensures count * rate - (total - 1) <= total * Share(count, rate, total) <= count * rate
  {
  }

  /** What is left before worker `i`, against its fair part: rounding costs at most R - 1 per worker. */
  lemma {:induction false} LeftAtMost(count: nat, w: seq<nat>, i: nat)
    requires Sum(w) > 0 && i < |w|
    ensures Sum(w) * (count - Start(count, w, Sum(w), i)) <= count * (Sum(w) - Sum(w[..i])) + i * (Sum(w) - 1)
  {
    var total := Sum(w);
    if i == 0 {
      assert w[..0] == [];
    } else {
      LeftAtMost(count, w, i - 1);
      SumPrefix(w, i - 1);
      SumPrefixAtMost(w, i);
      var begin, end := Start(count, w, total, i - 1), Start(count, w, total, i);
      var share := Share(count, w[i - 1], total);
      ShareBounds(count, w[i - 1], total);
      assert end == Capped(begin + AtLeastOne(share), count);
      LeftAtMostStep(count, total, w[i - 1], total - Sum(w[..i]), share, begin, end, i);
    }
  }

  /** One worker's step of `LeftAtMost`: `rest` is the rate of the workers from `i` on. */
  lemma LeftAtMostStep(count: nat, total: int, rate: nat, rest: nat, share: nat, begin: nat, end: nat, i: nat)
    requires total > 0 && i > 0 && begin <= count
    requires end == Capped(begin + AtLeastOne(share), count)
    requires count * rate - (total - 1) <= total * share
    requires total * (count - begin) <= count * (rest + rate) + (i - 1) * (total - 1)
    ensures total * (count - end) <= count * rest + i * (total - 1)
  {
    assert count * (rest + rate) == count * rest + count * rate;
    Distribute(total - 1, i, 1);
    if end == count {
      Product(count, rest);
      Product(i, total - 1);
    } else {
      MulMonotone(share, end - begin, total);
      Distribute(total, count - begin, end - begin);
      assert count - begin - (end - begin) == count - end;
    }
  }

  lemma Product(a: nat, b: nat)
    ensures a * b >= 0
  {
  }

  lemma Distribute(a: int, b: int, c: int)
    ensures a * (b - c) == a * b - a * c
  {
  }

  /** If every earlier worker has a share of at least one, at least the fair part is left. */
  lemma {:induction false} LeftAtLeast(count: nat, w: seq<nat>, i: nat)
    requires Sum(w) > 0 && i < |w|
    requires forall k | 0 <= k < i :: Share(count, w[k], Sum(w)) >= 1
    ensures Sum(w) * (count - Start(count, w, Sum(w), i)) >= count * (Sum(w) - Sum(w[..i]))
  {
    var total := Sum(w);
    if i == 0 {
      assert w[..0] == [];
    } else {
      LeftAtLeast(count, w, i - 1);
      SumPrefix(w, i - 1);
      SumPrefixAtMost(w, i);
      var begin, end := Start(count, w, total, i - 1), Start(count, w, total, i);
      var share := Share(count, w[i - 1], total);
      ShareBounds(count, w[i - 1], total);
      assert end == Capped(begin + AtLeastOne(share), count);
      LeftAtLeastStep(count, total, w[i - 1], total - Sum(w[..i]), share, begin, end);
    }
  }

  lemma LeftAtLeastStep(count: nat, total: nat, rate: nat, rest: nat, share: nat, begin: nat, end: nat)
    requires share >= 1 && begin <= count && end == Capped(begin + AtLeastOne(share), count)
    requires total * share <= count * rate
    requires total * (count - begin) >= count * (rest + rate)
    ensures total * (count - end) >= count * rest
  {
    assert count * (rest + rate) == count * rest + count * rate;
    Distribute(total, count - begin, share);
    MulMonotone(count - begin - share, count - end, total);
  }

  /**
   With L CIDRs, n workers, total rate R and the last worker's rate r, the last chunk is at most its
   fair part L*r/R plus the rounding of the others, and at least its fair part when no earlier chunk
   had to be rounded up to one.
   */
  lemma LastChunk(count: nat, w: seq<nat>)
    requires w != [] && Sum(w) > 0
    ensures var n := |w|; var last := count - Start(count, w, Sum(w), n - 1);
      && Sum(w) * last <= count * w[n - 1] + (n - 1) * (Sum(w) - 1)
      && ((forall k | 0 <= k < n - 1 :: Share(count, w[k], Sum(w)) >= 1) ==> Sum(w) * last >= count * w[n - 1])
  {
    var n := |w|;
    assert Sum(w) - Sum(w[..n - 1]) == w[n - 1];
    LeftAtMost(count, w, n - 1);
    if forall k | 0 <= k < n - 1 :: Share(count, w[k], Sum(w)) >= 1 {
      LeftAtLeast(count, w, n - 1);
    }
  }

  /** The bounds of `LastChunk`, for the last of the chunks and in terms of the rates. */
  lemma LastShare(cidrs: seq<string>, w: seq<nat>, chunks: seq<seq<string>>)
    requires w != [] && Sum(w) > 0 && |chunks| == |w| && IsSplit(chunks, cidrs, w)
    ensures LastIsFair(chunks, |cidrs|, w, Sum(w))
  {
    var n := |w|;
    assert IsChunk(chunks[n - 1], cidrs, w, Sum(w), n - 1);
    StartLast(|cidrs|, w, Sum(w));
    LastChunk(|cidrs|, w);
    forall i | 0 <= i < n - 1
      ensures Share(|cidrs|, w[i], Sum(w)) >= 1 <==> |cidrs| * w[i] >= Sum(w)
    {
      AtLeastOneShare(|cidrs|, w[i], Sum(w));
    }
  }

  /** What the first `i` workers would take if there were enough CIDRs. */
  function Taken(count: nat, w: seq<nat>, total: nat, i: nat): nat
    requires total > 0 && i <= |w|
  {
    if i == 0 then 0 else Taken(count, w, total, i - 1) + AtLeastOne(Share(count, w[i - 1], total))
  }

  lemma {:induction false} StartIsTaken(count: nat, w: seq<nat>, total: nat, i: nat)
    requires total > 0 && i < |w|
    ensures Start(count, w, total, i) == Capped(Taken(count, w, total, i), count)
  {
    if i > 0 {
      StartIsTaken(count, w, total, i - 1);
      var begin, share := Start(count, w, total, i - 1), Share(count, w[i - 1], total);
      assert Start(count, w, total, i) == Capped(begin + AtLeastOne(share), count);
    }
  }

  /** A worker gets a CIDR exactly when the shares of the workers before it, each at least one, leave some. */
  lemma WorkerGetsSomethingIff(count: nat, w: seq<nat>, total: nat, i: nat)
    requires total > 0 && i < |w|
    ensures Start(count, w, total, i) < Start(count, w, total, i + 1) <==> Taken(count, w, total, i) < count
  {
    StartIsTaken(count, w, total, i);
    var begin := Start(count, w, total, i);
    var chunk := AtLeastOne(if i == |w| - 1 then count - begin else Share(count, w[i], total));
    StartNext(count, w, total, i, begin, chunk, Capped(begin + chunk, count));
  }

  /** So rounding up to one can starve the last worker: three equal workers and two CIDRs. */
  lemma LastCanStarve()
    ensures Taken(2, [1, 1, 1], 3, 2) == 2 && Start(2, [1, 1, 1], 3, 2) == Start(2, [1, 1, 1], 3, 3) == 2
  {
    assert Taken(2, [1, 1, 1], 3, 1) == 1;
    StartIsTaken(2, [1, 1, 1], 3, 2);
    WorkerGetsSomethingIff(2, [1, 1, 1], 3, 2);
  }
}
