/**
 `DistributeCIDRs`: CIDR blocks are packed into shards, largest first, each into the shard with the
 smallest total so far. Block sizes are powers of two, which makes this greedy packing optimal.
 */
module Allocator {
  import opened Common

  const MAX_INT64 := 0x7FFF_FFFF_FFFF_FFFF
  const TWO_64 := 0x1_0000_0000_0000_0000

  /** Go's int64 addition. */
  function AddInt64(a: int, b: int): (r: int) {
    var sum := (a + b) % TWO_64;
    if sum > MAX_INT64 then sum - TWO_64 else sum
  }

  /** What `net.ParseCIDR` says of a mask: `ones` leading ones among `bits` bits. */
  datatype Mask = Mask(ones: nat, bits: nat)

  type Parser = string -> Option<Mask>

  datatype Entry = Entry(cidr: string, hosts: int)

  /** The number of addresses of a block, capped for blocks of 2^32 addresses and more. */
  function Hosts(m: Mask): (r: int)
    requires m.ones <= m.bits
  {
    if m.bits - m.ones >= 32 then MAX_INT64 else Pow2(m.bits - m.ones)
  }

  /** The parser hands out real masks. */
  ghost predicate ValidParser(parse: Parser) {
    forall c: string :: parse(c).Some? ==> parse(c).value.ones <= parse(c).value.bits
  }

  function Entries(cidrs: seq<string>, parse: Parser): seq<Entry>
    requires ValidParser(parse)
  {
    if cidrs == [] then []
    else
      var c := cidrs[|cidrs| - 1];
      Entries(cidrs[..|cidrs| - 1], parse) + (if parse(c).Some? then [Entry(c, Hosts(parse(c).value))] else [])
  }

  ghost predicate Descending(es: seq<Entry>) {
    forall i, j | 0 <= i < j < |es| :: es[i].hosts >= es[j].hosts
  }

  /** What `sort.Slice` promises here: the same entries in descending order, equal ones in any order. */
  ghost predicate SortsDescending(sortSlice: seq<Entry> -> seq<Entry>) {
    forall es: seq<Entry> :: Descending(sortSlice(es)) && multiset(sortSlice(es)) == multiset(es)
  }

  // ---- The greedy choice, as a function ----

  /** The first index with the smallest total. */
  function ArgMin(totals: seq<int>): (r: nat)
    requires totals != []
    ensures r < |totals|
    ensures forall i | 0 <= i < |totals| :: totals[r] <= totals[i]
    ensures forall i | 0 <= i < r :: totals[r] < totals[i]
  {
    if |totals| == 1 then 0
    else
      var m := ArgMin(totals[..|totals| - 1]);
      if totals[|totals| - 1] < totals[m] then |totals| - 1 else m
  }

  /** The shard that each entry goes to, and the running int64 totals. */
  datatype Packing = Packing(assign: seq<nat>, totals: seq<int>)

  function Greedy(es: seq<Entry>, n: nat): (p: Packing)
    requires n > 0
    ensures |p.assign| == |es| && |p.totals| == n
    ensures forall i | 0 <= i < |es| :: p.assign[i] < n
  {
    if es == [] then Packing([], seq(n, _ => 0))
    else
      var p := Greedy(es[..|es| - 1], n);
      var m := ArgMin(p.totals);
      Packing(p.assign + [m], p.totals[m := AddInt64(p.totals[m], es[|es| - 1].hosts)])
  }

  /** The CIDRs of the entries that `assign` sends to shard `j`, in order. */
  function Shard(es: seq<Entry>, assign: seq<nat>, j: nat): seq<string>
    requires |es| == |assign|
  {
    if es == [] then []
    else
      var last := |es| - 1;
      Shard(es[..last], assign[..last], j) + (if assign[last] == j then [es[last].cidr] else [])
  }

  function Shards(es: seq<Entry>, assign: seq<nat>, n: nat): seq<seq<string>>
    requires |es| == |assign|
  {
    seq(n, j requires 0 <= j < n => Shard(es, assign, j))
  }

  /** When no CIDR can be parsed: the raw strings, one after another round the shards. */
  function RoundRobin(cidrs: seq<string>, n: nat, j: nat): seq<string>
    requires j < n
  {
    if cidrs == [] then []
    else
      var last := |cidrs| - 1;
      RoundRobin(cidrs[..last], n, j) + (if last % n == j then [cidrs[last]] else [])
  }

  // ---- The code ----

  method ParseEntries(cidrs: seq<string>, parse: Parser) returns (entries: seq<Entry>)
    requires ValidParser(parse)
    ensures entries == Entries(cidrs, parse)
  {
    entries := [];
    for i := 0 to |cidrs|
      invariant entries == Entries(cidrs[..i], parse)
    {
      assert cidrs[..i + 1][..i] == cidrs[..i];
      var m := parse(cidrs[i]);
      if m.None? {
        continue;
      }
      var hosts := if m.value.bits - m.value.ones >= 32 then MAX_INT64 else Pow2(m.value.bits - m.value.ones);
      entries := entries + [Entry(cidrs[i], hosts)];
    }
    assert cidrs[..|cidrs|] == cidrs;
  }

  method SpreadRaw(cidrs: seq<string>, shards: array<seq<string>>)
    requires shards.Length > 0 && forall j | 0 <= j < shards.Length :: shards[j] == []
    modifies shards
    ensures forall j | 0 <= j < shards.Length :: shards[j] == RoundRobin(cidrs, shards.Length, j)
  {
    var n := shards.Length;
    for i := 0 to |cidrs|
      invariant forall j | 0 <= j < n :: shards[j] == RoundRobin(cidrs[..i], n, j)
    {
      assert cidrs[..i + 1][..i] == cidrs[..i];
      shards[i % n] := shards[i % n] + [cidrs[i]];
    }
    assert cidrs[..|cidrs|] == cidrs;
  }

  method SmallestTotal(totals: array<int>) returns (minIdx: nat)
    requires totals.Length > 0
    ensures minIdx == ArgMin(totals[..])
  {
    minIdx := 0;
    for i := 1 to totals.Length
      invariant minIdx < i && minIdx == ArgMin(totals[..i])
    {
      assert totals[..i + 1][..i] == totals[..i];
      if totals[i] < totals[minIdx] {
        minIdx := i;
      }
    }
    assert totals[..totals.Length] == totals[..];
  }

  method Pack(entries: seq<Entry>, shards: array<seq<string>>)
    requires shards.Length > 0 && forall j | 0 <= j < shards.Length :: shards[j] == []
    modifies shards
    ensures shards[..] == Shards(entries, Greedy(entries, shards.Length).assign, shards.Length)
  {
    var n := shards.Length;
    var totals := new int[n](_ => 0);
    assert totals[..] == seq(n, _ => 0);
    for k := 0 to |entries|
      invariant totals.Length == n
      invariant totals[..] == Greedy(entries[..k], n).totals
      invariant forall j | 0 <= j < n :: shards[j] == Shard(entries[..k], Greedy(entries[..k], n).assign, j)
    {
      var e := entries[k];
      var minIdx := SmallestTotal(totals);
      assert entries[..k + 1][..k] == entries[..k];
      ghost var before := Greedy(entries[..k], n);
      ghost var after := Greedy(entries[..k + 1], n);
      assert after.assign[..k] == before.assign;
      shards[minIdx] := shards[minIdx] + [e.cidr];
      totals[minIdx] := AddInt64(totals[minIdx], e.hosts);
    }
    assert entries[..|entries|] == entries;
  }

  method DistributeCIDRs(cidrs: seq<string>, shardCount: int, parse: Parser, sortSlice: seq<Entry> -> seq<Entry>)
    returns (shards: seq<seq<string>>)
    requires ValidParser(parse) && SortsDescending(sortSlice)
    ensures shardCount <= 1 ==> shards == [cidrs]
    ensures shardCount > 1 && Entries(cidrs, parse) == [] ==>
              shards == seq(shardCount, j requires 0 <= j < shardCount => RoundRobin(cidrs, shardCount, j))
    ensures shardCount > 1 && Entries(cidrs, parse) != [] ==>
              var sorted := sortSlice(Entries(cidrs, parse));
              shards == Shards(sorted, Greedy(sorted, shardCount).assign, shardCount)
  {
    if shardCount <= 1 {
      return [cidrs];
    }
    var entries := ParseEntries(cidrs, parse);
    var out := new seq<string>[shardCount](_ => []);
    if |entries| == 0 {
      SpreadRaw(cidrs, out);
      return out[..];
    }
    entries := sortSlice(entries);
    Pack(entries, out);
    return out[..];
  }
}
