/** Random addresses from CIDR blocks. */
module Expand {
  import opened Common

  newtype Byte = b: int | 0 <= b < 256

  type Address = seq<Byte>

  function Pow256(n: nat): (r: int)
    ensures r >= 1
  {
    if n == 0 then 1 else 256 * Pow256(n - 1)
  }

  /** The number that an address stands for, most significant byte first. */
  function Value(a: Address): (r: int)
    ensures 0 <= r < Pow256(|a|)
  {
    if a == [] then 0 else 256 * Value(a[..|a| - 1]) + a[|a| - 1] as int
  }

  /** A network as `net.ParseCIDR` returns it: 4 or 16 bytes, with the host bits zero. */
  datatype Network = Network(ip: Address, ones: nat) {
    predicate Valid() {
      && (|ip| == 4 || |ip| == 16)
      && ones <= 8 * |ip|
      && Value(ip) % Pow2(HostBits()) == 0
    }

    function HostBits(): nat
      requires ones <= 8 * |ip|
    {
      8 * |ip| - ones
    }

    /** Comparing under the mask is comparing what is above the host bits. */
    predicate Contains(a: Address)
      requires Valid()
    {
      |a| == |ip| && Value(a) / Pow2(HostBits()) == Value(ip) / Pow2(HostBits())
    }

    /** The size that sampling assumes: the block, or 2^16 for larger blocks. */
    function TotalHosts(): (r: int)
      requires ones <= 8 * |ip|
    {
      Pow2(if HostBits() > 16 then 16 else HostBits())
    }
  }

  // ---- Arithmetic ----

  /** Changing the byte at `j` changes the value by its weight. */
  lemma {:induction false} ValueUpdate(a: Address, j: nat, b: Byte)
    requires j < |a|
    ensures Value(a[j := b]) == Value(a) + (b as int - a[j] as int) * Pow256(|a| - 1 - j)
    decreases |a|
  {
    var c, n := a[j := b], |a| - 1;
    if j == n {
      assert c[..n] == a[..n];
      assert Pow256(0) == 1;
    } else {
      ValueUpdate(a[..n], j, b);
      assert c[..n] == a[..n][j := b];
      Horner(Value(a[..n]), b as int - a[j] as int, Pow256(n - 1 - j));
    }
  }

  lemma Horner(v: int, d: int, w: int)
    ensures 256 * (v + d * w) == 256 * v + d * (256 * w)
  {
  }

  lemma {:induction false} Pow256IsPow2(n: nat)
    ensures Pow256(n) == Pow2(8 * n)
  {
    if n > 0 {
      Pow256IsPow2(n - 1);
      Pow2Sum(8, 8 * (n - 1));
      assert Pow2(8) == 256;
    }
  }

  /** Below the next multiple of the block size nothing above the host bits changes. */
  lemma StaysInBlock(base: int, offset: int, size: int, q: int)
    requires size > 0 && base == q * size && 0 <= offset < size
    ensures (base + offset) / size == q
  {
    DivUnique(base + offset, size, q, offset);
  }

  lemma DivUnique(x: int, d: int, q: int, r: int)
    requires d > 0 && x == q * d + r && 0 <= r < d
    ensures x / d == q
  {
    var e := x / d;
    assert x == e * d + x % d;
    if e < q {
      MulMonotone(e + 1, q, d);
    } else if e > q {
      MulMonotone(q + 1, e, d);
    }
  }

  // ---- The code ----

  /**
   Adds with carry, from the last byte; what is carried out of the first byte is lost.
   */
  method AddOffset(ip: array<Byte>, offset0: nat) returns (ghost lost: nat)
    modifies ip
    ensures Value(ip[..]) + lost * Pow256(ip.Length) == Value(old(ip[..])) + offset0
  {
    var j := ip.Length - 1;
    var offset := offset0;
    assert Pow256(0) == 1;
    while j >= 0 && offset > 0
      invariant -1 <= j < ip.Length && offset >= 0
      invariant Value(ip[..]) + offset * Pow256(ip.Length - 1 - j) == Value(old(ip[..])) + offset0
      decreases j
    {
      ghost var before := ip[..];
      var sum := ip[j] as int + offset;
      ip[j] := (sum % 256) as Byte;
      assert ip[..] == before[j := (sum % 256) as Byte];
      AddByte(before, j, offset, (sum % 256) as Byte, sum / 256);
      offset := sum / 256;
      j := j - 1;
    }
    if offset == 0 {
      lost := 0;
    } else {
      lost := offset;
    }
  }

  /** What is added to one byte is there afterwards, in that byte and in the carry. */
  lemma AddByte(a: Address, j: nat, offset: int, b: Byte, carry: int)
    requires j < |a| && a[j] as int + offset == 256 * carry + b as int
    ensures Value(a[j := b]) + carry * Pow256(|a| - j) == Value(a) + offset * Pow256(|a| - 1 - j)
  {
    ValueUpdate(a, j, b);
    CarryStep(Value(a), Value(a[j := b]), a[j] as int, offset, b as int, carry, Pow256(|a| - 1 - j), Pow256(|a| - j));
  }

  lemma CarryStep(v: int, v': int, byte: int, offset: int, b: int, carry: int, w: int, next: int)
    requires v' == v + (b - byte) * w && byte + offset == 256 * carry + b && next == 256 * w
    ensures v' + carry * next == v + offset * w
  {
    calc {
      v' + carry * next;
      v + (b - byte) * w + carry * (256 * w);
      v + (b - byte) * w + (256 * carry) * w;
      v + (b - byte + 256 * carry) * w;
      v + offset * w;
    }
  }

  /** `rand.Intn(totalHosts - 1) + 1` can be any offset from 1 to `totalHosts - 1`. */
  method RandomIPInNetwork(net: Network) returns (a: Option<Address>, ghost offset: int)
    requires net.Valid() && net.TotalHosts() >= 2
    ensures 1 <= offset < net.TotalHosts() <= Pow2(net.HostBits())
    ensures a.Some? && |a.value| == |net.ip| && Value(a.value) == Value(net.ip) + offset
    ensures net.Contains(a.value)
  {
    var n := |net.ip|;
    var ip := new Byte[n](i requires 0 <= i < n => net.ip[i]);
    assert ip[..] == net.ip;
    var chosen: nat :| 1 <= chosen < net.TotalHosts();
    offset := chosen;
    ghost var lost := AddOffset(ip, chosen);
    SumIsInside(net, chosen, ip[..], lost);
    if !net.Contains(ip[..]) {
      return None, offset;
    }
    a := Some(ip[..]);
  }

  lemma NothingLost(value: int, lost: nat, size: int, sum: int)
    requires size > 0 && 0 <= value && value + lost * size == sum && sum < size
    ensures lost == 0
  {
    if lost > 0 {
      MulMonotone(1, lost, size);
    }
  }

  lemma SumIsInside(net: Network, offset: nat, a: Address, lost: nat)
    requires net.Valid() && offset < net.TotalHosts() && |a| == |net.ip|
    requires Value(a) + lost * Pow256(|a|) == Value(net.ip) + offset
    ensures net.TotalHosts() <= Pow2(net.HostBits())
    ensures Value(a) == Value(net.ip) + offset && net.Contains(a)
  {
    BlockFits(net, offset);
    NothingLost(Value(a), lost, Pow256(|a|), Value(net.ip) + offset);
  }

  /** The block ends inside the address space, and the sum stays inside the block. */
  lemma BlockFits(net: Network, offset: int)
    requires net.Valid() && 0 <= offset < net.TotalHosts()
    ensures net.TotalHosts() <= Pow2(net.HostBits())
    ensures Value(net.ip) + offset < Pow256(|net.ip|)
    ensures (Value(net.ip) + offset) / Pow2(net.HostBits()) == Value(net.ip) / Pow2(net.HostBits())
  {
    Pow2Monotone(if net.HostBits() > 16 then 16 else net.HostBits(), net.HostBits());
    Pow256IsPow2(|net.ip|);
    Pow2Sum(net.ones, net.HostBits());
    FitsInSpace(Value(net.ip), offset, Pow2(net.HostBits()), Pow2(net.ones), Pow256(|net.ip|));
  }

  /** The space is a whole number of blocks and the base starts one of them. */
  lemma FitsInSpace(base: int, offset: int, size: int, blocks: int, space: int)
    requires size > 0 && space == blocks * size && 0 <= base < space && base % size == 0
    requires 0 <= offset < size
    ensures base + offset < space && (base + offset) / size == base / size
  {
    var q := base / size;
    assert base == q * size;
    StaysInBlock(base, offset, size, q);
    if q >= blocks {
      MulMonotone(blocks, q, size);
    } else {
      MulMonotone(q + 1, blocks, size);
      Successor(q, size);
    }
  }

  lemma Successor(q: int, d: int)
    ensures (q + 1) * d == q * d + d
  {
  }

  lemma SameBlockIff(base: int, v: int, size: int)
    requires size > 0 && base % size == 0
    ensures v / size == base / size <==> base <= v < base + size
  {
    var q, e := base / size, v / size;
    assert base == q * size && v == e * size + v % size;
    if base <= v < base + size {
      DivUnique(v, size, q, v - base);
    }
  }

  /** The addresses of a network are those from its base to the end of its block. */
  lemma ContainsIff(net: Network, a: Address)
    requires net.Valid() && |a| == |net.ip|
    ensures net.Contains(a) <==> Value(net.ip) <= Value(a) < Value(net.ip) + Pow2(net.HostBits())
  {
    SameBlockIff(Value(net.ip), Value(a), Pow2(net.HostBits()));
  }

  /** The sampled offset leads to the last address of the block. */
  predicate ReachesLast(net: Network, offset: int)
    requires net.Valid()
  {
    1 <= offset < net.TotalHosts() && (Value(net.ip) + offset + 1) % Pow2(net.HostBits()) == 0
  }

  /**
   The comment in the code speaks of skipping the broadcast address. The code can return it unless the
   block is larger than the sample, which starts at the other end.
   */
  lemma BroadcastIsReachable(net: Network)
    requires net.Valid() && net.TotalHosts() >= 2
    ensures (exists offset :: ReachesLast(net, offset)) <==> net.HostBits() <= 16
  {
    var size := Pow2(net.HostBits());
    if net.HostBits() <= 16 {
      NextMultiple(Value(net.ip), size);
      assert ReachesLast(net, size - 1);
    } else {
      Pow2Monotone(17, net.HostBits());
      assert Pow2(17) == 2 * Pow2(16);
      forall offset | 1 <= offset < net.TotalHosts() ensures !ReachesLast(net, offset) {
        NotMultiple(Value(net.ip), offset + 1, size);
      }
    }
  }

  lemma NotMultiple(base: int, step: int, size: int)
    requires size > 0 && base % size == 0 && 0 < step < size
    ensures (base + step) % size != 0
  {
    var q := base / size;
    assert base == q * size;
    DivUnique(base + step, size, q, step);
    assert base + step == (base + step) / size * size + (base + step) % size;
  }

  lemma NextMultiple(base: int, size: int)
    requires size > 0 && base % size == 0
    ensures (base + size) % size == 0
  {
    var q := base / size;
    assert base == q * size;
    Successor(q, size);
    ModZero(q + 1, size);
  }

  lemma ModZero(q: int, d: int)
    requires d > 0
    ensures (q * d) % d == 0
  {
    DivUnique(q * d, d, q, 0);
  }

  /** Whether the loop samples this prefix: it parses and is more than a single address. */
  predicate Sampled(parsed: Option<Network>)
    requires parsed.Some? ==> parsed.value.Valid()
  {
    parsed.Some? && parsed.value.TotalHosts() >= 2
  }

  /** What was drawn for one prefix: addresses of its block, within the sample size, other than the first one. */
  ghost predicate DrawnFrom(draws: seq<Address>, parsed: Option<Network>)
    requires parsed.Some? ==> parsed.value.Valid()
  {
    forall a | a in draws ::
      && Sampled(parsed) && parsed.value.Contains(a)
      && 0 < Value(a) - Value(parsed.value.ip) < parsed.value.TotalHosts()
  }

  function Quota(maxIPs: int, count: nat): nat
    requires count > 0
  {
    if maxIPs / count < 1 then 1 else maxIPs / count
  }

  /** The largest number of addresses for each of `count` prefixes that keeps within `maxIPs`, at least one. */
  predicate IsEvenPart(part: nat, maxIPs: int, count: nat) {
    if maxIPs < count then part == 1 else part * count <= maxIPs < (part + 1) * count
  }

  lemma QuotaIsEvenPart(maxIPs: int, count: nat)
    requires count > 0
    ensures IsEvenPart(Quota(maxIPs, count), maxIPs, count)
  {
    var q := maxIPs / count;
    assert maxIPs == q * count + maxIPs % count;
    Successor(q, count);
    if maxIPs < count && q > 0 {
      MulMonotone(1, q, count);
    } else if maxIPs >= count && q < 1 {
      MulMonotone(q + 1, 1, count);
    }
  }

  function Cap(maxIPs: int): nat {
    if maxIPs < 0 then 0 else maxIPs
  }

  ghost predicate Shown(s: string, drawn: seq<seq<Address>>, show: Address -> string) {
    exists p: nat, a: Address | p < |drawn| :: a in drawn[p] && show(a) == s
  }

  lemma ShownNothing(drawn: seq<seq<Address>>, show: Address -> string)
    ensures forall s :: Shown(s, drawn + [[]], show) <==> Shown(s, drawn, show)
  {
    var more := drawn + [[]];
    forall s | Shown(s, drawn, show) ensures Shown(s, more, show) {
      var p: nat, a: Address :| p < |drawn| && a in drawn[p] && show(a) == s;
      assert a in more[p];
    }
    forall s | Shown(s, more, show) ensures Shown(s, drawn, show) {
      var p: nat, a: Address :| p < |more| && a in more[p] && show(a) == s;
      assert a in drawn[p];
    }
  }

  lemma ShownOneMore(drawn: seq<seq<Address>>, p: nat, ip: Address, show: Address -> string)
    requires p < |drawn|
    ensures forall s :: Shown(s, drawn[p := drawn[p] + [ip]], show) <==> Shown(s, drawn, show) || s == show(ip)
  {
    var more := drawn[p := drawn[p] + [ip]];
    assert ip in more[p];
    forall s | Shown(s, drawn, show) ensures Shown(s, more, show) {
      var k: nat, a: Address :| k < |drawn| && a in drawn[k] && show(a) == s;
      assert a in more[k];
    }
    forall s | Shown(s, more, show) ensures Shown(s, drawn, show) || s == show(ip) {
      var k: nat, a: Address :| k < |more| && a in more[k] && show(a) == s;
      assert a in drawn[k] || a == ip;
    }
  }

  /** The inner loop: up to `target` draws from one block, while the map has room. */
  method Sample(net: Network, target: nat, maxIPs: int, ips0: set<string>, show: Address -> string,
                ghost drawn0: seq<seq<Address>>)
    returns (ips: set<string>, ghost draws: seq<Address>)
    requires net.Valid() && Sampled(Some(net))
    requires |ips0| <= Cap(maxIPs) && forall s :: s in ips0 <==> Shown(s, drawn0, show)
    ensures |ips0| <= |ips| <= Cap(maxIPs) && forall s :: s in ips <==> Shown(s, drawn0 + [draws], show)
    ensures DrawnFrom(draws, Some(net))
    ensures |draws| <= target && (|draws| == target || |ips| >= maxIPs)
  {
    ips := ips0;
    draws := [];
    ShownNothing(drawn0, show);
    var i := 0;
    while i < target && |ips| < maxIPs
      invariant 0 <= i <= target && |draws| == i && |ips0| <= |ips| <= Cap(maxIPs)
      invariant DrawnFrom(draws, Some(net))
      invariant forall s :: s in ips <==> Shown(s, drawn0 + [draws], show)
    {
      var ip, offset := RandomIPInNetwork(net);
      if ip.Some? {
        SubsetNotLarger(ips, ips + {show(ip.value)});
        ips := ips + {show(ip.value)};
        ShownOneMore(drawn0 + [draws], |drawn0|, ip.value, show);
        assert (drawn0 + [draws])[|drawn0| := draws + [ip.value]] == drawn0 + [draws + [ip.value]];
        draws := draws + [ip.value];
      }
      i := i + 1;
    }
  }

  /** The keys of the map, in any order. */
  method Keys(ips: set<string>) returns (result: seq<string>)
    ensures IsOrderOf(result, ips) && |result| == |ips|
  {
    result := [];
    var rest := ips;
    while rest != {}
      invariant rest <= ips && NoDuplicates(result) && |result| + |rest| == |ips|
      invariant forall a :: a in result <==> a in ips && a !in rest
      decreases |rest|
    {
      var a :| a in rest;
      rest := rest - {a};
      result := result + [a];
    }
  }

  /** Every prefix that is sampled was drawn from `target` times, unless the cap was reached. */
  ghost predicate AllSampled(prefixes: seq<string>, drawn: seq<seq<Address>>, target: nat, full: bool,
                             parse: string -> Option<Network>)
    requires forall c :: parse(c).Some? ==> parse(c).value.Valid()
    requires |drawn| <= |prefixes|
  {
    forall p: nat | p < |drawn| ::
      && DrawnFrom(drawn[p], parse(prefixes[p]))
      && |drawn[p]| <= target
      && (Sampled(parse(prefixes[p])) ==> |drawn[p]| == target || full)
  }

  lemma OneMoreSampled(prefixes: seq<string>, drawn: seq<seq<Address>>, draws: seq<Address>, target: nat,
                       full0: bool, full: bool, parse: string -> Option<Network>)
    requires forall c :: parse(c).Some? ==> parse(c).value.Valid()
    requires |drawn| < |prefixes| && (full0 ==> full)
    requires AllSampled(prefixes, drawn, target, full0, parse)
    requires DrawnFrom(draws, parse(prefixes[|drawn|])) && |draws| <= target
    requires Sampled(parse(prefixes[|drawn|])) ==> |draws| == target || full
    ensures AllSampled(prefixes, drawn + [draws], target, full, parse)
  {
    var more := drawn + [draws];
    forall p: nat | p < |more|
      ensures DrawnFrom(more[p], parse(prefixes[p])) && |more[p]| <= target
      ensures Sampled(parse(prefixes[p])) ==> |more[p]| == target || full
    {
      assert p < |drawn| ==> more[p] == drawn[p];
    }
  }

  /**
   Draws for every prefix in turn. The map is keyed by the text of an address, so equal texts merge.
   `drawn` records the addresses drawn for each prefix.
   */
  method ExpandCIDR(prefixes: seq<string>, maxIPs: int, parse: string -> Option<Network>, show: Address -> string)
    returns (result: seq<string>, ghost drawn: seq<seq<Address>>)
    requires forall c :: parse(c).Some? ==> parse(c).value.Valid()
    ensures |drawn| == |prefixes|
    ensures prefixes != [] ==> IsEvenPart(Quota(maxIPs, |prefixes|), maxIPs, |prefixes|)
    ensures prefixes != [] ==> AllSampled(prefixes, drawn, Quota(maxIPs, |prefixes|), |result| >= maxIPs, parse)
    ensures NoDuplicates(result) && forall s :: s in result <==> Shown(s, drawn, show)
    ensures |result| <= Cap(maxIPs)
  {
    drawn := [];
    if |prefixes| == 0 {
      return [], drawn;
    }
    QuotaIsEvenPart(maxIPs, |prefixes|);
    var target := maxIPs / |prefixes|;
    if target < 1 {
      target := 1;
    }
    var ips: set<string> := {};
    for p := 0 to |prefixes|
      invariant |drawn| == p && |ips| <= Cap(maxIPs)
      invariant AllSampled(prefixes, drawn, target, |ips| >= maxIPs, parse)
      invariant forall s :: s in ips <==> Shown(s, drawn, show)
    {
      ghost var draws: seq<Address>, ips0 := [], ips;
      var parsed := parse(prefixes[p]);
      if parsed.None? {
        ShownNothing(drawn, show);
      } else if parsed.value.TotalHosts() < 2 {
        ShownNothing(drawn, show);
      } else {
        ips, draws := Sample(parsed.value, target, maxIPs, ips, show, drawn);
      }
      OneMoreSampled(prefixes, drawn, draws, target, |ips0| >= maxIPs, |ips| >= maxIPs, parse);
      drawn := drawn + [draws];
    }
    result := Keys(ips);
  }
}
