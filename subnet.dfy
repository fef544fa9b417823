/**
  IPv4 addresses and networks in prefix notation (section 3.1 of RFC 4632),
  as the controller's `is_in_network` uses them through Python's `ipaddress`
  module with `strict=False`.
 */
module Subnet {
  import opened Wrappers

  /** A 32-bit IPv4 address, as the unsigned integer the dotted quad denotes. */
  type Addr = x: int | 0 <= x < 0x1_0000_0000

  /** The address written `a.b.c.d`. */
  function Dotted(a: nat, b: nat, c: nat, d: nat): (r: Addr)
    requires a < 256 && b < 256 && c < 256 && d < 256
    ensures r / 0x100_0000 == a
    ensures r % 0x100_0000 / 0x1_0000 == b
    ensures r % 0x1_0000 / 256 == c
    ensures r % 256 == d
  {
    var low := c * 256 + d;
    var mid := b * 0x1_0000 + low;
    SplitAt(c, d, 256);
    SplitAt(b, low, 0x1_0000);
    SplitAt(a, mid, 0x100_0000);
    DivModOfSum(mid, 0x1_0000, a * 0x100);
    DivModOfSum(low, 256, a * 0x1_0000 + b * 0x100);
    a * 0x100_0000 + mid
  }

  /** `q * s + rest` with `0 <= rest < s` divides back into `q` and `rest`. */
  lemma SplitAt(q: nat, rest: nat, s: nat)
    requires rest < s
    ensures (q * s + rest) / s == q && (q * s + rest) % s == rest
  {
    DivUnique(q * s + rest, s, q);
  }

  /** Adding a multiple of `s` leaves the remainder modulo `s` alone. */
  lemma DivModOfSum(x: nat, s: nat, k: nat)
    requires s > 0
    ensures (k * s + x) % s == x % s
  {
    var q := x / s;
    SplitAt(k + q, x % s, s);
    assert k * s + x == (k + q) * s + x % s;
  }

  function Pow2(n: nat): (r: nat)
    ensures r >= 1
  {
    if n == 0 then 1 else 2 * Pow2(n - 1)
  }

  /**
    A network `base/prefixLen`. With `strict=False` the base may have host bits
    set; they are ignored. A prefix length above 32 is what makes `ipaddress`
    raise `ValueError` for the network.
   */
  datatype Cidr = Cidr(base: Addr, prefixLen: nat) {

    predicate WellFormed() {
      prefixLen <= 32
    }

    /** The number of addresses in the block. */
    function BlockSize(): (r: nat)
      requires WellFormed()
      ensures r >= 1
    {
      Pow2(32 - prefixLen)
    }

    /** The network address: the base with its host bits cleared. */
    function First(): int
      requires WellFormed()
    {
      base - base % BlockSize()
    }
  }

  /** `a` lies in the network: it agrees with the base on the leading `prefixLen` bits. */
  predicate Contains(net: Cidr, a: Addr)
    requires net.WellFormed()
  {
    a / net.BlockSize() == net.base / net.BlockSize()
  }

  /**
    `is_in_network(ip, network_cidr)`: an address that does not parse
    (`None`), a network that does not parse or a prefix longer than 32 bits
    is the `ValueError` path and answers false.
   */
  function IsInNetwork(ip: Option<Addr>, network: Option<Cidr>): (r: bool)
    ensures ip.None? ==> !r
    ensures network.None? ==> !r
    ensures network.Some? && !network.value.WellFormed() ==> !r
  {
    match (ip, network)
    case (Some(a), Some(net)) => net.WellFormed() && Contains(net, a)
    case _ => false
  }

  lemma MulMono(x: int, y: int, s: nat)
    requires x <= y
    ensures x * s <= y * s
  {
    if s > 0 {
      MulMono(x, y, s - 1);
      assert x * s == x * (s - 1) + x;
      assert y * s == y * (s - 1) + y;
    }
  }

  lemma DivUnique(a: int, s: int, q: int)
    requires s > 0
    ensures a / s == q <==> q * s <= a < q * s + s
  {
    var q' := a / s;
    assert q' * s <= a < q' * s + s;
    if q' < q {
      MulMono(q' + 1, q, s);
      assert (q' + 1) * s == q' * s + s;
    } else if q' > q {
      MulMono(q + 1, q', s);
      assert (q + 1) * s == q * s + s;
    }
  }

  /**
    Prefix membership is membership of the address block that starts at the
    network address and spans `BlockSize()` addresses.
   */
  lemma ContainsIffInBlock(net: Cidr, a: Addr)
    requires net.WellFormed()
    ensures Contains(net, a) <==> net.First() <= a < net.First() + net.BlockSize()
  {
    var s := net.BlockSize();
    var q := net.base / s;
    assert net.First() == q * s;
    DivUnique(a, s, q);
  }

  /** The same statement for `is_in_network` with addresses that parse. */
  lemma IsInNetworkIffInBlock(a: Addr, net: Cidr)
    ensures IsInNetwork(Some(a), Some(net))
            <==> net.WellFormed() && net.First() <= a < net.First() + net.BlockSize()
  {
    if net.WellFormed() {
      ContainsIffInBlock(net, a);
    }
  }

  /** For a /24 network, membership means agreeing on everything but the last octet. */
  lemma Slash24(net: Cidr, a: Addr)
    requires net.prefixLen == 24
    ensures IsInNetwork(Some(a), Some(net)) <==> a / 256 == net.base / 256
  {
    assert Pow2(8) == 256 by {
      assert Pow2(0) == 1;
      assert Pow2(4) == 16;
    }
  }
}
