/**
 * IPv4 addresses as four octets, their 32-bit value, CIDR networks, and the
 * five networks that both Python services refuse to look up.
 */
module IPv4 {

  type Octet = x: int | 0 <= x < 256

  /** The address a.b.c.d. */
  datatype Address = Address(a: Octet, b: Octet, c: Octet, d: Octet)

  /** The address as the 32-bit big-endian integer Python's `ipaddress` keeps in `_ip`. */
  function Value(x: Address): (v: nat)
    ensures v < 0x1_0000_0000
  {
    x.a * 0x100_0000 + x.b * 0x1_0000 + x.c * 0x100 + x.d
  }

  function Pow2(n: nat): (p: nat)
    ensures p >= 1
  {
    if n == 0 then 1 else 2 * Pow2(n - 1)
  }

  type PrefixLength = n: nat | n <= 32

  /** The network base/prefixLen; its host bits are zero, as `ip_network` demands. */
  datatype Network = Network(base: Address, prefixLen: PrefixLength)

  /**
   * `x in net`: x and the base agree on the first prefixLen bits. Python
   * computes `x._ip & netmask == base._ip`; keeping the top prefixLen bits is
   * dividing by 2 to the power of the host-bit count.
   */
  predicate InNetwork(x: Address, net: Network)
  {
    Value(x) / Pow2(32 - net.prefixLen) == Value(net.base) / Pow2(32 - net.prefixLen)
  }

  /** 10.0.0.0/8, 172.16.0.0/12, 192.168.0.0/16, 127.0.0.0/8 and 169.254.0.0/16, in the services' order. */
  const PrivateRanges: seq<Network> := [
    Network(Address(10, 0, 0, 0), 8),
    Network(Address(172, 16, 0, 0), 12),
    Network(Address(192, 168, 0, 0), 16),
    Network(Address(127, 0, 0, 0), 8),
    Network(Address(169, 254, 0, 0), 16)
  ]

  predicate InAnyBlock(x: Address)
  {
    exists i :: 0 <= i < |PrivateRanges| && InNetwork(x, PrivateRanges[i])
  }

  /** The five blocks read off the leading octets. */
  predicate BlockedByOctets(x: Address)
  {
    || x.a == 10
    || (x.a == 172 && 16 <= x.b <= 31)
    || (x.a == 192 && x.b == 168)
    || x.a == 127
    || (x.a == 169 && x.b == 254)
  }

  lemma Pow2Values()
    ensures Pow2(16) == 0x1_0000 && Pow2(20) == 0x10_0000 && Pow2(24) == 0x100_0000
  {
    assert Pow2(4) == 16;
    assert Pow2(8) == 256;
    assert Pow2(12) == 4096;
    assert Pow2(16) == 0x1_0000;
    assert Pow2(20) == 0x10_0000;
  }

  /** The top 8, 12 and 16 bits of an address, in terms of its octets. */
  lemma TopBits(x: Address)
    ensures Value(x) / Pow2(24) == x.a
    ensures Value(x) / Pow2(20) == x.a * 16 + x.b / 16
    ensures Value(x) / Pow2(16) == x.a * 256 + x.b
  {
    Pow2Values();
    assert Value(x) / 0x100_0000 == x.a;
    assert Value(x) / 0x10_0000 == x.a * 16 + x.b / 16;
    assert Value(x) / 0x1_0000 == x.a * 256 + x.b;
  }

  lemma Block10(x: Address)
    ensures InNetwork(x, PrivateRanges[0]) <==> x.a == 10
  {
    var net := PrivateRanges[0];
    assert net.base == Address(10, 0, 0, 0) && net.prefixLen == 8;
    TopBits(x);
    Pow2Values();
    assert Value(net.base) / Pow2(24) == 10;
  }

  lemma Block192(x: Address)
    ensures InNetwork(x, PrivateRanges[2]) <==> x.a == 192 && x.b == 168
  {
    var net := PrivateRanges[2];
    assert net.base == Address(192, 168, 0, 0) && net.prefixLen == 16;
    TopBits(x);
    Pow2Values();
    assert Value(net.base) / Pow2(16) == 192 * 256 + 168;
  }

  lemma Block127(x: Address)
    ensures InNetwork(x, PrivateRanges[3]) <==> x.a == 127
  {
    var net := PrivateRanges[3];
    assert net.base == Address(127, 0, 0, 0) && net.prefixLen == 8;
    TopBits(x);
    Pow2Values();
    assert Value(net.base) / Pow2(24) == 127;
  }

  lemma Block169(x: Address)
    ensures InNetwork(x, PrivateRanges[4]) <==> x.a == 169 && x.b == 254
  {
    var net := PrivateRanges[4];
    assert net.base == Address(169, 254, 0, 0) && net.prefixLen == 16;
    TopBits(x);
    Pow2Values();
    assert Value(net.base) / Pow2(16) == 169 * 256 + 254;
  }

  /** The second octet's top four bits are 0001 exactly from 16 to 31. */
  lemma HighNibbleOne(b: Octet)
    ensures b / 16 == 1 <==> 16 <= b <= 31
  {
  }

  /** Membership in 172.16.0.0/12, whose prefix ends inside the second octet. */
  lemma Block172(x: Address)
    ensures InNetwork(x, PrivateRanges[1]) <==> x.a == 172 && 16 <= x.b <= 31
  {
    var net := PrivateRanges[1];
    assert net.base == Address(172, 16, 0, 0) && net.prefixLen == 12;
    TopBits(x);
    Pow2Values();
    assert Value(net.base) / Pow2(20) == 172 * 16 + 1;
    HighNibbleOne(x.b);
    assert x.a * 16 + x.b / 16 == 172 * 16 + 1 <==> x.a == 172 && x.b / 16 == 1;
  }

  /** Membership in each of the five networks, read off the octets. */
  lemma EachBlock(x: Address)
    ensures InNetwork(x, PrivateRanges[0]) <==> x.a == 10
    ensures InNetwork(x, PrivateRanges[1]) <==> x.a == 172 && 16 <= x.b <= 31
    ensures InNetwork(x, PrivateRanges[2]) <==> x.a == 192 && x.b == 168
    ensures InNetwork(x, PrivateRanges[3]) <==> x.a == 127
    ensures InNetwork(x, PrivateRanges[4]) <==> x.a == 169 && x.b == 254
  {
    Block10(x);
    Block172(x);
    Block192(x);
    Block127(x);
    Block169(x);
  }

  /**
   * Membership in the five networks, computed as the services compute it,
   * is exactly the octet test: nothing outside those prefixes is blocked.
   */
  lemma BlockedIffOctets(x: Address)
    ensures InAnyBlock(x) <==> BlockedByOctets(x)
  {
    EachBlock(x);
    if BlockedByOctets(x) {
      var i := if x.a == 10 then 0 else if x.a == 172 then 1 else if x.a == 192 then 2 else if x.a == 127 then 3 else 4;
      assert InNetwork(x, PrivateRanges[i]);
    }
  }
}
