/**
 IPv4 prefixes in CIDR notation (section 3.1 of RFC 4632), as the zone generators use them:
 an address with its host bits, which need not be zero, and a prefix length.
 */
module Cidr {
  import opened Wrappers

  const ADDRESSES: nat := 0x1_0000_0000

  type Address = a: int | 0 <= a < ADDRESSES

  datatype Prefix = Prefix(addr: Address, bits: nat)

  function Pow2(n: nat): nat {
    if n == 0 then 1 else 2 * Pow2(n - 1)
  }

  /** The number of addresses of a prefix length. */
  function Size(bits: nat): (n: nat)
    requires bits <= 32
    ensures n > 0
  {
    PositivePow2(32 - bits);
    Pow2(32 - bits)
  }

  lemma {:induction false} PositivePow2(n: nat)
    ensures Pow2(n) > 0
  {
    if n > 0 { PositivePow2(n - 1); }
  }

  lemma {:induction false} Pow2Adds(a: nat, b: nat)
    ensures Pow2(a + b) == Pow2(a) * Pow2(b)
  {
    if a > 0 { Pow2Adds(a - 1, b); }
  }

  /** Halving a block d times. */
  lemma SizeSplits(bits: nat, d: nat)
    requires bits + d <= 32
    ensures Size(bits) == Pow2(d) * Size(bits + d)
  {
    Pow2Adds(d, 32 - bits - d);
  }

  lemma SmallPowers()
    ensures Pow2(1) == 2 && Pow2(2) == 4 && Pow2(3) == 8 && Pow2(4) == 16 && Pow2(5) == 32 && Pow2(6) == 64 && Pow2(8) == 256
  {
    assert Pow2(2) == 4;
    assert Pow2(4) == 16;
    assert Pow2(6) == 64;
  }

  lemma AllAddresses()
    ensures Pow2(32) == ADDRESSES
  {
    SmallPowers();
    Pow2Adds(8, 8);
    Pow2Adds(16, 16);
  }

  /** The number of the block of n addresses that holds a. */
  function BlockOf(a: int, n: nat): int
    requires n > 0
  {
    a / n
  }

  function Masked(a: Address, n: nat): int
    requires n > 0
  {
    n * BlockOf(a, n)
  }

  /** The first address and the one after the last. */
  function First(p: Prefix): int
    requires p.bits <= 32
  {
    Masked(p.addr, Size(p.bits))
  }

  function End(p: Prefix): int
    requires p.bits <= 32
  {
    First(p) + Size(p.bits)
  }

  predicate Contains(p: Prefix, a: int)
    requires p.bits <= 32
  {
    First(p) <= a < End(p)
  }

  /** No host bits are set: the address is the first of its block. */
  predicate Canonical(p: Prefix)
    requires p.bits <= 32
  {
    p.addr == First(p)
  }

  predicate Inside(p: Prefix, q: Prefix)
    requires p.bits <= 32 && q.bits <= 32
  {
    First(q) <= First(p) && End(p) <= End(q)
  }

  predicate Disjoint(p: Prefix, q: Prefix)
    requires p.bits <= 32 && q.bits <= 32
  {
    End(p) <= First(q) || End(q) <= First(p)
  }

  const FOUR_BYTES: int := 0x100_0000

  /**
   The address of a big integer's bytes.  The bytes carry no leading zeros, so only a number
   of exactly four bytes gives an IPv4 address.
   */
  function AddressOf(v: int): Option<Address> {
    if FOUR_BYTES <= v < ADDRESSES then Some(v) else None
  }

  /** v where it is an address; used where it has been shown to be one. */
  function ToAddress(v: int): Address {
    if 0 <= v < ADDRESSES then v else 0
  }

  predicate Distinct<T(==)>(s: seq<T>) {
    forall i, j :: 0 <= i < j < |s| ==> s[i] != s[j]
  }

  datatype ZoneError = BadZoneCount | BadCidr | BadPrefixLength | BadZoneName | DuplicateZone | OutsideCidr

  lemma AddressCount(bits: nat)
    requires bits <= 32
    ensures Size(bits) * Pow2(bits) == ADDRESSES
  {
    AllAddresses();
    Pow2Adds(32 - bits, bits);
  }

  lemma EndIsAnAddress(p: Prefix)
    requires p.bits <= 32
    ensures 0 <= First(p) && End(p) <= ADDRESSES
  {
    AddressCount(p.bits);
    BlockBelow(p.addr, Size(p.bits), Pow2(p.bits));
  }

  lemma BlockBelow(a: int, n: int, c: int)
    requires n > 0 && 0 <= a < n * c
    ensures 0 <= n * (a / n) && n * (a / n) + n <= n * c
  {
    var q := a / n;
    assert n * q <= a;
    if q >= c { MulGrows(n, q, c); }
    MulGrows(n, c, q + 1);
    MulGrows(n, q, 0);
    Distributes(n, q, 1);
  }

  /** A block of z units that starts at a multiple of z is aligned. */
  lemma AlignedBlock(b: Prefix, u: nat, s: int, z: nat)
    requires b.bits <= 32 && u > 0 && z > 0 && s % z == 0
    requires b.addr == u * s && Size(b.bits) == z * u
    ensures Canonical(b) && End(b) == u * (s + z)
  {
    BlockOfMultiple(u, s, z);
    Regrouped(z, u, s / z);
    Distributes(u, s, z);
  }

  // ---- arithmetic in units of a block ----

  lemma BlockOfMultiple(u: nat, s: int, m: nat)
    requires u > 0 && m > 0
    ensures (m * u) > 0 && BlockOf(u * s, m * u) == s / m
  {
    Regroup(u, m, s / m, s % m, 0);
    DivUnique(u * s, m * u, s / m, u * (s % m));
  }

  lemma Regrouped(m: int, u: int, k: int)
    ensures (m * u) * k == u * (m * k)
  {
  }

  lemma Distributes(u: int, a: int, b: int)
    ensures u * (a + b) == u * a + u * b
  {
  }

  lemma SmallMultiple(n: int, k: int)
    requires n > 0 && -n < n * k < n
    ensures k == 0
  {
    if k > 0 { MulGrows(n, k, 1); }
    if k < 0 { MulGrows(n, -1, k); }
  }

  lemma MulGrows(n: int, a: int, b: int)
    requires n >= 0 && a >= b
    ensures n * a >= n * b
  {
  }

  lemma DivUnique(a: int, n: int, q: int, r: int)
    requires n > 0 && a == n * q + r && 0 <= r < n
    ensures a / n == q
  {
    var q1 := a / n;
    assert n * (q1 - q) == r - a % n;
    SmallMultiple(n, q1 - q);
  }

  /** Blocks nest: the block of m * u addresses is found from the block of u addresses. */
  lemma BlocksNest(a: int, u: nat, m: nat)
    requires u > 0 && m > 0
    ensures m * u > 0 && BlockOf(a, m * u) == BlockOf(a, u) / m
  {
    var k, r := a / u, a % u;
    var q, t := k / m, k % m;
    Regroup(u, m, q, t, r);
    DivUnique(a, m * u, q, u * t + r);
  }

  lemma Regroup(u: int, m: int, q: int, t: int, r: int)
    requires u > 0 && 0 <= t < m && 0 <= r < u
    ensures u * (m * q + t) + r == (m * u) * q + (u * t + r)
    ensures m * u > 0 && 0 <= u * t + r < m * u
  {
    MulGrows(u, m - 1, t);
  }

  lemma SameBlock(p: Prefix, a: int)
    requires p.bits <= 32
    ensures BlockOf(a, Size(p.bits)) == BlockOf(p.addr, Size(p.bits)) <==> Contains(p, a)
  {
    var n := Size(p.bits);
    var q := BlockOf(p.addr, n);
    if Contains(p, a) { DivUnique(a, n, q, a - n * q); }
  }
}
