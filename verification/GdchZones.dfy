/**
 Subnets of the GDCH zones: one, two or three blocks of the whole, the half or the quarter of
 the node network.  Addresses move on by byte-wise addition with a carry.
 */
module GdchZones {
  import opened Wrappers
  import opened Cidr

  datatype Zone = Zone(name: string, cidr: Prefix)

  const MAX_ZONES := 3

  /** ParsePrefix gives an IPv4 prefix, one of another family, or fails. */
  datatype Parsed = Unparsable | NotIPv4 | IPv4(prefix: Prefix)

  function ShiftForZoneCount(n: nat): nat {
    if n == 2 then 1 else if n == 3 then 2 else 0
  }

  // ---- byte-wise addition ----

  function Value4(b: seq<int>): int
    requires |b| == 4
  {
    b[0] * 0x100_0000 + b[1] * 0x1_0000 + b[2] * 0x100 + b[3]
  }

  /** 256 to the number of bytes from the end. */
  function Weight(fromEnd: nat): nat
    requires fromEnd <= 4
  {
    if fromEnd == 0 then 1 else if fromEnd == 1 then 0x100 else if fromEnd == 2 then 0x1_0000
    else if fromEnd == 3 then 0x100_0000 else ADDRESSES
  }

  predicate Bytes(b: seq<int>) {
    |b| == 4 && forall j :: 0 <= j < 4 ==> 0 <= b[j] < 0x100
  }

  /** Adding one byte of the carry at place i keeps the total. */
  lemma ByteStep(b: seq<int>, i: nat, carry: nat)
    requires Bytes(b) && i < 4
    ensures var sum := b[i] + carry % 0x100; var c := b[i := sum % 0x100]; var left := carry / 0x100 + sum / 0x100;
      Bytes(c) && Value4(c) + left * Weight(4 - i) == Value4(b) + carry * Weight(3 - i)
  {
    var sum := b[i] + carry % 0x100;
    var left := carry / 0x100 + sum / 0x100;
    assert left * 0x100 + sum % 0x100 == carry + b[i];
    if i == 0 { } else if i == 1 { } else if i == 2 { } else { }
  }

  lemma SplitsIntoBytes(a: Address)
    ensures var b := [a / 0x100_0000, a / 0x1_0000 % 0x100, a / 0x100 % 0x100, a % 0x100]; Bytes(b) && Value4(b) == a
  {
    BlocksNest(a, 0x100, 0x100);
    BlocksNest(a, 0x1_0000, 0x100);
  }

  lemma Truncates(v: int, carry: nat, total: int)
    requires 0 <= v < ADDRESSES && v + carry * ADDRESSES == total
    ensures v == total % ADDRESSES
  {
    DivUnique(total, ADDRESSES, carry, v);
  }

  /**
   addAddrOffset: the loop adds a byte of the offset to a byte of the address, from the last
   byte to the first, and stops early once nothing is left to carry.
   */
  method AddAddrOffset(a: Address, offset: nat) returns (r: Address)
    requires offset < ADDRESSES
    ensures r == (a + offset) % ADDRESSES
  {
    var b := new int[][a / 0x100_0000, a / 0x1_0000 % 0x100, a / 0x100 % 0x100, a % 0x100];
    SplitsIntoBytes(a);
    assert b[..] == [a / 0x100_0000, a / 0x1_0000 % 0x100, a / 0x100 % 0x100, a % 0x100];
    var carry := offset;
    var i := 3;
    while i >= 0 && carry > 0
      invariant -1 <= i <= 3 && carry >= 0 && b.Length == 4 && Bytes(b[..])
      invariant Value4(b[..]) + carry * Weight(3 - i) == a + offset
    {
      ByteStep(b[..], i, carry);
      ghost var before := b[..];
      var sum := b[i] + carry % 0x100;
      b[i] := sum % 0x100;
      assert b[..] == before[i := sum % 0x100];
      carry := carry / 0x100 + sum / 0x100;
      i := i - 1;
    }
    Truncates(Value4(b[..]), if i < 0 then carry else 0, a + offset);
    r := Value4(b[..]);
  }

  // ---- the layout ----

  function NewBits(p: Prefix, n: nat): nat {
    p.bits + ShiftForZoneCount(n)
  }

  function BlockAt(p: Prefix, n: nat, i: nat): Prefix
    requires NewBits(p, n) <= 32
  {
    Prefix(ToAddress(First(p) + i * Size(NewBits(p, n))), NewBits(p, n))
  }

  /** The node network is one, two or four of the new blocks. */
  lemma Shares(p: Prefix, n: nat)
    requires NewBits(p, n) <= 32
    ensures var m := if n == 2 then 2 else if n == 3 then 4 else 1; var w := Size(NewBits(p, n));
      && Size(p.bits) == m * w && First(p) == w * (m * BlockOf(p.addr, Size(p.bits)))
      && End(p) == w * (m * BlockOf(p.addr, Size(p.bits)) + m)
  {
    var m := if n == 2 then 2 else if n == 3 then 4 else 1;
    SmallPowers();
    SizeSplits(p.bits, ShiftForZoneCount(n));
    var w, q := Size(NewBits(p, n)), BlockOf(p.addr, Size(p.bits));
    Regrouped(m, w, q);
    Distributes(w, m * q, m);
  }

  /** The blocks of up to three zones are aligned, contiguous and inside the node network. */
  lemma BlocksAreInside(p: Prefix, n: nat, i: nat)
    requires 1 <= n <= MAX_ZONES && NewBits(p, n) <= 32 && i < n
    ensures var b := BlockAt(p, n, i);
      && b.addr == First(p) + i * Size(NewBits(p, n)) && Canonical(b) && Inside(b, p)
      && End(b) == First(p) + (i + 1) * Size(NewBits(p, n))
  {
    Shares(p, n);
    EndIsAnAddress(p);
    var m := if n == 2 then 2 else if n == 3 then 4 else 1;
    var w, q := Size(NewBits(p, n)), BlockOf(p.addr, Size(p.bits));
    Distributes(w, m * q, i);
    Distributes(w, m * q, i + 1);
    MulGrows(w, m * q + m, m * q + i + 1);
    MulGrows(w, i, 0);
    MulGrows(w, i + 1, i);
    Distributes(w, i, 1);
    AlignedBlock(BlockAt(p, n, i), w, m * q + i, 1);
  }

  lemma BlocksAreDisjoint(p: Prefix, n: nat, i: nat, j: nat)
    requires 1 <= n <= MAX_ZONES && NewBits(p, n) <= 32 && i < j < n
    ensures End(BlockAt(p, n, i)) <= First(BlockAt(p, n, j))
  {
    BlocksAreInside(p, n, i);
    BlocksAreInside(p, n, j);
    MulGrows(Size(NewBits(p, n)), j, i + 1);
  }

  /**
   Growth is not stable here: another number of zones moves the subnet of every zone there was.
   Only the first zone keeps its start, with a subnet of another size.
   */
  lemma GrowthMovesEveryZone(p: Prefix, n: nat, m: nat, i: nat)
    requires 1 <= n < m <= MAX_ZONES && NewBits(p, m) <= 32 && i < n
    ensures Size(BlockAt(p, m, i).bits) < Size(BlockAt(p, n, i).bits)
    ensures First(BlockAt(p, m, i)) == First(BlockAt(p, n, i)) <==> i == 0
  {
    BlocksAreInside(p, n, i);
    BlocksAreInside(p, m, i);
    MoreZonesAreSmaller(p, n, m);
    if i > 0 { MulGrowsBoth(i, Size(NewBits(p, n)), Size(NewBits(p, m))); }
  }

  lemma MoreZonesAreSmaller(p: Prefix, n: nat, m: nat)
    requires 1 <= n < m <= MAX_ZONES && NewBits(p, m) <= 32
    ensures Size(NewBits(p, m)) < Size(NewBits(p, n))
  {
    SmallPowers();
    var k := ShiftForZoneCount(m) - ShiftForZoneCount(n);
    SizeSplits(NewBits(p, n), k);
    MulGrows(Size(NewBits(p, m)), Pow2(k), 1);
  }

  lemma MulGrowsBoth(i: nat, a: nat, b: nat)
    requires i > 0 && b < a
    ensures i * b < i * a
  {
    assert i * a == i * b + i * (a - b);
  }

  /** A zone has the same subnet in two layouts exactly when they are for as many zones. */
  lemma SameSubnetOnlyForSameCount(p: Prefix, n: nat, m: nat, i: nat)
    requires 1 <= n <= MAX_ZONES && 1 <= m <= MAX_ZONES && NewBits(p, n) <= 32 && NewBits(p, m) <= 32 && i < n && i < m
    ensures BlockAt(p, n, i) == BlockAt(p, m, i) <==> n == m
  {
    if n < m { GrowthMovesEveryZone(p, n, m, i); } else if m < n { GrowthMovesEveryZone(p, m, n, i); }
  }

  // ---- the generator ----

  method GenerateZones(cidr: Parsed, names: seq<string>) returns (r: Result<seq<Zone>, ZoneError>)
    requires cidr.IPv4? ==> cidr.prefix.bits <= 32
    ensures r.Ok? <==> 1 <= |names| <= MAX_ZONES && cidr.IPv4? && NewBits(cidr.prefix, |names|) <= 32 && Distinct(names)
    ensures r.Ok? ==> |r.value| == |names| && forall i :: 0 <= i < |names| ==>
                        r.value[i] == Zone(names[i], BlockAt(cidr.prefix, |names|, i))
    ensures r == Err(BadZoneCount) <==> !(1 <= |names| <= MAX_ZONES)
    ensures r == Err(BadCidr) <==> 1 <= |names| <= MAX_ZONES && !cidr.IPv4?
    ensures r == Err(BadPrefixLength) <==> 1 <= |names| <= MAX_ZONES && cidr.IPv4? && NewBits(cidr.prefix, |names|) > 32
  {
    var n := |names|;
    if n < 1 || n > MAX_ZONES { return Err(BadZoneCount); }
    if cidr.Unparsable? { return Err(BadCidr); }
    if cidr.NotIPv4? { return Err(BadCidr); }
    var p := cidr.prefix;
    var newBits := p.bits + ShiftForZoneCount(n);
    if newBits > 32 { return Err(BadPrefixLength); }
    // a 32-bit one shifted by 32 is zero
    var step := if newBits == 0 then 0 else Pow2(32 - newBits);
    StepIsSize(newBits);
    EndIsAnAddress(p);
    var addr: Address := First(p);
    var processed: set<string> := {};
    var zones: seq<Zone> := [];
    var i := 0;
    while i < n
      invariant 0 <= i <= n && |zones| == i
      invariant i < n ==> addr == First(p) + i * Size(newBits)
      invariant forall j :: 0 <= j < i ==> zones[j] == Zone(names[j], BlockAt(p, n, j))
      invariant forall s :: s in processed <==> s in names[..i]
      invariant Distinct(names[..i])
    {
      var name := names[i];
      if name in processed {
        assert exists j :: 0 <= j < i && names[..i][j] == name;
        return Err(DuplicateZone);
      }
      processed := processed + {name};
      BlocksAreInside(p, n, i);
      zones := zones + [Zone(name, Prefix(addr, newBits))];
      addr := AddAddrOffset(addr, step);
      if i + 1 < n { NextAddress(p, n, i); }
      assert names[..i + 1] == names[..i] + [name];
      i := i + 1;
    }
    assert names[..i] == names;
    return Ok(zones);
  }

  lemma {:induction false} StepIsSize(newBits: nat)
    requires newBits <= 32
    ensures newBits > 0 ==> Size(newBits) < ADDRESSES
  {
    AllAddresses();
    if newBits > 0 {
      SizeSplits(0, newBits);
      PositivePow2(newBits - 1);
      MulGrows(Size(newBits), Pow2(newBits), 2);
    }
  }

  lemma NextAddress(p: Prefix, n: nat, i: nat)
    requires 1 <= n <= MAX_ZONES && NewBits(p, n) <= 32 && i + 1 < n
    ensures var w := Size(NewBits(p, n)); NewBits(p, n) > 0 && (First(p) + i * w + w) % ADDRESSES == First(p) + (i + 1) * w
  {
    BlocksAreInside(p, n, i + 1);
    var w := Size(NewBits(p, n));
    var next: Address := BlockAt(p, n, i + 1).addr;
    assert (i + 1) * w == i * w + w;
    assert next == First(p) + i * w + w;
  }
}
