/**
 Subnets of the AWS availability zones.  The node network is cut into 64 units; each of the
 first three zones takes 16 of them, each later one takes 3.
 */
module AwsZones {
  import opened Wrappers
  import opened Cidr

  datatype Zone = Zone(name: string, workers: Prefix, public: Prefix, internal: Prefix)

  const MIN_PREFIX := 16
  const MAX_PREFIX := 24
  const MAX_ZONES := 8
  const KYMA_WORKER_ZONES := 3

  predicate Sized(p: Prefix) {
    MIN_PREFIX <= p.bits <= MAX_PREFIX
  }

  /** The size of a unit, which is the size of a small subnet. */
  function Unit(p: Prefix): nat
    requires Sized(p)
  {
    Size(p.bits + 6)
  }

  lemma Units(p: Prefix)
    requires Sized(p)
    ensures Unit(p) > 0
    ensures Size(p.bits) == 64 * Unit(p) && Size(p.bits + 3) == 8 * Unit(p) && Size(p.bits + 4) == 4 * Unit(p)
  {
    SmallPowers();
    SizeSplits(p.bits, 6);
    SizeSplits(p.bits + 3, 3);
    SizeSplits(p.bits + 4, 2);
  }

  /** The unit in which the first zone starts: the address is masked to the worker prefix only. */
  function BaseUnit(p: Prefix): int
    requires Sized(p)
  {
    8 * BlockOf(p.addr, Size(p.bits + 3))
  }

  // ---- the layout in units ----

  /** Blocks 3i, 3i + 1 and 3i + 2 belong to zone i. */
  function StartOf(k: nat): nat {
    var i, j := k / 3, k % 3;
    if i < KYMA_WORKER_ZONES then 16 * i + (if j == 0 then 0 else if j == 1 then 8 else 12)
    else 16 * KYMA_WORKER_ZONES + 3 * (i - KYMA_WORKER_ZONES) + j
  }

  function UnitsOf(k: nat): nat {
    if k / 3 >= KYMA_WORKER_ZONES then 1 else if k % 3 == 0 then 8 else 4
  }

  function BitsOf(p: Prefix, k: nat): nat {
    p.bits + if k / 3 >= KYMA_WORKER_ZONES then 6 else if k % 3 == 0 then 3 else 4
  }

  function BlockAt(p: Prefix, k: nat): Prefix
    requires Sized(p)
  {
    Prefix(ToAddress(Unit(p) * (BaseUnit(p) + StartOf(k))), BitsOf(p, k))
  }

  function ZoneAt(p: Prefix, i: nat, name: string): Zone
    requires Sized(p)
  {
    Zone(name, BlockAt(p, 3 * i), BlockAt(p, 3 * i + 1), BlockAt(p, 3 * i + 2))
  }

  /** All of n zones lie in the node network, at addresses of four bytes. */
  predicate Fits(p: Prefix, n: nat)
    requires Sized(p) && n > 0
  {
    && FOUR_BYTES <= Unit(p) * BaseUnit(p)
    && Contains(p, Unit(p) * (BaseUnit(p) + StartOf(3 * n - 1)))
  }

  // ---- properties of the layout ----

  /** The blocks follow each other without a gap and fill 63 of the 64 units with eight zones. */
  lemma BlocksAreContiguous(k: nat)
    ensures StartOf(k + 1) == StartOf(k) + UnitsOf(k)
    ensures StartOf(0) == 0 && StartOf(3 * MAX_ZONES) == 63
  {
    assert (k + 1) / 3 == if k % 3 == 2 then k / 3 + 1 else k / 3;
  }

  lemma {:induction false} BlocksAscend(k: nat, l: nat)
    requires k < l
    ensures StartOf(k) + UnitsOf(k) <= StartOf(l)
    decreases l - k
  {
    BlocksAreContiguous(k);
    if k + 1 < l { BlocksAscend(k + 1, l); }
  }

  lemma BaseIsInside(p: Prefix)
    requires Sized(p)
    ensures Unit(p) * BaseUnit(p) == Masked(p.addr, Size(p.bits + 3))
    ensures First(p) == Unit(p) * (64 * (BaseUnit(p) / 64)) && End(p) == Unit(p) * (64 * (BaseUnit(p) / 64) + 64)
    ensures First(p) <= Unit(p) * BaseUnit(p)
  {
    Units(p);
    BlocksNest(p.addr, Size(p.bits + 3), 8);
    var u, q := Unit(p), BaseUnit(p) / 64;
    Regrouped(8, u, BlockOf(p.addr, Size(p.bits + 3)));
    Regrouped(64, u, q);
    Distributes(u, 64 * q, 64);
    MulGrows(u, BaseUnit(p), 64 * q);
  }

  /** Containment, counted in units. */
  lemma ContainsUnit(p: Prefix, s: int)
    requires Sized(p)
    ensures Contains(p, Unit(p) * s) <==> s / 64 == BaseUnit(p) / 64
  {
    BaseIsInside(p);
    Units(p);
    var u, q := Unit(p), BaseUnit(p) / 64;
    if s >= 64 * q { MulGrows(u, s, 64 * q); } else { MulStrict(u, 64 * q, s); }
    if s >= 64 * q + 64 { MulGrows(u, s, 64 * q + 64); } else { MulStrict(u, 64 * q + 64, s); }
  }

  lemma MulStrict(n: int, a: int, b: int)
    requires n > 0 && a > b
    ensures n * a > n * b
  {
    MulGrows(n, a - b, 1);
    assert n * a == n * b + n * (a - b);
  }

  lemma EarlierBlocksFit(p: Prefix, n: nat, k: nat)
    requires Sized(p) && n > 0 && Fits(p, n) && k < 3 * n
    ensures Contains(p, Unit(p) * (BaseUnit(p) + StartOf(k)))
    ensures FOUR_BYTES <= Unit(p) * (BaseUnit(p) + StartOf(k)) < ADDRESSES
  {
    if k < 3 * n - 1 { BlocksAscend(k, 3 * n - 1); }
    ContainsUnit(p, BaseUnit(p) + StartOf(3 * n - 1));
    ContainsUnit(p, BaseUnit(p) + StartOf(k));
    Units(p);
    MulGrows(Unit(p), BaseUnit(p) + StartOf(k), BaseUnit(p));
    EndIsAnAddress(p);
  }

  lemma BlockSize(p: Prefix, k: nat)
    requires Sized(p)
    ensures BitsOf(p, k) <= 30 && Size(BitsOf(p, k)) == UnitsOf(k) * Unit(p)
  {
    Units(p);
  }

  lemma StartsAligned(p: Prefix, k: nat)
    requires Sized(p)
    ensures (BaseUnit(p) + StartOf(k)) % UnitsOf(k) == 0
  {
    var b, i := BlockOf(p.addr, Size(p.bits + 3)), k / 3;
    if UnitsOf(k) == 8 {
      assert BaseUnit(p) + StartOf(k) == 8 * (b + 2 * i);
    } else if UnitsOf(k) == 4 {
      assert BaseUnit(p) + StartOf(k) == 4 * (2 * b + 4 * i + (if k % 3 == 1 then 2 else 3));
    }
  }

  /** Where a block starts and ends. */
  lemma BlockShape(p: Prefix, n: nat, k: nat)
    requires Sized(p) && n > 0 && Fits(p, n) && k < 3 * n
    ensures var s := BaseUnit(p) + StartOf(k); var b := BlockAt(p, k);
      b.bits <= 30 && b.addr == Unit(p) * s && Canonical(b) && End(b) == Unit(p) * (s + UnitsOf(k))
  {
    EarlierBlocksFit(p, n, k);
    BlockSize(p, k);
    StartsAligned(p, k);
    Units(p);
    AlignedBlock(BlockAt(p, k), Unit(p), BaseUnit(p) + StartOf(k), UnitsOf(k));
  }

  lemma RoundsInside8(s: int)
    requires s % 8 == 0
    ensures s + 8 <= 64 * (s / 64) + 64
  {
    var t := s / 8 - 8 * (s / 64);
    assert s - 64 * (s / 64) == 8 * t;
  }

  lemma RoundsInside4(s: int)
    requires s % 4 == 0
    ensures s + 4 <= 64 * (s / 64) + 64
  {
    var t := s / 4 - 16 * (s / 64);
    assert s - 64 * (s / 64) == 4 * t;
  }

  lemma EndsInside(p: Prefix, s: int, z: nat)
    requires Sized(p) && Contains(p, Unit(p) * s) && (z == 1 || z == 4 || z == 8) && s % z == 0
    ensures First(p) <= Unit(p) * s && Unit(p) * (s + z) <= End(p)
  {
    ContainsUnit(p, s);
    if z == 8 { RoundsInside8(s); } else if z == 4 { RoundsInside4(s); }
    BaseIsInside(p);
    Units(p);
    MulGrows(Unit(p), 64 * (s / 64) + 64, s + z);
  }

  /** Every block of a fitting layout is aligned to its size and lies wholly in the node network. */
  lemma BlocksAreInside(p: Prefix, n: nat, k: nat)
    requires Sized(p) && n > 0 && Fits(p, n) && k < 3 * n
    ensures Canonical(BlockAt(p, k)) && Inside(BlockAt(p, k), p)
  {
    BlockShape(p, n, k);
    EarlierBlocksFit(p, n, k);
    StartsAligned(p, k);
    EndsInside(p, BaseUnit(p) + StartOf(k), UnitsOf(k));
  }

  /** No two blocks of a fitting layout overlap, whichever zones they belong to. */
  lemma BlocksAreDisjoint(p: Prefix, n: nat, k: nat, l: nat)
    requires Sized(p) && n > 0 && Fits(p, n) && k < l < 3 * n
    ensures End(BlockAt(p, k)) <= First(BlockAt(p, l))
  {
    BlockShape(p, n, k);
    BlockShape(p, n, l);
    BlocksAscend(k, l);
    Units(p);
    MulGrows(Unit(p), BaseUnit(p) + StartOf(l), BaseUnit(p) + StartOf(k) + UnitsOf(k));
  }

  /** A canonical node network above 0.0.0.0/8 has room for every number of zones. */
  lemma CanonicalFits(p: Prefix, n: nat)
    requires Sized(p) && Canonical(p) && p.addr >= FOUR_BYTES && 1 <= n <= MAX_ZONES
    ensures Fits(p, n)
  {
    BaseIsInside(p);
    Units(p);
    BlocksNest(p.addr, Size(p.bits + 3), 8);
    BlockOfMultiple(Unit(p), 64 * (BaseUnit(p) / 64), 8);
    assert BaseUnit(p) == 64 * (BaseUnit(p) / 64);
    BlocksAreContiguous(3 * n - 1);
    if 3 * n < 3 * MAX_ZONES { BlocksAscend(3 * n - 1, 3 * MAX_ZONES); }
    ContainsUnit(p, BaseUnit(p) + StartOf(3 * n - 1));
  }

  /** Fewer zones fit where more do, in the same places. */
  lemma FewerFit(p: Prefix, n: nat, m: nat)
    requires Sized(p) && 0 < m <= n && Fits(p, n)
    ensures Fits(p, m)
  {
    EarlierBlocksFit(p, n, 3 * m - 1);
  }

  // ---- the generator ----

  /** The subnet at an address, unless the address is not one or lies outside the node network. */
  method CidrFromInt(base: int, prefixLength: nat, main: Prefix) returns (r: Option<Prefix>)
    requires main.bits <= 32
    ensures r == if Reaches(main, base) then Some(Prefix(base, prefixLength)) else None
  {
    var addr := AddressOf(base);
    if addr.None? { return None; }
    var result := Prefix(addr.value, prefixLength);
    if BlockOf(result.addr, Size(main.bits)) != BlockOf(main.addr, Size(main.bits)) {
      SameBlock(main, result.addr);
      return None;
    }
    SameBlock(main, result.addr);
    return Some(result);
  }

  /** Where `base` stands before zone i. */
  function BaseOf(p: Prefix, i: nat): int
    requires Sized(p)
  {
    if i == 0 then Masked(p.addr, Size(p.bits + 3))
    else BaseOf(p, i - 1) + (if i - 1 < KYMA_WORKER_ZONES then 16 else 3) * Unit(p)
  }

  /** The base, and the two stops within a zone, in units. */
  lemma {:induction false} BaseInUnits(p: Prefix, i: nat)
    requires Sized(p)
    ensures var u, b := Unit(p), BaseUnit(p);
      && BaseOf(p, i) == u * (b + StartOf(3 * i))
      && BaseOf(p, i) + SecondStop(p, i) == u * (b + StartOf(3 * i + 1))
      && BaseOf(p, i) + ThirdStop(p, i) == u * (b + StartOf(3 * i + 2))
  {
    var u, b := Unit(p), BaseUnit(p);
    if i == 0 { BaseIsInside(p); }
    else {
      BaseInUnits(p, i - 1);
      Distributes(u, b + StartOf(3 * i - 3), if i - 1 < KYMA_WORKER_ZONES then 16 else 3);
    }
    Distributes(u, b + StartOf(3 * i), if i < KYMA_WORKER_ZONES then 8 else 1);
    Distributes(u, b + StartOf(3 * i), if i < KYMA_WORKER_ZONES then 12 else 2);
  }

  function SecondStop(p: Prefix, i: nat): nat
    requires Sized(p)
  {
    (if i < KYMA_WORKER_ZONES then 8 else 1) * Unit(p)
  }

  function ThirdStop(p: Prefix, i: nat): nat
    requires Sized(p)
  {
    (if i < KYMA_WORKER_ZONES then 12 else 2) * Unit(p)
  }

  predicate Reaches(p: Prefix, a: int)
    requires p.bits <= 32
  {
    FOUR_BYTES <= a < ADDRESSES && Contains(p, a)
  }

  predicate ZoneFits(p: Prefix, i: nat)
    requires Sized(p)
  {
    Reaches(p, BaseOf(p, i)) && Reaches(p, BaseOf(p, i) + SecondStop(p, i)) && Reaches(p, BaseOf(p, i) + ThirdStop(p, i))
  }

  lemma FitsMeansZoneFits(p: Prefix, n: nat, i: nat)
    requires Sized(p) && i < n && Fits(p, n)
    ensures ZoneFits(p, i)
  {
    BaseInUnits(p, i);
    EarlierBlocksFit(p, n, 3 * i);
    EarlierBlocksFit(p, n, 3 * i + 1);
    EarlierBlocksFit(p, n, 3 * i + 2);
  }

  /** A layout fits if its first and its last zone do. */
  lemma FitsAt(p: Prefix, n: nat)
    requires Sized(p) && n > 0 && (n > 1 ==> Fits(p, n - 1)) && ZoneFits(p, n - 1)
    ensures Fits(p, n)
  {
    BaseInUnits(p, n - 1);
    if n == 1 { BaseInUnits(p, 0); }
  }

  lemma ZoneIsAt(p: Prefix, i: nat, name: string)
    requires Sized(p) && ZoneFits(p, i)
    ensures var bits := if i < KYMA_WORKER_ZONES then p.bits + 4 else p.bits + 6;
      ZoneAt(p, i, name) == Zone(name,
        Prefix(BaseOf(p, i), if i < KYMA_WORKER_ZONES then p.bits + 3 else p.bits + 6),
        Prefix(BaseOf(p, i) + SecondStop(p, i), bits), Prefix(BaseOf(p, i) + ThirdStop(p, i), bits))
  {
    BaseInUnits(p, i);
  }

  /** The loop body: cut the three subnets of a zone off the front of what is left. */
  method ZoneFrom(i: nat, name: string, p: Prefix, start: int, delta: nat, smallDelta: nat) returns (zone: Option<Zone>, base: int)
    requires Sized(p) && start == BaseOf(p, i) && delta == 4 * Unit(p) && smallDelta == Unit(p)
    ensures zone == if ZoneFits(p, i) then Some(ZoneAt(p, i, name)) else None
    ensures zone.Some? ==> base == BaseOf(p, i + 1)
  {
    base := start;
    var big := i < KYMA_WORKER_ZONES;
    var step := if big then delta else smallDelta;
    var workers := CidrFromInt(base, if big then p.bits + 3 else p.bits + 6, p);
    if workers.None? { return None, base; }
    base := base + step;
    if big { base := base + step; }
    var public := CidrFromInt(base, if big then p.bits + 4 else p.bits + 6, p);
    if public.None? { return None, base; }
    base := base + step;
    var internal := CidrFromInt(base, if big then p.bits + 4 else p.bits + 6, p);
    if internal.None? { return None, base; }
    base := base + step;
    ZoneIsAt(p, i, name);
    zone := Some(Zone(name, workers.value, public.value, internal.value));
  }

  /**
   The source's loop: `base` moves through the node network by the steps of each zone.  A call
   succeeds exactly when its arguments are valid and all zones fit, and then lays them out as above.
   */
  method GenerateZones(cidr: Option<Prefix>, names: seq<string>) returns (r: Result<seq<Zone>, ZoneError>)
    requires cidr.Some? ==> cidr.value.bits <= 32
    ensures r.Ok? <==> 1 <= |names| <= MAX_ZONES && cidr.Some? && Sized(cidr.value) && Distinct(names) && Fits(cidr.value, |names|)
    ensures r.Ok? ==> |r.value| == |names| && forall i :: 0 <= i < |names| ==> r.value[i] == ZoneAt(cidr.value, i, names[i])
    ensures r == Err(BadZoneCount) <==> !(1 <= |names| <= MAX_ZONES)
    ensures r == Err(BadCidr) <==> 1 <= |names| <= MAX_ZONES && cidr.None?
    ensures r == Err(BadPrefixLength) <==> 1 <= |names| <= MAX_ZONES && cidr.Some? && !Sized(cidr.value)
    ensures r == Err(DuplicateZone) ==> !Distinct(names)
    ensures r == Err(OutsideCidr) ==> !Fits(cidr.value, |names|)
    ensures r != Err(BadZoneName)
  {
    if |names| < 1 || |names| > MAX_ZONES { return Err(BadZoneCount); }
    if cidr.None? { return Err(BadCidr); }
    var p := cidr.value;
    if p.bits > MAX_PREFIX || p.bits < MIN_PREFIX { return Err(BadPrefixLength); }

    var base := Masked(p.addr, Size(p.bits + 3));
    var delta := Pow2(31 - (p.bits + 3));
    var smallDelta := delta / 4;
    Deltas(p);
    var processed: set<string> := {};
    var zones: seq<Zone> := [];
    var i := 0;
    while i < |names|
      invariant 0 <= i <= |names| && |zones| == i
      invariant base == BaseOf(p, i)
      invariant forall j :: 0 <= j < i ==> zones[j] == ZoneAt(p, j, names[j])
      invariant forall s :: s in processed <==> s in names[..i]
      invariant Distinct(names[..i])
      invariant i > 0 ==> Fits(p, i)
    {
      var name := names[i];
      if name in processed {
        assert exists j :: 0 <= j < i && names[..i][j] == name;
        return Err(DuplicateZone);
      }
      processed := processed + {name};
      var zone, next := ZoneFrom(i, name, p, base, delta, smallDelta);
      if zone.None? {
        if Fits(p, |names|) { FitsMeansZoneFits(p, |names|, i); }
        return Err(OutsideCidr);
      }
      base := next;
      zones := zones + [zone.value];
      assert names[..i + 1] == names[..i] + [name];
      FitsAt(p, i + 1);
      i := i + 1;
    }
    assert names[..i] == names;
    return Ok(zones);
  }

  lemma Deltas(p: Prefix)
    requires Sized(p)
    ensures Pow2(31 - (p.bits + 3)) == 4 * Unit(p)
  {
    SmallPowers();
    Pow2Adds(2, 26 - p.bits);
  }
}
