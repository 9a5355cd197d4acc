/**
 Subnets of the Azure and Alicloud zones: up to eight equal blocks, one after the other.  The
 two generators differ in how they read zone names; Azure wants the numbers 1 to 8.
 */
module EvenZones {
  import opened Wrappers
  import opened Cidr

  datatype Zone<T> = Zone(name: T, workers: Prefix)

  const MIN_PREFIX := 16
  const MAX_PREFIX := 24
  const MAX_ZONES := 8

  predicate Sized(p: Prefix) {
    MIN_PREFIX <= p.bits <= MAX_PREFIX
  }

  function BlockSize(p: Prefix): (n: nat)
    requires Sized(p)
    ensures n > 0
  {
    Size(p.bits + 3)
  }

  /** The block in which the first zone is placed. */
  function BaseBlock(p: Prefix): int
    requires Sized(p)
  {
    BlockOf(p.addr, BlockSize(p))
  }

  function BlockAt(p: Prefix, i: nat): Prefix
    requires Sized(p)
  {
    Prefix(ToAddress(BlockSize(p) * (BaseBlock(p) + i)), p.bits + 3)
  }

  /** n zones fit: enough of the eight blocks are left, and addresses have four bytes. */
  predicate Fits(p: Prefix, n: nat)
    requires Sized(p)
  {
    n > 0 ==> FOUR_BYTES <= BlockSize(p) * BaseBlock(p) && BaseBlock(p) % 8 + n <= 8
  }

  lemma NodeNetwork(p: Prefix)
    requires Sized(p)
    ensures Size(p.bits) == 8 * BlockSize(p) && BlockOf(p.addr, Size(p.bits)) == BaseBlock(p) / 8
    ensures First(p) == BlockSize(p) * (8 * (BaseBlock(p) / 8)) && End(p) == BlockSize(p) * (8 * (BaseBlock(p) / 8) + 8)
  {
    SmallPowers();
    SizeSplits(p.bits, 3);
    BlocksNest(p.addr, BlockSize(p), 8);
    Regrouped(8, BlockSize(p), BaseBlock(p) / 8);
    Distributes(BlockSize(p), 8 * (BaseBlock(p) / 8), 8);
  }

  /** The block i places on lies in the node network exactly when it is one of the eight. */
  lemma ContainsBlock(p: Prefix, i: nat)
    requires Sized(p)
    ensures Contains(p, BlockSize(p) * (BaseBlock(p) + i)) <==> BaseBlock(p) % 8 + i < 8
  {
    NodeNetwork(p);
    var w, k := BlockSize(p), BaseBlock(p);
    MulGrows(w, k + i, 8 * (k / 8));
    if k % 8 + i < 8 {
      MulGrows(w, 8 * (k / 8) + 8, k + i + 1);
      Distributes(w, k + i, 1);
    } else {
      MulGrows(w, k + i, 8 * (k / 8) + 8);
    }
  }

  lemma BlockShape(p: Prefix, n: nat, i: nat)
    requires Sized(p) && Fits(p, n) && i < n
    ensures var a := BlockSize(p) * (BaseBlock(p) + i); var b := BlockAt(p, i);
      && FOUR_BYTES <= a < ADDRESSES && Contains(p, a)
      && b.addr == a && Canonical(b) && End(b) == BlockSize(p) * (BaseBlock(p) + i + 1)
  {
    ContainsBlock(p, i);
    EndIsAnAddress(p);
    MulGrows(BlockSize(p), BaseBlock(p) + i, BaseBlock(p));
    AlignedBlock(BlockAt(p, i), BlockSize(p), BaseBlock(p) + i, 1);
  }

  /** Blocks of fitting zones are aligned, contiguous and inside the node network. */
  lemma BlocksAreInside(p: Prefix, n: nat, i: nat)
    requires Sized(p) && Fits(p, n) && i < n
    ensures Canonical(BlockAt(p, i)) && Inside(BlockAt(p, i), p)
    ensures i + 1 < n ==> First(BlockAt(p, i + 1)) == End(BlockAt(p, i))
  {
    BlockShape(p, n, i);
    NodeNetwork(p);
    MulGrows(BlockSize(p), BaseBlock(p) + i, 8 * (BaseBlock(p) / 8));
    MulGrows(BlockSize(p), 8 * (BaseBlock(p) / 8) + 8, BaseBlock(p) + i + 1);
    if i + 1 < n { BlockShape(p, n, i + 1); }
  }

  lemma {:induction false} BlocksAreDisjoint(p: Prefix, n: nat, i: nat, j: nat)
    requires Sized(p) && Fits(p, n) && i < j < n
    ensures End(BlockAt(p, i)) <= First(BlockAt(p, j))
  {
    BlockShape(p, n, i);
    BlockShape(p, n, j);
    MulGrows(BlockSize(p), BaseBlock(p) + j, BaseBlock(p) + i + 1);
  }

  /** A canonical node network above 0.0.0.0/8 has room for every number of zones. */
  lemma CanonicalFits(p: Prefix, n: nat)
    requires Sized(p) && Canonical(p) && p.addr >= FOUR_BYTES && n <= MAX_ZONES
    ensures Fits(p, n)
  {
    NodeNetwork(p);
    BlockOfMultiple(BlockSize(p), 8 * (BaseBlock(p) / 8), 1);
    assert BaseBlock(p) == 8 * (BaseBlock(p) / 8);
  }

  /** The block that holds an address of a canonical node network. */
  lemma EveryAddressIsPlaced(p: Prefix, a: int)
    requires Sized(p) && Canonical(p) && p.addr >= FOUR_BYTES && Contains(p, a)
    ensures 0 <= a / BlockSize(p) - BaseBlock(p) < 8 && Contains(BlockAt(p, a / BlockSize(p) - BaseBlock(p)), a)
  {
    CanonicalFits(p, 8);
    NodeNetwork(p);
    var w, k := BlockSize(p), BaseBlock(p);
    BlockOfMultiple(w, 8 * (k / 8), 1);
    SlotOf(w, k, a);
    BlockShape(p, 8, a / w - k);
    Distributes(w, a / w, 1);
  }

  /** Eight zones of a canonical node network use it up: every address is in exactly one block. */
  lemma EightZonesPartition(p: Prefix, a: int)
    requires Sized(p) && Canonical(p) && p.addr >= FOUR_BYTES
    ensures Contains(p, a) <==> exists i :: 0 <= i < 8 && Contains(BlockAt(p, i), a)
    ensures forall i, j :: 0 <= i < 8 && 0 <= j < 8 && Contains(BlockAt(p, i), a) && Contains(BlockAt(p, j), a) ==> i == j
  {
    CanonicalFits(p, 8);
    forall i | 0 <= i < 8 ensures Inside(BlockAt(p, i), p) { BlocksAreInside(p, 8, i); }
    forall i, j | 0 <= i < j < 8 ensures End(BlockAt(p, i)) <= First(BlockAt(p, j)) { BlocksAreDisjoint(p, 8, i, j); }
    if Contains(p, a) { EveryAddressIsPlaced(p, a); }
  }

  lemma SlotOf(w: int, k: int, a: int)
    requires w > 0 && w * k <= a < w * (k + 8)
    ensures k <= a / w < k + 8 && w * (a / w) <= a < w * (a / w) + w
  {
    var q := a / w;
    if q < k { MulGrows(w, k, q + 1); Distributes(w, q, 1); }
    if q >= k + 8 { MulGrows(w, q, k + 8); }
  }

  /** Fewer zones fit where more do, in the same places. */
  lemma FewerFit(p: Prefix, n: nat, m: nat)
    requires Sized(p) && m <= n && Fits(p, n)
    ensures Fits(p, m)
  {
  }

  // ---- the generators ----

  /** The loop both sources share: `base` moves on by one block for every zone. */
  method PlaceZones<T(==)>(p: Prefix, names: seq<T>) returns (r: Result<seq<Zone<T>>, ZoneError>)
    requires Sized(p)
    ensures r.Ok? <==> Distinct(names) && Fits(p, |names|)
    ensures r.Ok? ==> |r.value| == |names| && forall i :: 0 <= i < |names| ==> r.value[i] == Zone(names[i], BlockAt(p, i))
    ensures r == Err(DuplicateZone) ==> !Distinct(names)
    ensures r == Err(OutsideCidr) ==> !Fits(p, |names|)
    ensures r.Err? ==> r.error == DuplicateZone || r.error == OutsideCidr
  {
    var delta := Pow2(32 - (p.bits + 3));
    var base := Masked(p.addr, BlockSize(p));
    var processed: set<T> := {};
    var zones: seq<Zone<T>> := [];
    var i := 0;
    while i < |names|
      invariant 0 <= i <= |names| && |zones| == i
      invariant base == BlockSize(p) * (BaseBlock(p) + i)
      invariant forall j :: 0 <= j < i ==> zones[j] == Zone(names[j], BlockAt(p, j))
      invariant forall s :: s in processed <==> s in names[..i]
      invariant Distinct(names[..i]) && Fits(p, i)
    {
      var name := names[i];
      if name in processed {
        assert exists j :: 0 <= j < i && names[..i][j] == name;
        return Err(DuplicateZone);
      }
      processed := processed + {name};
      ContainsBlock(p, i);
      SameBlock(p, base);
      EndIsAnAddress(p);
      MulGrows(BlockSize(p), BaseBlock(p) + i, BaseBlock(p));
      var addr := AddressOf(base);
      if addr.None? || BlockOf(addr.value, Size(p.bits)) != BlockOf(p.addr, Size(p.bits)) {
        return Err(OutsideCidr);
      }
      FirstZoneFits(p, i);
      zones := zones + [Zone(name, Prefix(addr.value, p.bits + 3))];
      Distributes(BlockSize(p), BaseBlock(p) + i, 1);
      base := base + delta;
      assert names[..i + 1] == names[..i] + [name];
      i := i + 1;
    }
    assert names[..i] == names;
    return Ok(zones);
  }

  lemma FirstZoneFits(p: Prefix, i: nat)
    requires Sized(p) && Fits(p, i)
    requires FOUR_BYTES <= BlockSize(p) * (BaseBlock(p) + i) && Contains(p, BlockSize(p) * (BaseBlock(p) + i))
    ensures Fits(p, i + 1)
  {
    ContainsBlock(p, i);
  }

  method GenerateAlicloudZones(cidr: Option<Prefix>, names: seq<string>) returns (r: Result<seq<Zone<string>>, ZoneError>)
    ensures r.Ok? <==> |names| <= MAX_ZONES && cidr.Some? && Sized(cidr.value) && Distinct(names) && Fits(cidr.value, |names|)
    ensures r.Ok? ==> |r.value| == |names| && forall i :: 0 <= i < |names| ==> r.value[i] == Zone(names[i], BlockAt(cidr.value, i))
    ensures r == Err(BadZoneCount) <==> |names| > MAX_ZONES
    ensures r == Err(BadCidr) <==> |names| <= MAX_ZONES && cidr.None?
    ensures r == Err(BadPrefixLength) <==> |names| <= MAX_ZONES && cidr.Some? && !Sized(cidr.value)
  {
    if |names| > MAX_ZONES { return Err(BadZoneCount); }
    if cidr.None? { return Err(BadCidr); }
    if cidr.value.bits > MAX_PREFIX || cidr.value.bits < MIN_PREFIX { return Err(BadPrefixLength); }
    r := PlaceZones(cidr.value, names);
  }

  // ---- Azure's zone names ----

  const MAX_INT64: int := 0x7fff_ffff_ffff_ffff

  predicate IsDigit(c: char) {
    '0' <= c <= '9'
  }

  predicate AllDigits(s: string) {
    forall i :: 0 <= i < |s| ==> IsDigit(s[i])
  }

  function Digits(s: string): nat
    requires AllDigits(s)
  {
    if s == [] then 0 else 10 * Digits(s[..|s| - 1]) + (s[|s| - 1] - '0') as int
  }

  /** strconv.Atoi: an optional sign and decimal digits, within 64 bits. */
  function Atoi(s: string): Option<int> {
    var digits := if s != [] && (s[0] == '+' || s[0] == '-') then s[1..] else s;
    if digits == [] || !AllDigits(digits) then None
    else
      var v: int := if s[0] == '-' then 0 - Digits(digits) else Digits(digits);
      if -MAX_INT64 - 1 <= v <= MAX_INT64 then Some(v) else None
  }

  predicate ZoneNumber(name: string) {
    Atoi(name).Some? && 1 <= Atoi(name).value <= MAX_ZONES
  }

  predicate AllNumbers(names: seq<string>) {
    forall i :: 0 <= i < |names| ==> ZoneNumber(names[i])
  }

  function Numbers(names: seq<string>): (zones: seq<int>)
    requires AllNumbers(names)
    ensures |zones| == |names| && forall i :: 0 <= i < |names| ==> zones[i] == Atoi(names[i]).value
  {
    seq(|names|, i requires 0 <= i < |names| => Atoi(names[i]).value)
  }

  method ConvertZoneNames(names: seq<string>) returns (r: Result<seq<int>, ZoneError>)
    ensures r == if AllNumbers(names) then Ok(Numbers(names)) else Err(BadZoneName)
  {
    var zones: seq<int> := [];
    for i := 0 to |names|
      invariant |zones| == i && forall j :: 0 <= j < i ==> ZoneNumber(names[j]) && zones[j] == Atoi(names[j]).value
    {
      var zone := Atoi(names[i]);
      if zone.None? || zone.value < 1 || zone.value > MAX_ZONES {
        assert !ZoneNumber(names[i]);
        return Err(BadZoneName);
      }
      zones := zones + [zone.value];
    }
    assert zones == Numbers(names);
    return Ok(zones);
  }

  /** Zones are told apart by number, so "1" and "01" are the same zone. */
  method GenerateAzureZones(cidr: Option<Prefix>, names: seq<string>) returns (r: Result<seq<Zone<int>>, ZoneError>)
    ensures r.Ok? <==> |names| <= MAX_ZONES && cidr.Some? && Sized(cidr.value)
                       && AllNumbers(names) && Distinct(Numbers(names)) && Fits(cidr.value, |names|)
    ensures r.Ok? ==> |r.value| == |names| && forall i :: 0 <= i < |names| ==>
                       r.value[i] == Zone(Atoi(names[i]).value, BlockAt(cidr.value, i))
    ensures r == Err(BadZoneCount) <==> |names| > MAX_ZONES
    ensures r == Err(BadCidr) <==> |names| <= MAX_ZONES && cidr.None?
    ensures r == Err(BadPrefixLength) <==> |names| <= MAX_ZONES && cidr.Some? && !Sized(cidr.value)
    ensures r == Err(BadZoneName) <==> |names| <= MAX_ZONES && cidr.Some? && Sized(cidr.value) && !AllNumbers(names)
  {
    if |names| > MAX_ZONES { return Err(BadZoneCount); }
    if cidr.None? { return Err(BadCidr); }
    if cidr.value.bits > MAX_PREFIX || cidr.value.bits < MIN_PREFIX { return Err(BadPrefixLength); }
    var numbers := ConvertZoneNames(names);
    if numbers.Err? { return Err(numbers.error); }
    r := PlaceZones(cidr.value, numbers.value);
  }

  /** Different spellings of one number clash. */
  lemma SpellingsClash()
    ensures "1" != "01" && Atoi("1") == Atoi("01") == Atoi("+1") == Some(1)
    ensures Atoi("") == None && Atoi("+") == None && Atoi("1a") == None
  {
    assert Digits("1") == 1;
    assert "01"[..1] == "0";
    assert Digits("0") == 0;
    assert Digits("01") == 1;
    assert "+1"[1..] == "1";
    assert "+"[1..] == "";
    assert !IsDigit("1a"[1]);
  }
}
