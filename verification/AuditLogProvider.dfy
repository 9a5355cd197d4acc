/**
 The data provider as the source writes it: finders that loop over a list, and operations
 that change a fetched object and send it back.  Each is proved to carry out its plan.  The
 lists read and the fate of the Update come in as arguments.
 */
module AuditLogProvider {
  import opened Wrappers
  import opened AuditLogPool
  import AuditLogSafety

  lemma {:induction false} FindAt(items: seq<AuditLog>, q: Query, i: nat)
    requires i < |items| && Matches(items[i], q)
    requires forall j :: 0 <= j < i ==> !Matches(items[j], q)
    ensures Find(items, q) == Some(items[i])
  {
    if i > 0 {
      FindAt(items[1..], q, i - 1);
    }
  }

  lemma FindNothing(items: seq<AuditLog>, q: Query)
    requires forall j :: 0 <= j < |items| ==> !Matches(items[j], q)
    ensures Find(items, q) == None
  {
    assert forall a :: a in items ==> exists j :: 0 <= j < |items| && items[j] == a;
  }

  /** The items with the reservation label, in the order of the list. */
  function Reserved(items: seq<AuditLog>, r: string): (matching: seq<AuditLog>)
    ensures forall a :: a in matching <==> a in items && Matches(a, ReservedFor(r))
  {
    if items == [] then []
    else
      var rest := Reserved(items[1..], r);
      assert forall a :: a in items <==> a == items[0] || a in items[1..];
      if Matches(items[0], ReservedFor(r)) then [items[0]] + rest else rest
  }

  lemma {:induction false} ReservedStep(items: seq<AuditLog>, r: string, i: nat)
    requires i < |items|
    ensures Reserved(items[..i + 1], r) == if Matches(items[i], ReservedFor(r)) then Reserved(items[..i], r) + [items[i]] else Reserved(items[..i], r)
  {
    if i > 0 {
      ReservedStep(items[1..], r, i - 1);
      assert items[..i + 1][1..] == items[1..][..i] && items[..i][1..] == items[1..][..i - 1];
    } else {
      assert items[..1][1..] == [] && items[..0] == [];
    }
  }

  lemma {:induction false} FirstReserved(items: seq<AuditLog>, r: string)
    ensures Find(items, ReservedFor(r)) == if Reserved(items, r) == [] then None else Some(Reserved(items, r)[0])
  {
    if items != [] { FirstReserved(items[1..], r); }
  }

  /** A list narrowed as the label selector does. */
  method ListReservedFor(items: seq<AuditLog>, r: string) returns (matching: seq<AuditLog>)
    ensures matching == Reserved(items, r)
  {
    matching := [];
    for i := 0 to |items|
      invariant matching == Reserved(items[..i], r)
    {
      ReservedStep(items, r, i);
      if items[i].reservedFor == Some(r) { matching := matching + [items[i]]; }
    }
    assert items[..|items|] == items;
  }

  method FindByReservation(list: Listing, r: string) returns (res: Result<Option<AuditLog>, Error>)
    ensures res == if list.None? then Err(ListFailed) else Ok(Find(list.value, ReservedFor(r)))
  {
    if list.None? { return Err(ListFailed); }
    var matching := ListReservedFor(list.value, r);
    FirstReserved(list.value, r);
    if |matching| == 0 { return Ok(None); }
    return Ok(Some(matching[0]));
  }

  /** Goes on after the first hit only to warn about a second one. */
  method FindByRuntimeId(list: Listing, r: string) returns (res: Result<Option<AuditLog>, Error>)
    ensures res == if list.None? then Err(ListFailed) else Ok(Find(list.value, AssignedTo(r)))
  {
    if list.None? { return Err(ListFailed); }
    var items := list.value;
    var found: Option<AuditLog> := None;
    var i := 0;
    while i < |items|
      invariant 0 <= i <= |items|
      invariant found.None? ==> forall j :: 0 <= j < i ==> !Matches(items[j], AssignedTo(r))
      invariant found.Some? ==> found == Find(items, AssignedTo(r))
    {
      if items[i].assignedTo == r {
        if found.Some? { break; }
        FindAt(items, AssignedTo(r), i);
        found := Some(items[i]);
      }
      i := i + 1;
    }
    if found.None? { FindNothing(items, AssignedTo(r)); }
    return Ok(found);
  }

  method ContainsRegion(regions: seq<string>, region: string) returns (found: bool)
    ensures found <==> region in regions
  {
    for i := 0 to |regions|
      invariant region !in regions[..i]
    {
      if regions[i] == region { return true; }
    }
    return false;
  }

  method FindAvailable(list: Listing, region: string) returns (res: Result<Option<AuditLog>, Error>)
    ensures res == if list.None? then Err(ListFailed) else Ok(Find(list.value, AvailableIn(region)))
  {
    if list.None? { return Err(ListFailed); }
    var items := list.value;
    for i := 0 to |items|
      invariant forall j :: 0 <= j < i ==> !Matches(items[j], AvailableIn(region))
    {
      var item := items[i];
      if item.state == SiemApproved || item.state == RegistrationReady {
        if item.assignedTo != "" { continue; }
        if item.reservedFor.Some? { continue; }
        var serves := ContainsRegion(item.regions, region);
        if !serves { continue; }
        FindAt(items, AvailableIn(region), i);
        return Ok(Some(item));
      }
    }
    FindNothing(items, AvailableIn(region));
    return Ok(None);
  }

  /** The reply an operation gives for its plan. */
  function Answer(p: Plan, sv: Server, d: Delivery): Result<Option<AuditLog>, Error> {
    match p
    case Fail(e) => Err(e)
    case Done(found) => Ok(found)
    case Write(item) =>
      match Reply(sv, item, d)
      case Ok(stored) => Ok(Some(stored))
      case Err(e) => Err(e)
  }

  /** The pool after an operation that followed its plan. */
  function After(p: Plan, sv: Server, d: Delivery): Server {
    if p.Write? then Submit(sv, p.item, d) else sv
  }

  /** A runtime's step of the claim protocol does to the server what the provider's method does. */
  lemma StepIsAnOperation(s: AuditLogSafety.System, a: AuditLogSafety.Action)
    requires a.ByRuntime()
    ensures AuditLogSafety.Step(s, a).server == After(AuditLogSafety.PlanOf(a), s.server, a.delivery)
  {
    assert s.server == Server(s.server.items, s.server.rev);
  }

  class DataProvider {
    var items: map<string, AuditLog>
    var rev: nat

    constructor (items: map<string, AuditLog>, rev: nat)
      ensures Sv() == Server(items, rev)
    {
      this.items := items;
      this.rev := rev;
    }

    function Sv(): Server
      reads this
    {
      Server(items, rev)
    }

    /** The API server's Update. */
    method Update(item: AuditLog, d: Delivery) returns (res: Result<AuditLog, Error>)
      modifies this
      ensures Sv() == Submit(old(Sv()), item, d)
      ensures res == Reply(old(Sv()), item, d)
    {
      if d.RequestLost? { return Err(UpdateFailed); }
      if item.name !in items || items[item.name].version != item.version { return Err(Conflict); }
      rev := rev + 1;
      var stored := item.(version := rev);
      items := items[item.name := stored];
      if d.ReplyLost? { return Err(UpdateFailed); }
      return Ok(stored);
    }

    method Reserve(r: string, region: string, now: int, mine: Listing, pool: Listing, d: Delivery)
      returns (res: Result<Option<AuditLog>, Error>)
      modifies this
      ensures Sv() == After(ReservePlan(mine, pool, r, region, now), old(Sv()), d)
      ensures res == Answer(ReservePlan(mine, pool, r, region, now), old(Sv()), d)
    {
      if r == "" { return Err(EmptyRuntimeId); }
      var reserved := FindByReservation(mine, r);
      if reserved.Err? || reserved.value.Some? { return reserved; }
      var available := FindAvailable(pool, region);
      if available.Err? { return available; }
      if available.value.None? { return Err(NoneAvailable); }
      var item := available.value.value;
      item := item.(reservedFor := Some(r));
      item := item.(reservedAt := Some(now));
      var stored := Update(item, d);
      if stored.Err? { return Err(stored.error); }
      return Ok(Some(stored.value));
    }

    method ClaimReserved(r: string, mine: Listing, d: Delivery) returns (res: Result<Option<AuditLog>, Error>)
      modifies this
      ensures Sv() == After(ClaimReservedPlan(mine, r), old(Sv()), d)
      ensures res == Answer(ClaimReservedPlan(mine, r), old(Sv()), d)
    {
      var reserved := FindByReservation(mine, r);
      if reserved.Err? { return reserved; }
      if reserved.value.None? { return Err(NoReservation); }
      var item := reserved.value.value;
      if item.assignedTo != r {
        item := item.(assignedTo := r);
        var stored := Update(item, d);
        if stored.Err? { return Err(stored.error); }
        item := stored.value;
      }
      return Ok(Some(item));
    }

    method GetOrClaim(r: string, all: Listing, mine: Listing, d: Delivery) returns (res: Result<Option<AuditLog>, Error>)
      modifies this
      ensures Sv() == After(GetOrClaimPlan(all, mine, r), old(Sv()), d)
      ensures res == Answer(GetOrClaimPlan(all, mine, r), old(Sv()), d)
    {
      var claimed := FindByRuntimeId(all, r);
      if claimed.Err? || claimed.value.Some? { return claimed; }
      var reserved := FindByReservation(mine, r);
      if reserved.Err? { return reserved; }
      if reserved.value.None? { return Err(NoReservation); }
      var item := reserved.value.value.(assignedTo := r);
      var stored := Update(item, d);
      if stored.Err? { return Err(stored.error); }
      return Ok(Some(stored.value));
    }

    method GetWithoutClaim(r: string, all: Listing, mine: Listing) returns (res: Result<Option<AuditLog>, Error>)
      ensures res == Answer(LookupPlan(all, mine, r), Sv(), Acknowledged)
    {
      var found := FindByRuntimeId(all, r);
      if found.Err? { return found; }
      if found.value.None? {
        found := FindByReservation(mine, r);
        if found.Err? { return found; }
        if found.value.None? { return Err(NotFound); }
      }
      return found;
    }

    method ClaimDirect(r: string, region: string, now: int, all: Listing, mine: Listing, pool: Listing, d: Delivery)
      returns (res: Result<Option<AuditLog>, Error>)
      modifies this
      ensures Sv() == After(ClaimDirectPlan(all, mine, pool, r, region, now), old(Sv()), d)
      ensures res == Answer(ClaimDirectPlan(all, mine, pool, r, region, now), old(Sv()), d)
    {
      var existing := GetWithoutClaim(r, all, mine);
      if existing.Ok? { return existing; }
      var available := FindAvailable(pool, region);
      if available.Err? { return available; }
      if available.value.None? { return Err(NoneAvailable); }
      var item := available.value.value;
      item := item.(assignedTo := r);
      item := item.(reservedFor := Some(r));
      item := item.(reservedAt := Some(now));
      var stored := Update(item, d);
      if stored.Err? { return Err(stored.error); }
      return Ok(Some(stored.value));
    }

    method Release(r: string, all: Listing, d: Delivery) returns (res: Result<Option<AuditLog>, Error>)
      modifies this
      ensures Sv() == After(ReleasePlan(all, r), old(Sv()), d)
      ensures res == Answer(ReleasePlan(all, r), old(Sv()), d)
    {
      var found := FindByRuntimeId(all, r);
      if found.Err? || found.value.None? { return found; }
      var item := found.value.value;
      if item.state != Assigned { return found; }
      item := item.(orphaned := true);
      var stored := Update(item, d);
      if stored.Err? { return Err(stored.error); }
      return Ok(Some(stored.value));
    }
  }
}
