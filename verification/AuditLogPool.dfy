module AuditLogTypes {
  datatype AuditLogData = AuditLogData(
    tenantId: string,
    serviceUrl: string,
    secretName: string,
    readCredsSecretName: string)

  /** Equal in what a shoot is configured with; the read-credentials name may be filled in later. */
  predicate SameTarget(a: AuditLogData, b: AuditLogData) {
    a.tenantId == b.tenantId && a.serviceUrl == b.serviceUrl && a.secretName == b.secretName
  }
}

/**
 The pool of AuditLog custom resources shared by all runtimes, and the decisions of the
 data provider: given the lists an operation has read, what it will try to write.

 Every provider operation reads the pool one or more times and ends in at most one
 version-checked Update.  What it decides is therefore a function of the lists it read;
 the reads may be older than the write.
 */
module AuditLogPool {
  import opened Wrappers
  import opened AuditLogTypes

  datatype State =
    | Pending | RegistrationReady | SiemApproved | Assigned
    | Orphaned | PendingDelete | UnrecoverableError

  /** uid distinguishes two objects of the same name; version is the resource version. */
  datatype AuditLog = AuditLog(
    name: string,
    uid: nat,
    version: nat,
    reservedFor: Option<string>,
    reservedAt: Option<int>,
    regions: seq<string>,
    assignedTo: string,
    orphaned: bool,
    state: State,
    data: AuditLogData)

  datatype Error =
    | EmptyRuntimeId | ListFailed | NoneAvailable | NoReservation | NotFound
    | Conflict | UpdateFailed

  /** The result of a List call: None when the call fails. */
  type Listing = Option<seq<AuditLog>>

  /** The three questions the finders ask about an item. */
  datatype Query = ReservedFor(runtimeId: string) | AssignedTo(runtimeId: string) | AvailableIn(region: string)

  predicate Matches(a: AuditLog, q: Query) {
    match q
    case ReservedFor(r) => a.reservedFor == Some(r)
    case AssignedTo(r) => a.assignedTo == r
    case AvailableIn(region) =>
      && (a.state == SiemApproved || a.state == RegistrationReady)
      && a.assignedTo == ""
      && a.reservedFor.None?
      && region in a.regions
  }

  ghost predicate AnyMatch(items: seq<AuditLog>, q: Query, upTo: nat)
    requires upTo <= |items|
  {
    exists j :: 0 <= j < upTo && Matches(items[j], q)
  }

  ghost predicate IsFirst(items: seq<AuditLog>, q: Query, a: AuditLog) {
    && Matches(a, q)
    && exists i :: 0 <= i < |items| && items[i] == a && !AnyMatch(items, q, i)
  }

  /** The first item of a list that answers the query. */
  function Find(items: seq<AuditLog>, q: Query): (found: Option<AuditLog>)
    ensures found.Some? ==> IsFirst(items, q, found.value)
    ensures found.None? <==> forall a :: a in items ==> !Matches(a, q)
  {
    if items == [] then None
    else if Matches(items[0], q) then Some(items[0])
    else
      var rest := Find(items[1..], q);
      assert forall a :: a in items ==> a == items[0] || a in items[1..];
      assert rest.Some? ==> IsFirst(items, q, rest.value) by {
        if rest.Some? {
          var i :| 0 <= i < |items| - 1 && items[1..][i] == rest.value && !AnyMatch(items[1..], q, i);
          assert items[i + 1] == rest.value;
          assert !AnyMatch(items, q, i + 1);
        }
      }
      rest
  }

  /** What an operation does once it has read its lists. */
  datatype Plan = Fail(error: Error) | Done(found: Option<AuditLog>) | Write(item: AuditLog)

  function ReservePlan(mine: Listing, pool: Listing, r: string, region: string, now: int): Plan {
    if r == "" then Fail(EmptyRuntimeId)
    else if mine.None? then Fail(ListFailed)
    else
      var reserved := Find(mine.value, ReservedFor(r));
      if reserved.Some? then Done(reserved)
      else if pool.None? then Fail(ListFailed)
      else
        var available := Find(pool.value, AvailableIn(region));
        if available.None? then Fail(NoneAvailable)
        else Write(available.value.(reservedFor := Some(r), reservedAt := Some(now)))
  }

  /** claimAndGetDedicatedAuditLogData: phase 2, as the FSM calls it. */
  function ClaimReservedPlan(mine: Listing, r: string): Plan {
    if mine.None? then Fail(ListFailed)
    else
      var reserved := Find(mine.value, ReservedFor(r));
      if reserved.None? then Fail(NoReservation)
      else if reserved.value.assignedTo != r then Write(reserved.value.(assignedTo := r))
      else Done(reserved)
  }

  /** getOrClaimAuditLogCR: phase 2 with a first look for an existing claim. */
  function GetOrClaimPlan(all: Listing, mine: Listing, r: string): Plan {
    if all.None? then Fail(ListFailed)
    else
      var claimed := Find(all.value, AssignedTo(r));
      if claimed.Some? then Done(claimed)
      else if mine.None? then Fail(ListFailed)
      else
        var reserved := Find(mine.value, ReservedFor(r));
        if reserved.None? then Fail(NoReservation)
        else Write(reserved.value.(assignedTo := r))
  }

  /** getDedicatedAuditLogDataWithoutClaim: by claim first, then by reservation. */
  function LookupPlan(all: Listing, mine: Listing, r: string): (p: Plan)
    ensures p.Done? ==> p.found.Some?
    ensures !p.Write?
  {
    if all.None? then Fail(ListFailed)
    else
      var claimed := Find(all.value, AssignedTo(r));
      if claimed.Some? then Done(claimed)
      else if mine.None? then Fail(ListFailed)
      else
        var reserved := Find(mine.value, ReservedFor(r));
        if reserved.None? then Fail(NotFound) else Done(reserved)
  }

  /** ClaimAuditLog: any error of the lookup, a failed List included, counts as "not claimed yet". */
  function ClaimDirectPlan(all: Listing, mine: Listing, pool: Listing, r: string, region: string, now: int): Plan {
    var existing := LookupPlan(all, mine, r);
    if existing.Done? then existing
    else if pool.None? then Fail(ListFailed)
    else
      var available := Find(pool.value, AvailableIn(region));
      if available.None? then Fail(NoneAvailable)
      else Write(available.value.(assignedTo := r, reservedFor := Some(r), reservedAt := Some(now)))
  }

  function ReleasePlan(all: Listing, r: string): Plan {
    if all.None? then Fail(ListFailed)
    else
      var claimed := Find(all.value, AssignedTo(r));
      if claimed.None? || claimed.value.state != Assigned then Done(claimed)
      else Write(claimed.value.(orphaned := true))
  }

  // ---- the API server's side of an Update ----

  datatype Server = Server(items: map<string, AuditLog>, rev: nat)

  /** Optimistic concurrency: the version read must still be the stored one. */
  predicate Accepts(sv: Server, item: AuditLog) {
    item.name in sv.items && sv.items[item.name].version == item.version
  }

  function Put(sv: Server, item: AuditLog): Server {
    Server(sv.items[item.name := item.(version := sv.rev + 1)], sv.rev + 1)
  }

  /** What happens to the request on its way: stored, stored with the reply lost, or never stored. */
  datatype Delivery = Acknowledged | ReplyLost | RequestLost

  function Submit(sv: Server, item: AuditLog, d: Delivery): Server {
    if d.RequestLost? || !Accepts(sv, item) then sv else Put(sv, item)
  }

  function Reply(sv: Server, item: AuditLog, d: Delivery): Result<AuditLog, Error> {
    if d.RequestLost? then Err(UpdateFailed)
    else if !Accepts(sv, item) then Err(Conflict)
    else if d.ReplyLost? then Err(UpdateFailed)
    else Ok(item.(version := sv.rev + 1))
  }

  // ---- what the patch of a shoot uses ----

  /** The lists resolveAuditLogData may ask for: its own look-up, and those of ClaimAuditLog. */
  datatype Reads = Reads(all: Listing, mine: Listing, allAgain: Listing, mineAgain: Listing, pool: Listing)

  /** Where resolveAuditLogData takes the shoot's audit-log settings from. */
  datatype Source = Shared | Dedicated(item: AuditLog) | Refused(error: Error)

  /** The plan of ClaimAuditLog carried out: what was found, or what the server made of the write. */
  function Claimed(p: Plan, sv: Server, d: Delivery): Source
    requires p.Done? ==> p.found.Some?
  {
    match p
    case Fail(e) => Refused(e)
    case Done(found) => Dedicated(found.value)
    case Write(item) =>
      match Reply(sv, item, d)
      case Ok(written) => Dedicated(written)
      case Err(e) => Refused(e)
  }

  /** resolveAuditLogData to its end; sv is the server when the direct claim's write arrives. */
  function Resolve(featureOn: bool, requested: bool, l: Reads, r: string, region: string, now: int, sv: Server, d: Delivery): Source {
    if !featureOn then Shared
    else
      var existing := LookupPlan(l.all, l.mine, r);
      if existing.Done? then Dedicated(existing.found.value)
      else if !requested then Shared
      else Claimed(ClaimDirectPlan(l.allAgain, l.mineAgain, l.pool, r, region, now), sv, d)
  }
}
