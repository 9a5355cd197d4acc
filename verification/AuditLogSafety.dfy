/**
 The claim protocol as a system: any number of runtimes run provider operations against one
 pool while KALM, the controller that owns the pool, changes it on its own.

 An operation is one step, taken when its Update reaches the API server.  The lists it
 decided on are part of the step and may be any older view of the pool, so every
 interleaving of the reads and writes of concurrent operations is a run of this system.
 The whole history of the pool is kept in `log`, which makes safety over a run an
 invariant of the state it ends in.
 */
module AuditLogSafety {
  import opened Wrappers
  import opened AuditLogPool
  import opened AuditLogTypes

  type Pool = map<string, AuditLog>

  /** seen[r] is the place in the log where runtime r wrote last. */
  datatype System = System(server: Server, log: seq<Pool>, seen: map<string, nat>)

  datatype Action =
    | Reserve(r: string, region: string, now: int, mine: Listing, pool: Listing, delivery: Delivery)
    | ClaimReserved(r: string, mine: Listing, delivery: Delivery)
    | GetOrClaim(r: string, all: Listing, mine: Listing, delivery: Delivery)
    | ClaimDirect(r: string, region: string, now: int, all: Listing, mine: Listing, pool: Listing, delivery: Delivery)
    | Release(r: string, all: Listing, delivery: Delivery)
    | KalmStatus(name: string, state: State, data: AuditLogData)
    | KalmUnreserve(name: string)
    | KalmCreate(name: string, regions: seq<string>, data: AuditLogData)
    | KalmDelete(name: string)
  {
    predicate ByRuntime() { Reserve? || ClaimReserved? || GetOrClaim? || ClaimDirect? || Release? }
  }

  function PlanOf(a: Action): Plan
    requires a.ByRuntime()
  {
    match a
    case Reserve(r, region, now, mine, pool, _) => ReservePlan(mine, pool, r, region, now)
    case ClaimReserved(r, mine, _) => ClaimReservedPlan(mine, r)
    case GetOrClaim(r, all, mine, _) => GetOrClaimPlan(all, mine, r)
    case ClaimDirect(r, region, now, all, mine, pool, _) => ClaimDirectPlan(all, mine, pool, r, region, now)
    case Release(r, all, _) => ReleasePlan(all, r)
  }

  function Commit(s: System, server: Server): System {
    System(server, s.log + [server.items], s.seen)
  }

  /** Does the write of this action take effect? */
  predicate Lands(s: System, a: Action)
    requires a.ByRuntime()
  {
    PlanOf(a).Write? && !a.delivery.RequestLost? && Accepts(s.server, PlanOf(a).item)
  }

  function Step(s: System, a: Action): System {
    var sv := s.server;
    if a.ByRuntime() then
      if Lands(s, a) then Commit(s, Put(sv, PlanOf(a).item)).(seen := s.seen[a.r := |s.log|]) else s
    else match a
      case KalmStatus(n, state, data) =>
        if n in sv.items && (sv.items[n].assignedTo == "" || SameTarget(sv.items[n].data, data))
        then Commit(s, Put(sv, sv.items[n].(state := state, data := data))) else s
      case KalmUnreserve(n) =>
        if n in sv.items && sv.items[n].assignedTo == ""
        then Commit(s, Put(sv, sv.items[n].(reservedFor := None, reservedAt := None))) else s
      case KalmCreate(n, regions, data) =>
        if n in sv.items then s
        else
          var item := AuditLog(n, sv.rev + 1, sv.rev + 1, None, None, regions, "", false, Pending, data);
          Commit(s, Server(sv.items[n := item], sv.rev + 1))
      case KalmDelete(n) =>
        Commit(s, Server(sv.items - {n}, sv.rev + 1))
  }

  // ---- what a read may return ----

  function Floor(s: System, r: string): nat {
    if r in s.seen then s.seen[r] else 0
  }

  function FloorFor(s: System, r: string, age: Age): nat {
    if age.AnyAge? then 0 else Floor(s, r)
  }

  ghost predicate SeenSince(s: System, floor: nat, a: AuditLog) {
    exists k :: floor <= k < |s.log| && a.name in s.log[k] && s.log[k][a.name] == a
  }

  ghost predicate AlwaysThere(s: System, floor: nat, n: string) {
    forall k :: floor <= k < |s.log| ==> n in s.log[k]
  }

  /**
   A list holds, for each object, some state it had at or after `floor`.  It may mix states
   of different age, and misses an object only if the object was once absent since `floor`.
   */
  ghost predicate Readable(s: System, floor: nat, l: seq<AuditLog>) {
    && (forall i :: 0 <= i < |l| ==> SeenSince(s, floor, l[i]))
    && (forall i, j :: 0 <= i < j < |l| ==> l[i].name != l[j].name)
    && (forall n :: AlwaysThere(s, floor, n) ==> exists i :: 0 <= i < |l| && l[i].name == n)
  }

  ghost predicate ReadableIfAny(s: System, floor: nat, l: Listing) {
    l.Some? ==> Readable(s, floor, l.value)
  }

  ghost predicate Lists(s: System, floor: nat, a: Action)
    requires a.ByRuntime()
  {
    match a
    case Reserve(_, _, _, mine, pool, _) => ReadableIfAny(s, floor, mine) && ReadableIfAny(s, floor, pool)
    case ClaimReserved(_, mine, _) => ReadableIfAny(s, floor, mine)
    case GetOrClaim(_, all, mine, _) => ReadableIfAny(s, floor, all) && ReadableIfAny(s, floor, mine)
    case ClaimDirect(_, _, _, all, mine, pool, _) =>
      ReadableIfAny(s, floor, all) && ReadableIfAny(s, floor, mine) && ReadableIfAny(s, floor, pool)
    case Release(_, all, _) => ReadableIfAny(s, floor, all)
  }

  /** The lists ClaimAuditLog uses to find out whether the runtime already holds an object arrived. */
  predicate CheckDelivered(a: Action) {
    a.ClaimDirect? ==> a.all.Some? && a.mine.Some?
  }

  /**
   AnyAge: reads of any age.  OwnWrites: a runtime's reads include its own earlier writes.
   OwnWritesChecked: besides, no direct claim goes ahead on a lookup whose List call failed.
   */
  datatype Age = AnyAge | OwnWrites | OwnWritesChecked

  /** The runtime ID is never empty: the FSM refuses to run without it. */
  ghost predicate Enabled(s: System, a: Action, age: Age) {
    a.ByRuntime() ==>
      && a.r != ""
      && Lists(s, FloorFor(s, a.r, age), a)
      && (age.OwnWritesChecked? ==> CheckDelivered(a))
  }

  ghost predicate Initial(s: System) {
    && s.log == [s.server.items]
    && s.seen == map[]
    && forall n :: n in s.server.items ==>
         var a := s.server.items[n];
         a.name == n && a.uid <= a.version <= s.server.rev && a.assignedTo == "" && a.reservedFor.None? && !a.orphaned
  }

  /** A run: actions that are not enabled when their turn comes have no effect. */
  ghost function Exec(s: System, acts: seq<Action>, age: Age): System {
    if acts == [] then s
    else
      var p := Exec(s, acts[..|acts| - 1], age);
      var a := acts[|acts| - 1];
      if Enabled(p, a, age) then Step(p, a) else p
  }

  // ---- the invariant that needs no assumption on the age of reads ----

  /** An assignment implies the matching reservation, and only assigned objects are orphaned. */
  predicate WellFormed(a: AuditLog) {
    && (a.assignedTo != "" ==> a.reservedFor == Some(a.assignedTo))
    && (a.orphaned ==> a.assignedTo != "")
  }

  /** One change of one object: what the claim protocol never undoes. */
  predicate Evolves(a: AuditLog, b: AuditLog) {
    && (a.assignedTo != "" ==> b.assignedTo == a.assignedTo && b.reservedFor == a.reservedFor && SameTarget(a.data, b.data))
    && (a.reservedFor.Some? ==> b.reservedFor == a.reservedFor || (b.reservedFor.None? && a.assignedTo == ""))
    && (a.reservedFor.None? && b.reservedFor.Some? ==> a.assignedTo == "" && !a.orphaned)
    && (a.assignedTo == "" && b.assignedTo != "" ==> !a.orphaned && (a.reservedFor.None? || a.reservedFor == Some(b.assignedTo)))
    && (a.orphaned ==> b.orphaned)
  }

  ghost predicate Entry(a: AuditLog, n: string, rev: nat) {
    a.name == n && a.uid <= a.version <= rev && WellFormed(a)
  }

  /** Between two consecutive pools an object stays the same object and evolves, or is new. */
  ghost predicate Follows(s: System, k: nat, n: string)
    requires k + 1 < |s.log| && n in s.log[k + 1]
  {
    var b := s.log[k + 1][n];
    if n in s.log[k] && s.log[k][n].uid == b.uid then Evolves(s.log[k][n], b)
    else forall i :: 0 <= i <= k && n in s.log[i] ==> s.log[i][n].uid < b.uid
  }

  ghost predicate Inv(s: System) {
    && |s.log| > 0
    && s.log[|s.log| - 1] == s.server.items
    && (forall r :: r in s.seen ==> s.seen[r] < |s.log|)
    && (forall k, n :: 0 <= k < |s.log| && n in s.log[k] ==> Entry(s.log[k][n], n, s.server.rev))
    && (forall j, k, n :: 0 <= j < |s.log| && 0 <= k < |s.log| && n in s.log[j] && n in s.log[k]
             && s.log[j][n].version == s.log[k][n].version
          ==> s.log[j][n] == s.log[k][n])
    && (forall k, n :: 0 <= k < |s.log| - 1 && n in s.log[k + 1] ==> Follows(s, k, n))
  }

  /** An accepted Update was computed from the very object it replaces, however old the read. */
  lemma AcceptedIsCurrent(s: System, floor: nat, l: seq<AuditLog>, a: AuditLog)
    requires Inv(s) && Readable(s, floor, l) && a in l && Accepts(s.server, a)
    ensures s.server.items[a.name] == a
  {
    var k :| floor <= k < |s.log| && a.name in s.log[k] && s.log[k][a.name] == a;
    assert s.log[|s.log| - 1][a.name].version == s.log[k][a.name].version;
  }

  /** What a runtime's write may do to the object it names. */
  predicate GoodWrite(c: AuditLog, b: AuditLog, r: string) {
    && b.uid == c.uid && b.version == c.version && WellFormed(b) && Evolves(c, b)
    && b.reservedFor == Some(r) && (c.reservedFor.None? || c.reservedFor == Some(r))
    && (b.assignedTo == c.assignedTo || b.assignedTo == r)
  }

  lemma LandedTake(s: System, floor: nat, pool: seq<AuditLog>, region: string, b: AuditLog, r: string)
    requires Inv(s) && Readable(s, floor, pool) && r != ""
    requires Find(pool, AvailableIn(region)).Some? && Accepts(s.server, b)
    requires var x := Find(pool, AvailableIn(region)).value;
      exists now :: b == x.(reservedFor := Some(r), reservedAt := Some(now))
                    || b == x.(assignedTo := r, reservedFor := Some(r), reservedAt := Some(now))
    ensures b.name in s.server.items && GoodWrite(s.server.items[b.name], b, r)
  {
    var x := Find(pool, AvailableIn(region)).value;
    AcceptedIsCurrent(s, floor, pool, x);
    assert Entry(s.log[|s.log| - 1][x.name], x.name, s.server.rev);
  }

  lemma LandedUpgrade(s: System, floor: nat, l: seq<AuditLog>, x: AuditLog, b: AuditLog, r: string)
    requires Inv(s) && Readable(s, floor, l) && r != "" && x in l && Accepts(s.server, x)
    requires x.reservedFor == Some(r) || x.assignedTo == r
    requires b == x.(assignedTo := r) || (b == x.(orphaned := true) && x.assignedTo == r)
    ensures b.name in s.server.items && GoodWrite(s.server.items[b.name], b, r)
  {
    AcceptedIsCurrent(s, floor, l, x);
    assert Entry(s.log[|s.log| - 1][x.name], x.name, s.server.rev);
  }

  lemma LandedWrite(s: System, a: Action, age: Age)
    requires Inv(s) && a.ByRuntime() && Enabled(s, a, age) && Lands(s, a)
    ensures var b := PlanOf(a).item;
      b.name in s.server.items && GoodWrite(s.server.items[b.name], b, a.r)
  {
    var b := PlanOf(a).item;
    var floor := FloorFor(s, a.r, age);
    match a
    case Reserve(r, region, now, mine, pool, _) => LandedTake(s, floor, pool.value, region, b, r);
    case ClaimReserved(r, mine, _) => LandedUpgrade(s, floor, mine.value, Find(mine.value, ReservedFor(r)).value, b, r);
    case GetOrClaim(r, all, mine, _) => LandedUpgrade(s, floor, mine.value, Find(mine.value, ReservedFor(r)).value, b, r);
    case ClaimDirect(r, region, now, all, mine, pool, _) => LandedTake(s, floor, pool.value, region, b, r);
    case Release(r, all, _) => LandedUpgrade(s, floor, all.value, Find(all.value, AssignedTo(r)).value, b, r);
  }

  /** t appends to s a pool in which object n evolved, appeared or went away. */
  ghost predicate Appends(s: System, t: System, n: string) {
    && |s.log| > 0 && s.log[|s.log| - 1] == s.server.items
    && t.log == s.log + [t.server.items] && t.server.rev == s.server.rev + 1
    && (forall r :: r in t.seen ==> t.seen[r] < |t.log|)
    && (forall m :: m != n && m in t.server.items ==> m in s.server.items && t.server.items[m] == s.server.items[m])
    && (n in t.server.items ==>
          var b := t.server.items[n];
          && Entry(b, n, t.server.rev) && b.version == t.server.rev
          && if n in s.server.items then b.uid == s.server.items[n].uid && Evolves(s.server.items[n], b)
             else b.uid == t.server.rev)
  }

  lemma AppendKeepsEntries(s: System, t: System, n: string)
    requires Inv(s) && Appends(s, t, n)
    ensures forall k, m :: 0 <= k < |t.log| && m in t.log[k] ==> Entry(t.log[k][m], m, t.server.rev)
    ensures forall k, m :: 0 <= k < |s.log| && m in s.log[k] ==> s.log[k][m].version < t.server.rev && s.log[k][m].uid < t.server.rev
  {
    forall k, m | 0 <= k < |s.log| && m in s.log[k]
      ensures Entry(s.log[k][m], m, t.server.rev) && s.log[k][m].version < t.server.rev && s.log[k][m].uid < t.server.rev
    {
      assert Entry(s.log[k][m], m, s.server.rev);
    }
    forall k, m | 0 <= k < |t.log| && m in t.log[k] ensures Entry(t.log[k][m], m, t.server.rev) {
      if k < |s.log| {
        assert m in s.log[k];
      } else if m != n {
        assert m in s.log[|s.log| - 1];
      }
    }
  }

  lemma AppendKeepsVersions(s: System, t: System, n: string, j: nat, m: string)
    requires Inv(s) && Appends(s, t, n)
    requires j < |s.log| && m in s.log[j] && m in t.server.items && s.log[j][m].version == t.server.items[m].version
    ensures s.log[j][m] == t.server.items[m]
  {
    AppendKeepsEntries(s, t, n);
    if m != n {
      assert m in s.log[|s.log| - 1];
    }
  }

  lemma AppendKeepsFollows(s: System, t: System, n: string, k: nat, m: string)
    requires Inv(s) && Appends(s, t, n)
    requires k < |t.log| - 1 && m in t.log[k + 1]
    ensures Follows(t, k, m)
  {
    if k < |s.log| - 1 {
      assert Follows(s, k, m);
    } else {
      AppendKeepsEntries(s, t, n);
    }
  }

  lemma AppendKeepsInv(s: System, t: System, n: string)
    requires Inv(s) && Appends(s, t, n)
    ensures Inv(t)
  {
    AppendKeepsEntries(s, t, n);
    forall k, m | 0 <= k < |t.log| - 1 && m in t.log[k + 1] ensures Follows(t, k, m) {
      AppendKeepsFollows(s, t, n, k, m);
    }
    forall j, k, m | 0 <= j < |t.log| && 0 <= k < |t.log| && m in t.log[j] && m in t.log[k]
      && t.log[j][m].version == t.log[k][m].version
      ensures t.log[j][m] == t.log[k][m]
    {
      if j < |s.log| && k == |s.log| { AppendKeepsVersions(s, t, n, j, m); }
      if k < |s.log| && j == |s.log| { AppendKeepsVersions(s, t, n, k, m); }
    }
  }

  lemma RuntimeStepAppends(s: System, a: Action, age: Age)
    requires Inv(s) && a.ByRuntime() && Enabled(s, a, age) && Lands(s, a)
    ensures Appends(s, Step(s, a), PlanOf(a).item.name)
  {
    LandedWrite(s, a, age);
    var n := PlanOf(a).item.name;
    assert Entry(s.log[|s.log| - 1][n], n, s.server.rev);
  }

  lemma KalmStepAppends(s: System, a: Action)
    requires Inv(s) && !a.ByRuntime() && Step(s, a) != s
    ensures Appends(s, Step(s, a), a.name)
  {
    if a.name in s.server.items {
      assert Entry(s.log[|s.log| - 1][a.name], a.name, s.server.rev);
    }
  }

  lemma StepKeepsInv(s: System, a: Action, age: Age)
    requires Inv(s) && Enabled(s, a, age)
    ensures Inv(Step(s, a))
  {
    if a.ByRuntime() {
      if Lands(s, a) {
        RuntimeStepAppends(s, a, age);
        AppendKeepsInv(s, Step(s, a), PlanOf(a).item.name);
      }
    } else if Step(s, a) != s {
      KalmStepAppends(s, a);
      AppendKeepsInv(s, Step(s, a), a.name);
    }
  }

  lemma {:induction false} RunKeepsInv(s: System, acts: seq<Action>, age: Age)
    requires Initial(s)
    ensures Inv(Exec(s, acts, age))
  {
    if acts != [] {
      var before := acts[..|acts| - 1];
      RunKeepsInv(s, before, age);
      var p := Exec(s, before, age);
      if Enabled(p, acts[|acts| - 1], age) {
        StepKeepsInv(p, acts[|acts| - 1], age);
      }
    }
  }

  /** Along a stretch of the log in which an object keeps its uid, what Evolves fixes stays fixed. */
  lemma {:induction false} StaysAssigned(s: System, i: nat, j: nat, n: string)
    requires Inv(s) && i <= j < |s.log|
    requires n in s.log[i] && n in s.log[j] && s.log[i][n].uid == s.log[j][n].uid
    ensures var a, b := s.log[i][n], s.log[j][n];
      && (a.assignedTo != "" ==> b.assignedTo == a.assignedTo && b.reservedFor == a.reservedFor && SameTarget(a.data, b.data))
      && (a.orphaned ==> b.orphaned)
    decreases j - i
  {
    if i < j {
      assert Follows(s, j - 1, n);
      StaysAssigned(s, i, j - 1, n);
    }
  }

  /**
   Claim safety, for every run and reads of any age.  In the log of the run: an assignment is
   for good, an assigned object is reserved for the same runtime, and from one pool to the next
   a reservation is kept or, while unassigned, dropped, but never handed to another runtime.
   */
  lemma ClaimSafety(s: System, acts: seq<Action>)
    requires Initial(s)
    ensures var t := Exec(s, acts, AnyAge);
      && (forall i, j, n :: 0 <= i <= j < |t.log| && n in t.log[i] && n in t.log[j]
            && t.log[i][n].uid == t.log[j][n].uid && t.log[i][n].assignedTo != ""
            ==> t.log[j][n].assignedTo == t.log[i][n].assignedTo)
      && (forall i, n :: 0 <= i < |t.log| && n in t.log[i] && t.log[i][n].assignedTo != ""
            ==> t.log[i][n].reservedFor == Some(t.log[i][n].assignedTo))
      && (forall i, n :: 0 <= i < |t.log| - 1 && n in t.log[i] && n in t.log[i + 1]
            && t.log[i][n].uid == t.log[i + 1][n].uid && t.log[i][n].reservedFor.Some?
            ==> t.log[i + 1][n].reservedFor == t.log[i][n].reservedFor
                || (t.log[i + 1][n].reservedFor.None? && t.log[i][n].assignedTo == ""))
  {
    var t := Exec(s, acts, AnyAge);
    RunKeepsInv(s, acts, AnyAge);
    forall i, j, n | 0 <= i <= j < |t.log| && n in t.log[i] && n in t.log[j]
      && t.log[i][n].uid == t.log[j][n].uid && t.log[i][n].assignedTo != ""
      ensures t.log[j][n].assignedTo == t.log[i][n].assignedTo
    {
      StaysAssigned(t, i, j, n);
    }
    forall i, n | 0 <= i < |t.log| && n in t.log[i] && t.log[i][n].assignedTo != ""
      ensures t.log[i][n].reservedFor == Some(t.log[i][n].assignedTo)
    {
      assert Entry(t.log[i][n], n, t.server.rev);
    }
    forall i, n | 0 <= i < |t.log| - 1 && n in t.log[i] && n in t.log[i + 1]
      && t.log[i][n].uid == t.log[i + 1][n].uid && t.log[i][n].reservedFor.Some?
      ensures t.log[i + 1][n].reservedFor == t.log[i][n].reservedFor
              || (t.log[i + 1][n].reservedFor.None? && t.log[i][n].assignedTo == "")
    {
      assert Follows(t, i, n);
    }
  }

  /** An orphaned object belongs to the runtime that left it: it is never reserved or assigned anew. */
  lemma OrphansStayRetired(s: System, acts: seq<Action>)
    requires Initial(s)
    ensures var t := Exec(s, acts, AnyAge);
      forall i, j, n :: 0 <= i <= j < |t.log| && n in t.log[i] && n in t.log[j]
        && t.log[i][n].uid == t.log[j][n].uid && t.log[i][n].orphaned
        ==> t.log[i][n].assignedTo != "" && t.log[j][n].orphaned
            && t.log[j][n].assignedTo == t.log[i][n].assignedTo
            && t.log[j][n].reservedFor == Some(t.log[i][n].assignedTo)
  {
    var t := Exec(s, acts, AnyAge);
    RunKeepsInv(s, acts, AnyAge);
    forall i, j, n | 0 <= i <= j < |t.log| && n in t.log[i] && n in t.log[j]
      && t.log[i][n].uid == t.log[j][n].uid && t.log[i][n].orphaned
      ensures t.log[i][n].assignedTo != "" && t.log[j][n].orphaned
              && t.log[j][n].assignedTo == t.log[i][n].assignedTo
              && t.log[j][n].reservedFor == Some(t.log[i][n].assignedTo)
    {
      assert Entry(t.log[i][n], n, t.server.rev);
      StaysAssigned(t, i, j, n);
    }
  }
}
