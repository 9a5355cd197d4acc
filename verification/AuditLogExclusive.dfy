/**
 One object per runtime, and a claim that is found again.  Both need a runtime's reads to
 include its own writes, and a direct claim not to act on a failed lookup; the two lemmas at
 the end give the runs that show why.
 */
module AuditLogExclusive {
  import opened Wrappers
  import opened AuditLogPool
  import opened AuditLogTypes
  import opened AuditLogSafety

  predicate Holds(a: AuditLog, r: string) {
    r != "" && (a.reservedFor == Some(r) || a.assignedTo == r)
  }

  ghost predicate AtMostOne(p: Pool) {
    forall m, n, r :: m in p && n in p && Holds(p[m], r) && Holds(p[n], r) ==> m == n
  }

  /** A runtime's reservation and claim show in every pool since that runtime's last write. */
  ghost predicate ShownSince(s: System, n: string, k: nat)
    requires n in s.server.items && k < |s.log|
  {
    var a := s.server.items[n];
    n in s.log[k]
    && s.log[k][n].uid == a.uid
    && s.log[k][n].reservedFor == a.reservedFor
    && (a.assignedTo != "" ==> s.log[k][n].assignedTo == a.assignedTo)
  }

  ghost predicate Exclusive(s: System) {
    && (forall k :: 0 <= k < |s.log| ==> AtMostOne(s.log[k]))
    && AllShown(s)
  }

  ghost predicate AllShown(s: System) {
    forall n, k ::
      n in s.server.items && s.server.items[n].reservedFor.Some? && Floor(s, s.server.items[n].reservedFor.value) <= k < |s.log|
      ==> ShownSince(s, n, k)
  }

  /** The object a runtime has reserved or claimed turns up in any fresh list. */
  lemma HeldMatches(s: System, n: string, r: string, q: Query, l: seq<AuditLog>)
    requires Inv(s) && AllShown(s) && r != ""
    requires q == ReservedFor(r) || q == AssignedTo(r)
    requires n in s.server.items && Matches(s.server.items[n], q)
    requires Readable(s, Floor(s, r), l)
    ensures Find(l, q).Some?
  {
    var floor := Floor(s, r);
    assert Entry(s.log[|s.log| - 1][n], n, s.server.rev);
    assert AlwaysThere(s, floor, n) by {
      forall k | floor <= k < |s.log| ensures n in s.log[k] { assert ShownSince(s, n, k); }
    }
    var j :| 0 <= j < |l| && l[j].name == n;
    assert SeenSince(s, floor, l[j]);
    var k :| floor <= k < |s.log| && n in s.log[k] && s.log[k][n] == l[j];
    assert ShownSince(s, n, k);
    assert l[j] in l && Matches(l[j], q);
  }

  /** ... and what turns up is that object and no other. */
  lemma HeldIsListed(s: System, n: string, r: string, q: Query, l: seq<AuditLog>)
    requires Inv(s) && Exclusive(s) && r != ""
    requires q == ReservedFor(r) || q == AssignedTo(r)
    requires n in s.server.items && Matches(s.server.items[n], q)
    requires Readable(s, Floor(s, r), l)
    ensures Find(l, q).Some?
    ensures var x := Find(l, q).value;
      x.name == n && x.uid == s.server.items[n].uid
      && exists h :: 0 <= h < |s.log| && n in s.log[h] && s.log[h][n] == x
  {
    var floor := Floor(s, r);
    HeldMatches(s, n, r, q, l);
    assert Entry(s.log[|s.log| - 1][n], n, s.server.rev);
    var x := Find(l, q).value;
    assert SeenSince(s, floor, x);
    var h :| floor <= h < |s.log| && x.name in s.log[h] && s.log[h][x.name] == x;
    assert ShownSince(s, n, h);
    assert AtMostOne(s.log[h]);
    assert Holds(s.log[h][n], r) && Holds(s.log[h][x.name], r);
  }

  /** A fresh list with no reservation for r means there is none. */
  lemma NoneFoundNoneHeld(s: System, r: string, mine: seq<AuditLog>)
    requires Inv(s) && Exclusive(s) && r != ""
    requires Readable(s, Floor(s, r), mine) && Find(mine, ReservedFor(r)).None?
    ensures forall n :: n in s.server.items ==> !Holds(s.server.items[n], r)
  {
    forall n | n in s.server.items ensures !Holds(s.server.items[n], r) {
      assert Entry(s.log[|s.log| - 1][n], n, s.server.rev);
      if s.server.items[n].reservedFor == Some(r) {
        HeldMatches(s, n, r, ReservedFor(r), mine);
        assert false;
      }
    }
  }

  /** Appending a pool keeps AllShown if only the writer, if any, brings in reservations or claims. */
  lemma AppendKeepsShown(s: System, t: System, n: string, writer: Option<string>)
    requires |s.log| > 0 && s.log[|s.log| - 1] == s.server.items && AllShown(s)
    requires t.log == s.log + [t.server.items]
    requires forall r :: Floor(t, r) == if writer == Some(r) then |s.log| else Floor(s, r)
    requires forall m :: m != n && m in t.server.items ==> m in s.server.items && t.server.items[m] == s.server.items[m]
    requires n in t.server.items && t.server.items[n].reservedFor.Some? && t.server.items[n].reservedFor != writer ==>
      var b := t.server.items[n];
      && n in s.server.items
      && var c := s.server.items[n];
      && b.uid == c.uid && b.reservedFor == c.reservedFor && b.assignedTo == c.assignedTo
    ensures AllShown(t)
  {
    forall m, k | m in t.server.items && t.server.items[m].reservedFor.Some?
      && Floor(t, t.server.items[m].reservedFor.value) <= k < |t.log|
      ensures ShownSince(t, m, k)
    {
      if k < |s.log| {
        assert m in s.server.items && s.server.items[m].reservedFor == t.server.items[m].reservedFor;
        assert ShownSince(s, m, k);
        assert t.log[k] == s.log[k];
      }
    }
  }

  function Target(a: Action): string {
    if a.ByRuntime() then (if PlanOf(a).Write? then PlanOf(a).item.name else "") else a.name
  }

  function Writer(a: Action): Option<string> {
    if a.ByRuntime() then Some(a.r) else None
  }

  /** A step that changes the system changes one object; KALM's steps bring in no holder. */
  lemma StepChangesOne(s: System, a: Action)
    requires |s.log| > 0 && Step(s, a) != s
    requires forall n :: n in s.server.items ==> s.server.items[n].name == n
    ensures var t, n := Step(s, a), Target(a);
      && t.log == s.log + [t.server.items]
      && (forall m :: m != n && m in t.server.items ==> m in s.server.items && t.server.items[m] == s.server.items[m])
      && (forall r :: Floor(t, r) == if Writer(a) == Some(r) then |s.log| else Floor(s, r))
      && (a.ByRuntime() ==> n in t.server.items && t.server.items[n] == PlanOf(a).item.(version := s.server.rev + 1))
      && (!a.ByRuntime() && n in t.server.items ==>
            var b := t.server.items[n];
            (b.reservedFor.None? && b.assignedTo == "")
            || (n in s.server.items && b.uid == s.server.items[n].uid
                && b.reservedFor == s.server.items[n].reservedFor && b.assignedTo == s.server.items[n].assignedTo))
  {
  }

  lemma NamesAgree(s: System)
    requires Inv(s)
    ensures forall n :: n in s.server.items ==> s.server.items[n].name == n
  {
    forall n | n in s.server.items ensures s.server.items[n].name == n {
      assert Entry(s.log[|s.log| - 1][n], n, s.server.rev);
    }
  }

  lemma StepKeepsExclusive(s: System, a: Action)
    requires Inv(s) && Exclusive(s) && Enabled(s, a, OwnWritesChecked)
    ensures Exclusive(Step(s, a))
  {
    var t := Step(s, a);
    if t != s {
      NamesAgree(s);
      StepChangesOne(s, a);
      assert s.log[|s.log| - 1] == s.server.items;
      if a.ByRuntime() {
        LandedWrite(s, a, OwnWritesChecked);
        OnlyIfNoneHeld(s, a);
      }
      AppendKeepsShown(s, t, Target(a), Writer(a));
      StepKeepsAtMostOne(s, a, OwnWritesChecked);
      forall k | 0 <= k < |t.log| ensures AtMostOne(t.log[k]) {
        if k < |s.log| { assert t.log[k] == s.log[k]; }
      }
    }
  }

  /** A checked operation that takes a new object does so only when its runtime holds none. */
  lemma OnlyIfNoneHeld(s: System, a: Action)
    requires Inv(s) && Exclusive(s) && a.ByRuntime() && Enabled(s, a, OwnWritesChecked) && Lands(s, a)
    ensures var n := PlanOf(a).item.name;
      && n in s.server.items
      && (s.server.items[n].reservedFor == Some(a.r)
          || forall m :: m in s.server.items ==> !Holds(s.server.items[m], a.r))
  {
    if a.Reserve? || a.ClaimDirect? {
      NoneFoundNoneHeld(s, a.r, a.mine.value);
    } else {
      KeepsReservation(s, a, OwnWritesChecked);
    }
  }

  lemma KeepsReservation(s: System, a: Action, age: Age)
    requires Inv(s) && a.ByRuntime() && Enabled(s, a, age) && Lands(s, a)
    requires !a.Reserve? && !a.ClaimDirect?
    ensures var n := PlanOf(a).item.name;
      n in s.server.items && s.server.items[n].reservedFor == Some(a.r)
  {
    var floor := FloorFor(s, a.r, age);
    if a.Release? {
      AcceptedIsCurrent(s, floor, a.all.value, Find(a.all.value, AssignedTo(a.r)).value);
    } else {
      AcceptedIsCurrent(s, floor, a.mine.value, Find(a.mine.value, ReservedFor(a.r)).value);
    }
    var n := PlanOf(a).item.name;
    assert Entry(s.log[|s.log| - 1][n], n, s.server.rev);
  }

  lemma ReplaceKeepsAtMostOne(p: Pool, q: Pool, n: string)
    requires AtMostOne(p)
    requires forall m :: m != n && m in q ==> m in p && q[m] == p[m]
    requires n in q ==> forall r :: Holds(q[n], r) ==>
      (n in p && Holds(p[n], r)) || (forall m :: m in p ==> !Holds(p[m], r))
    ensures AtMostOne(q)
  {
  }

  lemma StepKeepsAtMostOne(s: System, a: Action, age: Age)
    requires Inv(s) && AtMostOne(s.server.items) && Enabled(s, a, age)
    requires a.ByRuntime() && Lands(s, a) ==>
      var n := PlanOf(a).item.name;
      n in s.server.items
      && (s.server.items[n].reservedFor == Some(a.r)
          || forall m :: m in s.server.items ==> !Holds(s.server.items[m], a.r))
    ensures AtMostOne(Step(s, a).server.items)
  {
    var p, q := s.server.items, Step(s, a).server.items;
    if Step(s, a) != s {
      NamesAgree(s);
      StepChangesOne(s, a);
      var n := Target(a);
      if a.ByRuntime() {
        LandedWrite(s, a, age);
        forall r | Holds(q[n], r) ensures r == a.r {
          assert WellFormed(PlanOf(a).item);
        }
      }
      ReplaceKeepsAtMostOne(p, q, n);
    }
  }

  lemma {:induction false} RunKeepsExclusive(s: System, acts: seq<Action>)
    requires Initial(s)
    ensures Inv(Exec(s, acts, OwnWritesChecked)) && Exclusive(Exec(s, acts, OwnWritesChecked))
  {
    RunKeepsInv(s, acts, OwnWritesChecked);
    if acts != [] {
      var before := acts[..|acts| - 1];
      RunKeepsExclusive(s, before);
      var p := Exec(s, before, OwnWritesChecked);
      if Enabled(p, acts[|acts| - 1], OwnWritesChecked) {
        StepKeepsExclusive(p, acts[|acts| - 1]);
      }
    }
  }

  /** At every moment of every run, no runtime is the holder of two objects. */
  lemma OneObjectPerRuntime(s: System, acts: seq<Action>)
    requires Initial(s)
    ensures forall k :: 0 <= k < |Exec(s, acts, OwnWritesChecked).log| ==>
      AtMostOne(Exec(s, acts, OwnWritesChecked).log[k])
  {
    RunKeepsExclusive(s, acts);
  }

  ghost predicate ReadsOf(s: System, r: string, l: Reads) {
    && ReadableIfAny(s, Floor(s, r), l.all) && ReadableIfAny(s, Floor(s, r), l.mine)
    && ReadableIfAny(s, Floor(s, r), l.allAgain) && ReadableIfAny(s, Floor(s, r), l.mineAgain)
    && ReadableIfAny(s, Floor(s, r), l.pool)
  }

  /** In pool i of the log n was assigned to r, and it is still there. */
  ghost predicate ClaimedAt(s: System, i: nat, n: string, r: string) {
    && r != "" && i < |s.log| && n in s.log[i] && s.log[i][n].assignedTo == r
    && n in s.server.items && s.server.items[n].uid == s.log[i][n].uid
  }

  /** If the list arrived, the object assigned to r that it shows first is n. */
  predicate ShowsClaim(l: Listing, r: string, n: string, data: AuditLogData) {
    l.Some? ==>
      var x := Find(l.value, AssignedTo(r));
      x.Some? && x.value.name == n && SameTarget(x.value.data, data)
  }

  predicate NotOffered(l: Listing, region: string, n: string) {
    l.Some? ==>
      var x := Find(l.value, AvailableIn(region));
      x.Some? ==> x.value.name != n
  }

  lemma ClaimIsListed(t: System, i: nat, n: string, r: string, l: Listing)
    requires Inv(t) && Exclusive(t) && ClaimedAt(t, i, n, r) && ReadableIfAny(t, Floor(t, r), l)
    ensures ShowsClaim(l, r, n, t.log[i][n].data)
  {
    if l.Some? {
      var last := |t.log| - 1;
      assert t.log[last] == t.server.items;
      StaysAssigned(t, i, last, n);
      HeldIsListed(t, n, r, AssignedTo(r), l.value);
      var x := Find(l.value, AssignedTo(r)).value;
      var h :| 0 <= h < |t.log| && n in t.log[h] && t.log[h][n] == x;
      if i <= h { StaysAssigned(t, i, h, n); } else { StaysAssigned(t, h, i, n); }
    }
  }

  /** A fresh list never shows the object of r as free. */
  lemma ClaimIsNotOffered(t: System, i: nat, n: string, r: string, l: Listing, region: string)
    requires Inv(t) && Exclusive(t) && ClaimedAt(t, i, n, r) && ReadableIfAny(t, Floor(t, r), l)
    ensures NotOffered(l, region, n)
  {
    if l.Some? {
      var last := |t.log| - 1;
      assert t.log[last] == t.server.items;
      StaysAssigned(t, i, last, n);
      assert Entry(t.log[last][n], n, t.server.rev);
      forall x | x in l.value && x.name == n ensures x.reservedFor == Some(r) {
        assert SeenSince(t, Floor(t, r), x);
        var h :| Floor(t, r) <= h < |t.log| && n in t.log[h] && t.log[h][n] == x;
        assert ShownSince(t, n, h);
      }
    }
  }

  ghost predicate Answers(source: Source, n: string, data: AuditLogData) {
    source.Dedicated? && source.item.name == n && SameTarget(source.item.data, data)
  }

  lemma AnswerOf(requested: bool, l: Reads, r: string, region: string, now: int, sv: Server, d: Delivery, n: string, data: AuditLogData)
    requires ShowsClaim(l.all, r, n, data) && ShowsClaim(l.allAgain, r, n, data) && NotOffered(l.pool, region, n)
    ensures var source := Resolve(true, requested, l, r, region, now, sv, d);
      && (Answers(source, n, data) <==> l.all.Some? || (requested && l.allAgain.Some?))
      && (source.Shared? <==> l.all.None? && !requested)
      && (source.Dedicated? && l.all.None? && l.allAgain.None? ==> source.item.name != n)
  {
  }

  /**
   Once an object has been assigned to r and as long as it exists, resolveAuditLogData with the
   feature on answers with that object's settings exactly when the List call for all objects
   arrives the first time, or, with the flag set, the second time.  Otherwise it is the shared
   settings with the flag off, and a failure or another object with the flag set.
   */
  lemma ClaimIsFoundAgain(s: System, acts: seq<Action>, i: nat, n: string, r: string,
                          requested: bool, l: Reads, region: string, now: int, d: Delivery)
    requires Initial(s) && ClaimedAt(Exec(s, acts, OwnWritesChecked), i, n, r)
    requires ReadsOf(Exec(s, acts, OwnWritesChecked), r, l)
    ensures var t := Exec(s, acts, OwnWritesChecked);
      var source := Resolve(true, requested, l, r, region, now, t.server, d);
      && (Answers(source, n, t.log[i][n].data) <==> l.all.Some? || (requested && l.allAgain.Some?))
      && (source.Shared? <==> l.all.None? && !requested)
      && (source.Dedicated? && l.all.None? && l.allAgain.None? ==> source.item.name != n)
  {
    var t := Exec(s, acts, OwnWritesChecked);
    RunKeepsExclusive(s, acts);
    ClaimIsListed(t, i, n, r, l.all);
    ClaimIsListed(t, i, n, r, l.allAgain);
    ClaimIsNotOffered(t, i, n, r, l.pool, region);
    AnswerOf(requested, l, r, region, now, t.server, d, n, t.log[i][n].data);
  }

  /**
   Phase 2 upgrades the object phase 1 reserved: while r's reservation of n stands, a claim on a
   fresh list aims at n and at nothing else.
   */
  lemma ClaimFollowsReservation(s: System, acts: seq<Action>, n: string, r: string, mine: seq<AuditLog>)
    requires Initial(s) && r != ""
    requires var t := Exec(s, acts, OwnWritesChecked);
      n in t.server.items && t.server.items[n].reservedFor == Some(r) && Readable(t, Floor(t, r), mine)
    ensures var t := Exec(s, acts, OwnWritesChecked);
      match ClaimReservedPlan(Some(mine), r)
      case Write(item) => item.name == n && item.assignedTo == r
      case Done(found) => found.Some? && found.value.name == n && found.value.assignedTo == r
      case Fail(_) => false
  {
    RunKeepsExclusive(s, acts);
    HeldIsListed(Exec(s, acts, OwnWritesChecked), n, r, ReservedFor(r), mine);
  }

  // ---- where the conditions are needed ----

  /**
   A direct claim that takes effect leaves its runtime with one object exactly when the runtime
   held none before; a lookup whose lists arrived guarantees that.
   */
  lemma DirectClaimExact(s: System, a: Action)
    requires Inv(s) && Exclusive(s) && a.ClaimDirect? && Enabled(s, a, OwnWrites) && Lands(s, a)
    ensures AtMostOne(Step(s, a).server.items) <==> forall m :: m in s.server.items ==> !Holds(s.server.items[m], a.r)
    ensures CheckDelivered(a) ==> AtMostOne(Step(s, a).server.items)
  {
    CheckedClaimKeepsOne(s, a);
    if m :| m in s.server.items && Holds(s.server.items[m], a.r) {
      SecondClaim(s, a, m);
    } else {
      FirstClaim(s, a);
    }
  }

  lemma FirstClaim(s: System, a: Action)
    requires Inv(s) && Exclusive(s) && a.ClaimDirect? && Enabled(s, a, OwnWrites) && Lands(s, a)
    requires forall m :: m in s.server.items ==> !Holds(s.server.items[m], a.r)
    ensures AtMostOne(Step(s, a).server.items)
  {
    assert s.log[|s.log| - 1] == s.server.items;
    LandedWrite(s, a, OwnWrites);
    StepKeepsAtMostOne(s, a, OwnWrites);
  }

  lemma CheckedClaimKeepsOne(s: System, a: Action)
    requires Inv(s) && Exclusive(s) && a.ClaimDirect? && Enabled(s, a, OwnWrites) && Lands(s, a)
    ensures CheckDelivered(a) ==> AtMostOne(Step(s, a).server.items)
  {
    if CheckDelivered(a) {
      assert s.log[|s.log| - 1] == s.server.items;
      assert Enabled(s, a, OwnWritesChecked);
      OnlyIfNoneHeld(s, a);
      StepKeepsAtMostOne(s, a, OwnWritesChecked);
    }
  }

  lemma SecondClaim(s: System, a: Action, m: string)
    requires Inv(s) && a.ClaimDirect? && Enabled(s, a, OwnWrites) && Lands(s, a)
    requires m in s.server.items && Holds(s.server.items[m], a.r)
    ensures !AtMostOne(Step(s, a).server.items)
  {
    var q := Step(s, a).server.items;
    var x := Find(a.pool.value, AvailableIn(a.region)).value;
    AcceptedIsCurrent(s, Floor(s, a.r), a.pool.value, x);
    assert m != x.name;
    assert Holds(q[m], a.r) && Holds(q[x.name], a.r);
  }

  lemma TwoSteps(s: System, a: Action, b: Action, age: Age)
    requires Enabled(s, a, age) && Enabled(Step(s, a), b, age)
    ensures Exec(s, [a, b], age) == Step(Step(s, a), b)
  {
    assert [a, b][..1] == [a] && [a][..0] == [];
    assert Exec(s, [], age) == s;
    assert Exec(s, [a], age) == Step(s, a);
  }

  function Sample(name: string): AuditLog {
    AuditLog(name, 0, 0, None, None, ["eu"], "", false, SiemApproved, AuditLogData("t", "u", "s", ""))
  }

  const TWO_FREE: Pool := map["a" := Sample("a"), "b" := Sample("b")]

  const START: System := System(Server(TWO_FREE, 0), [TWO_FREE], map[])

  const RESERVED: AuditLog := Sample("a").(version := 1, reservedFor := Some("r"), reservedAt := Some(0))
  const ONE_RESERVED: Pool := TWO_FREE["a" := RESERVED]
  const AFTER_RESERVE: System := System(Server(ONE_RESERVED, 1), [TWO_FREE, ONE_RESERVED], map["r" := 1])

  function ReserveFrom(mine: seq<AuditLog>, pool: seq<AuditLog>, now: int): Action {
    Reserve("r", "eu", now, Some(mine), Some(pool), Acknowledged)
  }

  lemma ReserveFirst()
    ensures var l := [Sample("a"), Sample("b")];
      Enabled(START, ReserveFrom(l, l, 0), AnyAge) && Step(START, ReserveFrom(l, l, 0)) == AFTER_RESERVE
  {
    var l := [Sample("a"), Sample("b")];
    ListOfBoth(START, l);
    assert Find(l, ReservedFor("r")).None?;
    assert Find(l, AvailableIn("eu")) == Some(Sample("a"));
  }

  lemma ReserveSecond()
    ensures var a := ReserveFrom([Sample("a"), Sample("b")], [Sample("b"), Sample("a")], 1);
      Enabled(AFTER_RESERVE, a, AnyAge) && !AtMostOne(Step(AFTER_RESERVE, a).server.items)
  {
    var l, l' := [Sample("a"), Sample("b")], [Sample("b"), Sample("a")];
    ListOfBoth(AFTER_RESERVE, l);
    ListOfBoth(AFTER_RESERVE, l');
    assert Find(l, ReservedFor("r")).None?;
    assert Find(l', AvailableIn("eu")) == Some(Sample("b"));
    var q := Step(AFTER_RESERVE, ReserveFrom(l, l', 1)).server.items;
    assert Holds(q["a"], "r") && Holds(q["b"], "r");
  }

  /** With reads that miss the runtime's own reservation, it reserves a second object. */
  lemma StaleReadsReserveTwice()
    ensures Initial(START)
    ensures var l, l' := [Sample("a"), Sample("b")], [Sample("b"), Sample("a")];
      !AtMostOne(Exec(START, [ReserveFrom(l, l, 0), ReserveFrom(l, l', 1)], AnyAge).server.items)
  {
    var l, l' := [Sample("a"), Sample("b")], [Sample("b"), Sample("a")];
    ReserveFirst();
    ReserveSecond();
    TwoSteps(START, ReserveFrom(l, l, 0), ReserveFrom(l, l', 1), AnyAge);
  }

  lemma ListOfBoth(s: System, l: seq<AuditLog>)
    requires |s.log| > 0 && s.log[0] == TWO_FREE
    requires l == [Sample("a"), Sample("b")] || l == [Sample("b"), Sample("a")]
    ensures Readable(s, 0, l)
  {
    forall i | 0 <= i < |l| ensures SeenSince(s, 0, l[i]) {
      assert l[i].name in s.log[0] && s.log[0][l[i].name] == l[i];
    }
    forall n | AlwaysThere(s, 0, n) ensures exists i :: 0 <= i < |l| && l[i].name == n {
      assert n in s.log[0];
      assert l[0].name == n || l[1].name == n;
    }
  }

  const TAKEN: AuditLog := Sample("a").(version := 1, reservedFor := Some("r"), reservedAt := Some(0), assignedTo := "r")
  const ONE_TAKEN: Pool := TWO_FREE["a" := TAKEN]
  const AFTER_ONE: System := System(Server(ONE_TAKEN, 1), [TWO_FREE, ONE_TAKEN], map["r" := 1])

  function ClaimBoth(all: Listing, l: seq<AuditLog>, now: int): Action {
    ClaimDirect("r", "eu", now, all, Some(l), Some(l), Acknowledged)
  }

  lemma ClaimFirst()
    ensures var l := [Sample("a"), Sample("b")]; var a := ClaimBoth(Some(l), l, 0);
      Enabled(START, a, OwnWrites) && Step(START, a) == AFTER_ONE
  {
    var l := [Sample("a"), Sample("b")];
    ListOfBoth(START, l);
    assert Find(l, AssignedTo("r")).None? && Find(l, ReservedFor("r")).None?;
    assert Find(l, AvailableIn("eu")) == Some(Sample("a"));
  }

  lemma ClaimSecond()
    ensures var a := ClaimBoth(None, [TAKEN, Sample("b")], 1);
      Enabled(AFTER_ONE, a, OwnWrites) && !AtMostOne(Step(AFTER_ONE, a).server.items)
  {
    var l := [TAKEN, Sample("b")];
    ListAfterFirst(AFTER_ONE, l);
    assert Find(l, AvailableIn("eu")) == Some(Sample("b"));
    var q := Step(AFTER_ONE, ClaimBoth(None, l, 1)).server.items;
    assert Holds(q["a"], "r") && Holds(q["b"], "r");
  }

  /** A failed List in ClaimAuditLog's lookup lets a runtime that holds an object claim another. */
  lemma FailedLookupClaimsTwice()
    ensures Initial(START)
    ensures var l := [Sample("a"), Sample("b")];
      var acts := [ClaimBoth(Some(l), l, 0), ClaimBoth(None, [TAKEN, Sample("b")], 1)];
      !AtMostOne(Exec(START, acts, OwnWrites).server.items)
  {
    var l := [Sample("a"), Sample("b")];
    ClaimFirst();
    ClaimSecond();
    TwoSteps(START, ClaimBoth(Some(l), l, 0), ClaimBoth(None, [TAKEN, Sample("b")], 1), OwnWrites);
  }

  /**
   The two ways in which r, which has claimed a, is not answered with a: the first List fails
   and the flag is off, or both fail and there is another free object.
   */
  lemma FailedLookupsForget()
    ensures ClaimedAt(AFTER_ONE, 1, "a", "r")
    ensures var l := [Sample("a"), Sample("b")]; Exec(START, [ClaimBoth(Some(l), l, 0)], OwnWritesChecked) == AFTER_ONE
    ensures forall l: Reads, d :: l.all.None? ==> Resolve(true, false, l, "r", "eu", 1, AFTER_ONE.server, d).Shared?
    ensures var l := Reads(None, None, None, None, Some([TAKEN, Sample("b")]));
      && ReadsOf(AFTER_ONE, "r", l)
      && var source := Resolve(true, true, l, "r", "eu", 1, AFTER_ONE.server, Acknowledged);
      source.Dedicated? && source.item.name == "b"
  {
    var l := [Sample("a"), Sample("b")];
    var first := ClaimBoth(Some(l), l, 0);
    ClaimFirst();
    assert Enabled(START, first, OwnWritesChecked);
    assert [first][..0] == [];
    assert Exec(START, [], OwnWritesChecked) == START;
    assert Exec(START, [first], OwnWritesChecked) == AFTER_ONE;
    ListAfterFirst(AFTER_ONE, [TAKEN, Sample("b")]);
    assert Find([TAKEN, Sample("b")], AvailableIn("eu")) == Some(Sample("b"));
  }

  lemma ListAfterFirst(s: System, l: seq<AuditLog>)
    requires |s.log| == 2 && s.log[1].Keys == {"a", "b"} && l == [s.log[1]["a"], s.log[1]["b"]]
    requires s.log[1]["a"].name == "a" && s.log[1]["b"].name == "b"
    ensures Readable(s, 1, l)
  {
    forall i | 0 <= i < |l| ensures SeenSince(s, 1, l[i]) {
      assert l[i].name in s.log[1] && s.log[1][l[i].name] == l[i];
    }
    forall n | AlwaysThere(s, 1, n) ensures exists i :: 0 <= i < |l| && l[i].name == n {
      assert n in s.log[1];
      assert l[0].name == n || l[1].name == n;
    }
  }
}
