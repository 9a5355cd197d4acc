/**
 Clamping the kubelet's maxPods of the workers: first per node, then so that together they do
 not ask for more pod addresses than there are.  The loop takes from the last worker first;
 what it leaves is the lexicographically greatest assignment that fits.
 */
module MaxPods {
  import opened Wrappers
  import Cidr

  /** maxPods of each worker, where it is set. */
  type Workers = seq<Option<int>>

  datatype Error = TotalTooSmall | Unsatisfiable | InvalidPodsCidr

  function ValueOf(v: Option<int>): int {
    if v.None? then 0 else v.value
  }

  /** What a worker keeps at least: 1, or its own value where that is smaller already. */
  function FloorOf(v: Option<int>): int {
    if v.None? then 0 else if v.value < 1 then v.value else 1
  }

  /** Over the first n workers. */
  function SumTo(s: Workers, n: nat): int
    requires n <= |s|
  {
    if n == 0 then 0 else SumTo(s, n - 1) + ValueOf(s[n - 1])
  }

  function SlackTo(s: Workers, n: nat): nat
    requires n <= |s|
  {
    if n == 0 then 0 else SlackTo(s, n - 1) + ValueOf(s[n - 1]) - FloorOf(s[n - 1])
  }

  function Sum(s: Workers): int {
    SumTo(s, |s|)
  }

  /** How much can be taken away in all. */
  function Slack(s: Workers): nat {
    SlackTo(s, |s|)
  }

  // ---- the specification of the loop ----

  function Min(a: int, b: int): int {
    if a < b then a else b
  }

  function Cut(v: Option<int>, excess: nat): (r: nat)
    ensures r <= excess
  {
    Min(excess, ValueOf(v) - FloorOf(v))
  }

  function Reduced(v: Option<int>, amount: nat): Option<int> {
    if v.None? then None else Some(v.value - amount)
  }

  /** Take `excess` away from the first n, from the back, each down to its floor before the next. */
  function GreedyTo(s: Workers, n: nat, excess: nat): (r: Workers)
    requires n <= |s|
    ensures |r| == n
  {
    if n == 0 then []
    else
      var cut := Cut(s[n - 1], excess);
      GreedyTo(s, n - 1, excess - cut) + [Reduced(s[n - 1], cut)]
  }

  function Greedy(s: Workers, excess: nat): Workers {
    GreedyTo(s, |s|, excess)
  }

  lemma {:induction false} GreedyTakesNothing(s: Workers, n: nat)
    requires n <= |s|
    ensures GreedyTo(s, n, 0) == s[..n]
  {
    if n > 0 { GreedyTakesNothing(s, n - 1); }
  }

  // ---- what the greedy result is ----

  /** t keeps unset workers unset and lies between the floors and the original values. */
  predicate Between(s: Workers, t: Workers) {
    && |t| == |s|
    && forall i :: 0 <= i < |s| ==> t[i].Some? == s[i].Some? && FloorOf(s[i]) <= ValueOf(t[i]) <= ValueOf(s[i])
  }

  predicate LexLess(t: Workers, u: Workers) {
    |t| == |u| && exists i :: 0 <= i < |t| && t[..i] == u[..i] && ValueOf(t[i]) < ValueOf(u[i])
  }

  lemma {:induction false} BetweenSums(s: Workers, t: Workers, n: nat)
    requires Between(s, t) && n <= |s|
    ensures SumTo(s, n) - SlackTo(s, n) <= SumTo(t, n) <= SumTo(s, n)
  {
    if n > 0 { BetweenSums(s, t, n - 1); }
  }

  /** The greedy values of the first n, one by one. */
  lemma {:induction false} GreedyStaysBetween(s: Workers, n: nat, excess: nat)
    requires n <= |s|
    ensures forall i :: 0 <= i < n ==> var r := GreedyTo(s, n, excess)[i];
      r.Some? == s[i].Some? && FloorOf(s[i]) <= ValueOf(r) <= ValueOf(s[i])
  {
    if n > 0 { GreedyStaysBetween(s, n - 1, excess - Cut(s[n - 1], excess)); }
  }

  lemma {:induction false} SumOfSame(s: Workers, t: Workers, n: nat)
    requires n <= |s| && n <= |t| && forall i :: 0 <= i < n ==> s[i] == t[i]
    ensures SumTo(s, n) == SumTo(t, n)
  {
    if n > 0 { SumOfSame(s, t, n - 1); }
  }

  lemma {:induction false} GreedySum(s: Workers, n: nat, excess: nat)
    requires n <= |s|
    ensures Sum(GreedyTo(s, n, excess)) == SumTo(s, n) - Min(excess, SlackTo(s, n))
  {
    if n > 0 {
      var rest := excess - Cut(s[n - 1], excess);
      GreedySum(s, n - 1, rest);
      SumOfSame(GreedyTo(s, n, excess), GreedyTo(s, n - 1, rest), n - 1);
    }
  }

  /** Of all assignments that free the excess, the greedy one is lexicographically greatest. */
  lemma {:induction false} GreedyIsGreatest(s: Workers, n: nat, excess: nat, t: Workers)
    requires Between(s, t) && n <= |s| && SumTo(t, n) <= SumTo(s, n) - excess
    ensures t[..n] == GreedyTo(s, n, excess) || LexLess(t[..n], GreedyTo(s, n, excess))
  {
    if n > 0 {
      var m, rest := n - 1, excess - Cut(s[n - 1], excess);
      BetweenSums(s, t, m);
      GreedyIsGreatest(s, m, rest, t);
      var g, h := GreedyTo(s, n, excess), GreedyTo(s, m, rest);
      assert t[..n] == t[..m] + [t[m]];
      if t[..m] == h {
        GreedySum(s, n, excess);
        GreedyStaysBetween(s, n, excess);
        BetweenSums(s, t, n);
        SumOfSame(t, g, m);
        LastDecides(h, t[m], g[m]);
      } else {
        LexLessExtends(t[..m], h, t[m], g[m]);
      }
    }
  }

  lemma LexLessExtends(t: Workers, u: Workers, x: Option<int>, y: Option<int>)
    requires LexLess(t, u)
    ensures LexLess(t + [x], u + [y])
  {
    var i :| 0 <= i < |t| && t[..i] == u[..i] && ValueOf(t[i]) < ValueOf(u[i]);
    assert (t + [x])[..i] == t[..i] && (u + [y])[..i] == u[..i];
  }

  lemma LastDecides(h: Workers, x: Option<int>, y: Option<int>)
    requires x.Some? == y.Some? && ValueOf(x) <= ValueOf(y)
    ensures h + [x] == h + [y] || LexLess(h + [x], h + [y])
  {
    assert (h + [x])[..|h|] == h && (h + [y])[..|h|] == h;
  }

  // ---- the operations ----

  /** The workers' own array is changed in place. */
  method ApplyPerNodeMaxPodsCap(workers: array<Option<int>>, perNodeLimit: int)
    modifies workers
    ensures forall i :: 0 <= i < workers.Length ==>
              workers[i] == if old(workers[i]).None? then None else Some(Min(old(workers[i]).value, perNodeLimit))
  {
    for i := 0 to workers.Length
      invariant forall j :: 0 <= j < i ==>
                  workers[j] == if old(workers[j]).None? then None else Some(Min(old(workers[j]).value, perNodeLimit))
      invariant forall j :: i <= j < workers.Length ==> workers[j] == old(workers[j])
    {
      if workers[i].Some? && workers[i].value > perNodeLimit {
        workers[i] := Some(perNodeLimit);
      }
    }
  }

  method CollectMaxPodsIndices(workers: array<Option<int>>) returns (sum: int, indices: seq<nat>)
    ensures sum == Sum(workers[..])
    ensures Listed(workers[..], indices)
  {
    sum, indices := 0, [];
    for i := 0 to workers.Length
      invariant sum == SumTo(workers[..], i)
      invariant forall k :: 0 <= k < |indices| ==> indices[k] < i && workers[indices[k]].Some?
      invariant forall k, l :: 0 <= k < l < |indices| ==> indices[k] < indices[l]
      invariant forall j :: 0 <= j < i && workers[j].Some? ==> j in indices
    {
      if workers[i].Some? {
        sum := sum + workers[i].value;
        indices := indices + [i];
      }
    }
  }

  method ReduceWorkerMaxPods(workers: array<Option<int>>, i: nat, excess: nat) returns (reduction: nat)
    requires i < workers.Length && workers[i].Some?
    modifies workers
    ensures reduction == Cut(old(workers[i]), excess)
    ensures workers[..] == old(workers[..])[i := Reduced(old(workers[i]), reduction)]
  {
    var current := workers[i].value;
    if current <= 1 { return 0; }
    reduction := Min(excess, current - 1);
    workers[i] := Some(current - reduction);
  }

  lemma {:induction false} GreedySkipsUnset(s: Workers, b: nat, n: nat, excess: nat)
    requires b <= n <= |s| && forall j :: b <= j < n ==> s[j].None?
    ensures GreedyTo(s, n, excess) == GreedyTo(s, b, excess) + s[b..n]
  {
    if b < n {
      GreedySkipsUnset(s, b, n - 1, excess);
      assert s[b..n] == s[b..n - 1] + [s[n - 1]];
    }
  }

  function Excess(s: Workers, totalIPs: int): nat {
    if Sum(s) > totalIPs then Sum(s) - totalIPs else 0
  }

  lemma {:induction false} SumUpdate(s: Workers, i: nat, v: Option<int>, n: nat)
    requires i < n <= |s|
    ensures SumTo(s[i := v], n) == SumTo(s, n) - ValueOf(s[i]) + ValueOf(v)
  {
    if i < n - 1 { SumUpdate(s, i, v, n - 1); } else { SumOfSame(s, s[i := v], n - 1); }
  }

  /** The indices of the workers with maxPods, in order. */
  predicate Listed(s: Workers, indices: seq<nat>) {
    && (forall k :: 0 <= k < |indices| ==> indices[k] < |s| && s[indices[k]].Some?)
    && (forall k, l :: 0 <= k < l < |indices| ==> indices[k] < indices[l])
    && (forall j :: 0 <= j < |s| && s[j].Some? ==> j in indices)
  }

  /** How many workers the loop has still to look at when it has come down to indices[i]. */
  function Bound(indices: seq<nat>, i: int): nat
    requires -1 <= i < |indices|
  {
    if i < 0 then 0 else indices[i] + 1
  }

  lemma UnsetBetween(s: Workers, indices: seq<nat>, i: int, n: nat)
    requires Listed(s, indices) && -1 <= i < |indices| && n == if i + 1 < |indices| then indices[i + 1] else |s|
    ensures Bound(indices, i) <= n <= |s| && forall j :: Bound(indices, i) <= j < n ==> s[j].None?
  {
    forall k | 0 <= k < |indices| ensures indices[k] < Bound(indices, i) || n <= indices[k] {
      if k < i { assert indices[k] < indices[i]; }
      if k > i + 1 { assert indices[i + 1] < indices[k]; }
    }
  }

  /** The first b workers are as they were; greedy cutting of those would complete what is done. */
  predicate Underway(was: Workers, now: Workers, whole: Workers, b: nat, excess: nat, totalIPs: int) {
    && |now| == |was| && b <= |was|
    && (forall i :: 0 <= i < b ==> now[i] == was[i])
    && whole == GreedyTo(was, b, excess) + now[b..]
    && Sum(now) == totalIPs + excess
  }

  lemma LoopStarts(was: Workers, indices: seq<nat>, excess: nat, totalIPs: int)
    requires Listed(was, indices) && Sum(was) == totalIPs + excess
    ensures Underway(was, was, Greedy(was, excess), Bound(indices, |indices| - 1), excess, totalIPs)
  {
    UnsetBetween(was, indices, |indices| - 1, |was|);
    GreedySkipsUnset(was, Bound(indices, |indices| - 1), |was|, excess);
  }

  /** One turn of the loop: worker indices[i] is cut, and the unset ones before it are skipped. */
  lemma TurnKeeps(was: Workers, before: Workers, after: Workers, whole: Workers, indices: seq<nat>, i: nat, excess: nat, totalIPs: int)
    requires Listed(was, indices) && i < |indices|
    requires Underway(was, before, whole, indices[i] + 1, excess, totalIPs)
    requires after == before[indices[i] := Reduced(was[indices[i]], Cut(was[indices[i]], excess))]
    ensures Underway(was, after, whole, Bound(indices, i - 1), excess - Cut(was[indices[i]], excess), totalIPs)
  {
    var j, b := indices[i], Bound(indices, i - 1);
    var rest := excess - Cut(was[j], excess);
    UnsetBetween(was, indices, i - 1, j);
    GreedySkipsUnset(was, b, j, rest);
    SumUpdate(before, j, after[j], |was|);
    assert was[b..j] == before[b..j];
    assert after[b..] == was[b..j] + [after[j]] + before[j + 1..];
  }

  lemma LoopEnds(was: Workers, now: Workers, whole: Workers, b: nat, excess: nat, totalIPs: int)
    requires Underway(was, now, whole, b, excess, totalIPs) && (b == 0 || excess == 0)
    ensures whole == now
  {
    if excess == 0 { GreedyTakesNothing(was, b); }
  }

  /** From the last worker with maxPods backwards, until nothing is left to take. */
  method ApplyMaxPodsWithTotalCap(workers: array<Option<int>>, totalIPs: int) returns (err: Option<Error>)
    modifies workers
    ensures totalIPs < 1 ==> err == Some(TotalTooSmall) && workers[..] == old(workers[..])
    ensures totalIPs >= 1 ==>
      && workers[..] == Greedy(old(workers[..]), Excess(old(workers[..]), totalIPs))
      && err == if Sum(old(workers[..])) - Slack(old(workers[..])) > totalIPs then Some(Unsatisfiable) else None
  {
    if totalIPs < 1 { return Some(TotalTooSmall); }
    ghost var was := workers[..];
    var currentSum, indices := CollectMaxPodsIndices(workers);
    if currentSum <= totalIPs {
      GreedyTakesNothing(was, |was|);
      return None;
    }
    var excess := currentSum - totalIPs;
    ghost var whole := Greedy(was, excess);
    GreedySum(was, |was|, excess);
    LoopStarts(was, indices, excess, totalIPs);
    var i := |indices| - 1;
    ghost var now := was;
    while i >= 0 && excess > 0
      invariant -1 <= i < |indices| && excess >= 0
      invariant now == workers[..] && Underway(was, now, whole, Bound(indices, i), excess, totalIPs)
    {
      assert now[indices[i]] == was[indices[i]];
      var reduction := ReduceWorkerMaxPods(workers, indices[i], excess);
      TurnKeeps(was, now, workers[..], whole, indices, i, excess, totalIPs);
      now := workers[..];
      excess := excess - reduction;
      i := i - 1;
    }
    LoopEnds(was, now, whole, Bound(indices, i), excess, totalIPs);
    if excess > 0 { return Some(Unsatisfiable); }
    return None;
  }

  // ---- the two caps together ----

  /** usable pod addresses of an IPv4 range; /31 is a point-to-point link (RFC 3021, section 2.1) */
  datatype PodsCidr = Unparsable | NotIPv4 | IPv4(bits: nat)

  const MAX_INT32: int := 0x7fff_ffff

  function MaxPodsFromCidr(cidr: PodsCidr): (r: Option<int>)
    requires cidr.IPv4? ==> cidr.bits <= 32
    ensures r.Some? <==> cidr.IPv4? && cidr.bits >= 2
    ensures r.Some? && cidr.bits <= 30 ==> r.value == Cidr.Size(cidr.bits) - 2 || Cidr.Size(cidr.bits) - 2 > MAX_INT32
    ensures r.Some? ==> 1 <= r.value <= MAX_INT32
  {
    if !cidr.IPv4? || cidr.bits < 2 then None
    else if cidr.bits == 32 then Some(1)
    else if cidr.bits == 31 then Some(2)
    else
      var count := Cidr.Size(cidr.bits) - 2;
      Cidr.SmallPowers();
      Cidr.SizeSplits(cidr.bits, 30 - cidr.bits);
      SizeGrows(cidr.bits);
      if count > MAX_INT32 then Some(MAX_INT32) else Some(count)
  }

  lemma SizeGrows(bits: nat)
    requires bits <= 30
    ensures Cidr.Size(bits) >= 4
  {
    Cidr.SmallPowers();
    Cidr.SizeSplits(bits, 30 - bits);
    Cidr.PositivePow2(30 - bits);
    Cidr.MulGrows(4, Cidr.Pow2(30 - bits), 1);
  }

  /** The cap at the 32-bit maximum is never reached. */
  lemma CapIsUnreachable(bits: nat)
    requires 2 <= bits <= 30
    ensures MaxPodsFromCidr(IPv4(bits)) == Some(Cidr.Size(bits) - 2)
  {
    Cidr.SmallPowers();
    Cidr.AllAddresses();
    Cidr.SizeSplits(0, bits);
    Cidr.Pow2Adds(2, bits - 2);
    Cidr.PositivePow2(bits - 2);
    Cidr.MulGrows(Cidr.Size(bits), Cidr.Pow2(bits), 4);
  }

  function Capped(s: Workers, limit: int): Workers {
    seq(|s|, i requires 0 <= i < |s| => if s[i].None? then None else Some(Min(s[i].value, limit)))
  }

  /** The per-node limit is the number of usable addresses of a /24. */
  const PER_NODE_LIMIT: int := 254

  /** None for the pod range is the empty string, for which only the per-node cap applies. */
  method SetWorkerSettings(workers: array<Option<int>>, podsCidr: Option<PodsCidr>) returns (err: Option<Error>)
    requires podsCidr.Some? && podsCidr.value.IPv4? ==> podsCidr.value.bits <= 32
    modifies workers
    ensures var capped := Capped(old(workers[..]), PER_NODE_LIMIT);
      if podsCidr.None? then err == None && workers[..] == capped
      else
        var total := MaxPodsFromCidr(podsCidr.value);
        if total.None? then err == Some(InvalidPodsCidr) && workers[..] == capped
        else
          && workers[..] == Greedy(capped, Excess(capped, total.value))
          && err == if Sum(capped) - Slack(capped) > total.value then Some(Unsatisfiable) else None
  {
    PerNodeLimitIsSlash24();
    var perNodeLimit := MaxPodsFromCidr(IPv4(24));
    ghost var was := workers[..];
    ApplyPerNodeMaxPodsCap(workers, perNodeLimit.value);
    assert workers[..] == Capped(was, PER_NODE_LIMIT);
    if podsCidr.None? { return None; }
    var totalIPs := MaxPodsFromCidr(podsCidr.value);
    if totalIPs.None? { return Some(InvalidPodsCidr); }
    err := ApplyMaxPodsWithTotalCap(workers, totalIPs.value);
  }

  lemma PerNodeLimitIsSlash24()
    ensures MaxPodsFromCidr(IPv4(24)) == Some(PER_NODE_LIMIT)
  {
    Cidr.SmallPowers();
    CapIsUnreachable(24);
  }

  /** The result of clamping fits both limits wherever the floors do, and is the greatest that does. */
  lemma ClampIsOptimal(s: Workers, totalIPs: int)
    requires Sum(s) - Slack(s) <= totalIPs
    ensures var r := Greedy(s, Excess(s, totalIPs));
      && Between(s, r) && Sum(r) == Min(Sum(s), totalIPs)
      && forall t :: Between(s, t) && Sum(t) <= totalIPs ==> t == r || LexLess(t, r)
  {
    var e := Excess(s, totalIPs);
    GreedyStaysBetween(s, |s|, e);
    GreedySum(s, |s|, e);
    forall t | Between(s, t) && Sum(t) <= totalIPs ensures t == Greedy(s, e) || LexLess(t, Greedy(s, e)) {
      BetweenSums(s, t, |s|);
      GreedyIsGreatest(s, |s|, e, t);
    }
  }

  /** No assignment fits exactly when even the floors do not. */
  lemma FloorsDecide(s: Workers, totalIPs: int)
    ensures (exists t :: Between(s, t) && Sum(t) <= totalIPs) <==> Sum(s) - Slack(s) <= totalIPs
  {
    GreedyStaysBetween(s, |s|, Slack(s));
    GreedySum(s, |s|, Slack(s));
    forall t | Between(s, t) ensures Sum(t) >= Sum(s) - Slack(s) { BetweenSums(s, t, |s|); }
  }
}
