/**
 The admission gate (internal/admit/gate.go) and the backlogs it bounds.

 Each event admits and inserts in one step, or drains one message; the token bucket is a refusal
 the environment chooses. The main results are the exact largest backlog the rule lets through and,
 from it, exactly when the bound the checker judges (internal/check/checker.go:364-367) is kept.
 */
module Admission {
  import opened Prelude

  const MAX_INT := 0x7fff_ffff_ffff_ffff

  datatype Config = Config(tenantCap: nat, globalCap: nat, fairShare: bool)

  datatype Verdict = Admitted | Overloaded | RateLimited | BacklogFull

  function FairShare(cfg: Config, backlogged: nat): int {
    if !cfg.fairShare then MAX_INT
    else cfg.globalCap / Max(backlogged, 1)
  }

  /** Gate.Admit on one read of the tenant's backlog, the total and the number of backlogged tenants. */
  function Admit(cfg: Config, backlog: nat, total: nat, backlogged: nat, token: bool): (r: (bool, Verdict))
    ensures cfg.fairShare && r.0 ==> r.1 != Overloaded
    ensures r.1.Admitted? ==> backlog < cfg.tenantCap && (total < cfg.globalCap || (cfg.fairShare && r.0))
  {
    var within := backlog <= FairShare(cfg, backlogged);
    (within,
     if total >= cfg.globalCap && (!cfg.fairShare || !within) then Overloaded
     else if !token then RateLimited
     else if backlog >= cfg.tenantCap then BacklogFull
     else Admitted)
  }

  /** The share a tenant may fill past the cap: the cap divided among the backlogged; no limit on the cut line. */
  ghost predicate InShare(cfg: Config, backlog: nat, backlogged: nat) {
    backlog <= if !cfg.fairShare then MAX_INT else if backlogged == 0 then cfg.globalCap else cfg.globalCap / backlogged
  }

  ghost predicate Shed(cfg: Config, backlog: nat, total: nat, backlogged: nat) {
    cfg.globalCap <= total && (cfg.fairShare ==> !InShare(cfg, backlog, backlogged))
  }

  /** Each verdict's exact condition, and the class the gate reports. */
  lemma VerdictExactly(cfg: Config, backlog: nat, total: nat, backlogged: nat, token: bool)
    ensures var (within, v) := Admit(cfg, backlog, total, backlogged, token);
            && (within <==> InShare(cfg, backlog, backlogged))
            && (v.Overloaded? <==> Shed(cfg, backlog, total, backlogged))
            && (v.RateLimited? <==> !Shed(cfg, backlog, total, backlogged) && !token)
            && (v.BacklogFull? <==> !Shed(cfg, backlog, total, backlogged) && token && cfg.tenantCap <= backlog)
            && (v.Admitted? <==> !Shed(cfg, backlog, total, backlogged) && token && backlog < cfg.tenantCap)
  {
  }

  // ---- Backlogs of all tenants ----

  type Load = seq<nat>

  function Total(b: Load): nat {
    if b == [] then 0 else b[0] + Total(b[1..])
  }

  function Waiting(b: Load): set<nat> {
    set i: nat | i < |b| && b[i] > 0
  }

  function Backlogged(b: Load): nat {
    |Waiting(b)|
  }

  datatype Event = Offer(idx: nat, token: bool) | Drain(idx: nat)

  function Next(cfg: Config, b: Load, e: Event): (b': Load)
    ensures |b'| == |b|
  {
    if e.idx >= |b| then b
    else match e
      case Offer(i, token) =>
        if Admit(cfg, b[i], Total(b), Backlogged(b), token).1.Admitted? then b[i := b[i] + 1] else b
      case Drain(i) =>
        if b[i] > 0 then b[i := b[i] - 1] else b
  }

  function Run(cfg: Config, b: Load, es: seq<Event>): (b': Load)
    ensures |b'| == |b|
    decreases |es|
  {
    if es == [] then b else Run(cfg, Next(cfg, b, es[0]), es[1..])
  }

  function Idle(tenants: nat): Load {
    seq(tenants, _ => 0)
  }

  ghost predicate Reachable(cfg: Config, tenants: nat, b: Load) {
    exists es :: Run(cfg, Idle(tenants), es) == b
  }

  // ---- Sums ----

  lemma {:induction false} TotalUpdate(b: Load, i: nat, v: nat)
    requires i < |b|
    ensures Total(b[i := v]) == Total(b) - b[i] + v
  {
    if i == 0 {
      assert b[i := v][1..] == b[1..];
    } else {
      TotalUpdate(b[1..], i - 1, v);
      assert b[i := v][1..] == b[1..][i - 1 := v];
    }
  }

  function At(b: Load, i: nat): nat {
    if i < |b| then b[i] else 0
  }

  /** The messages of the tenants named in `xs`. */
  function SumOf(b: Load, xs: seq<nat>): nat {
    if xs == [] then 0 else SumOf(b, xs[..|xs| - 1]) + At(b, xs[|xs| - 1])
  }

  lemma {:induction false} SumOfOther(b: Load, xs: seq<nat>, i: nat, v: nat)
    requires i < |b| && i !in xs
    ensures SumOf(b[i := v], xs) == SumOf(b, xs)
  {
    if xs != [] {
      assert xs[|xs| - 1] in xs;
      SumOfOther(b, xs[..|xs| - 1], i, v);
    }
  }

  function Without(xs: seq<nat>, k: nat): seq<nat>
    requires k < |xs|
  {
    xs[..k] + xs[k + 1..]
  }

  lemma {:induction false} SumOfWithout(b: Load, xs: seq<nat>, k: nat)
    requires k < |xs|
    ensures SumOf(b, xs) == SumOf(b, Without(xs, k)) + At(b, xs[k])
  {
    var n := |xs| - 1;
    if k == n {
      assert Without(xs, k) == xs[..n];
    } else {
      SumOfWithout(b, xs[..n], k);
      assert Without(xs, k)[..n - 1] == Without(xs[..n], k);
    }
  }

  lemma {:induction false} SumOfAll(b: Load, xs: seq<nat>)
    requires Distinct(xs)
    requires forall i: nat | i < |b| && b[i] > 0 :: i in xs
    ensures SumOf(b, xs) == Total(b)
    decreases |xs|
  {
    if xs == [] {
      TotalZero(b);
    } else {
      var n := |xs| - 1;
      var x := xs[n];
      assert x !in xs[..n];
      if x < |b| {
        var b' := b[x := 0];
        SumOfOther(b, xs[..n], x, 0);
        TotalUpdate(b, x, 0);
        SumOfAll(b', xs[..n]);
      } else {
        SumOfAll(b, xs[..n]);
      }
    }
  }

  lemma {:induction false} TotalZero(b: Load)
    requires forall i | 0 <= i < |b| :: b[i] == 0
    ensures Total(b) == 0
  {
    if b != [] { TotalZero(b[1..]); }
  }

  lemma {:induction false} DistinctCard(xs: seq<nat>)
    requires Distinct(xs)
    ensures |Members(xs)| == |xs|
  {
    if xs != [] {
      var n := |xs| - 1;
      DistinctCard(xs[..n]);
      assert xs[n] !in xs[..n];
      assert xs == xs[..n] + [xs[n]];
      assert Members(xs) == Members(xs[..n]) + {xs[n]};
    }
  }

  // ---- The ranked ledger: who may hold how much ----

  /** The most messages the tenant of rank j (j = 1, 2, ...) may hold. */
  function Slot(cfg: Config, j: nat): nat
    requires j > 0
  {
    Min(cfg.tenantCap, cfg.globalCap / j + 1)
  }

  function Bound(cfg: Config, m: nat): nat {
    if m == 0 then 0 else Bound(cfg, m - 1) + Slot(cfg, m)
  }

  ghost predicate Lists(b: Load, rank: seq<nat>) {
    Distinct(rank) && Members(rank) == Waiting(b)
  }

  /** The tenants ranked from q on were last admitted in that order while the total was at the cap. */
  ghost predicate TailFits(cfg: Config, b: Load, rank: seq<nat>, q: nat) {
    forall p | q <= p < |rank| :: At(b, rank[p]) <= cfg.globalCap / (p + 1) + 1
  }

  ghost predicate EachFits(cfg: Config, b: Load) {
    forall i | 0 <= i < |b| :: b[i] <= cfg.tenantCap
  }

  /**
   Every backlogged tenant, ranked: the first q hold at most globalCap together (they have not been admitted since
   the total last reached the cap), the rest stand in order of their last admission and the one of rank j holds at
   most globalCap / j + 1.
   */
  ghost predicate Ranked(cfg: Config, b: Load, rank: seq<nat>, q: nat) {
    && q <= |rank|
    && Lists(b, rank)
    && SumOf(b, rank[..q]) <= cfg.globalCap
    && TailFits(cfg, b, rank, q)
    && EachFits(cfg, b)
  }

  lemma RankCard(b: Load, rank: seq<nat>)
    requires Lists(b, rank)
    ensures |rank| == Backlogged(b)
  {
    DistinctCard(rank);
  }

  lemma DivMono(c: nat, m: nat, n: nat)
    requires 0 < m <= n
    ensures c / n <= c / m
  {
    var k, x := c / n, c / m;
    assert c == n * k + c % n && c == m * x + c % m;
    MulMono(k, m, n);
    if k >= x + 1 {
      MulMono(m, x + 1, k);
    }
  }

  lemma WithoutLists(b: Load, rank: seq<nat>, k: nat)
    requires Lists(b, rank) && k < |rank|
    ensures Distinct(Without(rank, k)) && rank[k] !in Without(rank, k)
    ensures Members(Without(rank, k)) == Waiting(b) - {rank[k]}
  {
    var r := Without(rank, k);
    forall i ensures i in r <==> i in rank && i != rank[k] {
      WithoutMembers(rank, k, i);
    }
  }

  lemma WithoutMembers(xs: seq<nat>, k: nat, i: nat)
    requires Distinct(xs) && k < |xs|
    ensures i in Without(xs, k) <==> i in xs && i != xs[k]
  {
    var r := Without(xs, k);
    if i in xs && i != xs[k] {
      var p :| 0 <= p < |xs| && xs[p] == i;
      assert if p < k then r[p] == i else r[p - 1] == i;
    }
    if i in r {
      var p :| 0 <= p < |r| && r[p] == i;
      assert i == if p < k then xs[p] else xs[p + 1];
    }
  }

  function Shifted(q: nat, k: nat): nat { if k < q then q - 1 else q }

  /** Taking one tenant out of the ranking moves the others to lower, roomier ranks. */
  lemma WithoutTail(cfg: Config, b: Load, rank: seq<nat>, q: nat, k: nat)
    requires k < |rank| && TailFits(cfg, b, rank, q)
    ensures TailFits(cfg, b, Without(rank, k), Shifted(q, k))
  {
    var r := Without(rank, k);
    forall p | Shifted(q, k) <= p < |r| ensures At(b, r[p]) <= cfg.globalCap / (p + 1) + 1 {
      if p < k {
        assert r[p] == rank[p];
      } else {
        assert r[p] == rank[p + 1];
        DivMono(cfg.globalCap, p + 1, p + 2);
      }
    }
  }

  lemma WithoutHead(b: Load, rank: seq<nat>, q: nat, k: nat)
    requires k < |rank| && q <= |rank|
    ensures Shifted(q, k) <= |Without(rank, k)|
    ensures SumOf(b, Without(rank, k)[..Shifted(q, k)]) <= SumOf(b, rank[..q])
  {
    if k < q {
      assert Without(rank, k)[..q - 1] == Without(rank[..q], k);
      SumOfWithout(b, rank[..q], k);
    } else {
      assert Without(rank, k)[..q] == rank[..q];
    }
  }

  /** Lowering one tenant's backlog keeps a ranking of the others' shares. */
  lemma {:induction false} SumOfLower(b: Load, xs: seq<nat>, i: nat, v: nat)
    requires i < |b| && v <= b[i]
    ensures SumOf(b[i := v], xs) <= SumOf(b, xs)
  {
    if xs != [] { SumOfLower(b, xs[..|xs| - 1], i, v); }
  }

  // ---- Each step keeps a ranking ----

  ghost predicate HasRanking(cfg: Config, b: Load) {
    exists rank, q :: Ranked(cfg, b, rank, q)
  }

  lemma LowerKeeps(cfg: Config, b: Load, rank: seq<nat>, q: nat, i: nat)
    requires Ranked(cfg, b, rank, q) && i < |b| && b[i] > 1
    ensures Ranked(cfg, b[i := b[i] - 1], rank, q)
  {
    var b' := b[i := b[i] - 1];
    assert Waiting(b') == Waiting(b);
    SumOfLower(b, rank[..q], i, b[i] - 1);
  }

  lemma IndexOf(b: Load, rank: seq<nat>, i: nat) returns (k: nat)
    requires Lists(b, rank) && i in Waiting(b)
    ensures k < |rank| && rank[k] == i
  {
    assert i in Members(rank);
    k :| 0 <= k < |rank| && rank[k] == i;
  }

  lemma DrainLastKeeps(cfg: Config, b: Load, rank: seq<nat>, q: nat, k: nat)
    requires Ranked(cfg, b, rank, q) && k < |rank| && At(b, rank[k]) == 1
    ensures Ranked(cfg, b[rank[k] := 0], Without(rank, k), Shifted(q, k))
  {
    var b' := b[rank[k] := 0];
    var r := Without(rank, k);
    WithoutLists(b, rank, k);
    assert Waiting(b') == Waiting(b) - {rank[k]};
    WithoutHead(b, rank, q, k);
    WithoutTail(cfg, b, rank, q, k);
    assert rank[k] !in r[..Shifted(q, k)];
    SumOfOther(b, r[..Shifted(q, k)], rank[k], 0);
  }

  lemma RankedTotal(cfg: Config, b: Load, rank: seq<nat>, q: nat)
    requires Ranked(cfg, b, rank, q)
    ensures SumOf(b, rank) == Total(b) && |rank| == Backlogged(b)
  {
    forall i: nat | i < |b| && b[i] > 0 ensures i in rank {
      assert i in Members(rank);
    }
    SumOfAll(b, rank);
    RankCard(b, rank);
  }

  lemma AppendLists(b: Load, rank: seq<nat>, i: nat, v: nat)
    requires Lists(b, rank) && i < |b| && b[i] == 0 && v > 0
    ensures Lists(b[i := v], rank + [i]) && i !in rank
  {
    assert i !in Members(rank);
    assert Waiting(b[i := v]) == Waiting(b) + {i};
    assert Members(rank + [i]) == Members(rank) + {i};
  }

  lemma RankAll(cfg: Config, b: Load, rank: seq<nat>)
    requires Lists(b, rank) && EachFits(cfg, b) && Total(b) <= cfg.globalCap
    ensures Ranked(cfg, b, rank, |rank|)
  {
    forall i: nat | i < |b| && b[i] > 0 ensures i in rank {
      assert i in Members(rank);
    }
    SumOfAll(b, rank);
    assert rank[..|rank|] == rank;
  }

  /** Below the cap nobody needs a rank: the whole backlog counts as the old part. */
  lemma BelowCapKeeps(cfg: Config, b: Load, rank: seq<nat>, i: nat)
    requires Lists(b, rank) && EachFits(cfg, b) && i < |b|
    requires Total(b) < cfg.globalCap && b[i] < cfg.tenantCap
    ensures HasRanking(cfg, b[i := b[i] + 1])
  {
    var b' := b[i := b[i] + 1];
    TotalUpdate(b, i, b[i] + 1);
    if b[i] == 0 {
      AppendLists(b, rank, i, 1);
      RankAll(cfg, b', rank + [i]);
    } else {
      assert Waiting(b') == Waiting(b);
      RankAll(cfg, b', rank);
    }
  }

  lemma NewcomerTail(cfg: Config, b: Load, rank: seq<nat>, q: nat, i: nat)
    requires Lists(b, rank) && TailFits(cfg, b, rank, q) && i < |b| && b[i] == 0
    ensures TailFits(cfg, b[i := 1], rank + [i], q)
  {
    var b', r := b[i := 1], rank + [i];
    forall p | q <= p < |r| ensures At(b', r[p]) <= cfg.globalCap / (p + 1) + 1 {
      if p < |rank| { assert r[p] == rank[p] && rank[p] in Members(rank); }
    }
  }

  /** An admission at the cap puts the tenant last in the ranking. */
  lemma NewcomerKeeps(cfg: Config, b: Load, rank: seq<nat>, q: nat, i: nat)
    requires Ranked(cfg, b, rank, q) && i < |b| && b[i] == 0 && cfg.tenantCap > 0
    ensures Ranked(cfg, b[i := 1], rank + [i], q)
  {
    AppendLists(b, rank, i, 1);
    NewcomerTail(cfg, b, rank, q, i);
    assert (rank + [i])[..q] == rank[..q];
    assert i !in Members(rank);
    SumOfOther(b, rank[..q], i, 1);
  }

  lemma RejoinKeeps(cfg: Config, b: Load, rank: seq<nat>, q: nat, k: nat)
    requires Ranked(cfg, b, rank, q) && k < |rank|
    requires rank[k] < |b|
    requires var v := At(b, rank[k]); v < cfg.tenantCap && v <= cfg.globalCap / |rank|
    ensures Ranked(cfg, b[rank[k] := At(b, rank[k]) + 1], Without(rank, k) + [rank[k]], Shifted(q, k))
  {
    var i := rank[k];
    assert i in Members(rank);
    var v := b[i];
    var b' := b[i := v + 1];
    var w, q' := Without(rank, k), Shifted(q, k);
    var r := w + [i];
    WithoutLists(b, rank, k);
    assert Waiting(b') == Waiting(b);
    assert Members(r) == Members(w) + {i};
    WithoutHead(b, rank, q, k);
    WithoutTail(cfg, b, rank, q, k);
    assert r[..q'] == w[..q'];
    assert i !in w[..q'];
    SumOfOther(b, w[..q'], i, v + 1);
    forall p | q' <= p < |r| ensures At(b', r[p]) <= cfg.globalCap / (p + 1) + 1 {
      if p < |w| { assert r[p] == w[p] && w[p] in w; }
    }
  }

  lemma OfferKeeps(cfg: Config, b: Load, i: nat, token: bool)
    requires cfg.fairShare && HasRanking(cfg, b) && i < |b|
    requires Admit(cfg, b[i], Total(b), Backlogged(b), token).1.Admitted?
    ensures HasRanking(cfg, b[i := b[i] + 1])
  {
    var rank, q :| Ranked(cfg, b, rank, q);
    if Total(b) < cfg.globalCap {
      BelowCapKeeps(cfg, b, rank, i);
    } else if b[i] == 0 {
      NewcomerKeeps(cfg, b, rank, q, i);
    } else {
      var k := IndexOf(b, rank, i);
      RankCard(b, rank);
      RejoinKeeps(cfg, b, rank, q, k);
    }
  }

  lemma StepKeeps(cfg: Config, b: Load, e: Event)
    requires cfg.fairShare && HasRanking(cfg, b)
    ensures HasRanking(cfg, Next(cfg, b, e))
  {
    if e.idx < |b| {
      match e
      case Offer(i, token) =>
        if Admit(cfg, b[i], Total(b), Backlogged(b), token).1.Admitted? { OfferKeeps(cfg, b, i, token); }
      case Drain(i) =>
        var rank, q :| Ranked(cfg, b, rank, q);
        if b[i] > 1 {
          LowerKeeps(cfg, b, rank, q, i);
        } else if b[i] == 1 {
          var k := IndexOf(b, rank, i);
          DrainLastKeeps(cfg, b, rank, q, k);
        }
    }
  }

  lemma {:induction false} RunKeeps(cfg: Config, b: Load, es: seq<Event>)
    requires cfg.fairShare && HasRanking(cfg, b)
    ensures HasRanking(cfg, Run(cfg, b, es))
    decreases |es|
  {
    if es != [] {
      StepKeeps(cfg, b, es[0]);
      RunKeeps(cfg, Next(cfg, b, es[0]), es[1..]);
    }
  }

  // ---- From a ranking to the bound ----

  lemma NextMultiple(m: nat, s: nat)
    requires m > 0
    ensures m * s == (m - 1) * s + s
  {
  }

  lemma {:induction false} BoundAtLeast(cfg: Config, m: nat, s: nat)
    requires forall j: nat | 0 < j <= m :: Slot(cfg, j) >= s
    ensures Bound(cfg, m) >= m * s
  {
    if m > 0 {
      BoundAtLeast(cfg, m - 1, s);
      NextMultiple(m, s);
      assert Slot(cfg, m) >= s;
    }
  }

  lemma {:induction false} SumOfEach(b: Load, xs: seq<nat>, c: nat)
    requires forall p | 0 <= p < |xs| :: At(b, xs[p]) <= c
    ensures SumOf(b, xs) <= |xs| * c
  {
    if xs != [] {
      SumOfEach(b, xs[..|xs| - 1], c);
      NextMultiple(|xs|, c);
    }
  }

  /** The old part, at most globalCap in all, never exceeds the slots of its ranks. */
  lemma HeadFits(cfg: Config, b: Load, xs: seq<nat>)
    requires SumOf(b, xs) <= cfg.globalCap && EachFits(cfg, b)
    ensures SumOf(b, xs) <= Bound(cfg, |xs|)
  {
    var q := |xs|;
    if q > 0 {
      var s := Slot(cfg, q);
      forall j: nat | 0 < j <= q ensures Slot(cfg, j) >= s { DivMono(cfg.globalCap, j, q); }
      BoundAtLeast(cfg, q, s);
      if s == cfg.tenantCap {
        SumOfEach(b, xs, s);
      } else {
        OneMoreShare(cfg.globalCap, q);
      }
    }
  }

  lemma OneMoreShare(c: nat, q: nat)
    requires q > 0
    ensures q * (c / q + 1) >= c
  {
    var d := c / q;
    assert c == q * d + c % q;
    NextMultiple(d + 1, q);
  }

  lemma {:induction false} TailSum(cfg: Config, b: Load, rank: seq<nat>, q: nat)
    requires q <= |rank| && SumOf(b, rank[..q]) <= cfg.globalCap
    requires TailFits(cfg, b, rank, q) && EachFits(cfg, b)
    ensures SumOf(b, rank) <= Bound(cfg, |rank|)
    decreases |rank|
  {
    if q == |rank| {
      assert rank[..q] == rank;
      HeadFits(cfg, b, rank);
    } else {
      var n := |rank| - 1;
      assert rank[..n][..q] == rank[..q];
      TailSum(cfg, b, rank[..n], q);
    }
  }

  lemma {:induction false} IdleRanked(cfg: Config, tenants: nat)
    ensures Ranked(cfg, Idle(tenants), [], 0)
  {
  }

  /**
   Backlog bound. Whatever the tenants offer and however delivery drains them, with fair share on the total backlog
   never exceeds the sum, over ranks 1..m, of min(tenantCap, globalCap / j + 1), m being the tenants backlogged now.
   */
  lemma BacklogBound(cfg: Config, tenants: nat, es: seq<Event>)
    requires cfg.fairShare
    ensures var b := Run(cfg, Idle(tenants), es);
            Total(b) <= Bound(cfg, Backlogged(b)) && Backlogged(b) <= tenants
  {
    var b := Run(cfg, Idle(tenants), es);
    IdleRanked(cfg, tenants);
    RunKeeps(cfg, Idle(tenants), es);
    var rank, q :| Ranked(cfg, b, rank, q);
    RankedTotal(cfg, b, rank, q);
    TailSum(cfg, b, rank, q);
    AtMostAll(b);
  }

  lemma AtMostAll(b: Load)
    ensures Backlogged(b) <= |b|
  {
    var all := seq(|b|, i => i);
    DistinctCard(all);
    forall i | i in Waiting(b) ensures i in Members(all) { assert all[i] == i; }
    SubsetCard(Waiting(b), Members(all));
  }

  // ---- The bound is reached ----

  lemma {:induction false} RunThen(cfg: Config, b: Load, es: seq<Event>, e: Event)
    ensures Run(cfg, b, es + [e]) == Next(cfg, Run(cfg, b, es), e)
    decreases |es|
  {
    if es == [] {
      assert es + [e] == [e];
      assert Run(cfg, b, [e]) == Run(cfg, Next(cfg, b, e), [e][1..]);
    } else {
      assert (es + [e])[1..] == es[1..] + [e];
      RunThen(cfg, Next(cfg, b, es[0]), es[1..], e);
    }
  }

  lemma ReachableNext(cfg: Config, tenants: nat, b: Load, e: Event)
    requires Reachable(cfg, tenants, b)
    ensures Reachable(cfg, tenants, Next(cfg, b, e))
  {
    var es :| Run(cfg, Idle(tenants), es) == b;
    RunThen(cfg, Idle(tenants), es, e);
  }

  /** The first k tenants hold their slots, tenant k holds x, the rest nothing. */
  function Stair(cfg: Config, tenants: nat, k: nat, x: nat): Load {
    seq(tenants, (i: nat) => if i < k then Slot(cfg, i + 1) else if i == k then x else 0)
  }

  lemma StairWaiting(cfg: Config, tenants: nat, k: nat, x: nat)
    requires cfg.tenantCap > 0 && k < tenants
    ensures Backlogged(Stair(cfg, tenants, k, x)) == if x > 0 then k + 1 else k
  {
    var m := if x > 0 then k + 1 else k;
    var b := Stair(cfg, tenants, k, x);
    var xs := seq(m, i => i);
    DistinctCard(xs);
    forall i ensures i in Waiting(b) <==> i in Members(xs) {
      if 0 <= i < m { assert xs[i] == i; }
    }
    assert Waiting(b) == Members(xs);
  }

  lemma StairAdmits(cfg: Config, k: nat, x: nat, total: nat, n: nat)
    requires cfg.fairShare && cfg.tenantCap > 0 && 0 < x <= Slot(cfg, k + 1) && n == if x > 1 then k + 1 else k
    ensures Admit(cfg, x - 1, total, n, true).1 == Admitted
  {
  }

  lemma StairStep(cfg: Config, tenants: nat, k: nat, x: nat)
    requires k < tenants && 0 < x
    ensures var a := Stair(cfg, tenants, k, x - 1); a[k] == x - 1 && Stair(cfg, tenants, k, x) == a[k := x]
  {
  }

  lemma StairOffer(cfg: Config, tenants: nat, k: nat, x: nat)
    requires cfg.fairShare && cfg.tenantCap > 0 && k < tenants && 0 < x <= Slot(cfg, k + 1)
    ensures Next(cfg, Stair(cfg, tenants, k, x - 1), Offer(k, true)) == Stair(cfg, tenants, k, x)
  {
    var a := Stair(cfg, tenants, k, x - 1);
    StairWaiting(cfg, tenants, k, x - 1);
    StairStep(cfg, tenants, k, x);
    StairAdmits(cfg, k, x, Total(a), Backlogged(a));
  }

  lemma {:induction false} StairReachable(cfg: Config, tenants: nat, k: nat, x: nat)
    requires cfg.fairShare && cfg.tenantCap > 0 && k < tenants && x <= Slot(cfg, k + 1)
    ensures Reachable(cfg, tenants, Stair(cfg, tenants, k, x))
    decreases k, x
  {
    var b := Stair(cfg, tenants, k, x);
    if x > 0 {
      StairReachable(cfg, tenants, k, x - 1);
      StairOffer(cfg, tenants, k, x);
      ReachableNext(cfg, tenants, Stair(cfg, tenants, k, x - 1), Offer(k, true));
    } else if k > 0 {
      StairReachable(cfg, tenants, k - 1, Slot(cfg, k));
      assert b == Stair(cfg, tenants, k - 1, Slot(cfg, k));
    } else {
      assert b == Idle(tenants) == Run(cfg, Idle(tenants), []);
    }
  }

  lemma {:induction false} StairTotal(cfg: Config, tenants: nat, k: nat, x: nat)
    requires k < tenants
    ensures Total(Stair(cfg, tenants, k, x)) == Bound(cfg, k) + x
    decreases k, x
  {
    var b := Stair(cfg, tenants, k, x);
    if x > 0 {
      StairTotal(cfg, tenants, k, 0);
      assert Stair(cfg, tenants, k, 0)[k := x] == b;
      TotalUpdate(Stair(cfg, tenants, k, 0), k, x);
    } else if k > 0 {
      StairTotal(cfg, tenants, k - 1, Slot(cfg, k));
      assert b == Stair(cfg, tenants, k - 1, Slot(cfg, k));
    } else {
      TotalZero(b);
    }
  }

  lemma SlotPositive(cfg: Config, j: nat)
    requires j > 0 && cfg.tenantCap > 0
    ensures Slot(cfg, j) > 0
  {
  }

  lemma TopStairHolds(cfg: Config, tenants: nat, m: nat, x: nat)
    requires cfg.tenantCap > 0 && 0 < m <= tenants && 0 < x
    ensures var b := Stair(cfg, tenants, m - 1, x); Backlogged(b) == m && Total(b) == Bound(cfg, m - 1) + x
  {
    StairWaiting(cfg, tenants, m - 1, x);
    StairTotal(cfg, tenants, m - 1, x);
  }

  lemma TopStair(cfg: Config, tenants: nat, m: nat)
    requires cfg.fairShare && cfg.tenantCap > 0 && 0 < m <= tenants
    ensures var b := Stair(cfg, tenants, m - 1, Slot(cfg, m));
            Reachable(cfg, tenants, b) && Backlogged(b) == m && Total(b) == Bound(cfg, m)
  {
    SlotPositive(cfg, m);
    TopStairHolds(cfg, tenants, m, Slot(cfg, m));
    StairReachable(cfg, tenants, m - 1, Slot(cfg, m));
  }

  /** The backlog bound is exact: with m tenants backlogged, it is the largest total any run reaches. */
  lemma BacklogBoundReached(cfg: Config, tenants: nat, m: nat)
    requires cfg.fairShare && cfg.tenantCap > 0 && 0 < m <= tenants
    ensures exists b :: Reachable(cfg, tenants, b) && Backlogged(b) == m && Total(b) == Bound(cfg, m)
  {
    TopStair(cfg, tenants, m);
  }

  // ---- The bound the checker judges ----

  /** checker.go:364-367 on a census with that many backlogged tenants. */
  function CheckerBound(cfg: Config, backlogged: nat): nat {
    if backlogged > 0 then cfg.globalCap + backlogged * (cfg.globalCap / backlogged) else cfg.globalCap
  }

  ghost predicate CheckerNeverRed(cfg: Config, tenants: nat, m: nat) {
    forall b :: Reachable(cfg, tenants, b) && Backlogged(b) == m ==> Total(b) <= CheckerBound(cfg, m)
  }

  /**
   L4's backlog bound is not an invariant of Admit. With m tenants backlogged it holds on every run exactly when
   the harmonic sum fits under it, a condition on the configuration alone.
   */
  lemma CheckerBoundExact(cfg: Config, tenants: nat, m: nat)
    requires cfg.fairShare && cfg.tenantCap > 0 && 0 < m <= tenants
    ensures CheckerNeverRed(cfg, tenants, m) <==> Bound(cfg, m) <= CheckerBound(cfg, m)
  {
    BacklogBoundReached(cfg, tenants, m);
    forall b | Reachable(cfg, tenants, b) && Backlogged(b) == m ensures Total(b) <= Bound(cfg, m) {
      var es :| Run(cfg, Idle(tenants), es) == b;
      BacklogBound(cfg, tenants, es);
    }
  }

  /** Cap 12, three tenants joining in turn: 13 + 7 + 5 = 25 messages against a judged bound of 24. */
  lemma CheckerBoundBroken(tenantCap: nat)
    requires tenantCap >= 13
    ensures !CheckerNeverRed(Config(tenantCap, 12, true), 3, 3)
  {
    var cfg := Config(tenantCap, 12, true);
    CheckerBoundExact(cfg, 3, 3);
    assert Bound(cfg, 1) == 13;
    assert Bound(cfg, 2) == 20;
    assert Bound(cfg, 3) == 25;
  }

  /** The cut line (FairShare off) is a plain cap: no run ever exceeds it. */
  lemma {:induction false} PlainCapHolds(cfg: Config, b: Load, es: seq<Event>)
    requires !cfg.fairShare && Total(b) <= cfg.globalCap
    ensures Total(Run(cfg, b, es)) <= cfg.globalCap
    decreases |es|
  {
    if es != [] {
      var e := es[0];
      if e.idx < |b| {
        TotalUpdate(b, e.idx, b[e.idx] + 1);
        if b[e.idx] > 0 { TotalUpdate(b, e.idx, b[e.idx] - 1); }
      }
      PlainCapHolds(cfg, Next(cfg, b, e), es[1..]);
    }
  }
}
