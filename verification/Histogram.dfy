/**
 The windowed p99 (internal/metrics/hist.go) against the exact order statistic.

 Durations are nanoseconds. Bucket edges are the ideal 1 ms * 1.5^b over the reals; the rounding of log and pow
 is not modelled. Counters are unbounded (the source's are 32 bits wide per tick).
 */
module Histogram {
  import opened Prelude

  const BUCKETS := 28

  /** bucketLo: the lower edge of bucket b. */
  function Edge(b: nat): (r: real)
    ensures r > 0.0
  {
    if b == 0 then 1000000.0 else Edge(b - 1) * 1.5
  }

  lemma {:induction false} EdgesRise(a: nat, b: nat)
    requires a < b
    ensures Edge(a) < Edge(b)
  {
    if a + 1 < b { EdgesRise(a, b - 1); }
  }

  function BucketFrom(d: nat, b: nat): (r: nat)
    requires b < BUCKETS
    ensures b <= r < BUCKETS
    ensures r + 1 < BUCKETS ==> d as real < Edge(r + 1)
    ensures r > b ==> d as real >= Edge(r)
    decreases BUCKETS - b
  {
    if b + 1 == BUCKETS || d as real < Edge(b + 1) then b else BucketFrom(d, b + 1)
  }

  /** bucket: the clamped floor of log(d / 1 ms) / log 1.5. */
  function Bucket(d: nat): (r: nat)
    ensures r < BUCKETS
    ensures r + 1 < BUCKETS ==> d as real < Edge(r + 1)
    ensures r > 0 ==> d as real >= Edge(r)
  {
    BucketFrom(d, 0)
  }

  lemma BucketMonotone(d: nat, e: nat)
    requires d <= e
    ensures Bucket(d) <= Bucket(e)
  {
    var x, y := Bucket(d), Bucket(e);
    if x > y && y + 1 < x {
      EdgesRise(y + 1, x);
    }
  }

  // ---- Counting samples ----

  function CountIn(xs: seq<nat>, b: nat): nat {
    if xs == [] then 0 else (if Bucket(xs[0]) == b then 1 else 0) + CountIn(xs[1..], b)
  }

  function CountBelow(xs: seq<nat>, b: nat): nat {
    if xs == [] then 0 else (if Bucket(xs[0]) < b then 1 else 0) + CountBelow(xs[1..], b)
  }

  lemma {:induction false} BelowStep(xs: seq<nat>, b: nat)
    ensures CountBelow(xs, b + 1) == CountBelow(xs, b) + CountIn(xs, b)
  {
    if xs != [] { BelowStep(xs[1..], b); }
  }

  lemma {:induction false} BelowEnds(xs: seq<nat>)
    ensures CountBelow(xs, 0) == 0 && CountBelow(xs, BUCKETS) == |xs|
  {
    if xs != [] { BelowEnds(xs[1..]); }
  }

  lemma {:induction false} BelowPlus(xs: seq<nat>, ys: seq<nat>, b: nat)
    ensures CountBelow(xs + ys, b) == CountBelow(xs, b) + CountBelow(ys, b)
  {
    if xs == [] {
      assert xs + ys == ys;
    } else {
      assert (xs + ys)[1..] == xs[1..] + ys;
      BelowPlus(xs[1..], ys, b);
    }
  }

  lemma {:induction false} InPlus(xs: seq<nat>, ys: seq<nat>, b: nat)
    ensures CountIn(xs + ys, b) == CountIn(xs, b) + CountIn(ys, b)
  {
    if xs == [] {
      assert xs + ys == ys;
    } else {
      assert (xs + ys)[1..] == xs[1..] + ys;
      InPlus(xs[1..], ys, b);
    }
  }

  function Concat(ticks: seq<seq<nat>>): seq<nat> {
    if ticks == [] then [] else ticks[0] + Concat(ticks[1..])
  }

  lemma {:induction false} ConcatPlus(s: seq<seq<nat>>, t: seq<seq<nat>>)
    ensures Concat(s + t) == Concat(s) + Concat(t)
  {
    if s == [] {
      assert s + t == t;
    } else {
      assert (s + t)[1..] == s[1..] + t;
      ConcatPlus(s[1..], t);
    }
  }

  lemma ConcatNext(ticks: seq<seq<nat>>, i: nat)
    requires i < |ticks|
    ensures Concat(ticks[..i + 1]) == Concat(ticks[..i]) + ticks[i]
  {
    assert ticks[..i + 1] == ticks[..i] + [ticks[i]];
    ConcatPlus(ticks[..i], [ticks[i]]);
    assert Concat([ticks[i]]) == ticks[i] + Concat([]) == ticks[i];
  }

  // ---- The order statistic ----

  predicate Sorted(xs: seq<nat>) {
    forall i, j | 0 <= i <= j < |xs| :: xs[i] <= xs[j]
  }

  lemma {:induction false} AllBelow(xs: seq<nat>, m: nat, b: nat)
    requires Bucket(m) < b && forall i | 0 <= i < |xs| :: xs[i] <= m
    ensures CountBelow(xs, b) == |xs|
  {
    if xs != [] {
      BucketMonotone(xs[0], m);
      AllBelow(xs[1..], m, b);
    }
  }

  lemma {:induction false} NoneBelow(xs: seq<nat>, m: nat, b: nat)
    requires b <= Bucket(m) && forall i | 0 <= i < |xs| :: m <= xs[i]
    ensures CountBelow(xs, b) == 0
  {
    if xs != [] {
      BucketMonotone(m, xs[0]);
      NoneBelow(xs[1..], m, b);
    }
  }

  lemma PrefixBelow(xs: seq<nat>, r: nat, b: nat)
    requires Sorted(xs) && 0 < r <= |xs| && Bucket(xs[r - 1]) < b
    ensures CountBelow(xs, b) >= r
  {
    var p := xs[..r];
    AllBelow(p, xs[r - 1], b);
    assert xs == p + xs[r..];
    BelowPlus(p, xs[r..], b);
  }

  lemma SuffixAbove(xs: seq<nat>, r: nat, b: nat)
    requires Sorted(xs) && 0 < r <= |xs| && Bucket(xs[r - 1]) >= b
    ensures CountBelow(xs, b) <= r - 1
  {
    var q := xs[r - 1..];
    NoneBelow(q, xs[r - 1], b);
    assert xs == xs[..r - 1] + q;
    BelowPlus(xs[..r - 1], q, b);
    BelowAtMost(xs[..r - 1], b);
  }

  lemma {:induction false} BelowAtMost(xs: seq<nat>, b: nat)
    ensures CountBelow(xs, b) <= |xs|
  {
    if xs != [] { BelowAtMost(xs[1..], b); }
  }

  /** Counts do not depend on the order of the samples. */
  lemma {:induction false} CountOfPermutation(xs: seq<nat>, ys: seq<nat>, b: nat)
    requires multiset(xs) == multiset(ys)
    ensures CountBelow(xs, b) == CountBelow(ys, b)
    decreases |xs|
  {
    if xs == [] {
      assert ys == [] by { assert |multiset(ys)| == 0; }
    } else {
      var x := xs[0];
      assert x in multiset(ys);
      var k :| 0 <= k < |ys| && ys[k] == x;
      var rest := ys[..k] + ys[k + 1..];
      assert xs == [x] + xs[1..];
      assert ys == ys[..k] + ([x] + ys[k + 1..]);
      assert multiset(rest) == multiset(ys) - multiset{x};
      CountOfPermutation(xs[1..], rest, b);
      BelowPlus(ys[..k], [x] + ys[k + 1..], b);
      BelowPlus(ys[..k], ys[k + 1..], b);
      BelowPlus([x], ys[k + 1..], b);
    }
  }

  lemma SameSize(xs: seq<nat>, ys: seq<nat>)
    requires multiset(xs) == multiset(ys)
    ensures |xs| == |ys|
  {
    assert |xs| == |multiset(xs)| == |multiset(ys)| == |ys|;
  }

  lemma {:induction false} CountsRise(xs: seq<nat>, a: nat, b: nat)
    requires a <= b
    ensures CountBelow(xs, a) <= CountBelow(xs, b)
  {
    if xs != [] { CountsRise(xs[1..], a, b); }
  }

  /** The sample at position p of a window sorted by duration, and the counts in any order. */
  lemma AroundPosition(window: seq<nat>, sorted: seq<nat>, p: nat)
    requires p < |sorted| && Sorted(sorted) && multiset(sorted) == multiset(window)
    ensures var c := Bucket(sorted[p]); CountBelow(window, c) <= p < CountBelow(window, c + 1)
  {
    var c := Bucket(sorted[p]);
    SuffixAbove(sorted, p + 1, c);
    PrefixBelow(sorted, p + 1, c + 1);
    CountOfPermutation(window, sorted, c);
    CountOfPermutation(window, sorted, c + 1);
  }

  lemma PositionBucket(window: seq<nat>, sorted: seq<nat>, p: nat, b: nat)
    requires p < |sorted| && Sorted(sorted) && multiset(sorted) == multiset(window)
    ensures CountBelow(window, b) <= p < CountBelow(window, b + 1) <==> Bucket(sorted[p]) == b
  {
    AroundPosition(window, sorted, p);
    OneBucket(window, p, Bucket(sorted[p]), b);
  }

  lemma OneBucket(window: seq<nat>, p: nat, c: nat, b: nat)
    requires CountBelow(window, c) <= p < CountBelow(window, c + 1)
    ensures CountBelow(window, b) <= p < CountBelow(window, b + 1) <==> c == b
  {
    if b < c { CountsRise(window, b + 1, c); }
    if c < b { CountsRise(window, c + 1, b); }
  }

  /**
   Exact percentile. Whichever order sorts the n samples of the window, the one at position floor(99 n / 100), counted from
   zero, is in bucket b if and only if at most that many samples lie below the bucket and more than that many in it or below.
   */
  lemma PercentileIsExact(window: seq<nat>, sorted: seq<nat>, b: nat)
    requires window != [] && Sorted(sorted) && multiset(sorted) == multiset(window)
    ensures |sorted| == |window|
    ensures CountBelow(window, b) <= 99 * |window| / 100 < CountBelow(window, b + 1) <==> Bucket(sorted[99 * |sorted| / 100]) == b
  {
    SameSize(sorted, window);
    PositionBucket(window, sorted, 99 * |sorted| / 100, b);
  }

  function Pow(base: nat, n: nat): nat {
    if n == 0 then 1 else base * Pow(base, n - 1)
  }

  /** The edges grow by half from one millisecond: 1 ms * (3/2)^b. */
  lemma {:induction false} EdgeIs(b: nat)
    ensures Edge(b) * Pow(2, b) as real == 1000000.0 * Pow(3, b) as real
  {
    if b > 0 {
      EdgeIs(b - 1);
      Half(Edge(b - 1), Pow(2, b - 1), Pow(3, b - 1));
    }
  }

  lemma Half(e: real, p: nat, q: nat)
    requires e * p as real == 1000000.0 * q as real
    ensures (e * 1.5) * (2 * p) as real == 1000000.0 * (3 * q) as real
  {
    assert (2 * p) as real == 2.0 * p as real && (3 * q) as real == 3.0 * q as real;
    assert (e * 1.5) * (2.0 * p as real) == 3.0 * (e * p as real);
  }

  // ---- The mutable window ----

  /** One class's histograms: a ring of tick slots with 28 counters each. */
  class Window {
    const counts: array2<nat>
    var slot: nat
    ghost var ticks: seq<seq<nat>>  // the samples recorded in each slot since it was last opened
    ghost var log: seq<seq<nat>>    // every tick ever, oldest first; the last one is being written

    ghost predicate Valid()
      reads this, counts
    {
      && counts.Length1 == BUCKETS
      && |ticks| == counts.Length0
      && slot < counts.Length0 <= |log|
      && log[|log| - |ticks|..] == ticks[slot + 1..] + ticks[..slot + 1]
      && forall s, b | 0 <= s < |ticks| && 0 <= b < BUCKETS :: counts[s, b] == CountIn(ticks[s], b)
    }

    /** The samples of the last |ticks| ticks, oldest tick first. */
    ghost function Recent(): seq<nat>
      reads this
      requires |ticks| <= |log|
    {
      Concat(log[|log| - |ticks|..])
    }

    constructor (slots: nat)
      requires slots > 0
      ensures Valid() && fresh(counts) && counts.Length0 == slots
      ensures Recent() == []
    {
      counts := new nat[slots, BUCKETS]((i, j) => 0);
      slot := 0;
      ticks, log := NoTicks(slots), NoTicks(slots);
      new;
      EmptyTicks(ticks);
    }

    /** record: one sample into the slot being written. */
    method Record(d: nat)
      requires Valid()
      modifies this`ticks, this`log, counts
      ensures Valid() && slot == old(slot)
      ensures log == old(log)[|old(log)| - 1 := old(log)[|old(log)| - 1] + [d]]
    {
      var b := Bucket(d);
      ghost var w := |ticks|;
      ghost var before := ticks;
      forall c | 0 <= c < BUCKETS ensures CountIn(ticks[slot] + [d], c) == CountIn(ticks[slot], c) + (if c == b then 1 else 0) {
        InPlus(ticks[slot], [d], c);
      }
      ghost var win := log[|log| - w..];
      assert win[w - 1] == ticks[slot];
      counts[slot, b] := counts[slot, b] + 1;
      ticks := ticks[slot := ticks[slot] + [d]];
      log := log[|log| - 1 := log[|log| - 1] + [d]];
      assert log[|log| - w..] == win[w - 1 := ticks[slot]];
      assert ticks[slot + 1..] + ticks[..slot + 1] == (before[slot + 1..] + before[..slot + 1])[w - 1 := ticks[slot]];
    }

    /** roll, after the p99 reads: zero the oldest slot and write there from now on. */
    method Roll()
      requires Valid()
      modifies this, counts
      ensures Valid() && log == old(log) + [[]] && |ticks| == old(|ticks|)
    {
      var w := counts.Length0;
      Wrap(slot, w);
      var next := (slot + 1) % w;
      Zero(next);
      Rotated(ticks, slot, next, log);
      slot := next;
      ticks := ticks[next := []];
      log := log + [[]];
    }

    /** roll's loop: one slot's counters back to zero. */
    method Zero(next: nat)
      requires counts.Length1 == BUCKETS && next < counts.Length0
      modifies counts
      ensures forall s, c | 0 <= s < counts.Length0 && 0 <= c < BUCKETS ::
        counts[s, c] == if s == next then 0 else old(counts[s, c])
    {
      for b := 0 to BUCKETS
        invariant forall s, c | 0 <= s < counts.Length0 && 0 <= c < BUCKETS ::
          counts[s, c] == if s == next && c < b then 0 else old(counts[s, c])
      {
        counts[next, b] := 0;
      }
    }

    /** The inner loop of the sum: one slot's counters on top of the samples summed so far. */
    method AddSlot(sum: array<nat>, n0: nat, i: nat, ghost soFar: seq<nat>) returns (n: nat)
      requires Valid() && i < counts.Length0 && sum.Length == BUCKETS
      requires forall c | 0 <= c < BUCKETS :: sum[c] == CountIn(soFar, c)
      modifies sum
      ensures forall c | 0 <= c < BUCKETS :: sum[c] == CountIn(soFar + ticks[i], c)
      ensures n == n0 + |ticks[i]|
    {
      n := n0;
      BelowEnds(ticks[i]);
      for b := 0 to BUCKETS
        invariant forall c | b <= c < BUCKETS :: sum[c] == CountIn(soFar, c)
        invariant forall c | 0 <= c < b :: sum[c] == CountIn(soFar + ticks[i], c)
        invariant n == n0 + CountBelow(ticks[i], b)
      {
        var c := counts[i, b];
        InPlus(soFar, ticks[i], b);
        BelowStep(ticks[i], b);
        sum[b] := sum[b] + c;
        n := n + c;
      }
    }

    /** The two nested loops that sum every slot of the window. */
    method Sum() returns (sum: array<nat>, n: nat)
      requires Valid()
      ensures fresh(sum) && sum.Length == BUCKETS
      ensures n == |Recent()| && forall b | 0 <= b < BUCKETS :: sum[b] == CountIn(Recent(), b)
    {
      sum := new nat[BUCKETS](_ => 0);
      n := 0;
      var w := counts.Length0;
      for i := 0 to w
        invariant forall b | 0 <= b < BUCKETS :: sum[b] == CountIn(Concat(ticks[..i]), b)
        invariant n == |Concat(ticks[..i])|
      {
        n := AddSlot(sum, n, i, Concat(ticks[..i]));
        ConcatNext(ticks, i);
      }
      assert ticks[..w] == ticks;
      SlotOrder();
    }

    /** Slot order and time order hold the same samples. */
    lemma SlotOrder()
      requires Valid()
      ensures |Concat(ticks)| == |Recent()|
      ensures forall b :: CountIn(Concat(ticks), b) == CountIn(Recent(), b)
    {
      var old1, new1 := ticks[slot + 1..], ticks[..slot + 1];
      assert ticks == new1 + old1;
      ConcatPlus(new1, old1);
      ConcatPlus(old1, new1);
      forall b ensures CountIn(Concat(ticks), b) == CountIn(Recent(), b) {
        InPlus(Concat(new1), Concat(old1), b);
        InPlus(Concat(old1), Concat(new1), b);
      }
    }

    /** p99: the selected bucket and the value interpolated inside it; 0 for an empty window. */
    method P99() returns (b: nat, value: real)
      requires Valid()
      ensures Recent() == [] ==> value == 0.0
      ensures Recent() != [] ==> IsP99(Recent(), b, value)
    {
      var sum, n := Sum();
      if n == 0 {
        return 0, 0.0;
      }
      var rank := 99 * n / 100 + 1;
      var cum;
      b, cum := Locate(sum, n, rank, Recent());
      value := Interpolate(Edge(b), Edge(b + 1), rank - cum, sum[b]);
      Placed(Recent(), b, value);
    }
  }

  /** v is where the k-th of n samples spread evenly over [lo, hi) is centred: k - 1/2 n-ths of the way up. */
  predicate Spread(v: real, lo: real, hi: real, k: int, n: nat) {
    1 <= k <= n && 2.0 * n as real * (v - lo) == (hi - lo) * (2 * k - 1) as real
  }

  /**
   Floor(99 n / 100) samples or fewer lie below bucket b and more in it or below, and v is where the next one after those
   is centred among the bucket's.
   */
  predicate IsP99(window: seq<nat>, b: nat, v: real) {
    && b < BUCKETS && CountBelow(window, b) <= 99 * |window| / 100 < CountBelow(window, b + 1)
    && Spread(v, Edge(b), Edge(b + 1), 99 * |window| / 100 + 1 - CountBelow(window, b), CountIn(window, b))
    && Edge(b) <= v < Edge(b + 1)
  }

  lemma Placed(window: seq<nat>, b: nat, v: real)
    requires b < BUCKETS && CountBelow(window, b) < 99 * |window| / 100 + 1 <= CountBelow(window, b + 1)
    requires var k := 99 * |window| / 100 + 1 - CountBelow(window, b);
             1 <= k <= CountIn(window, b) && v == Interpolate(Edge(b), Edge(b + 1), k, CountIn(window, b))
    ensures IsP99(window, b, v)
  {
    EdgesRise(b, b + 1);
    Interpolated(Edge(b), Edge(b + 1), 99 * |window| / 100 + 1 - CountBelow(window, b), CountIn(window, b));
  }

  /** The k-th of a bucket's n samples under a uniform spread. */
  function Interpolate(lo: real, hi: real, k: int, n: nat): real
    requires 1 <= k <= n
  {
    lo + (hi - lo) * ((k as real - 0.5) / n as real)
  }

  /** The cumulative walk over the summed buckets: where it stops, and how many samples lie before. */
  method Locate(sum: array<nat>, n: nat, rank: nat, ghost window: seq<nat>) returns (b: nat, cum: nat)
    requires sum.Length == BUCKETS && n == |window| && 1 <= rank <= n
    requires forall c | 0 <= c < BUCKETS :: sum[c] == CountIn(window, c)
    ensures b < BUCKETS && cum == CountBelow(window, b) < rank <= CountBelow(window, b + 1) == cum + sum[b]
  {
    cum := 0;
    b := 0;
    BelowEnds(window);
    while b < BUCKETS
      invariant b <= BUCKETS && cum == CountBelow(window, b) < rank
    {
      BelowStep(window, b);
      if cum + sum[b] >= rank {
        return;
      }
      cum := cum + sum[b];
      b := b + 1;
    }
    assert false;  // the source's fall-through return is unreachable
  }

  lemma Wrap(slot: nat, w: nat)
    requires slot < w
    ensures (slot + 1) % w == if slot + 1 == w then 0 else slot + 1
  {
  }

  /** Opening the next slot drops the oldest tick of the window and appends an empty one. */
  lemma Rotated(ticks: seq<seq<nat>>, slot: nat, next: nat, log: seq<seq<nat>>)
    requires slot < |ticks| <= |log| && next == if slot + 1 == |ticks| then 0 else slot + 1
    requires log[|log| - |ticks|..] == ticks[slot + 1..] + ticks[..slot + 1]
    ensures var t', l' := ticks[next := []], log + [[]];
            l'[|l'| - |t'|..] == t'[next + 1..] + t'[..next + 1]
  {
    var t', l' := ticks[next := []], log + [[]];
    var win := ticks[slot + 1..] + ticks[..slot + 1];
    assert l'[|l'| - |t'|..] == win[1..] + [[]];
    if slot + 1 == |ticks| {
      assert win == ticks;
      assert t'[1..] + t'[..1] == win[1..] + [[]];
    } else {
      assert t'[next + 1..] + t'[..next + 1] == win[1..] + [[]];
    }
  }

  lemma {:induction false} EmptyConcat(t: seq<seq<nat>>)
    requires forall i | 0 <= i < |t| :: t[i] == []
    ensures Concat(t) == []
  {
    if t != [] { EmptyConcat(t[1..]); }
  }

  function NoTicks(n: nat): (t: seq<seq<nat>>)
    ensures |t| == n && forall i | 0 <= i < n :: t[i] == []
  {
    seq(n, _ => [])
  }

  /** A window of empty ticks: nothing in it, and rotating it changes nothing. */
  lemma EmptyTicks(t: seq<seq<nat>>)
    requires 0 < |t| && forall i | 0 <= i < |t| :: t[i] == []
    ensures Concat(t) == [] && t[|t| - |t|..] == t && t[1..] + t[..1] == t
    ensures forall s, b | 0 <= s < |t| && 0 <= b < BUCKETS :: CountIn(t[s], b) == 0
  {
    EmptyConcat(t);
  }

  lemma Interpolated(lo: real, hi: real, k: nat, n: nat)
    requires lo < hi && 1 <= k <= n
    ensures var v := Interpolate(lo, hi, k, n); Spread(v, lo, hi, k, n) && lo <= v < hi
  {
    var f := (k as real - 0.5) / n as real;
    Fraction(k as real - 0.5, n as real);
    Scale(hi - lo, f);
    assert n as real * f == k as real - 0.5;
    Halves(hi - lo, f, k, n);
  }

  lemma Halves(g: real, f: real, k: nat, n: nat)
    requires n as real * f == k as real - 0.5
    ensures 2.0 * n as real * (g * f) == g * (2 * k - 1) as real
  {
    assert (2 * k - 1) as real == 2.0 * k as real - 1.0;
    assert 2.0 * n as real * (g * f) == g * (2.0 * (n as real * f));
  }

  lemma Fraction(x: real, n: real)
    requires 0.0 < x < n
    ensures 0.0 < x / n < 1.0
  {
    assert x == (x / n) * n;
    if x / n >= 1.0 {
      Scale1(x / n, n);
    }
  }

  lemma Scale1(f: real, n: real)
    requires f >= 1.0 && n > 0.0
    ensures f * n >= n
  {
    assert f * n == n + (f - 1.0) * n;
  }

  lemma Scale(g: real, f: real)
    requires g > 0.0 && 0.0 < f < 1.0
    ensures 0.0 < g * f < g
  {
    assert g == g * f + g * (1.0 - f);
  }
}
