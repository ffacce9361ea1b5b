/**
 The webhook sink's evidence (internal/traffic/sink.go): a ring of delivery instants per tenant, refining the full
 delivery history. Times are unix nanoseconds; 0 stands for Go's zero time where the source uses it as "no bound".
 */
module Sink {
  import opened Prelude

  datatype Answer = Took | Mismatch | Cancelled

  predicate Inside(at: int, lo: int, hi: int) {
    at > lo && (hi == 0 || at <= hi)
  }

  /** Deliveries of a history inside (lo, hi]. */
  function Between(log: seq<int>, lo: int, hi: int): nat {
    if log == [] then 0
    else Between(log[..|log| - 1], lo, hi) + (if Inside(log[|log| - 1], lo, hi) then 1 else 0)
  }

  /** The first sequence number the ring can still answer for. */
  function From(sinceSeq: int, total: nat, size: nat): nat {
    var since := if sinceSeq < 0 then 0 else sinceSeq;
    if total - since > size then total - size else Min(since, total)
  }

  function Overrun(sinceSeq: int, total: nat, size: nat): bool {
    total - (if sinceSeq < 0 then 0 else sinceSeq) > size
  }

  /** Slot of the delivery with sequence number q + 1. */
  function Slot(q: nat, size: nat): (k: nat)
    requires size > 0
    ensures k < size
  {
    q % size
  }

  lemma SlotsDiffer(p: nat, q: nat, size: nat)
    requires size > 0 && p < q < p + size
    ensures Slot(p, size) != Slot(q, size)
  {
    var a, b := p / size, q / size;
    assert p == size * a + p % size && q == size * b + q % size;
    if p % size == q % size {
      if b <= a {
        MulMono(size, b, a);
      } else {
        MulStep(size, a, b);
      }
    }
  }

  lemma MulStep(m: nat, a: nat, c: nat)
    requires a < c
    ensures m * a + m <= m * c
  {
    MulMono(m, a + 1, c);
    assert m * (a + 1) == m * a + m;
  }

  lemma BetweenNext(log: seq<int>, from: nat, seq1: nat, lo: int, hi: int)
    requires from < seq1 <= |log|
    ensures Between(log[from..seq1], lo, hi) == Between(log[from..seq1 - 1], lo, hi) + Between([log[seq1 - 1]], lo, hi)
  {
    assert log[from..seq1][..seq1 - 1 - from] == log[from..seq1 - 1];
    assert [log[seq1 - 1]][..0] == [];
  }

  /** The deliveries of a history from the given number on, inside (lo, hi], by number. */
  function Counted(log: seq<int>, from: int, lo: int, hi: int): set<int> {
    set q: int | 0 <= q < |log| && from <= q && lo < log[q] && (hi == 0 || log[q] <= hi)
  }

  lemma {:induction false} BetweenCounts(log: seq<int>, from: nat, end: nat, lo: int, hi: int)
    requires from <= end <= |log|
    ensures Between(log[from..end], lo, hi) == |Counted(log[..end], from, lo, hi)|
    decreases end
  {
    var s := Counted(log[..end], from, lo, hi);
    if from == end {
      assert s == {};
    } else {
      BetweenCounts(log, from, end - 1, lo, hi);
      BetweenNext(log, from, end, lo, hi);
      assert [log[end - 1]][..0] == [];
      var s' := Counted(log[..end - 1], from, lo, hi);
      assert log[..end][..end - 1] == log[..end - 1];
      assert s == if lo < log[end - 1] && (hi == 0 || log[end - 1] <= hi) then s' + {end - 1} else s';
    }
  }

  lemma CountedFrom(log: seq<int>, from: nat, lo: int, hi: int)
    requires from <= |log|
    ensures Between(log[from..], lo, hi) == |Counted(log, from, lo, hi)|
  {
    BetweenCounts(log, from, |log|, lo, hi);
    assert log[..|log|] == log && log[from..|log|] == log[from..];
  }

  class Sink {
    const size: nat
    const count: array<nat>
    const ring: array2<int>
    var mismatches: nat
    ghost var log: seq<seq<int>>  // per tenant: every accepted delivery's instant, in order

    ghost predicate Valid()
      reads this, count, ring
    {
      && size > 0 && ring.Length1 == size && ring.Length0 == count.Length == |log|
      && (forall i | 0 <= i < |log| :: count[i] == |log[i]|)
      && (forall i, q: nat | 0 <= i < |log| && |log[i]| - size <= q < |log[i]| :: ring[i, Slot(q, size)] == log[i][q])
    }

    /** A ring of `ringSize` slots per tenant; zero or less means 1024. */
    constructor (tenants: nat, ringSize: int)
      ensures Valid() && fresh(count) && fresh(ring)
      ensures size == (if ringSize <= 0 then 1024 else ringSize) && log == seq(tenants, _ => [])
    {
      size := if ringSize <= 0 then 1024 else ringSize;
      count := new nat[tenants](_ => 0);
      ring := new int[tenants, if ringSize <= 0 then 1024 else ringSize]((i, j) => 0);
      mismatches := 0;
      log := seq(tenants, _ => []);
    }

    /** Deliver: only an accepted delivery is recorded; a foreign canary is counted, a cancelled wait is neither. */
    method Deliver(idx: nat, at: int, answer: Answer) returns (ok: bool)
      requires Valid() && idx < count.Length
      modifies this`log, this`mismatches, count, ring
      ensures Valid() && ok == answer.Took?
      ensures log == if ok then old(log)[idx := old(log)[idx] + [at]] else old(log)
      ensures mismatches == old(mismatches) + (if answer.Mismatch? then 1 else 0)
    {
      if answer.Mismatch? {
        mismatches := mismatches + 1;
        return false;
      }
      if answer.Cancelled? {
        return false;
      }
      var q := count[idx];
      forall p: nat | q - size < p < q ensures Slot(p, size) != Slot(q, size) {
        SlotsDiffer(p, q, size);
      }
      ring[idx, q % size] := at;
      count[idx] := q + 1;
      log := log[idx := log[idx] + [at]];
      return true;
    }

    /** Delivered. */
    method Delivered(idx: nat) returns (n: nat)
      requires Valid() && idx < count.Length
      ensures n == |log[idx]|
    {
      n := count[idx];
    }

    /**
     DeliveredBetween: exact over (sinceSeq, total] and (lo, hi] unless more than `size` deliveries followed sinceSeq,
     which is reported and then the count covers exactly the last `size` of them.
     */
    method DeliveredBetween(idx: int, sinceSeq: int, lo: int, hi: int) returns (n: nat, newSeq: int, overrun: bool)
      requires Valid()
      ensures !(0 <= idx < count.Length) ==> n == 0 && newSeq == sinceSeq && !overrun
      ensures 0 <= idx < count.Length ==>
        && newSeq == |log[idx]|
        && (overrun <==> |log[idx]| - Max(sinceSeq, 0) > size)
        && overrun == Overrun(sinceSeq, |log[idx]|, size)
        && n == Between(log[idx][From(sinceSeq, |log[idx]|, size)..], lo, hi)
        && n == |Counted(log[idx], Max(Max(sinceSeq, 0), |log[idx]| - size), lo, hi)|
    {
      if idx < 0 || idx >= count.Length {
        return 0, sinceSeq, false;
      }
      var total := count[idx];
      var since := if sinceSeq < 0 then 0 else sinceSeq;
      overrun := false;
      if total - since > size {
        overrun := true;
        since := total - size;
      }
      n := 0;
      ghost var from := From(sinceSeq, total, size);
      ghost var mine := log[idx];
      var seq1 := since + 1;
      while seq1 <= total
        invariant total - size <= since && since + 1 <= seq1 && (since <= total ==> seq1 <= total + 1 && from == since)
        invariant n == if since <= total then Between(mine[from..seq1 - 1], lo, hi) else 0
      {
        var at := ring[idx, (seq1 - 1) % size];
        assert at == ring[idx, Slot(seq1 - 1, size)] == mine[seq1 - 1];
        BetweenNext(mine, from, seq1, lo, hi);
        if at > lo && (hi == 0 || at <= hi) {
          n := n + 1;
        }
        seq1 := seq1 + 1;
      }
      if since <= total {
        assert mine[from..seq1 - 1] == mine[from..];
      } else {
        assert mine[from..] == [];
      }
      newSeq := total;
      CountedFrom(mine, from, lo, hi);
    }
  }

  lemma {:induction false} BetweenPlus(a: seq<int>, b: seq<int>, lo: int, hi: int)
    ensures Between(a + b, lo, hi) == Between(a, lo, hi) + Between(b, lo, hi)
  {
    if b == [] {
      assert a + b == a;
    } else {
      var n := |b| - 1;
      assert (a + b)[..|a| + n] == a + b[..n];
      BetweenPlus(a, b[..n], lo, hi);
    }
  }

  /** When no overrun is reported, the answers of consecutive calls add up to the whole history. */
  lemma ResumeIsExact(log: seq<int>, mid: nat, lo: int, hi: int, size: nat)
    requires mid <= |log| && !Overrun(mid, |log|, size)
    ensures Between(log[..mid], lo, hi) + Between(log[From(mid, |log|, size)..], lo, hi) == Between(log, lo, hi)
  {
    BetweenPlus(log[..mid], log[mid..], lo, hi);
    assert log[..mid] + log[mid..] == log;
  }
}
