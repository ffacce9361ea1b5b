/**
 The checker's S3 pass (internal/check/checker.go:157-225): windows paired over all tenants, sorted stably by tenant,
 and one group counted at a time against the sink's ring.
 */
module Checker {
  import opened Prelude
  import opened Sink
  import R = Revocations

  datatype Event = Event(idx: nat, at: int, enabled: bool)

  datatype Episode = Episode(idx: nat, w: R.Window)

  function EventsOf(es: seq<Event>, idx: nat): seq<R.KeyEvent> {
    if es == [] then []
    else
      var e := es[|es| - 1];
      EventsOf(es[..|es| - 1], idx) + (if e.idx == idx then [R.KeyEvent(e.at, e.enabled)] else [])
  }

  function EpisodesOf(out: seq<Episode>, idx: nat): seq<R.Window> {
    if out == [] then []
    else
      var p := out[|out| - 1];
      EpisodesOf(out[..|out| - 1], idx) + (if p.idx == idx then [p.w] else [])
  }

  /** The position of a tenant's last episode. */
  predicate LastOf(out: seq<Episode>, idx: nat, k: nat) {
    k < |out| && out[k].idx == idx && forall j | k < j < |out| :: out[j].idx != idx
  }

  lemma {:induction false} CloseLast(out: seq<Episode>, idx: nat, k: nat, w: R.Window)
    requires LastOf(out, idx, k)
    ensures var out' := out[k := Episode(idx, w)];
            && EpisodesOf(out, idx) != []
            && EpisodesOf(out, idx)[|EpisodesOf(out, idx)| - 1] == out[k].w
            && EpisodesOf(out', idx) == EpisodesOf(out, idx)[|EpisodesOf(out, idx)| - 1 := w]
    decreases |out|
  {
    var n := |out| - 1;
    var out' := out[k := Episode(idx, w)];
    if k == n {
      assert out'[..n] == out[..n];
    } else {
      assert out'[..n] == out[..n][k := Episode(idx, w)];
      CloseLast(out[..n], idx, k, w);
    }
  }

  lemma {:induction false} CloseOther(out: seq<Episode>, k: nat, p: Episode, idx: nat)
    requires k < |out| && out[k].idx == p.idx != idx
    ensures EpisodesOf(out[k := p], idx) == EpisodesOf(out, idx)
    decreases |out|
  {
    var n := |out| - 1;
    if k == n {
      assert out[k := p][..n] == out[..n];
    } else {
      assert out[k := p][..n] == out[..n][k := p];
      CloseOther(out[..n], k, p, idx);
    }
  }

  lemma AppendEpisode(out: seq<Episode>, p: Episode, idx: nat)
    ensures EpisodesOf(out + [p], idx) == if p.idx == idx then EpisodesOf(out, idx) + [p.w] else EpisodesOf(out, idx)
  {
    assert (out + [p])[..|out|] == out;
    assert EpisodesOf(out, idx) + [] == EpisodesOf(out, idx);
  }

  lemma NextEvent(es: seq<Event>, k: nat, idx: nat)
    requires k < |es|
    ensures EventsOf(es[..k + 1], idx) ==
              if es[k].idx == idx then EventsOf(es[..k], idx) + [R.KeyEvent(es[k].at, es[k].enabled)] else EventsOf(es[..k], idx)
  {
    assert es[..k + 1][..k] == es[..k];
    assert EventsOf(es[..k], idx) + [] == EventsOf(es[..k], idx);
  }

  lemma PairNext(ks: seq<R.KeyEvent>, e: R.KeyEvent)
    ensures R.Pair(ks + [e]) == R.Paired(R.Pair(ks), e)
  {
    assert (ks + [e])[..|ks|] == ks;
  }

  /** What windows has for one tenant after k events. */
  ghost predicate PairedFor(es: seq<Event>, k: nat, out: seq<Episode>, open: map<nat, nat>, idx: nat)
    requires k <= |es|
  {
    && EpisodesOf(out, idx) == R.Pair(EventsOf(es[..k], idx))
    && (idx in open <==> R.Open(EpisodesOf(out, idx)))
    && (idx in open ==> LastOf(out, idx, open[idx]))
  }

  /** What the pairing loop knows: every tenant's episodes so far, and where its open one stands. */
  ghost predicate PairedUpTo(es: seq<Event>, k: nat, out: seq<Episode>, open: map<nat, nat>) {
    k <= |es| && forall idx: nat :: PairedFor(es, k, out, open, idx)
  }

  lemma OpenOwn(es: seq<Event>, k: nat, out: seq<Episode>, open: map<nat, nat>)
    requires k < |es| && !es[k].enabled && es[k].idx !in open && PairedFor(es, k, out, open, es[k].idx)
    ensures PairedFor(es, k + 1, out + [Episode(es[k].idx, R.Window(es[k].at, 0))], open[es[k].idx := |out|], es[k].idx)
  {
    AppendEpisode(out, Episode(es[k].idx, R.Window(es[k].at, 0)), es[k].idx);
    NextEvent(es, k, es[k].idx);
    PairNext(EventsOf(es[..k], es[k].idx), R.KeyEvent(es[k].at, false));
  }

  lemma OpenElse(es: seq<Event>, k: nat, out: seq<Episode>, open: map<nat, nat>, idx: nat)
    requires k < |es| && es[k].idx != idx && PairedFor(es, k, out, open, idx)
    ensures PairedFor(es, k + 1, out + [Episode(es[k].idx, R.Window(es[k].at, 0))], open[es[k].idx := |out|], idx)
  {
    AppendEpisode(out, Episode(es[k].idx, R.Window(es[k].at, 0)), idx);
    NextEvent(es, k, idx);
  }

  lemma OpenStep(es: seq<Event>, k: nat, out: seq<Episode>, open: map<nat, nat>)
    requires PairedUpTo(es, k, out, open) && k < |es| && !es[k].enabled && es[k].idx !in open
    ensures PairedUpTo(es, k + 1, out + [Episode(es[k].idx, R.Window(es[k].at, 0))], open[es[k].idx := |out|])
  {
    var n, out', open' := k + 1, out + [Episode(es[k].idx, R.Window(es[k].at, 0))], open[es[k].idx := |out|];
    forall idx: nat ensures PairedFor(es, n, out', open', idx) {
      assert PairedFor(es, k, out, open, idx);
      if idx == es[k].idx { OpenOwn(es, k, out, open); } else { OpenElse(es, k, out, open, idx); }
    }
  }

  lemma RepeatStep(es: seq<Event>, k: nat, out: seq<Episode>, open: map<nat, nat>)
    requires PairedUpTo(es, k, out, open) && k < |es|
    requires es[k].enabled <==> es[k].idx !in open
    ensures PairedUpTo(es, k + 1, out, open)
  {
    var n := k + 1;
    forall idx: nat ensures PairedFor(es, n, out, open, idx) {
      assert PairedFor(es, k, out, open, idx);
      NextEvent(es, k, idx);
      if idx == es[k].idx { PairNext(EventsOf(es[..k], idx), R.KeyEvent(es[k].at, es[k].enabled)); }
    }
  }

  function Closed(out: seq<Episode>, i: nat, at: int): seq<Episode>
    requires i < |out|
  {
    out[i := out[i].(w := out[i].w.(restore := at))]
  }

  /** The tenant whose episode closes. */
  lemma CloseOwn(es: seq<Event>, k: nat, out: seq<Episode>, open: map<nat, nat>, i: nat)
    requires k < |es| && es[k].enabled && es[k].at != 0 && PairedFor(es, k, out, open, es[k].idx)
    requires es[k].idx in open && open[es[k].idx] == i < |out|
    ensures PairedFor(es, k + 1, Closed(out, i, es[k].at), open - {es[k].idx}, es[k].idx)
  {
    var e := es[k];
    CloseLast(out, e.idx, i, out[i].w.(restore := e.at));
    NextEvent(es, k, e.idx);
    PairNext(EventsOf(es[..k], e.idx), R.KeyEvent(e.at, true));
  }

  /** The other tenants. */
  lemma CloseElse(es: seq<Event>, k: nat, out: seq<Episode>, open: map<nat, nat>, i: nat, idx: nat)
    requires k < |es| && i < |out| && out[i].idx == es[k].idx != idx && PairedFor(es, k, out, open, idx)
    ensures PairedFor(es, k + 1, Closed(out, i, es[k].at), open - {es[k].idx}, idx)
  {
    NextEvent(es, k, idx);
    CloseOther(out, i, out[i].(w := out[i].w.(restore := es[k].at)), idx);
  }

  lemma CloseStep(es: seq<Event>, k: nat, out: seq<Episode>, open: map<nat, nat>)
    requires PairedUpTo(es, k, out, open) && k < |es| && es[k].enabled && es[k].idx in open && es[k].at != 0
    ensures open[es[k].idx] < |out|
    ensures PairedUpTo(es, k + 1, Closed(out, open[es[k].idx], es[k].at), open - {es[k].idx})
  {
    var i := open[es[k].idx];
    assert PairedFor(es, k, out, open, es[k].idx);
    var n, out', open' := k + 1, Closed(out, i, es[k].at), open - {es[k].idx};
    forall idx: nat ensures PairedFor(es, n, out', open', idx) {
      assert PairedFor(es, k, out, open, idx);
      if idx == es[k].idx { CloseOwn(es, k, out, open, i); } else { CloseElse(es, k, out, open, i, idx); }
    }
  }

  predicate SortedByIdx(out: seq<Episode>) {
    forall i, j | 0 <= i < j < |out| :: out[i].idx <= out[j].idx
  }

  /** sort.SliceStable: insertion after equal keys keeps each tenant's order. */
  function InsertStable(out: seq<Episode>, p: Episode): (r: seq<Episode>)
    requires SortedByIdx(out)
    ensures SortedByIdx(r) && |r| == |out| + 1
    ensures forall q | q in r :: q == p || q in out
    ensures forall idx: nat :: EpisodesOf(r, idx) == EpisodesOf(out, idx) + (if p.idx == idx then [p.w] else [])
    decreases |out|
  {
    if out == [] || out[|out| - 1].idx <= p.idx then
      assert (out + [p])[..|out|] == out;
      out + [p]
    else
      var n := |out| - 1;
      var r := InsertStable(out[..n], p);
      assert (r + [out[n]])[..|r|] == r;
      assert forall q | q in out[..n] :: q in out;
      r + [out[n]]
  }

  function SortStable(out: seq<Episode>): (r: seq<Episode>)
    ensures SortedByIdx(r) && |r| == |out|
    ensures forall q | q in r :: q in out
    ensures forall idx: nat :: EpisodesOf(r, idx) == EpisodesOf(out, idx)
  {
    if out == [] then [] else
      assert forall q | q in out[..|out| - 1] :: q in out;
      InsertStable(SortStable(out[..|out| - 1]), out[|out| - 1])
  }

  /** windows: each tenant's episodes in order, tenants in order. */
  method Windows(es: seq<Event>, n: nat) returns (ws: seq<Episode>)
    requires forall k | 0 <= k < |es| :: es[k].at != 0 && es[k].idx < n
    ensures forall p | p in ws :: p.idx < n && p.w.revoke != 0
    ensures SortedByIdx(ws)
    ensures forall idx: nat :: EpisodesOf(ws, idx) == R.Pair(EventsOf(es, idx))
  {
    var open: map<nat, nat> := map[];
    var out: seq<Episode> := [];
    assert es[..0] == [];
    for k := 0 to |es|
      invariant PairedUpTo(es, k, out, open)
      invariant forall j | 0 <= j < |out| :: out[j].idx < n && out[j].w.revoke != 0
    {
      var e := es[k];
      if !e.enabled {
        if e.idx in open {
          RepeatStep(es, k, out, open);
          continue;
        }
        OpenStep(es, k, out, open);
        open := open[e.idx := |out|];
        out := out + [Episode(e.idx, R.Window(e.at, 0))];
        continue;
      }
      if e.idx in open {
        CloseStep(es, k, out, open);
        var i := open[e.idx];
        out := out[i := out[i].(w := out[i].w.(restore := e.at))];
        open := open - {e.idx};
      } else {
        RepeatStep(es, k, out, open);
      }
    }
    assert es[..|es|] == es;
    forall idx: nat ensures EpisodesOf(out, idx) == R.Pair(EventsOf(es, idx)) {
      assert PairedFor(es, |es|, out, open, idx);
    }
    ws := SortStable(out);
  }

  // ---- The pass ----

  function Values(xs: seq<Episode>): (r: seq<R.Window>)
    ensures |r| == |xs| && forall i | 0 <= i < |xs| :: r[i] == xs[i].w
  {
    seq(|xs|, i requires 0 <= i < |xs| => xs[i].w)
  }

  lemma ValuesSnoc(e: seq<R.Window>, b: seq<Episode>)
    requires b != []
    ensures var n := |b| - 1; e + Values(b) == (e + Values(b[..n])) + [b[n].w]
  {
    assert Values(b) == Values(b[..|b| - 1]) + [b[|b| - 1].w];
  }

  lemma {:induction false} AppendGroup(a: seq<Episode>, b: seq<Episode>, idx: nat, k: nat)
    requires forall i | 0 <= i < |b| :: b[i].idx == idx
    ensures EpisodesOf(a + b, k) == if k == idx then EpisodesOf(a, k) + Values(b) else EpisodesOf(a, k)
    decreases |b|
  {
    if b == [] {
      assert a + b == a;
      assert EpisodesOf(a, k) + Values(b) == EpisodesOf(a, k);
    } else {
      var n := |b| - 1;
      AppendGroup(a, b[..n], idx, k);
      AppendEpisode(a + b[..n], b[n], k);
      assert a + b == (a + b[..n]) + [b[n]];
      ValuesSnoc(EpisodesOf(a, k), b);
    }
  }

  /** One tenant's group of windows, next after the groups before it. */
  lemma GroupNext(ws: seq<Episode>, i: nat, j: nat, idx: nat)
    requires i <= j <= |ws| && (forall k | i <= k < j :: ws[k].idx == idx) && (forall k | 0 <= k < i :: ws[k].idx != idx)
    ensures EpisodesOf(ws[..i], idx) == []
    ensures forall k: nat :: EpisodesOf(ws[..j], k) == if k == idx then Values(ws[i..j]) else EpisodesOf(ws[..i], k)
  {
    Absent(ws[..i], idx);
    assert ws[..j] == ws[..i] + ws[i..j];
    forall k: nat ensures EpisodesOf(ws[..j], k) == if k == idx then Values(ws[i..j]) else EpisodesOf(ws[..i], k) {
      AppendGroup(ws[..i], ws[i..j], idx, k);
    }
  }

  lemma {:induction false} Absent(a: seq<Episode>, idx: nat)
    requires forall i | 0 <= i < |a| :: a[i].idx != idx
    ensures EpisodesOf(a, idx) == []
  {
    if a != [] { Absent(a[..|a| - 1], idx); }
  }

  function Sum(xs: seq<nat>): nat {
    if xs == [] then 0 else Sum(xs[..|xs| - 1]) + xs[|xs| - 1]
  }

  lemma {:induction false} SumUpdate(xs: seq<nat>, i: nat, v: nat)
    requires i < |xs|
    ensures Sum(xs[i := v]) == Sum(xs) - xs[i] + v
  {
    var n := |xs| - 1;
    if i == n {
      assert xs[i := v][..n] == xs[..n];
    } else {
      SumUpdate(xs[..n], i, v);
      assert xs[i := v][..n] == xs[..n][i := v];
    }
  }

  class Checker {
    const sink: Sink
    const lease: int
    const lastSeq: array<int>
    var seen: map<nat, int>
    var s3Late: nat
    var s3Gap: bool
    ghost var late: seq<nat>  // s3Late and s3Gap, split by tenant
    ghost var gap: seq<bool>

    ghost predicate Valid()
      reads this, lastSeq, sink, sink.count, sink.ring
    {
      && sink.Valid()
      && lastSeq != sink.ring as object && (lastSeq as object) != sink.count
      && lastSeq.Length == |sink.log| == |late| == |gap|
      && s3Late == Sum(late)
      && (s3Gap <==> exists i :: 0 <= i < |gap| && gap[i])
    }

    /** What the checker keeps for one tenant. */
    ghost function Track(idx: nat): R.Track
      requires idx < lastSeq.Length == |late| == |gap|
      reads this, lastSeq
    {
      R.Track(if idx in seen then seen[idx] else 0, lastSeq[idx], late[idx], gap[idx])
    }

    constructor (s: Sink, l: int)
      requires s.Valid()
      ensures Valid() && sink == s && lease == l && fresh(lastSeq)
      ensures forall idx: nat | idx < lastSeq.Length :: Track(idx) == R.NEW
      ensures s3Late == 0 && !s3Gap
    {
      sink, lease := s, l;
      lastSeq := new int[s.count.Length](_ => -1);
      seen := map[];
      s3Late, s3Gap := 0, false;
      late := seq(|s.log|, _ => 0);
      gap := seq(|s.log|, _ => false);
      new;
      ZeroSum(late);
    }

    /** The first time a revoke is seen the resume point becomes the tenant's current total. */
    method Notice(idx: nat, revoke: int)
      requires Valid() && idx < lastSeq.Length && revoke != 0
      modifies this`seen, lastSeq
      ensures Valid() && idx in seen && seen[idx] == revoke
      ensures lastSeq[idx] == if old(Track(idx)).seen != revoke then |sink.log[idx]| else old(lastSeq[idx])
      ensures forall k: nat | k < lastSeq.Length && k != idx :: Track(k) == old(Track(k))
    {
      if !(idx in seen && seen[idx] == revoke) {
        seen := seen[idx := revoke];
        var d := sink.Delivered(idx);
        lastSeq[idx] := d;
      }
    }

    /** The verdicts and the new resume point of one group. */
    method Record(idx: nat, n: nat, newSeq: int, overran: bool)
      requires Valid() && idx < lastSeq.Length
      modifies this`s3Late, this`s3Gap, this`late, this`gap, lastSeq
      ensures Valid()
      ensures Track(idx) == old(Track(idx)).(lastSeq := newSeq, late := old(late[idx]) + n, gap := old(gap[idx]) || overran)
      ensures forall k: nat | k < lastSeq.Length && k != idx :: Track(k) == old(Track(k))
    {
      SumUpdate(late, idx, late[idx] + n);
      late := late[idx := late[idx] + n];
      s3Late := s3Late + n;
      if overran {
        s3Gap := true;
        gap := gap[idx := true];
        assert gap[idx];
      }
      lastSeq[idx] := newSeq;
    }

    /** One tenant's group: resume point, one ring query per window, new resume point. */
    method OneTenant(idx: nat, ws: seq<R.Window>)
      requires Valid() && idx < lastSeq.Length && ws != [] && ws[|ws| - 1].revoke != 0
      modifies this, lastSeq
      ensures Valid()
      ensures Track(idx) == R.Pass(old(Track(idx)), ws, sink.log[idx], lease, sink.size)
      ensures forall k: nat | k < lastSeq.Length && k != idx :: Track(k) == old(Track(k))
    {
      Notice(idx, ws[|ws| - 1].revoke);
      var since := lastSeq[idx];
      var n, newSeq, overran := CountGroup(idx, ws, since);
      Record(idx, n, newSeq, overran);
    }

    /** The inner loop over one tenant's windows. */
    method CountGroup(idx: nat, ws: seq<R.Window>, since: int) returns (n: nat, newSeq: int, overran: bool)
      requires Valid() && idx < lastSeq.Length && ws != []
      ensures n == R.LateSum(sink.log[idx][From(since, |sink.log[idx]|, sink.size)..], ws, lease)
      ensures newSeq == Max(since, |sink.log[idx]|)
      ensures overran == Overrun(since, |sink.log[idx]|, sink.size)
    {
      n, newSeq, overran := 0, since, false;
      ghost var rest := sink.log[idx][From(since, |sink.log[idx]|, sink.size)..];
      for k := 0 to |ws|
        invariant n == R.LateSum(rest, ws[..k], lease)
        invariant newSeq == if k == 0 then since else Max(since, |sink.log[idx]|)
        invariant overran == (k > 0 && Overrun(since, |sink.log[idx]|, sink.size))
      {
        var lo := ws[k].revoke + lease;
        var m, s, over := sink.DeliveredBetween(idx, since, lo, ws[k].restore);
        assert ws[..k + 1][..k] == ws[..k];
        n := n + m;
        if over {
          overran := true;
        }
        if s > newSeq {
          newSeq := s;
        }
      }
      assert ws[..|ws|] == ws;
    }

    /** s3: every tenant is brought forward by its own pass; together they move the totals. */
    method S3(events: seq<Event>)
      requires Valid()
      requires forall k | 0 <= k < |events| :: events[k].at != 0 && events[k].idx < lastSeq.Length
      modifies this, lastSeq
      ensures Valid()
      ensures forall idx: nat | idx < lastSeq.Length ::
        Track(idx) == R.Pass(old(Track(idx)), R.Pair(EventsOf(events, idx)), sink.log[idx], lease, sink.size)
    {
      var ws := Windows(events, lastSeq.Length);
      var i := 0;
      while i < |ws|
        invariant 0 <= i <= |ws| && Valid()
        invariant forall k | 0 <= k < i :: i < |ws| ==> ws[k].idx < ws[i].idx
        invariant forall idx: nat | idx < lastSeq.Length ::
          Track(idx) == R.Pass(old(Track(idx)), EpisodesOf(ws[..i], idx), sink.log[idx], lease, sink.size)
      {
        var idx := ws[i].idx;
        assert ws[i] in ws;
        var j := i;
        while j < |ws| && ws[j].idx == idx
          invariant i <= j <= |ws| && forall k | i <= k < j :: ws[k].idx == idx
        {
          j := j + 1;
        }
        assert ws[j - 1] in ws;
        GroupNext(ws, i, j, idx);
        OneTenant(idx, Values(ws[i..j]));
        i := j;
      }
      assert ws[..|ws|] == ws;
    }
  }

  lemma {:induction false} ZeroSum(xs: seq<nat>)
    requires forall i | 0 <= i < |xs| :: xs[i] == 0
    ensures Sum(xs) == 0
  {
    if xs != [] { ZeroSum(xs[..|xs| - 1]); }
  }
}
