/**
 S4, exactly: on every run, reclaims at any moment included, a tenant's census is green if and only if the deliveries
 that no stored row and no acknowledgement will ever account for still fit among its claimed rows.
 */
module Waste {
  import opened Prelude
  import opened Ledger
  import opened Conservation

  /** Deliveries of tenant i beyond its delivered count and its rows delivered but not yet acked. */
  ghost function Over(s: Sys, i: nat): int
    requires i < |s.sink| && |s.sink| == |s.b.delivered|
  {
    s.sink[i] - s.b.delivered[i] - Backed(s, i)
  }

  /** Rows of a finishing worker that were delivered, are no longer claimed, and nobody else has delivered. */
  ghost function Stranded(s: Sys, w: nat): set<nat>
    requires w in s.workers
  {
    var t := map v | v in s.workers && v != w :: s.workers[v];
    set id | id in s.b.rows && id in s.workers[w].acked && !s.b.rows[id].state.Claimed? && !HasAcked(s.(workers := t), id)
  }

  /**
   What a step wastes: a delivery of a row that is gone or was delivered before, an acknowledgement that finds its row
   no longer claimed, and a retention sweep over a row already delivered.
   */
  ghost function Wasted(s: Sys, e: Event, i: nat): nat
    requires Shaped(s.b) && Enabled(s, e)
  {
    match e
    case DeliverHead(w) =>
      if i == s.workers[w].idx && !FirstDelivery(s, w, i) then 1 else 0
    case Finish(w) => |Of(s.b.rows, Stranded(s, w), i)|
    case ExpireRows(before, limit) => |Of(s.b.rows, Unacked(s) * Limit(Overdue(s.b.rows, before), limit), i)|
    case _ => 0
  }

  lemma DeliverWaste(s: Sys, w: nat, i: nat)
    requires Inv(s) && Enabled(s, DeliverHead(w)) && i < Tenants(s.b)
    ensures Over(Next(s, DeliverHead(w)), i) == Over(s, i) + Wasted(s, DeliverHead(w), i)
  {
    DeliverSink(s, w, i);
  }

  lemma FinishLeaves(s: Sys, w: nat, id: nat)
    requires Shaped(s.b) && Enabled(s, Finish(w))
    ensures HasAcked(s, id) <==> id in s.workers[w].acked || HasAcked(Next(s, Finish(w)), id)
  {
    var t := Next(s, Finish(w));
    if HasAcked(s, id) {
      var v :| v in s.workers && id in s.workers[v].acked;
      assert v == w || (v in t.workers && id in t.workers[v].acked);
    }
    if HasAcked(t, id) { FinishAcked(s, w, id); }
  }

  lemma FinishSplits(s: Sys, w: nat, i: nat)
    requires Inv(s) && Enabled(s, Finish(w)) && i < Tenants(s.b)
    ensures var t := Next(s, Finish(w)); var hit := Hit(s.b.rows, s.workers[w].acked);
            Of(s.b.rows, Unacked(s), i) == Of(s.b.rows, hit, i) + Of(s.b.rows, Stranded(s, w), i) + Of(t.b.rows, Unacked(t), i)
  {
    var t := Next(s, Finish(w));
    forall id ensures HasAcked(s, id) <==> id in s.workers[w].acked || HasAcked(t, id) { FinishLeaves(s, w, id); }
    assert t.workers == s.(workers := t.workers).workers;
    forall id ensures HasAcked(t, id) <==> HasAcked(s.(workers := t.workers), id) { }
  }

  lemma FinishWaste(s: Sys, w: nat, i: nat)
    requires Inv(s) && Enabled(s, Finish(w)) && i < Tenants(s.b)
    ensures Over(Next(s, Finish(w)), i) == Over(s, i) + Wasted(s, Finish(w), i)
  {
    var k := s.workers[w];
    var t := Next(s, Finish(w));
    var hit := Hit(s.b.rows, k.acked);
    AckedOwned(s, w);
    FinishSplits(s, w, i);
    var a, b, c := Of(s.b.rows, hit, i), Of(s.b.rows, Stranded(s, w), i), Of(t.b.rows, Unacked(t), i);
    assert a !! b && (a + b) !! c;
    assert if i == k.idx then a == hit else a == {};
  }

  lemma ExpireSplits(s: Sys, e: Event, i: nat)
    requires Inv(s) && Enabled(s, e) && e.ExpireRows?
    ensures var t := Next(s, e); var gone := Limit(Overdue(s.b.rows, e.before), e.limit);
            var b, c := Of(t.b.rows, Unacked(t), i), Of(s.b.rows, Unacked(s) * gone, i);
            Of(s.b.rows, Unacked(s), i) == b + c && b !! c
  {
    var t := Next(s, e);
    forall id ensures HasAcked(t, id) <==> HasAcked(s, id) { SameAcked(s, e, id); }
    assert t.b.rows == Drop(s.b.rows, Limit(Overdue(s.b.rows, e.before), e.limit));
  }

  lemma ExpireWaste(s: Sys, e: Event, i: nat)
    requires Inv(s) && Enabled(s, e) && e.ExpireRows? && i < Tenants(s.b)
    ensures Over(Next(s, e), i) == Over(s, i) + Wasted(s, e, i)
  {
    ExpireSplits(s, e, i);
  }

  lemma StepWaste(s: Sys, e: Event, i: nat)
    requires Inv(s) && Enabled(s, e) && i < Tenants(s.b)
    ensures var t := Next(s, e); |t.sink| == |t.b.delivered| == Tenants(s.b) && Over(t, i) == Over(s, i) + Wasted(s, e, i)
  {
    StepKeeps(s, e);
    StepRows(s, e);
    match e
    case DeliverHead(w) => DeliverWaste(s, w, i);
    case Finish(w) => FinishWaste(s, w, i);
    case ExpireRows(_, _) => ExpireWaste(s, e, i);
    case _ => QuietSink(s, e, i);
  }

  ghost function RunWaste(s: Sys, es: seq<Event>, i: nat): nat
    requires Shaped(s.b) && Legal(s, es)
    decreases |es|
  {
    if es == [] then 0 else Wasted(s, es[0], i) + RunWaste(Next(s, es[0]), es[1..], i)
  }

  lemma {:induction false} WasteAdds(s: Sys, es: seq<Event>, i: nat)
    requires Inv(s) && Legal(s, es) && i < Tenants(s.b)
    ensures var u := Run(s, es);
            Inv(u) && Tenants(u.b) == Tenants(s.b) && Over(u, i) == Over(s, i) + RunWaste(s, es, i)
    decreases |es|
  {
    if es != [] {
      StepKeeps(s, es[0]);
      StepRows(s, es[0]);
      StepWaste(s, es[0], i);
      WasteAdds(Next(s, es[0]), es[1..], i);
    }
  }

  /** Green exactly when the run's waste and the rows delivered but unacked fit among the claimed rows. */
  lemma S4Exactly(tenants: nat, es: seq<Event>, i: nat)
    requires Legal(Empty(tenants), es) && i < tenants
    ensures var s := Run(Empty(tenants), es);
            && Tenants(s.b) == tenants == |s.sink|
            && (CensusGreen(s, i) <==> RunWaste(Empty(tenants), es, i) + Backed(s, i) <= |Ids(s.b.rows, i, Claimed)|)
  {
    var s0 := Empty(tenants);
    EmptyStrong(tenants);
    NothingLost(tenants, es, i);
    WasteAdds(s0, es, i);
    assert Unacked(s0) == {};
    assert Of(s0.b.rows, Unacked(s0), i) == {};
  }
}
