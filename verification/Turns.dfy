/**
 A worker's turn in steps. Conservation.dfy takes a worker's batch one row at a time; Workers.dfy runs the loop over the
 whole batch. Done one after the other, the steps leave exactly what the loop leaves.
 */
module Turns {
  import opened Prelude
  import L = Ledger
  import C = Conservation
  import W = Workers

  type Table = L.Table

  /** The steps of worker w over the rest of its batch, as the answers say, and the acknowledgement at the end. */
  function Steps(s: C.Sys, w: nat, answers: seq<W.Answer>): C.Sys
    requires Ready(s, w, answers)
    decreases |answers|
  {
    if answers == [] then C.Next(s, C.Finish(w))
    else match W.FateOf(answers[0])
      case Deliver => Steps(C.Next(s, C.DeliverHead(w)), w, answers[1..])
      case Die => Steps(C.Next(s, C.KillHead(w)), w, answers[1..])
      case Stop => C.Next(C.Next(s, C.ReleaseRest(w)), C.Finish(w))
  }

  /** One answer for each row left. */
  predicate Ready(s: C.Sys, w: nat, answers: seq<W.Answer>) {
    && L.Shaped(s.b) && |s.sink| == L.Tenants(s.b)
    && w in s.workers && s.workers[w].idx < L.Tenants(s.b) && |answers| == |s.workers[w].rest|
  }

  /** The rows are claimed, each named once. */
  ghost predicate Claimed(rows: Table, ids: seq<nat>) {
    Distinct(ids) && forall id | id in ids :: id in rows && rows[id].state.Claimed?
  }

  ghost predicate Mine(rows: Table, k: C.Worker) { Claimed(rows, k.acked + k.rest) }

  /** The table a turn leaves when `acked` had been delivered before. */
  function Leaves(rows: Table, acked: seq<nat>, o: W.Outcome): Table {
    L.Drop(L.SetState(L.Kill(rows, Members(o.dead)), Members(o.released), L.Ready, 0), Members(acked + o.acked))
  }

  lemma HitIs(rows: Table, ids: seq<nat>)
    requires forall id | id in ids :: id in rows && rows[id].state.Claimed?
    ensures L.Hit(rows, ids) == Members(ids)
  {
  }

  lemma ApartOf(a: seq<nat>, b: seq<nat>)
    requires Distinct(a + b)
    ensures forall id | id in a :: id !in b
    ensures forall id | id in a || id in b :: id in a + b
  {
    forall i, j | 0 <= i < |a| && 0 <= j < |b| ensures a[i] != b[j] {
      assert (a + b)[i] == a[i] && (a + b)[|a| + j] == b[j];
    }
  }

  /** The end of a turn: what was delivered is acknowledged. */
  lemma FinishLeaves(s: C.Sys, w: nat)
    requires C.Enabled(s, C.Finish(w)) && L.Shaped(s.b)
    requires forall id | id in s.workers[w].acked :: id in s.b.rows && s.b.rows[id].state.Claimed?
    ensures C.Next(s, C.Finish(w)).b.rows == L.Drop(s.b.rows, Members(s.workers[w].acked))
  {
    var a := s.workers[w].acked;
    HitIs(s.b.rows, a);
    if a == [] { assert L.Drop(s.b.rows, {}) == s.b.rows; }
  }

  lemma StopLeaves(s: C.Sys, w: nat)
    requires L.Shaped(s.b) && C.Busy(s, w) && s.workers[w].idx < L.Tenants(s.b) && Mine(s.b.rows, s.workers[w])
    ensures var k, t := s.workers[w], C.Next(s, C.ReleaseRest(w));
            && L.Shaped(t.b) && C.Enabled(t, C.Finish(w))
            && C.Next(t, C.Finish(w)).b.rows == L.Drop(L.SetState(s.b.rows, Members(k.rest), L.Ready, 0), Members(k.acked))
  {
    var k, t := s.workers[w], C.Next(s, C.ReleaseRest(w));
    ApartOf(k.acked, k.rest);
    HitIs(s.b.rows, k.rest);
    FinishLeaves(t, w);
  }

  lemma KillLeaves(s: C.Sys, w: nat)
    requires L.Shaped(s.b) && C.Busy(s, w) && s.workers[w].idx < L.Tenants(s.b) && Mine(s.b.rows, s.workers[w])
    ensures var k, t := s.workers[w], C.Next(s, C.KillHead(w));
            && L.Shaped(t.b) && t.b.rows == L.Kill(s.b.rows, {k.rest[0]}) && L.Tenants(t.b) == L.Tenants(s.b) && t.sink == s.sink
            && t.workers == s.workers[w := C.Worker(k.idx, k.rest[1..], k.acked)]
  {
    var k := s.workers[w];
    assert k.rest[0] in k.acked + k.rest;
    HitIs(s.b.rows, [k.rest[0]]);
    assert Members([k.rest[0]]) == {k.rest[0]};
  }

  lemma StillMine(rows: Table, k: C.Worker, h: nat)
    requires k.rest != [] && h == k.rest[0] && Mine(rows, k)
    ensures Mine(rows, C.Worker(k.idx, k.rest[1..], k.acked + [h]))
    ensures Mine(L.Kill(rows, {h}), C.Worker(k.idx, k.rest[1..], k.acked))
    ensures h !in k.rest[1..] && h in k.rest
  {
    assert (k.acked + [h]) + k.rest[1..] == k.acked + k.rest;
    ApartOf(k.acked + [h], k.rest[1..]);
    var ids := k.acked + k.rest[1..];
    assert forall i | 0 <= i < |ids| :: ids[i] == (k.acked + k.rest)[if i < |k.acked| then i else i + 1];
    ApartOf(k.acked, k.rest);
    assert k.rest == [h] + k.rest[1..];
  }

  lemma KillTwice(rows: Table, h: nat, dead: seq<nat>)
    requires h !in dead
    ensures L.Kill(L.Kill(rows, {h}), Members(dead)) == L.Kill(rows, Members([h] + dead))
  {
    assert Members([h] + dead) == {h} + Members(dead);
  }

  /** Step by step or in one loop, the turn leaves the same table. */
  lemma {:induction false} StepsAreTheTurn(s: C.Sys, w: nat, answers: seq<W.Answer>)
    requires Ready(s, w, answers) && Mine(s.b.rows, s.workers[w])
    ensures var k := s.workers[w];
            Steps(s, w, answers).b.rows == Leaves(s.b.rows, k.acked, W.Split(k.rest, answers))
    decreases |answers|
  {
    var k := s.workers[w];
    if answers == [] {
      NothingLeft(s, w);
    } else {
      var h := k.rest[0];
      StillMine(s.b.rows, k, h);
      var o := W.Split(k.rest[1..], answers[1..]);
      match W.FateOf(answers[0])
      case Deliver =>
        StepsAreTheTurn(C.Next(s, C.DeliverHead(w)), w, answers[1..]);
        assert (k.acked + [h]) + o.acked == k.acked + ([h] + o.acked);
      case Die =>
        KillLeaves(s, w);
        StepsAreTheTurn(C.Next(s, C.KillHead(w)), w, answers[1..]);
        W.SplitWithin(k.rest[1..], answers[1..]);
        KillTwice(s.b.rows, h, o.dead);
      case Stop =>
        StopLeaves(s, w);
        assert k.acked + [] == k.acked && L.Kill(s.b.rows, Members([])) == s.b.rows;
    }
  }

  lemma NothingLeft(s: C.Sys, w: nat)
    requires Ready(s, w, []) && Mine(s.b.rows, s.workers[w])
    ensures Steps(s, w, []).b.rows == Leaves(s.b.rows, s.workers[w].acked, W.Outcome([], [], []))
  {
    var k := s.workers[w];
    ApartOf(k.acked, k.rest);
    FinishLeaves(s, w);
    assert k.acked + [] == k.acked;
    assert L.SetState(L.Kill(s.b.rows, Members([])), Members([]), L.Ready, 0) == s.b.rows;
  }

  lemma OneMore(sink: seq<int>, i: nat, n: int)
    requires i < |sink|
    ensures sink[i := sink[i] + 1][i := sink[i] + 1 + n] == sink[i := sink[i] + (1 + n)]
  {
  }

  /** Each row acknowledged is one delivery at the tenant's sink, and the worker is done. */
  lemma {:induction false} StepsDeliver(s: C.Sys, w: nat, answers: seq<W.Answer>)
    requires Ready(s, w, answers)
    ensures var k, t := s.workers[w], Steps(s, w, answers);
            && t.sink == s.sink[k.idx := s.sink[k.idx] + |W.Split(k.rest, answers).acked|]
            && t.workers.Keys == s.workers.Keys - {w}
    decreases |answers|
  {
    var k := s.workers[w];
    if answers != [] {
      match W.FateOf(answers[0])
      case Deliver =>
        StepsDeliver(C.Next(s, C.DeliverHead(w)), w, answers[1..]);
        OneMore(s.sink, k.idx, |W.Split(k.rest[1..], answers[1..]).acked|);
      case Die => StepsDeliver(C.Next(s, C.KillHead(w)), w, answers[1..]);
      case Stop =>
    }
  }

  /** From a fresh claim on: the steps of one worker are the loop of Workers.dfy, on the table and at the sink. */
  lemma TurnInSteps(s: C.Sys, w: nat, answers: seq<W.Answer>)
    requires Ready(s, w, answers) && s.workers[w].acked == []
    requires W.Held(s.b.rows, s.workers[w].idx, s.workers[w].rest)
    ensures var k, t, o := s.workers[w], Steps(s, w, answers), W.Split(s.workers[w].rest, answers);
            t.b.rows == W.After(s.b.rows, o) && t.sink == s.sink[k.idx := s.sink[k.idx] + |o.acked|]
  {
    var k := s.workers[w];
    assert k.acked + k.rest == k.rest;
    StepsAreTheTurn(s, w, answers);
    StepsDeliver(s, w, answers);
    assert [] + W.Split(k.rest, answers).acked == W.Split(k.rest, answers).acked;
  }
}
