/**
 S4 under every interleaving (internal/check/checker.go:242-278 over internal/queue/workers.go:114-181):
 workers holding batches, inserts, retention and reclaim sweeps, and a census between any two steps.
 Every step is one critical section of the store or one delivery; statements that fail change nothing and are not steps.
 */
module Conservation {
  import opened Prelude
  import opened Envelope
  import opened Ledger

  /** A worker between Claim and Ack: rows not yet looked at, and rows delivered but not yet acked. */
  datatype Worker = Worker(idx: nat, rest: seq<nat>, acked: seq<nat>)

  /** `sink` counts the deliveries each tenant's webhook accepted; `used` the message ids ever inserted. */
  datatype Sys = Sys(b: Books, sink: seq<int>, workers: map<nat, Worker>, used: set<nat>)

  datatype Event =
    | InsertRow(i: nat, id: nat, env: Envelope, now: int)
    | ClaimRows(w: nat, i: nat, n: int, until: int, order: seq<nat>)
    | DeliverHead(w: nat)
    | KillHead(w: nat)
    | ReleaseRest(w: nat)
    | Finish(w: nat)
    | ReclaimRows(now: int)
    | ExpireRows(before: int, limit: int)

  predicate Busy(s: Sys, w: nat) {
    w in s.workers && s.workers[w].rest != []
  }

  predicate Enabled(s: Sys, e: Event) {
    match e
    case InsertRow(i, id, env, now) => i < Tenants(s.b) && id !in s.used
    case ClaimRows(w, i, n, until, order) =>
      w !in s.workers && i < Tenants(s.b) && Distinct(order) && Members(order) == ClaimIds(s.b, i, n)
    case DeliverHead(w) => Busy(s, w) && s.workers[w].idx < |s.sink|
    case KillHead(w) => Busy(s, w) && s.workers[w].idx < Tenants(s.b)
    case ReleaseRest(w) => Busy(s, w) && s.workers[w].idx < Tenants(s.b)
    case Finish(w) => w in s.workers && s.workers[w].rest == [] && s.workers[w].idx < Tenants(s.b)
    case ReclaimRows(now) => true
    case ExpireRows(before, limit) => true
  }

  function Next(s: Sys, e: Event): Sys
    requires Shaped(s.b) && Enabled(s, e)
  {
    match e
    case InsertRow(i, id, env, now) => s.(b := Insert(s.b, i, id, env, now), used := s.used + {id})
    case ClaimRows(w, i, n, until, order) =>
      s.(b := Claim(s.b, i, n, until), workers := s.workers[w := Worker(i, order, [])])
    case DeliverHead(w) =>
      var k := s.workers[w];
      s.(sink := Add(s.sink, k.idx, 1), workers := s.workers[w := k.(rest := k.rest[1..], acked := k.acked + [k.rest[0]])])
    case KillHead(w) =>
      var k := s.workers[w];
      s.(b := DeadLetter(s.b, k.idx, k.rest[0]), workers := s.workers[w := k.(rest := k.rest[1..])])
    case ReleaseRest(w) =>
      var k := s.workers[w];
      s.(b := Release(s.b, k.idx, k.rest), workers := s.workers[w := k.(rest := [])])
    case Finish(w) =>
      var k := s.workers[w];
      s.(b := if k.acked == [] then s.b else Ack(s.b, k.idx, k.acked), workers := map v | v in s.workers && v != w :: s.workers[v])
    case ReclaimRows(now) => s.(b := Reclaim(s.b, now))
    case ExpireRows(before, limit) => s.(b := Expire(s.b, before, limit))
  }

  // ---- What the census judges ----

  /** The checker's two tests for tenant i, on the rows and the sink's own count. */
  ghost predicate CensusGreen(s: Sys, i: nat)
    requires Shaped(s.b) && i < Tenants(s.b) && |s.sink| == Tenants(s.b)
  {
    var ready, claimed, dead := |Ids(s.b.rows, i, Ready)|, |Ids(s.b.rows, i, Claimed)|, |Ids(s.b.rows, i, Dead)|;
    && s.b.accepted[i] - (s.b.delivered[i] + ready + claimed + s.b.expired[i] + dead) == 0
    && s.b.delivered[i] <= s.sink[i] <= s.b.delivered[i] + claimed
  }

  predicate HasAcked(s: Sys, id: nat) {
    exists w :: w in s.workers && id in s.workers[w].acked
  }

  /** Rows still stored that some worker has already delivered. */
  ghost function Unacked(s: Sys): set<nat> {
    set id | id in s.b.rows && HasAcked(s, id)
  }

  predicate Knows(s: Sys, k: Worker, id: nat) {
    id in s.used && (id in s.b.rows ==> s.b.rows[id].tenant == k.idx)
  }

  /** A worker's ids belong to its tenant. */
  ghost predicate Trusted(s: Sys, k: Worker) {
    k.idx < Tenants(s.b) && (forall id | id in k.rest :: Knows(s, k, id)) && (forall id | id in k.acked :: Knows(s, k, id))
  }

  ghost predicate SinkCovers(s: Sys)
    requires |s.sink| == |s.b.delivered|
  {
    forall i: nat | i < |s.sink| :: s.b.delivered[i] + |Of(s.b.rows, Unacked(s), i)| <= s.sink[i]
  }

  /** What every run keeps, reclaim at any moment included. */
  ghost predicate Inv(s: Sys) {
    && Agrees(s.b)
    && |s.sink| == Tenants(s.b)
    && s.b.rows.Keys <= s.used
    && (forall w | w in s.workers :: Trusted(s, s.workers[w]))
    && SinkCovers(s)
  }

  // ---- The general invariant, step by step ----

  lemma HeadOwned(s: Sys, w: nat)
    requires Inv(s) && Busy(s, w)
    ensures var k := s.workers[w]; Owned(s.b.rows, Hit(s.b.rows, [k.rest[0]]), k.idx) && Owned(s.b.rows, Hit(s.b.rows, k.rest), k.idx)
  {
    var k := s.workers[w];
    assert Trusted(s, k);
    assert k.rest[0] in k.rest;
    assert forall id | id in k.rest :: Knows(s, k, id);
  }

  lemma AckedOwned(s: Sys, w: nat)
    requires Inv(s) && w in s.workers
    ensures var k := s.workers[w]; Owned(s.b.rows, Hit(s.b.rows, k.acked), k.idx)
  {
    var k := s.workers[w];
    assert Trusted(s, k);
    assert forall id | id in k.acked :: Knows(s, k, id);
  }

  /** The books stay in agreement through every step. */
  lemma StepAgrees(s: Sys, e: Event)
    requires Inv(s) && Enabled(s, e)
    ensures Agrees(Next(s, e).b)
  {
    match e
    case InsertRow(i, id, env, now) => InsertAgrees(s.b, i, id, env, now);
    case ClaimRows(w, i, n, until, order) => ClaimAgrees(s.b, i, n, until);
    case DeliverHead(w) =>
    case KillHead(w) => HeadOwned(s, w); DeadAgrees(s.b, s.workers[w].idx, s.workers[w].rest[0]);
    case ReleaseRest(w) => HeadOwned(s, w); ReleaseAgrees(s.b, s.workers[w].idx, s.workers[w].rest);
    case Finish(w) => AckedOwned(s, w); AckAgrees(s.b, s.workers[w].idx, s.workers[w].acked);
    case ReclaimRows(now) => ReclaimAgrees(s.b, now);
    case ExpireRows(before, limit) => ExpireAgrees(s.b, before, limit);
  }

  /** No step renames a row's tenant or revives an id. */
  ghost predicate RowsFollow(s: Sys, t: Sys) {
    && s.used <= t.used && Tenants(s.b) == Tenants(t.b)
    && (forall id | id in t.b.rows.Keys :: id in t.used)
    && (forall id | id in t.b.rows.Keys && id in s.used :: id in s.b.rows && t.b.rows[id].tenant == s.b.rows[id].tenant)
  }

  lemma StepRows(s: Sys, e: Event)
    requires Inv(s) && Enabled(s, e)
    ensures RowsFollow(s, Next(s, e))
  {
  }

  lemma TrustFollows(s: Sys, t: Sys, k: Worker)
    requires Trusted(s, k) && RowsFollow(s, t)
    ensures Trusted(t, k)
  {
    forall id | id in k.rest ensures Knows(t, k, id) { assert Knows(s, k, id); }
    forall id | id in k.acked ensures Knows(t, k, id) { assert Knows(s, k, id); }
  }

  lemma TrustShrinks(s: Sys, k: Worker, l: Worker)
    requires Trusted(s, k) && l.idx == k.idx
    requires forall id | id in l.rest :: id in k.rest
    requires forall id | id in l.acked :: id in k.acked || id in k.rest
    ensures Trusted(s, l)
  {
    forall id | id in l.rest ensures Knows(s, l, id) { assert Knows(s, k, id); }
    forall id | id in l.acked ensures Knows(s, l, id) { assert Knows(s, k, id); }
  }

  lemma StepTrust(s: Sys, e: Event, w: nat)
    requires Inv(s) && Enabled(s, e) && w in Next(s, e).workers
    ensures Trusted(Next(s, e), Next(s, e).workers[w])
  {
    var t := Next(s, e);
    StepRows(s, e);
    if w in s.workers {
      var k := s.workers[w];
      assert Trusted(s, k);
      TrustShrinks(s, k, t.workers[w]);
      TrustFollows(s, t, t.workers[w]);
    } else {
      ClaimTrust(s, e.i, e.order, ClaimIds(s.b, e.i, e.n));
      TrustFollows(s, t, t.workers[w]);
    }
  }

  lemma ClaimTrust(s: Sys, i: nat, order: seq<nat>, ids: set<nat>)
    requires Inv(s) && i < Tenants(s.b) && Members(order) == ids && ids <= Ids(s.b.rows, i, Ready)
    ensures Trusted(s, Worker(i, order, []))
  {
    forall id | id in order ensures Knows(s, Worker(i, order, []), id) { assert id in Members(order); }
  }

  ghost function Backed(s: Sys, i: nat): int {
    |Of(s.b.rows, Unacked(s), i)|
  }

  lemma AckedIsUsed(s: Sys, id: nat)
    requires Inv(s) && HasAcked(s, id)
    ensures id in s.used
  {
    var w :| w in s.workers && id in s.workers[w].acked;
    assert Trusted(s, s.workers[w]);
    assert Knows(s, s.workers[w], id);
  }

  /** Steps that deliver nothing and ack nothing add no delivered-but-unacked row. */
  lemma QuietUnacked(s: Sys, e: Event)
    requires Inv(s) && Enabled(s, e) && !e.DeliverHead? && !e.Finish?
    ensures Unacked(Next(s, e)) <= Unacked(s)
    ensures !e.ExpireRows? ==> Unacked(Next(s, e)) == Unacked(s)
  {
    var t := Next(s, e);
    StepRows(s, e);
    forall id ensures HasAcked(t, id) <==> HasAcked(s, id) { SameAcked(s, e, id); }
    forall id | id in Unacked(t) ensures id in Unacked(s) { AckedIsUsed(s, id); }
    if !e.ExpireRows? {
      assert s.b.rows.Keys <= t.b.rows.Keys;
    }
  }

  lemma SameAcked(s: Sys, e: Event, id: nat)
    requires Shaped(s.b) && Enabled(s, e) && !e.DeliverHead? && !e.Finish?
    ensures HasAcked(Next(s, e), id) <==> HasAcked(s, id)
  {
    var t := Next(s, e);
    if HasAcked(s, id) {
      var w :| w in s.workers && id in s.workers[w].acked;
      assert w in t.workers && id in t.workers[w].acked;
    }
    if HasAcked(t, id) {
      var w :| w in t.workers && id in t.workers[w].acked;
      assert w in s.workers && id in s.workers[w].acked;
    }
  }

  lemma OfSubset(s: Sys, t: Sys, i: nat)
    requires Unacked(t) <= Unacked(s)
    requires forall id | id in t.b.rows.Keys && id in s.b.rows :: t.b.rows[id].tenant == s.b.rows[id].tenant
    ensures Backed(t, i) <= Backed(s, i)
    ensures Unacked(t) == Unacked(s) ==> Backed(t, i) == Backed(s, i)
  {
    SubsetCard(Of(t.b.rows, Unacked(t), i), Of(s.b.rows, Unacked(s), i));
    if Unacked(t) == Unacked(s) {
      assert Of(t.b.rows, Unacked(t), i) == Of(s.b.rows, Unacked(s), i);
    }
  }

  lemma QuietSink(s: Sys, e: Event, i: nat)
    requires Inv(s) && Enabled(s, e) && !e.DeliverHead? && !e.Finish? && i < Tenants(s.b)
    ensures var t := Next(s, e);
            && t.b.delivered == s.b.delivered && t.sink == s.sink
            && Backed(t, i) <= Backed(s, i) && (!e.ExpireRows? ==> Backed(t, i) == Backed(s, i))
  {
    QuietUnacked(s, e);
    StepRows(s, e);
    OfSubset(s, Next(s, e), i);
  }

  lemma DeliverUnacked(s: Sys, w: nat)
    requires Inv(s) && Enabled(s, DeliverHead(w))
    ensures var id := s.workers[w].rest[0];
            Unacked(Next(s, DeliverHead(w))) == Unacked(s) + (if id in s.b.rows then {id} else {})
  {
    var t := Next(s, DeliverHead(w));
    var id := s.workers[w].rest[0];
    forall x ensures HasAcked(t, x) <==> HasAcked(s, x) || x == id {
      if HasAcked(s, x) {
        var v :| v in s.workers && x in s.workers[v].acked;
        assert v in t.workers && x in t.workers[v].acked;
      }
      if HasAcked(t, x) {
        var v :| v in t.workers && x in t.workers[v].acked;
        assert v in s.workers && (x in s.workers[v].acked || (v == w && x == id));
      }
      assert id in t.workers[w].acked;
    }
  }

  lemma HeadKnown(s: Sys, w: nat)
    requires Inv(s) && Busy(s, w)
    ensures Knows(s, s.workers[w], s.workers[w].rest[0])
  {
    assert Trusted(s, s.workers[w]);
    assert s.workers[w].rest[0] in s.workers[w].rest;
  }

  ghost predicate FirstDelivery(s: Sys, w: nat, i: nat)
    requires Busy(s, w)
  {
    var id := s.workers[w].rest[0];
    i == s.workers[w].idx && id in s.b.rows && !HasAcked(s, id)
  }

  lemma DeliverRows(s: Sys, w: nat, i: nat)
    requires Inv(s) && Enabled(s, DeliverHead(w)) && i < Tenants(s.b)
    ensures var t := Next(s, DeliverHead(w)); var id := s.workers[w].rest[0];
            var a, b := Of(s.b.rows, Unacked(s), i), Of(t.b.rows, Unacked(t), i);
            if FirstDelivery(s, w, i) then id !in a && b == a + {id} else b == a
  {
    DeliverUnacked(s, w);
    HeadKnown(s, w);
  }

  /** A delivery moves the sink by one and the stored delivered rows by at most one, of the same tenant. */
  lemma DeliverSink(s: Sys, w: nat, i: nat)
    requires Inv(s) && Enabled(s, DeliverHead(w)) && i < Tenants(s.b)
    ensures Backed(Next(s, DeliverHead(w)), i) == Backed(s, i) + if FirstDelivery(s, w, i) then 1 else 0
  {
    DeliverRows(s, w, i);
  }

  /** An ack moves rows from delivered-but-unacked to delivered, one for one. */
  lemma FinishSink(s: Sys, w: nat, i: nat)
    requires Inv(s) && Enabled(s, Finish(w)) && i < Tenants(s.b)
    ensures var t := Next(s, Finish(w));
            t.sink == s.sink && t.b.delivered[i] + Backed(t, i) <= s.b.delivered[i] + Backed(s, i)
  {
    var t := Next(s, Finish(w));
    var k := s.workers[w];
    var hit := Hit(s.b.rows, k.acked);
    var a, b := Of(s.b.rows, Unacked(s), i), Of(t.b.rows, Unacked(t), i);
    AckedOwned(s, w);
    forall id | id in hit ensures id in Unacked(s) { assert HasAcked(s, id); }
    assert t.b.rows == Drop(s.b.rows, hit);
    forall id | id in b ensures id in a && id !in hit { FinishAcked(s, w, id); }
    if i == k.idx {
      assert hit <= a;
      assert b <= a - hit;
      SubsetCard(b, a - hit);
    } else {
      SubsetCard(b, a);
    }
  }

  lemma FinishAcked(s: Sys, w: nat, id: nat)
    requires Shaped(s.b) && Enabled(s, Finish(w)) && HasAcked(Next(s, Finish(w)), id)
    ensures HasAcked(s, id)
  {
    var t := Next(s, Finish(w));
    var v :| v in t.workers && id in t.workers[v].acked;
    assert v in s.workers && id in s.workers[v].acked;
  }

  lemma StepSink(s: Sys, e: Event)
    requires Inv(s) && Enabled(s, e)
    ensures SinkCovers(Next(s, e))
  {
    var t := Next(s, e);
    forall i: nat | i < |t.sink| ensures t.b.delivered[i] + Backed(t, i) <= t.sink[i] {
      assert s.b.delivered[i] + Backed(s, i) <= s.sink[i];
      match e
      case DeliverHead(w) => DeliverSink(s, w, i);
      case Finish(w) => FinishSink(s, w, i);
      case _ => QuietSink(s, e, i);
    }
  }

  lemma StepKeeps(s: Sys, e: Event)
    requires Inv(s) && Enabled(s, e)
    ensures Inv(Next(s, e))
  {
    StepAgrees(s, e);
    StepRows(s, e);
    StepSink(s, e);
    forall w | w in Next(s, e).workers ensures Trusted(Next(s, e), Next(s, e).workers[w]) { StepTrust(s, e, w); }
  }

  // ---- No row delivered twice: the upper bound ----

  function Holds(k: Worker): set<nat> {
    Members(k.rest) + Members(k.acked)
  }

  /** A worker's rows are claimed, and it looks at each once. */
  ghost predicate OwnClaims(rows: Table, k: Worker) {
    && Distinct(k.rest) && Members(k.rest) !! Members(k.acked)
    && (forall id | id in Holds(k) :: id in rows && rows[id].state.Claimed?)
  }

  /** Every row a worker holds is claimed by that worker alone, and the sink is exactly accounted for. */
  ghost predicate Exclusive(s: Sys) {
    && (forall w | w in s.workers :: OwnClaims(s.b.rows, s.workers[w]))
    && (forall v, w | v in s.workers && w in s.workers && v != w :: Holds(s.workers[v]) !! Holds(s.workers[w]))
  }

  ghost predicate SinkExact(s: Sys)
    requires |s.sink| == |s.b.delivered|
  {
    forall i: nat | i < |s.sink| :: s.sink[i] == s.b.delivered[i] + Backed(s, i)
  }

  ghost predicate Strong(s: Sys) {
    Inv(s) && Exclusive(s) && SinkExact(s)
  }

  /** The caller fact the at-least-once sweep needs: it times out no row a live worker still holds. */
  ghost predicate Calm(s: Sys, e: Event) {
    e.ReclaimRows? ==> forall w | w in s.workers :: Holds(s.workers[w]) !! TimedOut(s.b.rows, e.now)
  }

  /** A step that leaves a set of claimed rows claimed. */
  predicate Keeps(rows: Table, rows': Table, h: set<nat>) {
    forall id | id in h :: id in rows' && rows'[id].state.Claimed?
  }

  lemma ClaimsStay(s: Sys, t: Sys, k: Worker, l: Worker)
    requires OwnClaims(s.b.rows, k) && Keeps(s.b.rows, t.b.rows, Holds(l))
    requires Distinct(l.rest) && Members(l.rest) !! Members(l.acked)
    ensures OwnClaims(t.b.rows, l)
  {
  }

  lemma TailMembers(xs: seq<nat>)
    requires xs != [] && Distinct(xs)
    ensures Members(xs[1..]) == Members(xs) - {xs[0]} && Distinct(xs[1..])
  {
    assert xs == [xs[0]] + xs[1..];
    forall j | 1 <= j < |xs| ensures xs[j] != xs[0] { }
    forall x ensures x in Members(xs[1..]) <==> x in Members(xs) - {xs[0]} {
      if x in xs && x != xs[0] {
        var j :| 0 <= j < |xs| && xs[j] == x;
        assert xs[1..][j - 1] == x;
      }
    }
  }

  /** What happens to the rows one worker holds when another event runs. */
  lemma OthersKeep(s: Sys, e: Event, w: nat)
    requires Strong(s) && Enabled(s, e) && Calm(s, e) && w in s.workers
    requires e.DeliverHead? || e.KillHead? || e.ReleaseRest? || e.Finish? ==> e.w != w
    ensures Keeps(s.b.rows, Next(s, e).b.rows, Holds(s.workers[w]))
  {
    var k := s.workers[w];
    assert OwnClaims(s.b.rows, k);
    match e
    case KillHead(v) => OtherHit(s, v, w, [s.workers[v].rest[0]]);
    case ReleaseRest(v) => OtherHit(s, v, w, s.workers[v].rest);
    case Finish(v) => OtherHit(s, v, w, s.workers[v].acked);
    case _ =>
  }

  lemma OtherHit(s: Sys, v: nat, w: nat, ids: seq<nat>)
    requires Exclusive(s) && v in s.workers && w in s.workers && v != w
    requires forall id | id in ids :: id in s.workers[v].rest || id in s.workers[v].acked
    ensures Holds(s.workers[w]) !! Hit(s.b.rows, ids)
  {
    assert Holds(s.workers[v]) !! Holds(s.workers[w]);
    forall id | id in Hit(s.b.rows, ids) ensures id in Holds(s.workers[v]) { assert id in ids; }
  }

  /** The worker that acts keeps what it still holds. */
  lemma ActorKeeps(s: Sys, e: Event, w: nat)
    requires Strong(s) && Enabled(s, e) && w in s.workers
    requires (e.DeliverHead? || e.KillHead? || e.ReleaseRest?) && e.w == w
    ensures OwnClaims(Next(s, e).b.rows, Next(s, e).workers[w])
    ensures Holds(Next(s, e).workers[w]) <= Holds(s.workers[w])
  {
    var k, l := s.workers[w], Next(s, e).workers[w];
    assert OwnClaims(s.b.rows, k);
    TailMembers(k.rest);
    assert k.rest[0] in Members(k.rest);
    match e
    case DeliverHead(_) =>
      assert Members(l.acked) == Members(k.acked) + {k.rest[0]};
    case KillHead(_) =>
      assert Hit(s.b.rows, [k.rest[0]]) <= {k.rest[0]};
    case ReleaseRest(_) =>
      assert Members(l.rest) == {};
      assert Hit(s.b.rows, k.rest) <= Members(k.rest);
  }

  lemma ExclusiveWorker(s: Sys, e: Event, w: nat)
    requires Strong(s) && Enabled(s, e) && Calm(s, e) && w in s.workers && w in Next(s, e).workers
    ensures OwnClaims(Next(s, e).b.rows, Next(s, e).workers[w])
    ensures Holds(Next(s, e).workers[w]) <= Holds(s.workers[w])
  {
    var t := Next(s, e);
    if (e.DeliverHead? || e.KillHead? || e.ReleaseRest?) && e.w == w {
      ActorKeeps(s, e, w);
    } else {
      OthersKeep(s, e, w);
      ClaimsStay(s, t, s.workers[w], t.workers[w]);
    }
  }

  lemma NewWorker(s: Sys, e: Event)
    requires Strong(s) && Enabled(s, e) && e.ClaimRows?
    ensures var t := Next(s, e);
            && OwnClaims(t.b.rows, t.workers[e.w])
            && forall w | w in s.workers :: Holds(s.workers[w]) !! Holds(t.workers[e.w])
  {
    var t := Next(s, e);
    assert Holds(t.workers[e.w]) == ClaimIds(s.b, e.i, e.n);
    forall w | w in s.workers ensures Holds(s.workers[w]) !! Holds(t.workers[e.w]) {
      assert OwnClaims(s.b.rows, s.workers[w]);
    }
  }

  lemma StepExclusive(s: Sys, e: Event)
    requires Strong(s) && Enabled(s, e) && Calm(s, e)
    ensures Exclusive(Next(s, e))
  {
    var t := Next(s, e);
    if e.ClaimRows? { NewWorker(s, e); }
    forall w | w in t.workers ensures OwnClaims(t.b.rows, t.workers[w]) {
      if w in s.workers { ExclusiveWorker(s, e, w); }
    }
    forall v, w | v in t.workers && w in t.workers && v != w ensures Holds(t.workers[v]) !! Holds(t.workers[w]) {
      if v in s.workers { ExclusiveWorker(s, e, v); }
      if w in s.workers { ExclusiveWorker(s, e, w); }
    }
  }

  lemma NotAckedElsewhere(s: Sys, w: nat)
    requires Exclusive(s) && Busy(s, w)
    ensures !HasAcked(s, s.workers[w].rest[0]) && s.workers[w].rest[0] in s.b.rows
  {
    var id := s.workers[w].rest[0];
    assert OwnClaims(s.b.rows, s.workers[w]);
    assert id in Members(s.workers[w].rest);
    forall v | v in s.workers ensures id !in s.workers[v].acked {
      if v != w {
        assert Holds(s.workers[v]) !! Holds(s.workers[w]);
        assert id !in Members(s.workers[v].acked);
      } else {
        assert id !in Members(s.workers[w].acked);
      }
    }
  }

  lemma FinishRows(s: Sys, w: nat, i: nat)
    requires Strong(s) && Enabled(s, Finish(w)) && i < Tenants(s.b)
    ensures var t := Next(s, Finish(w)); var k := s.workers[w]; var hit := Hit(s.b.rows, k.acked);
            var a, b := Of(s.b.rows, Unacked(s), i), Of(t.b.rows, Unacked(t), i);
            if i == k.idx then hit <= a && b == a - hit else b == a
  {
    AckedOwned(s, w);
    FinishUnacked(s, w);
    assert Next(s, Finish(w)).b.rows == Drop(s.b.rows, Hit(s.b.rows, s.workers[w].acked));
  }

  lemma FinishExact(s: Sys, w: nat, i: nat)
    requires Strong(s) && Enabled(s, Finish(w)) && i < Tenants(s.b)
    ensures var t := Next(s, Finish(w));
            t.b.delivered[i] + Backed(t, i) == s.b.delivered[i] + Backed(s, i)
  {
    FinishRows(s, w, i);
  }

  lemma FinishUnacked(s: Sys, w: nat)
    requires Strong(s) && Enabled(s, Finish(w))
    ensures var hit := Hit(s.b.rows, s.workers[w].acked);
            hit <= Unacked(s) && Unacked(Next(s, Finish(w))) == Unacked(s) - hit
  {
    var t := Next(s, Finish(w));
    var k := s.workers[w];
    var hit := Hit(s.b.rows, k.acked);
    assert OwnClaims(s.b.rows, k);
    forall id | id in k.acked ensures id in hit { assert id in Members(k.acked); }
    forall id | id in hit ensures HasAcked(s, id) { }
    forall id | HasAcked(s, id) && id !in hit ensures HasAcked(t, id) {
      var v :| v in s.workers && id in s.workers[v].acked;
      assert v in t.workers && id in t.workers[v].acked;
    }
    forall id | HasAcked(t, id) ensures HasAcked(s, id) { FinishAcked(s, w, id); }
  }

  /** Retention only takes ready rows, so it takes none that is delivered but unacked. */
  lemma ExpireExact(s: Sys, e: Event)
    requires Strong(s) && e.ExpireRows?
    ensures Unacked(Next(s, e)) == Unacked(s)
  {
    var t := Next(s, e);
    QuietUnacked(s, e);
    forall id | id in Unacked(s) ensures id in Unacked(t) {
      var w :| w in s.workers && id in s.workers[w].acked;
      assert OwnClaims(s.b.rows, s.workers[w]);
      assert id in Members(s.workers[w].acked);
      SameAcked(s, e, id);
    }
  }

  lemma StepExact(s: Sys, e: Event)
    requires Strong(s) && Enabled(s, e) && Calm(s, e)
    ensures SinkExact(Next(s, e))
  {
    var t := Next(s, e);
    forall i: nat | i < |t.sink| ensures t.sink[i] == t.b.delivered[i] + Backed(t, i) {
      assert s.sink[i] == s.b.delivered[i] + Backed(s, i);
      match e
      case DeliverHead(w) => NotAckedElsewhere(s, w); DeliverSink(s, w, i);
      case Finish(w) => FinishExact(s, w, i);
      case ExpireRows(_, _) => ExpireExact(s, e); StepRows(s, e); QuietSink(s, e, i); OfSubset(s, t, i);
      case _ => QuietSink(s, e, i);
    }
  }

  lemma StepKeepsStrong(s: Sys, e: Event)
    requires Strong(s) && Enabled(s, e) && Calm(s, e)
    ensures Strong(Next(s, e))
  {
    StepKeeps(s, e);
    StepExclusive(s, e);
    StepExact(s, e);
  }

  // ---- Over whole runs ----

  function Empty(tenants: nat): Sys {
    var z := seq(tenants, _ => 0);
    Sys(Books(map[], z, z, z, z, z, z, 0, 0), z, map[], {})
  }

  ghost predicate Legal(s: Sys, es: seq<Event>)
    requires Shaped(s.b)
    decreases |es|
  {
    es != [] ==> Enabled(s, es[0]) && Shaped(Next(s, es[0]).b) && Legal(Next(s, es[0]), es[1..])
  }

  function Run(s: Sys, es: seq<Event>): (t: Sys)
    requires Shaped(s.b) && Legal(s, es)
    ensures Shaped(t.b)
    decreases |es|
  {
    if es == [] then s else Run(Next(s, es[0]), es[1..])
  }

  ghost predicate AlwaysCalm(s: Sys, es: seq<Event>)
    requires Shaped(s.b) && Legal(s, es)
    decreases |es|
  {
    es != [] ==> Calm(s, es[0]) && AlwaysCalm(Next(s, es[0]), es[1..])
  }

  lemma EmptyStrong(tenants: nat)
    ensures Strong(Empty(tenants))
  {
    var s := Empty(tenants);
    assert forall i: nat, st :: Ids(s.b.rows, i, st) == {};
    assert Live(s.b.rows) == {} && Waiting(s.b.ready, s.b.claimed) == {};
    assert Unacked(s) == {};
    forall i: nat | i < tenants ensures TenantAgrees(s.b, i) && Backed(s, i) == 0 {
      assert Of(s.b.rows, Unacked(s), i) == {};
    }
  }

  lemma {:induction false} RunKeeps(s: Sys, es: seq<Event>)
    requires Inv(s) && Legal(s, es)
    ensures Inv(Run(s, es))
    decreases |es|
  {
    if es != [] {
      StepKeeps(s, es[0]);
      RunKeeps(Next(s, es[0]), es[1..]);
    }
  }

  lemma {:induction false} RunKeepsStrong(s: Sys, es: seq<Event>)
    requires Strong(s) && Legal(s, es) && AlwaysCalm(s, es)
    ensures Strong(Run(s, es))
    decreases |es|
  {
    if es != [] {
      StepKeepsStrong(s, es[0]);
      RunKeepsStrong(Next(s, es[0]), es[1..]);
    }
  }

  /**
   Conservation: at every census of every run, reclaims at any moment included, the ledger is the table, every
   accepted row is delivered, stored, expired or dead, and nothing counts as delivered that the sink did not see.
   */
  lemma NothingLost(tenants: nat, es: seq<Event>, i: nat)
    requires Legal(Empty(tenants), es) && i < tenants
    ensures var s := Run(Empty(tenants), es);
            && Agrees(s.b) && Tenants(s.b) == tenants == |s.sink|
            && s.b.accepted[i] == s.b.delivered[i] + s.b.expired[i]
                 + |Ids(s.b.rows, i, Ready)| + |Ids(s.b.rows, i, Claimed)| + |Ids(s.b.rows, i, Dead)|
            && s.b.delivered[i] <= s.sink[i]
  {
    var s := Run(Empty(tenants), es);
    EmptyStrong(tenants);
    RunKeeps(Empty(tenants), es);
    RunTenants(Empty(tenants), es);
    assert TenantAgrees(s.b, i);
    assert s.b.delivered[i] + |Of(s.b.rows, Unacked(s), i)| <= s.sink[i];
  }

  lemma {:induction false} RunTenants(s: Sys, es: seq<Event>)
    requires Inv(s) && Legal(s, es)
    ensures Tenants(Run(s, es).b) == Tenants(s.b)
    decreases |es|
  {
    if es != [] {
      StepKeeps(s, es[0]);
      StepRows(s, es[0]);
      RunTenants(Next(s, es[0]), es[1..]);
    }
  }

  /** S4 never goes red on a run whose reclaim sweeps time out no row a live worker holds. */
  lemma S4StaysGreen(tenants: nat, es: seq<Event>, i: nat)
    requires Legal(Empty(tenants), es) && AlwaysCalm(Empty(tenants), es) && i < tenants
    ensures var s := Run(Empty(tenants), es);
            Tenants(s.b) == tenants == |s.sink| && CensusGreen(s, i)
  {
    var s := Run(Empty(tenants), es);
    EmptyStrong(tenants);
    RunKeepsStrong(Empty(tenants), es);
    NothingLost(tenants, es, i);
    assert s.sink[i] == s.b.delivered[i] + Backed(s, i);
    forall id | id in Of(s.b.rows, Unacked(s), i) ensures id in Ids(s.b.rows, i, Claimed) {
      var w :| w in s.workers && id in s.workers[w].acked;
      assert OwnClaims(s.b.rows, s.workers[w]);
      assert id in Members(s.workers[w].acked);
    }
    SubsetCard(Of(s.b.rows, Unacked(s), i), Ids(s.b.rows, i, Claimed));
  }

  // ---- The caller fact is needed ----

  /** The weaker reading: reclaim spares only rows that are delivered but unacked. */
  ghost predicate SparesDelivered(s: Sys, e: Event) {
    e.ReclaimRows? ==> Unacked(s) !! TimedOut(s.b.rows, e.now)
  }

  ghost predicate AlwaysSpares(s: Sys, es: seq<Event>)
    requires Shaped(s.b) && Legal(s, es)
    decreases |es|
  {
    es != [] ==> SparesDelivered(s, es[0]) && AlwaysSpares(Next(s, es[0]), es[1..])
  }

  lemma OnlyRow(b: Books, id: nat, n: int)
    requires Shaped(b) && b.rows.Keys == {id} && b.rows[id].tenant == 0 && b.rows[id].state == Ready && n > 0
    ensures ClaimIds(b, 0, n) == {id}
  {
    assert Ids(b.rows, 0, Ready) == {id};
    var r := ClaimIds(b, 0, n);
    assert |r| == 1 && r <= {id};
    var x :| x in r;
  }

  /** One tenant, one stored row, claimed by worker v (and maybe held, undelivered, by worker w). */
  predicate OneRow(s: Sys, st: RowState) {
    && Shaped(s.b) && Tenants(s.b) == 1 && |s.sink| == 1
    && s.b.rows.Keys == {1} && s.b.rows[1].tenant == 0 && s.b.rows[1].state == st
  }

  /** Some legal run that never reclaims a delivered row leads from an empty queue of one tenant to s. */
  ghost predicate Reached(s: Sys) {
    exists es :: Legal(Empty(1), es) && AlwaysSpares(Empty(1), es) && Run(Empty(1), es) == s
  }

  lemma {:induction false} RunThen(s: Sys, es: seq<Event>, e: Event)
    requires Shaped(s.b) && Legal(s, es) && AlwaysSpares(s, es)
    requires var t := Run(s, es); Enabled(t, e) && SparesDelivered(t, e) && Shaped(Next(t, e).b)
    ensures Legal(s, es + [e]) && AlwaysSpares(s, es + [e]) && Run(s, es + [e]) == Next(Run(s, es), e)
    decreases |es|
  {
    if es == [] {
      assert (es + [e])[1..] == [];
    } else {
      assert (es + [e])[1..] == es[1..] + [e];
      RunThen(Next(s, es[0]), es[1..], e);
    }
  }

  lemma ReachNext(s: Sys, e: Event)
    requires Reached(s) && Shaped(s.b) && Enabled(s, e) && SparesDelivered(s, e) && Shaped(Next(s, e).b)
    ensures Reached(Next(s, e))
  {
    var es :| Legal(Empty(1), es) && AlwaysSpares(Empty(1), es) && Run(Empty(1), es) == s;
    RunThen(Empty(1), es, e);
  }

  lemma RowInserted(env: Envelope) returns (s: Sys)
    ensures Reached(s) && OneRow(s, Ready) && s.workers == map[] && s.sink == [0] && s.b.delivered == [0]
  {
    var s0 := Empty(1);
    assert Legal(s0, []) && AlwaysSpares(s0, []) && Run(s0, []) == s0;
    ReachNext(s0, InsertRow(0, 1, env, 0));
    s := Next(s0, InsertRow(0, 1, env, 0));
  }

  lemma RowClaimed(env: Envelope) returns (s: Sys)
    ensures Reached(s) && OneRow(s, Claimed) && s.b.rows[1].claimedUntil == 0
    ensures s.workers == map[1 := Worker(0, [1], [])] && s.sink == [0] && s.b.delivered == [0]
  {
    var s1 := RowInserted(env);
    OnlyRow(s1.b, 1, 8);
    assert Members([1]) == {1};
    ReachNext(s1, ClaimRows(1, 0, 8, 0, [1]));
    s := Next(s1, ClaimRows(1, 0, 8, 0, [1]));
  }

  lemma RowClaimedTwice(env: Envelope) returns (s: Sys)
    ensures Reached(s) && OneRow(s, Claimed)
    ensures s.workers == map[1 := Worker(0, [1], []), 2 := Worker(0, [1], [])] && s.sink == [0] && s.b.delivered == [0]
  {
    var s2 := RowClaimed(env);
    assert !HasAcked(s2, 1);
    ReachNext(s2, ReclaimRows(1));
    var s3 := Next(s2, ReclaimRows(1));
    assert OneRow(s3, Ready);
    OnlyRow(s3.b, 1, 8);
    assert Members([1]) == {1};
    ReachNext(s3, ClaimRows(2, 0, 8, 10, [1]));
    s := Next(s3, ClaimRows(2, 0, 8, 10, [1]));
  }

  /**
   A worker slower than the claim timeout: its row is reclaimed before it was delivered, a second worker delivers it,
   then the first one does. No reclaim touched a delivered row, no statement failed, and the census goes red:
   the sink saw two deliveries, the books show none delivered and one claimed.
   */
  lemma SlowWorkerTurnsS4Red(env: Envelope)
    ensures exists s :: Reached(s) && OneRow(s, Claimed) && !CensusGreen(s, 0)
  {
    var s4 := RowClaimedTwice(env);
    ReachNext(s4, DeliverHead(2));
    var s5 := Next(s4, DeliverHead(2));
    ReachNext(s5, DeliverHead(1));
    var s := Next(s5, DeliverHead(1));
    assert Ids(s.b.rows, 0, Claimed) == {1};
    assert Reached(s) && OneRow(s, Claimed) && !CensusGreen(s, 0);
  }
}
