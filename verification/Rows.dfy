/**
 Which rows each statement touches (internal/queue/store.go:166-175), on the rows themselves: their tenant, state, claim
 and age, and the lowest ids first where there is a limit. Nothing here goes through the sets of Ledger.dfy.
 */
module Rows {
  import opened Prelude
  import opened Envelope
  import L = Ledger

  type Table = L.Table

  /** The rows a statement picks: `n` of `all`, the lowest ids; a negative n is no limit. */
  ghost predicate LowestOf(picked: set<nat>, all: set<nat>, n: int) {
    && picked <= all
    && |picked| == (if n < 0 || |all| <= n then |all| else n)
    && (forall x, y | x in picked && y in all && y !in picked :: x < y)
  }

  lemma LimitIsLowest(all: set<nat>, n: int)
    ensures LowestOf(L.Limit(all, n), all, n)
  {
    var r := L.Limit(all, n);
    assert forall x, y | x in r && y in all && y !in r :: y in all - r;
  }

  lemma AllOf(picked: set<nat>, all: set<nat>)
    requires picked <= all && |picked| == |all|
    ensures picked == all
  {
    SubsetCard(picked, all);
    if picked != all {
      var x :| x in all && x !in picked;
      SubsetCard(picked, all - {x});
    }
  }

  // ---- Expire ----

  /** Ready and enqueued before the instant. */
  predicate Stale(row: L.Row, before: int) { row.state.Ready? && row.enqueuedAt < before }

  function StaleIn(rows: Table, before: int): set<nat> { set id: nat | id in rows && Stale(rows[id], before) }

  /**
   What is gone was ready and older than `before`; every other row is as it was; within the limit all such rows go, past it
   exactly `limit` of them with the lowest ids.
   */
  lemma ExpireTakes(b: L.Books, before: int, limit: int)
    ensures var c := L.Expire(b, before, limit);
            && c.rows.Keys <= b.rows.Keys
            && (forall id | id in c.rows :: c.rows[id] == b.rows[id])
            && LowestOf(b.rows.Keys - c.rows.Keys, StaleIn(b.rows, before), limit)
            && c.accepted == b.accepted && c.delivered == b.delivered && c.claimed == b.claimed && c.dead == b.dead
  {
    var gone := L.Limit(L.Overdue(b.rows, before), limit);
    assert StaleIn(b.rows, before) == L.Overdue(b.rows, before);
    LimitIsLowest(L.Overdue(b.rows, before), limit);
    WhatIsDropped(b.rows, gone);
    assert L.Expire(b, before, limit).rows == L.Drop(b.rows, gone);
  }

  lemma WhatIsDropped(rows: Table, gone: set<nat>)
    requires gone <= rows.Keys
    ensures var left := L.Drop(rows, gone);
            left.Keys <= rows.Keys && rows.Keys - left.Keys == gone && forall id | id in left :: left[id] == rows[id]
  {
  }

  lemma WithinLimit(b: L.Books, before: int, limit: int)
    requires limit < 0 || |StaleIn(b.rows, before)| <= limit
    ensures b.rows.Keys - L.Expire(b, before, limit).rows.Keys == StaleIn(b.rows, before)
  {
    ExpireTakes(b, before, limit);
    var gone, all := b.rows.Keys - L.Expire(b, before, limit).rows.Keys, StaleIn(b.rows, before);
    assert LowestOf(gone, all, limit);
    AllOf(gone, all);
  }

  lemma LeftIn(keys: set<nat>, left: set<nat>, gone: set<nat>, id: nat)
    requires left <= keys && keys - left == gone
    ensures id in left <==> id in keys && id !in gone
  {
    assert id in keys && id !in left <==> id in keys - left;
  }

  /** With no limit, or one the old rows fit in, every ready row older than `before` is gone. */
  lemma ExpireTakesAll(b: L.Books, before: int, limit: int, id: nat)
    requires limit < 0 || |StaleIn(b.rows, before)| <= limit
    ensures id in L.Expire(b, before, limit).rows <==> id in b.rows && !Stale(b.rows[id], before)
  {
    WithinLimit(b, before, limit);
    var gone := StaleIn(b.rows, before);
    LeftIn(b.rows.Keys, L.Expire(b, before, limit).rows.Keys, gone, id);
  }

  // ---- Reclaim, Claim ----

  /** A claimed row whose claim ran out before `now` is ready again, its attempts untouched; no other row changes. */
  lemma ReclaimTakes(b: L.Books, now: int)
    ensures var c := L.Reclaim(b, now);
            && c.rows.Keys == b.rows.Keys
            && (forall id | id in b.rows ::
                  c.rows[id] == if b.rows[id].state.Claimed? && b.rows[id].claimedUntil < now
                                then b.rows[id].(state := L.Ready, claimedUntil := 0) else b.rows[id])
            && c.accepted == b.accepted && c.delivered == b.delivered && c.expired == b.expired && c.dead == b.dead
  {
  }

  function ReadyIn(rows: Table, i: nat): set<nat> { set id: nat | id in rows && rows[id].tenant == i && rows[id].state.Ready? }

  function Changed(rows: Table, rows': Table): set<nat> { set id: nat | id in rows && id in rows' && rows'[id] != rows[id] }

  /** The tenant's ready rows, lowest ids first, at most n of them, are claimed until `until`; no other row changes. */
  lemma ClaimTakes(b: L.Books, i: nat, n: int, until: int)
    requires L.InRange(b, i)
    ensures var c := L.Claim(b, i, n, until);
            && c.rows.Keys == b.rows.Keys
            && LowestOf(Changed(b.rows, c.rows), ReadyIn(b.rows, i), n)
            && (forall id | id in Changed(b.rows, c.rows) ::
                  c.rows[id] == b.rows[id].(state := L.Claimed, claimedUntil := until))
  {
    var c := L.Claim(b, i, n, until);
    var all := ReadyIn(b.rows, i);
    assert all == L.Ids(b.rows, i, L.Ready);
    LimitIsLowest(all, n);
    ClaimChanges(b, i, n, until);
  }

  lemma ClaimChanges(b: L.Books, i: nat, n: int, until: int)
    requires L.InRange(b, i)
    ensures var c := L.Claim(b, i, n, until);
            c.rows.Keys == b.rows.Keys && Changed(b.rows, c.rows) == L.ClaimIds(b, i, n)
  {
    var c, picked := L.Claim(b, i, n, until), L.ClaimIds(b, i, n);
    forall id | id in b.rows ensures c.rows[id] != b.rows[id] <==> id in picked {
      if id in picked { assert c.rows[id].state == L.Claimed && id in L.Ids(b.rows, i, L.Ready); }
    }
  }

  // ---- Insert, Ack, Release, Dead: the named rows ----

  lemma InsertTakes(b: L.Books, i: nat, id: nat, env: Envelope, now: int)
    requires L.InRange(b, i) && id !in b.rows
    ensures var c := L.Insert(b, i, id, env, now);
            c.rows == b.rows[id := L.Row(i, env, L.Ready, 0, now, 0)] && c.accepted[i] == b.accepted[i] + 1
  {
  }

  /** The named rows that are claimed go, and count as delivered; no other row changes. */
  lemma AckTakes(b: L.Books, i: nat, ids: seq<nat>, id: nat)
    requires L.InRange(b, i)
    ensures var c := L.Ack(b, i, ids);
            && (id in c.rows <==> id in b.rows && !(id in ids && b.rows[id].state.Claimed?))
            && (id in c.rows ==> c.rows[id] == b.rows[id])
            && c.delivered[i] == b.delivered[i] + |b.rows.Keys - c.rows.Keys| && c.expired == b.expired && c.accepted == b.accepted
  {
    assert b.rows.Keys - L.Ack(b, i, ids).rows.Keys == L.Hit(b.rows, ids);
  }

  /** The named rows that are claimed are ready again with their attempts untouched; no other row changes. */
  lemma ReleaseTakes(b: L.Books, i: nat, ids: seq<nat>)
    requires L.InRange(b, i)
    ensures var c := L.Release(b, i, ids);
            && c.rows.Keys == b.rows.Keys
            && forall id | id in b.rows ::
                 c.rows[id] == if id in ids && b.rows[id].state.Claimed? then b.rows[id].(state := L.Ready, claimedUntil := 0)
                               else b.rows[id]
  {
  }

  /** The row, if claimed, is dead with one more attempt; no other row changes. */
  lemma DeadTakes(b: L.Books, i: nat, dead: nat)
    requires L.InRange(b, i)
    ensures var c := L.DeadLetter(b, i, dead);
            && c.rows.Keys == b.rows.Keys
            && forall id | id in b.rows ::
                 c.rows[id] == if id == dead && b.rows[id].state.Claimed?
                               then b.rows[id].(state := L.Dead, claimedUntil := 0, attempts := b.rows[id].attempts + 1)
                               else b.rows[id]
  {
    assert forall id | id in b.rows :: id in L.Hit(b.rows, [dead]) <==> id == dead && b.rows[id].state.Claimed?;
  }
}
