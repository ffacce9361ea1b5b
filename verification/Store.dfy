/**
 The queue store (internal/queue/store.go): counters updated in place next to the table, every write and its ledger
 update in one critical section. The SQLite table is the field `rows`; a statement that fails is a flag the
 environment chooses.
 */
module Store {
  import opened Prelude
  import opened Envelope
  import opened Ledger

  datatype Fault = NoFault | Broken(drained: nat, changesOk: bool)

  datatype Census = Census(accepted: seq<int>, delivered: seq<int>, expired: seq<int>,
                           ready: seq<int>, claimed: seq<int>, dead: seq<int>, total: int, backlogged: int)

  function GroupSum(groups: seq<(nat, int)>): int {
    if groups == [] then 0 else GroupSum(groups[..|groups| - 1]) + groups[|groups| - 1].1
  }

  predicate Lists(groups: seq<(nat, int)>, i: nat) {
    exists k :: 0 <= k < |groups| && groups[k].0 == i
  }

  /** The groups of the tenants below `n`, each once, with the size of its share of `s`. */
  ghost predicate GroupsBelow(rows: Table, s: set<nat>, groups: seq<(nat, int)>, n: nat) {
    && (forall k | 0 <= k < |groups| :: groups[k].0 < n && groups[k].1 == |Of(rows, s, groups[k].0)| > 0)
    && (forall k, l | 0 <= k < l < |groups| :: groups[k].0 != groups[l].0)
    && (forall i: nat | i < n :: |Of(rows, s, i)| > 0 ==> Lists(groups, i))
    && GroupSum(groups) == |UpTo(rows, s, n)|
  }

  /** The answer of SELECT tenant_id, COUNT(*) ... GROUP BY tenant_id over the rows `s` of n tenants. */
  ghost predicate GroupsOf(rows: Table, s: set<nat>, groups: seq<(nat, int)>, n: nat) {
    GroupsBelow(rows, s, groups, n) && GroupSum(groups) == |s|
  }

  function UpTo(rows: Table, s: set<nat>, t: nat): set<nat> {
    set id | id in s && id in rows && rows[id].tenant < t
  }

  lemma UpToNext(rows: Table, s: set<nat>, t: nat)
    ensures |UpTo(rows, s, t + 1)| == |UpTo(rows, s, t)| + |Of(rows, s, t)|
  {
    assert UpTo(rows, s, t + 1) == UpTo(rows, s, t) + Of(rows, s, t);
    assert UpTo(rows, s, t) !! Of(rows, s, t);
  }

  lemma EmptyGroup(rows: Table, s: set<nat>, groups: seq<(nat, int)>, t: nat)
    requires GroupsBelow(rows, s, groups, t) && |Of(rows, s, t)| == 0
    ensures GroupsBelow(rows, s, groups, t + 1)
  {
    UpToNext(rows, s, t);
  }

  lemma FullGroup(rows: Table, s: set<nat>, groups: seq<(nat, int)>, t: nat)
    requires GroupsBelow(rows, s, groups, t) && |Of(rows, s, t)| > 0
    ensures GroupsBelow(rows, s, groups + [(t, |Of(rows, s, t)|)], t + 1)
  {
    UpToNext(rows, s, t);
    ListsMore(groups, (t, |Of(rows, s, t)|));
  }

  lemma NextGroup(rows: Table, s: set<nat>, groups: seq<(nat, int)>, t: nat)
    requires GroupsBelow(rows, s, groups, t)
    ensures var c := |Of(rows, s, t)|;
            GroupsBelow(rows, s, if c > 0 then groups + [(t, c)] else groups, t + 1)
  {
    if |Of(rows, s, t)| > 0 { FullGroup(rows, s, groups, t); } else { EmptyGroup(rows, s, groups, t); }
  }

  /** The query engine's GROUP BY. */
  method GroupBy(rows: Table, s: set<nat>, n: nat) returns (groups: seq<(nat, int)>)
    requires s <= rows.Keys && forall id | id in rows :: rows[id].tenant < n
    ensures GroupsOf(rows, s, groups, n)
  {
    groups := [];
    assert UpTo(rows, s, 0) == {};
    for t := 0 to n
      invariant GroupsBelow(rows, s, groups, t)
    {
      NextGroup(rows, s, groups, t);
      var c := |Of(rows, s, t)|;
      if c > 0 {
        groups := groups + [(t, c)];
      }
    }
    assert UpTo(rows, s, n) == s;
  }

  /** A Go map read: zero for a missing key. */
  function Get(m: map<nat, int>, i: nat): int {
    if i in m then m[i] else 0
  }

  /** Exactly the tenants below n with rows in `s`, each with their number. */
  ghost predicate CountsOf(rows: Table, s: set<nat>, counts: map<nat, int>, n: nat) {
    && (forall i: nat :: i in counts <==> i < n && |Of(rows, s, i)| > 0)
    && (forall i | i in counts :: counts[i] == |Of(rows, s, i)|)
  }

  /** The counts and the sum after some of the groups. */
  ghost predicate Tallied(rows: Table, s: set<nat>, groups: seq<(nat, int)>, counts: map<nat, int>, total: int) {
    && total == GroupSum(groups)
    && (forall i: nat :: i in counts <==> Lists(groups, i))
    && (forall i | i in counts :: counts[i] == |Of(rows, s, i)|)
  }

  lemma TallyNext(rows: Table, s: set<nat>, groups: seq<(nat, int)>, n: nat, k: nat, counts: map<nat, int>, total: int)
    requires GroupsOf(rows, s, groups, n) && k < |groups| && Tallied(rows, s, groups[..k], counts, total)
    ensures var g := groups[k]; Tallied(rows, s, groups[..k + 1], counts[g.0 := Get(counts, g.0) + g.1], total + g.1)
  {
    assert groups[..k + 1] == groups[..k] + [groups[k]];
    ListsMore(groups[..k], groups[k]);
  }

  /** The loop over the result rows: counts per tenant and their sum. */
  method Tally(rows: Table, s: set<nat>, groups: seq<(nat, int)>, n: nat) returns (counts: map<nat, int>, total: int)
    requires GroupsOf(rows, s, groups, n)
    ensures total == |s| && CountsOf(rows, s, counts, n)
  {
    counts, total := map[], 0;
    for k := 0 to |groups|
      invariant Tallied(rows, s, groups[..k], counts, total)
    {
      TallyNext(rows, s, groups, n, k, counts, total);
      var (i, c) := groups[k];
      counts := counts[i := Get(counts, i) + c];
      total := total + c;
    }
    assert groups[..|groups|] == groups;
  }

  lemma ListsMore(groups: seq<(nat, int)>, g: (nat, int))
    ensures forall i: nat :: Lists(groups + [g], i) <==> Lists(groups, i) || i == g.0
    ensures GroupSum(groups + [g]) == GroupSum(groups) + g.1
  {
    var h := groups + [g];
    assert h[..|h| - 1] == groups;
    forall i: nat ensures Lists(h, i) <==> Lists(groups, i) || i == g.0 {
      if Lists(groups, i) {
        var k :| 0 <= k < |groups| && groups[k].0 == i;
        assert h[k].0 == i;
      }
      if i == g.0 { assert h[|groups|].0 == i; }
    }
  }

  function Among(rows: Table, s: set<nat>, ts: set<nat>): set<nat> {
    set id | id in s && id in rows && rows[id].tenant in ts
  }

  lemma AmongNext(rows: Table, s: set<nat>, ts: set<nat>, i: nat)
    requires i !in ts
    ensures |Among(rows, s, ts + {i})| == |Among(rows, s, ts)| + |Of(rows, s, i)|
  {
    assert Among(rows, s, ts + {i}) == Among(rows, s, ts) + Of(rows, s, i);
    assert Among(rows, s, ts) !! Of(rows, s, i);
  }

  lemma AmongAll(rows: Table, s: set<nat>, counts: map<nat, int>, n: nat)
    requires CountsOf(rows, s, counts, n) && s <= rows.Keys && forall id | id in rows :: rows[id].tenant < n
    ensures Among(rows, s, counts.Keys) == s
  {
    forall id | id in s ensures id in Among(rows, s, counts.Keys) {
      assert id in Of(rows, s, rows[id].tenant);
    }
  }

  /** Of the tenants `ts`, those whose backlog is exactly their share of `s`. */
  function Vanishing(ready: seq<int>, claimed: seq<int>, rows: Table, s: set<nat>, ts: set<nat>): set<nat> {
    set i | i in ts && i < |ready| && i < |claimed| && ready[i] + claimed[i] == |Of(rows, s, i)|
  }

  lemma VanishingNext(ready: seq<int>, claimed: seq<int>, rows: Table, s: set<nat>, ts: set<nat>, i: nat)
    requires i !in ts && i < |ready| && i < |claimed|
    ensures |Vanishing(ready, claimed, rows, s, ts + {i})|
            == |Vanishing(ready, claimed, rows, s, ts)| + (if ready[i] + claimed[i] == |Of(rows, s, i)| then 1 else 0)
  {
    var a, b := Vanishing(ready, claimed, rows, s, ts), Vanishing(ready, claimed, rows, s, ts + {i});
    if ready[i] + claimed[i] == |Of(rows, s, i)| {
      assert b == a + {i};
    } else {
      assert b == a;
    }
  }

  /** Counters of the tenants in `ts` moved by sign times their share of `s`. */
  function Adjusted(xs: seq<int>, rows: Table, s: set<nat>, ts: set<nat>, sign: int): seq<int> {
    seq(|xs|, (i: nat) requires i < |xs| => xs[i] + (if i in ts then sign * |Of(rows, s, i)| else 0))
  }

  lemma SettleStep(ready: seq<int>, expired: seq<int>, claimed: seq<int>, rows: Table, s: set<nat>, ts: set<nat>, i: nat)
    requires i !in ts && i < |ready| == |expired| == |claimed|
    ensures var c := |Of(rows, s, i)|;
            && Adjusted(ready, rows, s, ts + {i}, -1) == Adjusted(ready, rows, s, ts, -1)[i := ready[i] - c]
            && Adjusted(expired, rows, s, ts + {i}, 1) == Adjusted(expired, rows, s, ts, 1)[i := expired[i] + c]
            && |Among(rows, s, ts + {i})| == |Among(rows, s, ts)| + c
            && |Vanishing(ready, claimed, rows, s, ts + {i})|
               == |Vanishing(ready, claimed, rows, s, ts)| + (if ready[i] + claimed[i] == c then 1 else 0)
  {
    AmongNext(rows, s, ts, i);
    VanishingNext(ready, claimed, rows, s, ts, i);
  }

  class Store {
    const accepted: array<int>
    const delivered: array<int>
    const expired: array<int>
    const ready: array<int>
    const claimed: array<int>
    const deadN: array<int>
    var total: int
    var backlogged: int
    var rows: Table
    var nextID: nat

    /** Six counters per tenant, none of them shared. */
    ghost predicate Shape() {
      && accepted.Length == delivered.Length == expired.Length == ready.Length == claimed.Length == deadN.Length
      && accepted != delivered && accepted != expired && accepted != ready && accepted != claimed && accepted != deadN
      && delivered != expired && delivered != ready && delivered != claimed && delivered != deadN
      && expired != ready && expired != claimed && expired != deadN
      && ready != claimed && ready != deadN && claimed != deadN
    }

    ghost function Repr(): set<object> {
      {this, accepted, delivered, expired, ready, claimed, deadN}
    }

    ghost function View(): Books
      reads Repr()
    {
      Books(rows, accepted[..], delivered[..], expired[..], ready[..], claimed[..], deadN[..], total, backlogged)
    }

    ghost predicate Valid()
      reads Repr()
    {
      Shape() && Shaped(View())
    }

    constructor (tenants: nat)
      ensures Valid() && Agrees(View()) && fresh(Repr() - {this})
      ensures rows == map[] && ready.Length == tenants && nextID == 0
      ensures forall i | 0 <= i < tenants :: accepted[i] == 0
    {
      accepted, delivered := new int[tenants](_ => 0), new int[tenants](_ => 0);
      expired, ready := new int[tenants](_ => 0), new int[tenants](_ => 0);
      claimed, deadN := new int[tenants](_ => 0), new int[tenants](_ => 0);
      total, backlogged := 0, 0;
      rows := map[];
      nextID := 0;
      new;
      assert Live(rows) == {};
      assert Waiting(ready[..], claimed[..]) == {};
      forall i: nat | i < tenants ensures TenantAgrees(View(), i) {
        assert forall st :: Ids(rows, i, st) == {};
      }
    }

    /** A monotone id, allocated without the writer lock. */
    method NextID() returns (id: nat)
      modifies this`nextID
      ensures id == nextID == old(nextID) + 1
    {
      nextID := nextID + 1;
      id := nextID;
    }

    method Insert(idx: nat, id: nat, env: Envelope, now: int, sqlOk: bool) returns (ok: bool)
      requires Valid() && idx < ready.Length
      modifies Repr() - {delivered, expired, claimed, deadN}
      ensures Valid() && ok == (sqlOk && id !in old(rows))
      ensures View() == if ok then Ledger.Insert(old(View()), idx, id, env, now) else old(View())
    {
      ok := sqlOk && id !in rows;
      if !ok {
        return;
      }
      rows := rows[id := Row(idx, env, Ready, 0, now, 0)];
      if ready[idx] + claimed[idx] == 0 {
        backlogged := backlogged + 1;
      }
      accepted[idx] := accepted[idx] + 1;
      ready[idx] := ready[idx] + 1;
      total := total + 1;
    }

    /** The claimed rows come back in any order; a broken cursor returns only the rows drained before it broke. */
    method Claim(idx: nat, n: int, until: int, sqlOk: bool, fault: Fault) returns (ok: bool, batch: set<nat>)
      requires Valid() && idx < ready.Length
      modifies this`rows, ready, claimed
      ensures Valid() && ok == (sqlOk && fault.NoFault?)
      ensures View() == if !sqlOk then old(View()) else
                ClaimCounted(old(View()), idx, n, until,
                  if fault.Broken? && !fault.changesOk then fault.drained else |ClaimIds(old(View()), idx, n)|)
      ensures ok ==> batch == ClaimIds(old(View()), idx, n) && View() == Ledger.Claim(old(View()), idx, n, until)
    {
      batch := {};
      if !sqlOk {
        return false, batch;
      }
      var s := Limit(Ids(rows, idx, Ready), n);
      rows := SetState(rows, s, Claimed, until);
      var changed := |s|;
      if fault.Broken? && !fault.changesOk {
        changed := fault.drained;
      }
      ready[idx] := ready[idx] - changed;
      claimed[idx] := claimed[idx] + changed;
      if fault.Broken? {
        return false, batch;
      }
      return true, s;
    }

    method Ack(idx: nat, ids: seq<nat>, sqlOk: bool) returns (ok: bool, n: nat)
      requires Valid() && idx < ready.Length
      modifies this`rows, this`total, this`backlogged, delivered, claimed
      ensures Valid() && ok == sqlOk && n == if ok then |Hit(old(rows), ids)| else 0
      ensures View() == if ok then Ledger.Ack(old(View()), idx, ids) else old(View())
    {
      if !sqlOk {
        return false, 0;
      }
      var s := Hit(rows, ids);
      rows := Drop(rows, s);
      n := |s|;
      delivered[idx] := delivered[idx] + n;
      claimed[idx] := claimed[idx] - n;
      total := total - n;
      if n > 0 && ready[idx] + claimed[idx] == 0 {
        backlogged := backlogged - 1;
      }
      ok := true;
    }

    method Release(idx: nat, ids: seq<nat>, sqlOk: bool) returns (ok: bool, n: nat)
      requires Valid() && idx < ready.Length
      modifies this`rows, ready, claimed
      ensures Valid() && ok == sqlOk && n == if ok then |Hit(old(rows), ids)| else 0
      ensures View() == if ok then Ledger.Release(old(View()), idx, ids) else old(View())
    {
      if !sqlOk {
        return false, 0;
      }
      var s := Hit(rows, ids);
      rows := SetState(rows, s, Ready, 0);
      n := |s|;
      claimed[idx] := claimed[idx] - n;
      ready[idx] := ready[idx] + n;
      ok := true;
    }

    method DeadLetter(idx: nat, id: nat, sqlOk: bool) returns (ok: bool)
      requires Valid() && idx < ready.Length
      modifies this`rows, this`total, this`backlogged, claimed, deadN
      ensures Valid() && ok == sqlOk
      ensures View() == if ok then Ledger.DeadLetter(old(View()), idx, id) else old(View())
    {
      if !sqlOk {
        return false;
      }
      var s := Hit(rows, [id]);
      rows := Kill(rows, s);
      var n := |s|;
      claimed[idx] := claimed[idx] - n;
      deadN[idx] := deadN[idx] + n;
      total := total - n;
      if n > 0 && ready[idx] + claimed[idx] == 0 {
        backlogged := backlogged - 1;
      }
      ok := true;
    }

    /** Count per tenant first, update second; a failed read or write changes nothing. */
    method Reclaim(now: int, readOk: bool, updateOk: bool) returns (ok: bool, n: nat)
      requires Valid()
      modifies this`rows, ready, claimed
      ensures Valid() && ok == (readOk && (updateOk || TimedOut(old(rows), now) == {}))
      ensures n == if ok then |TimedOut(old(rows), now)| else 0
      ensures View() == if ok then Ledger.Reclaim(old(View()), now) else old(View())
    {
      if !readOk {
        return false, 0;
      }
      var s := TimedOut(rows, now);
      var groups := GroupBy(rows, s, ready.Length);
      var counts, sum := Tally(rows, s, groups, ready.Length);
      if sum == 0 {
        NothingReclaimed(View(), now);
        return true, 0;
      }
      if !updateOk {
        return false, 0;
      }
      var hit := |s|;
      if hit != sum {
        assert false;  // the source's "cannot happen under store.mu"
      }
      Return(now, s, counts);
      ok, n := true, sum;
    }

    /** Reclaim's update and the counters it moves. */
    method Return(ghost now: int, s: set<nat>, counts: map<nat, int>)
      requires Valid() && s == TimedOut(rows, now) && CountsOf(rows, s, counts, ready.Length)
      modifies this`rows, ready, claimed
      ensures Valid() && View() == Ledger.Reclaim(old(View()), now)
    {
      ghost var before := rows;
      rows := SetState(rows, s, Ready, 0);
      GiveBack(before, s, counts);
      assert ready[..] == Ledger.Reclaim(old(View()), now).ready;
      assert claimed[..] == Ledger.Reclaim(old(View()), now).claimed;
    }

    /** Reclaim's last loop. */
    method GiveBack(ghost before: Table, ghost s: set<nat>, counts: map<nat, int>)
      requires Shape() && CountsOf(before, s, counts, ready.Length)
      modifies ready, claimed
      ensures forall i | 0 <= i < ready.Length ::
        ready[i] == old(ready[i]) + |Of(before, s, i)| && claimed[i] == old(claimed[i]) - |Of(before, s, i)|
    {
      var todo := counts.Keys;
      while todo != {}
        invariant todo <= counts.Keys
        invariant forall i | 0 <= i < ready.Length ::
          var c := if i in todo then 0 else |Of(before, s, i)|;
          ready[i] == old(ready[i]) + c && claimed[i] == old(claimed[i]) - c
        decreases todo
      {
        var i :| i in todo;
        claimed[i] := claimed[i] - counts[i];
        ready[i] := ready[i] + counts[i];
        todo := todo - {i};
      }
    }

    method Expire(beforeMs: int, limit: int, readOk: bool, deleteOk: bool) returns (ok: bool, n: nat)
      requires Valid()
      modifies this`rows, this`total, this`backlogged, ready, expired
      ensures Valid()
      ensures ok == (readOk && (deleteOk || Limit(Overdue(old(rows), beforeMs), limit) == {}))
      ensures n == if ok then |Limit(Overdue(old(rows), beforeMs), limit)| else 0
      ensures View() == if ok then Ledger.Expire(old(View()), beforeMs, limit) else old(View())
    {
      if !readOk {
        return false, 0;
      }
      var s := Limit(Overdue(rows, beforeMs), limit);
      var groups := GroupBy(rows, s, ready.Length);
      var counts, sum := Tally(rows, s, groups, ready.Length);
      if sum == 0 {
        NothingExpired(View(), beforeMs, limit);
        return true, 0;
      }
      if !deleteOk {
        return false, 0;
      }
      var hit := |s|;
      if hit != sum {
        assert false;  // the source's "cannot happen under store.mu"
      }
      Delete(beforeMs, limit, s, counts);
      ok, n := true, sum;
    }

    /** Expire's delete and the counters it moves. */
    method Delete(ghost beforeMs: int, ghost limit: int, s: set<nat>, counts: map<nat, int>)
      requires Valid() && s == Limit(Overdue(rows, beforeMs), limit) && CountsOf(rows, s, counts, ready.Length)
      modifies this`rows, this`total, this`backlogged, ready, expired
      ensures Valid() && View() == Ledger.Expire(old(View()), beforeMs, limit)
    {
      ghost var before := rows;
      ghost var b := View();
      rows := Drop(rows, s);
      Settle(before, s, counts);
      ExpiredBooks(b, View(), s, counts);
    }

    method SettleOne(i: nat, c: int)
      requires Shape() && i < ready.Length
      modifies this`total, this`backlogged, ready, expired
      ensures ready[..] == old(ready[..])[i := old(ready[i]) - c]
      ensures expired[..] == old(expired[..])[i := old(expired[i]) + c]
      ensures total == old(total) - c
      ensures backlogged == old(backlogged) - (if old(ready[i]) + claimed[i] == c then 1 else 0)
    {
      expired[i] := expired[i] + c;
      ready[i] := ready[i] - c;
      total := total - c;
      if ready[i] + claimed[i] == 0 {
        backlogged := backlogged - 1;
      }
    }

    /** Expire's last loop after the tenants in `done`: what it has moved, counted from where it started. */
    ghost predicate SettledSoFar(r0: seq<int>, e0: seq<int>, t0: int, b0: int, before: Table, s: set<nat>, done: set<nat>)
      reads this, ready, expired, claimed
      requires Shape() && |r0| == |e0| == ready.Length
    {
      && ready[..] == Adjusted(r0, before, s, done, -1)
      && expired[..] == Adjusted(e0, before, s, done, 1)
      && total == t0 - |Among(before, s, done)|
      && backlogged == b0 - |Vanishing(r0, claimed[..], before, s, done)|
    }

    method SettleNext(i: nat, c: int, ghost r0: seq<int>, ghost e0: seq<int>, ghost t0: int, ghost b0: int,
                      ghost before: Table, ghost s: set<nat>, ghost done: set<nat>)
      requires Shape() && |r0| == |e0| == ready.Length && i < ready.Length && i !in done
      requires c == |Of(before, s, i)| && forall k | k in done :: k < ready.Length
      requires SettledSoFar(r0, e0, t0, b0, before, s, done)
      modifies this`total, this`backlogged, ready, expired
      ensures SettledSoFar(r0, e0, t0, b0, before, s, done + {i})
    {
      SettleStep(r0, e0, claimed[..], before, s, done, i);
      assert ready[i] == ready[..][i] && expired[i] == expired[..][i];
      SettleOne(i, c);
    }

    /** Expire's last loop: move the counters of every tenant that lost rows. */
    method Settle(ghost before: Table, ghost s: set<nat>, counts: map<nat, int>)
      requires Shape() && CountsOf(before, s, counts, ready.Length)
      modifies this`total, this`backlogged, ready, expired
      ensures SettledSoFar(old(ready[..]), old(expired[..]), old(total), old(backlogged), before, s, counts.Keys)
    {
      ghost var r0, e0, done: set<nat> := ready[..], expired[..], {};
      ghost var t0, b0 := total, backlogged;
      var todo := counts.Keys;
      assert Among(before, s, {}) == {} && Vanishing(r0, claimed[..], before, s, {}) == {};
      while todo != {}
        invariant todo <= counts.Keys && done == counts.Keys - todo
        invariant SettledSoFar(r0, e0, t0, b0, before, s, done)
        decreases todo
      {
        var i :| i in todo;
        SettleNext(i, counts[i], r0, e0, t0, b0, before, s, done);
        todo, done := todo - {i}, done + {i};
      }
      assert done == counts.Keys;
    }

    /** One consistent picture: the rows' own counts and the ledger's counters in one hold of the lock. */
    method TakeCensus() returns (c: Census)
      requires Valid()
      ensures |c.ready| == |c.claimed| == |c.dead| == ready.Length
      ensures c.accepted == accepted[..] && c.delivered == delivered[..] && c.expired == expired[..]
      ensures forall i: nat | i < ready.Length ::
        c.ready[i] == |Ids(rows, i, Ready)| && c.claimed[i] == |Ids(rows, i, Claimed)| && c.dead[i] == |Ids(rows, i, Dead)|
      ensures c.total == total && c.backlogged == backlogged
    {
      var r := rows;
      c := Census(accepted[..], delivered[..], expired[..],
                  seq(ready.Length, (i: nat) => |Ids(r, i, Ready)|),
                  seq(ready.Length, (i: nat) => |Ids(r, i, Claimed)|),
                  seq(ready.Length, (i: nat) => |Ids(r, i, Dead)|), total, backlogged);
    }
  }

  /** The settled counters are those of Ledger.Expire. */
  lemma ExpiredBooks(b: Books, c: Books, s: set<nat>, counts: map<nat, int>)
    requires Shaped(b) && CountsOf(b.rows, s, counts, Tenants(b))
    requires s <= b.rows.Keys
    requires c.ready == Adjusted(b.ready, b.rows, s, counts.Keys, -1)
    requires c.expired == Adjusted(b.expired, b.rows, s, counts.Keys, 1)
    requires c.total == b.total - |Among(b.rows, s, counts.Keys)|
    requires c.backlogged == b.backlogged - |Vanishing(b.ready, b.claimed, b.rows, s, counts.Keys)|
    ensures c.ready == Shift(b.ready, (i: nat) => -|Of(b.rows, s, i)|)
    ensures c.expired == Shift(b.expired, (i: nat) => |Of(b.rows, s, i)|)
    ensures c.total == b.total - |s|
    ensures c.backlogged == b.backlogged - |Drained(b, s)|
  {
    AmongAll(b.rows, s, counts, Tenants(b));
    assert Vanishing(b.ready, b.claimed, b.rows, s, counts.Keys) == Drained(b, s);
  }

  lemma NothingReclaimed(b: Books, now: int)
    requires Shaped(b) && TimedOut(b.rows, now) == {}
    ensures Ledger.Reclaim(b, now) == b
  {
    var c := Ledger.Reclaim(b, now);
    assert forall i :: Of(b.rows, {}, i) == {};
    assert c.rows == b.rows && c.claimed == b.claimed && c.ready == b.ready;
  }

  lemma NothingExpired(b: Books, before: int, limit: int)
    requires Shaped(b) && Limit(Overdue(b.rows, before), limit) == {}
    ensures Ledger.Expire(b, before, limit) == b
  {
    var c := Ledger.Expire(b, before, limit);
    assert forall i :: Of(b.rows, {}, i) == {};
    assert Drained(b, {}) == {};
    assert c.rows == b.rows && c.expired == b.expired && c.ready == b.ready;
  }
}
