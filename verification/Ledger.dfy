/**
 The queue's rows and the in-memory ledger beside them (internal/queue/store.go), on values: what each SQL
 statement does to the table, what the code then does to the counters, and that the two never part.
 Tenants are grid indexes; times are milliseconds.
 */
module Ledger {
  import opened Prelude
  import opened Envelope

  datatype RowState = Ready | Claimed | Dead

  datatype Row = Row(tenant: nat, env: Envelope, state: RowState, attempts: nat, enqueuedAt: int, claimedUntil: int)

  type Table = map<nat, Row>

  /** The table and the ledger's counters; accepted .. dead are per tenant. */
  datatype Books = Books(
    rows: Table,
    accepted: seq<int>, delivered: seq<int>, expired: seq<int>,
    ready: seq<int>, claimed: seq<int>, dead: seq<int>,
    total: int, backlogged: int)

  // ---- What the table holds ----

  function Ids(rows: Table, i: nat, st: RowState): set<nat> {
    set id: nat | id in rows && rows[id].tenant == i && rows[id].state == st
  }

  function Live(rows: Table): set<nat> {
    set id: nat | id in rows && !rows[id].state.Dead?
  }

  function Of(rows: Table, s: set<nat>, i: nat): set<nat> {
    set id: nat | id in s && id in rows && rows[id].tenant == i
  }

  predicate Shaped(b: Books) {
    && |b.accepted| == |b.delivered| == |b.expired| == |b.ready| == |b.claimed| == |b.dead|
    && forall id: nat | id in b.rows :: b.rows[id].tenant < |b.ready|
  }

  function Tenants(b: Books): nat { |b.ready| }

  function BacklogOf(b: Books, i: nat): int
    requires i < |b.ready| && i < |b.claimed|
  {
    b.ready[i] + b.claimed[i]
  }

  function Waiting(ready: seq<int>, claimed: seq<int>): set<nat> {
    set i: nat | i < |ready| && i < |claimed| && ready[i] + claimed[i] > 0
  }

  /** One tenant's counters are the counts of its rows, and nothing it was given is lost. */
  ghost predicate TenantAgrees(b: Books, i: nat)
    requires Shaped(b) && i < Tenants(b)
  {
    && b.ready[i] == |Ids(b.rows, i, Ready)|
    && b.claimed[i] == |Ids(b.rows, i, Claimed)|
    && b.dead[i] == |Ids(b.rows, i, Dead)|
    && b.accepted[i] == b.delivered[i] + b.expired[i] + b.ready[i] + b.claimed[i] + b.dead[i]
  }

  /** The ledger refines the table. */
  ghost predicate Agrees(b: Books) {
    && Shaped(b)
    && (forall i: nat | i < Tenants(b) :: TenantAgrees(b, i))
    && b.total == |Live(b.rows)|
    && b.backlogged == |Waiting(b.ready, b.claimed)|
  }

  // ---- Statements as table updates ----

  function SetState(rows: Table, s: set<nat>, st: RowState, until: int): Table {
    map id | id in rows :: if id in s then rows[id].(state := st, claimedUntil := until) else rows[id]
  }

  function Drop(rows: Table, s: set<nat>): Table {
    map id | id in rows && id !in s :: rows[id]
  }

  /** Rows among `ids` in state claimed: what DELETE and UPDATE ... WHERE state='claimed' AND id IN (...) touch. */
  function Hit(rows: Table, ids: seq<nat>): set<nat> {
    set id: nat | id in ids && id in rows && rows[id].state.Claimed?
  }

  function TimedOut(rows: Table, now: int): set<nat> {
    set id: nat | id in rows && rows[id].state.Claimed? && rows[id].claimedUntil < now
  }

  function Overdue(rows: Table, before: int): set<nat> {
    set id: nat | id in rows && rows[id].state.Ready? && rows[id].enqueuedAt < before
  }

  lemma {:induction false} HasLeast(s: set<nat>)
    requires s != {}
    ensures exists m :: m in s && forall x | x in s :: m <= x
  {
    var y :| y in s;
    if s != {y} {
      HasLeast(s - {y});
      var m :| m in s - {y} && forall x | x in s - {y} :: m <= x;
      assert forall x | x in s :: x == y || x in s - {y};
      assert Min(m, y) in s && forall x | x in s :: Min(m, y) <= x;
    } else {
      assert y in s && forall x | x in s :: y <= x;
    }
  }

  function Least(s: set<nat>): (m: int)
    requires s != {}
    ensures m in s && forall x | x in s :: m <= x
  {
    HasLeast(s);
    var m :| m in s && forall x | x in s :: m <= x;
    m
  }

  predicate AllBefore(r: set<nat>, rest: set<nat>) {
    forall x, y | x in r && y in rest :: x < y
  }

  /** ORDER BY id LIMIT n: the n lowest ids; a negative limit is no limit. */
  function Limit(s: set<nat>, n: int): (r: set<nat>)
    ensures r <= s
    ensures |r| == if n < 0 then |s| else Min(n, |s|)
    ensures AllBefore(r, s - r)
    decreases s
  {
    if n < 0 then s
    else if n == 0 || s == {} then {}
    else
      var m := Least(s);
      var rest := Limit(s - {m}, n - 1);
      assert s - ({m} + rest) == (s - {m}) - rest;
      {m} + rest
  }

  // ---- The operations ----

  function Add(xs: seq<int>, i: nat, d: int): (ys: seq<int>)
    requires i < |xs|
    ensures |ys| == |xs|
  {
    xs[i := xs[i] + d]
  }

  predicate InRange(b: Books, i: nat) {
    Shaped(b) && i < Tenants(b)
  }

  /** Insert of a fresh id (a repeated id fails on the primary key and changes nothing). */
  function Insert(b: Books, i: nat, id: nat, env: Envelope, now: int): Books
    requires InRange(b, i)
  {
    if id in b.rows then b
    else b.(rows := b.rows[id := Row(i, env, Ready, 0, now, 0)],
            backlogged := b.backlogged + (if BacklogOf(b, i) == 0 then 1 else 0),
            accepted := Add(b.accepted, i, 1),
            ready := Add(b.ready, i, 1),
            total := b.total + 1)
  }

  function ClaimIds(b: Books, i: nat, n: int): set<nat> {
    Limit(Ids(b.rows, i, Ready), n)
  }

  function Claim(b: Books, i: nat, n: int, until: int): Books
    requires InRange(b, i)
  {
    var s := ClaimIds(b, i, n);
    b.(rows := SetState(b.rows, s, Claimed, until),
       ready := Add(b.ready, i, -|s|),
       claimed := Add(b.claimed, i, |s|))
  }

  /** Claim when the ledger is moved by `moved` rows: a broken cursor falls back on changes(), then on the rows drained. */
  function ClaimCounted(b: Books, i: nat, n: int, until: int, moved: int): Books
    requires InRange(b, i)
  {
    b.(rows := SetState(b.rows, ClaimIds(b, i, n), Claimed, until),
       ready := Add(b.ready, i, -moved),
       claimed := Add(b.claimed, i, moved))
  }

  function Emptied(b: Books, i: nat, gone: int): int
    requires InRange(b, i)
  {
    if gone > 0 && BacklogOf(b, i) == 0 then 1 else 0
  }

  function Ack(b: Books, i: nat, ids: seq<nat>): Books
    requires InRange(b, i)
  {
    var s := Hit(b.rows, ids);
    var c := b.(delivered := Add(b.delivered, i, |s|), claimed := Add(b.claimed, i, -|s|), total := b.total - |s|);
    b.(rows := Drop(b.rows, s), delivered := c.delivered, claimed := c.claimed, total := c.total,
       backlogged := b.backlogged - Emptied(c, i, |s|))
  }

  function Release(b: Books, i: nat, ids: seq<nat>): Books
    requires InRange(b, i)
  {
    var s := Hit(b.rows, ids);
    b.(rows := SetState(b.rows, s, Ready, 0),
       claimed := Add(b.claimed, i, -|s|),
       ready := Add(b.ready, i, |s|))
  }

  function Kill(rows: Table, s: set<nat>): Table {
    map id | id in rows :: if id in s then rows[id].(state := Dead, claimedUntil := 0, attempts := rows[id].attempts + 1) else rows[id]
  }

  function DeadLetter(b: Books, i: nat, id: nat): Books
    requires InRange(b, i)
  {
    var s := Hit(b.rows, [id]);
    var c := b.(claimed := Add(b.claimed, i, -|s|), dead := Add(b.dead, i, |s|), total := b.total - |s|);
    b.(rows := Kill(b.rows, s), claimed := c.claimed, dead := c.dead, total := c.total,
       backlogged := b.backlogged - Emptied(c, i, |s|))
  }

  /** Adding d(i) to every counter. */
  function Shift(xs: seq<int>, d: nat -> int): (ys: seq<int>)
    ensures |ys| == |xs| && forall i | 0 <= i < |xs| :: ys[i] == xs[i] + d(i)
  {
    seq(|xs|, i requires 0 <= i < |xs| => xs[i] + d(i))
  }

  function Reclaim(b: Books, now: int): Books {
    var s := TimedOut(b.rows, now);
    b.(rows := SetState(b.rows, s, Ready, 0),
       claimed := Shift(b.claimed, (i: nat) => -|Of(b.rows, s, i)|),
       ready := Shift(b.ready, (i: nat) => |Of(b.rows, s, i)|))
  }

  /** Tenants that lose their last live row when `s` goes. */
  function Drained(b: Books, s: set<nat>): set<nat> {
    set i: nat | i < |b.ready| && i < |b.claimed| && |Of(b.rows, s, i)| > 0
                 && b.ready[i] + b.claimed[i] == |Of(b.rows, s, i)|
  }

  function Expire(b: Books, before: int, limit: int): Books {
    var s := Limit(Overdue(b.rows, before), limit);
    b.(rows := Drop(b.rows, s),
       expired := Shift(b.expired, (i: nat) => |Of(b.rows, s, i)|),
       ready := Shift(b.ready, (i: nat) => -|Of(b.rows, s, i)|),
       total := b.total - |s|,
       backlogged := b.backlogged - |Drained(b, s)|)
  }

  // ---- Each operation keeps the ledger in agreement ----

  /** Every row of `s` goes from one state to another; nothing else changes that the counts see. */
  ghost predicate Moved(rows: Table, rows': Table, s: set<nat>, from: RowState, to: RowState) {
    && rows'.Keys == rows.Keys && s <= rows.Keys && from != to
    && (forall id | id in s :: rows[id].state == from)
    && (forall id | id in rows.Keys :: rows'[id].tenant == rows[id].tenant
          && rows'[id].state == if id in s then to else rows[id].state)
  }

  lemma MovedOut(rows: Table, rows': Table, s: set<nat>, from: RowState, to: RowState, i: nat)
    requires Moved(rows, rows', s, from, to)
    ensures |Ids(rows', i, from)| == |Ids(rows, i, from)| - |Of(rows, s, i)|
  {
    var m := Of(rows, s, i);
    assert m <= Ids(rows, i, from);
    assert Ids(rows', i, from) == Ids(rows, i, from) - m;
  }

  lemma MovedIn(rows: Table, rows': Table, s: set<nat>, from: RowState, to: RowState, i: nat)
    requires Moved(rows, rows', s, from, to)
    ensures |Ids(rows', i, to)| == |Ids(rows, i, to)| + |Of(rows, s, i)|
  {
    var m := Of(rows, s, i);
    assert Ids(rows, i, to) !! m;
    assert Ids(rows', i, to) == Ids(rows, i, to) + m;
  }

  lemma MovedAside(rows: Table, rows': Table, s: set<nat>, from: RowState, to: RowState, i: nat, st: RowState)
    requires Moved(rows, rows', s, from, to) && st != from && st != to
    ensures Ids(rows', i, st) == Ids(rows, i, st)
  {
  }

  lemma DropIds(rows: Table, s: set<nat>, from: RowState, i: nat)
    requires forall id: nat | id in s :: id in rows && rows[id].state == from
    ensures |Ids(Drop(rows, s), i, from)| == |Ids(rows, i, from)| - |Of(rows, s, i)|
    ensures forall st :: st != from ==> Ids(Drop(rows, s), i, st) == Ids(rows, i, st)
  {
    var m := Of(rows, s, i);
    assert Ids(Drop(rows, s), i, from) == Ids(rows, i, from) - m;
    assert m <= Ids(rows, i, from);
  }

  lemma OneTenant(rows: Table, s: set<nat>, i: nat)
    requires forall id: nat | id in s :: id in rows && rows[id].tenant == i
    ensures Of(rows, s, i) == s
    ensures forall j: nat | j != i :: Of(rows, s, j) == {}
  {
  }

  lemma AddWaiting(ready: seq<int>, claimed: seq<int>, ready': seq<int>, claimed': seq<int>, i: nat)
    requires |ready| == |claimed| == |ready'| == |claimed'| && i < |ready|
    requires forall j: nat | j < |ready| && j != i :: ready'[j] + claimed'[j] == ready[j] + claimed[j]
    ensures var w, w' := Waiting(ready, claimed), Waiting(ready', claimed');
            |w'| == |w| + (if ready[i] + claimed[i] <= 0 < ready'[i] + claimed'[i] then 1 else 0)
                        - (if ready'[i] + claimed'[i] <= 0 < ready[i] + claimed[i] then 1 else 0)
  {
    var w, w' := Waiting(ready, claimed), Waiting(ready', claimed');
    if i in w' && i !in w {
      assert w' == w + {i};
    } else if i in w && i !in w' {
      assert w' == w - {i};
    } else {
      assert w' == w;
    }
  }

  /** The caller fact Ack, Release and Dead rest on: the rows they touch are the tenant's own. */
  ghost predicate Owned(rows: Table, s: set<nat>, i: nat) {
    forall id | id in s :: id in rows && rows[id].tenant == i
  }

  lemma OwnedOf(rows: Table, s: set<nat>, i: nat, j: nat)
    requires Owned(rows, s, i)
    ensures Of(rows, s, j) == if j == i then s else {}
  {
  }

  /** A row of another tenant in `s` makes that tenant's share of `s` nonempty. */
  lemma NotOwned(rows: Table, s: set<nat>, i: nat) returns (j: nat)
    requires s <= rows.Keys && !Owned(rows, s, i)
    ensures j != i && |Of(rows, s, j)| > 0 && exists id :: id in s && rows[id].tenant == j
  {
    var id :| id in s && rows[id].tenant != i;
    j := rows[id].tenant;
    assert id in Of(rows, s, j);
  }

  lemma HitMoves(rows: Table, ids: seq<nat>, to: RowState)
    requires to != Claimed
    ensures Moved(rows, SetState(rows, Hit(rows, ids), to, 0), Hit(rows, ids), Claimed, to)
    ensures Moved(rows, Kill(rows, Hit(rows, ids)), Hit(rows, ids), Claimed, Dead)
  {
  }

  lemma LiveDrop(rows: Table, s: set<nat>)
    requires s <= Live(rows)
    ensures |Live(Drop(rows, s))| == |Live(rows)| - |s|
  {
    assert Live(Drop(rows, s)) == Live(rows) - s;
  }

  lemma LiveMoved(rows: Table, rows': Table, s: set<nat>, from: RowState, to: RowState)
    requires Moved(rows, rows', s, from, to) && !from.Dead?
    ensures |Live(rows')| == |Live(rows)| - (if to.Dead? then |s| else 0)
  {
    if to.Dead? {
      assert s <= Live(rows);
      assert Live(rows') == Live(rows) - s;
    } else {
      assert Live(rows') == Live(rows);
    }
  }

  lemma InsertAgrees(b: Books, i: nat, id: nat, env: Envelope, now: int)
    requires Agrees(b) && InRange(b, i)
    ensures Agrees(Insert(b, i, id, env, now))
  {
    if id !in b.rows {
      var c := Insert(b, i, id, env, now);
      forall j: nat | j < Tenants(c) ensures TenantAgrees(c, j) {
        assert TenantAgrees(b, j);
        InsertIds(b.rows, id, c.rows[id], j);
      }
      assert Live(c.rows) == Live(b.rows) + {id};
      assert TenantAgrees(b, i);
      AddWaiting(b.ready, b.claimed, c.ready, c.claimed, i);
    }
  }

  lemma InsertIdsAt(rows: Table, id: nat, row: Row, j: nat, st: RowState)
    requires id !in rows
    ensures |Ids(rows[id := row], j, st)| == |Ids(rows, j, st)| + (if j == row.tenant && st == row.state then 1 else 0)
  {
    if j == row.tenant && st == row.state {
      assert Ids(rows[id := row], j, st) == Ids(rows, j, st) + {id};
    } else {
      assert Ids(rows[id := row], j, st) == Ids(rows, j, st);
    }
  }

  lemma InsertIds(rows: Table, id: nat, row: Row, j: nat)
    requires id !in rows
    ensures forall st :: |Ids(rows[id := row], j, st)| == |Ids(rows, j, st)| + (if j == row.tenant && st == row.state then 1 else 0)
  {
    forall st ensures |Ids(rows[id := row], j, st)| == |Ids(rows, j, st)| + (if j == row.tenant && st == row.state then 1 else 0) {
      InsertIdsAt(rows, id, row, j, st);
    }
  }

  /** Counters adjusted by the rows that moved agree again, tenant by tenant. */
  lemma MovedTenant(b: Books, c: Books, s: set<nat>, from: RowState, to: RowState, j: nat)
    requires Shaped(b) && Shaped(c) && Tenants(c) == Tenants(b) && j < Tenants(b) && TenantAgrees(b, j)
    requires Moved(b.rows, c.rows, s, from, to)
    requires var k := |Of(b.rows, s, j)|;
             && c.ready[j] == b.ready[j] + Gain(Ready, from, to, k)
             && c.claimed[j] == b.claimed[j] + Gain(Claimed, from, to, k)
             && c.dead[j] == b.dead[j] + Gain(Dead, from, to, k)
             && c.accepted[j] == b.accepted[j] && c.delivered[j] == b.delivered[j] && c.expired[j] == b.expired[j]
    ensures TenantAgrees(c, j)
  {
    MovedOut(b.rows, c.rows, s, from, to, j);
    MovedIn(b.rows, c.rows, s, from, to, j);
    forall st | st != from && st != to ensures Ids(c.rows, j, st) == Ids(b.rows, j, st) {
      MovedAside(b.rows, c.rows, s, from, to, j, st);
    }
  }

  function Gain(st: RowState, from: RowState, to: RowState, k: int): int {
    (if st == to then k else 0) - (if st == from then k else 0)
  }

  lemma ClaimAgrees(b: Books, i: nat, n: int, until: int)
    requires Agrees(b) && InRange(b, i)
    ensures Agrees(Claim(b, i, n, until))
  {
    var c := Claim(b, i, n, until);
    var s := ClaimIds(b, i, n);
    assert Moved(b.rows, c.rows, s, Ready, Claimed);
    assert Owned(b.rows, s, i);
    forall j: nat | j < Tenants(c) ensures TenantAgrees(c, j) {
      OwnedOf(b.rows, s, i, j);
      MovedTenant(b, c, s, Ready, Claimed, j);
    }
    LiveMoved(b.rows, c.rows, s, Ready, Claimed);
    AddWaiting(b.ready, b.claimed, c.ready, c.claimed, i);
  }

  /** A claim keeps the books exactly when the ledger moves by the rows the UPDATE changed. */
  lemma ClaimCountedAgrees(b: Books, i: nat, n: int, until: int, moved: int)
    requires Agrees(b) && InRange(b, i)
    ensures Agrees(ClaimCounted(b, i, n, until, moved)) <==> moved == |ClaimIds(b, i, n)|
  {
    var c := ClaimCounted(b, i, n, until, moved);
    var s := ClaimIds(b, i, n);
    ClaimAgrees(b, i, n, until);
    if moved == |s| {
      assert c == Claim(b, i, n, until);
    } else {
      assert TenantAgrees(Claim(b, i, n, until), i);
      assert Agrees(c) ==> TenantAgrees(c, i);
    }
  }

  /** Release keeps the books exactly when every row it touches is the tenant's own. */
  lemma ReleaseAgrees(b: Books, i: nat, ids: seq<nat>)
    requires Agrees(b) && InRange(b, i)
    ensures Agrees(Release(b, i, ids)) <==> Owned(b.rows, Hit(b.rows, ids), i)
  {
    var c := Release(b, i, ids);
    var s := Hit(b.rows, ids);
    HitMoves(b.rows, ids, Ready);
    if Owned(b.rows, s, i) {
      forall j: nat | j < Tenants(c) ensures TenantAgrees(c, j) {
        OwnedOf(b.rows, s, i, j);
        MovedTenant(b, c, s, Claimed, Ready, j);
      }
      LiveMoved(b.rows, c.rows, s, Claimed, Ready);
      AddWaiting(b.ready, b.claimed, c.ready, c.claimed, i);
    } else {
      var j := NotOwned(b.rows, s, i);
      assert TenantAgrees(b, j);
      MovedOut(b.rows, c.rows, s, Claimed, Ready, j);
      assert Agrees(c) ==> TenantAgrees(c, j);
    }
  }

  lemma AckTenant(b: Books, i: nat, ids: seq<nat>, j: nat)
    requires Agrees(b) && InRange(b, i) && j < Tenants(b) && Owned(b.rows, Hit(b.rows, ids), i)
    ensures TenantAgrees(Ack(b, i, ids), j)
  {
    var s := Hit(b.rows, ids);
    assert TenantAgrees(b, j);
    OwnedOf(b.rows, s, i, j);
    DropIds(b.rows, s, Claimed, j);
  }

  /** Ack keeps the books exactly when every row it deletes is the tenant's own. */
  lemma AckAgrees(b: Books, i: nat, ids: seq<nat>)
    requires Agrees(b) && InRange(b, i)
    ensures Agrees(Ack(b, i, ids)) <==> Owned(b.rows, Hit(b.rows, ids), i)
  {
    var c := Ack(b, i, ids);
    var s := Hit(b.rows, ids);
    if Owned(b.rows, s, i) {
      forall j: nat | j < Tenants(c) ensures TenantAgrees(c, j) { AckTenant(b, i, ids, j); }
      LiveDrop(b.rows, s);
      assert TenantAgrees(c, i);
      AddWaiting(b.ready, b.claimed, c.ready, c.claimed, i);
    } else {
      var j := NotOwned(b.rows, s, i);
      assert TenantAgrees(b, j);
      DropIds(b.rows, s, Claimed, j);
      assert Agrees(c) ==> TenantAgrees(c, j);
    }
  }

  /** A dead letter keeps the books exactly when the row, if still claimed, is the tenant's own. */
  lemma DeadAgrees(b: Books, i: nat, id: nat)
    requires Agrees(b) && InRange(b, i)
    ensures Agrees(DeadLetter(b, i, id)) <==> Owned(b.rows, Hit(b.rows, [id]), i)
  {
    var c := DeadLetter(b, i, id);
    var s := Hit(b.rows, [id]);
    HitMoves(b.rows, [id], Ready);
    if Owned(b.rows, s, i) {
      forall j: nat | j < Tenants(c) ensures TenantAgrees(c, j) {
        assert TenantAgrees(b, j);
        OwnedOf(b.rows, s, i, j);
        MovedTenant(b, c, s, Claimed, Dead, j);
      }
      LiveMoved(b.rows, c.rows, s, Claimed, Dead);
      assert TenantAgrees(c, i);
      AddWaiting(b.ready, b.claimed, c.ready, c.claimed, i);
    } else {
      var j := NotOwned(b.rows, s, i);
      assert TenantAgrees(b, j);
      MovedOut(b.rows, c.rows, s, Claimed, Dead, j);
      assert Agrees(c) ==> TenantAgrees(c, j);
    }
  }

  lemma ReclaimAgrees(b: Books, now: int)
    requires Agrees(b)
    ensures Agrees(Reclaim(b, now))
  {
    var c := Reclaim(b, now);
    var s := TimedOut(b.rows, now);
    assert Moved(b.rows, c.rows, s, Claimed, Ready);
    forall j: nat | j < Tenants(c) ensures TenantAgrees(c, j) {
      assert TenantAgrees(b, j);
      MovedTenant(b, c, s, Claimed, Ready, j);
    }
    LiveMoved(b.rows, c.rows, s, Claimed, Ready);
    assert Waiting(c.ready, c.claimed) == Waiting(b.ready, b.claimed);
  }

  lemma ExpireTenant(b: Books, before: int, limit: int, j: nat)
    requires Agrees(b) && j < Tenants(b)
    ensures TenantAgrees(Expire(b, before, limit), j)
  {
    var s := Limit(Overdue(b.rows, before), limit);
    assert TenantAgrees(b, j);
    DropIds(b.rows, s, Ready, j);
  }

  lemma ExpireWaiting(b: Books, before: int, limit: int)
    requires Agrees(b)
    ensures var c := Expire(b, before, limit);
            c.backlogged == |Waiting(c.ready, c.claimed)|
  {
    var c := Expire(b, before, limit);
    var s := Limit(Overdue(b.rows, before), limit);
    var d := Drained(b, s);
    forall j: nat | j < Tenants(b) ensures c.ready[j] + c.claimed[j] >= 0 {
      ExpireTenant(b, before, limit, j);
    }
    assert d <= Waiting(b.ready, b.claimed);
    assert Waiting(c.ready, c.claimed) == Waiting(b.ready, b.claimed) - d;
  }

  /** Expire's count-then-delete: the group counts are exactly the rows deleted, the limit included. */
  lemma ExpireAgrees(b: Books, before: int, limit: int)
    requires Agrees(b)
    ensures Agrees(Expire(b, before, limit))
  {
    var c := Expire(b, before, limit);
    var s := Limit(Overdue(b.rows, before), limit);
    forall j: nat | j < Tenants(c) ensures TenantAgrees(c, j) { ExpireTenant(b, before, limit, j); }
    assert s <= Live(b.rows);
    LiveDrop(b.rows, s);
    ExpireWaiting(b, before, limit);
  }
}
