/**
 End to end in one system: the tenants' lease protocols, the queue with its workers and sweeps, ingest and delivery, in
 any interleaving. Every delivered plaintext is the payload ingested under that id and tenant, every dead letter was
 refused by the sink, and no row is lost. Tenants are kept in async or sync fetch.

 A worker's DecryptKey, Open and delivery are separate moments: it opens under any handle of the tenant it was ever given
 on the message's DEK.
 */
module Delivery {
  import opened Prelude
  import opened Envelope
  import opened KeyState
  import opened Protocol
  import E = EndToEnd
  import C = Conservation
  import L = Ledger
  import W = Workers
  import A = Sections
  import R = References

  datatype Delivered = Delivered(tenant: nat, id: nat, plaintext: Bytes)

  /** `log`: what was ingested under each id; `refused`: the ids whose delivery the sink refused. */
  datatype World = World(tenants: map<nat, Sys>, q: C.Sys, log: map<nat, E.Message>, out: seq<Delivered>, refused: set<nat>)

  datatype Act =
    | Key(i: nat, e: Event)
    | Ingest(i: nat, id: nat, h: Handle, at: int, payload: Bytes, now: int)
    | Queue(q: C.Event)
    | NoHandle(w: nat, at: int)
    | Work(w: nat, h: Handle, at: int, sink: W.SinkAnswer)

  /** A worker with a message in hand, of a tenant and an id the world knows. */
  predicate InHand(u: World, w: nat) {
    && C.Busy(u.q, w) && u.q.workers[w].idx in u.tenants && u.q.workers[w].rest[0] in u.log
    && u.q.workers[w].idx < L.Tenants(u.q.b) && u.q.workers[w].idx < |u.q.sink|
  }

  predicate May(cfg: Config, u: World, a: Act) {
    match a
    case Key(i, e) => i in u.tenants && E.KeepsCache(e) && Enabled(cfg, u.tenants[i], e)
    case Ingest(i, id, h, _, _, _) =>
      i in u.tenants && i < L.Tenants(u.q.b) && h in u.tenants[i].handles && id !in u.q.used && IsInt64(id)
    case Queue(e) => C.Enabled(u.q, e) && (e.ClaimRows? || e.Finish? || e.ReclaimRows? || e.ExpireRows?)
    case NoHandle(w, at) => InHand(u, w) && !HeadStep(cfg, u, w, at).OpenNow?
    case Work(w, h, _, _) => InHand(u, w) && h in u.tenants[u.q.workers[w].idx].handles && h.dek == HeadOf(u, w).env.dek
  }

  function HeadOf(u: World, w: nat): E.Message
    requires InHand(u, w)
  {
    u.log[u.q.workers[w].rest[0]]
  }

  /** What DecryptKey says of the message in hand. */
  function HeadStep(cfg: Config, u: World, w: nat, at: int): OpenStep
    requires InHand(u, w)
  {
    DecryptStep(cfg, u.tenants[u.q.workers[w].idx].t, HeadOf(u, w).env.dek, at)
  }

  /** What Open makes of it. */
  function HeadOpen(u: World, w: nat, h: Handle, at: int): Result<Bytes>
    requires InHand(u, w)
  {
    var k := u.q.workers[w];
    Open(h, at, u.tenants[k.idx].name, k.rest[0], HeadOf(u, w).env)
  }

  /** The worker's branch on the three answers. */
  function Treat(u: World, w: nat, fate: W.Fate): World
    requires L.Shaped(u.q.b) && InHand(u, w)
  {
    match fate
    case Deliver => u.(q := C.Next(u.q, C.DeliverHead(w)))
    case Die => u.(q := C.Next(u.q, C.KillHead(w)))
    case Stop => u.(q := C.Next(u.q, C.ReleaseRest(w)))
  }

  function DoIngest(u: World, i: nat, id: nat, h: Handle, at: int, payload: Bytes, now: int): World
    requires L.Shaped(u.q.b) && i in u.tenants && i < L.Tenants(u.q.b) && id !in u.q.used
  {
    match Seal(h, at, u.tenants[i].name, id, payload)
    case Ok(env) => u.(q := C.Next(u.q, C.InsertRow(i, id, env, now)), log := u.log[id := E.Message(i, payload, env)])
    case Err(_) => u
  }

  function DoWork(u: World, w: nat, h: Handle, at: int, sink: W.SinkAnswer): World
    requires L.Shaped(u.q.b) && InHand(u, w)
  {
    var k, r := u.q.workers[w], HeadOpen(u, w, h, at);
    var fate := W.FateOf(W.Answer(W.Usable, E.OpenAnswer(r), sink));
    Treat(u, w, fate).(out := if fate.Deliver? && r.Ok? then u.out + [Delivered(k.idx, k.rest[0], r.value)] else u.out,
                       refused := if r.Ok? && sink.Refused? then u.refused + {k.rest[0]} else u.refused)
  }

  function Do(cfg: Config, u: World, a: Act): World
    requires L.Shaped(u.q.b) && May(cfg, u, a)
  {
    match a
    case Key(i, e) => u.(tenants := u.tenants[i := Next(cfg, u.tenants[i], e)])
    case Ingest(i, id, h, at, payload, now) => DoIngest(u, i, id, h, at, payload, now)
    case Queue(e) => u.(q := C.Next(u.q, e))
    case NoHandle(w, at) => Treat(u, w, W.FateOf(W.Answer(E.KeyAnswer(HeadStep(cfg, u, w, at)), W.Opened, W.Took)))
    case Work(w, h, at, sink) => DoWork(u, w, h, at, sink)
  }

  // ---- The invariant ----

  ghost predicate TenantsOk(u: World) { E.WorldOk(E.World(u.tenants, u.log)) }

  predicate KnowsRow(log: map<nat, E.Message>, id: nat, row: L.Row) {
    id in log && row.tenant == log[id].tenant && row.env == log[id].env
  }

  predicate KnowsBatch(log: map<nat, E.Message>, k: C.Worker) {
    forall id | id in k.rest :: id in log && log[id].tenant == k.idx
  }

  predicate Faithful(log: map<nat, E.Message>, d: Delivered) {
    d.id in log && d == Delivered(log[d.id].tenant, d.id, log[d.id].payload)
  }

  ghost predicate QueueOk(u: World) {
    && C.Inv(u.q) && u.q.used == u.log.Keys
    && (forall id | id in u.q.b.rows :: KnowsRow(u.log, id, u.q.b.rows[id]))
    && (forall w | w in u.q.workers :: KnowsBatch(u.log, u.q.workers[w]))
  }

  ghost predicate OutOk(u: World) {
    && (forall k | 0 <= k < |u.out| :: Faithful(u.log, u.out[k]))
    && (forall id | id in u.q.b.rows && u.q.b.rows[id].state.Dead? :: id in u.refused)
  }

  ghost predicate AllOk(u: World) { TenantsOk(u) && QueueOk(u) && OutOk(u) }

  // ---- What the queue's steps do to rows and batches ----

  predicate RowFrom(s: C.Sys, e: C.Event, id: nat, row: L.Row) {
    || (e.InsertRow? && id == e.id && row.tenant == e.i && row.env == e.env && row.state.Ready?)
    || (id in s.b.rows && row.tenant == s.b.rows[id].tenant && row.env == s.b.rows[id].env
        && (row.state.Dead? ==> s.b.rows[id].state.Dead? || (e.KillHead? && C.Busy(s, e.w) && id == s.workers[e.w].rest[0])))
  }

  lemma RowsFrom(s: C.Sys, e: C.Event, id: nat)
    requires C.Inv(s) && C.Enabled(s, e) && id in C.Next(s, e).b.rows
    ensures RowFrom(s, e, id, C.Next(s, e).b.rows[id])
  {
    match e
    case InsertRow(i, _, _, _) =>
    case ClaimRows(_, _, _, _, _) =>
    case KillHead(w) => KillsHead(s, w, id);
    case _ =>
  }

  lemma KillsHead(s: C.Sys, w: nat, id: nat)
    requires C.Inv(s) && C.Enabled(s, C.KillHead(w)) && id in C.Next(s, C.KillHead(w)).b.rows
    ensures RowFrom(s, C.KillHead(w), id, C.Next(s, C.KillHead(w)).b.rows[id])
  {
    assert id in L.Hit(s.b.rows, [s.workers[w].rest[0]]) ==> id == s.workers[w].rest[0];
  }

  predicate BatchFrom(s: C.Sys, e: C.Event, v: nat, k: C.Worker) {
    || (v in s.workers && k.idx == s.workers[v].idx && forall id | id in k.rest :: id in s.workers[v].rest)
    || (e.ClaimRows? && k.idx == e.i && forall id | id in k.rest :: id in s.b.rows && s.b.rows[id].tenant == e.i)
  }

  lemma TailIn(xs: seq<nat>)
    requires xs != []
    ensures forall x | x in xs[1..] :: x in xs
  {
  }

  lemma BatchesFrom(s: C.Sys, e: C.Event, v: nat)
    requires C.Inv(s) && C.Enabled(s, e) && v in C.Next(s, e).workers
    ensures BatchFrom(s, e, v, C.Next(s, e).workers[v])
  {
    match e
    case ClaimRows(w, i, n, _, order) =>
      if v == w {
        forall id | id in order ensures id in s.b.rows && s.b.rows[id].tenant == i { assert id in Members(order); }
      }
    case DeliverHead(w) => if v == w { TailIn(s.workers[w].rest); }
    case KillHead(w) => if v == w { TailIn(s.workers[w].rest); }
    case _ =>
  }

  /** The queue's part of the invariant through any of its steps, `log` following the inserts. */
  lemma QueueStep(u: World, e: C.Event, log: map<nat, E.Message>)
    requires QueueOk(u) && C.Enabled(u.q, e)
    requires forall id | id in u.log :: id in log && log[id] == u.log[id]
    requires log.Keys == C.Next(u.q, e).used
    requires e.InsertRow? ==> e.id in log && log[e.id].tenant == e.i && log[e.id].env == e.env
    ensures QueueOk(u.(q := C.Next(u.q, e), log := log))
  {
    var t := C.Next(u.q, e);
    C.StepKeeps(u.q, e);
    forall id | id in t.b.rows ensures KnowsRow(log, id, t.b.rows[id]) {
      RowsFrom(u.q, e, id);
      if id in u.q.b.rows { assert KnowsRow(u.log, id, u.q.b.rows[id]); }
    }
    forall v | v in t.workers ensures KnowsBatch(log, t.workers[v]) {
      BatchesFrom(u.q, e, v);
      BatchKnown(u, e, v, t.workers[v], log);
    }
  }

  lemma BatchKnown(u: World, e: C.Event, v: nat, k: C.Worker, log: map<nat, E.Message>)
    requires QueueOk(u) && BatchFrom(u.q, e, v, k)
    requires forall id | id in u.log :: id in log && log[id] == u.log[id]
    ensures KnowsBatch(log, k)
  {
    if v in u.q.workers { assert KnowsBatch(u.log, u.q.workers[v]); }
    forall id | id in k.rest ensures id in log && log[id].tenant == k.idx {
      if id in u.q.b.rows { assert KnowsRow(u.log, id, u.q.b.rows[id]); }
    }
  }

  /** No step but a kill makes a dead row, and a kill only its head. */
  lemma DeadStep(u: World, e: C.Event, refused: set<nat>)
    requires QueueOk(u) && OutOk(u) && C.Enabled(u.q, e) && u.refused <= refused
    requires e.KillHead? ==> u.q.workers[e.w].rest[0] in refused
    ensures forall id | id in C.Next(u.q, e).b.rows && C.Next(u.q, e).b.rows[id].state.Dead? :: id in refused
  {
    var t := C.Next(u.q, e);
    forall id | id in t.b.rows && t.b.rows[id].state.Dead? ensures id in refused { RowsFrom(u.q, e, id); }
  }

  // ---- The world's steps ----

  lemma KeyOk(cfg: Config, u: World, i: nat, e: Event)
    requires AllOk(u) && May(cfg, u, Key(i, e))
    ensures AllOk(Do(cfg, u, Key(i, e)))
  {
    E.DoOk(cfg, E.World(u.tenants, u.log), E.Lease(i, e));
  }

  lemma InsertOk(u: World, i: nat, id: nat, m: E.Message, now: int)
    requires QueueOk(u) && OutOk(u) && i < L.Tenants(u.q.b) && id !in u.q.used && m.tenant == i
    ensures var v := u.(q := C.Next(u.q, C.InsertRow(i, id, m.env, now)), log := u.log[id := m]);
            QueueOk(v) && OutOk(v)
  {
    var e, log := C.InsertRow(i, id, m.env, now), u.log[id := m];
    QueueStep(u, e, log);
    DeadStep(u, e, u.refused);
    forall k | 0 <= k < |u.out| ensures Faithful(log, u.out[k]) { assert Faithful(u.log, u.out[k]); }
  }

  lemma LoggedOk(cfg: Config, u: World, i: nat, id: nat, h: Handle, at: int, payload: Bytes)
    requires TenantsOk(u) && i in u.tenants && h in u.tenants[i].handles && id !in u.log && IsInt64(id)
    ensures var r := Seal(h, at, u.tenants[i].name, id, payload);
            r.Ok? ==> TenantsOk(u.(log := u.log[id := E.Message(i, payload, r.value)]))
  {
    E.DoOk(cfg, E.World(u.tenants, u.log), E.Ingest(i, id, h, at, payload));
  }

  lemma IngestOk(cfg: Config, u: World, i: nat, id: nat, h: Handle, at: int, payload: Bytes, now: int)
    requires AllOk(u) && i in u.tenants && i < L.Tenants(u.q.b) && h in u.tenants[i].handles && id !in u.q.used && IsInt64(id)
    ensures AllOk(DoIngest(u, i, id, h, at, payload, now))
  {
    LoggedOk(cfg, u, i, id, h, at, payload);
    var r := Seal(h, at, u.tenants[i].name, id, payload);
    if r.Ok? { InsertOk(u, i, id, E.Message(i, payload, r.value), now); }
  }

  /** Any step of the queue that inserts nothing, with what it adds to the evidence. */
  lemma QueueOnlyOk(u: World, e: C.Event, out: seq<Delivered>, refused: set<nat>)
    requires AllOk(u) && C.Enabled(u.q, e) && !e.InsertRow? && u.refused <= refused
    requires e.KillHead? ==> u.q.workers[e.w].rest[0] in refused
    requires forall k | 0 <= k < |out| :: Faithful(u.log, out[k])
    ensures AllOk(u.(q := C.Next(u.q, e), out := out, refused := refused))
  {
    SameUsed(u.q, e);
    QueueStep(u, e, u.log);
    DeadStep(u, e, refused);
  }

  lemma SameUsed(s: C.Sys, e: C.Event)
    requires L.Shaped(s.b) && C.Enabled(s, e) && !e.InsertRow?
    ensures C.Next(s, e).used == s.used
  {
  }

  /** The message in hand is its tenant's, and opens to what was ingested. */
  lemma HeadOpens(cfg: Config, u: World, w: nat)
    requires AllOk(u) && InHand(u, w)
    ensures var k := u.q.workers[w];
            HeadOf(u, w).tenant == k.idx && E.Opens(cfg, u.tenants[k.idx], k.rest[0], HeadOf(u, w))
  {
    var k := u.q.workers[w];
    assert KnowsBatch(u.log, k) && k.rest[0] in k.rest;
    E.RowOpens(cfg, u.tenants[k.idx], k.rest[0], HeadOf(u, w));
  }

  lemma HeadEnabled(u: World, w: nat)
    requires InHand(u, w)
    ensures C.Enabled(u.q, C.DeliverHead(w)) && C.Enabled(u.q, C.KillHead(w)) && C.Enabled(u.q, C.ReleaseRest(w))
  {
  }

  lemma NoHandleOk(cfg: Config, u: World, w: nat, at: int)
    requires AllOk(u) && May(cfg, u, NoHandle(w, at))
    ensures AllOk(Do(cfg, u, NoHandle(w, at)))
  {
    HeadNotPoison(cfg, u, w, at);
    StopsWithout(HeadStep(cfg, u, w, at));
    StoppedOk(u, w);
  }

  lemma HeadNotPoison(cfg: Config, u: World, w: nat, at: int)
    requires AllOk(u) && InHand(u, w)
    ensures !HeadStep(cfg, u, w, at).OpenPoison?
  {
    HeadOpens(cfg, u, w);
  }

  lemma StoppedOk(u: World, w: nat)
    requires AllOk(u) && InHand(u, w)
    ensures AllOk(Treat(u, w, W.Stop))
  {
    HeadEnabled(u, w);
    QueueOnlyOk(u, C.ReleaseRest(w), u.out, u.refused);
    StopIs(u, w);
  }

  lemma StopIs(u: World, w: nat)
    requires L.Shaped(u.q.b) && InHand(u, w)
    ensures Treat(u, w, W.Stop) == u.(q := C.Next(u.q, C.ReleaseRest(w)), out := u.out, refused := u.refused)
  {
  }

  lemma StopsWithout(o: OpenStep)
    requires !o.OpenNow? && !o.OpenPoison?
    ensures W.FateOf(W.Answer(E.KeyAnswer(o), W.Opened, W.Took)) == W.Stop
  {
  }

  lemma FateOfOpen(r: Result<Bytes>, sink: W.SinkAnswer)
    requires r.Ok? || r == Err(LeaseExpired)
    ensures var fate := W.FateOf(W.Answer(W.Usable, E.OpenAnswer(r), sink));
            (fate.Die? <==> r.Ok? && sink.Refused?) && (fate.Deliver? <==> r.Ok? && sink.Took?)
  {
  }

  /** Under a handle on its DEK the message opens to its payload, or the lease is over. */
  lemma HeadOpenIs(cfg: Config, u: World, w: nat, h: Handle, at: int)
    requires AllOk(u) && InHand(u, w) && h in u.tenants[u.q.workers[w].idx].handles && h.dek == HeadOf(u, w).env.dek
    ensures HeadOpen(u, w, h, at) == if at < h.validUntil then Ok(HeadOf(u, w).payload) else Err(LeaseExpired)
    ensures HeadOf(u, w).tenant == u.q.workers[w].idx
  {
    HeadOpens(cfg, u, w);
  }

  lemma TreatOk(u: World, w: nat, fate: W.Fate, out: seq<Delivered>, refused: set<nat>)
    requires AllOk(u) && InHand(u, w) && u.refused <= refused && (fate.Die? ==> u.q.workers[w].rest[0] in refused)
    requires forall k | 0 <= k < |out| :: Faithful(u.log, out[k])
    ensures AllOk(Treat(u, w, fate).(out := out, refused := refused))
  {
    HeadEnabled(u, w);
    match fate
    case Deliver => QueueOnlyOk(u, C.DeliverHead(w), out, refused);
    case Die => QueueOnlyOk(u, C.KillHead(w), out, refused);
    case Stop => QueueOnlyOk(u, C.ReleaseRest(w), out, refused);
  }

  lemma OneMoreFaithful(u: World, w: nat, pt: Bytes)
    requires AllOk(u) && InHand(u, w) && pt == HeadOf(u, w).payload && HeadOf(u, w).tenant == u.q.workers[w].idx
    ensures var out := u.out + [Delivered(u.q.workers[w].idx, u.q.workers[w].rest[0], pt)];
            forall k | 0 <= k < |out| :: Faithful(u.log, out[k])
  {
    HeadKnown(u, w);
    MoreFaithful(u.log, u.out, Delivered(u.q.workers[w].idx, u.q.workers[w].rest[0], pt));
  }

  lemma MoreFaithful(log: map<nat, E.Message>, out: seq<Delivered>, d: Delivered)
    requires Faithful(log, d) && forall k | 0 <= k < |out| :: Faithful(log, out[k])
    ensures forall k | 0 <= k < |out + [d]| :: Faithful(log, (out + [d])[k])
  {
  }

  lemma HeadKnown(u: World, w: nat)
    requires AllOk(u) && InHand(u, w)
    ensures u.q.workers[w].rest[0] in u.log && u.log[u.q.workers[w].rest[0]] == HeadOf(u, w)
    ensures forall k | 0 <= k < |u.out| :: Faithful(u.log, u.out[k])
  {
  }

  lemma WorkOk(cfg: Config, u: World, w: nat, h: Handle, at: int, sink: W.SinkAnswer)
    requires AllOk(u) && InHand(u, w) && h in u.tenants[u.q.workers[w].idx].handles && h.dek == HeadOf(u, w).env.dek
    ensures AllOk(DoWork(u, w, h, at, sink))
  {
    var r, v := HeadOpen(u, w, h, at), DoWork(u, w, h, at, sink);
    HeadOpenIs(cfg, u, w, h, at);
    FateOfOpen(r, sink);
    if r.Ok? { OneMoreFaithful(u, w, r.value); }
    TreatOk(u, w, W.FateOf(W.Answer(W.Usable, E.OpenAnswer(r), sink)), v.out, v.refused);
  }

  lemma DoOk(cfg: Config, u: World, a: Act)
    requires AllOk(u) && May(cfg, u, a)
    ensures AllOk(Do(cfg, u, a))
  {
    match a
    case Key(i, e) => KeyOk(cfg, u, i, e);
    case Ingest(i, id, h, at, payload, now) => IngestOk(cfg, u, i, id, h, at, payload, now);
    case Queue(e) => QueueOnlyOk(u, e, u.out, u.refused);
    case NoHandle(w, at) => NoHandleOk(cfg, u, w, at);
    case Work(w, h, at, sink) => WorkOk(cfg, u, w, h, at, sink);
  }

  // ---- Over every run ----

  ghost predicate Acts(cfg: Config, u: World, xs: seq<Act>)
    requires L.Shaped(u.q.b)
    decreases |xs|
  {
    xs != [] ==> May(cfg, u, xs[0]) && L.Shaped(Do(cfg, u, xs[0]).q.b) && Acts(cfg, Do(cfg, u, xs[0]), xs[1..])
  }

  function After(cfg: Config, u: World, xs: seq<Act>): World
    requires L.Shaped(u.q.b) && Acts(cfg, u, xs)
    decreases |xs|
  {
    if xs == [] then u else After(cfg, Do(cfg, u, xs[0]), xs[1..])
  }

  lemma {:induction false} AfterOk(cfg: Config, u: World, xs: seq<Act>)
    requires AllOk(u) && Acts(cfg, u, xs)
    ensures AllOk(After(cfg, u, xs)) && L.Tenants(After(cfg, u, xs).q.b) == L.Tenants(u.q.b)
    decreases |xs|
  {
    if xs != [] {
      DoOk(cfg, u, xs[0]);
      SameTenants(cfg, u, xs[0]);
      AfterOk(cfg, Do(cfg, u, xs[0]), xs[1..]);
    }
  }

  lemma StepTenants(s: C.Sys, e: C.Event)
    requires C.Inv(s) && C.Enabled(s, e)
    ensures L.Tenants(C.Next(s, e).b) == L.Tenants(s.b)
  {
    C.StepRows(s, e);
  }

  lemma TreatTenants(u: World, w: nat, fate: W.Fate)
    requires C.Inv(u.q) && InHand(u, w)
    ensures L.Tenants(Treat(u, w, fate).q.b) == L.Tenants(u.q.b)
  {
    HeadEnabled(u, w);
    match fate
    case Deliver => StepTenants(u.q, C.DeliverHead(w));
    case Die => StepTenants(u.q, C.KillHead(w));
    case Stop => StepTenants(u.q, C.ReleaseRest(w));
  }

  lemma IngestTenants(u: World, i: nat, id: nat, h: Handle, at: int, payload: Bytes, now: int)
    requires C.Inv(u.q) && i in u.tenants && i < L.Tenants(u.q.b) && id !in u.q.used
    ensures L.Tenants(DoIngest(u, i, id, h, at, payload, now).q.b) == L.Tenants(u.q.b)
  {
    var r := Seal(h, at, u.tenants[i].name, id, payload);
    if r.Ok? { StepTenants(u.q, C.InsertRow(i, id, r.value, now)); }
  }

  lemma SameTenants(cfg: Config, u: World, a: Act)
    requires AllOk(u) && May(cfg, u, a)
    ensures L.Tenants(Do(cfg, u, a).q.b) == L.Tenants(u.q.b)
  {
    match a
    case Key(_, _) =>
    case Ingest(i, id, h, at, payload, now) => IngestTenants(u, i, id, h, at, payload, now);
    case Queue(e) => StepTenants(u.q, e);
    case NoHandle(w, at) => TreatTenants(u, w, W.FateOf(W.Answer(E.KeyAnswer(HeadStep(cfg, u, w, at)), W.Opened, W.Took)));
    case Work(w, h, at, sink) => TreatTenants(u, w, W.FateOf(W.Answer(W.Usable, E.OpenAnswer(HeadOpen(u, w, h, at)), sink)));
  }

  /** Fresh tenants in async or sync fetch over an empty queue. */
  ghost predicate Opening(u: World, n: nat) {
    E.Fresh(E.World(u.tenants, map[])) && u.log == map[] && u.q == C.Empty(n) && u.out == [] && u.refused == {}
  }

  lemma OpeningOk(u: World, n: nat)
    requires Opening(u, n)
    ensures AllOk(u)
  {
    E.FreshOk(E.World(u.tenants, map[]));
    C.EmptyStrong(n);
  }

  ghost predicate Reached(cfg: Config, u: World, n: nat) {
    exists u0, xs :: Opening(u0, n) && Acts(cfg, u0, xs) && After(cfg, u0, xs) == u
  }

  /**
   The whole promise, in every reachable world: each delivery carries the payload ingested under its tenant and id; each
   dead letter was refused by the sink; the ledger is the table; and every accepted row is delivered, stored, expired
   or dead.
   */
  lemma EndToEndDelivery(cfg: Config, u: World, n: nat, i: nat)
    requires Reached(cfg, u, n) && i < n
    ensures forall k | 0 <= k < |u.out| :: Faithful(u.log, u.out[k])
    ensures forall id | id in u.q.b.rows && u.q.b.rows[id].state.Dead? :: id in u.refused
    ensures L.Agrees(u.q.b) && L.Tenants(u.q.b) == n
    ensures var b := u.q.b;
            b.accepted[i] == b.delivered[i] + b.expired[i]
              + |L.Ids(b.rows, i, L.Ready)| + |L.Ids(b.rows, i, L.Claimed)| + |L.Ids(b.rows, i, L.Dead)|
  {
    var u0, xs :| Opening(u0, n) && Acts(cfg, u0, xs) && After(cfg, u0, xs) == u;
    OpeningOk(u0, n);
    AfterOk(cfg, u0, xs);
    assert L.TenantAgrees(u.q.b, i);
  }

  // ---- And it is delivered ----

  /** The cache holds the DEK of the message in hand, the tenant serves, and the lease lasts until `openAt`. */
  predicate Openable(cfg: Config, u: World, w: nat, at: int, openAt: int)
    requires InHand(u, w)
  {
    var s := u.tenants[u.q.workers[w].idx];
    Reading(s, at) && A.GivesOpen(cfg, s.t, HeadOf(u, w).env.dek, at) && openAt < s.t.sentAt + cfg.ttl - cfg.early
  }

  /** DecryptKey for the message in hand. */
  function AskKey(u: World, w: nat, at: int): Act
    requires InHand(u, w)
  {
    Key(u.q.workers[w].idx, DecryptEv(at, HeadOf(u, w).env.dek))
  }

  /** The handle on its DEK. */
  function HandKey(cfg: Config, u: World, w: nat): Handle
    requires InHand(u, w) && HeadOf(u, w).env.dek in u.tenants[u.q.workers[w].idx].t.deks
  {
    A.HandleFor(cfg, u.tenants[u.q.workers[w].idx].t, HeadOf(u, w).env.dek)
  }

  /** The tenant has handed out one more. */
  function Given(u: World, w: nat, h: Handle): World
    requires InHand(u, w)
  {
    var i := u.q.workers[w].idx;
    u.(tenants := u.tenants[i := u.tenants[i].(handles := u.tenants[i].handles + {h})])
  }

  /** DecryptKey's answer to the worker. */
  lemma HandGetsHandle(cfg: Config, u: World, w: nat, at: int, openAt: int)
    requires AllOk(u) && InHand(u, w) && Openable(cfg, u, w, at, openAt)
    ensures var h := HandKey(cfg, u, w);
            && May(cfg, u, AskKey(u, w, at))
            && Do(cfg, u, AskKey(u, w, at)) == Given(u, w, h)
            && h.dek == HeadOf(u, w).env.dek && openAt < h.validUntil
  {
    var s, dek := u.tenants[u.q.workers[w].idx], HeadOf(u, w).env.dek;
    assert E.TenantOk(s);
    PlacedHandle(cfg, s, at, dek);
  }

  lemma HandReady(cfg: Config, u: World, w: nat, at: int, openAt: int)
    requires AllOk(u) && InHand(u, w) && Openable(cfg, u, w, at, openAt)
    ensures May(cfg, u, AskKey(u, w, at))
    ensures var v, h := Do(cfg, u, AskKey(u, w, at)), HandKey(cfg, u, w);
            && AllOk(v) && v.q == u.q && v.out == u.out && v.refused == u.refused && v.log == u.log
            && May(cfg, v, Work(w, h, openAt, W.Took)) && HeadOf(v, w) == HeadOf(u, w) && openAt < h.validUntil
  {
    HandGetsHandle(cfg, u, w, at, openAt);
    DoOk(cfg, u, AskKey(u, w, at));
    MoreHandles(cfg, u, w, HandKey(cfg, u, w), openAt);
  }

  lemma MoreHandles(cfg: Config, u: World, w: nat, h: Handle, openAt: int)
    requires InHand(u, w) && h.dek == HeadOf(u, w).env.dek
    ensures InHand(Given(u, w, h), w) && HeadOf(Given(u, w, h), w) == HeadOf(u, w)
    ensures May(cfg, Given(u, w, h), Work(w, h, openAt, W.Took))
  {
  }

  lemma PlacedHandle(cfg: Config, s: Sys, at: int, dek: DekId)
    requires Reading(s, at) && A.GivesOpen(cfg, s.t, dek, at) && R.KeyedTenant(s.h.minted, s.t, s.stored)
    ensures Enabled(cfg, s, DecryptEv(at, dek))
    ensures Next(cfg, s, DecryptEv(at, dek)) == s.(handles := s.handles + {A.HandleFor(cfg, s.t, dek)})
  {
    A.OpenGives(cfg, s, at, dek);
  }

  /** The world once the sink took the head of the worker's batch. */
  predicate WentOut(u: World, v: World, w: nat, payload: Bytes)
    requires w in u.q.workers && u.q.workers[w].rest != [] && u.q.workers[w].idx < |u.q.sink|
  {
    var k := u.q.workers[w];
    && v.out == u.out + [Delivered(k.idx, k.rest[0], payload)]
    && v.refused == u.refused && v.q.b == u.q.b && v.q.sink == u.q.sink[k.idx := u.q.sink[k.idx] + 1]
    && v.q.workers == u.q.workers[w := C.Worker(k.idx, k.rest[1..], k.acked + [k.rest[0]])]
  }

  lemma WorkTook(u: World, w: nat, h: Handle, openAt: int, payload: Bytes)
    requires L.Shaped(u.q.b) && InHand(u, w) && HeadOpen(u, w, h, openAt) == Ok(payload)
    ensures WentOut(u, DoWork(u, w, h, openAt, W.Took), w, payload)
  {
    var r := HeadOpen(u, w, h, openAt);
    assert W.FateOf(W.Answer(W.Usable, E.OpenAnswer(r), W.Took)) == W.Deliver;
    HeadGone(u, w);
  }

  lemma HeadGone(u: World, w: nat)
    requires L.Shaped(u.q.b) && InHand(u, w)
    ensures var v, k := Treat(u, w, W.Deliver), u.q.workers[w];
            && v.q.b == u.q.b && v.q.sink == u.q.sink[k.idx := u.q.sink[k.idx] + 1]
            && v.q.workers == u.q.workers[w := C.Worker(k.idx, k.rest[1..], k.acked + [k.rest[0]])]
  {
  }

  /** Under such a handle, with the sink accepting, the message goes out. */
  lemma HandGoesOut(cfg: Config, u: World, w: nat, h: Handle, openAt: int)
    requires AllOk(u) && May(cfg, u, Work(w, h, openAt, W.Took)) && openAt < h.validUntil
    ensures WentOut(u, Do(cfg, u, Work(w, h, openAt, W.Took)), w, HeadOf(u, w).payload)
  {
    HeadOpenIs(cfg, u, w, h, openAt);
    WorkTook(u, w, h, openAt, HeadOf(u, w).payload);
  }

  /**
   In every reachable world a worker whose message's DEK is hot under a lease that lasts gets its handle, and with the sink
   accepting delivers what was ingested: the key's step, then the work.
   */
  lemma HandIsDelivered(cfg: Config, u: World, n: nat, w: nat, at: int, openAt: int)
    requires Reached(cfg, u, n) && InHand(u, w) && Openable(cfg, u, w, at, openAt)
    ensures L.Shaped(u.q.b) && May(cfg, u, AskKey(u, w, at)) && L.Shaped(Do(cfg, u, AskKey(u, w, at)).q.b)
    ensures var v, work := Do(cfg, u, AskKey(u, w, at)), Work(w, HandKey(cfg, u, w), openAt, W.Took);
            v.q == u.q && v.out == u.out && May(cfg, v, work) && WentOut(v, Do(cfg, v, work), w, HeadOf(u, w).payload)
  {
    ReachedOk(cfg, u, n);
    HandReady(cfg, u, w, at, openAt);
    HandGoesOut(cfg, Do(cfg, u, AskKey(u, w, at)), w, HandKey(cfg, u, w), openAt);
  }

  lemma ReachedOk(cfg: Config, u: World, n: nat)
    requires Reached(cfg, u, n)
    ensures AllOk(u)
  {
    var u0, xs :| Opening(u0, n) && Acts(cfg, u0, xs) && After(cfg, u0, xs) == u;
    OpeningOk(u0, n);
    AfterOk(cfg, u0, xs);
  }

  // ---- What goes in, and what a foreign or tampered row comes to ----

  lemma HandleHasKey(u: World, i: nat, h: Handle)
    requires AllOk(u) && i in u.tenants && h in u.tenants[i].handles
    ensures h.prim.Some?
  {
    var s := u.tenants[i];
    assert E.TenantOk(s);
    assert R.Is(s.h.minted, h.dek, h.prim);
  }

  /** In every reachable world a handle used in time takes the message in: a ready row of the tenant, under that DEK. */
  lemma IngestStores(cfg: Config, u: World, n: nat, i: nat, id: nat, h: Handle, at: int, payload: Bytes, now: int)
    requires Reached(cfg, u, n) && May(cfg, u, Ingest(i, id, h, at, payload, now))
    ensures L.Shaped(u.q.b)
    ensures var v := Do(cfg, u, Ingest(i, id, h, at, payload, now));
            if h.validUntil <= at then v == u
            else
              && id in v.log && v.log == u.log[id := E.Message(i, payload, v.log[id].env)] && v.log[id].env.dek == h.dek
              && (id !in u.q.b.rows ==> v.q.b.rows == u.q.b.rows[id := L.Row(i, v.log[id].env, L.Ready, 0, now, 0)])
              && v.out == u.out && v.tenants == u.tenants
  {
    ReachedOk(cfg, u, n);
    HandleHasKey(u, i, h);
    SealsExactly(h, at, u.tenants[i].name, id, payload);
    IngestDoes(u, i, id, h, at, payload, now);
  }

  lemma IngestDoes(u: World, i: nat, id: nat, h: Handle, at: int, payload: Bytes, now: int)
    requires L.Shaped(u.q.b) && i in u.tenants && i < L.Tenants(u.q.b) && id !in u.q.used
    ensures var r, v := Seal(h, at, u.tenants[i].name, id, payload), DoIngest(u, i, id, h, at, payload, now);
            if r.Err? then v == u
            else
              && v.log == u.log[id := E.Message(i, payload, r.value)] && v.out == u.out && v.tenants == u.tenants
              && (id !in u.q.b.rows ==> v.q.b.rows == u.q.b.rows[id := L.Row(i, r.value, L.Ready, 0, now, 0)])
  {
  }

  /**
   Any row under any handle on its DEK, a foreign or tampered one too: it is poison exactly when its DEK is not the tenant's, or
   the handle was given and either the cipher does not open under it or the sink refuses.
   */
  lemma FateOfRow(cfg: Config, s: Sys, id: nat, m: E.Message, at: int, h: Handle, openAt: int, sink: W.SinkAnswer)
    requires h.dek == m.env.dek && h.prim.Some?
    ensures var fate := W.FateOf(E.AnswerFor(cfg, s, id, m, at, h, openAt, sink));
            var given := A.GivesOpen(cfg, s.t, m.env.dek, at) && openAt < h.validUntil;
            var own := Fits(h, m.env.ciphertext, s.name, id);
            && (fate.Die? <==> m.env.dek !in s.t.deks || (given && (!own || sink.Refused?)))
            && (fate.Deliver? <==> given && own && sink.Took?)
  {
    A.DecryptKeyRefuses(cfg, s.t, at, m.env.dek);
    OpensExactly(h, openAt, s.name, id, m.env);
    PoisonLeft(h, openAt, s.name, id, m.env);
  }

  lemma PoisonLeft(h: Handle, openAt: int, name: Bytes, id: nat, env: Envelope)
    requires h.dek == env.dek && h.prim.Some?
    ensures Open(h, openAt, name, id, env) == Err(Poison) <==> openAt < h.validUntil && !Fits(h, env.ciphertext, name, id)
  {
  }
}
