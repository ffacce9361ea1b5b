/**
 End to end (internal/world/ingest.go:46-70, internal/queue/workers.go:139-173): tenants whose keys live by the lease
 protocol, events sealed at the front door, rows opened by the workers. In async and sync fetch every delivered
 plaintext is the payload ingested under that id and tenant, and no row is dead-lettered for its key or its envelope,
 through rotation, purge, revocation, restore and re-unwrap.

 Admission, the insert's own failures and the schedule are free: an event need not be ingested, a row may go at any
 time, tenants' clocks are not even tied together.
 */
module EndToEnd {
  import opened Prelude
  import opened Envelope
  import opened KeyState
  import opened Protocol
  import opened Steps
  import opened Structure
  import R = References
  import W = Workers

  // ---- A tenant kept in a mode with the cache ----

  /** No switch to pass-through or naive fetch. */
  predicate KeepsCache(e: Event) { e.Mode? ==> e.mode.Async? || e.mode.Sync? }

  ghost predicate Kept(s: Sys) {
    && !Direct(s.t)
    && (forall i | i in s.ops :: !DirectKind(s.ops[i].kind))
    && (forall h | h in s.handles :: h.dek in s.t.deks)
  }

  lemma EncryptKept(cfg: Config, s: Sys, at: int)
    requires !Direct(s.t)
    ensures var c := EncryptCall(cfg, s, at);
            (c.handle.Some? ==> c.handle.value.dek in s.t.deks) && (c.born.Some? ==> !DirectKind(c.born.value.kind)) && !Direct(c.t)
  {
  }

  lemma CallKept(cfg: Config, s: Sys, e: Event)
    requires !Direct(s.t) && KeepsCache(e)
    ensures var c := CallOf(cfg, s, e);
            (c.handle.Some? ==> c.handle.value.dek in s.t.deks) && (c.born.Some? ==> !DirectKind(c.born.value.kind)) && !Direct(c.t)
  {
    if e.EncryptEv? { EncryptKept(cfg, s, e.at); }
  }

  lemma FinishKept(cfg: Config, s: Sys, op: Job, out: Out, at: int)
    requires !DirectKind(op.kind) && (op.kind.Cold? ==> s.t.waiters > 0)
    ensures var m := DoFinish(cfg, s, op, out, at);
            m.op.None? && m.t.fetch == s.t.fetch && (m.handle.Some? ==> m.handle.value.dek in s.t.deks)
  {
  }

  lemma MoveKept(cfg: Config, s: Sys, i: nat, op: Job, e: Event)
    requires TaskMay(cfg, s, op, e) && !DirectKind(op.kind)
    ensures var m := MoveOf(cfg, s, i, op, e);
            && m.t.fetch == s.t.fetch && (m.handle.Some? ==> m.handle.value.dek in s.t.deks)
            && (m.op.Some? ==> m.op.value.kind == op.kind)
  {
    if Asking(e) { AskOnly(cfg, s, i, op, e); }
    else if Settling(e) { SettleOnly(cfg, s, i, op, e); }
    else if e.Finish? { FinishKept(cfg, s, op, op.pc.out, e.at); }
  }

  lemma StepKept(cfg: Config, s: Sys, e: Event)
    requires R.Keyed(s) && Kept(s) && Enabled(cfg, s, e) && KeepsCache(e)
    ensures Kept(Next(cfg, s, e))
  {
    R.StepKeyed(cfg, s, e);
    match Mover(e)
    case None => PlaceKept(cfg, s, e);
    case Some(i) => CarryKept(cfg, s, i, e);
  }

  lemma PlaceKept(cfg: Config, s: Sys, e: Event)
    requires Kept(s) && KeepsCache(e) && R.Grows(s.h.minted, s.t, s.h.minted, Entry(cfg, s, e).t)
    ensures Kept(Entry(cfg, s, e))
  {
    if !(e.Advance? || e.Flip? || e.Others?) {
      CallKept(cfg, s, e);
      PlacedKept(s, CallOf(cfg, s, e));
    }
  }

  lemma PlacedKept(s: Sys, c: Call)
    requires Kept(s) && !Direct(c.t) && forall id | id in s.t.deks :: id in c.t.deks
    requires c.handle.Some? ==> c.handle.value.dek in s.t.deks
    requires c.born.Some? ==> !DirectKind(c.born.value.kind)
    ensures Kept(Place(s, c))
  {
  }

  lemma CarryKept(cfg: Config, s: Sys, i: nat, e: Event)
    requires Kept(s) && i in s.ops && TaskMay(cfg, s, s.ops[i], e)
    requires forall id | id in s.t.deks :: id in MoveOf(cfg, s, i, s.ops[i], e).t.deks
    ensures Kept(Carry(s, i, MoveOf(cfg, s, i, s.ops[i], e)))
  {
    MoveKept(cfg, s, i, s.ops[i], e);
  }

  // ---- The world ----

  datatype Message = Message(tenant: nat, payload: Bytes, env: Envelope)

  datatype World = World(tenants: map<nat, Sys>, rows: map<nat, Message>)

  datatype Act =
    | Lease(tenant: nat, e: Event)
    | Ingest(tenant: nat, id: nat, h: Handle, at: int, payload: Bytes)
    | Gone(id: nat)

  predicate May(cfg: Config, w: World, a: Act) {
    match a
    case Lease(i, e) => i in w.tenants && KeepsCache(e) && Enabled(cfg, w.tenants[i], e)
    case Ingest(i, id, h, _, _) => i in w.tenants && h in w.tenants[i].handles && id !in w.rows && IsInt64(id)
    case Gone(id) => true
  }

  /** The tail of IngestID: seal under the handle, insert what came out. */
  function Do(cfg: Config, w: World, a: Act): World
    requires May(cfg, w, a)
  {
    match a
    case Lease(i, e) => w.(tenants := w.tenants[i := Next(cfg, w.tenants[i], e)])
    case Ingest(i, id, h, at, payload) =>
      (match Seal(h, at, w.tenants[i].name, id, payload)
       case Ok(env) => w.(rows := w.rows[id := Message(i, payload, env)])
       case Err(_) => w)
    case Gone(id) => w.(rows := w.rows - {id})
  }

  ghost predicate Acts(cfg: Config, w: World, xs: seq<Act>)
    decreases |xs|
  {
    xs != [] ==> May(cfg, w, xs[0]) && Acts(cfg, Do(cfg, w, xs[0]), xs[1..])
  }

  function After(cfg: Config, w: World, xs: seq<Act>): World
    requires Acts(cfg, w, xs)
    decreases |xs|
  {
    if xs == [] then w else After(cfg, Do(cfg, w, xs[0]), xs[1..])
  }

  // ---- The invariant ----

  /** A row holds its own payload under a DEK its tenant has. */
  predicate RowOk(s: Sys, id: nat, m: Message) {
    && IsInt64(id) && m.env.dek in s.t.deks
    && m.env.ciphertext == Cipher(s.t.deks[m.env.dek].wrapped, Aad(s.name, id, m.env.dek), m.payload)
  }

  ghost predicate TenantOk(s: Sys) { R.Keyed(s) && Kept(s) }

  ghost predicate WorldOk(w: World) {
    && (forall i | i in w.tenants :: TenantOk(w.tenants[i]))
    && (forall id | id in w.rows :: w.rows[id].tenant in w.tenants && RowOk(w.tenants[w.rows[id].tenant], id, w.rows[id]))
  }

  lemma NextName(cfg: Config, s: Sys, e: Event)
    requires Enabled(cfg, s, e)
    ensures Next(cfg, s, e).name == s.name
  {
  }

  lemma RowStays(cfg: Config, s: Sys, e: Event, id: nat, m: Message)
    requires TenantOk(s) && Enabled(cfg, s, e) && RowOk(s, id, m)
    ensures RowOk(Next(cfg, s, e), id, m)
  {
    R.StepKeyed(cfg, s, e);
    NextName(cfg, s, e);
  }

  lemma TenantStep(cfg: Config, s: Sys, e: Event)
    requires TenantOk(s) && Enabled(cfg, s, e) && KeepsCache(e)
    ensures TenantOk(Next(cfg, s, e))
  {
    R.StepKeyed(cfg, s, e);
    StepKept(cfg, s, e);
  }

  lemma Swap(w: World, i: nat, u: Sys)
    requires WorldOk(w) && i in w.tenants && TenantOk(u)
    requires forall id | id in w.rows && w.rows[id].tenant == i :: RowOk(u, id, w.rows[id])
    ensures WorldOk(w.(tenants := w.tenants[i := u]))
  {
  }

  lemma LeaseOk(cfg: Config, w: World, i: nat, e: Event)
    requires WorldOk(w) && i in w.tenants && Enabled(cfg, w.tenants[i], e) && KeepsCache(e)
    ensures WorldOk(w.(tenants := w.tenants[i := Next(cfg, w.tenants[i], e)]))
  {
    forall id | id in w.rows && w.rows[id].tenant == i ensures RowOk(Next(cfg, w.tenants[i], e), id, w.rows[id]) {
      RowStays(cfg, w.tenants[i], e, id, w.rows[id]);
    }
    TenantStep(cfg, w.tenants[i], e);
    Swap(w, i, Next(cfg, w.tenants[i], e));
  }

  lemma SealOk(s: Sys, h: Handle, at: int, id: nat, payload: Bytes, i: nat)
    requires TenantOk(s) && h in s.handles && IsInt64(id)
    ensures var r := Seal(h, at, s.name, id, payload); r.Ok? ==> RowOk(s, id, Message(i, payload, r.value))
  {
  }

  lemma DoOk(cfg: Config, w: World, a: Act)
    requires WorldOk(w) && May(cfg, w, a)
    ensures WorldOk(Do(cfg, w, a))
  {
    match a
    case Lease(i, e) => LeaseOk(cfg, w, i, e);
    case Ingest(i, id, h, at, payload) => SealOk(w.tenants[i], h, at, id, payload, i);
    case Gone(_) =>
  }

  lemma {:induction false} AfterOk(cfg: Config, w: World, xs: seq<Act>)
    requires WorldOk(w) && Acts(cfg, w, xs)
    ensures WorldOk(After(cfg, w, xs))
    decreases |xs|
  {
    if xs != [] {
      DoOk(cfg, w, xs[0]);
      AfterOk(cfg, Do(cfg, w, xs[0]), xs[1..]);
    }
  }

  /** A world of fresh tenants (names may repeat), every one in a mode with the cache, and no rows. */
  ghost predicate Fresh(w: World) {
    && w.rows == map[]
    && (forall i | i in w.tenants :: exists now, mode :: mode in {Async, Sync} && w.tenants[i] == Start(w.tenants[i].name, now, mode))
  }

  lemma FreshOk(w: World)
    requires Fresh(w)
    ensures WorldOk(w)
  {
  }

  /** Some run of the world leads to w. */
  ghost predicate Reached(cfg: Config, w: World) {
    exists w0, xs :: Fresh(w0) && Acts(cfg, w0, xs) && After(cfg, w0, xs) == w
  }

  lemma ReachedOk(cfg: Config, w: World)
    requires Reached(cfg, w)
    ensures WorldOk(w)
  {
    var w0, xs :| Fresh(w0) && Acts(cfg, w0, xs) && After(cfg, w0, xs) == w;
    FreshOk(w0);
    AfterOk(cfg, w0, xs);
  }

  // ---- What a worker makes of a row ----

  function KeyAnswer(o: OpenStep): W.KeyAnswer {
    match o
    case OpenPoison => W.ForeignDek
    case OpenCold => W.Cold
    case OpenNow(_) => W.Usable
    case _ => W.NoKey
  }

  function OpenAnswer(r: Result<Bytes>): W.OpenAnswer {
    match r
    case Ok(_) => W.Opened
    case Err(LeaseExpired) => W.Lapsed
    case Err(DekCold) => W.Lapsed
    case Err(Poison) => W.Tampered
  }

  /** DecryptKey does not call the row's DEK foreign, and Open gives its payload while the handle is valid. */
  ghost predicate Opens(cfg: Config, s: Sys, id: nat, m: Message) {
    && (forall at :: !DecryptStep(cfg, s.t, m.env.dek, at).OpenPoison?)
    && (forall h, at | h in s.handles && h.dek == m.env.dek ::
          Open(h, at, s.name, id, m.env) == if at < h.validUntil then Ok(m.payload) else Err(LeaseExpired))
  }

  lemma RowOpens(cfg: Config, s: Sys, id: nat, m: Message)
    requires TenantOk(s) && RowOk(s, id, m)
    ensures Opens(cfg, s, id, m)
  {
  }

  /**
   In every reachable world, for every row: the worker's DecryptKey, at any moment, does not call the row's DEK foreign,
   and Open, at any later moment under any handle of the tenant on that DEK, gives exactly the payload that was
   ingested, or says the lease expired.
   */
  lemma DeliveredIsIngested(cfg: Config, w: World, id: nat)
    requires Reached(cfg, w) && id in w.rows
    ensures w.rows[id].tenant in w.tenants && Opens(cfg, w.tenants[w.rows[id].tenant], id, w.rows[id])
  {
    ReachedOk(cfg, w);
    RowOpens(cfg, w.tenants[w.rows[id].tenant], id, w.rows[id]);
  }

  /** What a worker walking its batch makes of a row. */
  function AnswerFor(cfg: Config, s: Sys, id: nat, m: Message, at: int, h: Handle, openAt: int, sink: W.SinkAnswer): W.Answer {
    W.Answer(KeyAnswer(DecryptStep(cfg, s.t, m.env.dek, at)), OpenAnswer(Open(h, openAt, s.name, id, m.env)), sink)
  }

  /** In no reachable world does a row die of its key or its envelope: only the sink can refuse it. */
  lemma NoRowDiesOfItsKey(cfg: Config, w: World, id: nat, at: int, h: Handle, openAt: int, sink: W.SinkAnswer)
    requires Reached(cfg, w) && id in w.rows && w.rows[id].tenant in w.tenants
    requires h in w.tenants[w.rows[id].tenant].handles && h.dek == w.rows[id].env.dek
    ensures W.FateOf(AnswerFor(cfg, w.tenants[w.rows[id].tenant], id, w.rows[id], at, h, openAt, sink)).Die? ==> sink.Refused?
  {
    DeliveredIsIngested(cfg, w, id);
    FateIsSinks(cfg, w.tenants[w.rows[id].tenant], id, w.rows[id], at, h, openAt, sink);
  }

  lemma FateIsSinks(cfg: Config, s: Sys, id: nat, m: Message, at: int, h: Handle, openAt: int, sink: W.SinkAnswer)
    requires Opens(cfg, s, id, m) && h in s.handles && h.dek == m.env.dek
    ensures W.FateOf(AnswerFor(cfg, s, id, m, at, h, openAt, sink)).Die? ==> sink.Refused?
  {
  }

  /** Nor does it open as anything else: not under another tenant's handle, nor for another tenant or id. */
  lemma OpensNowhereElse(cfg: Config, w: World, id: nat, i: nat, h: Handle, openAt: int, as_: nat)
    requires Reached(cfg, w) && id in w.rows && w.rows[id].tenant in w.tenants && i in w.tenants && h in w.tenants[i].handles
    requires IsInt64(as_) && (w.tenants[i].name != w.tenants[w.rows[id].tenant].name || as_ != id)
    ensures Open(h, openAt, w.tenants[i].name, as_, w.rows[id].env).Err?
  {
    ReachedOk(cfg, w);
    ElsewhereErr(w.tenants[w.rows[id].tenant], w.rows[id], id, w.tenants[i], h, openAt, as_);
  }

  lemma ElsewhereErr(s: Sys, m: Message, id: nat, u: Sys, h: Handle, openAt: int, as_: nat)
    requires TenantOk(s) && RowOk(s, id, m) && TenantOk(u) && h in u.handles && IsInt64(as_)
    requires u.name != s.name || as_ != id
    ensures Open(h, openAt, u.name, as_, m.env).Err?
  {
    if u.name == s.name && Aad(s.name, id, m.env.dek) == Aad(s.name, as_, m.env.dek) {
      AadInjectiveSameLength(s.name, id, m.env.dek, s.name, as_, m.env.dek);
    }
  }
}
