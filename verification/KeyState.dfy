/**
 One tenant's key state (internal/cmek/lease.go and the sections of manager.go and fetcher.go that run under its
 lock), on values. Instants and durations are nanoseconds; 0 is Go's zero time.

 Every function here is one critical section. `at` is the clock reading the section works with.
 */
module KeyState {
  import opened Prelude
  import opened Envelope
  import KmsText

  type Class = KmsText.Class

  datatype State = Active | RidingThrough | KeyUnavailable | Revoked

  datatype Fetch = Async | Sync | PassThrough | Naive

  datatype Config = Config(
    ttl: int, soft: int, early: int, reprobe: int, sweep: int, dekMaxAge: int, backoffMin: int, backoffMax: int,
    jitter: real,
    dekMaxMessages: nat, providerInflight: nat, tenantInflight: nat, ingestWaiters: nat)

  /** A data key: wrapped forever (`wrapped` is the key inside), in the clear only while hot. */
  datatype Dek = Dek(wrapped: Key, prim: Option<Key>, msgs: nat, createdAt: int, hotSince: int)

  datatype Tenant = Tenant(
    state: State, published: State, sentAt: int,
    deks: map<DekId, Dek>, active: Option<DekId>, seqNo: nat,
    attempt: nat, nextProbeAt: int, deniedAt: int, probing: bool,
    pending: map<DekId, int>, waiters: nat, inflight: nat, fetch: Fetch)

  const NEW := Tenant(Active, Active, 0, map[], None, 0, 0, 0, 0, false, map[], 0, 0, Async)

  // ---- Lease ----

  function Until(cfg: Config, sentAt: int): int { sentAt + cfg.ttl - cfg.early }

  predicate Usable(cfg: Config, t: Tenant, now: int) { t.sentAt != 0 && now < Until(cfg, t.sentAt) }

  predicate SoftDue(cfg: Config, t: Tenant, now: int) { now >= t.sentAt + cfg.soft }

  /** Lease.Renew: forward only. */
  function Renewed(sentAt: int, r: int): int { if r > sentAt then r else sentAt }

  predicate Direct(t: Tenant) { t.fetch.PassThrough? || t.fetch.Naive? }

  predicate Exhausted(cfg: Config, d: Dek, now: int) {
    d.msgs >= cfg.dekMaxMessages || now - d.createdAt >= cfg.dekMaxAge
  }

  function ActiveDek(t: Tenant): Option<Dek> {
    if t.active.Some? && t.active.value in t.deks then Some(t.deks[t.active.value]) else None
  }

  function HotDeks(t: Tenant): set<DekId> {
    set id | id in t.deks && t.deks[id].prim.Some?
  }

  function Cooled(deks: map<DekId, Dek>): map<DekId, Dek> {
    map id | id in deks :: deks[id].(prim := None)
  }

  /** purge: every plaintext key and every pending warm is dropped; the wrapped keys stay. */
  function Purge(t: Tenant): Tenant {
    t.(deks := Cooled(t.deks), pending := map[])
  }

  /** setState: the state and its published copy. */
  function Become(t: Tenant, to: State): Tenant {
    t.(state := to, published := to)
  }

  // ---- A KMS outcome and what apply does with it ----

  datatype Err = NoErr | Busy | StoreErr | Failed

  /** `checked` is when the KMS read the key's flag; it is bookkeeping of the model, not of the code. */
  datatype Reply = Reply(sentAt: int, verdict: Class, err: Err, prim: Option<Key>, checked: int)

  datatype Op = Unwrap | Generate | Warm

  datatype Subject = NoDek | Held(id: DekId) | Fresh(id: DekId, dek: Dek)

  predicate Applicable(t: Tenant, op: Op, s: Subject, r: Reply) {
    && (op.Generate? <==> !s.Held?)
    && (s.Held? ==> s.id in t.deks)
    && (r.err.NoErr? && r.verdict.OK? ==> !s.NoDek?)
  }

  /** An OK checked before the latest deny must not bring the tenant back. */
  predicate Stale(t: Tenant, r: Reply) { r.sentAt < t.deniedAt }

  function ApplyOk(t: Tenant, op: Op, s: Subject, r: Reply, at: int): Tenant
    requires !s.NoDek? && (s.Held? ==> s.id in t.deks)
  {
    var d := if s.Fresh? then s.dek else t.deks[s.id];
    var d' := d.(prim := if Direct(t) then d.prim else r.prim, hotSince := at);
    var u := t.(sentAt := Renewed(t.sentAt, r.sentAt),
                deks := t.deks[s.id := d'],
                active := if op.Generate? then Some(s.id) else t.active,
                attempt := 0,
                pending := t.pending - {s.id});
    if t.state.Active? then u else Become(u, Active)
  }

  function ApplyDeny(cfg: Config, t: Tenant, at: int): Tenant {
    var u := Purge(t).(deniedAt := at, sentAt := 0, nextProbeAt := at + cfg.reprobe);
    if t.state.Revoked? then u else Become(u, Revoked)
  }

  function ApplyFail(cfg: Config, t: Tenant, at: int, delay: int): Tenant {
    var next := at + delay;
    var u := t.(attempt := t.attempt + 1, nextProbeAt := next, pending := map id | id in t.pending :: next);
    var usable := Usable(cfg, t, at) && !Direct(t);
    if t.state.Active? && usable then Become(u, RidingThrough)
    else if t.state.Active? || (t.state.RidingThrough? && !usable) then Become(Purge(u), KeyUnavailable)
    else u
  }

  /** apply. `delay` is the backoff drawn for this failure. */
  function Apply(cfg: Config, t: Tenant, op: Op, s: Subject, r: Reply, at: int, delay: int): Tenant
    requires Applicable(t, op, s, r)
  {
    if r.err.Busy? || r.err.StoreErr? then
      if op.Warm? && s.Held? then t.(pending := t.pending[s.id := at + cfg.sweep]) else t
    else match r.verdict
      case OK => if Stale(t, r) || s.NoDek? then t else ApplyOk(t, op, s, r, at)
      case Deny => ApplyDeny(cfg, t, at)
      case _ => ApplyFail(cfg, t, at, delay)
  }

  // ---- EncryptKey ----

  /** handle: the tenant may seal now. */
  predicate CanSeal(cfg: Config, t: Tenant, at: int) {
    var d := ActiveDek(t);
    d.Some? && d.value.prim.Some? && !Direct(t) && Usable(cfg, t, at) && !(t.state.Active? && Exhausted(cfg, d.value, at))
  }

  function HandleOn(cfg: Config, t: Tenant, id: DekId, prim: Option<Key>): Handle {
    Handle(id, Until(cfg, t.sentAt), prim)
  }

  function CountSeal(t: Tenant, id: DekId): Tenant {
    if id in t.deks then t.(deks := t.deks[id := t.deks[id].(msgs := t.deks[id].msgs + 1)]) else t
  }

  /** A parked tenant in sync fetch whose probe is due is probed by the caller first. */
  predicate EncryptProbesInline(t: Tenant, at: int) {
    t.fetch.Sync? && !t.probing && !t.state.Active? && at >= t.nextProbeAt
  }

  datatype EncryptStep = SealParked(revoked: bool) | SealDirect | SealNow(h: Handle, kick: bool) | SealRefused | SealCold

  function Encrypt(cfg: Config, t: Tenant, at: int): (EncryptStep, Tenant) {
    if t.state.Revoked? then (SealParked(true), t)
    else if t.state.KeyUnavailable? then (SealParked(false), t)
    else if Direct(t) then (SealDirect, t)
    else if CanSeal(cfg, t, at) then
      var id := t.active.value;
      var kick := t.state.Active? && SoftDue(cfg, t, at) && !t.probing && !t.fetch.Sync?;
      (SealNow(HandleOn(cfg, t, id, t.deks[id].prim), kick), CountSeal(t, id).(probing := t.probing || kick))
    else if t.waiters >= cfg.ingestWaiters then (SealRefused, t)
    else (SealCold, t.(waiters := t.waiters + 1))
  }

  datatype SealAnswer = Sealing(h: Handle) | KeyRevoked | KeyDown | StoreFailed

  /** The last section of the cold path. */
  function ColdEnd(cfg: Config, t: Tenant, at: int, err: Err): (SealAnswer, Tenant)
    requires t.waiters > 0
  {
    var u := t.(waiters := t.waiters - 1);
    if t.state.Revoked? then (KeyRevoked, u)
    else if CanSeal(cfg, t, at) then
      (Sealing(HandleOn(cfg, t, t.active.value, t.deks[t.active.value].prim)), CountSeal(u, t.active.value))
    else (if err.StoreErr? then StoreFailed else KeyDown, u)
  }

  /** passThroughHandle: one direct call's result as a handle. */
  function DirectEnd(cfg: Config, t: Tenant, id: DekId, r: Reply, at: int, count: bool): (SealAnswer, Tenant) {
    if r.err.NoErr? then
      if t.state.Revoked? then (KeyRevoked, t)
      else if !Usable(cfg, t, at) then (KeyDown, t)
      else (Sealing(HandleOn(cfg, t, id, r.prim)), if count then CountSeal(t, id) else t)
    else if r.verdict.Deny? then (KeyRevoked, t)
    else if r.err.StoreErr? then (StoreFailed, t)
    else (KeyDown, t)
  }

  // ---- DecryptKey ----

  datatype Inline = NoInline | InlineProbe | InlineWarm

  function DecryptInline(cfg: Config, t: Tenant, id: DekId, at: int): Inline {
    if id !in t.deks || !t.fetch.Sync? || t.probing then NoInline
    else if t.state.Active? && SoftDue(cfg, t, at) then InlineProbe
    else if !t.state.Active? && at >= t.nextProbeAt then InlineProbe
    else if (t.state.Active? || t.state.RidingThrough?) && Usable(cfg, t, at) && t.deks[id].prim.None? then InlineWarm
    else NoInline
  }

  datatype OpenStep = OpenPoison | OpenRevoked | OpenExpired | OpenCold | OpenDirect | OpenNow(h: Handle)

  function DecryptStep(cfg: Config, t: Tenant, id: DekId, at: int): OpenStep {
    if id !in t.deks then OpenPoison
    else if t.state.Revoked? then OpenRevoked
    else if t.state.KeyUnavailable? then OpenExpired
    else if Direct(t) then OpenDirect
    else if !Usable(cfg, t, at) then OpenExpired
    else if t.deks[id].prim.None? then OpenCold
    else OpenNow(HandleOn(cfg, t, id, t.deks[id].prim))
  }

  // ---- Hot, Warm, SetFetch, Tick, satisfied ----

  /** Hot: the answer for the scheduler and whether a renewal is kicked. */
  function HotAnswer(cfg: Config, t: Tenant, at: int): (bool, bool) {
    if Direct(t) then (t.state.Active?, false)
    else
      var usable := Usable(cfg, t, at);
      var hot := (t.state.Active? || t.state.RidingThrough?) && usable && |t.pending| == 0;
      if t.fetch.Sync? then
        (hot || (!t.probing && ((t.state.Active? && !usable) || (!t.state.Active? && at >= t.nextProbeAt))), false)
      else
        (hot, t.state.Active? && !t.probing && (!usable || SoftDue(cfg, t, at)))
  }

  predicate WarmWanted(t: Tenant, id: DekId) {
    id in t.deks && !Direct(t) && id !in t.pending
  }

  predicate WarmKicks(cfg: Config, t: Tenant, id: DekId, at: int) {
    WarmWanted(t, id) && !t.probing && (t.state.Active? || t.state.RidingThrough?) && Usable(cfg, t, at)
  }

  function WarmAsked(cfg: Config, t: Tenant, id: DekId, at: int): Tenant {
    if !WarmWanted(t, id) then t
    else t.(pending := t.pending[id := at], probing := t.probing || WarmKicks(cfg, t, id, at))
  }

  function SetFetch(t: Tenant, mode: Fetch): Tenant {
    var u := t.(fetch := mode);
    if Direct(u) && !Direct(t) then Purge(u) else u
  }

  /** satisfied: has another flight already met the need behind this renewal? */
  predicate Satisfied(cfg: Config, t: Tenant, cold: bool, at: int) {
    var d := ActiveDek(t);
    var ready := d.Some? && d.value.prim.Some? && Usable(cfg, t, at) && !(t.state.Active? && Exhausted(cfg, d.value, at));
    if cold then ready else t.state.Active? && ready && !SoftDue(cfg, t, at)
  }

  /** renew's choice: a generate when there is no DEK, or on the cold path an exhausted one. */
  predicate NeedsGenerate(cfg: Config, t: Tenant, cold: bool, at: int) {
    var d := ActiveDek(t);
    d.None? || (cold && t.state.Active? && Exhausted(cfg, d.value, at))
  }

  predicate Aged(cfg: Config, t: Tenant, id: DekId, now: int)
    requires id in t.deks
  {
    t.active != Some(id) && t.deks[id].prim.Some? && now - t.deks[id].hotSince >= cfg.dekMaxAge + cfg.ttl
  }

  /** Tick, part 1: a lapsed lease drops the plaintext keys; a riding tenant fails closed. */
  function TickLapse(cfg: Config, t: Tenant, now: int): Tenant {
    if t.sentAt != 0 && !Usable(cfg, t, now) && |HotDeks(t)| > 0 then
      if t.state.RidingThrough? then Become(Purge(t), KeyUnavailable) else Purge(t)
    else t
  }

  /** Tick, part 2: old keys other than the active one go cold. */
  function TickAge(cfg: Config, t: Tenant, now: int): Tenant {
    t.(deks := map id | id in t.deks :: if Aged(cfg, t, id, now) then t.deks[id].(prim := None) else t.deks[id])
  }

  predicate ProbeDue(t: Tenant, now: int) {
    !t.state.Active? && !t.probing && now >= t.nextProbeAt && !t.fetch.Sync?
  }

  predicate WarmDue(cfg: Config, t: Tenant, id: DekId, now: int) {
    && !ProbeDue(t, now) && (t.state.Active? || t.state.RidingThrough?) && Usable(cfg, t, now) && !t.probing
    && id in t.pending && id in t.deks && now >= t.pending[id]
  }

  datatype Due = NoDue | DueProbe | DueWarm(id: DekId)

  function TickBody(cfg: Config, t: Tenant, now: int): Tenant {
    TickAge(cfg, TickLapse(cfg, t, now), now)
  }

  /** Which task the sweep may start: the map is walked in any order, so any due warm may be the one. */
  predicate TickMay(cfg: Config, u: Tenant, now: int, due: Due) {
    match due
    case DueProbe => ProbeDue(u, now)
    case DueWarm(id) => WarmDue(cfg, u, id, now)
    case NoDue => !ProbeDue(u, now) && forall id | id in u.pending :: !WarmDue(cfg, u, id, now)
  }

  function Tick(cfg: Config, t: Tenant, now: int, due: Due): Tenant {
    var u := TickBody(cfg, t, now);
    if due.NoDue? then u else u.(probing := true)
  }

  // ---- The state machine's edges ----

  /** The edges of the specification's diagram, and ACTIVE to KEY_UNAVAILABLE (two of them in one call). */
  predicate Edge(from: State, to: State) {
    || from == to
    || to.Active?
    || (from.Active? && to.RidingThrough?)
    || (from.RidingThrough? && to.KeyUnavailable?)
    || (from.Active? && to.KeyUnavailable?)
    || to.Revoked?
  }

  // ---- Backoff ----

  function Doubled(min: int, n: nat): int
  {
    if n <= 1 then min else 2 * Doubled(min, n - 1)
  }

  /** Backoff over the reals: min * 2^(n-1), capped, times 1 + jitter * (2u - 1), truncated to a duration. */
  function Backoff(n: nat, min: int, max: int, jitter: real, u: real): int {
    var base := Min(Doubled(min, n), max);
    (base as real * Spread(jitter, u)).Floor
  }

  lemma {:induction false} DoubledGrows(min: int, m: nat, n: nat)
    requires min > 0 && m <= n
    ensures min <= Doubled(min, m) <= Doubled(min, n)
  {
    if m < n { DoubledGrows(min, m, n - 1); }
    if m > 1 { DoubledGrows(min, m - 1, m - 1); }
  }

  lemma Scaled(a: real, b: real, f: real)
    requires a <= b && f >= 0.0
    ensures a * f <= b * f && f * a <= f * b
  {
  }

  function Spread(jitter: real, u: real): real { 1.0 + jitter * (2.0 * u - 1.0) }

  lemma SpreadRange(jitter: real, u: real)
    requires 0.0 <= jitter <= 1.0 && 0.0 <= u < 1.0
    ensures 1.0 - jitter <= Spread(jitter, u) <= 1.0 + jitter
  {
    var w := 2.0 * u - 1.0;
    NonNegative(jitter, w + 1.0);
    NonNegative(jitter, 1.0 - w);
    assert jitter * (w + 1.0) == jitter * w + jitter;
    assert jitter * (1.0 - w) == jitter - jitter * w;
    assert Spread(jitter, u) == 1.0 + jitter * w;
  }

  lemma NonNegative(a: real, b: real)
    requires a >= 0.0 && b >= 0.0
    ensures a * b >= 0.0
  {
  }

  /** max * (1 + jitter), truncated. */
  function Longest(max: int, jitter: real): int { (max as real * (1.0 + jitter)).Floor }

  lemma ProductAtMost(a: real, b: real, f: real, g: real)
    requires 0.0 <= a <= b && 0.0 <= f <= g
    ensures 0.0 <= a * f <= b * g
  {
    NonNegative(a, f);
    Scaled(a, b, f);
    Scaled(f, g, b);
  }

  lemma FloorMonotone(x: real, y: real)
    requires x <= y
    ensures x.Floor <= y.Floor
  {
  }

  lemma FloorNonNegative(x: real)
    requires 0.0 <= x
    ensures 0 <= x.Floor
  {
  }

  /** The longest wait: a delay is never past max * (1 + jitter). */
  lemma BackoffAtMost(n: nat, min: int, max: int, jitter: real, u: real)
    requires 0 < min <= max && 0.0 <= jitter <= 1.0 && 0.0 <= u < 1.0
    ensures 0 <= Backoff(n, min, max, jitter, u) <= Longest(max, jitter)
  {
    DoubledGrows(min, n, n);
    SpreadRange(jitter, u);
    var b, f := Min(Doubled(min, n), max) as real, Spread(jitter, u);
    ProductAtMost(b, max as real, f, 1.0 + jitter);
    FloorMonotone(b * f, max as real * (1.0 + jitter));
    FloorNonNegative(b * f);
  }

  /** With the same draw, each further failure waits at least as long. */
  lemma BackoffGrows(n: nat, min: int, max: int, jitter: real, u: real)
    requires 0 < min <= max && 0.0 <= jitter <= 1.0 && 0.0 <= u < 1.0
    ensures Backoff(n, min, max, jitter, u) <= Backoff(n + 1, min, max, jitter, u)
  {
    DoubledGrows(min, n, n + 1);
    SpreadRange(jitter, u);
    Scaled(Min(Doubled(min, n), max) as real, Min(Doubled(min, n + 1), max) as real, Spread(jitter, u));
  }
}
