/**
 The key-lease protocol of one tenant as a step system: its goroutines inside EncryptKey, DecryptKey, probe and warm
 (internal/cmek/fetcher.go, internal/cmek/manager.go), singleflight, the two bulkheads, the KMS key flag
 (internal/kms/fake.go:134-179) and one monotone clock.

 Each step is one critical section, one singleflight transition or one KMS interaction. Callers may enter at any
 moment. A section works from a clock reading `at` taken at or before it runs; what depends on the order of readings says
 so (StaleAnswers.dfy). The flag is the fake's; a call may also fail at any moment.
 */
module Protocol {
  import opened Prelude
  import opened Envelope
  import opened KeyState
  import KmsText

  /** Who is running: a kicked probe, a warm, a cold EncryptKey, or one direct (no-cache) seal or open. */
  datatype Kind = Probe | Warming(id: DekId) | Cold | SealOnce | OpenOnce(id: DekId)

  datatype FlightKey = FActive | FGenerate | FDek(id: DekId)

  /** What a flight's function returns: renew and warm give an error only, a direct seal gives the DEK and the reply. */
  datatype Out = Plain(err: Err) | Made(s: Subject, r: Reply)

  datatype Pc =
    | Deciding
    | Entering
    | Joined(leader: nat)
    | Checking
    | AtCap
    | AtSem
    | Sending
    | AtKms(sentAt: int)
    | Back(r: Reply)
    | Allocating(r: Reply)
    | Storing(r: Reply, s: Subject)
    | Applying(r: Reply, s: Subject, since: int)
    | Landed(out: Out)
    | Finishing(out: Out)
    | Crashed

  /** One goroutine: its flight key, whether it leads that flight, what it calls for, and the permits it holds. */
  datatype Job = Job(kind: Kind, key: FlightKey, leads: bool, gen: bool, dek: Option<DekId>,
                   counted: bool, sem: bool, pc: Pc)

  /** What a flight was: who led it, and for which key. */
  datatype Flight = Flight(kind: Kind, key: FlightKey)

  /** The key behind a DEK id, and the goroutine that drew the id. */
  datatype Mint = Mint(key: Key, drawnBy: nat)

  /** Bookkeeping for the theorems; no step reads it. */
  datatype Hist = Hist(
    generates: nat,      // generate calls sent
    renewedAt: int,      // when the latest unwrap of an active-key flight was sent
    failedAt: int,       // the clock reading of the latest applied failure
    denyChecked: int,    // the latest instant at which an applied deny was checked
    minted: map<DekId, Mint>,
    failures: nat,       // answered failures applied since the last OK that took effect
    due: int,            // the slot the latest applied failure or deny set
    stale: set<DekId>,   // the generated DEKs whose OK apply ignored as stale
    led: map<nat, Flight>)  // per ended flight, by the goroutine that led it

  datatype Sys = Sys(
    name: Bytes, now: int, enabled: bool, revokedAt: int,
    t: Tenant, ops: map<nat, Job>, nextOp: nat, flights: map<FlightKey, nat>, results: map<nat, Out>,
    others: nat, stored: set<DekId>, handles: set<Handle>, h: Hist)

  function Start(name: Bytes, now: int, mode: Fetch): Sys {
    Sys(name, now, true, 0, NEW.(fetch := mode), map[], 0, map[], map[], 0, {}, {}, Hist(0, 0, 0, 0, map[], 0, 0, {}, map[]))
  }

  datatype Event =
    | Advance(to: int)
    | Flip(on: bool)
    | Mode(mode: Fetch)
    | Others(n: nat)
    | TickEv(at: int, due: Due)
    | HotEv(at: int)
    | EncryptEv(at: int)
    | EncryptInline(at: int)
    | DecryptEv(at: int, id: DekId)
    | DecryptInlineEv(at: int, id: DekId)
    | WarmEv(at: int, id: DekId)
    | Decide(i: nat, at: int)
    | Enter(i: nat)
    | Check(i: nat, at: int)
    | Cap(i: nat)
    | Sem(i: nat, got: bool)
    | Send(i: nat)
    | Answer(i: nat, fail: bool, key: Key)
    | Return(i: nat)
    | Alloc(i: nat, at: int)
    | Put(i: nat, ok: bool)
    | ApplyEv(i: nat, at: int, u: real)
    | Land(i: nat)
    | Wake(i: nat)
    | Finish(i: nat, at: int)

  // ---- Helpers ----

  const PROBE := Job(Probe, FActive, false, false, None, false, false, Deciding)

  function WarmOp(id: DekId): Job { Job(Warming(id), FDek(id), false, false, Some(id), false, false, Entering) }

  const COLD := PROBE.(kind := Cold)

  const SEAL := PROBE.(kind := SealOnce)

  function OpenOp(id: DekId): Job { Job(OpenOnce(id), FDek(id), false, false, Some(id), false, false, AtCap) }

  function Tokens(ops: map<nat, Job>): set<nat> {
    set i | i in ops && ops[i].sem
  }

  predicate IsRenew(k: Kind) { k.Probe? || k.Cold? }

  predicate Reading(s: Sys, at: int) { 0 < at <= s.now }

  function OpName(op: Job): KeyState.Op {
    if op.gen then Generate else if op.kind.Warming? then Warm else Unwrap
  }

  function Busied(): Reply { Reply(0, KmsText.OK, Busy, None, 0) }

  /** What apply is given when there is no DEK to install. */
  function CallSubject(op: Job): Subject {
    if op.gen || op.dek.None? then NoDek else Held(op.dek.value)
  }

  // ---- Entry points: the manager's methods up to their first release of the lock ----

  /** What a call does at once: the tenant it leaves, a goroutine it starts or becomes, a handle it returns. */
  datatype Call = Call(t: Tenant, born: Option<Job>, handle: Option<Handle>)

  function TickCall(cfg: Config, s: Sys, at: int, due: Due): Call {
    Call(Tick(cfg, s.t, at, due),
         match due { case NoDue => None case DueProbe => Some(PROBE) case DueWarm(id) => Some(WarmOp(id)) },
         None)
  }

  function HotCall(cfg: Config, s: Sys, at: int): Call {
    if HotAnswer(cfg, s.t, at).1 then Call(s.t.(probing := true), Some(PROBE), None) else Call(s.t, None, None)
  }

  function EncryptCall(cfg: Config, s: Sys, at: int): Call {
    var (step, t') := Encrypt(cfg, s.t, at);
    match step
    case SealParked(_) => Call(t', None, None)
    case SealRefused => Call(t', None, None)
    case SealDirect => Call(t', Some(SEAL), None)
    case SealCold => Call(t', Some(COLD), None)
    case SealNow(h, kick) => Call(t', if kick then Some(PROBE) else None, Some(h))
  }

  function DecryptCall(cfg: Config, s: Sys, at: int, id: DekId): Call {
    match DecryptStep(cfg, s.t, id, at)
    case OpenDirect => Call(s.t, Some(OpenOp(id)), None)
    case OpenNow(h) => Call(s.t, None, Some(h))
    case _ => Call(s.t, None, None)
  }

  function InlineCall(cfg: Config, s: Sys, at: int, id: DekId): Call {
    Call(s.t.(probing := true), Some(if DecryptInline(cfg, s.t, id, at).InlineProbe? then PROBE else WarmOp(id)), None)
  }

  function WarmCall(cfg: Config, s: Sys, at: int, id: DekId): Call {
    Call(WarmAsked(cfg, s.t, id, at), if WarmKicks(cfg, s.t, id, at) then Some(WarmOp(id)) else None, None)
  }

  predicate EntryMay(cfg: Config, s: Sys, e: Event) {
    match e
    case Advance(to) => s.now <= to
    case Others(n) => n + |Tokens(s.ops)| <= cfg.providerInflight
    case TickEv(at, due) => Reading(s, at) && TickMay(cfg, TickBody(cfg, s.t, at), at, due)
    case HotEv(at) => Reading(s, at)
    case EncryptEv(at) => Reading(s, at)
    case EncryptInline(at) => Reading(s, at) && EncryptProbesInline(s.t, at)
    case DecryptEv(at, _) => Reading(s, at)
    case DecryptInlineEv(at, id) => Reading(s, at) && !DecryptInline(cfg, s.t, id, at).NoInline?
    case WarmEv(at, _) => Reading(s, at)
    case _ => true
  }

  function CallOf(cfg: Config, s: Sys, e: Event): Call {
    match e
    case Mode(mode) => Call(SetFetch(s.t, mode), None, None)
    case TickEv(at, due) => TickCall(cfg, s, at, due)
    case HotEv(at) => HotCall(cfg, s, at)
    case EncryptEv(at) => EncryptCall(cfg, s, at)
    case EncryptInline(at) => Call(s.t.(probing := true), Some(PROBE), None)
    case DecryptEv(at, id) => DecryptCall(cfg, s, at, id)
    case DecryptInlineEv(at, id) => InlineCall(cfg, s, at, id)
    case WarmEv(at, id) => WarmCall(cfg, s, at, id)
    case _ => Call(s.t, None, None)
  }

  function With(hs: set<Handle>, h: Option<Handle>): set<Handle> {
    if h.Some? then hs + {h.value} else hs
  }

  function Place(s: Sys, c: Call): Sys {
    var u := s.(t := c.t, handles := With(s.handles, c.handle));
    if c.born.Some? then u.(ops := u.ops[u.nextOp := c.born.value], nextOp := u.nextOp + 1) else u
  }

  /** The clock, the key's flag, the other tenants of the provider, and the manager's entry points. */
  function Entry(cfg: Config, s: Sys, e: Event): Sys {
    match e
    case Advance(to) => s.(now := to)
    case Flip(on) => if on == s.enabled then s else s.(enabled := on, revokedAt := if on then s.revokedAt else s.now)
    case Others(n) => s.(others := n)
    case _ => Place(s, CallOf(cfg, s, e))
  }

  // ---- Goroutine steps ----

  /** What a step of one goroutine does: the tenant, the goroutine itself (None: it ends), and what it leaves behind. */
  datatype Move = Move(t: Tenant, op: Option<Job>, handle: Option<Handle>, h: Hist, stored: set<DekId>,
                       flights: map<FlightKey, nat>, results: map<nat, Out>)

  function To(s: Sys, op: Job): Move {
    Move(s.t, Some(op), None, s.h, s.stored, s.flights, s.results)
  }

  /** renew's first section, or passThroughEncrypt's: what to call for. */
  function DoDecide(cfg: Config, s: Sys, op: Job, at: int): Move {
    if op.kind.SealOnce? then
      if NeedsGenerate(cfg, s.t, true, at) then To(s, op.(gen := true, key := FGenerate, pc := Entering))
      else To(s, op.(dek := s.t.active, pc := AtCap))
    else
      var gen := NeedsGenerate(cfg, s.t, op.kind.Cold?, at);
      To(s, op.(gen := gen, key := if gen then FGenerate else FActive, dek := s.t.active, pc := Entering))
  }

  /** sf.Do: join the flight in progress or lead a new one. */
  function DoEnter(s: Sys, i: nat, op: Job): Move {
    if op.key in s.flights then To(s, op.(pc := Joined(s.flights[op.key])))
    else To(s, op.(leads := true, pc := Checking)).(flights := s.flights[op.key := i])
  }

  /** The recheck inside the flight. */
  function DoCheck(cfg: Config, s: Sys, op: Job, at: int): Move {
    match op.kind
    case Warming(id) =>
      if id in s.t.deks && s.t.deks[id].prim.Some? then
        To(s, op.(pc := Landed(Plain(NoErr)))).(t := s.t.(pending := s.t.pending - {id}))
      else To(s, op.(pc := AtCap))
    case SealOnce =>
      if NeedsGenerate(cfg, s.t, true, at) then To(s, op.(pc := AtCap))
      else To(s, op.(gen := false, dek := s.t.active, pc := AtCap))
    case _ =>
      if Satisfied(cfg, s.t, op.kind.Cold?, at) then To(s, op.(pc := Landed(Plain(NoErr))))
      else To(s, op.(pc := AtCap))
  }

  /** The per-tenant cap; a naive tenant skips it and the semaphore. */
  function DoCap(cfg: Config, s: Sys, op: Job): Move {
    if s.t.fetch.Naive? then To(s, op.(pc := Sending))
    else if cfg.tenantInflight == 0 then To(s, op.(pc := AtSem))
    else if s.t.inflight >= cfg.tenantInflight then To(s, op.(pc := Applying(Busied(), CallSubject(op), s.now)))
    else To(s, op.(counted := true, pc := AtSem)).(t := s.t.(inflight := s.t.inflight + 1))
  }

  /** The provider semaphore, raced against the deadline. */
  function DoSem(s: Sys, op: Job, got: bool): Move {
    if got then To(s, op.(sem := true, pc := Sending))
    else To(s, op.(pc := Back(Reply(s.now, KmsText.Transient, Failed, None, s.now))))
  }

  /** sentAt is read after the semaphore and before the call. */
  function DoSend(s: Sys, op: Job): Move {
    To(s, op.(pc := AtKms(s.now))).(h :=
      if op.gen then s.h.(generates := s.h.generates + 1)
      else if op.leads && op.key.FActive? then s.h.(renewedAt := s.now)
      else s.h)
  }

  /** The provider: no answer, or the flag read after the latency; an OK carries the key. */
  function AnswerOf(s: Sys, op: Job, sent: int, fail: bool, key: Key): Reply
    requires op.gen || (op.dek.Some? && op.dek.value in s.t.deks)
  {
    if fail then Reply(sent, KmsText.Transient, Failed, None, s.now)
    else if !s.enabled then Reply(sent, KmsText.Deny, Failed, None, s.now)
    else Reply(sent, KmsText.OK, NoErr, Some(if op.gen then key else s.t.deks[op.dek.value].wrapped), s.now)
  }

  /** Both permits go back. */
  function DoReturn(s: Sys, op: Job, r: Reply): Move {
    var u := if op.counted && s.t.inflight > 0 then s.t.(inflight := s.t.inflight - 1) else s.t;
    var pc := if op.gen && r.err.NoErr? then Allocating(r) else Applying(r, CallSubject(op), s.now);
    To(s, op.(counted := false, sem := false, pc := pc)).(t := u)
  }

  /** A new DEK's id is drawn: the tenant's name and the next number. */
  function DoAlloc(s: Sys, i: nat, op: Job, r: Reply, at: int): Move
    requires r.prim.Some?
  {
    var n := s.t.seqNo + 1;
    var id := DekId(s.name, n);
    To(s, op.(pc := Storing(r, Fresh(id, Dek(r.prim.value, None, 0, at, 0)))))
    .(t := s.t.(seqNo := n), h := s.h.(minted := s.h.minted[id := Mint(r.prim.value, i)]))
  }

  /** PutDEK runs before apply; a store error is not a KMS outcome. */
  function DoPut(s: Sys, op: Job, r: Reply, sub: Subject, ok: bool): Move
    requires sub.Fresh?
  {
    if ok then To(s, op.(pc := Applying(r, sub, s.now))).(stored := s.stored + {sub.id})
    else To(s, op.(pc := Applying(r.(err := StoreErr), sub, s.now)))
  }

  /** What the flight, or the direct call, hands on. */
  function OutOf(op: Job, r: Reply, sub: Subject): Out {
    if op.kind.SealOnce? || op.kind.OpenOnce? then Made(if r.err.NoErr? then sub else NoDek, r) else Plain(r.err)
  }

  /** The record after one applied reply, read off the reply alone; `u` is the draw a failure's delay is made with. */
  function HistApply(cfg: Config, h: Hist, t: Tenant, sub: Subject, r: Reply, at: int, u: real): Hist {
    if r.err.Busy? || r.err.StoreErr? then h
    else match r.verdict
      case OK =>
        if r.sentAt < t.deniedAt then h.(stale := if sub.Fresh? then h.stale + {sub.id} else h.stale)
        else if sub.NoDek? then h
        else h.(failures := 0)
      case Deny => h.(failedAt := Max(h.failedAt, at), denyChecked := Max(h.denyChecked, r.checked), due := at + cfg.reprobe)
      case _ =>
        h.(failedAt := Max(h.failedAt, at), failures := h.failures + 1,
           due := at + Backoff(h.failures + 1, cfg.backoffMin, cfg.backoffMax, cfg.jitter, u))
  }

  function DelayOf(cfg: Config, t: Tenant, u: real): int {
    Backoff(t.attempt + 1, cfg.backoffMin, cfg.backoffMax, cfg.jitter, u)
  }

  function DoApply(cfg: Config, s: Sys, op: Job, at: int, u: real): Move
    requires op.pc.Applying? && Applicable(s.t, OpName(op), op.pc.s, op.pc.r)
  {
    var out := OutOf(op, op.pc.r, op.pc.s);
    To(s, op.(pc := if op.leads then Landed(out) else Finishing(out)))
    .(t := Apply(cfg, s.t, OpName(op), op.pc.s, op.pc.r, at, DelayOf(cfg, s.t, u)), h := HistApply(cfg, s.h, s.t, op.pc.s, op.pc.r, at, u))
  }

  /** The flight ends: its key is dropped and its result is there for the joiners. */
  function DoLand(s: Sys, i: nat, op: Job, out: Out): Move {
    To(s, op.(leads := false, pc := Finishing(out)))
    .(flights := s.flights - {op.key}, results := s.results[i := out], h := s.h.(led := s.h.led[i := Flight(op.kind, op.key)]))
  }

  /** A joiner takes the flight's value: a direct seal asserts it is its own kind of value, and crashes if not. */
  function DoWake(s: Sys, op: Job, out: Out): Move {
    if op.kind.SealOnce? then To(s, op.(pc := if out.Made? then Finishing(out) else Crashed))
    else To(s, op.(pc := Finishing(if out.Made? then Plain(NoErr) else out)))
  }

  function Answered(s: Sys, t: Tenant, a: SealAnswer): Move {
    Move(t, None, if a.Sealing? then Some(a.h) else None, s.h, s.stored, s.flights, s.results)
  }

  /** The last section: the probing flag, the waiter's place, or the direct call's handle. */
  function DoFinish(cfg: Config, s: Sys, op: Job, out: Out, at: int): Move
    requires op.kind.Cold? ==> s.t.waiters > 0
  {
    match op.kind
    case Probe => Answered(s, s.t.(probing := false), KeyDown)
    case Warming(_) => Answered(s, s.t.(probing := false), KeyDown)
    case Cold => ColdMove(cfg, s, if out.Plain? then out.err else NoErr, at)
    case _ => if out.Plain? then Answered(s, s.t, KeyDown) else DirectMove(cfg, s, op.kind.SealOnce?, out.s, out.r, at)
  }

  function ColdMove(cfg: Config, s: Sys, err: Err, at: int): Move
    requires s.t.waiters > 0
  {
    var (a, t') := ColdEnd(cfg, s.t, at, err);
    Answered(s, t', a)
  }

  function DirectMove(cfg: Config, s: Sys, count: bool, sub: Subject, r: Reply, at: int): Move {
    if r.err.NoErr? && sub.NoDek? then Answered(s, s.t, KeyDown)
    else
      var (a, t') := DirectEnd(cfg, s.t, if sub.NoDek? then DekId(s.name, 0) else sub.id, r, at, count);
      Answered(s, t', a)
  }

  predicate TaskMay(cfg: Config, s: Sys, op: Job, e: Event) {
    match e
    case Decide(_, at) => op.pc.Deciding? && Reading(s, at)
    case Enter(_) => op.pc.Entering?
    case Check(_, at) => op.pc.Checking? && Reading(s, at)
    case Cap(_) => op.pc.AtCap? && (op.gen || op.dek.Some?)
    case Sem(_, got) => op.pc.AtSem? && (got ==> s.others + |Tokens(s.ops)| < cfg.providerInflight)
    case Send(_) => op.pc.Sending?
    case Answer(_, _, _) => op.pc.AtKms? && (op.gen || (op.dek.Some? && op.dek.value in s.t.deks))
    case Return(_) => op.pc.Back? && (op.gen || op.dek.Some?)
    case Alloc(_, at) => op.pc.Allocating? && op.pc.r.prim.Some? && Reading(s, at)
    case Put(_, ok) => op.pc.Storing? && op.pc.s.Fresh? && (ok ==> op.pc.s.id !in s.stored)
    case ApplyEv(_, at, u) =>
      op.pc.Applying? && Applicable(s.t, OpName(op), op.pc.s, op.pc.r) && op.pc.since <= at && Reading(s, at) && 0.0 <= u < 1.0
    case Land(_) => op.pc.Landed?
    case Wake(_) => op.pc.Joined? && op.pc.leader in s.results
    case Finish(_, at) => op.pc.Finishing? && Reading(s, at) && (op.kind.Cold? ==> s.t.waiters > 0)
    case _ => false
  }

  function MoveOf(cfg: Config, s: Sys, i: nat, op: Job, e: Event): Move
    requires TaskMay(cfg, s, op, e)
  {
    match e
    case Decide(_, at) => DoDecide(cfg, s, op, at)
    case Enter(_) => DoEnter(s, i, op)
    case Check(_, at) => DoCheck(cfg, s, op, at)
    case Cap(_) => DoCap(cfg, s, op)
    case Sem(_, got) => DoSem(s, op, got)
    case Send(_) => DoSend(s, op)
    case Answer(_, fail, key) => To(s, op.(pc := Back(AnswerOf(s, op, op.pc.sentAt, fail, key))))
    case Return(_) => DoReturn(s, op, op.pc.r)
    case Alloc(_, at) => DoAlloc(s, i, op, op.pc.r, at)
    case Put(_, ok) => DoPut(s, op, op.pc.r, op.pc.s, ok)
    case ApplyEv(_, at, u) => DoApply(cfg, s, op, at, u)
    case Land(_) => DoLand(s, i, op, op.pc.out)
    case Wake(_) => DoWake(s, op, s.results[op.pc.leader])
    case Finish(_, at) => DoFinish(cfg, s, op, op.pc.out, at)
  }

  /** The steps up to and including the send. */
  predicate Asking(e: Event) { e.Decide? || e.Enter? || e.Check? || e.Cap? || e.Sem? || e.Send? }

  function Carry(s: Sys, i: nat, m: Move): Sys {
    s.(t := m.t, handles := With(s.handles, m.handle), h := m.h, stored := m.stored, flights := m.flights,
       results := m.results, ops := if m.op.Some? then s.ops[i := m.op.value] else s.ops - {i})
  }

  /** The goroutine a step belongs to; None for the clock, the flag and the entry points. */
  function Mover(e: Event): Option<nat> {
    match e
    case Decide(i, _) => Some(i)
    case Enter(i) => Some(i)
    case Check(i, _) => Some(i)
    case Cap(i) => Some(i)
    case Sem(i, _) => Some(i)
    case Send(i) => Some(i)
    case Answer(i, _, _) => Some(i)
    case Return(i) => Some(i)
    case Alloc(i, _) => Some(i)
    case Put(i, _) => Some(i)
    case ApplyEv(i, _, _) => Some(i)
    case Land(i) => Some(i)
    case Wake(i) => Some(i)
    case Finish(i, _) => Some(i)
    case _ => None
  }

  predicate Enabled(cfg: Config, s: Sys, e: Event) {
    match Mover(e)
    case None => EntryMay(cfg, s, e)
    case Some(i) => i in s.ops && TaskMay(cfg, s, s.ops[i], e)
  }

  function Next(cfg: Config, s: Sys, e: Event): Sys
    requires Enabled(cfg, s, e)
  {
    match Mover(e)
    case None => Entry(cfg, s, e)
    case Some(i) => Carry(s, i, MoveOf(cfg, s, i, s.ops[i], e))
  }

  // ---- Runs ----

  ghost predicate Legal(cfg: Config, s: Sys, es: seq<Event>)
    decreases |es|
  {
    es != [] ==> Enabled(cfg, s, es[0]) && Legal(cfg, Next(cfg, s, es[0]), es[1..])
  }

  function Run(cfg: Config, s: Sys, es: seq<Event>): Sys
    requires Legal(cfg, s, es)
    decreases |es|
  {
    if es == [] then s else Run(cfg, Next(cfg, s, es[0]), es[1..])
  }

  /** Some run from a fresh tenant, in whatever mode, leads to s. */
  ghost predicate Reachable(cfg: Config, s: Sys) {
    exists name, start, mode, es ::
      start > 0 && Legal(cfg, Start(name, start, mode), es) && Run(cfg, Start(name, start, mode), es) == s
  }
}
