/**
 Call economy: while calls succeed and the active DEK is not exhausted, consecutive renewals of a tenant in async or
 sync fetch are sent at least min(SoftTTL, TTL - Early) apart, however many requests, sweeps, probes and cold callers
 there are. Being turned away by the tenant's own cap is not a failed call and is allowed.
 */
module Economy {
  import opened Prelude
  import opened Envelope
  import opened KeyState
  import opened Protocol
  import opened Steps
  import opened Structure
  import opened References
  import opened Permits

  function Gap(cfg: Config): int { Min(cfg.soft, cfg.ttl - cfg.early) }

  // ---- The circumstances ----

  predicate Unworn(cfg: Config, t: Tenant, at: int) {
    var d := ActiveDek(t);
    d.Some? ==> !Exhausted(cfg, d.value, at)
  }

  predicate Steady(cfg: Config, s: Sys, e: Event) {
    match e
    case Mode(mode) => mode.Async? || mode.Sync?
    case Decide(_, at) => Unworn(cfg, s.t, at)
    case Check(_, at) => Unworn(cfg, s.t, at)
    case Sem(_, got) => got
    case Answer(_, fail, _) => !fail && s.enabled
    case _ => true
  }

  ghost predicate SteadyRun(cfg: Config, s: Sys, es: seq<Event>)
    decreases |es|
  {
    es != [] ==> Enabled(cfg, s, es[0]) && Steady(cfg, s, es[0]) && SteadyRun(cfg, Next(cfg, s, es[0]), es[1..])
  }

  // ---- The invariant ----

  predicate Good(t: Tenant, r: Reply) { r.err.NoErr? && t.deniedAt <= r.sentAt }

  predicate RenewalAtWork(op: Job) { op.leads && op.key.FActive? }

  /** One goroutine: it never generates, a renewal is for the active DEK, and it was due when it was let through. */
  predicate OpSteady(cfg: Config, now: int, t: Tenant, h: Hist, op: Job) {
    && !DirectKind(op.kind) && !op.gen
    && (IsRenew(op.kind) && !op.pc.Deciding? ==> op.dek == t.active)
    && (RenewalAtWork(op) && (op.pc.AtCap? || op.pc.AtSem? || op.pc.Sending?) ==> h.renewedAt + Gap(cfg) <= now)
    && match op.pc
       case AtKms(sentAt) => t.deniedAt <= sentAt && (RenewalAtWork(op) ==> sentAt == h.renewedAt)
       case Back(r) => Good(t, r) && (RenewalAtWork(op) ==> r.sentAt == h.renewedAt)
       case Applying(r, _, _) => r.err.Busy? || (Good(t, r) && (RenewalAtWork(op) ==> r.sentAt == h.renewedAt))
       case _ => true
  }

  predicate InTheAir(pc: Pc) { pc.AtKms? || pc.Back? || (pc.Applying? && !pc.r.err.Busy?) }

  /** A renewal has been sent and not applied yet. */
  predicate Outstanding(s: Sys) {
    FActive in s.flights && s.flights[FActive] in s.ops && InTheAir(s.ops[s.flights[FActive]].pc)
  }

  /** The latest renewal is in the lease; if its key went cold since, the lease it gave has run out. */
  predicate Settled(cfg: Config, now: int, t: Tenant, h: Hist) {
    && t.active.Some? && t.active.value in t.deks
    && h.renewedAt <= t.sentAt
    && (t.deks[t.active.value].prim.Some? || h.renewedAt + Gap(cfg) <= now)
  }

  predicate Calm(s: Sys) {
    && !Direct(s.t) && s.t.state.Active? && s.t.active.Some? && s.t.active.value in s.t.deks
    && 0 < s.t.sentAt && s.t.deniedAt <= s.now
  }

  ghost predicate Thrifty(cfg: Config, s: Sys) {
    && Calm(s) && s.h.renewedAt <= s.now
    && (forall i | i in s.ops :: OpSteady(cfg, s.now, s.t, s.h, s.ops[i]))
    && (Outstanding(s) || Settled(cfg, s.now, s.t, s.h))
  }

  // ---- Entry points ----

  /** What an entry point may do: nothing to the lease; a sweep may empty the cache once the lease has run out. */
  predicate Mild(cfg: Config, now: int, t: Tenant, u: Tenant) {
    && !Direct(u) && u.state.Active? && u.active == t.active && u.deks.Keys == t.deks.Keys
    && u.sentAt == t.sentAt && u.deniedAt == t.deniedAt
    && (t.active.Some? && t.active.value in t.deks && t.deks[t.active.value].prim.Some? ==>
          u.deks[t.active.value].prim.Some? || t.sentAt + cfg.ttl - cfg.early <= now)
  }

  lemma TickMild(cfg: Config, t: Tenant, at: int, now: int, due: Due)
    requires !Direct(t) && t.state.Active? && at <= now && 0 < t.sentAt
    ensures Mild(cfg, now, t, Tick(cfg, t, at, due))
  {
    var l := TickLapse(cfg, t, at);
    assert Mild(cfg, now, t, l);
  }

  lemma EncryptMild(cfg: Config, s: Sys, at: int)
    requires Calm(s)
    ensures Mild(cfg, s.now, s.t, EncryptCall(cfg, s, at).t)
  {
  }

  lemma CallMild(cfg: Config, s: Sys, e: Event)
    requires Calm(s) && EntryMay(cfg, s, e) && Steady(cfg, s, e)
    ensures Mild(cfg, s.now, s.t, CallOf(cfg, s, e).t)
  {
    match e
    case TickEv(at, due) => TickMild(cfg, s.t, at, s.now, due);
    case EncryptEv(at) => EncryptMild(cfg, s, at);
    case _ =>
  }

  lemma BornSteady(cfg: Config, s: Sys, e: Event)
    requires Calm(s)
    ensures var c := CallOf(cfg, s, e); c.born.Some? ==> OpSteady(cfg, s.now, s.t, s.h, c.born.value)
  {
    if e.EncryptEv? { EncryptBorn(cfg, s, e.at); }
  }

  lemma EncryptBorn(cfg: Config, s: Sys, at: int)
    requires Calm(s)
    ensures var c := EncryptCall(cfg, s, at); c.born.Some? ==> c.born.value == PROBE || c.born.value == COLD
  {
  }

  lemma PlaceThrifty(cfg: Config, s: Sys, c: Call)
    requires Thrifty(cfg, s) && Flying(s) && Mild(cfg, s.now, s.t, c.t)
    requires c.born.Some? ==> OpSteady(cfg, s.now, s.t, s.h, c.born.value)
    ensures Thrifty(cfg, Place(s, c))
  {
  }

  lemma EntryThrifty(cfg: Config, s: Sys, e: Event)
    requires Thrifty(cfg, s) && Flying(s) && EntryMay(cfg, s, e) && Steady(cfg, s, e)
    ensures Thrifty(cfg, Entry(cfg, s, e))
  {
    CallMild(cfg, s, e);
    BornSteady(cfg, s, e);
    PlaceThrifty(cfg, s, CallOf(cfg, s, e));
  }

  // ---- Goroutine steps ----

  /** The tenant stays calm, on the same active DEK. */
  predicate StaysCalm(s: Sys, m: Move) {
    && !Direct(m.t) && m.t.state.Active? && m.t.active == s.t.active && s.t.deks.Keys <= m.t.deks.Keys
    && s.t.sentAt <= m.t.sentAt && m.t.deniedAt == s.t.deniedAt
    && (s.t.active.Some? && s.t.active.value in s.t.deks && s.t.deks[s.t.active.value].prim.Some? ==>
          m.t.deks[s.t.active.value].prim.Some?)
  }

  /** A step that leaves the renewal in the air where it is. */
  predicate SameAir(s: Sys, i: nat, op: Job, m: Move) {
    && m.h.renewedAt == s.h.renewedAt
    && (FActive in s.flights && s.flights[FActive] != i ==> FActive in m.flights && m.flights[FActive] == s.flights[FActive])
    && (FActive in s.flights && s.flights[FActive] == i && InTheAir(op.pc) ==>
          FActive in m.flights && m.flights[FActive] == i && m.op.Some? && InTheAir(m.op.value.pc))
  }

  predicate Takes(s: Sys, i: nat, m: Move) {
    FActive in m.flights && m.flights[FActive] == i && m.op.Some? && InTheAir(m.op.value.pc)
  }

  ghost predicate StaysThrifty(cfg: Config, s: Sys, i: nat, op: Job, m: Move) {
    && StaysCalm(s, m) && (m.h.renewedAt == s.h.renewedAt || m.h.renewedAt == s.now)
    && (m.op.Some? ==> OpSteady(cfg, s.now, m.t, m.h, m.op.value))
    && (m.h.renewedAt == s.h.renewedAt || RenewalAtWork(op))
    && (SameAir(s, i, op, m) || Takes(s, i, m) || Settled(cfg, s.now, m.t, m.h))
  }

  lemma OtherSteady(cfg: Config, s: Sys, i: nat, m: Move, j: nat)
    requires Thrifty(cfg, s) && Flying(s) && i in s.ops && j in s.ops && j != i && StaysThrifty(cfg, s, i, s.ops[i], m)
    ensures OpSteady(cfg, s.now, m.t, m.h, s.ops[j])
  {
  }

  lemma AirKept(cfg: Config, s: Sys, i: nat, m: Move)
    requires Thrifty(cfg, s) && Flying(s) && i in s.ops && StaysThrifty(cfg, s, i, s.ops[i], m)
    ensures Outstanding(Carry(s, i, m)) || Settled(cfg, s.now, m.t, m.h)
  {
  }

  lemma CarryThrifty(cfg: Config, s: Sys, i: nat, m: Move)
    requires Thrifty(cfg, s) && Flying(s) && i in s.ops && StaysThrifty(cfg, s, i, s.ops[i], m)
    ensures Thrifty(cfg, Carry(s, i, m))
  {
    AirKept(cfg, s, i, m);
    forall j | j in s.ops && j != i ensures OpSteady(cfg, s.now, m.t, m.h, s.ops[j]) { OtherSteady(cfg, s, i, m, j); }
  }

  lemma DecideSteady(cfg: Config, s: Sys, i: nat, op: Job, at: int)
    requires Calm(s) && OpSteady(cfg, s.now, s.t, s.h, op) && op.pc.Deciding? && Unworn(cfg, s.t, at) && !op.leads
    requires FActive in s.flights ==> s.flights[FActive] != i
    ensures StaysThrifty(cfg, s, i, op, DoDecide(cfg, s, op, at))
  {
    assert !NeedsGenerate(cfg, s.t, op.kind.Cold?, at);
  }

  lemma EnterSteady(cfg: Config, s: Sys, i: nat, op: Job)
    requires Calm(s) && OpSteady(cfg, s.now, s.t, s.h, op) && op.pc.Entering? && !op.leads
    requires FActive in s.flights ==> s.flights[FActive] != i
    ensures StaysThrifty(cfg, s, i, op, DoEnter(s, i, op))
  {
  }

  /** The recheck lets a renewal through only when it is due. */
  lemma UnsatisfiedIsDue(cfg: Config, s: Sys, cold: bool, at: int)
    requires Calm(s) && Settled(cfg, s.now, s.t, s.h) && at <= s.now && Unworn(cfg, s.t, at) && !Satisfied(cfg, s.t, cold, at)
    ensures s.h.renewedAt + Gap(cfg) <= s.now
  {
  }

  lemma CheckSteady(cfg: Config, s: Sys, i: nat, op: Job, at: int)
    requires Calm(s) && OpSteady(cfg, s.now, s.t, s.h, op) && op.pc.Checking? && Unworn(cfg, s.t, at) && at <= s.now
    requires Shape(op) && (op.key == FActive ==> Settled(cfg, s.now, s.t, s.h))
    ensures StaysThrifty(cfg, s, i, op, DoCheck(cfg, s, op, at))
  {
    if IsRenew(op.kind) && !Satisfied(cfg, s.t, op.kind.Cold?, at) { UnsatisfiedIsDue(cfg, s, op.kind.Cold?, at); }
  }

  lemma BusySteady(cfg: Config, s: Sys, i: nat, op: Job)
    requires Calm(s) && OpSteady(cfg, s.now, s.t, s.h, op) && op.pc.AtCap?
    ensures StaysThrifty(cfg, s, i, op, To(s, op.(pc := Applying(Busied(), CallSubject(op), s.now))))
    ensures StaysThrifty(cfg, s, i, op, To(s, op.(pc := AtSem)))
  {
  }

  lemma CapSteady(cfg: Config, s: Sys, i: nat, op: Job)
    requires Calm(s) && OpSteady(cfg, s.now, s.t, s.h, op) && op.pc.AtCap?
    ensures StaysThrifty(cfg, s, i, op, DoCap(cfg, s, op))
  {
    BusySteady(cfg, s, i, op);
    if 0 < cfg.tenantInflight && s.t.inflight < cfg.tenantInflight {
      var u := s.t.(inflight := s.t.inflight + 1);
      assert DoCap(cfg, s, op) == To(s, op.(counted := true, pc := AtSem)).(t := u);
    }
  }

  lemma SendSteady(cfg: Config, s: Sys, i: nat, op: Job)
    requires Calm(s) && OpSteady(cfg, s.now, s.t, s.h, op) && op.pc.Sending?
    requires RenewalAtWork(op) ==> FActive in s.flights && s.flights[FActive] == i
    ensures StaysThrifty(cfg, s, i, op, DoSend(s, op))
  {
  }

  lemma AskSteady(cfg: Config, s: Sys, i: nat, op: Job, e: Event)
    requires Calm(s) && OpSteady(cfg, s.now, s.t, s.h, op) && Shape(op) && TaskMay(cfg, s, op, e) && Asking(e) && Steady(cfg, s, e)
    requires op.leads ==> op.key in s.flights && s.flights[op.key] == i
    requires !op.leads && FActive in s.flights ==> s.flights[FActive] != i
    requires op.pc.Checking? && op.key == FActive ==> Settled(cfg, s.now, s.t, s.h)
    ensures StaysThrifty(cfg, s, i, op, MoveOf(cfg, s, i, op, e))
  {
    match e
    case Decide(_, at) => DecideSteady(cfg, s, i, op, at);
    case Enter(_) => EnterSteady(cfg, s, i, op);
    case Check(_, at) => CheckSteady(cfg, s, i, op, at);
    case Cap(_) => CapSteady(cfg, s, i, op);
    case Send(_) => SendSteady(cfg, s, i, op);
    case _ =>
  }

  lemma AnswerSteady(cfg: Config, s: Sys, i: nat, op: Job, e: Event)
    requires Calm(s) && OpSteady(cfg, s.now, s.t, s.h, op) && TaskMay(cfg, s, op, e) && e.Answer? && Steady(cfg, s, e)
    ensures StaysThrifty(cfg, s, i, op, MoveOf(cfg, s, i, op, e))
  {
  }

  lemma ReturnSteady(cfg: Config, s: Sys, i: nat, op: Job, e: Event)
    requires Calm(s) && OpSteady(cfg, s.now, s.t, s.h, op) && TaskMay(cfg, s, op, e) && e.Return?
    ensures StaysThrifty(cfg, s, i, op, MoveOf(cfg, s, i, op, e))
  {
  }

  lemma LandSteady(cfg: Config, s: Sys, i: nat, op: Job, e: Event)
    requires Calm(s) && OpSteady(cfg, s.now, s.t, s.h, op) && TaskMay(cfg, s, op, e) && e.Land? && op.leads
    requires FActive in s.flights && s.flights[FActive] != i ==> op.key != FActive
    ensures StaysThrifty(cfg, s, i, op, MoveOf(cfg, s, i, op, e))
  {
  }

  lemma WakeSteady(cfg: Config, s: Sys, i: nat, op: Job, out: Out)
    requires Calm(s) && OpSteady(cfg, s.now, s.t, s.h, op) && op.pc.Joined?
    ensures StaysThrifty(cfg, s, i, op, DoWake(s, op, out))
  {
  }

  lemma FinishSteady(cfg: Config, s: Sys, i: nat, op: Job, out: Out, at: int)
    requires Calm(s) && OpSteady(cfg, s.now, s.t, s.h, op) && op.pc.Finishing? && (op.kind.Cold? ==> s.t.waiters > 0)
    ensures StaysThrifty(cfg, s, i, op, DoFinish(cfg, s, op, out, at))
  {
  }

  /** An answer lands in the lease; a renewal also in the active DEK. */
  lemma ApplySteady(cfg: Config, s: Sys, i: nat, op: Job, e: Event)
    requires Calm(s) && OpSteady(cfg, s.now, s.t, s.h, op) && Shape(op) && TaskMay(cfg, s, op, e) && e.ApplyEv?
    requires op.leads ==> op.key in s.flights && s.flights[op.key] == i
    requires FActive in s.flights && s.flights[FActive] == i ==> RenewalAtWork(op)
    ensures StaysThrifty(cfg, s, i, op, MoveOf(cfg, s, i, op, e))
  {
  }

  lemma SettleSteady(cfg: Config, s: Sys, i: nat, op: Job, e: Event)
    requires Calm(s) && OpSteady(cfg, s.now, s.t, s.h, op) && Shape(op) && TaskMay(cfg, s, op, e) && Settling(e) && Steady(cfg, s, e)
    requires op.leads ==> op.key in s.flights && s.flights[op.key] == i
    ensures StaysThrifty(cfg, s, i, op, MoveOf(cfg, s, i, op, e))
  {
    match e
    case Answer(_, _, _) => AnswerSteady(cfg, s, i, op, e);
    case Return(_) => ReturnSteady(cfg, s, i, op, e);
    case Land(_) => LandSteady(cfg, s, i, op, e);
    case Wake(_) => WakeSteady(cfg, s, i, op, s.results[op.pc.leader]);
    case _ =>
  }

  /** Where goroutine i stands among the flights. */
  predicate Stands(cfg: Config, s: Sys, i: nat, op: Job) {
    && Calm(s) && Shape(op) && OpSteady(cfg, s.now, s.t, s.h, op)
    && (op.leads ==> op.key in s.flights && s.flights[op.key] == i)
    && (FActive in s.flights && s.flights[FActive] == i ==> RenewalAtWork(op))
    && (op.pc.Checking? && op.key == FActive ==> Settled(cfg, s.now, s.t, s.h))
  }

  lemma StandsSomewhere(cfg: Config, s: Sys, i: nat)
    requires Sound(cfg, s) && Thrifty(cfg, s) && i in s.ops
    ensures Stands(cfg, s, i, s.ops[i])
  {
  }

  lemma MoveThrifty(cfg: Config, s: Sys, i: nat, op: Job, e: Event)
    requires Stands(cfg, s, i, op) && TaskMay(cfg, s, op, e) && Steady(cfg, s, e)
    ensures StaysThrifty(cfg, s, i, op, MoveOf(cfg, s, i, op, e))
  {
    if Asking(e) { AskSteady(cfg, s, i, op, e); }
    else if Settling(e) { SettleSteady(cfg, s, i, op, e); }
    else if e.ApplyEv? { ApplySteady(cfg, s, i, op, e); }
    else { FinishSteady(cfg, s, i, op, op.pc.out, e.at); }
  }

  ghost predicate Frugal(cfg: Config, s: Sys) { Sound(cfg, s) && Thrifty(cfg, s) }

  lemma StepThrifty(cfg: Config, s: Sys, e: Event)
    requires Frugal(cfg, s) && Enabled(cfg, s, e) && Steady(cfg, s, e)
    ensures Thrifty(cfg, Next(cfg, s, e))
  {
    match Mover(e)
    case None => EntryThrifty(cfg, s, e);
    case Some(i) =>
      StandsSomewhere(cfg, s, i);
      MoveThrifty(cfg, s, i, s.ops[i], e);
      CarryThrifty(cfg, s, i, MoveOf(cfg, s, i, s.ops[i], e));
  }

  lemma StepFrugal(cfg: Config, s: Sys, e: Event)
    requires Frugal(cfg, s) && Enabled(cfg, s, e) && Steady(cfg, s, e)
    ensures Frugal(cfg, Next(cfg, s, e))
  {
    StepSound(cfg, s, e);
    StepThrifty(cfg, s, e);
  }

  // ---- The claims ----

  /** The step that sends a renewal: an unwrap of the active-key flight. */
  predicate SendsRenewal(s: Sys, e: Event) {
    e.Send? && e.i in s.ops && RenewalAtWork(s.ops[e.i]) && !s.ops[e.i].gen
  }

  /** A renewal is sent no sooner than the gap after the one before. */
  lemma RenewalsApart(cfg: Config, s: Sys, e: Event)
    requires Frugal(cfg, s) && Enabled(cfg, s, e)
    ensures SendsRenewal(s, e) ==> s.h.renewedAt + Gap(cfg) <= s.now && Next(cfg, s, e).h.renewedAt == s.now
  {
  }

  function Renewals(cfg: Config, s: Sys, es: seq<Event>): nat
    requires Legal(cfg, s, es)
    decreases |es|
  {
    if es == [] then 0
    else One(SendsRenewal(s, es[0])) + Renewals(cfg, Next(cfg, s, es[0]), es[1..])
  }

  lemma {:induction false} SteadyLegal(cfg: Config, s: Sys, es: seq<Event>)
    requires SteadyRun(cfg, s, es)
    ensures Legal(cfg, s, es)
    decreases |es|
  {
    if es != [] { SteadyLegal(cfg, Next(cfg, s, es[0]), es[1..]); }
  }

  lemma OtherStepsKeepTheDate(cfg: Config, s: Sys, i: nat, op: Job, e: Event)
    requires TaskMay(cfg, s, op, e) && !e.Send?
    ensures MoveOf(cfg, s, i, op, e).h.renewedAt == s.h.renewedAt
  {
    if e.Check? { CheckKeepsDate(cfg, s, op, e.at); }
    else if e.Cap? { CapKeepsDate(cfg, s, op); }
    else if Settling(e) { SettleOnly(cfg, s, i, op, e); }
    else if e.Finish? { FinishKeepsDate(cfg, s, op, op.pc.out, e.at); }
  }

  lemma CheckKeepsDate(cfg: Config, s: Sys, op: Job, at: int)
    ensures DoCheck(cfg, s, op, at).h == s.h
  {
  }

  lemma CapKeepsDate(cfg: Config, s: Sys, op: Job)
    ensures DoCap(cfg, s, op).h == s.h
  {
  }

  lemma FinishKeepsDate(cfg: Config, s: Sys, op: Job, out: Out, at: int)
    requires op.kind.Cold? ==> s.t.waiters > 0
    ensures DoFinish(cfg, s, op, out, at).h == s.h
  {
  }

  lemma MoveKeepsDate(cfg: Config, s: Sys, i: nat, op: Job, e: Event)
    requires TaskMay(cfg, s, op, e) && !(e.Send? && RenewalAtWork(op) && !op.gen)
    ensures MoveOf(cfg, s, i, op, e).h.renewedAt == s.h.renewedAt
  {
    if !e.Send? { OtherStepsKeepTheDate(cfg, s, i, op, e); }
  }

  lemma OthersKeepTheDate(cfg: Config, s: Sys, e: Event)
    requires Enabled(cfg, s, e) && !SendsRenewal(s, e)
    ensures Next(cfg, s, e).h.renewedAt == s.h.renewedAt
  {
    if Mover(e).Some? { MoveKeepsDate(cfg, s, Mover(e).value, s.ops[Mover(e).value], e); }
  }

  function Cost(cfg: Config, s: Sys, e: Event): int { if SendsRenewal(s, e) then Gap(cfg) else 0 }

  /** One step: a renewal costs a gap, nothing else moves the date. */
  lemma StepTakesTime(cfg: Config, s: Sys, e: Event)
    requires Frugal(cfg, s) && Enabled(cfg, s, e)
    ensures s.h.renewedAt + Cost(cfg, s, e) <= Next(cfg, s, e).h.renewedAt
  {
    if SendsRenewal(s, e) { RenewalsApart(cfg, s, e); } else { OthersKeepTheDate(cfg, s, e); }
  }

  /** What the renewals of a run cost in all. */
  function Bill(cfg: Config, s: Sys, es: seq<Event>): int
    requires Legal(cfg, s, es)
    decreases |es|
  {
    if es == [] then 0 else Cost(cfg, s, es[0]) + Bill(cfg, Next(cfg, s, es[0]), es[1..])
  }

  lemma {:induction false} BillPaid(cfg: Config, s: Sys, es: seq<Event>)
    requires Frugal(cfg, s) && SteadyRun(cfg, s, es) && Legal(cfg, s, es)
    ensures s.h.renewedAt + Bill(cfg, s, es) <= Run(cfg, s, es).h.renewedAt
    decreases |es|
  {
    if es != [] {
      var u := Next(cfg, s, es[0]);
      FirstTakesTime(cfg, s, es[0]);
      BillPaid(cfg, u, es[1..]);
    }
  }

  lemma {:induction false} BillIs(cfg: Config, s: Sys, es: seq<Event>)
    requires Legal(cfg, s, es)
    ensures Bill(cfg, s, es) == Renewals(cfg, s, es) * Gap(cfg)
    decreases |es|
  {
    if es != [] {
      BillIs(cfg, Next(cfg, s, es[0]), es[1..]);
      OneMore(Renewals(cfg, Next(cfg, s, es[0]), es[1..]), Gap(cfg));
    }
  }

  lemma {:induction false} RunFrugal(cfg: Config, s: Sys, es: seq<Event>)
    requires Frugal(cfg, s) && SteadyRun(cfg, s, es) && Legal(cfg, s, es)
    ensures Frugal(cfg, Run(cfg, s, es))
    decreases |es|
  {
    if es != [] {
      StepFrugal(cfg, s, es[0]);
      RunFrugal(cfg, Next(cfg, s, es[0]), es[1..]);
    }
  }

  /** An ACTIVE cached tenant with its DEK, nobody at work on it, its last renewal in the lease. */
  ghost predicate AtRest(cfg: Config, s: Sys) {
    Sound(cfg, s) && s.ops == map[] && Calm(s) && s.h.renewedAt <= s.now && Settled(cfg, s.now, s.t, s.h)
  }

  /** So n renewals take n gaps, however many requests there are in between. */
  lemma RenewalsTakeTime(cfg: Config, s: Sys, es: seq<Event>)
    requires AtRest(cfg, s) && SteadyRun(cfg, s, es) && Legal(cfg, s, es)
    ensures Renewals(cfg, s, es) * Gap(cfg) <= Run(cfg, s, es).now - s.h.renewedAt
  {
    RunFrugal(cfg, s, es);
    BillPaid(cfg, s, es);
    BillIs(cfg, s, es);
  }

  /** And each single renewal is sent at least a gap after the one before it. */
  lemma RenewalsNeverCloser(cfg: Config, s: Sys, es: seq<Event>, e: Event)
    requires AtRest(cfg, s) && SteadyRun(cfg, s, es) && Legal(cfg, s, es)
    requires Enabled(cfg, Run(cfg, s, es), e) && SendsRenewal(Run(cfg, s, es), e)
    ensures var u := Run(cfg, s, es); u.h.renewedAt + Gap(cfg) <= u.now && Next(cfg, u, e).h.renewedAt == u.now
  {
    RunFrugal(cfg, s, es);
    RenewalsApart(cfg, Run(cfg, s, es), e);
  }

  lemma FirstTakesTime(cfg: Config, s: Sys, e: Event)
    requires Frugal(cfg, s) && Enabled(cfg, s, e) && Steady(cfg, s, e)
    ensures Frugal(cfg, Next(cfg, s, e)) && s.h.renewedAt + Cost(cfg, s, e) <= Next(cfg, s, e).h.renewedAt
  {
    StepFrugal(cfg, s, e);
    StepTakesTime(cfg, s, e);
  }

  lemma OneMore(n: nat, g: int)
    ensures (1 + n) * g == n * g + g
  {
  }
}
