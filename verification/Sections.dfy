/**
 What each section answers and leaves behind, on the tenant's own fields: when a handle is given and what is in it, what is
 refused and why, when a call is started, when a key goes cold. Every answer has its exact condition, written out here and
 not through the functions of KeyState.dfy that the sections are.
 */
module Sections {
  import opened Prelude
  import opened Envelope
  import opened KeyState
  import opened Protocol
  import opened Structure
  import S = Steps
  import R = References
  import KmsText

  // ---- The vocabulary: fields and configured durations only ----

  predicate Leased(cfg: Config, t: Tenant, at: int) {
    t.sentAt != 0 && at < t.sentAt + cfg.ttl - cfg.early
  }

  predicate Renewable(cfg: Config, t: Tenant, at: int) { t.sentAt + cfg.soft <= at }

  predicate Caching(t: Tenant) { t.fetch.Async? || t.fetch.Sync? }

  predicate Serving(t: Tenant) { t.state.Active? || t.state.RidingThrough? }

  predicate InTheClear(t: Tenant, id: DekId) { id in t.deks && t.deks[id].prim.Some? }

  predicate WornOut(cfg: Config, d: Dek, at: int) {
    cfg.dekMaxMessages <= d.msgs || cfg.dekMaxAge <= at - d.createdAt
  }

  /** The handle on DEK id: its key, and the instant the lease ends. */
  function HandleFor(cfg: Config, t: Tenant, id: DekId): Handle
    requires id in t.deks
  {
    Handle(id, t.sentAt + cfg.ttl - cfg.early, Some(t.deks[id].wrapped))
  }

  // ---- DecryptKey ----

  predicate GivesOpen(cfg: Config, t: Tenant, id: DekId, at: int) {
    Caching(t) && Serving(t) && InTheClear(t, id) && Leased(cfg, t, at)
  }

  lemma OpenGives(cfg: Config, s: Sys, at: int, id: DekId)
    requires R.KeyedTenant(s.h.minted, s.t, s.stored)
    ensures var c := DecryptCall(cfg, s, at, id);
            && c.t == s.t
            && c.handle == (if GivesOpen(cfg, s.t, id, at) then Some(HandleFor(cfg, s.t, id)) else None)
            && c.born == if id in s.t.deks && Serving(s.t) && !Caching(s.t) then Some(OpenOp(id)) else None
  {
  }

  /** With the cache, a handle exactly when the DEK is hot, the tenant serves and the lease holds; without, a direct call. */
  lemma DecryptKeyGives(cfg: Config, s: Sys, at: int, id: DekId)
    requires Reachable(cfg, s)
    ensures var u := Entry(cfg, s, DecryptEv(at, id));
            && u.t == s.t
            && u.handles == (if GivesOpen(cfg, s.t, id, at) then s.handles + {HandleFor(cfg, s.t, id)} else s.handles)
            && u.ops == if id in s.t.deks && Serving(s.t) && !Caching(s.t) then s.ops[s.nextOp := OpenOp(id)] else s.ops
  {
    R.ReachableKeyed(cfg, s);
    OpenGives(cfg, s, at, id);
  }

  /** Each refusal and its condition. */
  lemma DecryptKeyRefuses(cfg: Config, t: Tenant, at: int, id: DekId)
    ensures DecryptStep(cfg, t, id, at).OpenPoison? <==> id !in t.deks
    ensures DecryptStep(cfg, t, id, at).OpenRevoked? <==> id in t.deks && t.state.Revoked?
    ensures DecryptStep(cfg, t, id, at).OpenExpired? <==>
              id in t.deks && (t.state.KeyUnavailable? || (Serving(t) && Caching(t) && !Leased(cfg, t, at)))
    ensures DecryptStep(cfg, t, id, at).OpenCold? <==>
              id in t.deks && Serving(t) && Caching(t) && Leased(cfg, t, at) && !InTheClear(t, id)
    ensures DecryptStep(cfg, t, id, at).OpenDirect? <==> id in t.deks && Serving(t) && !Caching(t)
    ensures DecryptStep(cfg, t, id, at).OpenNow? <==> GivesOpen(cfg, t, id, at)
  {
  }

  predicate OwesProbe(cfg: Config, t: Tenant, at: int) {
    if t.state.Active? then Renewable(cfg, t, at) else t.nextProbeAt <= at
  }

  /** In sync fetch the caller first renews, probes or warms, one at a time. */
  lemma DecryptKeyInline(cfg: Config, t: Tenant, at: int, id: DekId)
    ensures var step := DecryptInline(cfg, t, id, at); var may := id in t.deks && t.fetch.Sync? && !t.probing;
            && (step.InlineProbe? <==> may && OwesProbe(cfg, t, at))
            && (step.InlineWarm? <==> may && !OwesProbe(cfg, t, at) && Serving(t) && Leased(cfg, t, at) && !InTheClear(t, id))
  {
  }

  // ---- EncryptKey ----

  predicate GivesSeal(cfg: Config, t: Tenant, at: int) {
    && Caching(t) && Serving(t) && Leased(cfg, t, at)
    && t.active.Some? && InTheClear(t, t.active.value) && !(t.state.Active? && WornOut(cfg, t.deks[t.active.value], at))
  }

  /** The lazy renewal of a hot, ACTIVE tenant in async fetch. */
  predicate KicksRenewal(cfg: Config, t: Tenant, at: int) {
    t.state.Active? && t.fetch.Async? && !t.probing && Renewable(cfg, t, at)
  }

  predicate GoesCold(cfg: Config, t: Tenant, at: int) {
    Caching(t) && Serving(t) && !GivesSeal(cfg, t, at) && t.waiters < cfg.ingestWaiters
  }

  /** Which goroutine EncryptKey starts or becomes: a renewal, a cold fetch, a direct call, or none. */
  function Starts(cfg: Config, t: Tenant, at: int): Option<Job> {
    if Serving(t) && !Caching(t) then Some(SEAL)
    else if GivesSeal(cfg, t, at) && KicksRenewal(cfg, t, at) then Some(PROBE)
    else if GoesCold(cfg, t, at) then Some(COLD)
    else None
  }

  lemma SealGives(cfg: Config, s: Sys, at: int)
    requires R.KeyedTenant(s.h.minted, s.t, s.stored)
    ensures EncryptCall(cfg, s, at).handle ==
              if GivesSeal(cfg, s.t, at) then Some(HandleFor(cfg, s.t, s.t.active.value)) else None
  {
  }

  /** A handle at once exactly when the active DEK is hot, leased and, while ACTIVE, not worn out. */
  lemma EncryptKeyGives(cfg: Config, s: Sys, at: int)
    requires Reachable(cfg, s)
    ensures var u := Entry(cfg, s, EncryptEv(at));
            u.handles == if GivesSeal(cfg, s.t, at) then s.handles + {HandleFor(cfg, s.t, s.t.active.value)} else s.handles
  {
    R.ReachableKeyed(cfg, s);
    SealGives(cfg, s, at);
  }

  lemma EncryptKeyStarts(cfg: Config, s: Sys, at: int)
    ensures var c := CallOf(cfg, s, EncryptEv(at));
            && c.born == Starts(cfg, s.t, at)
            && c.t.waiters == s.t.waiters + (if GoesCold(cfg, s.t, at) then 1 else 0)
            && c.t.probing == (s.t.probing || (GivesSeal(cfg, s.t, at) && KicksRenewal(cfg, s.t, at)))
  {
  }

  lemma EncryptKeyRefuses(cfg: Config, t: Tenant, at: int)
    ensures var step := Encrypt(cfg, t, at).0;
            && (step == SealParked(true) <==> t.state.Revoked?)
            && (step == SealParked(false) <==> t.state.KeyUnavailable?)
            && (step.SealRefused? <==> Caching(t) && Serving(t) && !GivesSeal(cfg, t, at) && cfg.ingestWaiters <= t.waiters)
  {
  }

  lemma EncryptKeyInline(t: Tenant, at: int)
    ensures EncryptProbesInline(t, at) <==> t.fetch.Sync? && !t.probing && !t.state.Active? && t.nextProbeAt <= at
  {
  }

  /** As GivesSeal for a cold caller, who is past the parked states' refusal. */
  predicate GivesColdly(cfg: Config, t: Tenant, at: int) {
    && Caching(t) && !t.state.Revoked? && Leased(cfg, t, at)
    && t.active.Some? && InTheClear(t, t.active.value) && !(t.state.Active? && WornOut(cfg, t.deks[t.active.value], at))
  }

  /** The cold path's end: the deny first, then a handle if one can be given now, then the store's failure, then no key. */
  lemma ColdPathAnswers(cfg: Config, t: Tenant, at: int, err: Err)
    requires t.waiters > 0
    ensures var (a, u) := ColdEnd(cfg, t, at, err);
            && u.waiters == t.waiters - 1
            && (a.KeyRevoked? <==> t.state.Revoked?)
            && (a.Sealing? <==> GivesColdly(cfg, t, at))
            && (a.StoreFailed? <==> !t.state.Revoked? && !GivesColdly(cfg, t, at) && err.StoreErr?)
  {
  }

  /** A direct call's end: the same order, on the call's own reply. */
  lemma DirectAnswers(cfg: Config, t: Tenant, id: DekId, r: Reply, at: int, count: bool)
    ensures var a := DirectEnd(cfg, t, id, r, at, count).0;
            && (a.Sealing? <==> r.err.NoErr? && !t.state.Revoked? && Leased(cfg, t, at))
            && (a.Sealing? ==> a.h == Handle(id, t.sentAt + cfg.ttl - cfg.early, r.prim))
            && (a.KeyRevoked? <==> if r.err.NoErr? then t.state.Revoked? else r.verdict.Deny?)
            && (a.StoreFailed? <==> r.err.StoreErr? && !r.verdict.Deny?)
  {
  }

  // ---- Flights ----

  function One(b: bool): int { if b then 1 else 0 }

  /** The error a flight ends with: a direct generate's flight hands its result on as a value, not as an error. */
  function FlightError(out: Out): KeyState.Err {
    match out
    case Plain(err) => err
    case Made(_, _) => NoErr
  }

  /** Leader and joiners of one flight go on with the same outcome: what the leader lands is what each joiner wakes to. */
  lemma JoinersSeeTheFlight(cfg: Config, s: Sys, e: Event)
    requires Enabled(cfg, s, e)
    ensures e.Land? ==> Next(cfg, s, e).results == s.results[e.i := s.ops[e.i].pc.out]
    ensures e.Land? ==> Next(cfg, s, e).ops[e.i].pc == Finishing(s.ops[e.i].pc.out)
    ensures e.Wake? && !s.ops[e.i].kind.SealOnce? ==>
              var pc, out := Next(cfg, s, e).ops[e.i].pc, s.results[s.ops[e.i].pc.leader];
              pc.Finishing? && pc.out.Plain? && pc.out.err == FlightError(out)
    ensures e.Wake? && s.ops[e.i].kind.SealOnce? ==>
              var pc, out := Next(cfg, s, e).ops[e.i].pc, s.results[s.ops[e.i].pc.leader];
              if out.Made? then pc == Finishing(out) else pc.Crashed?
  {
  }

  /** The warm's recheck in its flight: a key already in the clear is no longer waited for and costs no call. */
  lemma WarmRechecks(cfg: Config, s: Sys, i: nat, at: int, id: DekId)
    requires Enabled(cfg, s, Check(i, at)) && s.ops[i].kind == Warming(id)
    ensures var n, hot := Next(cfg, s, Check(i, at)), InTheClear(s.t, id);
            && n.t == s.t.(pending := if hot then s.t.pending - {id} else s.t.pending)
            && (n.ops[i].pc.Landed? <==> hot) && (n.ops[i].pc.AtCap? <==> !hot)
  {
    if !InTheClear(s.t, id) { assert s.t.(pending := s.t.pending) == s.t; }
  }

  /** A warm that is through with an OK that counts has its key in the clear and nothing waits for it. */
  lemma WarmArrives(cfg: Config, s: Sys, i: nat, at: int, u: real, id: DekId)
    requires Reachable(cfg, s) && Enabled(cfg, s, ApplyEv(i, at, u)) && s.ops[i].kind == Warming(id) && Caching(s.t)
    requires var r := s.ops[i].pc.r; r.err.NoErr? && r.verdict.OK? && s.t.deniedAt <= r.sentAt && r.prim.Some?
    ensures var n := Next(cfg, s, ApplyEv(i, at, u)); InTheClear(n.t, id) && id !in n.t.pending && n.t.state.Active?
  {
    WarmSubject(cfg, s, i, at, u, id);
    AppliedTenant(cfg, s, i, at, u);
    var op := s.ops[i];
    OkDoes(s.t, OpName(op), op.pc.s, op.pc.r, at, cfg, DelayOf(cfg, s.t, u), id);
  }

  lemma WarmSubject(cfg: Config, s: Sys, i: nat, at: int, u: real, id: DekId)
    requires Reachable(cfg, s) && Enabled(cfg, s, ApplyEv(i, at, u)) && s.ops[i].kind == Warming(id)
    requires s.ops[i].pc.r.err.NoErr? && s.ops[i].pc.r.verdict.OK?
    ensures s.ops[i].pc.s == Held(id)
  {
    R.ReachableKeyed(cfg, s);
    assert Shape(s.ops[i]);
  }

  lemma AppliedTenant(cfg: Config, s: Sys, i: nat, at: int, u: real)
    requires Enabled(cfg, s, ApplyEv(i, at, u))
    ensures var op := s.ops[i];
            Next(cfg, s, ApplyEv(i, at, u)).t == Apply(cfg, s.t, OpName(op), op.pc.s, op.pc.r, at, DelayOf(cfg, s.t, u))
  {
  }

  /** The tenant's cap: a naive tenant passes it and the provider's semaphore by, a full one is turned away without a call. */
  lemma CapDecides(cfg: Config, s: Sys, op: Job)
    requires op.pc.AtCap? && (op.gen || op.dek.Some?)
    ensures var m := DoCap(cfg, s, op); var full := cfg.tenantInflight != 0 && cfg.tenantInflight <= s.t.inflight;
            && m.op.Some?
            && (m.op.value.pc.Sending? <==> s.t.fetch.Naive?)
            && (m.op.value.pc.Applying? <==> !s.t.fetch.Naive? && full)
            && (m.op.value.pc.Applying? ==> m.op.value.pc.r.err.Busy?)
  {
  }

  /** And a call that gets past the cap takes one place, if there is a cap. */
  lemma CapCounts(cfg: Config, s: Sys, op: Job)
    requires op.pc.AtCap? && (op.gen || op.dek.Some?)
    ensures var m := DoCap(cfg, s, op); var takes := !s.t.fetch.Naive? && cfg.tenantInflight != 0 && s.t.inflight < cfg.tenantInflight;
            && m.op.Some? && (m.op.value.counted <==> op.counted || takes)
            && m.t.inflight == s.t.inflight + One(takes)
  {
  }

  // ---- Messages counted ----

  /** A cold or a direct seal ends with a handle on DEK id. */
  predicate EndsSealing(cfg: Config, t: Tenant, op: Job, at: int, id: DekId) {
    && op.pc.Finishing?
    && if op.kind.Cold? then GivesColdly(cfg, t, at) && t.active.value == id
       else op.kind.SealOnce? && EndsDirect(cfg, t, op.pc.out, at, id)
  }

  predicate EndsDirect(cfg: Config, t: Tenant, out: Out, at: int, id: DekId) {
    out.Made? && out.r.err.NoErr? && !out.s.NoDek? && out.s.id == id && !t.state.Revoked? && Leased(cfg, t, at)
  }

  /** The step hands out a handle to seal with, on DEK id. */
  predicate SealsWith(cfg: Config, s: Sys, e: Event, id: DekId) {
    || (e.EncryptEv? && GivesSeal(cfg, s.t, e.at) && s.t.active.value == id)
    || (e.Finish? && e.i in s.ops && EndsSealing(cfg, s.t, s.ops[e.i], e.at, id))
  }

  /** DEK id is still there, with its key, and this many more messages on it. */
  predicate CountsUp(t: Tenant, u: Tenant, id: DekId, n: int) {
    id in t.deks && id in u.deks && u.deks[id].msgs == t.deks[id].msgs + n && u.deks[id].createdAt == t.deks[id].createdAt
  }

  lemma EncryptCountsUp(cfg: Config, s: Sys, at: int, id: DekId)
    requires id in s.t.deks
    ensures CountsUp(s.t, EncryptCall(cfg, s, at).t, id, One(GivesSeal(cfg, s.t, at) && s.t.active.value == id))
  {
  }

  lemma TickCountsUp(cfg: Config, t: Tenant, at: int, due: Due, id: DekId)
    requires id in t.deks
    ensures CountsUp(t, Tick(cfg, t, at, due), id, 0)
  {
    assert CountsUp(t, TickLapse(cfg, t, at), id, 0);
  }

  lemma CallCountsUp(cfg: Config, s: Sys, e: Event, id: DekId)
    requires id in s.t.deks
    ensures CountsUp(s.t, CallOf(cfg, s, e).t, id, One(SealsWith(cfg, s, e, id) && e.EncryptEv?))
  {
    match e
    case EncryptEv(at) => EncryptCountsUp(cfg, s, at, id);
    case TickEv(at, due) => TickCountsUp(cfg, s.t, at, due, id);
    case _ =>
  }

  lemma FinishCountsUp(cfg: Config, s: Sys, op: Job, at: int, id: DekId)
    requires id in s.t.deks && op.pc.Finishing? && (op.kind.Cold? ==> s.t.waiters > 0)
    ensures CountsUp(s.t, DoFinish(cfg, s, op, op.pc.out, at).t, id, One(EndsSealing(cfg, s.t, op, at, id)))
  {
  }

  lemma ApplyCountsUp(cfg: Config, t: Tenant, op: KeyState.Op, sub: Subject, r: Reply, at: int, delay: int, id: DekId)
    requires Applicable(t, op, sub, r) && id in t.deks && (sub.Fresh? ==> sub.id !in t.deks)
    ensures CountsUp(t, Apply(cfg, t, op, sub, r, at, delay), id, 0)
  {
  }

  lemma MoveCountsUp(cfg: Config, s: Sys, i: nat, e: Event, id: DekId)
    requires R.Keyed(s) && i in s.ops && TaskMay(cfg, s, s.ops[i], e) && id in s.t.deks && Mover(e) == Some(i)
    ensures CountsUp(s.t, MoveOf(cfg, s, i, s.ops[i], e).t, id, One(SealsWith(cfg, s, e, id)))
  {
    var op := s.ops[i];
    if Asking(e) { S.AskOnly(cfg, s, i, op, e); }
    else if S.Settling(e) { S.SettleOnly(cfg, s, i, op, e); }
    else if e.ApplyEv? {
      assert R.KeyedOp(s.h.minted, s.t, s.stored, i, op);
      ApplyCountsUp(cfg, s.t, OpName(op), op.pc.s, op.pc.r, e.at, DelayOf(cfg, s.t, e.u), id);
    } else { FinishCountsUp(cfg, s, op, e.at, id); }
  }

  lemma EntryMessages(cfg: Config, s: Sys, e: Event, id: DekId)
    requires id in s.t.deks && Mover(e).None?
    ensures CountsUp(s.t, Entry(cfg, s, e).t, id, One(SealsWith(cfg, s, e, id)))
  {
    CallCountsUp(cfg, s, e, id);
  }

  /** In every reachable state a step counts one message on exactly the DEK it hands out to seal with, and on no other. */
  lemma MessagesAreSeals(cfg: Config, s: Sys, e: Event, id: DekId)
    requires Reachable(cfg, s) && Enabled(cfg, s, e) && id in s.t.deks
    ensures CountsUp(s.t, Next(cfg, s, e).t, id, One(SealsWith(cfg, s, e, id)))
  {
    R.ReachableKeyed(cfg, s);
    match Mover(e)
    case None => EntryMessages(cfg, s, e, id);
    case Some(i) => MoveCountsUp(cfg, s, i, e, id);
  }

  /** A handle given at once to an ACTIVE tenant is on a DEK that still had a message and time left. */
  lemma SealsInTime(cfg: Config, s: Sys, at: int)
    requires s.t.state.Active? && EncryptCall(cfg, s, at).handle.Some?
    ensures var id := EncryptCall(cfg, s, at).handle.value.dek;
            id in s.t.deks && s.t.deks[id].msgs < cfg.dekMaxMessages && at < s.t.deks[id].createdAt + cfg.dekMaxAge
  {
  }

  // ---- Hot: the scheduler's gate ----

  /** The answer in each mode. */
  predicate MayDispatch(cfg: Config, t: Tenant, at: int) {
    match t.fetch
    case Async => Serving(t) && Leased(cfg, t, at) && t.pending == map[]
    case Sync =>
      (Serving(t) && Leased(cfg, t, at) && t.pending == map[])
      || (!t.probing && (if t.state.Active? then !Leased(cfg, t, at) else t.nextProbeAt <= at))
    case _ => t.state.Active?
  }

  lemma HotAnswers(cfg: Config, t: Tenant, at: int)
    ensures HotAnswer(cfg, t, at).0 <==> MayDispatch(cfg, t, at)
    ensures HotAnswer(cfg, t, at).1 <==>
              t.fetch.Async? && t.state.Active? && !t.probing && (!Leased(cfg, t, at) || Renewable(cfg, t, at))
  {
    assert |t.pending| == 0 <==> t.pending == map[];
  }

  /** A tenant the gate lets through in async fetch is one whose messages open, or whose key is only to be warmed. */
  lemma HotMeansOpenable(cfg: Config, s: Sys, at: int, id: DekId)
    requires Reachable(cfg, s) && s.t.fetch.Async? && HotAnswer(cfg, s.t, at).0 && id in s.t.deks
    ensures DecryptStep(cfg, s.t, id, at) == if InTheClear(s.t, id) then OpenNow(HandleFor(cfg, s.t, id)) else OpenCold
  {
    HotAnswers(cfg, s.t, at);
    R.ReachableKeyed(cfg, s);
    OpenGives(cfg, s, at, id);
  }

  // ---- Warm, SetFetch ----

  lemma WarmAnswers(cfg: Config, t: Tenant, id: DekId, at: int)
    ensures var wanted := id in t.deks && Caching(t) && id !in t.pending;
            && (WarmKicks(cfg, t, id, at) <==> wanted && !t.probing && Serving(t) && Leased(cfg, t, at))
            && WarmAsked(cfg, t, id, at).pending == (if wanted then t.pending[id := at] else t.pending)
            && WarmAsked(cfg, t, id, at).probing == (t.probing || (wanted && Serving(t) && Leased(cfg, t, at)))
  {
  }

  lemma ModeAnswers(t: Tenant, mode: Fetch, id: DekId)
    ensures var u := SetFetch(t, mode); var drops := Caching(t) && (mode.PassThrough? || mode.Naive?);
            && u.fetch == mode && u.state == t.state && u.sentAt == t.sentAt
            && u.pending == (if drops then map[] else t.pending)
            && (InTheClear(u, id) <==> InTheClear(t, id) && !drops)
  {
  }

  // ---- Tick ----

  /** The lease is over while keys are still in the clear. */
  ghost predicate Lapsed(cfg: Config, t: Tenant, at: int) {
    t.sentAt != 0 && !Leased(cfg, t, at) && exists id :: InTheClear(t, id)
  }

  /** A key other than the active one has been hot for the DEK's age and a lease more. */
  predicate AgedOut(cfg: Config, t: Tenant, id: DekId, at: int) {
    t.active != Some(id) && InTheClear(t, id) && t.deks[id].hotSince + cfg.dekMaxAge + cfg.ttl <= at
  }

  lemma SomeHot(t: Tenant)
    ensures |HotDeks(t)| > 0 <==> exists id :: InTheClear(t, id)
  {
    if id :| InTheClear(t, id) { assert id in HotDeks(t); }
    if |HotDeks(t)| > 0 {
      var id :| id in HotDeks(t);
      assert InTheClear(t, id);
    }
  }

  /** What the sweep cools, and whom it parks. */
  lemma SweepCools(cfg: Config, t: Tenant, at: int, due: Due, id: DekId)
    ensures var u := Tick(cfg, t, at, due); var over := Lapsed(cfg, t, at);
            && (InTheClear(u, id) <==> InTheClear(t, id) && !over && !AgedOut(cfg, t, id, at))
            && u.state == (if over && t.state.RidingThrough? then KeyUnavailable else t.state)
            && u.pending == (if over then map[] else t.pending)
            && u.probing == (t.probing || !due.NoDue?)
  {
    SomeHot(t);
    assert Lapsed(cfg, t, at) <==> t.sentAt != 0 && !Usable(cfg, t, at) && |HotDeks(t)| > 0;
  }

  /** What the sweep may start, on the tenant it has just cooled: a due probe first, else any one due warm, else nothing. */
  predicate OwesSweepProbe(t: Tenant, at: int) {
    !t.state.Active? && !t.probing && t.nextProbeAt <= at && !t.fetch.Sync?
  }

  predicate OwesWarm(cfg: Config, t: Tenant, id: DekId, at: int) {
    && Serving(t) && Leased(cfg, t, at) && !t.probing && id in t.deks && id in t.pending && t.pending[id] <= at
  }

  lemma SweepStarts(cfg: Config, u: Tenant, at: int, due: Due)
    ensures TickMay(cfg, u, at, due) <==>
              match due
              case DueProbe => OwesSweepProbe(u, at)
              case DueWarm(id) => !OwesSweepProbe(u, at) && OwesWarm(cfg, u, id, at)
              case NoDue => !OwesSweepProbe(u, at) && forall id :: !OwesWarm(cfg, u, id, at)
  {
    if due.NoDue? && !OwesSweepProbe(u, at) {
      forall id ensures OwesWarm(cfg, u, id, at) <==> id in u.pending && WarmDue(cfg, u, id, at) { }
    }
  }

  // ---- What a renewal calls for ----

  /** A generate when there is no DEK, or the caller needs a fresh one to seal and the active one is worn out. */
  lemma RenewalCallsFor(cfg: Config, t: Tenant, cold: bool, at: int)
    requires t.active.Some? ==> t.active.value in t.deks
    ensures NeedsGenerate(cfg, t, cold, at) <==>
              t.active.None? || (cold && t.state.Active? && WornOut(cfg, t.deks[t.active.value], at))
    ensures Satisfied(cfg, t, cold, at) <==>
              && t.active.Some? && InTheClear(t, t.active.value) && Leased(cfg, t, at)
              && !(t.state.Active? && WornOut(cfg, t.deks[t.active.value], at))
              && (cold || (t.state.Active? && !Renewable(cfg, t, at)))
  {
  }

  // ---- apply ----

  /** An OK that counts: the tenant is ACTIVE, leased from the send, and the DEK is there, hot if there is a cache. */
  lemma OkDoes(t: Tenant, op: KeyState.Op, sub: Subject, r: Reply, at: int, cfg: Config, delay: int, id: DekId)
    requires Applicable(t, op, sub, r) && r.err.NoErr? && r.verdict.OK? && t.deniedAt <= r.sentAt && r.prim.Some?
    requires sub.Fresh? ==> sub.dek.prim.None?
    ensures var u := Apply(cfg, t, op, sub, r, at, delay);
            && u.state.Active? && u.sentAt == Max(t.sentAt, r.sentAt) && u.deniedAt == t.deniedAt && u.nextProbeAt == t.nextProbeAt
            && sub.id in u.deks && u.deks[sub.id].hotSince == at && u.pending == t.pending - {sub.id}
            && u.active == (if sub.Fresh? then Some(sub.id) else t.active)
            && (Caching(t) ==> u.deks[sub.id].prim == r.prim)
            && (id != sub.id ==> (id in u.deks <==> id in t.deks) && (id in t.deks ==> u.deks[id] == t.deks[id]))
  {
  }

  /** A deny: revoked at once, no lease, every key cold, no warm waiting. */
  lemma DenyDoes(cfg: Config, t: Tenant, op: KeyState.Op, sub: Subject, r: Reply, at: int, delay: int, id: DekId)
    requires Applicable(t, op, sub, r) && r.err.Failed? && r.verdict.Deny?
    ensures var u := Apply(cfg, t, op, sub, r, at, delay);
            && u.state.Revoked? && u.sentAt == 0 && u.deniedAt == at && u.pending == map[] && !InTheClear(u, id)
            && u.active == t.active && u.attempt == t.attempt
  {
  }

  /** A failure: a leased tenant with the cache rides through, any other parks and goes cold, a parked one stays. */
  lemma FailureDoes(cfg: Config, t: Tenant, op: KeyState.Op, sub: Subject, r: Reply, at: int, delay: int, id: DekId)
    requires Applicable(t, op, sub, r) && r.err.Failed? && !r.verdict.Deny? && !r.verdict.OK?
    ensures var u := Apply(cfg, t, op, sub, r, at, delay); var rides := Leased(cfg, t, at) && Caching(t);
            && u.state == (if !Serving(t) then t.state else if rides then RidingThrough else KeyUnavailable)
            && u.sentAt == t.sentAt && u.deniedAt == t.deniedAt
            && (InTheClear(u, id) <==> InTheClear(t, id) && (rides || !Serving(t)))
            && (if rides || !Serving(t) then u.pending.Keys == t.pending.Keys && (id in u.pending ==> u.pending[id] == at + delay)
                else u.pending == map[])
  {
  }

  /** Busy, a store error, a stale OK: nothing, but that a warm turned away waits for the next sweep. */
  lemma NothingDone(cfg: Config, t: Tenant, op: KeyState.Op, sub: Subject, r: Reply, at: int, delay: int)
    requires Applicable(t, op, sub, r) && (r.err.Busy? || r.err.StoreErr? || (r.verdict.OK? && r.sentAt < t.deniedAt))
    ensures Apply(cfg, t, op, sub, r, at, delay) ==
              if (r.err.Busy? || r.err.StoreErr?) && op.Warm? && sub.Held? then t.(pending := t.pending[sub.id := at + cfg.sweep]) else t
  {
  }
}
