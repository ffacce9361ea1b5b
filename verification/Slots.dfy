/**
 When a parked tenant is probed, exactly: the failure count behind the backoff is the number of answered failures since the
 last OK that took effect, the slot is the one the latest failure or deny set, and no probe starts before it.
 */
module Slots {
  import opened Prelude
  import opened Envelope
  import opened KeyState
  import opened Protocol
  import opened Steps
  import D = DirectCalls

  /** The tenant's own fields agree with the record of applied replies. */
  predicate Counted(s: Sys) {
    s.t.attempt == s.h.failures && s.t.nextProbeAt == s.h.due
  }

  predicate SameCount(s: Sys, t: Tenant, h: Hist) {
    t.attempt == s.t.attempt && t.nextProbeAt == s.t.nextProbeAt && h.failures == s.h.failures && h.due == s.h.due
  }

  lemma CallCounted(cfg: Config, s: Sys, e: Event)
    ensures SameCount(s, CallOf(cfg, s, e).t, s.h)
  {
    if e.EncryptEv? { EncryptCounted(cfg, s, e.at); }
  }

  lemma EncryptCounted(cfg: Config, s: Sys, at: int)
    ensures SameCount(s, EncryptCall(cfg, s, at).t, s.h)
  {
  }

  lemma FinishCounted(cfg: Config, s: Sys, op: Job, out: Out, at: int)
    requires op.kind.Cold? ==> s.t.waiters > 0
    ensures SameCount(s, DoFinish(cfg, s, op, out, at).t, s.h)
  {
  }

  /** Each applied reply moves the tenant's count and slot as the record says. */
  lemma AppliedCounted(cfg: Config, t: Tenant, h: Hist, op: KeyState.Op, sub: Subject, r: Reply, at: int, u: real)
    requires Applicable(t, op, sub, r) && t.attempt == h.failures && t.nextProbeAt == h.due
    ensures var t', h' := Apply(cfg, t, op, sub, r, at, DelayOf(cfg, t, u)), HistApply(cfg, h, t, sub, r, at, u);
            t'.attempt == h'.failures && t'.nextProbeAt == h'.due
  {
  }

  lemma MoveCounted(cfg: Config, s: Sys, i: nat, op: Job, e: Event)
    requires TaskMay(cfg, s, op, e) && Counted(s)
    ensures var m := MoveOf(cfg, s, i, op, e); m.t.attempt == m.h.failures && m.t.nextProbeAt == m.h.due
  {
    if Asking(e) { AskOnly(cfg, s, i, op, e); }
    else if Settling(e) { SettleOnly(cfg, s, i, op, e); }
    else if e.ApplyEv? { AppliedCounted(cfg, s.t, s.h, OpName(op), op.pc.s, op.pc.r, e.at, e.u); }
    else { FinishCounted(cfg, s, op, op.pc.out, e.at); D.FinishKeepsHist(cfg, s, op, op.pc.out, e.at); }
  }

  lemma StepCounted(cfg: Config, s: Sys, e: Event)
    requires Counted(s) && Enabled(cfg, s, e)
    ensures Counted(Next(cfg, s, e))
  {
    match Mover(e)
    case None => CallCounted(cfg, s, e);
    case Some(i) => MoveCounted(cfg, s, i, s.ops[i], e);
  }

  lemma {:induction false} RunCounted(cfg: Config, s: Sys, es: seq<Event>)
    requires Counted(s) && Legal(cfg, s, es)
    ensures Counted(Run(cfg, s, es))
    decreases |es|
  {
    if es != [] {
      StepCounted(cfg, s, es[0]);
      RunCounted(cfg, Next(cfg, s, es[0]), es[1..]);
    }
  }

  /** In every reachable state the backoff counts exactly the answered failures since the last effective OK. */
  lemma AttemptsCounted(cfg: Config, s: Sys)
    requires Reachable(cfg, s)
    ensures s.t.attempt == s.h.failures && s.t.nextProbeAt == s.h.due
  {
    var name, start, mode, es :|
      start > 0 && Legal(cfg, Start(name, start, mode), es) && Run(cfg, Start(name, start, mode), es) == s;
    RunCounted(cfg, Start(name, start, mode), es);
  }

  /** The reply is an answered failure: neither OK nor a deny, and not one of the two that never count. */
  predicate Failure(r: Reply) { !r.err.Busy? && !r.err.StoreErr? && !r.verdict.OK? && !r.verdict.Deny? }

  /**
   The k-th answered failure in a row, applied at `at` with draw u, sets the next probe to at + Backoff(k), and a deny sets
   it a fixed period ahead and leaves the count.
   */
  lemma FailureSetsSlot(cfg: Config, s: Sys, i: nat, at: int, u: real)
    requires Reachable(cfg, s) && Enabled(cfg, s, ApplyEv(i, at, u))
    ensures var n := Next(cfg, s, ApplyEv(i, at, u));
            Failure(s.ops[i].pc.r) ==> n.h.failures == s.h.failures + 1 && n.t.attempt == n.h.failures
    ensures var n := Next(cfg, s, ApplyEv(i, at, u));
            Failure(s.ops[i].pc.r) ==> n.t.nextProbeAt == at + Backoff(n.h.failures, cfg.backoffMin, cfg.backoffMax, cfg.jitter, u)
    ensures var r, n := s.ops[i].pc.r, Next(cfg, s, ApplyEv(i, at, u));
            r.verdict.Deny? && r.err.Failed? ==> n.t.attempt == s.t.attempt && n.t.nextProbeAt == at + cfg.reprobe
  {
    AttemptsCounted(cfg, s);
    Applied(cfg, s, i, at, u);
    var op := s.ops[i];
    AppliedSets(cfg, s.t, s.h, OpName(op), op.pc.s, op.pc.r, at, u);
  }

  lemma Applied(cfg: Config, s: Sys, i: nat, at: int, u: real)
    requires Enabled(cfg, s, ApplyEv(i, at, u))
    ensures var op, n := s.ops[i], Next(cfg, s, ApplyEv(i, at, u));
            && n.t == Apply(cfg, s.t, OpName(op), op.pc.s, op.pc.r, at, DelayOf(cfg, s.t, u))
            && n.h == HistApply(cfg, s.h, s.t, op.pc.s, op.pc.r, at, u)
  {
  }

  lemma AppliedSets(cfg: Config, t: Tenant, h: Hist, op: KeyState.Op, sub: Subject, r: Reply, at: int, u: real)
    requires Applicable(t, op, sub, r) && t.attempt == h.failures
    ensures var t', h' := Apply(cfg, t, op, sub, r, at, DelayOf(cfg, t, u)), HistApply(cfg, h, t, sub, r, at, u);
            && (Failure(r) ==> h'.failures == h.failures + 1 && t'.attempt == h'.failures)
            && (Failure(r) ==> t'.nextProbeAt == at + Backoff(h'.failures, cfg.backoffMin, cfg.backoffMax, cfg.jitter, u))
            && (r.verdict.Deny? && r.err.Failed? ==> t'.attempt == t.attempt && t'.nextProbeAt == at + cfg.reprobe)
  {
  }

  /** An entry that starts the probe of a parked tenant: the sweep, or in sync fetch an ingest or a delivery. */
  predicate ProbesParked(cfg: Config, s: Sys, e: Event) {
    !s.t.state.Active? && CallOf(cfg, s, e).born == Some(PROBE)
  }

  function ReadingOf(e: Event): int {
    match e
    case TickEv(at, _) => at
    case HotEv(at) => at
    case EncryptEv(at) => at
    case EncryptInline(at) => at
    case DecryptInlineEv(at, _) => at
    case _ => 0
  }

  /** No probe of a parked tenant starts before the slot the latest failure or deny set. */
  lemma NoProbeBeforeSlot(cfg: Config, s: Sys, e: Event)
    requires Reachable(cfg, s) && EntryMay(cfg, s, e) && ProbesParked(cfg, s, e)
    ensures s.h.due <= ReadingOf(e) && !s.t.probing
  {
    AttemptsCounted(cfg, s);
    if e.TickEv? { TickBodyKeeps(cfg, s.t, e.at); }
  }

  lemma TickBodyKeeps(cfg: Config, t: Tenant, at: int)
    ensures var b := TickBody(cfg, t, at); b.nextProbeAt == t.nextProbeAt && b.probing == t.probing
  {
  }

  // ---- How long the delay is ----

  function Pow2(n: nat): nat { if n == 0 then 1 else 2 * Pow2(n - 1) }

  lemma {:induction false} DoubledIs(min: int, n: nat)
    requires n >= 1
    ensures Doubled(min, n) == min * Pow2(n - 1)
  {
    if n > 1 {
      DoubledIs(min, n - 1);
      Twice(min, Pow2(n - 2));
    }
  }

  lemma Twice(a: int, p: nat)
    ensures 2 * (a * p) == a * (2 * p)
  {
  }

  /** The delay written out: min * 2^(k-1), capped at max, times 1 + jitter * (2u - 1); with the middle draw, just that. */
  lemma BackoffDoubles(k: nat, min: int, max: int, jitter: real, u: real)
    requires k >= 1
    ensures Backoff(k, min, max, jitter, u) == (Min(min * Pow2(k - 1), max) as real * (1.0 + jitter * (2.0 * u - 1.0))).Floor
    ensures Backoff(k, min, max, jitter, 0.5) == Min(min * Pow2(k - 1), max)
  {
    DoubledIs(min, k);
    MiddleDraw(jitter);
    TimesOne(Min(min * Pow2(k - 1), max));
  }

  lemma MiddleDraw(jitter: real)
    ensures Spread(jitter, 0.5) == 1.0
  {
  }

  lemma TimesOne(x: int)
    ensures (x as real * 1.0).Floor == x
  {
  }
}
