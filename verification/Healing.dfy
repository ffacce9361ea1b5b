/**
 Self-healing: a parked tenant's next probe is never further away than its last failure plus the longest wait; the
 first sweep at or after it starts one; an OK that is not stale makes the tenant ACTIVE; and in every mode, from every
 reachable state with the key enabled, ACTIVE can be reached within that longest wait.
 */
module Healing {
  import opened Prelude
  import opened Envelope
  import opened KeyState
  import opened Protocol
  import opened Steps
  import opened Structure
  import opened References
  import opened Permits
  import opened Progress

  predicate Sane(cfg: Config) {
    0 < cfg.backoffMin <= cfg.backoffMax && 0.0 <= cfg.jitter <= 1.0 && 0 < cfg.providerInflight
  }

  /** The longest wait between two probes. */
  function Reach(cfg: Config): int { Max(cfg.reprobe, Longest(cfg.backoffMax, cfg.jitter)) }

  lemma ReachNonNegative(cfg: Config)
    requires Sane(cfg)
    ensures 0 <= Reach(cfg)
  {
    BackoffAtMost(0, cfg.backoffMin, cfg.backoffMax, cfg.jitter, 0.0);
  }

  lemma DelayWithin(cfg: Config, t: Tenant, u: real)
    requires Sane(cfg) && 0.0 <= u < 1.0
    ensures DelayOf(cfg, t, u) <= Reach(cfg)
  {
    BackoffAtMost(t.attempt + 1, cfg.backoffMin, cfg.backoffMax, cfg.jitter, u);
  }

  // ---- The slot ----

  predicate Slotted(cfg: Config, now: int, t: Tenant, h: Hist) {
    t.nextProbeAt <= h.failedAt + Reach(cfg) && h.failedAt <= now && t.deniedAt <= now
  }

  lemma CallSlot(cfg: Config, s: Sys, e: Event)
    ensures var c := CallOf(cfg, s, e); c.t.nextProbeAt == s.t.nextProbeAt && c.t.deniedAt == s.t.deniedAt
  {
  }

  lemma AppliedSlot(cfg: Config, now: int, t: Tenant, h: Hist, op: Op, sub: Subject, r: Reply, at: int, u: real, delay: int)
    requires Slotted(cfg, now, t, h) && Applicable(t, op, sub, r) && at <= now && delay <= Reach(cfg)
    ensures Slotted(cfg, now, Apply(cfg, t, op, sub, r, at, delay), HistApply(cfg, h, t, sub, r, at, u))
  {
  }

  lemma ApplySlot(cfg: Config, s: Sys, i: nat, op: Job, e: Event)
    requires Sane(cfg) && TaskMay(cfg, s, op, e) && e.ApplyEv? && Slotted(cfg, s.now, s.t, s.h)
    ensures var m := MoveOf(cfg, s, i, op, e); Slotted(cfg, s.now, m.t, m.h)
  {
    DelayWithin(cfg, s.t, e.u);
    AppliedSlot(cfg, s.now, s.t, s.h, OpName(op), op.pc.s, op.pc.r, e.at, e.u, DelayOf(cfg, s.t, e.u));
  }

  lemma FinishSlot(cfg: Config, s: Sys, op: Job, out: Out, at: int)
    requires op.kind.Cold? ==> s.t.waiters > 0
    ensures var m := DoFinish(cfg, s, op, out, at);
            m.t.nextProbeAt == s.t.nextProbeAt && m.t.deniedAt == s.t.deniedAt && m.h == s.h
  {
  }

  lemma MoveSlot(cfg: Config, s: Sys, i: nat, op: Job, e: Event)
    requires Sane(cfg) && TaskMay(cfg, s, op, e) && Slotted(cfg, s.now, s.t, s.h)
    ensures var m := MoveOf(cfg, s, i, op, e); Slotted(cfg, s.now, m.t, m.h)
  {
    if Asking(e) { AskOnly(cfg, s, i, op, e); }
    else if Settling(e) { SettleOnly(cfg, s, i, op, e); }
    else if e.ApplyEv? { ApplySlot(cfg, s, i, op, e); }
    else { FinishSlot(cfg, s, op, op.pc.out, e.at); }
  }

  lemma StepSlot(cfg: Config, s: Sys, e: Event)
    requires Sane(cfg) && Slotted(cfg, s.now, s.t, s.h) && Enabled(cfg, s, e)
    ensures var u := Next(cfg, s, e); Slotted(cfg, u.now, u.t, u.h)
  {
    match Mover(e)
    case None => CallSlot(cfg, s, e);
    case Some(i) => MoveSlot(cfg, s, i, s.ops[i], e);
  }

  lemma {:induction false} RunSlot(cfg: Config, s: Sys, es: seq<Event>)
    requires Sane(cfg) && Slotted(cfg, s.now, s.t, s.h) && Legal(cfg, s, es)
    ensures var u := Run(cfg, s, es); Slotted(cfg, u.now, u.t, u.h)
    decreases |es|
  {
    if es != [] {
      StepSlot(cfg, s, es[0]);
      RunSlot(cfg, Next(cfg, s, es[0]), es[1..]);
    }
  }

  lemma ReachableSlot(cfg: Config, s: Sys)
    requires Sane(cfg) && Reachable(cfg, s)
    ensures Slotted(cfg, s.now, s.t, s.h)
  {
    var name, start, mode, es :|
      start > 0 && Legal(cfg, Start(name, start, mode), es) && Run(cfg, Start(name, start, mode), es) == s;
    ReachNonNegative(cfg);
    RunSlot(cfg, Start(name, start, mode), es);
  }

  /** Never further off than the last applied failure plus the longest wait. */
  lemma NextProbeNotFar(cfg: Config, s: Sys)
    requires Sane(cfg) && Reachable(cfg, s)
    ensures s.t.nextProbeAt <= s.h.failedAt + Reach(cfg)
  {
    ReachableSlot(cfg, s);
  }

  /** Only a failure moves the slot: an OK, stale or not, a busy tenant and a store error leave it where it is. */
  lemma OnlyFailuresMoveTheSlot(cfg: Config, t: Tenant, op: Op, sub: Subject, r: Reply, at: int, delay: int)
    requires Applicable(t, op, sub, r) && (r.err.Busy? || r.err.StoreErr? || r.verdict.OK?)
    ensures Apply(cfg, t, op, sub, r, at, delay).nextProbeAt == t.nextProbeAt
  {
  }

  /** The first sweep at or after the slot leaves a probe outstanding. */
  lemma DueSweepProbes(cfg: Config, s: Sys, at: int, due: Due)
    requires EntryMay(cfg, s, TickEv(at, due))
    requires !s.t.state.Active? && !s.t.fetch.Sync? && s.t.nextProbeAt <= at
    ensures var u := Entry(cfg, s, TickEv(at, due));
            u.t.probing && (!s.t.probing ==> due.DueProbe? && s.nextOp in u.ops && u.ops[s.nextOp] == PROBE)
  {
    var b := TickBody(cfg, s.t, at);
    assert b.probing == s.t.probing && b.nextProbeAt == s.t.nextProbeAt && !b.state.Active? && b.fetch == s.t.fetch;
  }

  /** Every sweep later than the last failure by the longest wait finds a probe outstanding or starts one. */
  lemma ProbedInTime(cfg: Config, s: Sys, at: int, due: Due)
    requires Sane(cfg) && Reachable(cfg, s) && !s.t.fetch.Sync? && s.h.failedAt + Reach(cfg) <= at
    requires EntryMay(cfg, s, TickEv(at, due))
    ensures s.t.state.Active? || Entry(cfg, s, TickEv(at, due)).t.probing
  {
    NextProbeNotFar(cfg, s);
    if !s.t.state.Active? { DueSweepProbes(cfg, s, at, due); }
  }

  /** An OK makes the tenant ACTIVE exactly when it was not sent before the last denial. */
  lemma OkUnparks(cfg: Config, t: Tenant, op: Op, sub: Subject, r: Reply, at: int, delay: int)
    requires Applicable(t, op, sub, r) && r.err.NoErr? && r.verdict.OK? && !t.state.Active?
    ensures Apply(cfg, t, op, sub, r, at, delay).state.Active? <==> t.deniedAt <= r.sentAt
  {
  }
}
