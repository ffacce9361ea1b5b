/**
 Bounded revocation: whatever the interleaving and the fetch mode, a key that has been disabled since revokedAt seals
 and opens nothing from revokedAt + TTL - Early on, not even with a handle issued before the purge.
 */
module RevocationBound {
  import opened Prelude
  import opened Envelope
  import opened KeyState
  import opened Protocol
  import opened Steps

  /** No OK can be sent later than this: the KMS reads the flag after the call is sent. */
  function Bound(s: Sys): int { if s.enabled then s.now else s.revokedAt }

  predicate FedReply(b: int, r: Reply) { IsOk(r) ==> r.sentAt <= b }

  predicate FedOp(now: int, b: int, op: Job) {
    match op.pc
    case AtKms(sentAt) => sentAt <= now
    case Back(r) => FedReply(b, r)
    case Allocating(r) => FedReply(b, r)
    case Storing(r, _) => FedReply(b, r)
    case Applying(r, _, _) => FedReply(b, r)
    case _ => true
  }

  function Latest(cfg: Config, s: Sys): int { Bound(s) + cfg.ttl - cfg.early }

  /** Leases, replies on their way, and handles out there all stop at the bound. */
  ghost predicate Fed(cfg: Config, s: Sys) {
    && 0 < s.now && 0 < Bound(s) && s.revokedAt <= s.now
    && s.t.sentAt <= Bound(s)
    && (forall i | i in s.ops :: FedOp(s.now, Bound(s), s.ops[i]))
    && (forall h | h in s.handles :: h.validUntil <= Latest(cfg, s))
  }

  predicate FedHandle(cfg: Config, s: Sys, h: Option<Handle>) { h.Some? ==> h.value.validUntil <= Latest(cfg, s) }

  lemma EncryptFed(cfg: Config, s: Sys, at: int)
    requires s.t.sentAt <= Bound(s)
    ensures var c := EncryptCall(cfg, s, at); c.t.sentAt == s.t.sentAt && FedHandle(cfg, s, c.handle)
  {
  }

  lemma CallFed(cfg: Config, s: Sys, e: Event)
    requires s.t.sentAt <= Bound(s)
    ensures var c := CallOf(cfg, s, e);
            c.t.sentAt == s.t.sentAt && FedHandle(cfg, s, c.handle) && (c.born.Some? ==> FedOp(s.now, Bound(s), c.born.value))
  {
    if e.EncryptEv? { EncryptFed(cfg, s, e.at); }
  }

  lemma FinishFed(cfg: Config, s: Sys, op: Job, out: Out, at: int)
    requires s.t.sentAt <= Bound(s) && (op.kind.Cold? ==> s.t.waiters > 0)
    ensures var m := DoFinish(cfg, s, op, out, at); m.t.sentAt == s.t.sentAt && FedHandle(cfg, s, m.handle) && m.op.None?
  {
  }

  lemma ApplyFed(cfg: Config, s: Sys, i: nat, op: Job, e: Event)
    requires TaskMay(cfg, s, op, e) && e.ApplyEv? && 0 < Bound(s) && s.t.sentAt <= Bound(s) && FedOp(s.now, Bound(s), op)
    ensures var m := MoveOf(cfg, s, i, op, e);
            m.t.sentAt <= Bound(s) && FedHandle(cfg, s, m.handle) && (m.op.Some? ==> FedOp(s.now, Bound(s), m.op.value))
  {
  }

  lemma SettleFed(cfg: Config, s: Sys, i: nat, op: Job, e: Event)
    requires TaskMay(cfg, s, op, e) && Settling(e) && 0 < Bound(s) && s.t.sentAt <= Bound(s) && FedOp(s.now, Bound(s), op)
    ensures var m := MoveOf(cfg, s, i, op, e);
            m.t.sentAt <= Bound(s) && FedHandle(cfg, s, m.handle) && (m.op.Some? ==> FedOp(s.now, Bound(s), m.op.value))
  {
    SettleOnly(cfg, s, i, op, e);
  }

  /** The heart is Answer: an OK is sent before it is checked, and checked while the key is enabled. */
  lemma MoveFed(cfg: Config, s: Sys, i: nat, op: Job, e: Event)
    requires TaskMay(cfg, s, op, e) && 0 < Bound(s) && s.t.sentAt <= Bound(s) && FedOp(s.now, Bound(s), op)
    ensures var m := MoveOf(cfg, s, i, op, e);
            m.t.sentAt <= Bound(s) && FedHandle(cfg, s, m.handle) && (m.op.Some? ==> FedOp(s.now, Bound(s), m.op.value))
  {
    if Asking(e) { AskOnly(cfg, s, i, op, e); }
    else if e.ApplyEv? { ApplyFed(cfg, s, i, op, e); }
    else if e.Finish? { FinishFed(cfg, s, op, op.pc.out, e.at); }
    else { SettleFed(cfg, s, i, op, e); }
  }

  lemma PlaceFed(cfg: Config, s: Sys, e: Event)
    requires Fed(cfg, s) && EntryMay(cfg, s, e)
    ensures Fed(cfg, Entry(cfg, s, e))
  {
    CallFed(cfg, s, e);
  }

  lemma CarryFed(cfg: Config, s: Sys, i: nat, e: Event)
    requires Fed(cfg, s) && i in s.ops && TaskMay(cfg, s, s.ops[i], e)
    ensures Fed(cfg, Carry(s, i, MoveOf(cfg, s, i, s.ops[i], e)))
  {
    MoveFed(cfg, s, i, s.ops[i], e);
  }

  lemma StepFed(cfg: Config, s: Sys, e: Event)
    requires Fed(cfg, s) && Enabled(cfg, s, e)
    ensures Fed(cfg, Next(cfg, s, e))
  {
    match Mover(e)
    case None => PlaceFed(cfg, s, e);
    case Some(i) => CarryFed(cfg, s, i, e);
  }

  lemma {:induction false} RunFed(cfg: Config, s: Sys, es: seq<Event>)
    requires Fed(cfg, s) && Legal(cfg, s, es)
    ensures Fed(cfg, Run(cfg, s, es))
    decreases |es|
  {
    if es != [] {
      StepFed(cfg, s, es[0]);
      RunFed(cfg, Next(cfg, s, es[0]), es[1..]);
    }
  }

  lemma ReachableFed(cfg: Config, s: Sys)
    requires Reachable(cfg, s)
    ensures Fed(cfg, s)
  {
    var name, start, mode, es :|
      start > 0 && Legal(cfg, Start(name, start, mode), es) && Run(cfg, Start(name, start, mode), es) == s;
    RunFed(cfg, Start(name, start, mode), es);
  }

  /**
   While the key is disabled, nothing seals or opens at or after revokedAt + TTL - Early, whichever handle of the
   tenant is used and whenever it was issued.
   */
  lemma BoundedRevocation(cfg: Config, s: Sys, h: Handle, at: int, tenant: Bytes, msgID: int, pt: Bytes, env: Envelope)
    requires Reachable(cfg, s) && !s.enabled && h in s.handles && at >= s.revokedAt + cfg.ttl - cfg.early
    ensures Seal(h, at, tenant, msgID, pt) == Err(LeaseExpired) && Open(h, at, tenant, msgID, env) == Err(LeaseExpired)
  {
    ReachableFed(cfg, s);
  }

  /** And no cached key can be used then: the tenant has no usable lease, so no new handle comes out either. */
  lemma NoLeaseLeft(cfg: Config, s: Sys, at: int)
    requires Reachable(cfg, s) && !s.enabled && at >= s.revokedAt + cfg.ttl - cfg.early
    ensures !Usable(cfg, s.t, at)
  {
    ReachableFed(cfg, s);
  }
}
