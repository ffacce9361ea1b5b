/** What the steps of a goroutine leave alone, so that an invariant need only look at the rest. */
module Steps {
  import opened Prelude
  import opened Envelope
  import opened KeyState
  import opened Protocol
  import KmsText

  /** An OK that apply will act on. */
  predicate IsOk(r: Reply) { r.verdict.OK? && !r.err.Busy? && !r.err.StoreErr? }

  /** Nothing but the warm list, the permit count and the DEK counter may differ. */
  predicate SameKeys(t: Tenant, u: Tenant) {
    u == t.(pending := u.pending, inflight := u.inflight, seqNo := u.seqNo)
  }

  /** Where a step up to the send can lead. */
  predicate AskPc(now: int, pc: Pc) {
    match pc
    case Entering => true
    case Joined(_) => true
    case Checking => true
    case AtCap => true
    case AtSem => true
    case Sending => true
    case AtKms(sentAt) => sentAt == now
    case Back(r) => r == Reply(now, KmsText.Transient, Failed, None, now)
    case Applying(r, s, since) => r == Busied() && !s.Fresh? && since == now
    case Landed(out) => out == Plain(NoErr)
    case _ => false
  }

  predicate Asked(s: Sys, op: Job, m: Move) {
    && m.op.Some? && m.handle.None? && m.results == s.results && m.stored == s.stored
    && SameKeys(s.t, m.t) && m.t.seqNo == s.t.seqNo
    && m.h == s.h.(generates := m.h.generates, renewedAt := m.h.renewedAt)
    && m.op.value.kind == op.kind && AskPc(s.now, m.op.value.pc)
  }

  lemma PcAsks(s: Sys, op: Job, pc: Pc)
    requires AskPc(s.now, pc)
    ensures Asked(s, op, To(s, op.(pc := pc)))
  {
  }

  lemma DecideAsks(cfg: Config, s: Sys, op: Job, at: int)
    ensures Asked(s, op, DoDecide(cfg, s, op, at))
  {
  }

  lemma CheckAsks(cfg: Config, s: Sys, op: Job, at: int)
    ensures Asked(s, op, DoCheck(cfg, s, op, at))
  {
    PcAsks(s, op, AtCap);
    PcAsks(s, op, Landed(Plain(NoErr)));
    PcAsks(s, op.(gen := false, dek := s.t.active), AtCap);
  }

  lemma CapAsks(cfg: Config, s: Sys, op: Job)
    ensures Asked(s, op, DoCap(cfg, s, op))
  {
    PcAsks(s, op, Sending);
    PcAsks(s, op, AtSem);
    PcAsks(s, op, Applying(Busied(), CallSubject(op), s.now));
  }

  lemma AskOnly(cfg: Config, s: Sys, i: nat, op: Job, e: Event)
    requires TaskMay(cfg, s, op, e) && Asking(e)
    ensures Asked(s, op, MoveOf(cfg, s, i, op, e))
  {
    match e
    case Decide(_, at) => DecideAsks(cfg, s, op, at);
    case Check(_, at) => CheckAsks(cfg, s, op, at);
    case Cap(_) => CapAsks(cfg, s, op);
    case _ =>
  }

  lemma CheckDek(cfg: Config, s: Sys, op: Job, at: int)
    ensures var v := DoCheck(cfg, s, op, at).op; v.Some? && (v.value.dek == op.dek || v.value.dek == s.t.active)
  {
  }

  lemma CapDek(cfg: Config, s: Sys, op: Job)
    ensures var v := DoCap(cfg, s, op).op; v.Some? && v.value.dek == op.dek
  {
  }

  lemma AskDek(cfg: Config, s: Sys, i: nat, op: Job, e: Event)
    requires TaskMay(cfg, s, op, e) && Asking(e)
    ensures var v := MoveOf(cfg, s, i, op, e).op; v.Some? && (v.value.dek == op.dek || v.value.dek == s.t.active)
  {
    if e.Check? { CheckDek(cfg, s, op, e.at); }
    else if e.Cap? { CapDek(cfg, s, op); }
  }

  // ---- From the answer to the end of the flight ----

  predicate Settling(e: Event) { e.Answer? || e.Return? || e.Alloc? || e.Put? || e.Land? || e.Wake? }

  /** What a call brings back: a failure, or the key if the KMS found its flag up now. */
  predicate Answers(s: Sys, sent: int, r: Reply) {
    && r.sentAt == sent && r.checked == s.now
    && (if r.verdict.OK? then r.err.NoErr? && s.enabled && r.prim.Some? else r.err.Failed? && r.prim.None?)
  }

  predicate SettlePc(s: Sys, op: Job, pc: Pc) {
    match op.pc
    case AtKms(sentAt) => pc.Back? && Answers(s, sentAt, pc.r)
    case Back(r) => pc == if op.gen && r.err.NoErr? then Allocating(r) else Applying(r, CallSubject(op), s.now)
    case Allocating(r) => pc.Storing? && pc.r == r && pc.s.Fresh? && pc.s.dek.prim.None?
    case Storing(r, sub) => pc.Applying? && pc.s == sub && pc.since == s.now && pc.r in {r, r.(err := StoreErr)}
    case Joined(_) => pc.Crashed? || pc.Finishing?
    case Landed(out) => pc == Finishing(out)
    case _ => false
  }

  predicate Settled(s: Sys, op: Job, m: Move) {
    && m.op.Some? && m.handle.None? && m.h == s.h.(minted := m.h.minted, led := m.h.led) && SameKeys(s.t, m.t)
    && m.op.value.kind == op.kind && m.op.value.gen == op.gen && SettlePc(s, op, m.op.value.pc)
  }

  lemma ReturnSettles(s: Sys, op: Job)
    requires op.pc.Back?
    ensures Settled(s, op, DoReturn(s, op, op.pc.r))
  {
  }

  lemma PutSettles(s: Sys, op: Job, ok: bool)
    requires op.pc.Storing? && op.pc.s.Fresh?
    ensures Settled(s, op, DoPut(s, op, op.pc.r, op.pc.s, ok))
  {
  }

  lemma WakeSettles(s: Sys, op: Job, out: Out)
    requires op.pc.Joined?
    ensures Settled(s, op, DoWake(s, op, out))
  {
  }

  lemma SettleOnly(cfg: Config, s: Sys, i: nat, op: Job, e: Event)
    requires TaskMay(cfg, s, op, e) && Settling(e)
    ensures Settled(s, op, MoveOf(cfg, s, i, op, e))
  {
    match e
    case Return(_) => ReturnSettles(s, op);
    case Put(_, ok) => PutSettles(s, op, ok);
    case Wake(_) => WakeSettles(s, op, s.results[op.pc.leader]);
    case _ =>
  }
}
