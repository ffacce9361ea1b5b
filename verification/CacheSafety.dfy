/**
 Cache safety: a tenant that is parked, has no lease or fetches without the cache holds no key in the clear; after a
 sweep a key in the clear means a usable lease; the published state is the state, and it moves along the diagram only.
 */
module CacheSafety {
  import opened Prelude
  import opened Envelope
  import opened KeyState
  import opened Protocol
  import opened Steps

  ghost predicate AllCold(deks: map<DekId, Dek>) {
    forall id | id in deks :: deks[id].prim.None?
  }

  predicate MustBeCold(t: Tenant) {
    t.state.KeyUnavailable? || t.state.Revoked? || t.sentAt == 0 || Direct(t)
  }

  ghost predicate CacheOk(t: Tenant) {
    t.published == t.state && (MustBeCold(t) ==> AllCold(t.deks))
  }

  predicate CleanReply(r: Reply) { IsOk(r) ==> r.sentAt > 0 }

  predicate CleanSubject(s: Subject) { s.Fresh? ==> s.dek.prim.None? }

  predicate CleanOp(op: Job) {
    match op.pc
    case AtKms(sentAt) => sentAt > 0
    case Back(r) => CleanReply(r)
    case Allocating(r) => CleanReply(r)
    case Storing(r, s) => CleanReply(r) && CleanSubject(s)
    case Applying(r, s, _) => CleanReply(r) && CleanSubject(s)
    case _ => true
  }

  ghost predicate Safe(s: Sys) {
    && 0 < s.now
    && CacheOk(s.t)
    && forall i | i in s.ops :: CleanOp(s.ops[i])
  }

  // ---- Each section keeps it ----

  lemma PurgeCold(t: Tenant)
    ensures AllCold(Purge(t).deks)
  {
  }

  lemma ApplyOkSafe(t: Tenant, op: Op, sub: Subject, r: Reply, at: int)
    requires CacheOk(t) && !sub.NoDek? && (sub.Held? ==> sub.id in t.deks) && r.sentAt > 0 && CleanSubject(sub)
    ensures var u := ApplyOk(t, op, sub, r, at); CacheOk(u) && u.state.Active?
  {
  }

  lemma ApplyFailSafe(cfg: Config, t: Tenant, at: int, delay: int)
    requires CacheOk(t)
    ensures var u := ApplyFail(cfg, t, at, delay); CacheOk(u) && Edge(t.state, u.state)
  {
    PurgeCold(t);
  }

  lemma ApplySafe(cfg: Config, t: Tenant, op: Op, sub: Subject, r: Reply, at: int, delay: int)
    requires CacheOk(t) && Applicable(t, op, sub, r) && CleanReply(r) && CleanSubject(sub)
    ensures var u := Apply(cfg, t, op, sub, r, at, delay); CacheOk(u) && Edge(t.state, u.state)
  {
    ApplyFailSafe(cfg, t, at, delay);
    if IsOk(r) && !sub.NoDek? { ApplyOkSafe(t, op, sub, r, at); }
  }

  /** A sweep leaves no key in the clear past the lease; a riding tenant whose lease ended is parked. */
  lemma TickSafe(cfg: Config, t: Tenant, now: int, due: Due)
    requires CacheOk(t)
    ensures var u := Tick(cfg, t, now, due);
            CacheOk(u) && Edge(t.state, u.state) && (AllCold(u.deks) || Usable(cfg, u, now))
  {
    LapseSafe(cfg, t, now);
    AgeSafe(cfg, TickLapse(cfg, t, now), now);
  }

  lemma LapseSafe(cfg: Config, t: Tenant, now: int)
    requires CacheOk(t)
    ensures var u := TickLapse(cfg, t, now);
            CacheOk(u) && Edge(t.state, u.state) && (AllCold(u.deks) || Usable(cfg, u, now))
  {
    if |HotDeks(t)| == 0 {
      assert forall id | id in t.deks :: t.deks[id].prim.Some? ==> id in HotDeks(t);
    }
  }

  lemma AgeSafe(cfg: Config, t: Tenant, now: int)
    requires CacheOk(t)
    ensures var u := TickAge(cfg, t, now);
            CacheOk(u) && u.state == t.state && u.sentAt == t.sentAt && (AllCold(t.deks) ==> AllCold(u.deks))
  {
  }

  lemma EncryptSafe(cfg: Config, s: Sys, at: int)
    requires CacheOk(s.t)
    ensures var c := EncryptCall(cfg, s, at); CacheOk(c.t) && c.t.state == s.t.state
  {
  }

  lemma ModeSafe(t: Tenant, mode: Fetch)
    requires CacheOk(t)
    ensures var u := SetFetch(t, mode); CacheOk(u) && u.state == t.state
  {
    PurgeCold(t);
  }

  lemma CallSafe(cfg: Config, s: Sys, e: Event)
    requires CacheOk(s.t)
    ensures var c := CallOf(cfg, s, e);
            CacheOk(c.t) && Edge(s.t.state, c.t.state) && (c.born.Some? ==> CleanOp(c.born.value))
  {
    match e
    case TickEv(at, due) => TickSafe(cfg, s.t, at, due);
    case EncryptEv(at) => EncryptSafe(cfg, s, at);
    case Mode(mode) => ModeSafe(s.t, mode);
    case _ =>
  }

  lemma FinishSafe(cfg: Config, s: Sys, op: Job, out: Out, at: int)
    requires CacheOk(s.t) && (op.kind.Cold? ==> s.t.waiters > 0)
    ensures var m := DoFinish(cfg, s, op, out, at); CacheOk(m.t) && m.t.state == s.t.state && m.op.None?
  {
  }

  lemma ApplyMoveSafe(cfg: Config, s: Sys, i: nat, op: Job, e: Event)
    requires TaskMay(cfg, s, op, e) && e.ApplyEv? && CacheOk(s.t) && CleanOp(op)
    ensures var m := MoveOf(cfg, s, i, op, e);
            CacheOk(m.t) && Edge(s.t.state, m.t.state) && (m.op.Some? ==> CleanOp(m.op.value))
  {
    ApplySafe(cfg, s.t, OpName(op), op.pc.s, op.pc.r, e.at, DelayOf(cfg, s.t, e.u));
  }

  lemma SettleSafe(cfg: Config, s: Sys, i: nat, op: Job, e: Event)
    requires 0 < s.now && TaskMay(cfg, s, op, e) && CacheOk(s.t) && CleanOp(op) && Settling(e)
    ensures var m := MoveOf(cfg, s, i, op, e);
            CacheOk(m.t) && Edge(s.t.state, m.t.state) && (m.op.Some? ==> CleanOp(m.op.value))
  {
    SettleOnly(cfg, s, i, op, e);
  }

  lemma MoveSafe(cfg: Config, s: Sys, i: nat, op: Job, e: Event)
    requires 0 < s.now && TaskMay(cfg, s, op, e) && CacheOk(s.t) && CleanOp(op)
    ensures var m := MoveOf(cfg, s, i, op, e);
            CacheOk(m.t) && Edge(s.t.state, m.t.state) && (m.op.Some? ==> CleanOp(m.op.value))
  {
    if Asking(e) { AskOnly(cfg, s, i, op, e); }
    else if e.ApplyEv? { ApplyMoveSafe(cfg, s, i, op, e); }
    else if e.Finish? { FinishSafe(cfg, s, op, op.pc.out, e.at); }
    else { SettleSafe(cfg, s, i, op, e); }
  }

  lemma EntrySafe(cfg: Config, s: Sys, e: Event)
    requires Safe(s) && EntryMay(cfg, s, e)
    ensures var u := Entry(cfg, s, e); Safe(u) && Edge(s.t.state, u.t.state)
  {
    CallSafe(cfg, s, e);
  }

  lemma CarrySafe(cfg: Config, s: Sys, i: nat, e: Event)
    requires Safe(s) && i in s.ops && TaskMay(cfg, s, s.ops[i], e)
    ensures var u := Carry(s, i, MoveOf(cfg, s, i, s.ops[i], e)); Safe(u) && Edge(s.t.state, u.t.state)
  {
    MoveSafe(cfg, s, i, s.ops[i], e);
  }

  /** One step: the invariant is kept and the state moved along an edge. */
  lemma StepSafe(cfg: Config, s: Sys, e: Event)
    requires Safe(s) && Enabled(cfg, s, e)
    ensures var u := Next(cfg, s, e); Safe(u) && Edge(s.t.state, u.t.state)
  {
    match Mover(e)
    case None => EntrySafe(cfg, s, e);
    case Some(i) => CarrySafe(cfg, s, i, e);
  }

  lemma {:induction false} RunSafe(cfg: Config, s: Sys, es: seq<Event>)
    requires Safe(s) && Legal(cfg, s, es)
    ensures Safe(Run(cfg, s, es))
    decreases |es|
  {
    if es != [] {
      StepSafe(cfg, s, es[0]);
      RunSafe(cfg, Next(cfg, s, es[0]), es[1..]);
    }
  }

  lemma ReachableSafe(cfg: Config, s: Sys)
    requires Reachable(cfg, s)
    ensures Safe(s)
  {
    var name, start, mode, es :|
      start > 0 && Legal(cfg, Start(name, start, mode), es) && Run(cfg, Start(name, start, mode), es) == s;
    RunSafe(cfg, Start(name, start, mode), es);
  }

  /** In every reachable state. */
  lemma NoKeyWithoutAuthority(cfg: Config, s: Sys, id: DekId)
    requires Reachable(cfg, s)
    ensures s.t.published == s.t.state && (MustBeCold(s.t) && id in s.t.deks ==> s.t.deks[id].prim.None?)
  {
    ReachableSafe(cfg, s);
  }

  /** After every sweep. */
  lemma SweptMeansUsable(cfg: Config, s: Sys, at: int, due: Due, id: DekId)
    requires Reachable(cfg, s)
    ensures var u := Tick(cfg, s.t, at, due); id in u.deks && u.deks[id].prim.Some? ==> Usable(cfg, u, at)
  {
    ReachableSafe(cfg, s);
    TickSafe(cfg, s.t, at, due);
  }

  /** Every step of every run takes an edge of the diagram. */
  lemma OnlyDiagramEdges(cfg: Config, s: Sys, e: Event)
    requires Reachable(cfg, s) && Enabled(cfg, s, e)
    ensures Edge(s.t.state, Next(cfg, s, e).t.state)
  {
    ReachableSafe(cfg, s);
    StepSafe(cfg, s, e);
  }
}
