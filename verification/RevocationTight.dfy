/**
 The bound on revocation cannot be improved: there is a run in which a key is disabled and a handle of the tenant seals
 up to the last instant before revokedAt + TTL - Early.

 The run: a fresh tenant's first renewal is kicked and answered at once, a handle is taken, the key is disabled.
 */
module RevocationTight {
  import opened Prelude
  import opened Envelope
  import opened KeyState
  import opened Protocol
  import opened Steps
  import opened Structure
  import opened References
  import opened Permits
  import opened Progress
  import R = Recovery
  import G = OneGenerate

  /** Everything that happened, happened now: the call was sent now and the DEK drawn now. */
  predicate JustNow(now: int, op: Job) {
    match op.pc
    case AtKms(sentAt) => sentAt == now
    case Back(r) => r.sentAt == now
    case Allocating(r) => r.sentAt == now
    case Storing(r, s) => r.sentAt == now && (s.Fresh? ==> s.dek.msgs == 0 && s.dek.createdAt == now)
    case Applying(r, s, _) => r.sentAt == now && (s.Fresh? ==> s.dek.msgs == 0 && s.dek.createdAt == now)
    case _ => true
  }

  /** The first probe of a fresh tenant on its way to the DEK. */
  ghost predicate FirstLap(cfg: Config, s: Sys) {
    && G.Once(cfg, s, 0, 0) && Clocked(s) && s.enabled && s.others == 0 && 0 < cfg.providerInflight
    && R.Alone(s, 0) && s.ops[0].kind.Probe?
    && (s.t.active.None? ==> s.t.sentAt == 0 && s.t.state.Active? && JustNow(s.now, s.ops[0]))
    && s.ops.Keys == {0} && s.t.deniedAt == 0 && s.h.denyChecked == 0
  }

  lemma AskJustNow(cfg: Config, s: Sys, op: Job, e: Event)
    requires TaskMay(cfg, s, op, e) && Asking(e) && (op.pc.AtCap? ==> s.t.inflight == 0) && (e.Sem? ==> e.got)
    ensures var m := MoveOf(cfg, s, 0, op, e); m.op.Some? && JustNow(s.now, m.op.value) && m.t.sentAt == s.t.sentAt && m.t.state == s.t.state
  {
    AskKeepsLease(cfg, s, op, e);
    AskStamps(cfg, s, op, e);
  }

  lemma AskKeepsLease(cfg: Config, s: Sys, op: Job, e: Event)
    requires TaskMay(cfg, s, op, e) && Asking(e)
    ensures var m := MoveOf(cfg, s, 0, op, e); m.t.sentAt == s.t.sentAt && m.t.state == s.t.state
  {
    AskOnly(cfg, s, 0, op, e);
  }

  lemma AskStamps(cfg: Config, s: Sys, op: Job, e: Event)
    requires TaskMay(cfg, s, op, e) && Asking(e) && (op.pc.AtCap? ==> s.t.inflight == 0) && (e.Sem? ==> e.got)
    ensures var m := MoveOf(cfg, s, 0, op, e); m.op.Some? && JustNow(s.now, m.op.value)
  {
    match e
    case Cap(_) => CapJustNow(cfg, s, op);
    case Decide(_, at) => DecideStamps(cfg, s, op, at);
    case Check(_, at) => CheckStamps(cfg, s, op, at);
    case _ =>
  }

  lemma DecideStamps(cfg: Config, s: Sys, op: Job, at: int)
    ensures var m := DoDecide(cfg, s, op, at); m.op.Some? && JustNow(s.now, m.op.value)
  {
  }

  lemma CheckStamps(cfg: Config, s: Sys, op: Job, at: int)
    ensures var m := DoCheck(cfg, s, op, at); m.op.Some? && JustNow(s.now, m.op.value)
  {
    CheckStops(cfg, s, op, at);
  }

  lemma CheckStops(cfg: Config, s: Sys, op: Job, at: int)
    ensures var m := DoCheck(cfg, s, op, at); m.op.Some? && (m.op.value.pc.Landed? || m.op.value.pc.AtCap?)
  {
  }

  lemma CapJustNow(cfg: Config, s: Sys, op: Job)
    requires s.t.inflight == 0
    ensures var m := DoCap(cfg, s, op); m.op.Some? && JustNow(s.now, m.op.value)
  {
    if s.t.fetch.Naive? {
    } else if cfg.tenantInflight == 0 {
    } else {
    }
  }

  lemma SettleJustNow(cfg: Config, s: Sys, op: Job, e: Event)
    requires TaskMay(cfg, s, op, e) && Settling(e) && JustNow(s.now, op) && (e.Alloc? ==> e.at == s.now)
    ensures var m := MoveOf(cfg, s, 0, op, e); m.op.Some? && JustNow(s.now, m.op.value) && m.t.sentAt == s.t.sentAt && m.t.state == s.t.state
  {
    SettleOnly(cfg, s, 0, op, e);
  }

  lemma NotJoined(cfg: Config, s: Sys)
    requires FirstLap(cfg, s) && s.t.active.None?
    ensures Movable(s, s.ops[0]) && G.OpBefore(s.t, s.results, s.ops[0]) && (s.ops[0].pc.AtCap? ==> s.t.inflight == 0)
  {
    R.NobodyElse(cfg, s, 0);
    assert G.OpBefore(s.t, s.results, s.ops[0]);
    assert forall j | j in s.ops && j != 0 :: !s.ops[j].leads;
  }

  lemma NextIsFine(cfg: Config, s: Sys)
    requires FirstLap(cfg, s) && s.t.active.None?
    ensures var e := R.GoodStep(s, 0, s.ops[0]); Enabled(cfg, s, e) && G.Fine(cfg, s, e) && Mover(e) == Some(0)
  {
    NotJoined(cfg, s);
    R.GoodStepEnabled(cfg, s, 0);
  }

  /** The DEK is there, unused, and both it and the lease date from now. */
  predicate Installed(s: Sys) {
    && G.HasOne(s.t) && !Direct(s.t) && s.t.sentAt == s.now && s.enabled
    && s.t.deks[s.t.active.value].msgs == 0 && s.t.deks[s.t.active.value].createdAt == s.now
    && s.t.deniedAt == 0 && s.h.denyChecked == 0 && s.others == 0
    && s.ops.Keys == {0} && s.ops[0].kind.Probe? && s.ops[0].pc.Landed?
  }

  lemma ApplyInstalls(cfg: Config, s: Sys, op: Job, e: Event)
    requires TaskMay(cfg, s, op, e) && e.ApplyEv? && Shape(op) && G.OpBefore(s.t, s.results, op) && JustNow(s.now, op)
    requires s.t.active.None? && s.t.deks == map[] && s.t.sentAt == 0 && 0 < s.now && !Direct(s.t) && s.enabled
    requires s.t.deniedAt == 0 && s.h.denyChecked == 0 && s.others == 0 && s.ops.Keys == {0} && op.kind.Probe?
    ensures Installed(Carry(s, 0, MoveOf(cfg, s, 0, op, e)))
  {
  }

  lemma MoveFirst(cfg: Config, s: Sys, e: Event)
    requires FirstLap(cfg, s) && s.t.active.None? && e == R.GoodStep(s, 0, s.ops[0])
    requires TaskMay(cfg, s, s.ops[0], e) && !e.ApplyEv?
    ensures var m := MoveOf(cfg, s, 0, s.ops[0], e);
            m.op.Some? && JustNow(s.now, m.op.value) && m.op.value.kind.Probe? && m.t.sentAt == s.t.sentAt && m.t.state == s.t.state
            && m.t.deniedAt == s.t.deniedAt && m.h.denyChecked == s.h.denyChecked
  {
    NotJoined(cfg, s);
    if Asking(e) { AskOnly(cfg, s, 0, s.ops[0], e); AskJustNow(cfg, s, s.ops[0], e); }
    else { SettleOnly(cfg, s, 0, s.ops[0], e); SettleJustNow(cfg, s, s.ops[0], e); }
  }

  lemma CarryFirst(cfg: Config, s: Sys, m: Move)
    requires FirstLap(cfg, s) && s.t.active.None? && G.Once(cfg, Carry(s, 0, m), 0, 0) && Clocked(Carry(s, 0, m))
    requires m.op.Some? && JustNow(s.now, m.op.value) && m.op.value.kind.Probe? && m.t.sentAt == s.t.sentAt && m.t.state == s.t.state
    requires m.t.deniedAt == s.t.deniedAt && m.h.denyChecked == s.h.denyChecked
    ensures FirstLap(cfg, Carry(s, 0, m))
  {
  }

  lemma FirstStep(cfg: Config, s: Sys)
    requires FirstLap(cfg, s) && s.t.active.None?
    requires Enabled(cfg, s, R.GoodStep(s, 0, s.ops[0])) && Mover(R.GoodStep(s, 0, s.ops[0])) == Some(0)
    requires G.Once(cfg, Next(cfg, s, R.GoodStep(s, 0, s.ops[0])), 0, 0) && Clocked(Next(cfg, s, R.GoodStep(s, 0, s.ops[0])))
    ensures var u := Next(cfg, s, R.GoodStep(s, 0, s.ops[0])); u.now == s.now && (Installed(u) || (FirstLap(cfg, u) && u.t.active.None?))
  {
    var e := R.GoodStep(s, 0, s.ops[0]);
    var m := MoveOf(cfg, s, 0, s.ops[0], e);
    NotJoined(cfg, s);
    if e.ApplyEv? {
      ApplyInstalls(cfg, s, s.ops[0], e);
    } else {
      MoveFirst(cfg, s, e);
      CarryFirst(cfg, s, m);
      StaysNone(cfg, s, s.ops[0], e);
    }
  }

  lemma StaysNone(cfg: Config, s: Sys, op: Job, e: Event)
    requires TaskMay(cfg, s, op, e) && (Asking(e) || Settling(e))
    ensures MoveOf(cfg, s, 0, op, e).t.active == s.t.active
  {
    if Asking(e) { AskOnly(cfg, s, 0, op, e); } else { SettleOnly(cfg, s, 0, op, e); }
  }

  lemma {:induction false} FirstLapWins(cfg: Config, s: Sys) returns (es: seq<Event>)
    requires FirstLap(cfg, s) && s.t.active.None?
    ensures Legal(cfg, s, es) && Installed(Run(cfg, s, es)) && Run(cfg, s, es).now == s.now
    decreases Rank(s.ops[0].pc)
  {
    var e := R.GoodStep(s, 0, s.ops[0]);
    NextIsFine(cfg, s);
    StepSound(cfg, s, e);
    StepClocked(cfg, s, e);
    G.StepCore(cfg, s, e, 0, 0);
    FirstStep(cfg, s);
    RankFalls(cfg, s, 0, s.ops[0], e);
    var rest := [];
    if !Installed(Next(cfg, s, e)) { rest := FirstLapWins(cfg, Next(cfg, s, e)); }
    es := [e] + rest;
    Prepend(cfg, s, e, rest);
  }

  /** A lease lasts, a DEK may be used, and a call can be made at all. */
  predicate Workable(cfg: Config) {
    0 < cfg.ttl - cfg.early && 0 < cfg.dekMaxMessages && 0 < cfg.dekMaxAge && 0 < cfg.providerInflight
  }

  lemma KickFirst(cfg: Config, name: Bytes, now: int)
    requires Workable(cfg) && 0 < now
    ensures var s := Start(name, now, Async);
            Enabled(cfg, s, HotEv(now)) && FirstLap(cfg, Next(cfg, s, HotEv(now))) && Next(cfg, s, HotEv(now)).t.active.None?
            && Next(cfg, s, HotEv(now)).now == now
  {
    var s := Start(name, now, Async);
    StartSound(cfg, name, now, Async);
    assert !G.Calling(s) && G.Before(s, 0, 0);
    StepSound(cfg, s, HotEv(now));
    G.StepCore(cfg, s, HotEv(now), 0, 0);
    StepClocked(cfg, s, HotEv(now));
    KickCall(cfg, s, now);
  }

  lemma KickCall(cfg: Config, s: Sys, now: int)
    requires !Direct(s.t) && !s.t.fetch.Sync? && s.t.state.Active? && !s.t.probing && s.t.sentAt == 0
    ensures HotCall(cfg, s, now) == Call(s.t.(probing := true), Some(PROBE), None)
  {
  }

  lemma TakesHandle(cfg: Config, s: Sys)
    requires Installed(s) && 0 < s.now && Workable(cfg)
    ensures var c := EncryptCall(cfg, s, s.now); c.handle.Some? && c.handle.value.validUntil == s.now + cfg.ttl - cfg.early && c.handle.value.prim.Some?
  {
    assert CanSeal(cfg, s.t, s.now);
  }

  /** The first event's handle, and then the key goes. */
  lemma RevokedAtOnce(cfg: Config, s: Sys) returns (u: Sys, h: Handle)
    requires Reachable(cfg, s) && Installed(s) && 0 < s.now && Workable(cfg)
    ensures Reachable(cfg, u) && !u.enabled && h in u.handles
    ensures h.validUntil == u.revokedAt + cfg.ttl - cfg.early && h.prim.Some?
  {
    TakesHandle(cfg, s);
    h := EncryptCall(cfg, s, s.now).handle.value;
    var t := Next(cfg, s, EncryptEv(s.now));
    R.ReachableNext(cfg, s, EncryptEv(s.now));
    u := Next(cfg, t, Flip(false));
    R.ReachableNext(cfg, t, Flip(false));
  }

  /** A fresh tenant can have its first DEK at once. */
  lemma FirstDek(cfg: Config, name: Bytes, now: int) returns (u: Sys)
    requires Workable(cfg) && 0 < now
    ensures Reachable(cfg, u) && Installed(u) && u.now == now
  {
    var s0 := Start(name, now, Async);
    assert Legal(cfg, s0, []) && Run(cfg, s0, []) == s0;
    KickFirst(cfg, name, now);
    R.ReachableNext(cfg, s0, HotEv(now));
    var s1 := Next(cfg, s0, HotEv(now));
    var es := FirstLapWins(cfg, s1);
    R.ReachableRun(cfg, s1, es);
    u := Run(cfg, s1, es);
  }

  /** In some reachable state with the key disabled a handle seals at every instant before the bound. */
  lemma BoundIsTight(cfg: Config, name: Bytes, now: int) returns (s: Sys, h: Handle)
    requires Workable(cfg) && 0 < now
    ensures Reachable(cfg, s) && !s.enabled && h in s.handles
    ensures forall at, tenant, msgID, pt :: Seal(h, at, tenant, msgID, pt).Ok? <==> at < s.revokedAt + cfg.ttl - cfg.early
  {
    var u := FirstDek(cfg, name, now);
    s, h := RevokedAtOnce(cfg, u);
  }
}
