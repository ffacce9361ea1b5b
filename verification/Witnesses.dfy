/**
 Runs of the lease protocol that reach what it does not promise: a crash, a handle on a DEK that is never installed, and
 a stale OK about to bring a revoked tenant back. Each is built from a fresh tenant, one step at a time.
 */
module Witnesses {
  import opened Prelude
  import opened Envelope
  import opened KeyState
  import opened Protocol
  import opened Steps
  import opened Structure
  import opened References
  import opened Permits
  import R = Recovery
  import T = RevocationTight
  import G = OneGenerate
  import C = CacheSafety
  import A = StaleAnswers
  import KmsText

  // ---- One call at a time ----

  /** Nobody is inside a call, and no other tenant is either. */
  ghost predicate Clear(s: Sys) {
    s.others == 0 && Tokens(s.ops) == {} && s.t.inflight == 0
  }

  /** Goroutine i, about to make its call. */
  predicate AtDoor(s: Sys, i: nat) {
    i in s.ops && s.ops[i].pc.AtCap? && !s.ops[i].counted && !s.ops[i].sem && (s.ops[i].gen || s.ops[i].dek.Some?)
  }

  /** The same but for one goroutine, the in-flight count and the bookkeeping of sends. */
  predicate OnlyOp(s: Sys, u: Sys, i: nat, op: Job) {
    && u == s.(t := u.t, ops := s.ops[i := op], h := u.h)
    && u.t == s.t.(inflight := u.t.inflight)
    && u.h == s.h.(generates := u.h.generates, renewedAt := u.h.renewedAt)
  }

  /** In the middle of its call, the only one there. */
  ghost predicate Away(s: Sys, i: nat) {
    && i in s.ops && s.ops[i].pc.AtKms? && s.others == 0 && Tokens(s.ops) == {i}
    && s.t.inflight == One(s.ops[i].counted)
  }

  lemma Reach(cfg: Config, s: Sys, e: Event, u: Sys)
    requires Reachable(cfg, s) && Enabled(cfg, s, e) && Next(cfg, s, e) == u
    ensures Reachable(cfg, u)
  {
    R.ReachableNext(cfg, s, e);
  }

  lemma OnlyTwice(s: Sys, a: Sys, u: Sys, i: nat, op: Job, next: Job)
    requires OnlyOp(s, a, i, op) && OnlyOp(a, u, i, next)
    ensures OnlyOp(s, u, i, next)
  {
    assert s.ops[i := op][i := next] == s.ops[i := next];
  }

  lemma TokensPut(ops: map<nat, Job>, i: nat, op: Job)
    ensures Tokens(ops[i := op]) == Tokens(ops) - {i} + if op.sem then {i} else {}
  {
  }

  lemma CapIs(cfg: Config, s: Sys, op: Job)
    requires s.t.inflight == 0 && !s.t.fetch.Naive? && !op.counted
    ensures var c := 0 < cfg.tenantInflight;
            DoCap(cfg, s, op) == To(s, op.(counted := c, pc := AtSem)).(t := s.t.(inflight := One(c)))
  {
  }

  lemma CapStep(cfg: Config, s: Sys, i: nat) returns (u: Sys)
    requires Reachable(cfg, s) && AtDoor(s, i) && Clear(s) && !s.t.fetch.Naive?
    ensures Reachable(cfg, u) && i in u.ops && OnlyOp(s, u, i, s.ops[i].(counted := u.ops[i].counted, pc := AtSem))
    ensures u.t.inflight == One(u.ops[i].counted)
  {
    CapIs(cfg, s, s.ops[i]);
    u := Carry(s, i, DoCap(cfg, s, s.ops[i]));
    Reach(cfg, s, Cap(i), u);
  }

  lemma SemStep(cfg: Config, s: Sys, i: nat) returns (u: Sys)
    requires Reachable(cfg, s) && i in s.ops && s.ops[i].pc.AtSem? && s.others == 0 && Tokens(s.ops) == {} && 0 < cfg.providerInflight
    ensures Reachable(cfg, u) && OnlyOp(s, u, i, s.ops[i].(sem := true, pc := Sending)) && u.t == s.t
  {
    u := Carry(s, i, DoSem(s, s.ops[i], true));
    Reach(cfg, s, Sem(i, true), u);
  }

  lemma SendStep(cfg: Config, s: Sys, i: nat) returns (u: Sys)
    requires Reachable(cfg, s) && i in s.ops && s.ops[i].pc.Sending?
    ensures Reachable(cfg, u) && OnlyOp(s, u, i, s.ops[i].(pc := AtKms(s.now))) && u.t == s.t
  {
    u := Carry(s, i, DoSend(s, s.ops[i]));
    Reach(cfg, s, Send(i), u);
  }

  /** From the door to the KMS, sent now. */
  lemma Goes(cfg: Config, s: Sys, i: nat) returns (u: Sys)
    requires Reachable(cfg, s) && AtDoor(s, i) && Clear(s) && !s.t.fetch.Naive? && 0 < cfg.providerInflight
    ensures Reachable(cfg, u) && Away(u, i)
    ensures OnlyOp(s, u, i, s.ops[i].(counted := u.ops[i].counted, sem := true, pc := AtKms(s.now)))
  {
    var a := CapStep(cfg, s, i);
    TokensPut(s.ops, i, a.ops[i]);
    var b := SemStep(cfg, a, i);
    u := SendStep(cfg, b, i);
    OnlyTwice(s, a, b, i, a.ops[i], b.ops[i]);
    OnlyTwice(s, b, u, i, b.ops[i], u.ops[i]);
    TokensPut(s.ops, i, u.ops[i]);
  }

  /** The answer, and where the goroutine stands once its permits are back. */
  function KmsSays(s: Sys, op: Job, key: Key): Reply
    requires op.pc.AtKms? && (op.gen || (op.dek.Some? && op.dek.value in s.t.deks))
  {
    AnswerOf(s, op, op.pc.sentAt, false, key)
  }

  lemma AnswerStep(cfg: Config, s: Sys, i: nat, key: Key) returns (u: Sys)
    requires Reachable(cfg, s) && i in s.ops && s.ops[i].pc.AtKms?
    requires s.ops[i].gen || (s.ops[i].dek.Some? && s.ops[i].dek.value in s.t.deks)
    ensures Reachable(cfg, u) && OnlyOp(s, u, i, s.ops[i].(pc := Back(KmsSays(s, s.ops[i], key)))) && u.t == s.t && u.h == s.h
  {
    u := Carry(s, i, To(s, s.ops[i].(pc := Back(KmsSays(s, s.ops[i], key)))));
    Reach(cfg, s, Answer(i, false, key), u);
  }

  lemma ReturnStep(cfg: Config, s: Sys, i: nat) returns (u: Sys)
    requires Reachable(cfg, s) && i in s.ops && s.ops[i].pc.Back? && (s.ops[i].gen || s.ops[i].dek.Some?)
    requires s.t.inflight == One(s.ops[i].counted)
    ensures Reachable(cfg, u) && u.t.inflight == 0 && u.h == s.h
    ensures var op := s.ops[i]; var r := op.pc.r;
            OnlyOp(s, u, i, op.(counted := false, sem := false,
                                pc := if op.gen && r.err.NoErr? then Allocating(r) else Applying(r, CallSubject(op), s.now)))
  {
    u := Carry(s, i, DoReturn(s, s.ops[i], s.ops[i].pc.r));
    Reach(cfg, s, Return(i), u);
  }

  /** From the KMS back, answered now by the key's flag. */
  lemma ComesBack(cfg: Config, s: Sys, i: nat, key: Key) returns (u: Sys)
    requires Reachable(cfg, s) && Away(s, i) && (s.ops[i].gen || (s.ops[i].dek.Some? && s.ops[i].dek.value in s.t.deks))
    ensures Reachable(cfg, u) && Clear(u) && u.h == s.h
    ensures var op := s.ops[i]; var r := KmsSays(s, op, key);
            OnlyOp(s, u, i, op.(counted := false, sem := false,
                                pc := if op.gen && r.err.NoErr? then Allocating(r) else Applying(r, CallSubject(op), s.now)))
  {
    var a := AnswerStep(cfg, s, i, key);
    u := ReturnStep(cfg, a, i);
    OnlyTwice(s, a, u, i, a.ops[i], u.ops[i]);
    TokensPut(s.ops, i, u.ops[i]);
  }

  // ---- A tenant with its DEK, at rest, then without its cache ----

  ghost predicate Rests(s: Sys, now: int) {
    && s.now == now && 0 < now && s.enabled && s.ops == map[] && s.flights == map[] && Clear(s)
    && G.HasOne(s.t) && s.t.deks[s.t.active.value].createdAt == now
    && s.t.deniedAt == 0 && s.h.denyChecked == 0
  }

  lemma LandStep(cfg: Config, s: Sys, i: nat) returns (u: Sys)
    requires Reachable(cfg, s) && i in s.ops && s.ops[i].pc.Landed?
    ensures Reachable(cfg, u) && u == Carry(s, i, DoLand(s, i, s.ops[i], s.ops[i].pc.out))
  {
    u := Carry(s, i, DoLand(s, i, s.ops[i], s.ops[i].pc.out));
    Reach(cfg, s, Land(i), u);
  }

  lemma ProbeEnds(cfg: Config, s: Sys, i: nat) returns (u: Sys)
    requires Reachable(cfg, s) && i in s.ops && s.ops[i].pc.Finishing? && s.ops[i].kind.Probe? && 0 < s.now
    ensures Reachable(cfg, u) && u == s.(t := s.t.(probing := false), ops := s.ops - {i})
  {
    u := Carry(s, i, DoFinish(cfg, s, s.ops[i], s.ops[i].pc.out, s.now));
    Reach(cfg, s, Finish(i, s.now), u);
  }

  lemma NobodyThere(cfg: Config, s: Sys)
    requires Reachable(cfg, s) && s.ops == map[]
    ensures s.flights == map[] && s.t.inflight == 0 && Tokens(s.ops) == {}
  {
    ReachableSound(cfg, s);
    assert Having(IsCounted, s.ops) == {};
    assert forall k :: k !in s.flights;
  }

  lemma FirstDekRests(cfg: Config, name: Bytes, now: int) returns (s: Sys)
    requires T.Workable(cfg) && 0 < now
    ensures Reachable(cfg, s) && Rests(s, now)
  {
    var a := T.FirstDek(cfg, name, now);
    var b := LandStep(cfg, a, 0);
    s := ProbeEnds(cfg, b, 0);
    NobodyThere(cfg, s);
  }

  /** Pass-through: the cache is dropped, nothing else. */
  lemma DropsCache(cfg: Config, s: Sys) returns (u: Sys)
    requires Reachable(cfg, s) && !Direct(s.t)
    ensures Reachable(cfg, u) && u == s.(t := Purge(s.t.(fetch := PassThrough)))
  {
    u := s.(t := SetFetch(s.t, PassThrough));
    assert u == Entry(cfg, s, Mode(PassThrough));
    Reach(cfg, s, Mode(PassThrough), u);
  }

  lemma OpensDirect(cfg: Config, s: Sys, d: DekId) returns (u: Sys)
    requires Reachable(cfg, s) && s.t.state.Active? && s.t.fetch.PassThrough? && d in s.t.deks && 0 < s.now
    ensures Reachable(cfg, u) && u == s.(ops := s.ops[s.nextOp := OpenOp(d)], nextOp := s.nextOp + 1)
  {
    u := Place(s, DecryptCall(cfg, s, s.now, d));
    Reach(cfg, s, DecryptEv(s.now, d), u);
  }

  // ---- A stale OK that takes effect ----

  /** Three workers opening messages under DEK d, each about to make its own call. */
  ghost predicate Three(s: Sys, x: nat, d: DekId) {
    && s.ops == map[x := OpenOp(d), x + 1 := OpenOp(d), x + 2 := OpenOp(d)] && Clear(s)
    && d in s.t.deks && s.t.fetch.PassThrough? && s.t.state.Active?
  }

  /** At rest at `now`, its DEK drawn at `drawn`, without the cache. */
  ghost predicate RestsDirect(s: Sys, d: DekId, drawn: int, now: int) {
    && s.now == now && 0 < now && s.enabled && s.ops == map[] && s.flights == map[] && Clear(s)
    && s.t.fetch.PassThrough? && s.t.state.Active? && s.t.active == Some(d) && d in s.t.deks && s.t.deks[d].createdAt == drawn
    && s.t.deniedAt == 0 && s.h.denyChecked == 0
  }

  lemma GoesDirect(cfg: Config, name: Bytes, start: int, now: int) returns (s: Sys, d: DekId)
    requires T.Workable(cfg) && 0 < start <= now
    ensures Reachable(cfg, s) && RestsDirect(s, d, start, now)
  {
    var s0 := FirstDekRests(cfg, name, start);
    d := s0.t.active.value;
    NotDirect(cfg, s0);
    var s1 := Waits(cfg, s0, now);
    s := DropsCache(cfg, s1);
  }

  lemma ThreeOpens(cfg: Config, s: Sys, d: DekId) returns (u: Sys)
    requires Reachable(cfg, s) && RestsDirect(s, d, s.now, s.now)
    ensures Reachable(cfg, u) && Three(u, s.nextOp, d) && u == s.(ops := u.ops, nextOp := u.nextOp)
  {
    var a := TwoOpens(cfg, s, d);
    u := OpensDirect(cfg, a, d);
    NoTokensYet(u.ops);
  }

  lemma ThreeWorkers(cfg: Config, name: Bytes, a: int) returns (s: Sys, x: nat, d: DekId)
    requires T.Workable(cfg) && 0 < a
    ensures Reachable(cfg, s) && Three(s, x, d) && s.now == a && s.enabled && s.t.deniedAt == 0 && s.h.denyChecked == 0
  {
    var s0, e := GoesDirect(cfg, name, a, a);
    d, x := e, s0.nextOp;
    s := ThreeOpens(cfg, s0, d);
  }

  lemma NotDirect(cfg: Config, s: Sys)
    requires Reachable(cfg, s) && G.HasOne(s.t)
    ensures !Direct(s.t)
  {
    C.ReachableSafe(cfg, s);
  }

  /** One open's call, answered at once. */
  lemma Calls(cfg: Config, s: Sys, i: nat, d: DekId) returns (u: Sys)
    requires Reachable(cfg, s) && Clear(s) && i in s.ops && s.ops[i] == OpenOp(d) && d in s.t.deks
    requires !s.t.fetch.Naive? && 0 < cfg.providerInflight
    ensures Reachable(cfg, u) && Clear(u) && AfterCall(s, u, i, Told(s, d, s.now))
  {
    var a := Goes(cfg, s, i);
    u := ComesBack(cfg, a, i, 0);
    OnlyTwice(s, a, u, i, a.ops[i], u.ops[i]);
  }

  predicate AfterCall(s: Sys, u: Sys, i: nat, op: Job) {
    u == s.(ops := s.ops[i := op], h := u.h) && u.h.denyChecked == s.h.denyChecked && u.h.stale == s.h.stale
  }

  /** An open whose call, sent at `sent`, is answered now by the key's flag. */
  function Told(s: Sys, d: DekId, sent: int): Job
    requires d in s.t.deks
  {
    OpenOp(d).(pc := Applying(if s.enabled then Reply(sent, KmsText.OK, NoErr, Some(s.t.deks[d].wrapped), s.now)
                              else Reply(sent, KmsText.Deny, Failed, None, s.now), Held(d), s.now))
  }

  lemma Revokes(cfg: Config, s: Sys) returns (u: Sys)
    requires Reachable(cfg, s) && s.enabled
    ensures Reachable(cfg, u) && u == s.(enabled := false, revokedAt := s.now)
  {
    u := s.(enabled := false, revokedAt := s.now);
    Reach(cfg, s, Flip(false), u);
  }

  lemma Waits(cfg: Config, s: Sys, to: int) returns (u: Sys)
    requires Reachable(cfg, s) && s.now <= to
    ensures Reachable(cfg, u) && u == s.(now := to)
  {
    u := s.(now := to);
    Reach(cfg, s, Advance(to), u);
  }

  /** A deny takes effect, with the clock reading `at`. */
  lemma Denied(cfg: Config, s: Sys, i: nat, d: DekId, at: int) returns (u: Sys)
    requires Reachable(cfg, s) && i in s.ops && s.ops[i].pc.Applying? && !s.ops[i].gen && !s.ops[i].leads
    requires s.ops[i].pc.r.err.Failed? && s.ops[i].pc.r.verdict.Deny? && s.ops[i].pc.s == Held(d) && d in s.t.deks
    requires s.ops[i].pc.since <= at <= s.now && 0 < at
    ensures Reachable(cfg, u) && i in u.ops && u.t == ApplyDeny(cfg, s.t, at)
    ensures u == s.(t := u.t, ops := s.ops[i := u.ops[i]], h := u.h)
    ensures u.ops[i].sem == s.ops[i].sem && u.h.denyChecked == Max(s.h.denyChecked, s.ops[i].pc.r.checked)
    ensures u.h.stale == s.h.stale
  {
    u := Carry(s, i, DoApply(cfg, s, s.ops[i], at, 0.0));
    Reach(cfg, s, ApplyEv(i, at, 0.0), u);
  }

  /** The OK is in, and the key goes. */
  lemma OkThenRevoked(cfg: Config, s: Sys, x: nat, d: DekId) returns (u: Sys)
    requires Reachable(cfg, s) && Three(s, x, d) && s.enabled && 0 < cfg.providerInflight
    ensures Reachable(cfg, u) && Clear(u) && !u.enabled && u.now == s.now && u.t == s.t && u.h.denyChecked == s.h.denyChecked
    ensures u.ops == s.ops[x := Told(s, d, s.now)]
  {
    var a := Calls(cfg, s, x, d);
    u := Revokes(cfg, a);
  }

  /** The first deny is in: neither has taken effect. */
  lemma OkThenDeny(cfg: Config, s: Sys, x: nat, d: DekId) returns (u: Sys)
    requires Reachable(cfg, s) && Three(s, x, d) && s.enabled && 0 < cfg.providerInflight
    ensures Reachable(cfg, u) && Clear(u) && !u.enabled && u.now == s.now && u.t == s.t && u.h.denyChecked == s.h.denyChecked
    ensures x in u.ops && u.ops[x] == Told(s, d, s.now) && x + 1 in u.ops && u.ops[x + 1] == Told(s.(enabled := false), d, s.now)
    ensures x + 2 in u.ops && u.ops[x + 2] == OpenOp(d)
  {
    var a := OkThenRevoked(cfg, s, x, d);
    u := Calls(cfg, a, x + 1, d);
  }

  /** An open's call, sent now, is answered at a later instant b by a deny. */
  lemma LaterNo(cfg: Config, s: Sys, z: nat, d: DekId, b: int) returns (u: Sys)
    requires Reachable(cfg, s) && Clear(s) && z in s.ops && s.ops[z] == OpenOp(d) && d in s.t.deks && !s.enabled
    requires s.t.fetch.PassThrough? && 0 < cfg.providerInflight && s.now <= b
    ensures Reachable(cfg, u) && Clear(u) && AfterCall(s.(now := b), u, z, Told(s.(now := b), d, s.now))
  {
    var a := Goes(cfg, s, z);
    var c := Waits(cfg, a, b);
    u := ComesBack(cfg, c, z, 0);
    OnlyTwice(s.(now := b), c, u, z, c.ops[z], u.ops[z]);
  }

  /** A worker's call is denied, checked and applied at a later instant b. */
  lemma LaterDeny(cfg: Config, s: Sys, z: nat, d: DekId, b: int) returns (u: Sys)
    requires Reachable(cfg, s) && Clear(s) && z in s.ops && s.ops[z] == OpenOp(d) && d in s.t.deks && !s.enabled
    requires s.t.fetch.PassThrough? && 0 < cfg.providerInflight && s.now <= b && 0 < b
    ensures Reachable(cfg, u) && Clear(u) && u == s.(t := ApplyDeny(cfg, s.t, b), now := b, ops := u.ops, h := u.h)
    ensures u.h.denyChecked == Max(s.h.denyChecked, b) && z in u.ops && u.ops == s.ops[z := u.ops[z]]
  {
    var e := LaterNo(cfg, s, z, d, b);
    u := Denied(cfg, e, z, d, b);
    assert u.ops == s.ops[z := u.ops[z]];
    TokensPut(s.ops, z, u.ops[z]);
  }

  /** An OK checked before the latest deny was, about to take effect on a revoked tenant. */
  predicate StaleOkDue(cfg: Config, s: Sys, i: nat, at: int) {
    && Enabled(cfg, s, ApplyEv(i, at, 0.0)) && IsOk(s.ops[i].pc.r) && s.ops[i].pc.r.checked < s.h.denyChecked
    && s.t.state.Revoked? && !s.enabled
    && Next(cfg, s, ApplyEv(i, at, 0.0)).t.state.Active?
  }

  lemma OkBringsBack(cfg: Config, s: Sys, x: nat, d: DekId, r: Reply, a: int)
    requires x in s.ops && s.ops[x] == OpenOp(d).(pc := Applying(r, Held(d), a)) && d in s.t.deks && 0 < a <= s.now
    requires r.err.NoErr? && r.verdict.OK? && r.sentAt == a && s.t.deniedAt == a
    ensures Enabled(cfg, s, ApplyEv(x, s.now, 0.0)) && Next(cfg, s, ApplyEv(x, s.now, 0.0)).t.state.Active?
  {
  }

  /** The OK and a deny are back at a; another deny is checked and applied at b, then the first is applied, as of a. */
  lemma DeniesCross(cfg: Config, s: Sys, x: nat, d: DekId, a: int, b: int) returns (u: Sys)
    requires Reachable(cfg, s) && Clear(s) && !s.enabled && s.now == a && 0 < a < b && s.h.denyChecked == 0
    requires s.t.fetch.PassThrough? && d in s.t.deks && 0 < cfg.providerInflight
    requires x in s.ops && x + 1 in s.ops && x + 2 in s.ops && s.ops[x + 2] == OpenOp(d)
    requires s.ops[x + 1] == Told(s, d, a)
    ensures Reachable(cfg, u) && x in u.ops && u.ops[x] == s.ops[x] && u.now == b && !u.enabled && d in u.t.deks
    ensures u.t.state.Revoked? && u.t.deniedAt == a && u.h.denyChecked == b
  {
    var e := LaterDeny(cfg, s, x + 2, d, b);
    u := Denied(cfg, e, x + 1, d, a);
  }

  /**
   For any two instants a < b a run reaches a state with the key disabled, the tenant revoked at a by the denial it took
   last though the KMS denied it again at b, and an OK from before that which makes it ACTIVE.
   */
  lemma DeniesOutOfOrder(cfg: Config, name: Bytes, a: int, b: int) returns (s: Sys, i: nat)
    requires T.Workable(cfg) && 0 < a < b
    ensures Reachable(cfg, s) && StaleOkDue(cfg, s, i, s.now) && s.t.deniedAt == a && s.h.denyChecked == b
  {
    var s1, x, d := ThreeWorkers(cfg, name, a);
    var s2 := OkThenDeny(cfg, s1, x, d);
    i := x;
    s := DeniesCross(cfg, s2, x, d, a, b);
    OkBringsBack(cfg, s, x, d, s.ops[x].pc.r, a);
  }

  // ---- A crash ----

  /** A probe leads the generate flight when the mode changes; a direct seal has joined it. */
  ghost predicate Joins(s: Sys) {
    && s.ops.Keys == {0, 1} && Clear(s) && 0 < s.now && s.t.fetch.PassThrough? && s.t.active.None? && s.t.deks == map[]
    && s.ops[0] == PROBE.(gen := true, key := FGenerate, leads := true, pc := Checking)
    && s.ops[1] == SEAL.(gen := true, key := FGenerate, pc := Joined(0))
    && s.flights == map[FGenerate := 0]
  }

  lemma DecideStep(cfg: Config, s: Sys, i: nat) returns (u: Sys)
    requires Reachable(cfg, s) && i in s.ops && s.ops[i].pc.Deciding? && 0 < s.now
    requires NeedsGenerate(cfg, s.t, s.ops[i].kind.SealOnce? || s.ops[i].kind.Cold?, s.now)
    ensures Reachable(cfg, u)
    ensures u == s.(ops := s.ops[i := s.ops[i].(gen := true, key := FGenerate, pc := Entering,
                                                dek := if s.ops[i].kind.SealOnce? then s.ops[i].dek else s.t.active)])
  {
    u := Carry(s, i, DoDecide(cfg, s, s.ops[i], s.now));
    Reach(cfg, s, Decide(i, s.now), u);
  }

  lemma EnterStep(cfg: Config, s: Sys, i: nat) returns (u: Sys)
    requires Reachable(cfg, s) && i in s.ops && s.ops[i].pc.Entering?
    ensures Reachable(cfg, u)
    ensures var op := s.ops[i];
            u == if op.key in s.flights then s.(ops := s.ops[i := op.(pc := Joined(s.flights[op.key]))])
                 else s.(flights := s.flights[op.key := i], ops := s.ops[i := op.(leads := true, pc := Checking)])
  {
    u := Carry(s, i, DoEnter(s, i, s.ops[i]));
    Reach(cfg, s, Enter(i), u);
  }

  lemma SealStarts(cfg: Config, s: Sys) returns (u: Sys)
    requires Reachable(cfg, s) && s.t.state.Active? && s.t.fetch.PassThrough? && 0 < s.now
    ensures Reachable(cfg, u) && u == s.(ops := s.ops[s.nextOp := SEAL], nextOp := s.nextOp + 1)
  {
    u := Place(s, EncryptCall(cfg, s, s.now));
    Reach(cfg, s, EncryptEv(s.now), u);
  }

  lemma ProbeStarts(cfg: Config, name: Bytes, now: int) returns (u: Sys)
    requires 0 < now
    ensures Reachable(cfg, u) && u == Start(name, now, Async).(t := NEW.(probing := true), ops := map[0 := PROBE], nextOp := 1)
  {
    var s := Start(name, now, Async);
    assert Legal(cfg, s, []) && Run(cfg, s, []) == s;
    T.KickCall(cfg, s, now);
    u := Place(s, HotCall(cfg, s, now));
    Reach(cfg, s, HotEv(now), u);
  }

  lemma ProbeLeads(cfg: Config, name: Bytes, now: int) returns (u: Sys)
    requires 0 < now
    ensures Reachable(cfg, u) && u.now == now && u.ops == map[0 := PROBE.(gen := true, key := FGenerate, leads := true, pc := Checking)]
    ensures u.flights == map[FGenerate := 0] && u.t == NEW.(probing := true) && u.nextOp == 1 && u.others == 0
  {
    var a := ProbeStarts(cfg, name, now);
    var b := DecideStep(cfg, a, 0);
    u := EnterStep(cfg, b, 0);
  }

  lemma SealJoinsRenewal(cfg: Config, name: Bytes, now: int) returns (u: Sys)
    requires 0 < now
    ensures Reachable(cfg, u) && Joins(u)
  {
    var a := ProbeLeads(cfg, name, now);
    var b := DropsCache(cfg, a);
    var c := SealStarts(cfg, b);
    var d := DecideStep(cfg, c, 1);
    u := EnterStep(cfg, d, 1);
    assert Tokens(u.ops) == {};
  }

  /** The probe's flight ends without a token for its call: a plain failure for whoever joined. */
  lemma FlightFails(cfg: Config, s: Sys) returns (u: Sys)
    requires Reachable(cfg, s) && Joins(s)
    ensures Reachable(cfg, u) && 1 in u.ops && u.ops[1] == s.ops[1] && 0 in u.results && u.results[0].Plain?
    ensures 0 in u.h.led && u.h.led[0].kind.Probe?
  {
    var a := CheckStep(cfg, s);
    var b := CallFails(cfg, a, s.ops[1]);
    u := LandStep(cfg, b, 0);
  }

  lemma CallFails(cfg: Config, s: Sys, joiner: Job) returns (u: Sys)
    requires Reachable(cfg, s) && Clear(s) && AtDoor(s, 0) && s.t.fetch.PassThrough? && 0 < s.now
    requires s.ops[0].kind.Probe? && s.ops[0].gen && s.ops[0].leads && 1 in s.ops && s.ops[1] == joiner
    ensures Reachable(cfg, u) && 0 in u.ops && 1 in u.ops && u.ops[1] == joiner
    ensures u.ops[0].pc == Landed(Plain(Failed)) && u.ops[0].kind.Probe?
  {
    var b := CapStep(cfg, s, 0);
    var c := NoToken(cfg, b, 0);
    var d := ReturnStep(cfg, c, 0);
    u := FailStep(cfg, d, 0);
  }

  lemma CheckStep(cfg: Config, s: Sys) returns (u: Sys)
    requires Reachable(cfg, s) && Joins(s)
    ensures Reachable(cfg, u) && u == s.(ops := s.ops[0 := s.ops[0].(pc := AtCap)]) && Tokens(u.ops) == {}
  {
    assert !Satisfied(cfg, s.t, false, s.now);
    u := Carry(s, 0, DoCheck(cfg, s, s.ops[0], s.now));
    Reach(cfg, s, Check(0, s.now), u);
    TokensPut(s.ops, 0, u.ops[0]);
  }

  lemma NoToken(cfg: Config, s: Sys, i: nat) returns (u: Sys)
    requires Reachable(cfg, s) && i in s.ops && s.ops[i].pc.AtSem?
    ensures Reachable(cfg, u)
    ensures u == s.(ops := s.ops[i := s.ops[i].(pc := Back(Reply(s.now, KmsText.Transient, Failed, None, s.now)))])
  {
    u := Carry(s, i, DoSem(s, s.ops[i], false));
    Reach(cfg, s, Sem(i, false), u);
  }

  lemma FailStep(cfg: Config, s: Sys, i: nat) returns (u: Sys)
    requires Reachable(cfg, s) && i in s.ops && s.ops[i].pc.Applying? && s.ops[i].pc.since <= s.now && 0 < s.now
    requires s.ops[i].pc.s == NoDek && s.ops[i].gen && s.ops[i].kind.Probe? && s.ops[i].leads
    requires s.ops[i].pc.r.err.Failed? && s.ops[i].pc.r.verdict.Transient?
    ensures Reachable(cfg, u) && i in u.ops && u.ops[i].pc == Landed(Plain(Failed)) && u.ops[i].kind.Probe?
    ensures u == s.(t := u.t, ops := s.ops[i := u.ops[i]], h := u.h)
  {
    u := Carry(s, i, DoApply(cfg, s, s.ops[i], s.now, 0.0));
    Reach(cfg, s, ApplyEv(i, s.now, 0.0), u);
  }

  /** A goroutine crashes: a direct seal that joined a probe's generate wakes to the probe's kind of value. */
  lemma CrashReached(cfg: Config, name: Bytes, now: int) returns (s: Sys, i: nat)
    requires 0 < now
    ensures Reachable(cfg, s) && i in s.ops && s.ops[i].pc.Crashed? && s.ops[i].kind.SealOnce?
  {
    var a := SealJoinsRenewal(cfg, name, now);
    var b := FlightFails(cfg, a);
    i := 1;
    s := Carry(b, 1, DoWake(b, b.ops[1], b.results[0]));
    Reach(cfg, b, Wake(1), s);
  }

  // ---- Exactly when the guard holds on runs ----

  /** The guard stops every OK checked before the latest deny, in every reachable state with this record of denials. */
  ghost predicate GuardHolds(cfg: Config, deniedAt: int, denyChecked: int) {
    forall s, e :: Reachable(cfg, s) && s.t.deniedAt == deniedAt && s.h.denyChecked == denyChecked ==> !A.StaleTakesEffect(cfg, s, e)
  }

  /**
   The stale-OK guard, exactly, for a tenant that was denied: no OK checked before the latest deny can take effect, in any
   reachable state of any mode, if and only if the recorded denial is no older than that deny's check.
   */
  lemma GuardExact(cfg: Config, deniedAt: int, denyChecked: int)
    requires T.Workable(cfg) && 0 < deniedAt
    ensures GuardHolds(cfg, deniedAt, denyChecked) <==> denyChecked <= deniedAt
  {
    if denyChecked <= deniedAt {
      forall s, e | Reachable(cfg, s) && s.t.deniedAt == deniedAt && s.h.denyChecked == denyChecked
        ensures !A.StaleTakesEffect(cfg, s, e)
      {
        A.GuardedWhenInOrder(cfg, s, e);
      }
    } else {
      var s, i := DeniesOutOfOrder(cfg, [], deniedAt, denyChecked);
      assert A.StaleTakesEffect(cfg, s, ApplyEv(i, s.now, 0.0));
    }
  }

  // ---- A DEK handed out and never installed ----

  lemma CheckGenerates(cfg: Config, s: Sys, i: nat) returns (u: Sys)
    requires Reachable(cfg, s) && i in s.ops && s.ops[i].pc.Checking? && s.ops[i].kind.SealOnce? && 0 < s.now
    requires NeedsGenerate(cfg, s.t, true, s.now)
    ensures Reachable(cfg, u) && u == s.(ops := s.ops[i := s.ops[i].(pc := AtCap)])
  {
    u := Carry(s, i, DoCheck(cfg, s, s.ops[i], s.now));
    Reach(cfg, s, Check(i, s.now), u);
  }

  /** A tenant without cache whose active DEK has aged out, one event to seal and two messages to open. */
  ghost predicate SealAndTwo(cfg: Config, s: Sys, x: nat, d: DekId) {
    && s.ops == map[x := SEAL, x + 1 := OpenOp(d), x + 2 := OpenOp(d)] && s.flights == map[] && Clear(s)
    && 0 < s.now && s.enabled && s.t.fetch.PassThrough? && s.t.state.Active? && s.t.deniedAt == 0
    && s.t.active == Some(d) && d in s.t.deks && Exhausted(cfg, s.t.deks[d], s.now)
  }

  lemma TwoOpens(cfg: Config, s: Sys, d: DekId) returns (u: Sys)
    requires Reachable(cfg, s) && s.t.state.Active? && s.t.fetch.PassThrough? && d in s.t.deks && 0 < s.now
    ensures Reachable(cfg, u)
    ensures u == s.(ops := s.ops[s.nextOp := OpenOp(d)][s.nextOp + 1 := OpenOp(d)], nextOp := s.nextOp + 2)
  {
    var a := OpensDirect(cfg, s, d);
    u := OpensDirect(cfg, a, d);
  }

  lemma SealAndOpens(cfg: Config, s: Sys, d: DekId) returns (u: Sys)
    requires Reachable(cfg, s) && s.t.active == Some(d) && RestsDirect(s, d, s.now - cfg.dekMaxAge, s.now)
    ensures Reachable(cfg, u) && SealAndTwo(cfg, u, s.nextOp, d)
  {
    var a := SealStarts(cfg, s);
    u := TwoOpens(cfg, a, d);
    NoTokensYet(u.ops);
  }

  lemma NoTokensYet(ops: map<nat, Job>)
    requires forall i | i in ops :: !ops[i].sem
    ensures Tokens(ops) == {}
  {
  }

  lemma AgedOut(cfg: Config, name: Bytes, now: int) returns (s: Sys, x: nat, d: DekId)
    requires T.Workable(cfg) && 0 < now
    ensures Reachable(cfg, s) && SealAndTwo(cfg, s, x, d)
  {
    var s0, e := GoesDirect(cfg, name, now, now + cfg.dekMaxAge);
    d, x := e, s0.nextOp;
    s := SealAndOpens(cfg, s0, d);
  }

  /** The seal leads a generate and stands before its call. */
  lemma SealLeads(cfg: Config, s: Sys, x: nat, d: DekId) returns (u: Sys)
    requires Reachable(cfg, s) && SealAndTwo(cfg, s, x, d)
    ensures Reachable(cfg, u) && Clear(u)
    ensures var op := SEAL.(gen := true, key := FGenerate, leads := true, pc := AtCap);
            u == s.(flights := map[FGenerate := x], ops := s.ops[x := op])
  {
    var a := DecideStep(cfg, s, x);
    var b := EnterStep(cfg, a, x);
    u := CheckGenerates(cfg, b, x);
    TokensPut(s.ops, x, u.ops[x]);
    assert u.ops == s.ops[x := u.ops[x]];
  }

  lemma AllocStep(cfg: Config, s: Sys, i: nat) returns (u: Sys)
    requires Reachable(cfg, s) && i in s.ops && s.ops[i].pc.Allocating? && s.ops[i].pc.r.prim.Some? && 0 < s.now
    ensures Reachable(cfg, u) && u == Carry(s, i, DoAlloc(s, i, s.ops[i], s.ops[i].pc.r, s.now))
  {
    u := Carry(s, i, DoAlloc(s, i, s.ops[i], s.ops[i].pc.r, s.now));
    Reach(cfg, s, Alloc(i, s.now), u);
  }

  lemma PutStep(cfg: Config, s: Sys, i: nat) returns (u: Sys)
    requires Reachable(cfg, s) && i in s.ops && s.ops[i].pc.Storing? && s.ops[i].pc.s.Fresh?
    ensures Reachable(cfg, u) && u.t == s.t
    ensures u == s.(stored := s.stored + {s.ops[i].pc.s.id}, ops := s.ops[i := s.ops[i].(pc := Applying(s.ops[i].pc.r, s.ops[i].pc.s, s.now))])
  {
    NewIdsAreNew(cfg, s, i);
    u := Carry(s, i, DoPut(s, s.ops[i], s.ops[i].pc.r, s.ops[i].pc.s, true));
    Reach(cfg, s, Put(i, true), u);
  }

  /** A direct generate, answered OK, drawn and stored; its OK, sent at `sent`, is yet to be applied. */
  ghost predicate Drew(s: Sys, i: nat, sent: int) {
    && i in s.ops && s.ops[i].kind.SealOnce? && s.ops[i].gen && s.ops[i].leads && !s.ops[i].sem && !s.ops[i].counted
    && s.ops[i].pc.Applying? && s.ops[i].pc.since <= s.now && s.ops[i].pc.s.Fresh? && s.ops[i].pc.s.id !in s.t.deks
    && s.ops[i].pc.r.err.NoErr? && s.ops[i].pc.r.verdict.OK? && s.ops[i].pc.r.sentAt == sent
  }

  /** The rest of the scene: two opens at the door and the old DEK. */
  ghost predicate Scene(s: Sys, x: nat, d: DekId) {
    && Clear(s) && d in s.t.deks && s.t.fetch.PassThrough? && 0 < s.now
    && x + 2 in s.ops && s.ops[x + 2] == OpenOp(d)
  }

  lemma GenerateCalled(cfg: Config, s: Sys, x: nat, d: DekId) returns (u: Sys)
    requires Reachable(cfg, s) && Clear(s) && AtDoor(s, x) && s.t.fetch.PassThrough? && s.enabled && 0 < cfg.providerInflight
    requires s.ops[x].gen && s.ops[x].kind.SealOnce? && s.ops[x].leads
    ensures Reachable(cfg, u) && Clear(u) && u.t == s.t && x in u.ops && u == s.(ops := s.ops[x := u.ops[x]], h := u.h)
    ensures u.ops[x].pc.Allocating? && u.ops[x].pc.r == Reply(s.now, KmsText.OK, NoErr, Some(0), s.now)
    ensures u.ops[x] == s.ops[x].(counted := false, sem := false, pc := u.ops[x].pc)
  {
    var a := Goes(cfg, s, x);
    u := ComesBack(cfg, a, x, 0);
    OnlyTwice(s, a, u, x, a.ops[x], u.ops[x]);
  }

  lemma DekDrawn(cfg: Config, s: Sys, x: nat, d: DekId) returns (u: Sys)
    requires Reachable(cfg, s) && SealAndTwo(cfg, s, x, d) && 0 < cfg.providerInflight
    ensures Reachable(cfg, u) && Scene(u, x, d) && Drew(u, x, s.now) && u.now == s.now && u.enabled
    ensures x + 1 in u.ops && u.ops[x + 1] == OpenOp(d)
  {
    var a := SealLeads(cfg, s, x, d);
    var b := GenerateCalled(cfg, a, x, d);
    u := DrawnAndStored(cfg, b, x);
  }

  lemma DrawnAndStored(cfg: Config, s: Sys, x: nat) returns (u: Sys)
    requires Reachable(cfg, s) && Clear(s) && 0 < s.now && x in s.ops && s.ops[x].pc.Allocating? && !s.ops[x].sem && !s.ops[x].counted
    requires s.ops[x].kind.SealOnce? && s.ops[x].gen && s.ops[x].leads
    requires s.ops[x].pc.r.err.NoErr? && s.ops[x].pc.r.verdict.OK? && s.ops[x].pc.r.prim.Some?
    ensures Reachable(cfg, u) && Clear(u) && Drew(u, x, s.ops[x].pc.r.sentAt) && u.now == s.now && u.enabled == s.enabled
    ensures u.t == s.t.(seqNo := u.t.seqNo) && u.ops == s.ops[x := u.ops[x]]
  {
    ReachableKeyed(cfg, s);
    var a := AllocStep(cfg, s, x);
    assert DekId(s.name, s.t.seqNo + 1) !in s.h.minted;
    u := PutStep(cfg, a, x);
    TokensPut(s.ops, x, u.ops[x]);
    assert u.ops == s.ops[x := u.ops[x]];
  }

  /** A stale OK is applied: nothing changes but that the DEK it made is left loose. */
  lemma IgnoresStale(cfg: Config, s: Sys, x: nat, sent: int) returns (u: Sys)
    requires Reachable(cfg, s) && Clear(s) && Drew(s, x, sent) && sent < s.t.deniedAt && 0 < s.now
    ensures Reachable(cfg, u) && Clear(u) && x in u.ops && u == s.(ops := s.ops[x := u.ops[x]], h := u.h)
    ensures u.ops[x] == s.ops[x].(pc := Landed(Made(s.ops[x].pc.s, s.ops[x].pc.r)))
  {
    u := Carry(s, x, DoApply(cfg, s, s.ops[x], s.now, 0.0));
    Reach(cfg, s, ApplyEv(x, s.now, 0.0), u);
    TokensPut(s.ops, x, u.ops[x]);
  }

  lemma Restores(cfg: Config, s: Sys) returns (u: Sys)
    requires Reachable(cfg, s) && !s.enabled
    ensures Reachable(cfg, u) && u == s.(enabled := true)
  {
    u := s.(enabled := true);
    Reach(cfg, s, Flip(true), u);
  }

  /** An open's fresh OK authorizes the tenant again. */
  lemma OkApplied(cfg: Config, s: Sys, z: nat, d: DekId) returns (u: Sys)
    requires Reachable(cfg, s) && z in s.ops && d in s.t.deks && s.enabled && s.ops[z] == Told(s, d, s.now)
    requires s.t.deniedAt <= s.now && s.t.sentAt == 0 && 0 < s.now
    ensures Reachable(cfg, u) && z in u.ops && u == s.(t := u.t, ops := s.ops[z := u.ops[z]], h := u.h)
    ensures u.t.state.Active? && u.t.sentAt == s.now && u.t.deks.Keys == s.t.deks.Keys
  {
    u := Carry(s, z, DoApply(cfg, s, s.ops[z], s.now, 0.0));
    Reach(cfg, s, ApplyEv(z, s.now, 0.0), u);
  }

  lemma TakesLoose(cfg: Config, s: Sys, x: nat, out: Out) returns (u: Sys, h: Handle)
    requires Reachable(cfg, s) && x in s.ops && s.ops[x].pc == Finishing(out) && s.ops[x].kind.SealOnce? && 0 < s.now
    requires out.Made? && out.s.Fresh? && out.r.err.NoErr? && out.s.id !in s.t.deks
    requires s.t.state.Active? && Usable(cfg, s.t, s.now)
    ensures Reachable(cfg, u) && h in u.handles && h.dek == out.s.id && h.dek !in u.t.deks
  {
    u := Carry(s, x, DoFinish(cfg, s, s.ops[x], out, s.now));
    Reach(cfg, s, Finish(x, s.now), u);
    h := HandleOn(cfg, s.t, out.s.id, out.r.prim);
  }

  /** The direct seal takes its flight's value and its handle. */
  lemma SealFinishes(cfg: Config, s: Sys, x: nat, out: Out) returns (u: Sys, h: Handle)
    requires Reachable(cfg, s) && x in s.ops && s.ops[x].pc == Landed(out) && s.ops[x].kind.SealOnce? && 0 < s.now
    requires out.Made? && out.s.Fresh? && out.r.err.NoErr? && out.s.id !in s.t.deks
    requires s.t.state.Active? && Usable(cfg, s.t, s.now)
    ensures Reachable(cfg, u) && h in u.handles && h.dek == out.s.id && h.dek !in u.t.deks
  {
    var a := LandStep(cfg, s, x);
    u, h := TakesLoose(cfg, a, x, out);
  }

  /** From the drawn DEK: the key goes and comes back, the generate's OK is stale, another call's is not. */
  lemma StaleThenBack(cfg: Config, s: Sys, x: nat, d: DekId) returns (u: Sys, out: Out)
    requires Reachable(cfg, s) && Scene(s, x, d) && Drew(s, x, s.now) && s.enabled && 0 < cfg.providerInflight
    requires x + 1 in s.ops && s.ops[x + 1] == OpenOp(d)
    ensures Reachable(cfg, u) && Clear(u) && !u.enabled && u.now == s.now + 1 && u.t == ApplyDeny(cfg, s.t, u.now)
    ensures x in u.ops && u.ops[x].kind.SealOnce? && u.ops[x].pc == Landed(out) && x + 2 in u.ops && u.ops[x + 2] == OpenOp(d)
    ensures out.Made? && out.s.Fresh? && out.r.err.NoErr? && out.s.id !in s.t.deks
  {
    var a := Revokes(cfg, s);
    var b := LaterDeny(cfg, a, x + 1, d, s.now + 1);
    out := Made(b.ops[x].pc.s, b.ops[x].pc.r);
    u := IgnoresStale(cfg, b, x, s.now);
  }

  lemma BackAndSealed(cfg: Config, s: Sys, x: nat, d: DekId, out: Out) returns (u: Sys, h: Handle)
    requires Reachable(cfg, s) && Clear(s) && !s.enabled && 0 < s.now && T.Workable(cfg)
    requires s.t.sentAt == 0 && s.t.deniedAt <= s.now && s.t.fetch.PassThrough? && d in s.t.deks
    requires x in s.ops && s.ops[x].kind.SealOnce? && s.ops[x].pc == Landed(out) && x + 2 in s.ops && s.ops[x + 2] == OpenOp(d)
    requires out.Made? && out.s.Fresh? && out.r.err.NoErr? && out.s.id !in s.t.deks
    ensures Reachable(cfg, u) && h in u.handles && h.dek !in u.t.deks
  {
    var a := Restores(cfg, s);
    var b := Calls(cfg, a, x + 2, d);
    var c := OkApplied(cfg, b, x + 2, d);
    u, h := SealFinishes(cfg, c, x, out);
  }

  /** A handle on a DEK the tenant does not have: what is sealed under it is poison for good. */
  lemma UninstalledReached(cfg: Config, name: Bytes, now: int) returns (s: Sys, h: Handle)
    requires T.Workable(cfg) && 0 < now
    ensures Reachable(cfg, s) && h in s.handles && h.dek !in s.t.deks
  {
    var a, x, d := AgedOut(cfg, name, now);
    var b := DekDrawn(cfg, a, x, d);
    var c, out := StaleThenBack(cfg, b, x, d);
    s, h := BackAndSealed(cfg, c, x, d, out);
  }
}
