/**
 Two things that happen only in pass-through and naive fetch (internal/cmek/manager.go:131-186), on runs: a direct seal
 can hand out a DEK that is never installed, and one that joins a renewal's generate crashes. Exactly when, what follows
 from it, and that neither happens to a tenant kept in async or sync fetch. Witnesses.dfy has a run into each.
 */
module DirectCalls {
  import opened Prelude
  import opened Envelope
  import opened KeyState
  import opened Protocol
  import opened Steps
  import opened Structure
  import opened References
  import opened Permits
  import E = EndToEnd

  // ---- Who led the flight that crashes a joiner ----

  predicate LedResult(f: Flight, out: Out) {
    && (out.Plain? <==> !DirectKind(f.kind))
    && (f.key.FGenerate? ==> IsRenew(f.kind) || f.kind.SealOnce?)
  }

  /** A joiner waits on its own key. */
  predicate WaitsOn(s: Sys, key: FlightKey, l: nat) {
    && (l in s.h.led ==> s.h.led[l].key == key)
    && (l in s.ops && s.ops[l].leads ==> s.ops[l].key == key)
  }

  ghost predicate Led(s: Sys) {
    && s.h.led.Keys == s.results.Keys
    && (forall l | l in s.results :: LedResult(s.h.led[l], s.results[l]))
    && (forall i | i in s.ops && s.ops[i].pc.Joined? :: WaitsOn(s, s.ops[i].key, s.ops[i].pc.leader))
  }

  lemma SettleKeepsLed(cfg: Config, s: Sys, i: nat, op: Job, e: Event)
    requires TaskMay(cfg, s, op, e) && Settling(e) && !e.Land?
    ensures MoveOf(cfg, s, i, op, e).h.led == s.h.led
  {
    if e.Wake? { WakeKeepsLed(s, op, s.results[op.pc.leader]); }
  }

  lemma WakeKeepsLed(s: Sys, op: Job, out: Out)
    ensures DoWake(s, op, out).h == s.h
  {
  }

  lemma FinishKeepsHist(cfg: Config, s: Sys, op: Job, out: Out, at: int)
    requires op.kind.Cold? ==> s.t.waiters > 0
    ensures DoFinish(cfg, s, op, out, at).h == s.h
  {
  }

  lemma MoveKeepsLed(cfg: Config, s: Sys, i: nat, op: Job, e: Event)
    requires TaskMay(cfg, s, op, e) && !e.Land?
    ensures MoveOf(cfg, s, i, op, e).h.led == s.h.led
  {
    if Asking(e) { AskOnly(cfg, s, i, op, e); }
    else if Settling(e) { SettleKeepsLed(cfg, s, i, op, e); }
    else if e.Finish? { FinishKeepsHist(cfg, s, op, op.pc.out, e.at); }
  }

  lemma LevelLed(s: Sys, i: nat, m: Move)
    requires Led(s) && i in s.ops && Level(s, s.ops[i], m) && m.h.led == s.h.led
    ensures Led(Carry(s, i, m))
  {
  }

  lemma JoinLed(s: Sys, i: nat)
    requires Led(s) && Flying(s) && i in s.ops && s.ops[i].pc.Entering? && !s.ops[i].leads
    requires s.ops[i].key in s.flights && Shape(s.ops[s.flights[s.ops[i].key]])
    ensures Led(Carry(s, i, To(s, s.ops[i].(pc := Joined(s.flights[s.ops[i].key])))))
  {
  }

  lemma LeadLed(s: Sys, i: nat)
    requires Led(s) && Flying(s) && i in s.ops && s.ops[i].pc.Entering? && !s.ops[i].leads
    ensures Led(Carry(s, i, To(s, s.ops[i].(leads := true, pc := Checking)).(flights := s.flights[s.ops[i].key := i])))
  {
    assert forall j | j in s.ops && s.ops[j].pc.Joined? :: Awaited(s, s.ops[j].pc.leader) && s.ops[j].pc.leader != i;
  }

  lemma EnterLed(s: Sys, i: nat)
    requires Led(s) && Flying(s) && i in s.ops && s.ops[i].pc.Entering? && forall j | j in s.ops :: Shape(s.ops[j])
    ensures Led(Carry(s, i, DoEnter(s, i, s.ops[i])))
  {
    if s.ops[i].key in s.flights { JoinLed(s, i); } else { LeadLed(s, i); }
  }

  lemma LandLed(s: Sys, i: nat, out: Out)
    requires Led(s) && Flying(s) && i in s.ops && Shape(s.ops[i]) && s.ops[i].pc == Landed(out)
    ensures Led(Carry(s, i, DoLand(s, i, s.ops[i], out)))
  {
  }

  lemma CarryLed(cfg: Config, s: Sys, i: nat, e: Event)
    requires Led(s) && Flying(s) && i in s.ops && TaskMay(cfg, s, s.ops[i], e) && forall j | j in s.ops :: Shape(s.ops[j])
    ensures Led(Carry(s, i, MoveOf(cfg, s, i, s.ops[i], e)))
  {
    if e.Land? {
      LandLed(s, i, s.ops[i].pc.out);
    } else if e.Enter? {
      EnterLed(s, i);
    } else {
      MoveLevel(cfg, s, i, s.ops[i], e);
      MoveKeepsLed(cfg, s, i, s.ops[i], e);
      LevelLed(s, i, MoveOf(cfg, s, i, s.ops[i], e));
    }
  }

  lemma PlaceLed(s: Sys, c: Call)
    requires Led(s) && Flying(s) && (c.born.Some? ==> !c.born.value.pc.Joined? && !c.born.value.leads)
    ensures Led(Place(s, c))
  {
  }

  lemma EntryLed(cfg: Config, s: Sys, e: Event)
    requires Led(s) && Flying(s)
    ensures Led(Entry(cfg, s, e))
  {
    BornCarriesNothing(cfg, s, e);
    PlaceLed(s, CallOf(cfg, s, e));
  }

  lemma StepLed(cfg: Config, s: Sys, e: Event)
    requires Sound(cfg, s) && Led(s) && Enabled(cfg, s, e)
    ensures Led(Next(cfg, s, e))
  {
    match Mover(e)
    case None => EntryLed(cfg, s, e);
    case Some(i) => CarryLed(cfg, s, i, e);
  }

  lemma {:induction false} RunLed(cfg: Config, s: Sys, es: seq<Event>)
    requires Sound(cfg, s) && Led(s) && Legal(cfg, s, es)
    ensures Led(Run(cfg, s, es))
    decreases |es|
  {
    if es != [] {
      StepSound(cfg, s, es[0]);
      StepLed(cfg, s, es[0]);
      RunLed(cfg, Next(cfg, s, es[0]), es[1..]);
    }
  }

  lemma ReachableLed(cfg: Config, s: Sys)
    requires Reachable(cfg, s)
    ensures Sound(cfg, s) && Led(s)
  {
    var name, start, mode, es :|
      start > 0 && Legal(cfg, Start(name, start, mode), es) && Run(cfg, Start(name, start, mode), es) == s;
    ReachableSound(cfg, s);
    StartSound(cfg, name, start, mode);
    RunLed(cfg, Start(name, start, mode), es);
  }

  /** Waking is the only step that can crash. */
  lemma OnlyWakingCrashes(cfg: Config, s: Sys, i: nat, op: Job, e: Event)
    requires TaskMay(cfg, s, op, e) && !e.Wake?
    ensures var v := MoveOf(cfg, s, i, op, e).op; v.Some? ==> !v.value.pc.Crashed?
  {
    if Asking(e) { AskingCrashesNot(cfg, s, i, op, e); }
    else if Settling(e) { SettlingCrashesNot(cfg, s, i, op, e); }
    else if e.Finish? { FinishEnds(cfg, s, op, op.pc.out, e.at); }
  }

  lemma AskingCrashesNot(cfg: Config, s: Sys, i: nat, op: Job, e: Event)
    requires TaskMay(cfg, s, op, e) && Asking(e)
    ensures var v := MoveOf(cfg, s, i, op, e).op; v.Some? ==> !v.value.pc.Crashed?
  {
    AskOnly(cfg, s, i, op, e);
  }

  lemma SettlingCrashesNot(cfg: Config, s: Sys, i: nat, op: Job, e: Event)
    requires TaskMay(cfg, s, op, e) && Settling(e) && !e.Wake?
    ensures var v := MoveOf(cfg, s, i, op, e).op; v.Some? ==> !v.value.pc.Crashed?
  {
    SettleOnly(cfg, s, i, op, e);
  }

  predicate CrashesAt(u: Sys, i: nat) { i in u.ops && u.ops[i].pc.Crashed? }

  /** A goroutine's step crashes it exactly when a direct seal wakes from a flight that a probe or a cold caller led. */
  lemma CrashExactly(cfg: Config, s: Sys, i: nat, e: Event)
    requires Reachable(cfg, s) && Mover(e) == Some(i) && Enabled(cfg, s, e)
    ensures e.Wake? ==> s.ops[i].pc.leader in s.h.led
    ensures CrashesAt(Next(cfg, s, e), i) <==>
              e.Wake? && s.ops[i].kind.SealOnce? && IsRenew(s.h.led[s.ops[i].pc.leader].kind)
  {
    ReachableLed(cfg, s);
    if e.Wake? {
      WakeCrash(s, i);
    } else {
      OnlyWakingCrashes(cfg, s, i, s.ops[i], e);
    }
  }

  lemma WakeCrash(s: Sys, i: nat)
    requires Led(s) && i in s.ops && s.ops[i].pc.Joined? && s.ops[i].pc.leader in s.results && Shape(s.ops[i])
    ensures var op := s.ops[i]; var l := op.pc.leader;
            l in s.h.led && DoWake(s, op, s.results[l]).op.Some? &&
            (DoWake(s, op, s.results[l]).op.value.pc.Crashed? <==> op.kind.SealOnce? && IsRenew(s.h.led[l].kind))
  {
    assert WaitsOn(s, s.ops[i].key, s.ops[i].pc.leader);
  }

  // ---- DEKs handed out and never installed ----

  /** A DEK on its way to a caller is installed, or its OK was stale when apply saw it. */
  predicate Placed(t: Tenant, stale: set<DekId>, out: Out) {
    out.Made? && out.r.err.NoErr? && !out.s.NoDek? ==>
      out.s.id in t.deks || (out.s.Fresh? && out.s.id in stale)
  }

  predicate LooseOp(t: Tenant, stale: set<DekId>, op: Job) {
    match op.pc
    case Storing(_, sub) => sub.Fresh? ==> sub.id !in stale
    case Applying(_, sub, _) => sub.Fresh? ==> sub.id !in stale
    case Landed(out) => Placed(t, stale, out)
    case Finishing(out) => Placed(t, stale, out)
    case _ => true
  }

  ghost predicate Loose(s: Sys) {
    && s.h.stale !! s.t.deks.Keys && s.h.stale <= s.h.minted.Keys
    && (forall i | i in s.ops :: LooseOp(s.t, s.h.stale, s.ops[i]))
    && (forall l | l in s.results :: Placed(s.t, s.h.stale, s.results[l]))
    && (forall h | h in s.handles :: h.dek in s.t.deks || h.dek in s.h.stale)
  }

  /** Only apply on a generate's stale OK adds to the ids left loose. */
  predicate Loosens(s: Sys, e: Event, id: DekId) {
    && e.ApplyEv? && e.i in s.ops && s.ops[e.i].pc.Applying?
    && s.ops[e.i].pc.s.Fresh? && s.ops[e.i].pc.s.id == id && IsOk(s.ops[e.i].pc.r) && Stale(s.t, s.ops[e.i].pc.r)
  }

  lemma MoveKeepsStale(cfg: Config, s: Sys, i: nat, op: Job, e: Event)
    requires TaskMay(cfg, s, op, e) && !e.ApplyEv?
    ensures MoveOf(cfg, s, i, op, e).h.stale == s.h.stale
  {
    if Asking(e) { AskOnly(cfg, s, i, op, e); }
    else if Settling(e) { SettleOnly(cfg, s, i, op, e); }
    else { FinishKeepsHist(cfg, s, op, op.pc.out, e.at); }
  }

  /** An id becomes loose exactly at its own apply, when the OK is stale there. */
  lemma LooseAtItsOwnApply(cfg: Config, s: Sys, e: Event, id: DekId)
    requires Enabled(cfg, s, e)
    ensures id in Next(cfg, s, e).h.stale <==> id in s.h.stale || Loosens(s, e, id)
  {
    match Mover(e)
    case None =>
    case Some(i) => if !e.ApplyEv? { MoveKeepsStale(cfg, s, i, s.ops[i], e); }
  }

  /** What goroutine i's step must do to keep the account of loose ids. */
  ghost predicate LooseMove(s: Sys, i: nat, m: Move) {
    && s.h.stale <= m.h.stale && m.h.stale !! m.t.deks.Keys && m.h.stale <= m.h.minted.Keys
    && (forall id | id in m.h.stale && id !in s.h.stale :: m.h.minted[id].drawnBy == i)
    && (m.op.Some? ==> LooseOp(m.t, m.h.stale, m.op.value))
    && (forall l | l in m.results :: Placed(m.t, m.h.stale, m.results[l]))
    && (m.handle.Some? ==> m.handle.value.dek in m.t.deks || m.handle.value.dek in m.h.stale)
  }

  lemma OthersLoose(s: Sys, i: nat, m: Move, j: nat)
    requires Keyed(s) && KeyedMove(s, i, m) && Loose(s) && LooseMove(s, i, m) && j in s.ops && j != i
    ensures LooseOp(m.t, m.h.stale, s.ops[j])
  {
    assert KeyedOp(s.h.minted, s.t, s.stored, j, s.ops[j]) && LooseOp(s.t, s.h.stale, s.ops[j]);
  }

  lemma CarryLoose(s: Sys, i: nat, m: Move)
    requires Keyed(s) && i in s.ops && KeyedMove(s, i, m) && Loose(s) && LooseMove(s, i, m)
    ensures Loose(Carry(s, i, m))
  {
    forall j | j in s.ops && j != i ensures LooseOp(m.t, m.h.stale, s.ops[j]) { OthersLoose(s, i, m, j); }
    HandlesLoose(s, i, m);
  }

  lemma HandlesLoose(s: Sys, i: nat, m: Move)
    requires KeyedMove(s, i, m) && Loose(s) && LooseMove(s, i, m)
    ensures forall h | h in With(s.handles, m.handle) :: h.dek in m.t.deks || h.dek in m.h.stale
  {
  }

  /** Enough for a step that installs nothing and leaves nothing loose. */
  lemma QuietLoose(s: Sys, i: nat, m: Move)
    requires Loose(s) && m.h.stale == s.h.stale && s.h.minted.Keys <= m.h.minted.Keys && m.t.deks.Keys == s.t.deks.Keys
    requires m.op.Some? ==> LooseOp(s.t, s.h.stale, m.op.value)
    requires m.results == s.results
    requires m.handle.Some? ==> m.handle.value.dek in s.t.deks || m.handle.value.dek in s.h.stale
    ensures LooseMove(s, i, m)
  {
    if m.op.Some? { SameDeksLoose(s.t, m.t, s.h.stale, m.op.value); }
    forall l | l in m.results ensures Placed(m.t, m.h.stale, m.results[l]) { assert Placed(s.t, s.h.stale, s.results[l]); }
  }

  lemma SameDeksLoose(t: Tenant, u: Tenant, stale: set<DekId>, op: Job)
    requires LooseOp(t, stale, op) && t.deks.Keys == u.deks.Keys
    ensures LooseOp(u, stale, op)
  {
  }

  lemma AskLoose(cfg: Config, s: Sys, i: nat, e: Event)
    requires Loose(s) && i in s.ops && TaskMay(cfg, s, s.ops[i], e) && Asking(e)
    ensures LooseMove(s, i, MoveOf(cfg, s, i, s.ops[i], e))
  {
    AskOnly(cfg, s, i, s.ops[i], e);
    QuietLoose(s, i, MoveOf(cfg, s, i, s.ops[i], e));
  }

  lemma AllocLoose(s: Sys, i: nat, op: Job, r: Reply, at: int)
    requires Keyed(s) && Loose(s) && r.prim.Some?
    ensures LooseMove(s, i, DoAlloc(s, i, op, r, at))
  {
    assert DekId(s.name, s.t.seqNo + 1) !in s.h.minted;
    QuietLoose(s, i, DoAlloc(s, i, op, r, at));
  }

  lemma WakeLoose(s: Sys, i: nat, op: Job, out: Out)
    requires Loose(s) && op.pc.Joined? && Placed(s.t, s.h.stale, out)
    ensures LooseMove(s, i, DoWake(s, op, out))
  {
    WakeKeepsLed(s, op, out);
    WokenLoose(s, op, out);
    QuietLoose(s, i, DoWake(s, op, out));
  }

  lemma WokenLoose(s: Sys, op: Job, out: Out)
    requires op.pc.Joined? && Placed(s.t, s.h.stale, out)
    ensures var m := DoWake(s, op, out);
            m.op.Some? && LooseOp(s.t, s.h.stale, m.op.value) && m.t == s.t && m.results == s.results && m.handle.None?
  {
    assert LooseOp(s.t, s.h.stale, op.(pc := Finishing(out)));
    assert LooseOp(s.t, s.h.stale, op.(pc := Finishing(Plain(NoErr))));
    assert LooseOp(s.t, s.h.stale, op.(pc := Crashed));
  }

  lemma LandLoose(s: Sys, i: nat, op: Job, out: Out)
    requires Loose(s) && Placed(s.t, s.h.stale, out)
    ensures LooseMove(s, i, DoLand(s, i, op, out))
  {
  }

  lemma SettleLoose(cfg: Config, s: Sys, i: nat, e: Event)
    requires Keyed(s) && Loose(s) && i in s.ops && TaskMay(cfg, s, s.ops[i], e) && Settling(e)
    ensures LooseMove(s, i, MoveOf(cfg, s, i, s.ops[i], e))
  {
    var op := s.ops[i];
    assert LooseOp(s.t, s.h.stale, op);
    if e.Alloc? { AllocLoose(s, i, op, op.pc.r, e.at); }
    else if e.Wake? { WakeLoose(s, i, op, s.results[op.pc.leader]); }
    else if e.Land? { LandLoose(s, i, op, op.pc.out); }
    else { ReplyLoose(cfg, s, i, op, e); }
  }

  lemma ReplyLoose(cfg: Config, s: Sys, i: nat, op: Job, e: Event)
    requires Loose(s) && LooseOp(s.t, s.h.stale, op) && TaskMay(cfg, s, op, e) && (e.Answer? || e.Return? || e.Put?)
    ensures LooseMove(s, i, MoveOf(cfg, s, i, op, e))
  {
    SettleOnly(cfg, s, i, op, e);
    SettledLoose(cfg, s, i, op, e);
    QuietLoose(s, i, MoveOf(cfg, s, i, op, e));
  }

  lemma SettledLoose(cfg: Config, s: Sys, i: nat, op: Job, e: Event)
    requires LooseOp(s.t, s.h.stale, op) && TaskMay(cfg, s, op, e) && (e.Answer? || e.Return? || e.Put?)
    ensures var m := MoveOf(cfg, s, i, op, e);
            m.op.Some? && LooseOp(s.t, s.h.stale, m.op.value) && m.results == s.results && m.h.minted == s.h.minted
  {
  }

  lemma AppliedOkKeys(cfg: Config, t: Tenant, op: KeyState.Op, sub: Subject, r: Reply, at: int, delay: int)
    requires Applicable(t, op, sub, r)
    ensures Apply(cfg, t, op, sub, r, at, delay).deks.Keys ==
              t.deks.Keys + if IsOk(r) && !Stale(t, r) && sub.Fresh? then {sub.id} else {}
  {
  }

  /** apply either installs the goroutine's new DEK or, if the OK is stale, leaves its id loose. */
  lemma ApplyLoose(cfg: Config, s: Sys, i: nat, op: Job, e: Event)
    requires Keyed(s) && Loose(s) && Shape(op) && KeyedOp(s.h.minted, s.t, s.stored, i, op) && LooseOp(s.t, s.h.stale, op)
    requires TaskMay(cfg, s, op, e) && e.ApplyEv?
    ensures LooseMove(s, i, MoveOf(cfg, s, i, op, e))
  {
    AppliedOkKeys(cfg, s.t, OpName(op), op.pc.s, op.pc.r, e.at, DelayOf(cfg, s.t, e.u));
    AppliedStale(cfg, s.h, s.t, op.pc.s, op.pc.r, e.at, e.u);
    var m := MoveOf(cfg, s, i, op, e);
    forall l | l in m.results ensures Placed(m.t, m.h.stale, m.results[l]) { assert Placed(s.t, s.h.stale, s.results[l]); }
  }

  lemma AppliedStale(cfg: Config, h: Hist, t: Tenant, sub: Subject, r: Reply, at: int, u: real)
    ensures HistApply(cfg, h, t, sub, r, at, u).stale == h.stale + if IsOk(r) && Stale(t, r) && sub.Fresh? then {sub.id} else {}
    ensures HistApply(cfg, h, t, sub, r, at, u).minted == h.minted
  {
  }

  lemma ColdHandle(cfg: Config, s: Sys, err: Err, at: int)
    requires s.t.waiters > 0 && (s.t.active.Some? ==> s.t.active.value in s.t.deks)
    ensures var h := ColdMove(cfg, s, err, at).handle; h.Some? ==> h.value.dek in s.t.deks
  {
  }

  /** The direct call's last section, exactly: a handle on the id it carries, if the tenant is authorized by then. */
  lemma DirectHandle(cfg: Config, s: Sys, count: bool, sub: Subject, r: Reply, at: int)
    requires r.err.NoErr? ==> !sub.NoDek?
    ensures var h := DirectMove(cfg, s, count, sub, r, at).handle;
            && (h.Some? <==> r.err.NoErr? && !s.t.state.Revoked? && Usable(cfg, s.t, at))
            && (h.Some? ==> !sub.NoDek? && h.value.dek == sub.id)
  {
  }

  lemma FinishLoose(cfg: Config, s: Sys, i: nat, e: Event)
    requires Keyed(s) && Loose(s) && i in s.ops && TaskMay(cfg, s, s.ops[i], e) && e.Finish?
    ensures LooseMove(s, i, MoveOf(cfg, s, i, s.ops[i], e))
  {
    var op, out := s.ops[i], s.ops[i].pc.out;
    assert LooseOp(s.t, s.h.stale, op) && Shape(op);
    if op.kind.Cold? { ColdHandle(cfg, s, out.err, e.at); }
    else if DirectKind(op.kind) { DirectHandle(cfg, s, op.kind.SealOnce?, out.s, out.r, e.at); }
    FinishKeepsHist(cfg, s, op, out, e.at);
    FinishCooler(cfg, s, op, out, e.at);
    FinishQuiet(cfg, s, op, out, e.at);
    QuietLoose(s, i, MoveOf(cfg, s, i, op, e));
  }

  lemma FinishQuiet(cfg: Config, s: Sys, op: Job, out: Out, at: int)
    requires op.kind.Cold? ==> s.t.waiters > 0
    ensures var m := DoFinish(cfg, s, op, out, at); m.op.None? && m.results == s.results
  {
  }

  lemma MoveLoose(cfg: Config, s: Sys, i: nat, e: Event)
    requires Keyed(s) && Loose(s) && i in s.ops && TaskMay(cfg, s, s.ops[i], e)
    ensures LooseMove(s, i, MoveOf(cfg, s, i, s.ops[i], e))
  {
    if Asking(e) { AskLoose(cfg, s, i, e); }
    else if Settling(e) { SettleLoose(cfg, s, i, e); }
    else if e.ApplyEv? { ApplyLoose(cfg, s, i, s.ops[i], e); }
    else { FinishLoose(cfg, s, i, e); }
  }

  lemma CallHandleOnDek(cfg: Config, s: Sys, e: Event)
    requires s.t.active.Some? ==> s.t.active.value in s.t.deks
    ensures var h := CallOf(cfg, s, e).handle; h.Some? ==> h.value.dek in s.t.deks
  {
    if e.EncryptEv? { EncryptOnDek(cfg, s, e.at); }
  }

  lemma EncryptOnDek(cfg: Config, s: Sys, at: int)
    ensures var h := EncryptCall(cfg, s, at).handle; h.Some? ==> h.value.dek in s.t.deks
  {
  }

  lemma PlaceLoose(s: Sys, c: Call)
    requires Loose(s) && c.t.deks.Keys == s.t.deks.Keys
    requires c.handle.Some? ==> c.handle.value.dek in s.t.deks
    requires c.born.Some? ==> LooseOp(s.t, s.h.stale, c.born.value)
    ensures Loose(Place(s, c))
  {
    forall i | i in s.ops ensures LooseOp(c.t, s.h.stale, s.ops[i]) { SameDeksLoose(s.t, c.t, s.h.stale, s.ops[i]); }
    forall l | l in s.results ensures Placed(c.t, s.h.stale, s.results[l]) { assert Placed(s.t, s.h.stale, s.results[l]); }
    if c.born.Some? { SameDeksLoose(s.t, c.t, s.h.stale, c.born.value); }
  }

  lemma EntryLoose(cfg: Config, s: Sys, e: Event)
    requires Keyed(s) && Loose(s)
    ensures Loose(Entry(cfg, s, e))
  {
    CallCooler(cfg, s, e);
    CallHandleOnDek(cfg, s, e);
    BornShaped(cfg, s, e);
    PlaceLoose(s, CallOf(cfg, s, e));
  }

  lemma InsideLoose(cfg: Config, s: Sys, i: nat, e: Event)
    requires Keyed(s) && Loose(s) && i in s.ops && TaskMay(cfg, s, s.ops[i], e)
    ensures Loose(Carry(s, i, MoveOf(cfg, s, i, s.ops[i], e)))
  {
    MoveKeyed(cfg, s, i, e);
    MoveLoose(cfg, s, i, e);
    CarryLoose(s, i, MoveOf(cfg, s, i, s.ops[i], e));
  }

  lemma StepLoose(cfg: Config, s: Sys, e: Event)
    requires Keyed(s) && Loose(s) && Enabled(cfg, s, e)
    ensures Loose(Next(cfg, s, e))
  {
    match Mover(e)
    case None => EntryLoose(cfg, s, e);
    case Some(i) => InsideLoose(cfg, s, i, e);
  }

  lemma {:induction false} RunLoose(cfg: Config, s: Sys, es: seq<Event>, id: DekId)
    requires Keyed(s) && Loose(s) && Legal(cfg, s, es)
    ensures var u := Run(cfg, s, es); Keyed(u) && Loose(u) && (id in s.h.stale ==> id in u.h.stale)
    decreases |es|
  {
    if es != [] {
      StepKeyed(cfg, s, es[0]);
      StepLoose(cfg, s, es[0]);
      LooseAtItsOwnApply(cfg, s, es[0], id);
      RunLoose(cfg, Next(cfg, s, es[0]), es[1..], id);
    }
  }

  lemma ReachableLoose(cfg: Config, s: Sys)
    requires Reachable(cfg, s)
    ensures Keyed(s) && Loose(s)
  {
    var name, start, mode, es :|
      start > 0 && Legal(cfg, Start(name, start, mode), es) && Run(cfg, Start(name, start, mode), es) == s;
    RunLoose(cfg, Start(name, start, mode), es, DekId(name, 0));
  }

  /** The step ends with a handle on a DEK the tenant does not have. */
  predicate HandsOutLoose(s: Sys, m: Move) { m.handle.Some? && m.handle.value.dek !in s.t.deks }

  /** The call made a DEK whose OK was stale at its own apply. */
  predicate CarriesLoose(s: Sys, out: Out) {
    out.Made? && out.r.err.NoErr? && out.s.Fresh? && out.s.id in s.h.stale
  }

  /**
   The last section of any goroutine hands out a DEK that is not installed exactly when it ends a direct generate whose
   OK was stale at its own apply, and the tenant is by now not Revoked and its lease usable, whatever ran in between.
   */
  lemma UninstalledDek(cfg: Config, s: Sys, i: nat, at: int)
    requires Reachable(cfg, s) && Enabled(cfg, s, Finish(i, at))
    ensures var op := s.ops[i];
            HandsOutLoose(s, MoveOf(cfg, s, i, op, Finish(i, at))) <==>
              && DirectKind(op.kind) && CarriesLoose(s, op.pc.out)
              && !s.t.state.Revoked? && Usable(cfg, s.t, at)
  {
    ReachableLoose(cfg, s);
    var op := s.ops[i];
    assert Shape(op) && LooseOp(s.t, s.h.stale, op);
    assert KeyedOp(s.h.minted, s.t, s.stored, i, op);
    if op.kind.Cold? { ColdHandle(cfg, s, op.pc.out.err, at); }
    else if DirectKind(op.kind) { DirectHandle(cfg, s, op.kind.SealOnce?, op.pc.out.s, op.pc.out.r, at); }
  }

  /** No entry point does. */
  lemma EntryHandlesInstalled(cfg: Config, s: Sys, e: Event)
    requires Reachable(cfg, s)
    ensures var h := CallOf(cfg, s, e).handle; h.Some? ==> h.value.dek in s.t.deks
  {
    ReachableLoose(cfg, s);
    CallHandleOnDek(cfg, s, e);
  }

  /** A DEK handed out uninstalled stays so along every further run: every row sealed under it is poison for good. */
  lemma UninstalledDekIsPoison(cfg: Config, s: Sys, h: Handle, es: seq<Event>, now: int, id: int, pt: Bytes, at: int)
    requires Reachable(cfg, s) && h in s.handles && h.dek !in s.t.deks && Legal(cfg, s, es)
    ensures var t := Run(cfg, s, es).t;
            && h.dek !in t.deks
            && (Seal(h, now, s.name, id, pt).Ok? ==> DecryptStep(cfg, t, Seal(h, now, s.name, id, pt).value.dek, at).OpenPoison?)
  {
    ReachableLoose(cfg, s);
    RunLoose(cfg, s, es, h.dek);
  }

  // ---- Neither happens with the cache ----

  /** No goroutine of a tenant kept in async or sync fetch crashes, and none of its handles is on a DEK it lacks. */
  lemma CachedIsSafe(cfg: Config, w: E.World, k: nat, i: nat, h: Handle)
    requires E.Reached(cfg, w) && k in w.tenants
    ensures !CrashesAt(w.tenants[k], i)
    ensures h in w.tenants[k].handles ==> h.dek in w.tenants[k].t.deks
  {
    E.ReachedOk(cfg, w);
    NoCrash(w.tenants[k], i);
  }

  lemma NoCrash(s: Sys, i: nat)
    requires Keyed(s) && E.Kept(s)
    ensures !CrashesAt(s, i)
  {
  }
}
