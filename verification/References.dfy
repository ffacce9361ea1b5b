/**
 Data keys by reference: an id is drawn once, a DEK is installed only after it was stored, is never removed and never
 changes its key, and every key in the clear, on its way or in a handle is the key of the id it goes by.
 */
module References {
  import opened Prelude
  import opened Envelope
  import opened KeyState
  import opened Protocol
  import opened Steps
  import opened Structure

  type Mints = map<DekId, Mint>

  predicate Is(m: Mints, id: DekId, prim: Option<Key>) {
    id in m && prim == Some(m[id].key)
  }

  predicate Names(m: Mints, sub: Subject, r: Reply) {
    r.err.NoErr? ==> !sub.NoDek? && Is(m, sub.id, r.prim)
  }

  predicate NamesOut(m: Mints, out: Out) { out.Made? ==> Names(m, out.s, out.r) }

  /** A DEK not installed yet belongs to the goroutine that drew its id. */
  predicate Own(m: Mints, t: Tenant, i: nat, sub: Subject) {
    sub.Fresh? ==> Is(m, sub.id, Some(sub.dek.wrapped)) && m[sub.id].drawnBy == i && sub.id !in t.deks
  }

  predicate KeyedOp(m: Mints, t: Tenant, stored: set<DekId>, i: nat, op: Job) {
    && (op.dek.Some? ==> op.dek.value in t.deks)
    && (op.kind.Warming? ==> op.kind.id in t.deks)
    && match op.pc
       case Back(r) => r.err.NoErr? && !op.gen && op.dek.Some? ==> Is(m, op.dek.value, r.prim)
       case Storing(r, sub) => Own(m, t, i, sub) && Names(m, sub, r) && (sub.Fresh? ==> sub.id !in stored)
       case Applying(r, sub, _) => Own(m, t, i, sub) && Names(m, sub, r) && (sub.Fresh? && r.err.NoErr? ==> sub.id in stored)
       case Landed(out) => NamesOut(m, out)
       case Finishing(out) => NamesOut(m, out)
       case _ => true
  }

  ghost predicate KeyedTenant(m: Mints, t: Tenant, stored: set<DekId>) {
    && (t.active.Some? ==> t.active.value in t.deks)
    && (forall id | id in t.deks :: Is(m, id, Some(t.deks[id].wrapped)) && id in stored)
    && (forall id | id in t.deks :: t.deks[id].prim.Some? ==> t.deks[id].prim.value == t.deks[id].wrapped)
  }

  ghost predicate Drawn(m: Mints, name: Bytes, t: Tenant) {
    forall id | id in m :: id.tenant == name && id.n <= t.seqNo
  }

  ghost predicate Keyed(s: Sys) {
    && Drawn(s.h.minted, s.name, s.t)
    && KeyedTenant(s.h.minted, s.t, s.stored)
    && (s.stored <= s.h.minted.Keys)
    && (forall i | i in s.ops :: Shape(s.ops[i]) && KeyedOp(s.h.minted, s.t, s.stored, i, s.ops[i]))
    && (forall l | l in s.results :: NamesOut(s.h.minted, s.results[l]))
    && (forall h | h in s.handles :: Is(s.h.minted, h.dek, h.prim))
  }

  // ---- What no step undoes ----

  /** Ids keep their key, DEKs stay. */
  ghost predicate Grows(m: Mints, t: Tenant, m': Mints, t': Tenant) {
    && (forall id | id in m :: id in m' && m'[id] == m[id])
    && (forall id | id in t.deks :: id in t'.deks && t'.deks[id].wrapped == t.deks[id].wrapped)
  }

  /** A DEK or a stored row that was not there before was drawn by goroutine i. */
  ghost predicate OnlyBy(i: nat, m: Mints, was: set<DekId>, has: set<DekId>) {
    was <= has && forall id | id in has && id !in was :: id in m && m[id].drawnBy == i
  }

  /** Goroutine i took the tenant from t to u, the ids in m from m0. */
  ghost predicate KeyedAfter(m0: Mints, m: Mints, name: Bytes, i: nat, t: Tenant, u: Tenant, stored: set<DekId>) {
    && Drawn(m, name, u) && KeyedTenant(m, u, stored) && Grows(m0, t, m, u) && OnlyBy(i, m, t.deks.Keys, u.deks.Keys)
  }

  /** The same DEKs with fewer of them in the clear. */
  ghost predicate Cooler(t: Tenant, u: Tenant) {
    && u.active == t.active && u.deks.Keys == t.deks.Keys && t.seqNo <= u.seqNo
    && forall id | id in t.deks ::
         u.deks[id].wrapped == t.deks[id].wrapped && (u.deks[id].prim.None? || u.deks[id].prim == t.deks[id].prim)
  }

  lemma CoolerKeyed(m: Mints, name: Bytes, i: nat, t: Tenant, u: Tenant, stored: set<DekId>)
    requires Cooler(t, u) && KeyedTenant(m, t, stored) && Drawn(m, name, t)
    ensures KeyedAfter(m, m, name, i, t, u, stored)
  {
  }

  lemma TickCooler(cfg: Config, t: Tenant, at: int, due: Due)
    ensures Cooler(t, Tick(cfg, t, at, due))
  {
    var l := TickLapse(cfg, t, at);
    assert Cooler(t, l);
    assert Cooler(l, TickAge(cfg, l, at));
  }

  lemma EncryptCooler(cfg: Config, s: Sys, at: int)
    ensures Cooler(s.t, EncryptCall(cfg, s, at).t)
  {
  }

  lemma CallCooler(cfg: Config, s: Sys, e: Event)
    ensures Cooler(s.t, CallOf(cfg, s, e).t)
  {
    match e
    case TickEv(at, due) => TickCooler(cfg, s.t, at, due);
    case EncryptEv(at) => EncryptCooler(cfg, s, at);
    case _ =>
  }

  /** Handles come from a key in the clear; a goroutine starts on a DEK that is there. */
  lemma EncryptKeyed(cfg: Config, s: Sys, at: int)
    requires KeyedTenant(s.h.minted, s.t, s.stored)
    ensures var c := EncryptCall(cfg, s, at); c.handle.Some? ==> Is(s.h.minted, c.handle.value.dek, c.handle.value.prim)
  {
  }

  lemma DecryptKeyed(cfg: Config, s: Sys, at: int, id: DekId)
    requires KeyedTenant(s.h.minted, s.t, s.stored)
    ensures var c := DecryptCall(cfg, s, at, id);
            && (c.handle.Some? ==> Is(s.h.minted, c.handle.value.dek, c.handle.value.prim))
            && (c.born.Some? ==> id in s.t.deks)
  {
  }

  lemma CallHandle(cfg: Config, s: Sys, e: Event)
    requires KeyedTenant(s.h.minted, s.t, s.stored)
    ensures var c := CallOf(cfg, s, e);
            && (c.handle.Some? ==> Is(s.h.minted, c.handle.value.dek, c.handle.value.prim))
  {
    match e
    case EncryptEv(at) => EncryptKeyed(cfg, s, at);
    case DecryptEv(at, id) => DecryptKeyed(cfg, s, at, id);
    case _ =>
  }

  lemma CallBorn(cfg: Config, s: Sys, e: Event)
    requires EntryMay(cfg, s, e)
    ensures var c := CallOf(cfg, s, e); c.born.Some? ==> KeyedOp(s.h.minted, s.t, s.stored, s.nextOp, c.born.value)
  {
    match e
    case TickEv(at, due) => TickCooler(cfg, s.t, at, NoDue);
    case _ =>
  }

  // ---- Steps of a goroutine ----

  ghost predicate KeyedMove(s: Sys, i: nat, m: Move) {
    && KeyedAfter(s.h.minted, m.h.minted, s.name, i, s.t, m.t, m.stored)
    && m.stored <= m.h.minted.Keys && OnlyBy(i, m.h.minted, s.stored, m.stored)
    && (m.op.Some? ==> Shape(m.op.value) && KeyedOp(m.h.minted, m.t, m.stored, i, m.op.value))
    && (m.handle.Some? ==> Is(m.h.minted, m.handle.value.dek, m.handle.value.prim))
    && (forall l | l in m.results :: NamesOut(m.h.minted, m.results[l]))
  }

  /** What a step may rely on. */
  ghost predicate Ready(s: Sys, i: nat) {
    Keyed(s) && i in s.ops
  }

  lemma SameKeysKeyed(s: Sys, i: nat, u: Tenant)
    requires Keyed(s) && SameKeys(s.t, u) && s.t.seqNo <= u.seqNo
    ensures KeyedAfter(s.h.minted, s.h.minted, s.name, i, s.t, u, s.stored)
  {
  }

  lemma AskKeyed(cfg: Config, s: Sys, i: nat, e: Event)
    requires Ready(s, i) && TaskMay(cfg, s, s.ops[i], e) && Asking(e)
    ensures KeyedMove(s, i, MoveOf(cfg, s, i, s.ops[i], e))
  {
    var m := MoveOf(cfg, s, i, s.ops[i], e);
    AskOnly(cfg, s, i, s.ops[i], e);
    AskDek(cfg, s, i, s.ops[i], e);
    AskShaped(cfg, s, i, s.ops[i], e);
    SameKeysKeyed(s, i, m.t);
  }

  lemma AnswerKeyed(cfg: Config, s: Sys, i: nat, e: Event)
    requires Ready(s, i) && TaskMay(cfg, s, s.ops[i], e) && e.Answer? && Shape(MoveOf(cfg, s, i, s.ops[i], e).op.value)
    ensures KeyedMove(s, i, MoveOf(cfg, s, i, s.ops[i], e))
  {
  }

  lemma ReturnKeyed(cfg: Config, s: Sys, i: nat, e: Event)
    requires Ready(s, i) && TaskMay(cfg, s, s.ops[i], e) && e.Return? && Shape(MoveOf(cfg, s, i, s.ops[i], e).op.value)
    ensures KeyedMove(s, i, MoveOf(cfg, s, i, s.ops[i], e))
  {
    SameKeysKeyed(s, i, MoveOf(cfg, s, i, s.ops[i], e).t);
  }

  lemma AllocKeyed(cfg: Config, s: Sys, i: nat, e: Event)
    requires Ready(s, i) && TaskMay(cfg, s, s.ops[i], e) && e.Alloc? && Shape(MoveOf(cfg, s, i, s.ops[i], e).op.value)
    ensures KeyedMove(s, i, MoveOf(cfg, s, i, s.ops[i], e))
  {
    AllocatedKeyed(s, i, s.ops[i].pc.r, e.at);
  }

  lemma AllocatedKeyed(s: Sys, i: nat, r: Reply, at: int)
    requires Ready(s, i) && s.ops[i].pc == Allocating(r) && r.prim.Some? && Shape(DoAlloc(s, i, s.ops[i], r, at).op.value)
    ensures KeyedMove(s, i, DoAlloc(s, i, s.ops[i], r, at))
  {
    assert DekId(s.name, s.t.seqNo + 1) !in s.h.minted;
  }

  lemma PutKeyed(cfg: Config, s: Sys, i: nat, e: Event)
    requires Ready(s, i) && TaskMay(cfg, s, s.ops[i], e) && e.Put? && Shape(MoveOf(cfg, s, i, s.ops[i], e).op.value)
    ensures KeyedMove(s, i, MoveOf(cfg, s, i, s.ops[i], e))
  {
  }

  lemma LandKeyed(cfg: Config, s: Sys, i: nat, e: Event)
    requires Ready(s, i) && TaskMay(cfg, s, s.ops[i], e) && e.Land? && Shape(MoveOf(cfg, s, i, s.ops[i], e).op.value)
    ensures KeyedMove(s, i, MoveOf(cfg, s, i, s.ops[i], e))
  {
  }

  /** Enough for a step that draws no id, stores nothing and ends no flight. */
  lemma QuietKeyed(s: Sys, i: nat, m: Move)
    requires Ready(s, i) && m.results == s.results && m.stored == s.stored && m.h.minted == s.h.minted
    requires KeyedAfter(s.h.minted, s.h.minted, s.name, i, s.t, m.t, s.stored)
    requires m.op.Some? ==> Shape(m.op.value) && KeyedOp(s.h.minted, m.t, s.stored, i, m.op.value)
    requires m.handle.Some? ==> Is(s.h.minted, m.handle.value.dek, m.handle.value.prim)
    ensures KeyedMove(s, i, m)
  {
  }

  lemma EndsKeyed(m: Mints, t: Tenant, stored: set<DekId>, i: nat, op: Job, out: Out)
    requires op.pc.Joined? && KeyedOp(m, t, stored, i, op) && NamesOut(m, out)
    ensures KeyedOp(m, t, stored, i, op.(pc := Finishing(out))) && KeyedOp(m, t, stored, i, op.(pc := Crashed))
  {
  }

  lemma WokenKeyed(m: Mints, t: Tenant, stored: set<DekId>, i: nat, op: Job, s: Sys, out: Out)
    requires op.pc.Joined? && KeyedOp(m, t, stored, i, op) && NamesOut(m, out)
    ensures KeyedOp(m, t, stored, i, DoWake(s, op, out).op.value)
  {
    EndsKeyed(m, t, stored, i, op, out);
    EndsKeyed(m, t, stored, i, op, Plain(NoErr));
  }

  lemma WakeKeyed(cfg: Config, s: Sys, i: nat, e: Event)
    requires Ready(s, i) && TaskMay(cfg, s, s.ops[i], e) && e.Wake? && Shape(MoveOf(cfg, s, i, s.ops[i], e).op.value)
    ensures KeyedMove(s, i, MoveOf(cfg, s, i, s.ops[i], e))
  {
    WokenKeyed(s.h.minted, s.t, s.stored, i, s.ops[i], s, s.results[s.ops[i].pc.leader]);
    SameKeysKeyed(s, i, s.t);
    QuietKeyed(s, i, MoveOf(cfg, s, i, s.ops[i], e));
  }

  lemma ApplyOkKeyed(m: Mints, name: Bytes, i: nat, t: Tenant, op: Op, sub: Subject, r: Reply, at: int, stored: set<DekId>)
    requires KeyedTenant(m, t, stored) && Drawn(m, name, t) && r.err.NoErr?
    requires Applicable(t, op, sub, r) && !sub.NoDek? && Own(m, t, i, sub) && Names(m, sub, r)
    requires sub.Fresh? ==> sub.id in stored && sub.dek.prim.None?
    ensures var u := ApplyOk(t, op, sub, r, at);
            KeyedAfter(m, m, name, i, t, u, stored)
  {
  }

  lemma FailCooler(cfg: Config, t: Tenant, at: int, delay: int)
    ensures Cooler(t, ApplyFail(cfg, t, at, delay)) && Cooler(t, ApplyDeny(cfg, t, at))
  {
    assert Cooler(t, Purge(t));
  }

  lemma UnansweredCooler(cfg: Config, t: Tenant, op: Op, sub: Subject, r: Reply, at: int, delay: int)
    requires ReplyShape(r) && !r.err.NoErr? && Applicable(t, op, sub, r)
    ensures Cooler(t, Apply(cfg, t, op, sub, r, at, delay))
  {
    FailCooler(cfg, t, at, delay);
  }

  lemma ApplyKeyed(cfg: Config, m: Mints, name: Bytes, i: nat, t: Tenant, op: Op, sub: Subject, r: Reply, at: int,
                   delay: int, stored: set<DekId>)
    requires KeyedTenant(m, t, stored) && Drawn(m, name, t) && ReplyShape(r)
    requires Applicable(t, op, sub, r) && Own(m, t, i, sub) && Names(m, sub, r)
    requires sub.Fresh? ==> sub.dek.prim.None? && (r.err.NoErr? ==> sub.id in stored)
    ensures var u := Apply(cfg, t, op, sub, r, at, delay);
            KeyedAfter(m, m, name, i, t, u, stored)
  {
    if r.err.NoErr? { ApplyOkKeyed(m, name, i, t, op, sub, r, at, stored); }
    else {
      UnansweredCooler(cfg, t, op, sub, r, at, delay);
      CoolerKeyed(m, name, i, t, Apply(cfg, t, op, sub, r, at, delay), stored);
    }
  }

  lemma AppliedOp(m: Mints, t: Tenant, stored: set<DekId>, i: nat, op: Job, u: Tenant)
    requires op.pc.Applying? && Shape(op) && KeyedOp(m, t, stored, i, op) && Grows(m, t, m, u)
    ensures var out := OutOf(op, op.pc.r, op.pc.s);
            KeyedOp(m, u, stored, i, op.(pc := Landed(out))) && KeyedOp(m, u, stored, i, op.(pc := Finishing(out)))
  {
  }

  lemma ApplyTenantKeyed(cfg: Config, s: Sys, i: nat, at: int, u: real)
    requires Ready(s, i) && s.ops[i].pc.Applying? && Applicable(s.t, OpName(s.ops[i]), s.ops[i].pc.s, s.ops[i].pc.r)
    ensures KeyedAfter(s.h.minted, s.h.minted, s.name, i, s.t, DoApply(cfg, s, s.ops[i], at, u).t, s.stored)
  {
    var op := s.ops[i];
    ApplyKeyed(cfg, s.h.minted, s.name, i, s.t, OpName(op), op.pc.s, op.pc.r, at, DelayOf(cfg, s.t, u), s.stored);
  }

  lemma ApplyMoveKeyed(cfg: Config, s: Sys, i: nat, at: int, u: real)
    requires Ready(s, i) && s.ops[i].pc.Applying? && Applicable(s.t, OpName(s.ops[i]), s.ops[i].pc.s, s.ops[i].pc.r)
    requires Shape(DoApply(cfg, s, s.ops[i], at, u).op.value)
    ensures KeyedMove(s, i, DoApply(cfg, s, s.ops[i], at, u))
  {
    ApplyTenantKeyed(cfg, s, i, at, u);
    AppliedOp(s.h.minted, s.t, s.stored, i, s.ops[i], DoApply(cfg, s, s.ops[i], at, u).t);
    QuietKeyed(s, i, DoApply(cfg, s, s.ops[i], at, u));
  }

  lemma ColdKeyed(cfg: Config, s: Sys, err: Err, at: int)
    requires s.t.waiters > 0 && KeyedTenant(s.h.minted, s.t, s.stored)
    ensures var m := ColdMove(cfg, s, err, at);
            Cooler(s.t, m.t) && m.handle.Some? ==> Is(s.h.minted, m.handle.value.dek, m.handle.value.prim)
  {
  }

  lemma DirectKeyed(cfg: Config, s: Sys, count: bool, sub: Subject, r: Reply, at: int)
    requires Names(s.h.minted, sub, r)
    ensures var m := DirectMove(cfg, s, count, sub, r, at);
            Cooler(s.t, m.t) && m.handle.Some? ==> Is(s.h.minted, m.handle.value.dek, m.handle.value.prim)
  {
  }

  lemma FinishKeyed(cfg: Config, s: Sys, i: nat, e: Event)
    requires Ready(s, i) && TaskMay(cfg, s, s.ops[i], e) && e.Finish?
    ensures KeyedMove(s, i, MoveOf(cfg, s, i, s.ops[i], e))
  {
    var op, m := s.ops[i], MoveOf(cfg, s, i, s.ops[i], e);
    if op.kind.Cold? { ColdKeyed(cfg, s, op.pc.out.err, e.at); }
    else if DirectKind(op.kind) { DirectKeyed(cfg, s, op.kind.SealOnce?, op.pc.out.s, op.pc.out.r, e.at); }
    FinishCooler(cfg, s, op, op.pc.out, e.at);
    CoolerKeyed(s.h.minted, s.name, i, s.t, m.t, s.stored);
  }

  lemma FinishCooler(cfg: Config, s: Sys, op: Job, out: Out, at: int)
    requires op.kind.Cold? ==> s.t.waiters > 0
    ensures Cooler(s.t, DoFinish(cfg, s, op, out, at).t)
  {
  }

  lemma SettleKeyed(cfg: Config, s: Sys, i: nat, e: Event)
    requires Ready(s, i) && TaskMay(cfg, s, s.ops[i], e) && Settling(e) && Shape(MoveOf(cfg, s, i, s.ops[i], e).op.value)
    ensures KeyedMove(s, i, MoveOf(cfg, s, i, s.ops[i], e))
  {
    match e
    case Answer(_, _, _) => AnswerKeyed(cfg, s, i, e);
    case Return(_) => ReturnKeyed(cfg, s, i, e);
    case Alloc(_, _) => AllocKeyed(cfg, s, i, e);
    case Put(_, _) => PutKeyed(cfg, s, i, e);
    case Land(_) => LandKeyed(cfg, s, i, e);
    case Wake(_) => WakeKeyed(cfg, s, i, e);
  }

  // ---- The invariant ----

  /** The other goroutines' references survive what i did. */
  lemma OthersKeyed(s: Sys, i: nat, j: nat, m: Move)
    requires Ready(s, i) && KeyedMove(s, i, m) && j in s.ops && j != i
    ensures KeyedOp(m.h.minted, m.t, m.stored, j, s.ops[j])
  {
  }

  lemma CarryKeyed(s: Sys, i: nat, m: Move)
    requires Ready(s, i) && KeyedMove(s, i, m)
    ensures Keyed(Carry(s, i, m))
  {
    var u := Carry(s, i, m);
    forall j | j in u.ops ensures Shape(u.ops[j]) && KeyedOp(u.h.minted, u.t, u.stored, j, u.ops[j]) {
      if j != i { OthersKeyed(s, i, j, m); }
    }
    HandlesKeyed(s, i, m);
  }

  lemma HandlesKeyed(s: Sys, i: nat, m: Move)
    requires Ready(s, i) && KeyedMove(s, i, m)
    ensures forall h | h in With(s.handles, m.handle) :: Is(m.h.minted, h.dek, h.prim)
  {
  }

  lemma MoveKeyed(cfg: Config, s: Sys, i: nat, e: Event)
    requires Ready(s, i) && TaskMay(cfg, s, s.ops[i], e)
    ensures KeyedMove(s, i, MoveOf(cfg, s, i, s.ops[i], e))
  {
    if Asking(e) { AskKeyed(cfg, s, i, e); }
    else if e.ApplyEv? { ApplyShaped(cfg, s, i, s.ops[i], e); ApplyMoveKeyed(cfg, s, i, e.at, e.u); }
    else if e.Finish? { FinishKeyed(cfg, s, i, e); }
    else { SettleShaped(cfg, s, i, s.ops[i], e); SettleKeyed(cfg, s, i, e); }
  }

  lemma EntryKeyed(cfg: Config, s: Sys, e: Event)
    requires Keyed(s) && EntryMay(cfg, s, e)
    ensures Keyed(Place(s, CallOf(cfg, s, e))) && Grows(s.h.minted, s.t, s.h.minted, CallOf(cfg, s, e).t)
  {
    var c := CallOf(cfg, s, e);
    CallCooler(cfg, s, e);
    CoolerKeyed(s.h.minted, s.name, s.nextOp, s.t, c.t, s.stored);
    CallHandle(cfg, s, e);
    CallBorn(cfg, s, e);
    BornShaped(cfg, s, e);
    PlaceKeyed(s, c);
  }

  lemma PlaceKeyed(s: Sys, c: Call)
    requires Keyed(s) && KeyedAfter(s.h.minted, s.h.minted, s.name, s.nextOp, s.t, c.t, s.stored)
    requires s.t.deks.Keys == c.t.deks.Keys
    requires c.handle.Some? ==> Is(s.h.minted, c.handle.value.dek, c.handle.value.prim)
    requires c.born.Some? ==> Shape(c.born.value) && KeyedOp(s.h.minted, s.t, s.stored, s.nextOp, c.born.value)
    ensures Keyed(Place(s, c))
  {
  }

  lemma OutsideKeyed(cfg: Config, s: Sys, e: Event)
    requires Keyed(s) && EntryMay(cfg, s, e)
    ensures var u := Entry(cfg, s, e); Keyed(u) && Grows(s.h.minted, s.t, u.h.minted, u.t)
  {
    EntryKeyed(cfg, s, e);
  }

  lemma InsideKeyed(cfg: Config, s: Sys, i: nat, e: Event)
    requires Ready(s, i) && TaskMay(cfg, s, s.ops[i], e)
    ensures var u := Carry(s, i, MoveOf(cfg, s, i, s.ops[i], e)); Keyed(u) && Grows(s.h.minted, s.t, u.h.minted, u.t)
  {
    MoveKeyed(cfg, s, i, e);
    CarryKeyed(s, i, MoveOf(cfg, s, i, s.ops[i], e));
  }

  /** One step keeps the references whole, and no DEK or id is lost or changes its key. */
  lemma StepKeyed(cfg: Config, s: Sys, e: Event)
    requires Keyed(s) && Enabled(cfg, s, e)
    ensures var u := Next(cfg, s, e); Keyed(u) && Grows(s.h.minted, s.t, u.h.minted, u.t)
  {
    match Mover(e)
    case None => OutsideKeyed(cfg, s, e);
    case Some(i) => InsideKeyed(cfg, s, i, e);
  }

  lemma {:induction false} RunKeyed(cfg: Config, s: Sys, es: seq<Event>)
    requires Keyed(s) && Legal(cfg, s, es)
    ensures var u := Run(cfg, s, es); Keyed(u) && Grows(s.h.minted, s.t, u.h.minted, u.t)
    decreases |es|
  {
    if es != [] {
      StepKeyed(cfg, s, es[0]);
      RunKeyed(cfg, Next(cfg, s, es[0]), es[1..]);
    }
  }

  lemma ReachableKeyed(cfg: Config, s: Sys)
    requires Reachable(cfg, s)
    ensures Keyed(s)
  {
    var name, start, mode, es :|
      start > 0 && Legal(cfg, Start(name, start, mode), es) && Run(cfg, Start(name, start, mode), es) == s;
    RunKeyed(cfg, Start(name, start, mode), es);
  }

  /** In every reachable state every handle on an installed DEK carries that DEK's key. */
  lemma EveryKeyIsItsIds(cfg: Config, s: Sys, h: Handle)
    requires Reachable(cfg, s)
    ensures h in s.handles && h.dek in s.t.deks ==> h.prim == Some(s.t.deks[h.dek].wrapped)
  {
    ReachableKeyed(cfg, s);
  }

  /** Every installed DEK is in the store, under the tenant's own name. */
  lemma InstalledIsStored(cfg: Config, s: Sys, id: DekId)
    requires Reachable(cfg, s)
    ensures id in s.t.deks ==> id in s.stored && id.tenant == s.name
  {
    ReachableKeyed(cfg, s);
  }

  lemma NewIdIsNew(cfg: Config, s: Sys, i: nat)
    requires Keyed(s) && i in s.ops && s.ops[i].pc.Storing?
    ensures Enabled(cfg, s, Put(i, true))
  {
  }

  /** A store never has to refuse a new DEK for its id: in every reachable state a drawn id is not stored yet. */
  lemma NewIdsAreNew(cfg: Config, s: Sys, i: nat)
    requires Reachable(cfg, s) && i in s.ops && s.ops[i].pc.Storing?
    ensures Enabled(cfg, s, Put(i, true))
  {
    ReachableKeyed(cfg, s);
    NewIdIsNew(cfg, s, i);
  }
}
