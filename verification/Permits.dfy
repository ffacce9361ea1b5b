/**
 Flags and permits: `probing` is up exactly while one probe or warm runs; waiters, the tenant's in-flight count and
 the provider's tokens equal the goroutines that hold them and stay within their caps; and nothing gets stuck: from
 every reachable state the goroutines can run to their end, after which every flag and permit is back.
 */
module Permits {
  import opened Prelude
  import opened Envelope
  import opened KeyState
  import opened Protocol
  import opened Steps
  import opened Structure
  import opened References

  // ---- Counting goroutines ----

  function Having(p: Job -> bool, ops: map<nat, Job>): set<nat> {
    set i | i in ops && p(ops[i])
  }

  function Count(p: Job -> bool, ops: map<nat, Job>): nat {
    |Having(p, ops)|
  }

  function One(b: bool): nat { if b then 1 else 0 }

  function OneIf(p: Job -> bool, op: Option<Job>): nat { One(op.Some? && p(op.value)) }

  function Moved(ops: map<nat, Job>, i: nat, op: Option<Job>): map<nat, Job> {
    if op.Some? then ops[i := op.value] else ops - {i}
  }

  lemma CountMoved(p: Job -> bool, ops: map<nat, Job>, i: nat, op: Option<Job>)
    requires i in ops
    ensures Count(p, Moved(ops, i, op)) + One(p(ops[i])) == Count(p, ops) + OneIf(p, op)
  {
    match op
    case Some(v) => CountPut(p, ops, i, v);
    case None => CountGone(p, ops, i);
  }

  lemma CountPut(p: Job -> bool, ops: map<nat, Job>, i: nat, v: Job)
    requires i in ops
    ensures Count(p, ops[i := v]) + One(p(ops[i])) == Count(p, ops) + One(p(v))
  {
    Split(p, ops, i);
    Split(p, ops[i := v], i);
    SameOthers(p, ops, i, v);
  }

  lemma SameOthers(p: Job -> bool, ops: map<nat, Job>, i: nat, v: Job)
    ensures Having(p, ops[i := v]) - {i} == Having(p, ops) - {i}
  {
    var x, y := Having(p, ops[i := v]), Having(p, ops);
    forall j | j != i ensures j in x <==> j in y { }
  }

  lemma CountGone(p: Job -> bool, ops: map<nat, Job>, i: nat)
    requires i in ops
    ensures Count(p, ops - {i}) + One(p(ops[i])) == Count(p, ops)
  {
    Split(p, ops, i);
    assert Having(p, ops - {i}) == Having(p, ops) - {i};
  }

  lemma Split(p: Job -> bool, ops: map<nat, Job>, i: nat)
    requires i in ops
    ensures Count(p, ops) == |Having(p, ops) - {i}| + One(p(ops[i]))
  {
    if !p(ops[i]) { assert Having(p, ops) - {i} == Having(p, ops); }
  }

  lemma CountBorn(p: Job -> bool, ops: map<nat, Job>, i: nat, op: Job)
    requires i !in ops
    ensures Count(p, ops[i := op]) == Count(p, ops) + One(p(op))
  {
    assert Having(p, ops[i := op]) == Having(p, ops) + if p(op) then {i} else {};
  }

  lemma CountSome(p: Job -> bool, ops: map<nat, Job>, i: nat)
    requires i in ops && p(ops[i])
    ensures Count(p, ops) > 0
  {
    assert i in Having(p, ops);
  }

  predicate IsCold(op: Job) { op.kind.Cold? }
  predicate IsCounted(op: Job) { op.counted }
  predicate IsAsker(op: Job) { op.kind.Probe? || op.kind.Warming? }
  predicate HasToken(op: Job) { op.sem }

  lemma TokensAre(ops: map<nat, Job>)
    ensures |Tokens(ops)| == Count(HasToken, ops)
  {
    assert Tokens(ops) == Having(HasToken, ops);
  }

  // ---- The books ----

  /** Counters equal holders. */
  ghost predicate Balanced(s: Sys) {
    && s.t.waiters == Count(IsCold, s.ops)
    && s.t.inflight == Count(IsCounted, s.ops)
    && One(s.t.probing) == Count(IsAsker, s.ops)
  }

  ghost predicate WithinCaps(cfg: Config, s: Sys) {
    && s.t.waiters <= cfg.ingestWaiters
    && (cfg.tenantInflight > 0 ==> s.t.inflight <= cfg.tenantInflight)
    && s.others + Count(HasToken, s.ops) <= cfg.providerInflight
  }

  /** One goroutine's step, op to next, against the tenant's counters. */
  predicate Pays(cfg: Config, t: Tenant, op: Job, u: Tenant, next: Option<Job>) {
    && u.waiters + One(IsCold(op)) == t.waiters + OneIf(IsCold, next)
    && u.inflight + One(IsCounted(op)) == t.inflight + OneIf(IsCounted, next)
    && One(u.probing) + One(IsAsker(op)) == One(t.probing) + OneIf(IsAsker, next)
  }

  /** What its being there says of the counters. */
  predicate Owes(t: Tenant, op: Job) {
    && (IsCold(op) ==> t.waiters > 0)
    && (op.counted ==> t.inflight > 0)
    && (IsAsker(op) ==> t.probing)
  }

  lemma FinishPays(cfg: Config, s: Sys, op: Job, out: Out, at: int)
    requires Owes(s.t, op) && !op.counted
    ensures var m := DoFinish(cfg, s, op, out, at); Pays(cfg, s.t, op, m.t, m.op) && m.op.None?
  {
  }

  lemma ApplyPays(cfg: Config, s: Sys, op: Job, at: int, u: real)
    requires op.pc.Applying? && Applicable(s.t, OpName(op), op.pc.s, op.pc.r)
    ensures var m := DoApply(cfg, s, op, at, u); Pays(cfg, s.t, op, m.t, m.op)
  {
  }

  /** Enough for a step inside a call: the count of calls in flight moves with the goroutine's own mark. */
  lemma CallPays(cfg: Config, s: Sys, op: Job, m: Move)
    requires m.op.Some? && m.op.value.kind == op.kind && SameKeys(s.t, m.t)
    requires m.t.inflight + One(op.counted) == s.t.inflight + One(m.op.value.counted)
    ensures Pays(cfg, s.t, op, m.t, m.op)
  {
  }

  lemma CapCounts(cfg: Config, s: Sys, op: Job)
    requires !op.counted
    ensures var m := DoCap(cfg, s, op);
            m.t.inflight == s.t.inflight + One(m.op.value.counted) && (m.t.inflight == s.t.inflight || m.t.inflight <= cfg.tenantInflight)
  {
    if s.t.fetch.Naive? {
    } else if cfg.tenantInflight == 0 {
    } else if s.t.inflight >= cfg.tenantInflight {
    } else {
    }
  }

  lemma AskCounts(cfg: Config, s: Sys, i: nat, op: Job, e: Event)
    requires TaskMay(cfg, s, op, e) && Asking(e) && !e.Cap?
    ensures var m := MoveOf(cfg, s, i, op, e); m.t.inflight == s.t.inflight && m.op.Some? && m.op.value.counted == op.counted
  {
    if e.Check? { CheckCounts(cfg, s, op, e.at); }
  }

  lemma CheckCounts(cfg: Config, s: Sys, op: Job, at: int)
    ensures var m := DoCheck(cfg, s, op, at); m.t.inflight == s.t.inflight && m.op.Some? && m.op.value.counted == op.counted
  {
  }

  lemma AskPays(cfg: Config, s: Sys, i: nat, op: Job, e: Event)
    requires TaskMay(cfg, s, op, e) && Asking(e) && Shape(op)
    ensures var m := MoveOf(cfg, s, i, op, e); Pays(cfg, s.t, op, m.t, m.op)
  {
    AskOnly(cfg, s, i, op, e);
    if e.Cap? { CapCounts(cfg, s, op); } else { AskCounts(cfg, s, i, op, e); }
    CallPays(cfg, s, op, MoveOf(cfg, s, i, op, e));
  }

  lemma SettleCounts(cfg: Config, s: Sys, i: nat, op: Job, e: Event)
    requires TaskMay(cfg, s, op, e) && Settling(e) && Owes(s.t, op)
    ensures var m := MoveOf(cfg, s, i, op, e);
            m.op.Some? && m.t.inflight + One(op.counted) == s.t.inflight + One(m.op.value.counted)
  {
    if e.Wake? { WakeSettles(s, op, s.results[op.pc.leader]); WakeCounts(s, op, s.results[op.pc.leader]); }
  }

  lemma WakeCounts(s: Sys, op: Job, out: Out)
    ensures var m := DoWake(s, op, out); m.t == s.t && m.op.Some? && m.op.value.counted == op.counted
  {
  }

  lemma SettlePays(cfg: Config, s: Sys, i: nat, op: Job, e: Event)
    requires TaskMay(cfg, s, op, e) && Settling(e) && Owes(s.t, op)
    ensures var m := MoveOf(cfg, s, i, op, e); Pays(cfg, s.t, op, m.t, m.op)
  {
    SettleOnly(cfg, s, i, op, e);
    SettleCounts(cfg, s, i, op, e);
    CallPays(cfg, s, op, MoveOf(cfg, s, i, op, e));
  }

  lemma MovePays(cfg: Config, s: Sys, i: nat, op: Job, e: Event)
    requires TaskMay(cfg, s, op, e) && Owes(s.t, op) && Shape(op)
    ensures var m := MoveOf(cfg, s, i, op, e); Pays(cfg, s.t, op, m.t, m.op)
  {
    if Asking(e) { AskPays(cfg, s, i, op, e); }
    else if Settling(e) { SettlePays(cfg, s, i, op, e); }
    else if e.ApplyEv? { ApplyPays(cfg, s, op, e.at, e.u); }
    else { FinishPays(cfg, s, op, op.pc.out, e.at); }
  }

  lemma EncryptPays(cfg: Config, s: Sys, at: int)
    ensures var c := EncryptCall(cfg, s, at);
            && c.t.waiters == s.t.waiters + OneIf(IsCold, c.born) && c.t.inflight == s.t.inflight
            && One(c.t.probing) == One(s.t.probing) + OneIf(IsAsker, c.born)
            && (c.t.waiters == s.t.waiters || c.t.waiters <= cfg.ingestWaiters)
  {
  }

  lemma TickPays(cfg: Config, s: Sys, at: int, due: Due)
    requires EntryMay(cfg, s, TickEv(at, due))
    ensures var c := TickCall(cfg, s, at, due);
            && c.t.waiters == s.t.waiters && c.t.inflight == s.t.inflight
            && One(c.t.probing) == One(s.t.probing) + OneIf(IsAsker, c.born)
  {
    assert TickBody(cfg, s.t, at).probing == s.t.probing;
  }

  lemma BornCarriesNothing(cfg: Config, s: Sys, e: Event)
    ensures var c := CallOf(cfg, s, e);
            c.born.Some? ==> !c.born.value.counted && !c.born.value.sem && !c.born.value.leads && !c.born.value.pc.Joined?
  {
  }

  lemma EntryPays(cfg: Config, s: Sys, e: Event)
    requires EntryMay(cfg, s, e)
    ensures var c := CallOf(cfg, s, e);
            && c.t.waiters == s.t.waiters + OneIf(IsCold, c.born) && c.t.inflight == s.t.inflight
            && One(c.t.probing) == One(s.t.probing) + OneIf(IsAsker, c.born)
            && (c.t.waiters == s.t.waiters || c.t.waiters <= cfg.ingestWaiters)
  {
    match e
    case EncryptEv(at) => EncryptPays(cfg, s, at);
    case TickEv(at, due) => TickPays(cfg, s, at, due);
    case _ =>
  }

  // ---- Flights ----

  ghost predicate Flying(s: Sys) {
    && (forall k | k in s.flights :: s.flights[k] in s.ops && s.ops[s.flights[k]].leads && s.ops[s.flights[k]].key == k)
    && (forall i | i in s.ops && s.ops[i].leads :: s.ops[i].key in s.flights && s.flights[s.ops[i].key] == i)
    && (forall i | i in s.ops && s.ops[i].pc.Joined? :: Awaited(s, s.ops[i].pc.leader))
    && (forall i | i in s.ops :: i < s.nextOp) && (forall l | l in s.results :: l < s.nextOp)
    && (forall i | i in s.ops && i in s.results :: s.ops[i].pc.Finishing?)
  }

  /** The leader's result is there, or the leader still flies. */
  predicate Awaited(s: Sys, l: nat) { l in s.results || (l in s.ops && s.ops[l].leads) }

  /** A step that neither starts, joins nor ends a flight. */
  predicate Level(s: Sys, op: Job, m: Move) {
    && m.flights == s.flights && m.results == s.results
    && (if m.op.Some? then m.op.value.leads == op.leads && (op.leads ==> m.op.value.key == op.key) && !m.op.value.pc.Joined? && !op.pc.Finishing?
        else !op.leads)
  }

  lemma AskLevel(cfg: Config, s: Sys, i: nat, op: Job, e: Event)
    requires TaskMay(cfg, s, op, e) && Asking(e) && !e.Enter? && Shape(op)
    ensures Level(s, op, MoveOf(cfg, s, i, op, e))
  {
    AskOnly(cfg, s, i, op, e);
    AskKeepsKey(cfg, s, i, op, e);
  }

  lemma AskKeepsKey(cfg: Config, s: Sys, i: nat, op: Job, e: Event)
    requires TaskMay(cfg, s, op, e) && Asking(e) && !e.Enter? && Shape(op)
    ensures var m := MoveOf(cfg, s, i, op, e);
            && m.op.Some? && m.flights == s.flights && m.op.value.leads == op.leads && !m.op.value.pc.Joined?
            && (op.leads ==> m.op.value.key == op.key)
  {
    match e
    case Decide(_, at) => DecideAsks(cfg, s, op, at);
    case Check(_, at) => CheckKeepsKey(cfg, s, op, at);
    case Cap(_) => CapKeepsKey(cfg, s, op);
    case _ =>
  }

  predicate KeepsKey(s: Sys, op: Job, m: Move) {
    m.op.Some? && m.flights == s.flights && m.op.value.leads == op.leads && !m.op.value.pc.Joined? && m.op.value.key == op.key
  }

  lemma PcKeepsKey(s: Sys, op: Job, pc: Pc)
    requires !pc.Joined?
    ensures KeepsKey(s, op, To(s, op.(pc := pc)))
  {
  }

  lemma CheckKeepsKey(cfg: Config, s: Sys, op: Job, at: int)
    ensures KeepsKey(s, op, DoCheck(cfg, s, op, at))
  {
    PcKeepsKey(s, op, AtCap);
    PcKeepsKey(s, op, Landed(Plain(NoErr)));
  }

  lemma CapKeepsKey(cfg: Config, s: Sys, op: Job)
    ensures KeepsKey(s, op, DoCap(cfg, s, op))
  {
    PcKeepsKey(s, op, Sending);
    PcKeepsKey(s, op, AtSem);
    PcKeepsKey(s, op, Applying(Busied(), CallSubject(op), s.now));
  }

  lemma SettleLevel(cfg: Config, s: Sys, i: nat, op: Job, e: Event)
    requires TaskMay(cfg, s, op, e) && Settling(e) && !e.Land? && Shape(op)
    ensures Level(s, op, MoveOf(cfg, s, i, op, e))
  {
    if e.Wake? { WakeLevel(s, op, s.results[op.pc.leader]); }
  }

  lemma WakeLevel(s: Sys, op: Job, out: Out)
    requires op.pc.Joined?
    ensures Level(s, op, DoWake(s, op, out))
  {
  }

  lemma ApplyLevel(cfg: Config, s: Sys, i: nat, op: Job, e: Event)
    requires TaskMay(cfg, s, op, e) && e.ApplyEv? && Shape(op)
    ensures var m := MoveOf(cfg, s, i, op, e);
            && m.flights == s.flights && m.results == s.results && m.op.Some?
            && m.op.value.leads == op.leads && m.op.value.key == op.key && !m.op.value.pc.Joined?
  {
  }

  lemma FinishLevel(cfg: Config, s: Sys, i: nat, op: Job, e: Event)
    requires TaskMay(cfg, s, op, e) && e.Finish? && Shape(op)
    ensures Level(s, op, MoveOf(cfg, s, i, op, e))
  {
  }

  lemma MoveLevel(cfg: Config, s: Sys, i: nat, op: Job, e: Event)
    requires TaskMay(cfg, s, op, e) && !e.Enter? && !e.Land? && Shape(op)
    ensures Level(s, op, MoveOf(cfg, s, i, op, e))
  {
    if Asking(e) { AskLevel(cfg, s, i, op, e); }
    else if Settling(e) { SettleLevel(cfg, s, i, op, e); }
    else if e.ApplyEv? { ApplyLevel(cfg, s, i, op, e); }
    else { FinishLevel(cfg, s, i, op, e); }
  }

  lemma LevelFlies(s: Sys, i: nat, m: Move)
    requires Flying(s) && i in s.ops && Level(s, s.ops[i], m)
    ensures Flying(Carry(s, i, m))
  {
  }

  lemma EnterFlies(s: Sys, i: nat)
    requires Flying(s) && i in s.ops && !s.ops[i].leads && s.ops[i].pc.Entering?
    ensures Flying(Carry(s, i, DoEnter(s, i, s.ops[i])))
  {
    if s.ops[i].key in s.flights { JoinFlies(s, i); } else { LeadFlies(s, i); }
  }

  lemma JoinFlies(s: Sys, i: nat)
    requires Flying(s) && i in s.ops && !s.ops[i].leads && s.ops[i].pc.Entering? && s.ops[i].key in s.flights
    ensures Flying(Carry(s, i, To(s, s.ops[i].(pc := Joined(s.flights[s.ops[i].key])))))
  {
  }

  lemma LeadFlies(s: Sys, i: nat)
    requires Flying(s) && i in s.ops && !s.ops[i].leads && s.ops[i].pc.Entering? && s.ops[i].key !in s.flights
    ensures Flying(Carry(s, i, To(s, s.ops[i].(leads := true, pc := Checking)).(flights := s.flights[s.ops[i].key := i])))
  {
  }

  lemma LandFlies(s: Sys, i: nat, out: Out)
    requires Flying(s) && i in s.ops && s.ops[i].leads
    ensures Flying(Carry(s, i, DoLand(s, i, s.ops[i], out)))
  {
  }

  lemma MoveFlies(cfg: Config, s: Sys, i: nat, e: Event)
    requires Flying(s) && i in s.ops && TaskMay(cfg, s, s.ops[i], e) && Shape(s.ops[i])
    ensures Flying(Carry(s, i, MoveOf(cfg, s, i, s.ops[i], e)))
  {
    if e.Enter? { EnterFlies(s, i); }
    else if e.Land? { LandFlies(s, i, s.ops[i].pc.out); }
    else { MoveLevel(cfg, s, i, s.ops[i], e); LevelFlies(s, i, MoveOf(cfg, s, i, s.ops[i], e)); }
  }

  // ---- The invariant over every run ----

  ghost predicate Booked(cfg: Config, s: Sys) {
    Balanced(s) && WithinCaps(cfg, s) && Flying(s)
  }

  ghost predicate Sound(cfg: Config, s: Sys) { Keyed(s) && Booked(cfg, s) }

  lemma OwesAll(s: Sys, i: nat)
    requires Balanced(s) && i in s.ops
    ensures Owes(s.t, s.ops[i])
  {
    var op := s.ops[i];
    if IsCold(op) { CountSome(IsCold, s.ops, i); }
    if op.counted { CountSome(IsCounted, s.ops, i); }
    if IsAsker(op) { CountSome(IsAsker, s.ops, i); }
  }

  lemma MoveBalanced(cfg: Config, s: Sys, i: nat, m: Move)
    requires Balanced(s) && i in s.ops && Pays(cfg, s.t, s.ops[i], m.t, m.op)
    ensures Balanced(Carry(s, i, m))
  {
    CountMoved(IsCold, s.ops, i, m.op);
    CountMoved(IsCounted, s.ops, i, m.op);
    CountMoved(IsAsker, s.ops, i, m.op);
  }

  /** Only Cap raises the in-flight count, only Sem takes a token, and neither past its cap. */
  lemma MoveCaps(cfg: Config, s: Sys, i: nat, e: Event)
    requires WithinCaps(cfg, s) && i in s.ops && TaskMay(cfg, s, s.ops[i], e) && Owes(s.t, s.ops[i]) && Shape(s.ops[i])
    ensures WithinCaps(cfg, Carry(s, i, MoveOf(cfg, s, i, s.ops[i], e)))
  {
    var op, m := s.ops[i], MoveOf(cfg, s, i, s.ops[i], e);
    MovePays(cfg, s, i, op, e);
    CountMoved(HasToken, s.ops, i, m.op);
    TokensAre(s.ops);
    MoveToken(cfg, s, i, op, e);
    MoveInflight(cfg, s, i, op, e);
  }

  lemma MoveToken(cfg: Config, s: Sys, i: nat, op: Job, e: Event)
    requires TaskMay(cfg, s, op, e)
    ensures OneIf(HasToken, MoveOf(cfg, s, i, op, e).op) <= if e.Sem? && e.got then 1 else One(op.sem)
  {
    if e.Cap? { CapToken(cfg, s, op); }
    else if e.Check? { CheckToken(cfg, s, op, e.at); }
    else if e.Wake? { WakeToken(s, op, s.results[op.pc.leader]); }
    else if e.Finish? { FinishEnds(cfg, s, op, op.pc.out, e.at); }
  }

  lemma FinishEnds(cfg: Config, s: Sys, op: Job, out: Out, at: int)
    requires op.kind.Cold? ==> s.t.waiters > 0
    ensures DoFinish(cfg, s, op, out, at).op.None?
  {
  }

  lemma WakeToken(s: Sys, op: Job, out: Out)
    ensures var v := DoWake(s, op, out).op; v.Some? && v.value.sem == op.sem
  {
  }

  lemma CapToken(cfg: Config, s: Sys, op: Job)
    ensures var v := DoCap(cfg, s, op).op; v.Some? && v.value.sem == op.sem
  {
  }

  lemma CheckToken(cfg: Config, s: Sys, op: Job, at: int)
    ensures var v := DoCheck(cfg, s, op, at).op; v.Some? && v.value.sem == op.sem
  {
  }

  lemma MoveInflight(cfg: Config, s: Sys, i: nat, op: Job, e: Event)
    requires TaskMay(cfg, s, op, e) && Owes(s.t, op) && Shape(op)
    ensures var u := MoveOf(cfg, s, i, op, e).t; u.inflight <= s.t.inflight || u.inflight <= cfg.tenantInflight
  {
    if e.Cap? { CapCounts(cfg, s, op); }
    else if Asking(e) { AskCounts(cfg, s, i, op, e); }
    else if Settling(e) { SettleCounts(cfg, s, i, op, e); }
    else { MovePays(cfg, s, i, op, e); }
  }

  /** What an entry point does to the counters. */
  predicate Charges(cfg: Config, t: Tenant, c: Call) {
    && c.t.waiters == t.waiters + OneIf(IsCold, c.born) && c.t.inflight == t.inflight
    && One(c.t.probing) == One(t.probing) + OneIf(IsAsker, c.born)
    && (c.t.waiters == t.waiters || c.t.waiters <= cfg.ingestWaiters)
    && (c.born.Some? ==> !c.born.value.counted && !c.born.value.sem && !c.born.value.leads && !c.born.value.pc.Joined?)
  }

  lemma EntryCharges(cfg: Config, s: Sys, e: Event)
    requires EntryMay(cfg, s, e)
    ensures Charges(cfg, s.t, CallOf(cfg, s, e))
  {
    EntryPays(cfg, s, e);
    BornCarriesNothing(cfg, s, e);
  }

  lemma PlaceBooked(cfg: Config, s: Sys, c: Call)
    requires Booked(cfg, s) && Charges(cfg, s.t, c)
    ensures Booked(cfg, Place(s, c))
  {
    if c.born.Some? {
      CountBorn(IsCold, s.ops, s.nextOp, c.born.value);
      CountBorn(IsCounted, s.ops, s.nextOp, c.born.value);
      CountBorn(IsAsker, s.ops, s.nextOp, c.born.value);
      CountBorn(HasToken, s.ops, s.nextOp, c.born.value);
    }
  }

  lemma EntryBooked(cfg: Config, s: Sys, e: Event)
    requires Booked(cfg, s) && EntryMay(cfg, s, e)
    ensures Booked(cfg, Entry(cfg, s, e))
  {
    EntryCharges(cfg, s, e);
    PlaceBooked(cfg, s, CallOf(cfg, s, e));
    TokensAre(s.ops);
  }

  lemma CarryBooked(cfg: Config, s: Sys, i: nat, e: Event)
    requires Booked(cfg, s) && i in s.ops && TaskMay(cfg, s, s.ops[i], e) && Shape(s.ops[i])
    ensures Booked(cfg, Carry(s, i, MoveOf(cfg, s, i, s.ops[i], e)))
  {
    OwesAll(s, i);
    MovePays(cfg, s, i, s.ops[i], e);
    MoveBalanced(cfg, s, i, MoveOf(cfg, s, i, s.ops[i], e));
    MoveCaps(cfg, s, i, e);
    MoveFlies(cfg, s, i, e);
  }

  lemma StepBooked(cfg: Config, s: Sys, e: Event)
    requires Sound(cfg, s) && Enabled(cfg, s, e)
    ensures Booked(cfg, Next(cfg, s, e))
  {
    match Mover(e)
    case None => EntryBooked(cfg, s, e);
    case Some(i) => CarryBooked(cfg, s, i, e);
  }

  lemma StepSound(cfg: Config, s: Sys, e: Event)
    requires Sound(cfg, s) && Enabled(cfg, s, e)
    ensures Sound(cfg, Next(cfg, s, e))
  {
    StepKeyed(cfg, s, e);
    StepBooked(cfg, s, e);
  }

  lemma {:induction false} RunSound(cfg: Config, s: Sys, es: seq<Event>)
    requires Sound(cfg, s) && Legal(cfg, s, es)
    ensures Sound(cfg, Run(cfg, s, es))
    decreases |es|
  {
    if es != [] {
      StepSound(cfg, s, es[0]);
      RunSound(cfg, Next(cfg, s, es[0]), es[1..]);
    }
  }

  lemma StartSound(cfg: Config, name: Bytes, start: int, mode: Fetch)
    ensures Sound(cfg, Start(name, start, mode))
  {
  }

  lemma ReachableSound(cfg: Config, s: Sys)
    requires Reachable(cfg, s)
    ensures Sound(cfg, s)
  {
    var name, start, mode, es :|
      start > 0 && Legal(cfg, Start(name, start, mode), es) && Run(cfg, Start(name, start, mode), es) == s;
    StartSound(cfg, name, start, mode);
    RunSound(cfg, Start(name, start, mode), es);
  }

  /** In every reachable state each counter is the number of its holders and within its cap. */
  lemma PermitsConserved(cfg: Config, s: Sys)
    requires Reachable(cfg, s)
    ensures Balanced(s) && WithinCaps(cfg, s)
  {
    ReachableSound(cfg, s);
  }
}
