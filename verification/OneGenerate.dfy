/**
 One generate per need: any number of cold callers, kicked probes and warms on a tenant without a DEK, in async or
 sync fetch, with calls that succeed and a lease that is neither soft-due nor its DEK exhausted meanwhile, make exactly
 one generate call and one DEK, and every cold caller gets a handle. The recheck inside the flight is what does it.
 */
module OneGenerate {
  import opened Prelude
  import opened Envelope
  import opened KeyState
  import opened Protocol
  import opened Steps
  import opened Structure
  import opened References
  import opened Permits

  // ---- The circumstances ----

  /** At the instant `at` the tenant's DEK, once there is one, needs no renewal. */
  predicate Fresh(cfg: Config, t: Tenant, at: int) {
    var d := ActiveDek(t);
    d.Some? ==> Usable(cfg, t, at) && !SoftDue(cfg, t, at) && !Exhausted(cfg, d.value, at)
  }

  /** A step under the circumstances: cached modes, calls that succeed, readings at which the DEK is fresh. */
  predicate Fine(cfg: Config, s: Sys, e: Event) {
    match e
    case Mode(mode) => mode.Async? || mode.Sync?
    case TickEv(at, _) => Fresh(cfg, s.t, at)
    case HotEv(at) => Fresh(cfg, s.t, at)
    case EncryptEv(at) => Fresh(cfg, s.t, at)
    case DecryptInlineEv(at, _) => Fresh(cfg, s.t, at)
    case Decide(_, at) => Fresh(cfg, s.t, at)
    case Check(_, at) => Fresh(cfg, s.t, at)
    case Finish(_, at) => Fresh(cfg, s.t, at)
    case Sem(_, got) => got
    case Answer(_, fail, _) => !fail && s.enabled
    case Put(_, ok) => ok
    case _ => true
  }

  ghost predicate FineRun(cfg: Config, s: Sys, es: seq<Event>)
    decreases |es|
  {
    es != [] ==> Enabled(cfg, s, es[0]) && Fine(cfg, s, es[0]) && FineRun(cfg, Next(cfg, s, es[0]), es[1..])
  }

  /** A cached tenant without a DEK, nobody at work on it. */
  ghost predicate DekLess(cfg: Config, s: Sys) {
    && Sound(cfg, s) && s.ops == map[] && !Direct(s.t) && s.t.active.None? && s.t.deks == map[] && s.t.deniedAt <= s.now
  }

  // ---- Before the DEK is installed ----

  predicate Sent(pc: Pc) { pc.AtKms? || pc.Back? || pc.Allocating? || pc.Storing? || pc.Applying? }

  predicate Good(t: Tenant, r: Reply) { r.err.NoErr? && t.deniedAt <= r.sentAt }

  predicate OpBefore(t: Tenant, results: map<nat, Out>, op: Job) {
    && (op.kind.Probe? || op.kind.Cold?) && (op.pc.Deciding? || op.gen)
    && match op.pc
       case AtKms(sentAt) => t.deniedAt <= sentAt
       case Back(r) => Good(t, r)
       case Allocating(r) => Good(t, r)
       case Storing(r, _) => Good(t, r)
       case Applying(r, _, _) => Good(t, r)
       case Joined(l) => l !in results
       case Landed(_) => false
       case Finishing(_) => false
       case Crashed => false
       case _ => true
  }

  predicate Calling(s: Sys) {
    FGenerate in s.flights && s.flights[FGenerate] in s.ops && Sent(s.ops[s.flights[FGenerate]].pc)
  }

  /** No DEK yet; at most one generate was sent, by the one flight there can be; the first comer is still here. */
  ghost predicate Before(s: Sys, was: nat, first: nat) {
    && s.t.active.None? && s.t.deks == map[]
    && s.h.generates == was + One(Calling(s))
    && (forall i | i in s.ops :: OpBefore(s.t, s.results, s.ops[i]))
    && (first < s.nextOp ==> first in s.ops)
  }

  // ---- After ----

  predicate OpAfter(op: Job) { !DirectKind(op.kind) && !InCall(op.pc) }

  predicate HasOne(t: Tenant) {
    && t.state.Active? && t.active.Some? && t.deks.Keys == {t.active.value}
    && t.deks[t.active.value].prim.Some?
  }

  ghost predicate After(s: Sys, was: nat) {
    HasOne(s.t) && s.h.generates == was + 1 && forall i | i in s.ops :: OpAfter(s.ops[i])
  }

  ghost predicate Once(cfg: Config, s: Sys, was: nat, first: nat) {
    Sound(cfg, s) && Core(s, was, first)
  }

  predicate Setting(s: Sys, first: nat) { !Direct(s.t) && s.t.deniedAt <= s.now && first <= s.nextOp }

  ghost predicate Core(s: Sys, was: nat, first: nat) {
    Setting(s, first) && (Before(s, was, first) || After(s, was))
  }

  // ---- Entry points ----

  lemma TickBefore(cfg: Config, t: Tenant, at: int, due: Due)
    requires t.deks == map[] && t.active.None?
    ensures var u := Tick(cfg, t, at, due); u.deks == map[] && u.active.None?
  {
    assert HotDeks(t) == {};
  }

  lemma CallBefore(cfg: Config, s: Sys, e: Event)
    requires s.t.deks == map[] && s.t.active.None? && !Direct(s.t) && EntryMay(cfg, s, e) && Fine(cfg, s, e)
    ensures var c := CallOf(cfg, s, e);
            && c.t.deks == map[] && c.t.active.None? && !Direct(c.t) && c.t.deniedAt == s.t.deniedAt
            && (c.born.Some? ==> c.born.value == PROBE || c.born.value == COLD)
  {
    match e
    case TickEv(at, due) => TickBefore(cfg, s.t, at, due); TickBefore(cfg, s.t, at, NoDue);
    case _ =>
  }

  lemma TickAfter(cfg: Config, t: Tenant, at: int, due: Due)
    requires HasOne(t) && Usable(cfg, t, at)
    ensures HasOne(Tick(cfg, t, at, due))
  {
  }

  lemma CallAfter(cfg: Config, s: Sys, e: Event)
    requires HasOne(s.t) && !Direct(s.t) && EntryMay(cfg, s, e) && Fine(cfg, s, e)
    ensures var c := CallOf(cfg, s, e);
            && HasOne(c.t) && !Direct(c.t) && c.t.deniedAt == s.t.deniedAt
            && (c.born.Some? ==> OpAfter(c.born.value))
  {
    match e
    case TickEv(at, due) => TickAfter(cfg, s.t, at, due);
    case _ =>
  }

  lemma EntryOnce(cfg: Config, s: Sys, e: Event, was: nat, first: nat)
    requires Flying(s) && Core(s, was, first) && EntryMay(cfg, s, e) && Fine(cfg, s, e)
    ensures Core(Entry(cfg, s, e), was, first)
  {
    if Before(s, was, first) { EntryBefore(cfg, s, e, was, first); } else { EntryAfter(cfg, s, e, was, first); }
  }

  lemma PlaceBefore(s: Sys, c: Call, was: nat, first: nat)
    requires Flying(s) && Before(s, was, first) && first <= s.nextOp
    requires c.t.deks == map[] && c.t.active.None? && c.t.deniedAt == s.t.deniedAt
    requires c.born.Some? ==> c.born.value == PROBE || c.born.value == COLD
    ensures Before(Place(s, c), was, first)
  {
  }

  lemma EntryBefore(cfg: Config, s: Sys, e: Event, was: nat, first: nat)
    requires Flying(s) && Before(s, was, first) && Setting(s, first) && EntryMay(cfg, s, e) && Fine(cfg, s, e)
    ensures var u := Entry(cfg, s, e); Before(u, was, first) && Setting(u, first)
  {
    CallBefore(cfg, s, e);
    PlaceBefore(s, CallOf(cfg, s, e), was, first);
  }

  lemma EntryAfter(cfg: Config, s: Sys, e: Event, was: nat, first: nat)
    requires After(s, was) && Setting(s, first) && EntryMay(cfg, s, e) && Fine(cfg, s, e)
    ensures var u := Entry(cfg, s, e); After(u, was) && Setting(u, first)
  {
    CallAfter(cfg, s, e);
  }

  // ---- Goroutine steps before ----

  /** A goroutine inside its call is the one that leads the generate flight. */
  lemma CallerLeads(s: Sys, was: nat, first: nat, i: nat)
    requires Flying(s) && Before(s, was, first) && i in s.ops && Shape(s.ops[i]) && (InCall(s.ops[i].pc) || s.ops[i].pc.Checking?)
    ensures s.ops[i].gen && s.ops[i].leads && FGenerate in s.flights && s.flights[FGenerate] == i
  {
  }

  /** How a step before the install keeps the count: the generate call is counted when it is sent. */
  predicate StaysBefore(s: Sys, i: nat, op: Job, m: Move) {
    && m.t.active.None? && m.t.deks == map[] && m.t.deniedAt == s.t.deniedAt && m.results == s.results
    && m.op.Some? && OpBefore(m.t, m.results, m.op.value)
    && m.h.generates + One(Sent(op.pc)) == s.h.generates + One(Sent(m.op.value.pc))
    && (Sent(m.op.value.pc) || Sent(op.pc) ==> FGenerate in s.flights && s.flights[FGenerate] == i)
    && (FGenerate in s.flights ==> FGenerate in m.flights && m.flights[FGenerate] == s.flights[FGenerate])
    && (FGenerate in m.flights && FGenerate !in s.flights ==> m.flights[FGenerate] == i)
  }

  lemma CarryBefore(s: Sys, i: nat, m: Move, was: nat, first: nat)
    requires Before(s, was, first) && i in s.ops && StaysBefore(s, i, s.ops[i], m)
    ensures Before(Carry(s, i, m), was, first)
  {
  }

  lemma DecideBefore(cfg: Config, s: Sys, i: nat, op: Job, at: int)
    requires s.t.active.None? && s.t.deks == map[] && OpBefore(s.t, s.results, op) && op.pc.Deciding?
    ensures StaysBefore(s, i, op, DoDecide(cfg, s, op, at))
  {
  }

  lemma EnterBefore(s: Sys, i: nat, op: Job)
    requires s.t.active.None? && s.t.deks == map[] && OpBefore(s.t, s.results, op) && op.pc.Entering? && op.key == FGenerate
    requires FGenerate in s.flights ==> s.flights[FGenerate] !in s.results
    ensures StaysBefore(s, i, op, DoEnter(s, i, op))
  {
  }

  lemma CheckBefore(cfg: Config, s: Sys, i: nat, op: Job, at: int)
    requires s.t.active.None? && s.t.deks == map[] && OpBefore(s.t, s.results, op) && op.pc.Checking?
    ensures StaysBefore(s, i, op, DoCheck(cfg, s, op, at))
  {
    assert !Satisfied(cfg, s.t, op.kind.Cold?, at);
  }

  lemma CapBefore(cfg: Config, s: Sys, i: nat, op: Job)
    requires s.t.active.None? && s.t.deks == map[] && OpBefore(s.t, s.results, op) && op.pc.AtCap?
    requires s.t.inflight == 0
    ensures StaysBefore(s, i, op, DoCap(cfg, s, op))
  {
    if s.t.fetch.Naive? {
    } else if cfg.tenantInflight == 0 {
    } else {
    }
  }

  lemma AskBefore(cfg: Config, s: Sys, i: nat, op: Job, e: Event)
    requires s.t.active.None? && s.t.deks == map[] && OpBefore(s.t, s.results, op) && Shape(op) && s.t.deniedAt <= s.now
    requires TaskMay(cfg, s, op, e) && Asking(e) && Fine(cfg, s, e)
    requires FGenerate in s.flights ==> s.flights[FGenerate] !in s.results
    requires op.pc.AtCap? ==> s.t.inflight == 0
    requires InCall(op.pc) ==> FGenerate in s.flights && s.flights[FGenerate] == i
    ensures StaysBefore(s, i, op, MoveOf(cfg, s, i, op, e))
  {
    match e
    case Decide(_, at) => DecideBefore(cfg, s, i, op, at);
    case Enter(_) => EnterBefore(s, i, op);
    case Check(_, at) => CheckBefore(cfg, s, i, op, at);
    case Cap(_) => CapBefore(cfg, s, i, op);
    case _ =>
  }

  lemma SettleBefore(cfg: Config, s: Sys, i: nat, op: Job, e: Event)
    requires s.t.active.None? && s.t.deks == map[] && OpBefore(s.t, s.results, op) && Shape(op)
    requires TaskMay(cfg, s, op, e) && Settling(e) && Fine(cfg, s, e)
    requires InCall(op.pc) ==> FGenerate in s.flights && s.flights[FGenerate] == i
    ensures StaysBefore(s, i, op, MoveOf(cfg, s, i, op, e))
  {
  }

  /** The call succeeded and is installed: the tenant has its one DEK. */
  lemma InstallHasOne(cfg: Config, s: Sys, i: nat, op: Job, e: Event)
    requires s.t.active.None? && s.t.deks == map[] && OpBefore(s.t, s.results, op) && Shape(op) && !Direct(s.t)
    requires TaskMay(cfg, s, op, e) && e.ApplyEv?
    ensures var m := MoveOf(cfg, s, i, op, e);
            HasOne(m.t) && m.t.fetch == s.t.fetch && m.t.deniedAt == s.t.deniedAt && m.h.generates == s.h.generates
            && m.op.Some? && OpAfter(m.op.value)
  {
  }

  lemma CarryInstall(s: Sys, i: nat, m: Move, was: nat, first: nat)
    requires Flying(s) && Before(s, was, first) && i in s.ops && Sent(s.ops[i].pc)
    requires FGenerate in s.flights && s.flights[FGenerate] == i && m.h.generates == s.h.generates
    requires forall j | j in s.ops && j != i :: OpAfter(s.ops[j])
    requires HasOne(m.t) && m.op.Some? && OpAfter(m.op.value)
    ensures After(Carry(s, i, m), was)
  {
  }

  /** Nobody but the flight's leader is inside a call. */
  lemma OthersOutside(s: Sys, was: nat, first: nat, i: nat, j: nat)
    requires Flying(s) && Before(s, was, first) && i in s.ops && j in s.ops && j != i
    requires forall k | k in s.ops :: Shape(s.ops[k])
    requires InCall(s.ops[i].pc)
    ensures OpAfter(s.ops[j])
  {
    CallerLeads(s, was, first, i);
    if InCall(s.ops[j].pc) { CallerLeads(s, was, first, j); assert false; }
  }

  lemma NoneInFlight(s: Sys, was: nat, first: nat, i: nat)
    requires Flying(s) && Balanced(s) && Before(s, was, first) && i in s.ops && s.ops[i].pc.AtCap?
    requires forall k | k in s.ops :: Shape(s.ops[k])
    ensures s.t.inflight == 0
  {
    forall j | j in s.ops ensures !s.ops[j].counted {
      if j != i { OthersOutside(s, was, first, i, j); }
    }
    assert Having(IsCounted, s.ops) == {};
  }

  lemma MoveBefore(cfg: Config, s: Sys, i: nat, e: Event, was: nat, first: nat)
    requires Sound(cfg, s) && Setting(s, first) && Before(s, was, first)
    requires i in s.ops && TaskMay(cfg, s, s.ops[i], e) && Fine(cfg, s, e) && !e.ApplyEv?
    ensures StaysBefore(s, i, s.ops[i], MoveOf(cfg, s, i, s.ops[i], e))
  {
    var op := s.ops[i];
    if InCall(op.pc) { CallerLeads(s, was, first, i); }
    if op.pc.AtCap? { NoneInFlight(s, was, first, i); }
    if Asking(e) { AskBefore(cfg, s, i, op, e); } else { SettleBefore(cfg, s, i, op, e); }
  }

  lemma ApplyBefore(cfg: Config, s: Sys, i: nat, e: Event, was: nat, first: nat)
    requires Sound(cfg, s) && Setting(s, first) && Before(s, was, first)
    requires i in s.ops && TaskMay(cfg, s, s.ops[i], e) && e.ApplyEv?
    ensures var u := Carry(s, i, MoveOf(cfg, s, i, s.ops[i], e)); After(u, was) && Setting(u, first)
  {
    CallerLeads(s, was, first, i);
    forall j | j in s.ops && j != i ensures OpAfter(s.ops[j]) { OthersOutside(s, was, first, i, j); }
    InstallHasOne(cfg, s, i, s.ops[i], e);
    CarryInstall(s, i, MoveOf(cfg, s, i, s.ops[i], e), was, first);
  }

  lemma SettingKept(cfg: Config, s: Sys, i: nat, op: Job, e: Event, first: nat)
    requires TaskMay(cfg, s, op, e) && !e.ApplyEv?
    ensures var m := MoveOf(cfg, s, i, op, e); m.t.fetch == s.t.fetch && m.t.deniedAt == s.t.deniedAt
  {
    if Asking(e) { AskOnly(cfg, s, i, op, e); }
    else if Settling(e) { SettleOnly(cfg, s, i, op, e); }
    else { FinishSetting(cfg, s, op, op.pc.out, e.at); }
  }

  lemma FinishSetting(cfg: Config, s: Sys, op: Job, out: Out, at: int)
    requires op.kind.Cold? ==> s.t.waiters > 0
    ensures var m := DoFinish(cfg, s, op, out, at); m.t.fetch == s.t.fetch && m.t.deniedAt == s.t.deniedAt
  {
  }

  lemma CarryBeforeAll(cfg: Config, s: Sys, i: nat, e: Event, was: nat, first: nat)
    requires Sound(cfg, s) && Setting(s, first) && Before(s, was, first)
    requires i in s.ops && TaskMay(cfg, s, s.ops[i], e) && Fine(cfg, s, e)
    ensures Core(Carry(s, i, MoveOf(cfg, s, i, s.ops[i], e)), was, first)
  {
    if e.ApplyEv? {
      ApplyBefore(cfg, s, i, e, was, first);
    } else {
      MoveBefore(cfg, s, i, e, was, first);
      SettingKept(cfg, s, i, s.ops[i], e, first);
      CarryBefore(s, i, MoveOf(cfg, s, i, s.ops[i], e), was, first);
    }
  }

  // ---- Goroutine steps after ----

  predicate StaysAfter(s: Sys, m: Move) {
    HasOne(m.t) && m.h.generates == s.h.generates && (m.op.Some? ==> OpAfter(m.op.value))
  }

  lemma CheckAfter(cfg: Config, s: Sys, op: Job, at: int)
    requires HasOne(s.t) && OpAfter(op) && op.pc.Checking? && Fresh(cfg, s.t, at)
    requires op.kind.Warming? ==> op.kind.id in s.t.deks
    ensures StaysAfter(s, DoCheck(cfg, s, op, at))
  {
    assert Satisfied(cfg, s.t, op.kind.Cold?, at);
  }

  lemma FinishAfter(cfg: Config, s: Sys, op: Job, out: Out, at: int)
    requires HasOne(s.t) && OpAfter(op) && (op.kind.Cold? ==> s.t.waiters > 0)
    ensures StaysAfter(s, DoFinish(cfg, s, op, out, at))
  {
  }

  lemma WakeAfter(s: Sys, op: Job, out: Out)
    requires HasOne(s.t) && OpAfter(op)
    ensures StaysAfter(s, DoWake(s, op, out))
  {
  }

  lemma DecideAfter(cfg: Config, s: Sys, op: Job, at: int)
    requires HasOne(s.t) && OpAfter(op)
    ensures StaysAfter(s, DoDecide(cfg, s, op, at))
  {
  }

  lemma MoveAfter(cfg: Config, s: Sys, i: nat, op: Job, e: Event)
    requires HasOne(s.t) && OpAfter(op) && Shape(op) && TaskMay(cfg, s, op, e) && Fine(cfg, s, e)
    requires op.kind.Warming? ==> op.kind.id in s.t.deks
    ensures StaysAfter(s, MoveOf(cfg, s, i, op, e))
  {
    match e
    case Decide(_, at) => DecideAfter(cfg, s, op, at);
    case Check(_, at) => CheckAfter(cfg, s, op, at);
    case Wake(_) => WakeAfter(s, op, s.results[op.pc.leader]);
    case Finish(_, at) => FinishAfter(cfg, s, op, op.pc.out, at);
    case _ =>
  }

  lemma CarryAfter(cfg: Config, s: Sys, i: nat, e: Event, was: nat, first: nat)
    requires Sound(cfg, s) && Setting(s, first) && After(s, was)
    requires i in s.ops && TaskMay(cfg, s, s.ops[i], e) && Fine(cfg, s, e)
    ensures Core(Carry(s, i, MoveOf(cfg, s, i, s.ops[i], e)), was, first)
  {
    MoveAfter(cfg, s, i, s.ops[i], e);
    SettingKept(cfg, s, i, s.ops[i], e, first);
  }

  // ---- Every run under the circumstances ----

  lemma StepCore(cfg: Config, s: Sys, e: Event, was: nat, first: nat)
    requires Once(cfg, s, was, first) && Enabled(cfg, s, e) && Fine(cfg, s, e)
    ensures Core(Next(cfg, s, e), was, first)
  {
    match Mover(e)
    case None => EntryOnce(cfg, s, e, was, first);
    case Some(i) =>
      if Before(s, was, first) { CarryBeforeAll(cfg, s, i, e, was, first); } else { CarryAfter(cfg, s, i, e, was, first); }
  }

  lemma {:induction false} RunOnce(cfg: Config, s: Sys, es: seq<Event>, was: nat, first: nat)
    requires Once(cfg, s, was, first) && FineRun(cfg, s, es)
    ensures Legal(cfg, s, es) && Once(cfg, Run(cfg, s, es), was, first)
    decreases |es|
  {
    if es != [] {
      StepSound(cfg, s, es[0]);
      StepCore(cfg, s, es[0], was, first);
      RunOnce(cfg, Next(cfg, s, es[0]), es[1..], was, first);
    }
  }

  lemma {:induction false} FineLegal(cfg: Config, s: Sys, es: seq<Event>)
    requires FineRun(cfg, s, es)
    ensures Legal(cfg, s, es)
    decreases |es|
  {
    if es != [] { FineLegal(cfg, Next(cfg, s, es[0]), es[1..]); }
  }

  /**
   At no point is there a second generate call or a second DEK; and once callers or probes have come and all have
   ended there was exactly one call, and the one DEK is active, hot and leased.
   */
  lemma OneGeneratePerNeed(cfg: Config, s: Sys, es: seq<Event>)
    requires DekLess(cfg, s) && FineRun(cfg, s, es) && Legal(cfg, s, es)
    ensures var u := Run(cfg, s, es);
            && u.h.generates <= s.h.generates + 1 && |u.t.deks| <= 1
            && (u.nextOp > s.nextOp && u.ops == map[] ==> u.h.generates == s.h.generates + 1 && |u.t.deks| == 1 && HasOne(u.t))
  {
    assert !Calling(s);
    assert Before(s, s.h.generates, s.nextOp);
    RunOnce(cfg, s, es, s.h.generates, s.nextOp);
    var u := Run(cfg, s, es);
    if After(u, s.h.generates) { assert |u.t.deks.Keys| == 1; }
  }

  /** A cold caller that comes back under the circumstances comes back with a handle on that DEK. */
  lemma ColdCallersSeal(cfg: Config, s: Sys, es: seq<Event>, i: nat, at: int)
    requires DekLess(cfg, s) && FineRun(cfg, s, es) && Legal(cfg, s, es)
    requires var u := Run(cfg, s, es);
             i in u.ops && u.ops[i].kind.Cold? && Enabled(cfg, u, Finish(i, at)) && Fine(cfg, u, Finish(i, at))
    ensures var u := Run(cfg, s, es);
            var m := MoveOf(cfg, u, i, u.ops[i], Finish(i, at));
            m.handle.Some? && Some(m.handle.value.dek) == u.t.active && m.handle.value.prim.Some? && at < m.handle.value.validUntil
  {
    assert !Calling(s);
    assert Before(s, s.h.generates, s.nextOp);
    RunOnce(cfg, s, es, s.h.generates, s.nextOp);
    ColdSeals(cfg, Run(cfg, s, es), Run(cfg, s, es).ops[i], at);
  }

  lemma ColdSeals(cfg: Config, u: Sys, op: Job, at: int)
    requires HasOne(u.t) && !Direct(u.t) && Fresh(cfg, u.t, at) && op.kind.Cold? && op.pc.Finishing? && u.t.waiters > 0
    ensures var m := DoFinish(cfg, u, op, op.pc.out, at);
            m.handle.Some? && Some(m.handle.value.dek) == u.t.active && m.handle.value.prim.Some? && at < m.handle.value.validUntil
  {
    assert CanSeal(cfg, u.t, at);
  }
}
