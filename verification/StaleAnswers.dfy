/**
 Stale answers: an OK that the KMS gave before its latest deny must not bring a tenant back, and a lease must not go
 back in time although every deny zeroes it.

 apply reads the clock before it takes the lock (internal/cmek/fetcher.go:223-224), so two denies can take effect
 against the order of their readings. Both claims hold for every run in which each deny's reading is no older than
 the last deny's and than the lease it ends (a reading and a section taken as one step give that). What the guard does
 in any reachable state depends only on the record of denials; Witnesses.dfy shows the condition exact.
 */
module StaleAnswers {
  import opened Prelude
  import opened Envelope
  import opened KeyState
  import opened Protocol
  import opened Steps

  predicate IsDeny(r: Reply) { r.verdict.Deny? && !r.err.Busy? && !r.err.StoreErr? }

  /** A deny takes effect in order: with a reading no older than the last deny's and than the lease it ends. */
  predicate DenyInOrder(s: Sys, e: Event) {
    e.ApplyEv? && e.i in s.ops && s.ops[e.i].pc.Applying? && IsDeny(s.ops[e.i].pc.r) ==>
      s.t.deniedAt <= e.at && s.t.sentAt <= e.at
  }

  /** A legal run whose denies take effect in order. */
  ghost predicate Timely(cfg: Config, s: Sys, es: seq<Event>)
    decreases |es|
  {
    es != [] ==> Enabled(cfg, s, es[0]) && DenyInOrder(s, es[0]) && Timely(cfg, Next(cfg, s, es[0]), es[1..])
  }

  lemma {:induction false} TimelyLegal(cfg: Config, s: Sys, es: seq<Event>)
    requires Timely(cfg, s, es)
    ensures Legal(cfg, s, es)
    decreases |es|
  {
    if es != [] { TimelyLegal(cfg, Next(cfg, s, es[0]), es[1..]); }
  }

  // ---- The invariant ----

  predicate Timed(r: Reply, upTo: int) { r.sentAt <= r.checked <= upTo }

  predicate TimedOp(now: int, op: Job) {
    match op.pc
    case AtKms(sentAt) => sentAt <= now
    case Back(r) => Timed(r, now)
    case Allocating(r) => Timed(r, now)
    case Storing(r, _) => Timed(r, now)
    case Applying(r, _, since) => Timed(r, since) && since <= now
    case _ => true
  }

  /** `floor` is any lease instant seen so far. */
  predicate Guarded(t: Tenant, h: Hist, floor: int, now: int) {
    t.deniedAt <= now && t.sentAt <= now && 0 <= t.sentAt && h.denyChecked <= t.deniedAt && floor <= if t.sentAt == 0 then t.deniedAt else t.sentAt
  }

  ghost predicate Ordered(s: Sys, floor: int) {
    && 0 < s.now && Guarded(s.t, s.h, floor, s.now)
    && forall i | i in s.ops :: TimedOp(s.now, s.ops[i])
  }

  lemma CallOrdered(cfg: Config, s: Sys, e: Event)
    ensures var c := CallOf(cfg, s, e);
            c.t.sentAt == s.t.sentAt && c.t.deniedAt == s.t.deniedAt && (c.born.Some? ==> TimedOp(s.now, c.born.value))
  {
  }

  lemma FinishOrdered(cfg: Config, s: Sys, op: Job, out: Out, at: int)
    requires op.kind.Cold? ==> s.t.waiters > 0
    ensures var m := DoFinish(cfg, s, op, out, at);
            m.t.sentAt == s.t.sentAt && m.t.deniedAt == s.t.deniedAt && m.h == s.h && m.op.None?
  {
  }

  lemma ApplyOrdered(cfg: Config, s: Sys, i: nat, op: Job, e: Event, floor: int)
    requires TaskMay(cfg, s, op, e) && e.ApplyEv? && TimedOp(s.now, op) && Guarded(s.t, s.h, floor, s.now)
    requires IsDeny(op.pc.r) ==> s.t.deniedAt <= e.at && s.t.sentAt <= e.at
    ensures var m := MoveOf(cfg, s, i, op, e); Guarded(m.t, m.h, floor, s.now) && (m.op.Some? ==> TimedOp(s.now, m.op.value))
  {
  }

  lemma AskOrdered(cfg: Config, s: Sys, i: nat, op: Job, e: Event)
    requires 0 < s.now && TaskMay(cfg, s, op, e) && Asking(e)
    ensures var m := MoveOf(cfg, s, i, op, e); m.h.denyChecked == s.h.denyChecked && (m.op.Some? ==> TimedOp(s.now, m.op.value))
  {
    AskOnly(cfg, s, i, op, e);
  }

  lemma SettleOrdered(cfg: Config, s: Sys, i: nat, op: Job, e: Event)
    requires 0 < s.now && TaskMay(cfg, s, op, e) && TimedOp(s.now, op) && Settling(e)
    ensures var m := MoveOf(cfg, s, i, op, e);
            m.t.sentAt == s.t.sentAt && m.t.deniedAt == s.t.deniedAt && m.h.denyChecked == s.h.denyChecked
            && (m.op.Some? ==> TimedOp(s.now, m.op.value))
  {
    SettleOnly(cfg, s, i, op, e);
  }

  lemma MoveOrdered(cfg: Config, s: Sys, i: nat, op: Job, e: Event, floor: int)
    requires 0 < s.now && TaskMay(cfg, s, op, e) && TimedOp(s.now, op) && Guarded(s.t, s.h, floor, s.now)
    requires e.ApplyEv? && IsDeny(op.pc.r) ==> s.t.deniedAt <= e.at && s.t.sentAt <= e.at
    ensures var m := MoveOf(cfg, s, i, op, e); Guarded(m.t, m.h, floor, s.now) && (m.op.Some? ==> TimedOp(s.now, m.op.value))
  {
    if Asking(e) { AskOnly(cfg, s, i, op, e); AskOrdered(cfg, s, i, op, e); }
    else if e.ApplyEv? { ApplyOrdered(cfg, s, i, op, e, floor); }
    else if e.Finish? { FinishOrdered(cfg, s, op, op.pc.out, e.at); }
    else { SettleOrdered(cfg, s, i, op, e); }
  }

  lemma EntryOrdered(cfg: Config, s: Sys, e: Event, floor: int)
    requires Ordered(s, floor) && EntryMay(cfg, s, e)
    ensures Ordered(Entry(cfg, s, e), floor)
  {
    CallOrdered(cfg, s, e);
  }

  lemma CarryOrdered(cfg: Config, s: Sys, i: nat, e: Event, floor: int)
    requires Ordered(s, floor) && Mover(e) == Some(i) && i in s.ops && TaskMay(cfg, s, s.ops[i], e) && DenyInOrder(s, e)
    ensures Ordered(Carry(s, i, MoveOf(cfg, s, i, s.ops[i], e)), floor)
  {
    MoveOrdered(cfg, s, i, s.ops[i], e, floor);
  }

  lemma StepOrdered(cfg: Config, s: Sys, e: Event, floor: int)
    requires Ordered(s, floor) && Enabled(cfg, s, e) && DenyInOrder(s, e)
    ensures Ordered(Next(cfg, s, e), floor)
  {
    match Mover(e)
    case None => EntryOrdered(cfg, s, e, floor);
    case Some(i) => CarryOrdered(cfg, s, i, e, floor);
  }

  lemma {:induction false} RunOrdered(cfg: Config, s: Sys, es: seq<Event>, floor: int)
    requires Ordered(s, floor) && Timely(cfg, s, es)
    ensures Legal(cfg, s, es) && Ordered(Run(cfg, s, es), floor)
    decreases |es|
  {
    TimelyLegal(cfg, s, es);
    if es != [] {
      StepOrdered(cfg, s, es[0], floor);
      RunOrdered(cfg, Next(cfg, s, es[0]), es[1..], floor);
    }
  }

  /** Reading the clock and applying as one step is enough for the order. */
  lemma {:induction false} AtOnceIsTimely(cfg: Config, s: Sys, es: seq<Event>)
    requires Ordered(s, 0) && AtOnce(cfg, s, es)
    ensures Timely(cfg, s, es)
    decreases |es|
  {
    if es != [] {
      StepOrdered(cfg, s, es[0], 0);
      AtOnceIsTimely(cfg, Next(cfg, s, es[0]), es[1..]);
    }
  }

  ghost predicate AtOnce(cfg: Config, s: Sys, es: seq<Event>)
    decreases |es|
  {
    es != [] ==> Enabled(cfg, s, es[0]) && (es[0].ApplyEv? ==> es[0].at == s.now) && AtOnce(cfg, Next(cfg, s, es[0]), es[1..])
  }

  // ---- The claims ----

  /** Some run from a fresh tenant whose denies take effect in order leads to s. */
  ghost predicate InOrder(cfg: Config, s: Sys) {
    exists name, start, mode, es ::
      start > 0 && Timely(cfg, Start(name, start, mode), es) && Legal(cfg, Start(name, start, mode), es)
      && Run(cfg, Start(name, start, mode), es) == s
  }

  lemma InOrderOrdered(cfg: Config, s: Sys)
    requires InOrder(cfg, s)
    ensures Ordered(s, 0)
  {
    var name, start, mode, es :|
      start > 0 && Timely(cfg, Start(name, start, mode), es) && Legal(cfg, Start(name, start, mode), es)
      && Run(cfg, Start(name, start, mode), es) == s;
    RunOrdered(cfg, Start(name, start, mode), es, 0);
  }

  /** Every OK that changes the tenant was checked no earlier than the latest deny already applied. */
  lemma NoStaleOkTakesEffect(cfg: Config, s: Sys, e: Event)
    requires InOrder(cfg, s) && Enabled(cfg, s, e) && e.ApplyEv?
    ensures IsOk(s.ops[e.i].pc.r) && Next(cfg, s, e).t != s.t ==> s.h.denyChecked <= s.ops[e.i].pc.r.checked
  {
    InOrderOrdered(cfg, s);
    StaleIsNothing(cfg, s, e.i, s.ops[e.i], e);
  }

  lemma StaleIsNothing(cfg: Config, s: Sys, i: nat, op: Job, e: Event)
    requires TaskMay(cfg, s, op, e) && e.ApplyEv? && TimedOp(s.now, op) && s.h.denyChecked <= s.t.deniedAt
    ensures IsOk(op.pc.r) && op.pc.r.checked < s.h.denyChecked ==> MoveOf(cfg, s, i, op, e).t == s.t
  {
  }

  /** Of any two leases held during a run the later one was sent no earlier. */
  lemma LeasesMoveForward(cfg: Config, s: Sys, more: seq<Event>)
    requires InOrder(cfg, s) && Timely(cfg, s, more) && Legal(cfg, s, more)
    ensures var u := Run(cfg, s, more); s.t.sentAt != 0 && u.t.sentAt != 0 ==> s.t.sentAt <= u.t.sentAt
  {
    InOrderOrdered(cfg, s);
    if s.t.sentAt != 0 { RunOrdered(cfg, s, more, s.t.sentAt); }
  }

  // ---- Without the order ----

  lemma ApplyTimed(cfg: Config, s: Sys, i: nat, op: Job, e: Event)
    requires TaskMay(cfg, s, op, e) && e.ApplyEv?
    ensures var v := MoveOf(cfg, s, i, op, e).op; v.Some? ==> TimedOp(s.now, v.value)
  {
  }

  lemma MoveTimed(cfg: Config, s: Sys, i: nat, op: Job, e: Event)
    requires 0 < s.now && TaskMay(cfg, s, op, e) && TimedOp(s.now, op)
    ensures var v := MoveOf(cfg, s, i, op, e).op; v.Some? ==> TimedOp(s.now, v.value)
  {
    if Asking(e) { AskOrdered(cfg, s, i, op, e); }
    else if Settling(e) { SettleOrdered(cfg, s, i, op, e); }
    else if e.ApplyEv? { ApplyTimed(cfg, s, i, op, e); }
    else { FinishOrdered(cfg, s, op, op.pc.out, e.at); }
  }

  ghost predicate AllTimed(s: Sys) {
    0 < s.now && forall i | i in s.ops :: TimedOp(s.now, s.ops[i])
  }

  lemma CarryTimed(cfg: Config, s: Sys, i: nat, e: Event)
    requires AllTimed(s) && i in s.ops && TaskMay(cfg, s, s.ops[i], e)
    ensures AllTimed(Carry(s, i, MoveOf(cfg, s, i, s.ops[i], e)))
  {
    MoveTimed(cfg, s, i, s.ops[i], e);
  }

  lemma EntryTimed(cfg: Config, s: Sys, e: Event)
    requires AllTimed(s) && EntryMay(cfg, s, e)
    ensures AllTimed(Entry(cfg, s, e))
  {
    CallOrdered(cfg, s, e);
  }

  lemma StepTimed(cfg: Config, s: Sys, e: Event)
    requires AllTimed(s) && Enabled(cfg, s, e)
    ensures AllTimed(Next(cfg, s, e))
  {
    match Mover(e)
    case None => EntryTimed(cfg, s, e);
    case Some(i) => CarryTimed(cfg, s, i, e);
  }

  lemma {:induction false} RunTimed(cfg: Config, s: Sys, es: seq<Event>)
    requires AllTimed(s) && Legal(cfg, s, es)
    ensures AllTimed(Run(cfg, s, es))
    decreases |es|
  {
    if es != [] {
      StepTimed(cfg, s, es[0]);
      RunTimed(cfg, Next(cfg, s, es[0]), es[1..]);
    }
  }

  /** An OK that the KMS gave before its latest deny is applied and changes the tenant. */
  predicate StaleTakesEffect(cfg: Config, s: Sys, e: Event) {
    && e.ApplyEv? && Enabled(cfg, s, e) && IsOk(s.ops[e.i].pc.r)
    && s.ops[e.i].pc.r.checked < s.h.denyChecked && Next(cfg, s, e).t != s.t
  }

  /** In every reachable state whose recorded denial is no older than the latest deny's check, none does. */
  lemma GuardedWhenInOrder(cfg: Config, s: Sys, e: Event)
    requires Reachable(cfg, s) && s.h.denyChecked <= s.t.deniedAt
    ensures !StaleTakesEffect(cfg, s, e)
  {
    var name, start, mode, es :|
      start > 0 && Legal(cfg, Start(name, start, mode), es) && Run(cfg, Start(name, start, mode), es) == s;
    RunTimed(cfg, Start(name, start, mode), es);
    if e.ApplyEv? && Enabled(cfg, s, e) { StaleIsNothing(cfg, s, e.i, s.ops[e.i], e); }
  }
}
