/**
 The way back: in every fetch mode, from every reachable state with the key enabled, there is a run that makes the
 tenant ACTIVE and ends no later than the longest wait from now.
 */
module Recovery {
  import opened Prelude
  import opened Envelope
  import opened KeyState
  import opened Protocol
  import opened Steps
  import opened Structure
  import opened References
  import opened Permits
  import opened Progress
  import opened Healing

  /** The next step of a probe the KMS answers. */
  function GoodStep(s: Sys, i: nat, op: Job): Event {
    match op.pc
    case AtSem => Sem(i, true)
    case AtKms(_) => Answer(i, false, 0)
    case Storing(_, _) => Put(i, true)
    case _ => StepFor(s, i, op)
  }

  predicate Winning(t: Tenant, r: Reply) { r.err.NoErr? && t.deniedAt <= r.sentAt }

  /** A probe on its way to a fresh OK. */
  predicate Carries(t: Tenant, op: Job) {
    && op.kind.Probe?
    && match op.pc
       case AtKms(sentAt) => t.deniedAt <= sentAt
       case Back(r) => Winning(t, r)
       case Allocating(r) => Winning(t, r)
       case Storing(r, _) => Winning(t, r)
       case Applying(r, _, _) => Winning(t, r)
       case Joined(_) => false
       case Landed(_) => false
       case Finishing(_) => false
       case Crashed => false
       case _ => true
  }

  ghost predicate Alone(s: Sys, i: nat) {
    i in s.ops && forall j | j in s.ops && j != i :: s.ops[j].pc.Crashed?
  }

  /** The setting of the last lap: the key is up, nobody else is about, and the probe is on its way. */
  ghost predicate Lap(cfg: Config, s: Sys, i: nat) {
    && Sound(cfg, s) && Clocked(s) && Sane(cfg)
    && s.enabled && s.others == 0 && s.t.deniedAt <= s.now && !s.t.state.Active?
    && Alone(s, i) && Carries(s.t, s.ops[i])
  }

  /** The flight's key is free when the probe enters, and no one holds a token or a place. */
  lemma NobodyElse(cfg: Config, s: Sys, i: nat)
    requires Sound(cfg, s) && Alone(s, i)
    ensures (!s.ops[i].leads ==> s.flights == map[])
    ensures (!s.ops[i].counted ==> s.t.inflight == 0) && (!s.ops[i].sem ==> Tokens(s.ops) == {})
  {
    assert forall j | j in s.ops && j != i :: !s.ops[j].leads && !s.ops[j].counted && !s.ops[j].sem;
    if !s.ops[i].leads { assert forall k :: k !in s.flights; }
    if !s.ops[i].counted { assert Having(IsCounted, s.ops) == {}; }
  }

  lemma GoodStepEnabled(cfg: Config, s: Sys, i: nat)
    requires Sound(cfg, s) && Clocked(s) && Alone(s, i) && Movable(s, s.ops[i]) && s.others == 0 && 0 < cfg.providerInflight
    ensures Enabled(cfg, s, GoodStep(s, i, s.ops[i])) && Mover(GoodStep(s, i, s.ops[i])) == Some(i)
  {
    NobodyElse(cfg, s, i);
    CanStep(cfg, s, i);
    if s.ops[i].pc.Storing? { NewIdIsNew(cfg, s, i); }
  }

  predicate Ahead(s: Sys, m: Move) {
    || m.t.state.Active?
    || (m.op.Some? && Carries(m.t, m.op.value) && !m.t.state.Active? && m.t.deniedAt == s.t.deniedAt)
  }

  lemma GoodCheck(cfg: Config, s: Sys, op: Job)
    requires Shape(op) && op.kind.Probe? && op.pc.Checking? && !s.t.state.Active?
    ensures DoCheck(cfg, s, op, s.now) == To(s, op.(pc := AtCap))
  {
  }

  lemma GoodCap(cfg: Config, s: Sys, op: Job)
    requires op.pc.AtCap? && op.kind.Probe? && s.t.inflight == 0 && !s.t.state.Active?
    ensures Ahead(s, DoCap(cfg, s, op))
  {
    if s.t.fetch.Naive? {
    } else if cfg.tenantInflight == 0 {
    } else {
    }
  }

  lemma GoodAsk(cfg: Config, s: Sys, i: nat, op: Job)
    requires TaskMay(cfg, s, op, GoodStep(s, i, op)) && Asking(GoodStep(s, i, op)) && Shape(op) && Carries(s.t, op)
    requires !s.t.state.Active? && s.t.deniedAt <= s.now
    requires (!op.leads ==> s.flights == map[]) && (!op.counted ==> s.t.inflight == 0)
    ensures Ahead(s, MoveOf(cfg, s, i, op, GoodStep(s, i, op)))
  {
    if op.pc.Checking? { GoodCheck(cfg, s, op); }
    else if op.pc.AtCap? { GoodCap(cfg, s, op); }
  }

  lemma GoodSettle(cfg: Config, s: Sys, i: nat, op: Job)
    requires TaskMay(cfg, s, op, GoodStep(s, i, op)) && Settling(GoodStep(s, i, op)) && Shape(op) && Carries(s.t, op)
    requires !s.t.state.Active? && s.enabled
    ensures Ahead(s, MoveOf(cfg, s, i, op, GoodStep(s, i, op)))
  {
  }

  lemma GoodApply(cfg: Config, s: Sys, i: nat, op: Job)
    requires TaskMay(cfg, s, op, GoodStep(s, i, op)) && op.pc.Applying? && Shape(op) && Carries(s.t, op)
    requires !s.t.state.Active?
    ensures MoveOf(cfg, s, i, op, GoodStep(s, i, op)).t.state.Active?
  {
    OkUnparks(cfg, s.t, OpName(op), op.pc.s, op.pc.r, s.now, DelayOf(cfg, s.t, 0.0));
  }

  lemma GoodMove(cfg: Config, s: Sys, i: nat)
    requires Lap(cfg, s, i) && TaskMay(cfg, s, s.ops[i], GoodStep(s, i, s.ops[i]))
    ensures Ahead(s, MoveOf(cfg, s, i, s.ops[i], GoodStep(s, i, s.ops[i])))
  {
    NobodyElse(cfg, s, i);
    if s.ops[i].pc.Applying? { GoodApply(cfg, s, i, s.ops[i]); }
    else if Asking(GoodStep(s, i, s.ops[i])) { GoodAsk(cfg, s, i, s.ops[i]); }
    else { GoodSettle(cfg, s, i, s.ops[i]); }
  }

  lemma AheadLap(cfg: Config, s: Sys, i: nat, m: Move)
    requires Lap(cfg, s, i) && Ahead(s, m) && Sound(cfg, Carry(s, i, m)) && Clocked(Carry(s, i, m))
    ensures var u := Carry(s, i, m); u.t.state.Active? || Lap(cfg, u, i)
  {
  }

  /** The last lap ends in ACTIVE, at once. */
  lemma {:induction false} LapWins(cfg: Config, s: Sys, i: nat) returns (es: seq<Event>)
    requires Lap(cfg, s, i)
    ensures Legal(cfg, s, es) && Run(cfg, s, es).t.state.Active? && Run(cfg, s, es).now == s.now
    decreases Rank(s.ops[i].pc)
  {
    var e := GoodStep(s, i, s.ops[i]);
    GoodStepEnabled(cfg, s, i);
    GoodMove(cfg, s, i);
    StepSound(cfg, s, e);
    StepClocked(cfg, s, e);
    AheadLap(cfg, s, i, MoveOf(cfg, s, i, s.ops[i], e));
    RankFalls(cfg, s, i, s.ops[i], e);
    var rest := [];
    if !Next(cfg, s, e).t.state.Active? { rest := LapWins(cfg, Next(cfg, s, e), i); }
    es := [e] + rest;
    Prepend(cfg, s, e, rest);
  }

  // ---- Getting to the last lap ----

  /** Where the parked tenant's probe starts: the sweep, or in sync fetch an ingest. */
  function Kick(s: Sys): Event {
    if s.t.fetch.Sync? then EncryptInline(s.now) else TickEv(s.now, DueProbe)
  }

  /** Drained, parked, due. */
  ghost predicate Waiting(cfg: Config, s: Sys) {
    && Sound(cfg, s) && Clocked(s) && Sane(cfg) && AllOver(s.ops)
    && s.enabled && s.others == 0 && s.t.deniedAt <= s.now && !s.t.state.Active? && s.t.nextProbeAt <= s.now
  }

  lemma KickEnabled(cfg: Config, s: Sys)
    requires Waiting(cfg, s)
    ensures Enabled(cfg, s, Kick(s)) && Mover(Kick(s)) == None
  {
    OverMeansClear(cfg, s);
    var b := TickBody(cfg, s.t, s.now);
    assert b.probing == s.t.probing && b.nextProbeAt == s.t.nextProbeAt && !b.state.Active? && b.fetch == s.t.fetch;
  }

  lemma KickCall(cfg: Config, s: Sys)
    requires !s.t.state.Active?
    ensures var c := CallOf(cfg, s, Kick(s));
            c.born == Some(PROBE) && !c.t.state.Active? && c.t.deniedAt == s.t.deniedAt
  {
    assert !TickBody(cfg, s.t, s.now).state.Active?;
  }

  lemma KickStarts(cfg: Config, s: Sys)
    requires Waiting(cfg, s)
    ensures Enabled(cfg, s, Kick(s)) && Lap(cfg, Next(cfg, s, Kick(s)), s.nextOp) && Next(cfg, s, Kick(s)).now == s.now
  {
    KickEnabled(cfg, s);
    KickCall(cfg, s);
    StepSound(cfg, s, Kick(s));
    StepClocked(cfg, s, Kick(s));
  }

  lemma WaitingWins(cfg: Config, s: Sys) returns (es: seq<Event>)
    requires Waiting(cfg, s)
    ensures Legal(cfg, s, es) && Run(cfg, s, es).t.state.Active? && Run(cfg, s, es).now == s.now
  {
    KickStarts(cfg, s);
    var rest := LapWins(cfg, Next(cfg, s, Kick(s)), s.nextOp);
    es := [Kick(s)] + rest;
    Prepend(cfg, s, Kick(s), rest);
  }

  /** Wait for the slot. */
  lemma ParkedWins(cfg: Config, s: Sys) returns (es: seq<Event>)
    requires Sound(cfg, s) && Clocked(s) && Sane(cfg) && AllOver(s.ops) && s.enabled && s.others == 0
    requires !s.t.state.Active? && Slotted(cfg, s.now, s.t, s.h)
    ensures Legal(cfg, s, es) && Run(cfg, s, es).t.state.Active? && Run(cfg, s, es).now <= s.now + Reach(cfg)
  {
    ReachNonNegative(cfg);
    var e := Advance(Max(s.now, s.t.nextProbeAt));
    StepSound(cfg, s, e);
    StepClocked(cfg, s, e);
    var rest := WaitingWins(cfg, Next(cfg, s, e));
    es := [e] + rest;
    Prepend(cfg, s, e, rest);
  }

  /** The provider's other tenants get out of the way. */
  lemma OverWins(cfg: Config, s: Sys) returns (es: seq<Event>)
    requires Sound(cfg, s) && Clocked(s) && Sane(cfg) && AllOver(s.ops) && s.enabled
    requires Slotted(cfg, s.now, s.t, s.h)
    ensures Legal(cfg, s, es) && Run(cfg, s, es).t.state.Active? && Run(cfg, s, es).now <= s.now + Reach(cfg)
  {
    ReachNonNegative(cfg);
    if s.t.state.Active? {
      es := [];
    } else {
      OverMeansClear(cfg, s);
      var e := Others(0);
      StepSound(cfg, s, e);
      StepClocked(cfg, s, e);
      var rest := ParkedWins(cfg, Next(cfg, s, e));
      es := [e] + rest;
      Prepend(cfg, s, e, rest);
    }
  }

  ghost predicate Appends(cfg: Config, s: Sys, es: seq<Event>, more: seq<Event>, u: Sys) {
    Legal(cfg, s, es + more) && Run(cfg, s, es + more) == u
  }

  lemma AppendCons(cfg: Config, s: Sys, e: Event, rest: seq<Event>, more: seq<Event>, u: Sys)
    requires Enabled(cfg, s, e) && Appends(cfg, Next(cfg, s, e), rest, more, u)
    ensures Appends(cfg, s, [e] + rest, more, u)
  {
    Prepend(cfg, s, e, rest + more);
    assert ([e] + rest) + more == [e] + (rest + more);
  }

  lemma {:induction false} Append(cfg: Config, s: Sys, es: seq<Event>, more: seq<Event>)
    requires Legal(cfg, s, es) && Legal(cfg, Run(cfg, s, es), more)
    ensures Appends(cfg, s, es, more, Run(cfg, Run(cfg, s, es), more))
    decreases |es|
  {
    if es == [] {
      assert es + more == more;
    } else {
      Append(cfg, Next(cfg, s, es[0]), es[1..], more);
      AppendCons(cfg, s, es[0], es[1..], more, Run(cfg, Run(cfg, s, es), more));
      assert es == [es[0]] + es[1..];
    }
  }

  lemma DrainedWins(cfg: Config, s: Sys) returns (es: seq<Event>)
    requires Sound(cfg, s) && Clocked(s) && Sane(cfg) && s.enabled && Slotted(cfg, s.now, s.t, s.h)
    ensures Legal(cfg, s, es) && Run(cfg, s, es).t.state.Active? && Run(cfg, s, es).now <= s.now + Reach(cfg)
  {
    var first := Drain(cfg, s);
    RunSlot(cfg, s, first);
    var rest := OverWins(cfg, Run(cfg, s, first));
    Append(cfg, s, first, rest);
    es := first + rest;
  }

  /** In every mode, from every reachable state with the key enabled, ACTIVE is within reach. */
  lemma CanRecover(cfg: Config, s: Sys) returns (more: seq<Event>)
    requires Sane(cfg) && Reachable(cfg, s) && s.enabled
    ensures Legal(cfg, s, more) && Run(cfg, s, more).t.state.Active? && Run(cfg, s, more).now <= s.now + Reach(cfg)
  {
    ReachableSound(cfg, s);
    ReachableClocked(cfg, s);
    ReachableSlot(cfg, s);
    more := DrainedWins(cfg, s);
  }

  /** What a reachable state can lead to is reachable. */
  lemma ReachableRun(cfg: Config, s: Sys, es: seq<Event>)
    requires Reachable(cfg, s) && Legal(cfg, s, es)
    ensures Reachable(cfg, Run(cfg, s, es))
  {
    var name, start, mode, first :|
      start > 0 && Legal(cfg, Start(name, start, mode), first) && Run(cfg, Start(name, start, mode), first) == s;
    Append(cfg, Start(name, start, mode), first, es);
  }

  lemma ReachableNext(cfg: Config, s: Sys, e: Event)
    requires Reachable(cfg, s) && Enabled(cfg, s, e)
    ensures Reachable(cfg, Next(cfg, s, e))
  {
    Prepend(cfg, s, e, []);
    ReachableRun(cfg, s, [e]);
    assert [e] + [] == [e];
  }
}
