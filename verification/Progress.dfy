/**
 Nothing gets stuck: every goroutine takes at most fourteen steps, some goroutine can always step, and from every
 reachable state all of them can run to their end, even if every call from now on fails; then `probing` is down and
 every waiter's place, in-flight count and provider token is back.
 */
module Progress {
  import opened Prelude
  import opened Envelope
  import opened KeyState
  import opened Protocol
  import opened Steps
  import opened Structure
  import opened References
  import opened Permits

  /** How many steps are left at most. */
  function Rank(pc: Pc): nat {
    match pc
    case Deciding => 14
    case Entering => 13
    case Checking => 12
    case AtCap => 11
    case AtSem => 10
    case Sending => 9
    case AtKms(_) => 8
    case Back(_) => 7
    case Allocating(_) => 6
    case Storing(_, _) => 5
    case Applying(_, _, _) => 4
    case Landed(_) => 3
    case Joined(_) => 2
    case Finishing(_) => 1
    case Crashed => 0
  }

  function RankOf(op: Option<Job>): nat { if op.Some? then Rank(op.value.pc) else 0 }

  lemma CheckFalls(cfg: Config, s: Sys, op: Job, at: int)
    ensures RankOf(DoCheck(cfg, s, op, at).op) <= 11
  {
    if op.kind.Warming? {
    } else if op.kind.SealOnce? {
    } else if Satisfied(cfg, s.t, op.kind.Cold?, at) {
    } else {
    }
  }

  lemma CapFalls(cfg: Config, s: Sys, op: Job)
    ensures RankOf(DoCap(cfg, s, op).op) <= 10
  {
    if s.t.fetch.Naive? {
    } else if cfg.tenantInflight == 0 {
    } else if s.t.inflight >= cfg.tenantInflight {
    } else {
    }
  }

  lemma AskFalls(cfg: Config, s: Sys, i: nat, op: Job, e: Event)
    requires TaskMay(cfg, s, op, e) && Asking(e)
    ensures RankOf(MoveOf(cfg, s, i, op, e).op) < Rank(op.pc)
  {
    match e
    case Check(_, at) => CheckFalls(cfg, s, op, at);
    case Cap(_) => CapFalls(cfg, s, op);
    case _ =>
  }

  /** Every step of a goroutine brings its end nearer. */
  lemma RankFalls(cfg: Config, s: Sys, i: nat, op: Job, e: Event)
    requires TaskMay(cfg, s, op, e)
    ensures MoveOf(cfg, s, i, op, e).op.None? || RankOf(MoveOf(cfg, s, i, op, e).op) < Rank(op.pc)
  {
    if Asking(e) { AskFalls(cfg, s, i, op, e); }
    else if Settling(e) { SettleOnly(cfg, s, i, op, e); SettleFalls(s, op, MoveOf(cfg, s, i, op, e)); }
    else if e.Finish? { FinishEnds(cfg, s, op, op.pc.out, e.at); }
  }

  lemma SettleFalls(s: Sys, op: Job, m: Move)
    requires Settled(s, op, m)
    ensures RankOf(m.op) < Rank(op.pc)
  {
  }

  // ---- The clock side of a step ----

  predicate ClockedOp(now: int, op: Job) { op.pc.Applying? ==> op.pc.since <= now }

  ghost predicate Clocked(s: Sys) {
    0 < s.now && forall i | i in s.ops :: ClockedOp(s.now, s.ops[i])
  }

  lemma MoveClocked(cfg: Config, s: Sys, i: nat, op: Job, e: Event)
    requires TaskMay(cfg, s, op, e)
    ensures var m := MoveOf(cfg, s, i, op, e); m.op.Some? ==> ClockedOp(s.now, m.op.value)
  {
    if Asking(e) { AskOnly(cfg, s, i, op, e); AskedClocked(s, op, MoveOf(cfg, s, i, op, e)); }
    else if Settling(e) { SettleOnly(cfg, s, i, op, e); SettledClocked(s, op, MoveOf(cfg, s, i, op, e)); }
    else if e.Finish? { FinishEnds(cfg, s, op, op.pc.out, e.at); }
  }

  lemma AskedClocked(s: Sys, op: Job, m: Move)
    requires Asked(s, op, m)
    ensures ClockedOp(s.now, m.op.value)
  {
  }

  lemma SettledClocked(s: Sys, op: Job, m: Move)
    requires Settled(s, op, m)
    ensures ClockedOp(s.now, m.op.value)
  {
  }

  lemma BornClocked(cfg: Config, s: Sys, e: Event)
    ensures var c := CallOf(cfg, s, e); c.born.Some? ==> ClockedOp(s.now, c.born.value)
  {
    BornShaped(cfg, s, e);
  }

  lemma EntryClocked(cfg: Config, s: Sys, e: Event)
    requires Clocked(s) && EntryMay(cfg, s, e)
    ensures Clocked(Entry(cfg, s, e))
  {
    BornClocked(cfg, s, e);
  }

  lemma CarryClocked(cfg: Config, s: Sys, i: nat, e: Event)
    requires Clocked(s) && i in s.ops && TaskMay(cfg, s, s.ops[i], e)
    ensures Clocked(Carry(s, i, MoveOf(cfg, s, i, s.ops[i], e)))
  {
    MoveClocked(cfg, s, i, s.ops[i], e);
  }

  lemma StepClocked(cfg: Config, s: Sys, e: Event)
    requires Clocked(s) && Enabled(cfg, s, e)
    ensures Clocked(Next(cfg, s, e))
  {
    match Mover(e)
    case None => EntryClocked(cfg, s, e);
    case Some(i) => CarryClocked(cfg, s, i, e);
  }

  // ---- Some step is always possible ----

  /** The next step of goroutine i if every answer from now on is a failure. */
  function StepFor(s: Sys, i: nat, op: Job): Event {
    match op.pc
    case Deciding => Decide(i, s.now)
    case Entering => Enter(i)
    case Checking => Check(i, s.now)
    case AtCap => Cap(i)
    case AtSem => Sem(i, false)
    case Sending => Send(i)
    case AtKms(_) => Answer(i, true, 0)
    case Back(_) => Return(i)
    case Allocating(_) => Alloc(i, s.now)
    case Storing(_, _) => Put(i, false)
    case Applying(_, _, _) => ApplyEv(i, s.now, 0.0)
    case Landed(_) => Land(i)
    case Joined(_) => Wake(i)
    case _ => Finish(i, s.now)
  }

  predicate Movable(s: Sys, op: Job) {
    !op.pc.Crashed? && (op.pc.Joined? ==> op.pc.leader in s.results)
  }

  lemma CanStepEarly(cfg: Config, s: Sys, i: nat, op: Job)
    requires Shape(op) && KeyedOp(s.h.minted, s.t, s.stored, i, op) && 0 < s.now && Movable(s, op) && Rank(op.pc) >= 7
    ensures TaskMay(cfg, s, op, StepFor(s, i, op))
  {
  }

  lemma CanStepLate(cfg: Config, s: Sys, i: nat, op: Job)
    requires Shape(op) && KeyedOp(s.h.minted, s.t, s.stored, i, op) && 0 < s.now && Movable(s, op) && Rank(op.pc) < 7
    requires Owes(s.t, op) && ClockedOp(s.now, op)
    ensures TaskMay(cfg, s, op, StepFor(s, i, op))
  {
  }

  lemma CanStep(cfg: Config, s: Sys, i: nat)
    requires Sound(cfg, s) && Clocked(s) && i in s.ops && Movable(s, s.ops[i])
    ensures Enabled(cfg, s, StepFor(s, i, s.ops[i])) && Mover(StepFor(s, i, s.ops[i])) == Some(i)
  {
    OwesAll(s, i);
    if Rank(s.ops[i].pc) >= 7 { CanStepEarly(cfg, s, i, s.ops[i]); } else { CanStepLate(cfg, s, i, s.ops[i]); }
  }

  /** A goroutine that waits for a flight waits for one that can step. */
  lemma SomeCanStep(cfg: Config, s: Sys, i: nat) returns (j: nat)
    requires Sound(cfg, s) && i in s.ops && !s.ops[i].pc.Crashed?
    ensures j in s.ops && Movable(s, s.ops[j]) && (j == i || s.ops[i].pc == Joined(j))
  {
    j := if Movable(s, s.ops[i]) then i else s.ops[i].pc.leader;
  }

  // ---- All of them together ----

  function RankAt(ops: map<nat, Job>, i: nat): nat { if i in ops then Rank(ops[i].pc) else 0 }

  function Left(ops: map<nat, Job>, n: nat): nat {
    if n == 0 then 0 else Left(ops, n - 1) + RankAt(ops, n - 1)
  }

  lemma {:induction false} LeftFalls(ops: map<nat, Job>, ops': map<nat, Job>, i: nat, n: nat)
    requires i < n && RankAt(ops', i) < RankAt(ops, i)
    requires forall j | j != i :: RankAt(ops', j) == RankAt(ops, j)
    ensures Left(ops', n) < Left(ops, n)
  {
    if i == n - 1 { LeftSame(ops, ops', i, n - 1); } else { LeftFalls(ops, ops', i, n - 1); }
  }

  lemma {:induction false} LeftSame(ops: map<nat, Job>, ops': map<nat, Job>, i: nat, n: nat)
    requires n <= i && forall j | j != i :: RankAt(ops', j) == RankAt(ops, j)
    ensures Left(ops', n) == Left(ops, n)
  {
    if n > 0 { LeftSame(ops, ops', i, n - 1); }
  }

  lemma StepLowers(cfg: Config, s: Sys, i: nat, e: Event)
    requires Enabled(cfg, s, e) && Mover(e) == Some(i) && i < s.nextOp && Rank(s.ops[i].pc) > 0
    ensures var u := Next(cfg, s, e); u.nextOp == s.nextOp && Left(u.ops, u.nextOp) < Left(s.ops, s.nextOp)
  {
    RankFalls(cfg, s, i, s.ops[i], e);
    LeftFalls(s.ops, Next(cfg, s, e).ops, i, s.nextOp);
  }

  ghost predicate AllOver(ops: map<nat, Job>) { forall i | i in ops :: ops[i].pc.Crashed? }

  /** Nobody is left, and neither the clock nor the key's flag has moved. */
  ghost predicate Drained(cfg: Config, s: Sys, u: Sys) {
    AllOver(u.ops) && Sound(cfg, u) && Clocked(u) && u.now == s.now && u.enabled == s.enabled
  }

  /** From every sound state there is a run, failures only, after which no goroutine is left but crashed ones. */
  lemma {:induction false} Drain(cfg: Config, s: Sys) returns (es: seq<Event>)
    requires Sound(cfg, s) && Clocked(s)
    ensures Legal(cfg, s, es) && Drained(cfg, s, Run(cfg, s, es))
    decreases Left(s.ops, s.nextOp)
  {
    if AllOver(s.ops) {
      es := [];
    } else {
      var i :| i in s.ops && !s.ops[i].pc.Crashed?;
      var j := SomeCanStep(cfg, s, i);
      var e := StepFor(s, j, s.ops[j]);
      CanStep(cfg, s, j);
      es := DrainAfter(cfg, s, j, e);
    }
  }

  lemma {:induction false} DrainAfter(cfg: Config, s: Sys, j: nat, e: Event) returns (es: seq<Event>)
    requires Sound(cfg, s) && Clocked(s) && Enabled(cfg, s, e) && Mover(e) == Some(j) && Rank(s.ops[j].pc) > 0
    ensures Legal(cfg, s, es) && Drained(cfg, s, Run(cfg, s, es))
    decreases Left(s.ops, s.nextOp), 0
  {
    StepSound(cfg, s, e);
    StepClocked(cfg, s, e);
    StepLowers(cfg, s, j, e);
    var rest := Drain(cfg, Next(cfg, s, e));
    es := [e] + rest;
    Prepend(cfg, s, e, rest);
  }

  lemma Prepend(cfg: Config, s: Sys, e: Event, es: seq<Event>)
    requires Enabled(cfg, s, e) && Legal(cfg, Next(cfg, s, e), es)
    ensures Legal(cfg, s, [e] + es) && Run(cfg, s, [e] + es) == Run(cfg, Next(cfg, s, e), es)
  {
    assert ([e] + es)[1..] == es;
  }

  /** With no goroutine left, every flag and permit is back. */
  lemma OverMeansClear(cfg: Config, s: Sys)
    requires Sound(cfg, s) && AllOver(s.ops)
    ensures !s.t.probing && s.t.waiters == 0 && s.t.inflight == 0 && Tokens(s.ops) == {}
  {
    assert forall i | i in s.ops :: s.ops[i].kind.SealOnce? && !s.ops[i].counted;
    assert Having(IsAsker, s.ops) == {};
    assert Having(IsCold, s.ops) == {};
    assert Having(IsCounted, s.ops) == {};
  }

  lemma {:induction false} RunClocked(cfg: Config, s: Sys, es: seq<Event>)
    requires Clocked(s) && Legal(cfg, s, es)
    ensures Clocked(Run(cfg, s, es))
    decreases |es|
  {
    if es != [] {
      StepClocked(cfg, s, es[0]);
      RunClocked(cfg, Next(cfg, s, es[0]), es[1..]);
    }
  }

  lemma ReachableClocked(cfg: Config, s: Sys)
    requires Reachable(cfg, s)
    ensures Clocked(s)
  {
    var name, start, mode, es :|
      start > 0 && Legal(cfg, Start(name, start, mode), es) && Run(cfg, Start(name, start, mode), es) == s;
    RunClocked(cfg, Start(name, start, mode), es);
  }

  /** `probing` is always cleared: from every reachable state of every mode some run brings all flags and permits back. */
  lemma AlwaysCleared(cfg: Config, s: Sys) returns (more: seq<Event>)
    requires Reachable(cfg, s)
    ensures Legal(cfg, s, more)
    ensures var u := Run(cfg, s, more); !u.t.probing && u.t.waiters == 0 && u.t.inflight == 0 && Tokens(u.ops) == {}
  {
    ReachableSound(cfg, s);
    ReachableClocked(cfg, s);
    more := Drain(cfg, s);
    OverMeansClear(cfg, Run(cfg, s, more));
  }
}
