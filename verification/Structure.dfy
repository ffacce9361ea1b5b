/** What each goroutine looks like at each of its steps: which flight it leads, what it calls for, what it carries. */
module Structure {
  import opened Prelude
  import opened Envelope
  import opened KeyState
  import opened Protocol
  import opened Steps

  predicate DirectKind(k: Kind) { k.SealOnce? || k.OpenOnce? }

  predicate InCall(pc: Pc) {
    pc.AtCap? || pc.AtSem? || pc.Sending? || pc.AtKms? || pc.Back? || pc.Allocating? || pc.Storing? || pc.Applying?
  }

  predicate ReplyShape(r: Reply) {
    match r.err
    case NoErr => r.verdict.OK? && r.prim.Some?
    case Failed => !r.verdict.OK?
    case _ => r.verdict.OK?
  }

  predicate OutShape(k: Kind, out: Out) {
    if DirectKind(k) then out.Made? && (out.r.err.NoErr? ==> !out.s.NoDek?) else out.Plain?
  }

  /** What it carries. */
  predicate Cargo(op: Job) {
    match op.pc
    case Back(r) => ReplyShape(r) && (r.err.NoErr? || r.err.Failed?)
    case Allocating(r) => op.gen && r.err.NoErr? && ReplyShape(r)
    case Storing(r, s) => op.gen && r.err.NoErr? && ReplyShape(r) && s.Fresh? && s.dek.prim.None? && r.prim == Some(s.dek.wrapped)
    case Applying(r, s, _) =>
      ReplyShape(r) && (op.gen <==> !s.Held?) && (s.Held? ==> op.dek == Some(s.id)) && (r.err.NoErr? ==> !s.NoDek?)
      && (s.Fresh? ==> s.dek.prim.None? && r.prim == Some(s.dek.wrapped))
    case Landed(out) => OutShape(op.kind, out)
    case Finishing(out) => OutShape(op.kind, out)
    case _ => true
  }

  /** What it calls for. */
  predicate Aim(op: Job) {
    && (op.gen ==> op.key.FGenerate? && !op.pc.Deciding?)
    && (InCall(op.pc) ==> op.gen || op.dek.Some?)
    && match op.kind
       case Probe => op.pc.Deciding? || (if op.gen then op.key.FGenerate? else op.key.FActive? && op.dek.Some?)
       case Cold => op.pc.Deciding? || (if op.gen then op.key.FGenerate? else op.key.FActive? && op.dek.Some?)
       case Warming(id) => !op.gen && op.dek == Some(id) && op.key == FDek(id) && !op.pc.Deciding?
       case OpenOnce(id) => !op.gen && op.dek == Some(id) && (InCall(op.pc) || op.pc.Finishing?)
       case SealOnce => (op.pc.Entering? || op.pc.Joined? || op.pc.Checking? ==> op.gen && op.key.FGenerate?)
  }

  /** Whether it leads a flight. */
  predicate Standing(op: Job) {
    && (op.pc.Deciding? || op.pc.Entering? || op.pc.Joined? || op.pc.Finishing? || op.pc.Crashed? ==> !op.leads)
    && (op.pc.Checking? || op.pc.Landed? ==> op.leads)
    && (InCall(op.pc) && (!DirectKind(op.kind) || op.gen) ==> op.leads)
    && (op.leads && op.kind.SealOnce? ==> op.key.FGenerate?)
    && (op.kind.OpenOnce? ==> !op.leads)
    && (op.pc.Crashed? ==> op.kind.SealOnce?)
  }

  /** Which permits it holds. */
  predicate Holds(op: Job) {
    && (op.counted ==> op.pc.AtSem? || op.pc.Sending? || op.pc.AtKms? || op.pc.Back?)
    && (op.sem ==> op.pc.Sending? || op.pc.AtKms? || op.pc.Back?)
  }

  predicate Shape(op: Job) { Cargo(op) && Aim(op) && Standing(op) && Holds(op) }

  lemma BornShaped(cfg: Config, s: Sys, e: Event)
    ensures var c := CallOf(cfg, s, e); c.born.Some? ==> Shape(c.born.value) && (c.born.value.pc.Deciding? || c.born.value.pc.Entering? || c.born.value.pc.AtCap?)
  {
  }

  lemma DecideShaped(cfg: Config, s: Sys, op: Job, at: int)
    requires Shape(op) && op.pc.Deciding?
    ensures Shape(DoDecide(cfg, s, op, at).op.value)
  {
  }

  lemma EnterShaped(s: Sys, i: nat, op: Job)
    requires Shape(op) && op.pc.Entering?
    ensures Shape(DoEnter(s, i, op).op.value)
  {
  }

  lemma CheckShaped(cfg: Config, s: Sys, op: Job, at: int)
    requires Shape(op) && op.pc.Checking?
    ensures Shape(DoCheck(cfg, s, op, at).op.value)
  {
    if IsRenew(op.kind) { FlightCheckShaped(cfg, s, op, at); }
  }

  lemma FlightCheckShaped(cfg: Config, s: Sys, op: Job, at: int)
    requires Shape(op) && op.pc.Checking? && IsRenew(op.kind)
    ensures Shape(DoCheck(cfg, s, op, at).op.value)
  {
  }

  lemma BusyShaped(op: Job, now: int)
    requires Shape(op) && op.pc.AtCap?
    ensures Shape(op.(pc := Applying(Busied(), CallSubject(op), now)))
  {
  }

  lemma CapShaped(cfg: Config, s: Sys, op: Job)
    requires Shape(op) && op.pc.AtCap?
    ensures Shape(DoCap(cfg, s, op).op.value)
  {
    BusyShaped(op, s.now);
  }

  lemma AskShaped(cfg: Config, s: Sys, i: nat, op: Job, e: Event)
    requires Shape(op) && TaskMay(cfg, s, op, e) && Asking(e)
    ensures Shape(MoveOf(cfg, s, i, op, e).op.value)
  {
    match e
    case Decide(_, at) => DecideShaped(cfg, s, op, at);
    case Enter(_) => EnterShaped(s, i, op);
    case Check(_, at) => CheckShaped(cfg, s, op, at);
    case Cap(_) => CapShaped(cfg, s, op);
    case _ =>
  }

  lemma ApplyShaped(cfg: Config, s: Sys, i: nat, op: Job, e: Event)
    requires Shape(op) && TaskMay(cfg, s, op, e) && e.ApplyEv?
    ensures Shape(MoveOf(cfg, s, i, op, e).op.value)
  {
  }

  ghost predicate ResultsShaped(s: Sys) {
    forall l | l in s.results && s.results[l].Made? ::
      s.results[l].r.err.NoErr? ==> !s.results[l].s.NoDek?
  }

  lemma WakeShaped(s: Sys, op: Job, out: Out)
    requires Shape(op) && op.pc.Joined? && (out.Made? && out.r.err.NoErr? ==> !out.s.NoDek?)
    ensures Shape(DoWake(s, op, out).op.value)
  {
  }

  lemma SettleShaped(cfg: Config, s: Sys, i: nat, op: Job, e: Event)
    requires Shape(op) && TaskMay(cfg, s, op, e) && Settling(e) && ResultsShaped(s)
    ensures Shape(MoveOf(cfg, s, i, op, e).op.value)
  {
    match e
    case Wake(_) => WakeShaped(s, op, s.results[op.pc.leader]);
    case _ =>
  }
}
