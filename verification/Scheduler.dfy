/**
 The two-class fair ring (internal/queue/scheduler.go).

 What the ledger and the gate answer is adversarial: every scan of every call sees its own observation of each
 tenant, so nothing is assumed about what happens between, or during, calls.
 */
module Scheduler {
  import opened Prelude

  const MAX_INT := 0x7fff_ffff_ffff_ffff

  /** One tenant as one scan sees it. */
  datatype Look = Look(ready: int, backlog: int, hot: bool)

  type Sight = seq<Look>

  /** One call of Next: the fair share it reads and what its first and second scans see. */
  datatype Call = Call(fairShare: int, first: Sight, second: Sight)

  predicate Fits(c: Call, n: nat) {
    |c.first| == n && |c.second| == n
  }

  /** The tenant is ready, hot and of the wanted class (within share or not). */
  predicate Takes(l: Look, want: bool, fs: int) {
    l.ready > 0 && (l.backlog <= fs) == want && l.hot
  }

  /** The k-th index the cursor visits. */
  function Visit(cursor: nat, k: nat, n: nat): (i: nat)
    requires n > 0
    ensures i < n
  {
    (cursor + k) % n
  }

  /** How many steps past the cursor an index stands: the ranking function. */
  function Distance(i: nat, cursor: nat, n: nat): (d: nat)
    requires i < n && cursor < n
    ensures d < n && Visit(cursor, d, n) == i
  {
    if i >= cursor then i - cursor else i + n - cursor
  }

  lemma VisitDistance(cursor: nat, k: nat, n: nat)
    requires cursor < n && k < n
    ensures Distance(Visit(cursor, k, n), cursor, n) == k
  {
  }

  /** The first taker at or after the k-th visited index. */
  function ScanFrom(s: Sight, cursor: nat, want: bool, fs: int, k: nat): (r: Option<nat>)
    requires cursor < |s| && k <= |s|
    ensures r.Some? ==> r.value < |s| && Takes(s[r.value], want, fs) && Distance(r.value, cursor, |s|) >= k
    ensures r.Some? ==> forall j | k <= j < Distance(r.value, cursor, |s|) :: !Takes(s[Visit(cursor, j, |s|)], want, fs)
    ensures r.None? ==> forall j | k <= j < |s| :: !Takes(s[Visit(cursor, j, |s|)], want, fs)
    decreases |s| - k
  {
    if k == |s| then None
    else
      var i := Visit(cursor, k, |s|);
      VisitDistance(cursor, k, |s|);
      if Takes(s[i], want, fs) then Some(i) else ScanFrom(s, cursor, want, fs, k + 1)
  }

  /** The ring's own state. */
  datatype Ring = Ring(cursorA: nat, cursorB: nat, turn: nat)

  datatype Config = Config(tenants: nat, twoClass: bool, lightTurns: nat)

  predicate Sound(cfg: Config, r: Ring) {
    && (cfg.tenants > 0 ==> r.cursorA < cfg.tenants && r.cursorB < cfg.tenants)
    && (cfg.twoClass ==> cfg.lightTurns >= 1 && r.turn <= cfg.lightTurns)
  }

  function Cursor(r: Ring, want: bool): nat { if want then r.cursorA else r.cursorB }

  function ScanRing(cfg: Config, r: Ring, s: Sight, want: bool, fs: int): (Ring, Option<nat>)
    requires Sound(cfg, r) && |s| == cfg.tenants
  {
    if cfg.tenants == 0 then (r, None)
    else match ScanFrom(s, Cursor(r, want), want, fs, 0)
      case None => (r, None)
      case Some(i) =>
        var next := (i + 1) % cfg.tenants;
        (if want then r.(cursorA := next) else r.(cursorB := next), Some(i))
  }

  function Turned(cfg: Config, r: Ring): Ring {
    r.(turn := (r.turn + 1) % (cfg.lightTurns + 1))
  }

  /** Scheduler.Next on values. */
  function NextRing(cfg: Config, r: Ring, c: Call): (res: (Ring, Option<nat>))
    requires Sound(cfg, r) && Fits(c, cfg.tenants)
    ensures Sound(cfg, res.0)
  {
    if !cfg.twoClass then ScanRing(cfg, r, c.first, true, MAX_INT)
    else
      var light := r.turn < cfg.lightTurns;
      var a := ScanRing(cfg, r, c.first, light, c.fairShare);
      if a.1.Some? then (Turned(cfg, a.0), a.1)
      else
        var b := ScanRing(cfg, r, c.second, !light, c.fairShare);
        if b.1.Some? then (Turned(cfg, b.0), b.1) else (r, None)
  }

  /** The mutable ring, proved against the functions above. */
  class FairRing {
    const cfg: Config
    var cursorA: nat
    var cursorB: nat
    var turn: nat

    ghost function View(): Ring reads this { Ring(cursorA, cursorB, turn) }

    ghost predicate Valid() reads this { Sound(cfg, View()) }

    /** TwoClass needs a share source and LightTurns >= 1, else the ring has one class. */
    constructor (tenants: nat, twoClass: bool, hasShare: bool, lightTurns: int)
      ensures Valid() && View() == Ring(0, 0, 0)
      ensures cfg.tenants == tenants && cfg.twoClass == (twoClass && hasShare && lightTurns >= 1)
      ensures cfg.twoClass ==> cfg.lightTurns == lightTurns
    {
      cfg := Config(tenants, twoClass && hasShare && lightTurns >= 1, if lightTurns < 0 then 0 else lightTurns);
      cursorA, cursorB, turn := 0, 0, 0;
    }

    method Scan(want: bool, fs: int, s: Sight) returns (r: Option<nat>)
      requires Valid() && |s| == cfg.tenants
      modifies this
      ensures (View(), r) == ScanRing(cfg, old(View()), s, want, fs)
    {
      var n := |s|;
      var cur := if want then cursorA else cursorB;
      for k := 0 to n
        invariant View() == old(View())
        invariant n > 0 ==> ScanFrom(s, cur, want, fs, 0) == ScanFrom(s, cur, want, fs, k)
      {
        var i := (cur + k) % n;
        if s[i].ready > 0 && (s[i].backlog <= fs) == want && s[i].hot {
          if want {
            cursorA := (i + 1) % n;
          } else {
            cursorB := (i + 1) % n;
          }
          return Some(i);
        }
      }
      return None;
    }

    method Next(c: Call) returns (r: Option<nat>)
      requires Valid() && Fits(c, cfg.tenants)
      modifies this
      ensures Valid()
      ensures (View(), r) == NextRing(cfg, old(View()), c)
    {
      if !cfg.twoClass {
        r := Scan(true, MAX_INT, c.first);
        return;
      }
      var light := turn < cfg.lightTurns;
      r := Scan(light, c.fairShare, c.first);
      if r.None? {
        r := Scan(!light, c.fairShare, c.second);
      }
      if r.Some? {
        turn := (turn + 1) % (cfg.lightTurns + 1);
      }
    }
  }

  // ---- Starvation bounds ----

  /** Rows to hand out, a key to open them with, and a backlog within the share, or over it. */
  predicate Candidate(l: Look, within: bool, fs: int) {
    0 < l.ready && l.hot && if within then l.backlog <= fs else fs < l.backlog
  }

  /** A candidate of the class in everything this call can see of tenant i. */
  predicate Dispatchable(c: Call, i: nat, want: bool)
    requires Fits(c, |c.first|) && i < |c.first|
  {
    Candidate(c.first[i], want, c.fairShare) && Candidate(c.second[i], want, c.fairShare)
  }

  ghost predicate Stays(cfg: Config, cs: seq<Call>, i: nat, want: bool) {
    && i < cfg.tenants
    && forall k | 0 <= k < |cs| :: Fits(cs[k], cfg.tenants) && Dispatchable(cs[k], i, want)
  }

  /** Tenant i is returned by one of the calls. */
  predicate Served(cfg: Config, r: Ring, cs: seq<Call>, i: nat)
    requires Sound(cfg, r) && forall k | 0 <= k < |cs| :: Fits(cs[k], cfg.tenants)
    decreases |cs|
  {
    cs != [] && (NextRing(cfg, r, cs[0]).1 == Some(i) || Served(cfg, NextRing(cfg, r, cs[0]).0, cs[1..], i))
  }

  /** A scan of the tenant's class either returns it or brings the cursor strictly closer. */
  lemma ScanProgress(cfg: Config, r: Ring, s: Sight, want: bool, fs: int, i: nat)
    requires Sound(cfg, r) && |s| == cfg.tenants && i < |s| && Takes(s[i], want, fs)
    ensures var (r', got) := ScanRing(cfg, r, s, want, fs);
            && got.Some?
            && Sound(cfg, r')
            && r'.turn == r.turn && Cursor(r', !want) == Cursor(r, !want)
            && (got == Some(i) || Distance(i, Cursor(r', want), |s|) < Distance(i, Cursor(r, want), |s|))
  {
    var n, cur := |s|, Cursor(r, want);
    var got := ScanFrom(s, cur, want, fs, 0);
    assert Visit(cur, Distance(i, cur, n), n) == i;
    assert got.Some?;
    var j := got.value;
    assert Distance(j, cur, n) <= Distance(i, cur, n);
    CloserAfter(i, j, cur, n);
  }

  function After(j: nat, n: nat): nat { if j + 1 == n then 0 else j + 1 }

  lemma AfterIsMod(j: nat, n: nat)
    requires j < n
    ensures (j + 1) % n == After(j, n)
  {
  }

  lemma CloserAfter(i: nat, j: nat, cur: nat, n: nat)
    requires i < n && j < n && cur < n && Distance(j, cur, n) <= Distance(i, cur, n)
    ensures i == j || Distance(i, (j + 1) % n, n) < Distance(i, cur, n)
  {
    AfterIsMod(j, n);
  }

  /** Calls a within-share tenant may still have to wait for, given its distance and the turn. */
  function LightWait(d: nat, turn: nat, lightTurns: nat): nat {
    2 * d + (if turn < lightTurns then 1 else 2)
  }

  /** Calls an over-share tenant may still have to wait for: one heavy scan per cycle of lightTurns + 1 turns. */
  function HeavyWait(d: nat, turn: nat, lightTurns: nat): nat
    requires turn <= lightTurns
  {
    d * (lightTurns + 1) + (lightTurns - turn) + 1
  }

  lemma CallProgress(cfg: Config, r: Ring, c: Call, want: bool, i: nat)
    requires cfg.twoClass && Sound(cfg, r) && Fits(c, cfg.tenants) && i < cfg.tenants && Dispatchable(c, i, want)
    ensures var (r', got) := NextRing(cfg, r, c);
            && got.Some? && Sound(cfg, r')
            && r'.turn == (if r.turn < cfg.lightTurns then r.turn + 1 else 0)
            && var d, d' := Distance(i, Cursor(r, want), cfg.tenants), Distance(i, Cursor(r', want), cfg.tenants);
               (got == Some(i) || d' < d || (d' == d && want != (r.turn < cfg.lightTurns)))
  {
    var light := r.turn < cfg.lightTurns;
    if light == want {
      ScanProgress(cfg, r, c.first, want, c.fairShare, i);
    } else if ScanRing(cfg, r, c.first, light, c.fairShare).1.None? {
      ScanProgress(cfg, r, c.second, want, c.fairShare, i);
    }
    TurnStep(r.turn, cfg.lightTurns);
  }

  lemma TurnStep(turn: nat, lightTurns: nat)
    requires turn <= lightTurns
    ensures (turn + 1) % (lightTurns + 1) == if turn < lightTurns then turn + 1 else 0
  {
  }

  lemma MoreDistance(d: nat, d': nat, l: nat)
    requires d' < d
    ensures d' * l + l <= d * l
  {
    assert d * l == d' * l + (d - d') * l;
    assert (d - d') * l == (d - d' - 1) * l + l;
  }

  lemma {:induction false} LightServed(cfg: Config, r: Ring, cs: seq<Call>, i: nat)
    requires cfg.twoClass && Sound(cfg, r) && Stays(cfg, cs, i, true)
    requires |cs| >= LightWait(Distance(i, r.cursorA, cfg.tenants), r.turn, cfg.lightTurns)
    ensures Served(cfg, r, cs, i)
    decreases |cs|
  {
    var (r', got) := NextRing(cfg, r, cs[0]);
    CallProgress(cfg, r, cs[0], true, i);
    if got != Some(i) {
      LightServed(cfg, r', cs[1..], i);
    }
  }

  lemma {:induction false} HeavyServed(cfg: Config, r: Ring, cs: seq<Call>, i: nat)
    requires cfg.twoClass && Sound(cfg, r) && Stays(cfg, cs, i, false)
    requires |cs| >= HeavyWait(Distance(i, r.cursorB, cfg.tenants), r.turn, cfg.lightTurns)
    ensures Served(cfg, r, cs, i)
    decreases |cs|
  {
    var (r', got) := NextRing(cfg, r, cs[0]);
    CallProgress(cfg, r, cs[0], false, i);
    if got != Some(i) {
      var d, d' := Distance(i, r.cursorB, cfg.tenants), Distance(i, r'.cursorB, cfg.tenants);
      if d' < d { MoreDistance(d, d', cfg.lightTurns + 1); }
      HeavyServed(cfg, r', cs[1..], i);
    }
  }

  /** A tenant that stays ready, hot and within its share is returned within 2n calls, whatever the others do. */
  lemma WithinShareNotStarved(cfg: Config, r: Ring, cs: seq<Call>, i: nat)
    requires cfg.twoClass && Sound(cfg, r) && Stays(cfg, cs, i, true)
    requires |cs| >= 2 * cfg.tenants
    ensures Served(cfg, r, cs, i)
  {
    LightServed(cfg, r, cs, i);
  }

  /** A tenant that stays ready, hot and over its share is returned within (lightTurns + 1) * n calls. */
  lemma OverShareNotStarved(cfg: Config, r: Ring, cs: seq<Call>, i: nat)
    requires cfg.twoClass && Sound(cfg, r) && Stays(cfg, cs, i, false)
    requires |cs| >= (cfg.lightTurns + 1) * cfg.tenants
    ensures Served(cfg, r, cs, i)
  {
    var d := Distance(i, r.cursorB, cfg.tenants);
    MoreDistance(cfg.tenants, d, cfg.lightTurns + 1);
    HeavyServed(cfg, r, cs, i);
  }

  /** With one class (M1 ring) the bound is n. */
  lemma {:induction false} OneClassNotStarved(cfg: Config, r: Ring, cs: seq<Call>, i: nat)
    requires !cfg.twoClass && Sound(cfg, r) && i < cfg.tenants
    requires forall k | 0 <= k < |cs| :: Fits(cs[k], cfg.tenants) && Candidate(cs[k].first[i], true, MAX_INT)
    requires |cs| > Distance(i, r.cursorA, cfg.tenants)
    ensures Served(cfg, r, cs, i)
    decreases |cs|
  {
    ScanProgress(cfg, r, cs[0].first, true, MAX_INT, i);
    var (r', got) := NextRing(cfg, r, cs[0]);
    if got != Some(i) {
      OneClassNotStarved(cfg, r', cs[1..], i);
    }
  }

  /** Work conservation: Next gives up only when no tenant was dispatchable in either class, and then moves nothing. */
  lemma GivesUpOnlyIdle(cfg: Config, r: Ring, c: Call)
    requires cfg.twoClass && Sound(cfg, r) && Fits(c, cfg.tenants)
    ensures var light := r.turn < cfg.lightTurns;
            var (r', got) := NextRing(cfg, r, c);
            && (got.None? <==> forall i | 0 <= i < cfg.tenants ::
                  !Candidate(c.first[i], light, c.fairShare) && !Candidate(c.second[i], !light, c.fairShare))
            && (got.None? ==> r' == r)
            && (got.Some? ==>
                  got.value < cfg.tenants && (Candidate(c.first[got.value], light, c.fairShare) || Candidate(c.second[got.value], !light, c.fairShare)))
  {
    if cfg.tenants > 0 {
      var light := r.turn < cfg.lightTurns;
      MissMeansNone(c.first, Cursor(r, light), light, c.fairShare);
      MissMeansNone(c.second, Cursor(r, !light), !light, c.fairShare);
    }
  }

  lemma MissMeansNone(s: Sight, cursor: nat, want: bool, fs: int)
    requires cursor < |s|
    ensures ScanFrom(s, cursor, want, fs, 0).None? <==> forall i | 0 <= i < |s| :: !Takes(s[i], want, fs)
  {
    if ScanFrom(s, cursor, want, fs, 0).None? {
      forall i | 0 <= i < |s| ensures !Takes(s[i], want, fs) {
        assert Visit(cursor, Distance(i, cursor, |s|), |s|) == i;
      }
    }
  }
}
