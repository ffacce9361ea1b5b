/**
 S3's bookkeeping (internal/check/checker.go:155-225): revocation episodes paired from the ground-truth log, and the
 incremental count of late deliveries against a count from scratch. Per tenant, on values; Checker.dfy runs it.
 */
module Revocations {
  import opened Prelude
  import opened Sink

  /** A ground-truth key event of one tenant. */
  datatype KeyEvent = KeyEvent(at: int, enabled: bool)

  /** One episode; restore == 0 means the key is still disabled. */
  datatype Window = Window(revoke: int, restore: int)

  /** windows, for the events of one tenant: each disable opens an episode unless one is open, each enable closes it. */
  function Pair(es: seq<KeyEvent>): seq<Window> {
    if es == [] then []
    else Paired(Pair(es[..|es| - 1]), es[|es| - 1])
  }

  predicate Open(ws: seq<Window>) {
    ws != [] && ws[|ws| - 1].restore == 0
  }

  function Paired(ws: seq<Window>, e: KeyEvent): seq<Window> {
    if !e.enabled then
      if Open(ws) then ws else ws + [Window(e.at, 0)]
    else
      if Open(ws) then ws[|ws| - 1 := ws[|ws| - 1].(restore := e.at)] else ws
  }

  /** What the checker keeps per tenant: the last revoke it has seen (0 = none), the resume point and its verdicts. */
  datatype Track = Track(seen: int, lastSeq: int, late: nat, gap: bool)

  const NEW := Track(0, -1, 0, false)

  function LateSum(log: seq<int>, ws: seq<Window>, lease: int): nat {
    if ws == [] then 0
    else LateSum(log, ws[..|ws| - 1], lease) + Between(log, ws[|ws| - 1].revoke + lease, ws[|ws| - 1].restore)
  }

  /** Where this pass resumes: a revoke seen for the first time moves the resume point to the current total. */
  function Resume(tr: Track, ws: seq<Window>, log: seq<int>): int
    requires ws != []
  {
    if tr.seen != ws[|ws| - 1].revoke then |log| else tr.lastSeq
  }

  /** s3 for one tenant's group of windows. */
  function Pass(tr: Track, ws: seq<Window>, log: seq<int>, lease: int, size: nat): Track {
    if ws == [] then tr
    else
      var since := Resume(tr, ws, log);
      Track(ws[|ws| - 1].revoke,
            Max(since, |log|),
            tr.late + LateSum(log[From(since, |log|, size)..], ws, lease),
            tr.gap || Overrun(since, |log|, size))
  }

  // ---- The truth ----

  /** A delivery the bound forbids: the key had been disabled for more than the lease, and still was. */
  predicate Late(at: int, ws: seq<Window>, lease: int) {
    exists k :: 0 <= k < |ws| && Past(at, ws[k], lease)
  }

  predicate Past(at: int, w: Window, lease: int) {
    w.revoke + lease < at && (w.restore == 0 || at <= w.restore)
  }

  function TrueLate(log: seq<int>, ws: seq<Window>, lease: int): nat {
    if log == [] then 0
    else TrueLate(log[..|log| - 1], ws, lease) + (if Late(log[|log| - 1], ws, lease) then 1 else 0)
  }

  lemma {:induction false} TruePlus(a: seq<int>, b: seq<int>, ws: seq<Window>, lease: int)
    ensures TrueLate(a + b, ws, lease) == TrueLate(a, ws, lease) + TrueLate(b, ws, lease)
  {
    if b == [] {
      assert a + b == a;
    } else {
      var n := |b| - 1;
      assert (a + b)[..|a| + n] == a + b[..n];
      TruePlus(a, b[..n], ws, lease);
    }
  }

  lemma {:induction false} TrueZero(a: seq<int>, ws: seq<Window>, lease: int)
    requires forall k | 0 <= k < |a| :: !Late(a[k], ws, lease)
    ensures TrueLate(a, ws, lease) == 0
  {
    if a != [] { TrueZero(a[..|a| - 1], ws, lease); }
  }

  lemma {:induction false} TrueSame(a: seq<int>, ws: seq<Window>, ws': seq<Window>, lease: int)
    requires forall k | 0 <= k < |a| :: Late(a[k], ws, lease) == Late(a[k], ws', lease)
    ensures TrueLate(a, ws, lease) == TrueLate(a, ws', lease)
  {
    if a != [] { TrueSame(a[..|a| - 1], ws, ws', lease); }
  }

  /** Episodes in order: each closed before the next opens, only the last possibly open, all after time 0. */
  ghost predicate Ordered(ws: seq<Window>, now: int) {
    && (forall k | 0 <= k < |ws| :: 0 < ws[k].revoke <= now && (ws[k].restore == 0 || ws[k].revoke <= ws[k].restore <= now))
    && (forall k | 0 <= k < |ws| - 1 :: ws[k].restore != 0)
    && (forall j, k | 0 <= j < k < |ws| :: ws[j].restore <= ws[k].revoke)
  }

  // ---- The episodes are the times the key was disabled ----

  /** The key's state at an instant: what the last event up to then left it in. */
  predicate DisabledAt(es: seq<KeyEvent>, at: int) {
    es != [] && if es[|es| - 1].at <= at then !es[|es| - 1].enabled else DisabledAt(es[..|es| - 1], at)
  }

  predicate InEpisode(ws: seq<Window>, at: int) {
    exists k :: 0 <= k < |ws| && Covers(ws[k], at)
  }

  predicate Covers(w: Window, at: int) { w.revoke <= at && (w.restore == 0 || at < w.restore) }

  predicate InTime(es: seq<KeyEvent>) {
    && (forall k | 0 <= k < |es| :: 0 < es[k].at)
    && (forall j, k | 0 <= j < k < |es| :: es[j].at <= es[k].at)
  }

  lemma {:induction false} PairIsOrdered(es: seq<KeyEvent>)
    requires InTime(es)
    ensures es != [] ==> Ordered(Pair(es), es[|es| - 1].at)
  {
    if |es| > 1 {
      PairIsOrdered(es[..|es| - 1]);
    } else if es != [] {
      assert Pair(es[..0]) == [];
    }
  }

  /** One event moves only what lies at or after it. */
  lemma EpisodeStep(ws: seq<Window>, e: KeyEvent, at: int)
    requires Ordered(ws, e.at) && 0 < e.at
    ensures InEpisode(Paired(ws, e), at) <==> if e.at <= at then !e.enabled else InEpisode(ws, at)
  {
    var ws', n := Paired(ws, e), |ws| - 1;
    if e.at <= at && !e.enabled {
      assert Covers(ws'[|ws'| - 1], at);
    } else if e.at > at && InEpisode(ws, at) {
      var k :| 0 <= k < |ws| && Covers(ws[k], at);
      assert Covers(ws'[k], at);
    }
  }

  /** An instant lies in one of the paired episodes exactly when the log of the key has it disabled then. */
  lemma {:induction false} EpisodesAreOutages(es: seq<KeyEvent>, at: int)
    requires InTime(es)
    ensures InEpisode(Pair(es), at) <==> DisabledAt(es, at)
    decreases |es|
  {
    if es != [] {
      var before, e := es[..|es| - 1], es[|es| - 1];
      EpisodesAreOutages(before, at);
      if before != [] {
        PairIsOrdered(before);
        OrderedLater(Pair(before), before[|before| - 1].at, e.at);
      }
      EpisodeStep(Pair(before), e, at);
    }
  }

  lemma OrderedLater(ws: seq<Window>, now: int, later: int)
    requires Ordered(ws, now) && now <= later
    ensures Ordered(ws, later)
  {
  }

  lemma OnePlace(at: int, ws: seq<Window>, lease: int, now: int)
    requires Ordered(ws, now) && lease >= 0 && ws != []
    requires Inside(at, ws[|ws| - 1].revoke + lease, ws[|ws| - 1].restore)
    ensures !Late(at, ws[..|ws| - 1], lease)
  {
  }

  /** Summing window by window counts no delivery twice. */
  lemma {:induction false} SumIsUnion(log: seq<int>, ws: seq<Window>, lease: int, now: int)
    requires Ordered(ws, now) && lease >= 0
    ensures LateSum(log, ws, lease) == TrueLate(log, ws, lease)
    decreases |ws|
  {
    if ws == [] {
      TrueZero(log, ws, lease);
    } else {
      var n := |ws| - 1;
      SumIsUnion(log, ws[..n], lease, now);
      SplitLast(log, ws, lease, now);
    }
  }

  lemma {:induction false} SplitLast(log: seq<int>, ws: seq<Window>, lease: int, now: int)
    requires Ordered(ws, now) && lease >= 0 && ws != []
    ensures TrueLate(log, ws, lease) == TrueLate(log, ws[..|ws| - 1], lease)
                                        + Between(log, ws[|ws| - 1].revoke + lease, ws[|ws| - 1].restore)
    decreases |log|
  {
    if log != [] {
      var at := log[|log| - 1];
      SplitLast(log[..|log| - 1], ws, lease, now);
      LateSplit(at, ws, lease, now);
    }
  }

  lemma LateSplit(at: int, ws: seq<Window>, lease: int, now: int)
    requires Ordered(ws, now) && lease >= 0 && ws != []
    ensures var w := ws[|ws| - 1];
            && (Late(at, ws, lease) <==> Late(at, ws[..|ws| - 1], lease) || Inside(at, w.revoke + lease, w.restore))
            && !(Late(at, ws[..|ws| - 1], lease) && Inside(at, w.revoke + lease, w.restore))
  {
    var n := |ws| - 1;
    if Inside(at, ws[n].revoke + lease, ws[n].restore) { OnePlace(at, ws, lease, now); }
    if Late(at, ws[..n], lease) {
      var k :| 0 <= k < n && Inside(at, ws[..n][k].revoke + lease, ws[..n][k].restore);
      assert ws[..n][k] == ws[k];
    }
    if Late(at, ws, lease) && !Inside(at, ws[n].revoke + lease, ws[n].restore) {
      var k :| 0 <= k < |ws| && Inside(at, ws[k].revoke + lease, ws[k].restore);
      assert ws[..n][k] == ws[k];
    }
  }

  // ---- Runs of one tenant ----

  datatype Config = Config(lease: int, size: nat)

  datatype Event = Flip(at: int, enabled: bool) | Deliver(at: int) | Check(at: int)

  /** `skipped` counts the late deliveries the resume rule stepped over; `lastCheck` is the latest pass (or the start). */
  datatype Mon = Mon(now: int, keys: seq<KeyEvent>, enabled: bool, log: seq<int>, tr: Track, lastCheck: int, skipped: nat)

  function Start(now: int): Mon {
    Mon(now, [], true, [], NEW, now, 0)
  }

  /** Time never runs backwards, and the sink is quiescent during a pass: the next delivery is strictly later. */
  predicate Enabled(s: Mon, e: Event) {
    s.now <= e.at && (e.Deliver? ==> s.lastCheck < e.at)
  }

  /** A pass that first sees a new revoke steps over the deliveries since the previous one. */
  function Stepped(s: Mon, ws: seq<Window>, cfg: Config): nat {
    if ws != [] && s.tr.seen != ws[|ws| - 1].revoke then TrueLate(s.log[Counted(s)..], ws, cfg.lease) else 0
  }

  /** How much of the log the passes so far have dealt with. */
  function Counted(s: Mon): nat {
    if 0 <= s.tr.lastSeq <= |s.log| then s.tr.lastSeq else 0
  }

  function Next(s: Mon, e: Event, cfg: Config): Mon {
    match e
    case Flip(at, on) =>
      if on == s.enabled then s.(now := at)
      else s.(now := at, enabled := on, keys := s.keys + [KeyEvent(at, on)])
    case Deliver(at) => s.(now := at, log := s.log + [at])
    case Check(at) =>
      var ws := Pair(s.keys);
      s.(now := at, lastCheck := at, tr := Pass(s.tr, ws, s.log, cfg.lease, cfg.size), skipped := s.skipped + Stepped(s, ws, cfg))
  }

  /** The log of the key alternates, so pairing it gives ordered episodes whose last one is open exactly while disabled. */
  ghost predicate Paired0(s: Mon) {
    Ordered(Pair(s.keys), s.now) && (Open(Pair(s.keys)) <==> !s.enabled)
  }

  lemma FlipPairs(s: Mon, at: int, on: bool, cfg: Config)
    requires Paired0(s) && 0 < s.now <= at
    ensures Paired0(Next(s, Flip(at, on), cfg))
  {
    if on != s.enabled {
      var ks := s.keys + [KeyEvent(at, on)];
      assert ks[..|ks| - 1] == s.keys;
      assert Pair(ks) == Paired(Pair(s.keys), KeyEvent(at, on));
    }
  }

  /** A delivery already recorded keeps its verdict when an episode opens or closes later. */
  lemma PairedVerdict(ws: seq<Window>, e: KeyEvent, now: int, d: int, lease: int)
    requires Ordered(ws, now) && 0 < now <= e.at && d <= now && lease >= 0
    requires Ordered(Paired(ws, e), e.at)
    ensures Late(d, Paired(ws, e), lease) <==> Late(d, ws, lease)
  {
    var ws' := Paired(ws, e);
    if !e.enabled && !Open(ws) {
      LateSplit(d, ws', lease, e.at);
      assert ws'[..|ws|] == ws;
    } else if e.enabled && Open(ws) {
      var n := |ws| - 1;
      LateSplit(d, ws, lease, now);
      LateSplit(d, ws', lease, e.at);
      assert ws'[..n] == ws[..n];
    }
  }

  lemma FlipKeeps(s: Mon, at: int, on: bool, log: seq<int>, cfg: Config)
    requires Paired0(s) && 0 < s.now <= at && cfg.lease >= 0
    requires forall k | 0 <= k < |log| :: log[k] <= s.now
    ensures TrueLate(log, Pair(Next(s, Flip(at, on), cfg).keys), cfg.lease) == TrueLate(log, Pair(s.keys), cfg.lease)
  {
    FlipPairs(s, at, on, cfg);
    if on != s.enabled {
      var e := KeyEvent(at, on);
      var ks := s.keys + [e];
      assert ks[..|ks| - 1] == s.keys;
      forall k | 0 <= k < |log| ensures Late(log[k], Pair(s.keys), cfg.lease) == Late(log[k], Pair(ks), cfg.lease) {
        PairedVerdict(Pair(s.keys), e, s.now, log[k], cfg.lease);
      }
      TrueSame(log, Pair(s.keys), Pair(ks), cfg.lease);
    }
  }

  // ---- Exact accounting ----

  ghost predicate TrackFits(s: Mon) {
    && (s.tr.seen == 0 ==> s.tr == NEW)
    && (s.tr.seen != 0 ==> 0 <= s.tr.lastSeq <= |s.log|)
  }

  ghost predicate Acct(s: Mon, cfg: Config) {
    && cfg.lease >= 0 && 0 < s.now && s.lastCheck <= s.now && Paired0(s) && TrackFits(s)
    && (forall k | 0 <= k < |s.log| :: s.log[k] <= s.now)
    && (!s.tr.gap ==> s.tr.late + s.skipped == TrueLate(s.log[..Counted(s)], Pair(s.keys), cfg.lease))
  }

  /** A pass over a first-seen revoke: what it steps over is on the books as skipped. */
  lemma FirstSeen(s: Mon, ws: seq<Window>, cfg: Config)
    requires Acct(s, cfg) && ws == Pair(s.keys) && ws != [] && s.tr.seen != ws[|ws| - 1].revoke
    ensures Pass(s.tr, ws, s.log, cfg.lease, cfg.size).late == s.tr.late
  {
    assert s.log[From(|s.log|, |s.log|, cfg.size)..] == [];
    SumIsUnion([], ws, cfg.lease, s.now);
    assert TrueLate([], ws, cfg.lease) == 0;
  }

  lemma NoEpisode(s: Mon, cfg: Config)
    requires Acct(s, cfg) && Pair(s.keys) == []
    ensures TrueLate(s.log, Pair(s.keys), cfg.lease) == 0 == TrueLate(s.log[..Counted(s)], Pair(s.keys), cfg.lease)
  {
    TrueZero(s.log, Pair(s.keys), cfg.lease);
    TrueZero(s.log[..Counted(s)], Pair(s.keys), cfg.lease);
  }

  /** What the last pass left is the late deliveries since. */
  lemma SinceLast(s: Mon, cfg: Config)
    requires Acct(s, cfg) && Pair(s.keys) != []
    ensures var ws, c := Pair(s.keys), Counted(s);
            && TrueLate(s.log, ws, cfg.lease) == TrueLate(s.log[..c], ws, cfg.lease) + TrueLate(s.log[c..], ws, cfg.lease)
            && LateSum(s.log[c..], ws, cfg.lease) == TrueLate(s.log[c..], ws, cfg.lease)
  {
    var ws, c := Pair(s.keys), Counted(s);
    TruePlus(s.log[..c], s.log[c..], ws, cfg.lease);
    assert s.log[..c] + s.log[c..] == s.log;
    SumIsUnion(s.log[c..], ws, cfg.lease, s.now);
  }

  lemma CheckCounts(s: Mon, at: int, cfg: Config)
    requires Acct(s, cfg) && s.now <= at
    ensures var t := Next(s, Check(at), cfg);
            !t.tr.gap ==> t.tr.late + t.skipped == TrueLate(s.log, Pair(s.keys), cfg.lease)
  {
    var ws := Pair(s.keys);
    if ws == [] {
      NoEpisode(s, cfg);
    } else {
      SinceLast(s, cfg);
      if s.tr.seen != ws[|ws| - 1].revoke { FirstSeen(s, ws, cfg); }
    }
  }

  lemma CheckKeeps(s: Mon, at: int, cfg: Config)
    requires Acct(s, cfg) && s.now <= at
    ensures var t := Next(s, Check(at), cfg);
            && Acct(t, cfg)
            && (!t.tr.gap ==> t.tr.late + t.skipped == TrueLate(t.log, Pair(t.keys), cfg.lease))
  {
    CheckCounts(s, at, cfg);
    var ws, t := Pair(s.keys), Next(s, Check(at), cfg);
    assert s.log[..|s.log|] == s.log;
    if ws == [] {
      TrueZero(s.log, ws, cfg.lease);
      TrueZero(s.log[..Counted(t)], ws, cfg.lease);
    }
  }

  lemma StepKeeps(s: Mon, e: Event, cfg: Config)
    requires Acct(s, cfg) && Enabled(s, e)
    ensures Acct(Next(s, e, cfg), cfg)
  {
    match e
    case Flip(at, on) =>
      FlipPairs(s, at, on, cfg);
      FlipKeeps(s, at, on, s.log[..Counted(s)], cfg);
    case Deliver(at) =>
      var t := Next(s, e, cfg);
      assert t.log[..Counted(t)] == s.log[..Counted(s)];
    case Check(at) =>
      CheckKeeps(s, at, cfg);
  }

  ghost predicate Legal(s: Mon, es: seq<Event>, cfg: Config)
    decreases |es|
  {
    es != [] ==> Enabled(s, es[0]) && Legal(Next(s, es[0], cfg), es[1..], cfg)
  }

  function Run(s: Mon, es: seq<Event>, cfg: Config): Mon
    decreases |es|
  {
    if es == [] then s else Run(Next(s, es[0], cfg), es[1..], cfg)
  }

  lemma {:induction false} RunKeeps(s: Mon, es: seq<Event>, cfg: Config)
    requires Acct(s, cfg) && Legal(s, es, cfg)
    ensures Acct(Run(s, es, cfg), cfg)
    decreases |es|
  {
    if es != [] {
      StepKeeps(s, es[0], cfg);
      RunKeeps(Next(s, es[0], cfg), es[1..], cfg);
    }
  }

  /**
   S3, exactly: after any run ending in a pass that reports no coverage gap, the summed count and the count from
   scratch differ by precisely the late deliveries the resume rule stepped over. So the light is right if and only
   if it stepped over none.
   */
  lemma S3Accounting(start: int, es: seq<Event>, at: int, cfg: Config)
    requires start > 0 && cfg.lease >= 0 && Legal(Start(start), es, cfg)
    requires Run(Start(start), es, cfg).now <= at
    ensures var s := Next(Run(Start(start), es, cfg), Check(at), cfg);
            !s.tr.gap ==>
              && s.tr.late + s.skipped == TrueLate(s.log, Pair(s.keys), cfg.lease)
              && (s.tr.late == TrueLate(s.log, Pair(s.keys), cfg.lease) <==> s.skipped == 0)
  {
    RunKeeps(Start(start), es, cfg);
    CheckKeeps(Run(Start(start), es, cfg), at, cfg);
  }

  // ---- When nothing is stepped over ----

  /** A restore no pass has seen yet. */
  predicate RestoreSeen(s: Mon) {
    forall k | 0 <= k < |Pair(s.keys)| :: Pair(s.keys)[k].restore != 0 ==>
      Pair(s.keys)[k].restore <= s.lastCheck && s.tr.seen != 0
  }

  /** Passes come at least once per lease, and a key is not disabled again before a pass has seen its restore. */
  predicate Paced(s: Mon, e: Event, cfg: Config) {
    match e
    case Check(at) => at <= s.lastCheck + cfg.lease
    case Flip(at, on) => !on && s.enabled ==> RestoreSeen(s)
    case Deliver(_) => true
  }

  /** A revoke not yet seen is no older than the last pass, and every older episode was over by then. */
  ghost predicate UnseenIsNew(s: Mon) {
    var ws := Pair(s.keys);
    ws != [] && s.tr.seen != ws[|ws| - 1].revoke ==>
      && ws[|ws| - 1].revoke >= s.lastCheck
      && forall k | 0 <= k < |ws| - 1 :: ws[k].restore <= s.lastCheck && s.tr.seen != 0
  }

  ghost predicate Pacing(s: Mon) {
    && s.skipped == 0
    && UnseenIsNew(s)
    && (s.tr.seen != 0 ==> Pair(s.keys) != [])
    && (s.tr.seen != 0 ==> forall k | Counted(s) <= k < |s.log| :: s.log[k] > s.lastCheck)
  }

  lemma NothingSteppedOver(s: Mon, at: int, cfg: Config)
    requires Acct(s, cfg) && Pacing(s) && s.now <= at <= s.lastCheck + cfg.lease
    ensures Stepped(s, Pair(s.keys), cfg) == 0
  {
    var ws := Pair(s.keys);
    if ws != [] && s.tr.seen != ws[|ws| - 1].revoke {
      var rest := s.log[Counted(s)..];
      forall k | 0 <= k < |rest| ensures !Late(rest[k], ws, cfg.lease) {
        var d := rest[k];
        assert d == s.log[Counted(s) + k];
        forall j | 0 <= j < |ws| ensures !Inside(d, ws[j].revoke + cfg.lease, ws[j].restore) { }
      }
      TrueZero(rest, ws, cfg.lease);
    }
  }

  lemma FlipPaces(s: Mon, at: int, on: bool, cfg: Config)
    requires Acct(s, cfg) && Pacing(s) && s.now <= at && Paced(s, Flip(at, on), cfg)
    ensures Pacing(Next(s, Flip(at, on), cfg))
  {
    if on != s.enabled {
      var ks := s.keys + [KeyEvent(at, on)];
      assert ks[..|ks| - 1] == s.keys;
      assert Pair(ks) == Paired(Pair(s.keys), KeyEvent(at, on));
    }
  }

  lemma DeliverPaces(s: Mon, at: int, cfg: Config)
    requires Acct(s, cfg) && Pacing(s) && Enabled(s, Deliver(at))
    ensures Pacing(Next(s, Deliver(at), cfg))
  {
    var t := Next(s, Deliver(at), cfg);
    assert t.keys == s.keys && (Counted(t) == Counted(s) || s.tr.seen == 0);
    forall k | Counted(t) <= k < |t.log| && s.tr.seen != 0 ensures t.log[k] > t.lastCheck {
      if k < |s.log| { assert t.log[k] == s.log[k]; }
    }
  }

  lemma CheckPaces(s: Mon, at: int, cfg: Config)
    requires Acct(s, cfg) && Pacing(s) && Enabled(s, Check(at)) && Paced(s, Check(at), cfg)
    ensures Pacing(Next(s, Check(at), cfg))
  {
    NothingSteppedOver(s, at, cfg);
  }

  lemma StepPaces(s: Mon, e: Event, cfg: Config)
    requires Acct(s, cfg) && Pacing(s) && Enabled(s, e) && Paced(s, e, cfg)
    ensures Pacing(Next(s, e, cfg))
  {
    match e
    case Check(at) => CheckPaces(s, at, cfg);
    case Deliver(at) => DeliverPaces(s, at, cfg);
    case Flip(at, on) => FlipPaces(s, at, on, cfg);
  }

  ghost predicate AlwaysPaced(s: Mon, es: seq<Event>, cfg: Config)
    decreases |es|
  {
    es != [] ==> Paced(s, es[0], cfg) && AlwaysPaced(Next(s, es[0], cfg), es[1..], cfg)
  }

  lemma {:induction false} RunPaces(s: Mon, es: seq<Event>, cfg: Config)
    requires Acct(s, cfg) && Pacing(s) && Legal(s, es, cfg) && AlwaysPaced(s, es, cfg)
    ensures Pacing(Run(s, es, cfg)) && Acct(Run(s, es, cfg), cfg)
    decreases |es|
  {
    if es != [] {
      StepKeeps(s, es[0], cfg);
      StepPaces(s, es[0], cfg);
      RunPaces(Next(s, es[0], cfg), es[1..], cfg);
      assert Run(s, es, cfg) == Run(Next(s, es[0], cfg), es[1..], cfg);
    }
  }

  /**
   S3 exactness: with a pass at least once per lease and every restore seen by a pass before the next revoke, the
   incremental count is the number of deliveries inside the true disabled windows shifted by the lease.
   */
  lemma S3Exact(start: int, es: seq<Event>, at: int, cfg: Config)
    requires start > 0 && cfg.lease >= 0 && Legal(Start(start), es, cfg) && AlwaysPaced(Start(start), es, cfg)
    requires var s := Run(Start(start), es, cfg); s.now <= at <= s.lastCheck + cfg.lease
    ensures var s := Next(Run(Start(start), es, cfg), Check(at), cfg);
            !s.tr.gap ==> s.tr.late == TrueLate(s.log, Pair(s.keys), cfg.lease)
  {
    RunPaces(Start(start), es, cfg);
    NothingSteppedOver(Run(Start(start), es, cfg), at, cfg);
    S3Accounting(start, es, at, cfg);
  }

  /**
   The pacing is needed. Whatever late deliveries followed the last pass, a restore and a new revoke before the next
   one make that pass step over all of them: it adds nothing to the count.
   */
  lemma QuickReRevokeHides(s: Mon, restore: int, revoke: int, at: int, cfg: Config)
    requires Acct(s, cfg) && !s.enabled && s.now <= restore <= revoke <= at
    requires s.tr.seen != 0 && s.tr.seen < revoke
    ensures var t := Next(Next(Next(s, Flip(restore, true), cfg), Flip(revoke, false), cfg), Check(at), cfg);
            t.tr.late == s.tr.late && t.tr.gap == s.tr.gap
            && t.skipped == s.skipped + TrueLate(s.log[Counted(s)..], Pair(s.keys), cfg.lease)
  {
    var a := Next(s, Flip(restore, true), cfg);
    var b := Next(a, Flip(revoke, false), cfg);
    StepKeeps(s, Flip(restore, true), cfg);
    FlipKeeps(s, restore, true, s.log[Counted(s)..], cfg);
    FlipKeeps(a, revoke, false, s.log[Counted(s)..], cfg);
    StepKeeps(a, Flip(revoke, false), cfg);
    LastRevoke(a, revoke, cfg);
    var ws := Pair(b.keys);
    assert b.log[From(|b.log|, |b.log|, cfg.size)..] == [];
    TrueZero([], ws, cfg.lease);
    SumIsUnion([], ws, cfg.lease, b.now);
  }

  lemma LastRevoke(s: Mon, at: int, cfg: Config)
    requires Paired0(s) && s.enabled
    ensures var ws := Pair(Next(s, Flip(at, false), cfg).keys); ws != [] && ws[|ws| - 1].revoke == at
  {
    var ks := s.keys + [KeyEvent(at, false)];
    assert ks[..|ks| - 1] == s.keys;
  }

  /** A run that gets there: revoked at 2, a pass within every lease, one delivery past the bound. */
  lemma LateAfterCheck(cfg: Config) returns (es: seq<Event>)
    requires cfg.lease > 1 && cfg.size > 0
    ensures Legal(Start(1), es, cfg)
    ensures var s := Run(Start(1), es, cfg);
            && !s.enabled && s.tr == Track(2, 0, 0, false) && s.skipped == 0
            && s.now == cfg.lease + 3 && s.lastCheck == cfg.lease + 1
            && TrueLate(s.log[Counted(s)..], Pair(s.keys), cfg.lease) == 1
  {
    var e1, e2, e3 := Flip(2, false), Check(cfg.lease + 1), Deliver(cfg.lease + 3);
    var s0 := Start(1);
    var s1 := Next(s0, e1, cfg);
    assert s1.keys == [KeyEvent(2, false)] && s1.keys[..0] == [];
    assert Pair(s1.keys) == [Window(2, 0)];
    var s2 := Next(s1, e2, cfg);
    SumIsUnion([], [Window(2, 0)], cfg.lease, 2);
    assert s1.log[From(0, 0, cfg.size)..] == [];
    assert s2.tr == Track(2, 0, 0, false);
    var s3 := Next(s2, e3, cfg);
    assert s3.log[0..] == [cfg.lease + 3];
    OneLate(cfg.lease);
    RunThree(s0, e1, e2, e3, cfg);
    es := [e1, e2, e3];
  }

  lemma OneLate(lease: int)
    ensures TrueLate([lease + 3], [Window(2, 0)], lease) == 1
  {
    var ws, log := [Window(2, 0)], [lease + 3];
    assert Inside(lease + 3, ws[0].revoke + lease, ws[0].restore);
    assert log[..0] == [];
  }

  lemma RunThree(s: Mon, e1: Event, e2: Event, e3: Event, cfg: Config)
    requires Enabled(s, e1) && Enabled(Next(s, e1, cfg), e2) && Enabled(Next(Next(s, e1, cfg), e2, cfg), e3)
    ensures Legal(s, [e1, e2, e3], cfg)
    ensures Run(s, [e1, e2, e3], cfg) == Next(Next(Next(s, e1, cfg), e2, cfg), e3, cfg)
  {
    var es := [e1, e2, e3];
    assert es[1..] == [e2, e3] && es[1..][1..] == [e3] && es[1..][1..][1..] == [];
    var a := Next(s, e1, cfg);
    var b := Next(a, e2, cfg);
    assert Legal(b, [e3], cfg) && Run(b, [e3], cfg) == Next(b, e3, cfg);
    assert Legal(a, [e2, e3], cfg) && Run(a, [e2, e3], cfg) == Next(b, e3, cfg);
  }

  /** So a run with a pass in every lease and no coverage gap can report zero late deliveries when there was one. */
  lemma S3CanMiss(cfg: Config)
    requires cfg.lease > 1 && cfg.size > 0
    ensures exists es :: Legal(Start(1), es, cfg) &&
              var s := Run(Start(1), es, cfg);
              var at := s.now;
              var t := Next(Next(Next(s, Flip(at, true), cfg), Flip(at, false), cfg), Check(at), cfg);
              at <= s.lastCheck + cfg.lease && !t.tr.gap && t.tr.late == 0 && TrueLate(t.log, Pair(t.keys), cfg.lease) == 1
  {
    var es := LateAfterCheck(cfg);
    RunKeeps(Start(1), es, cfg);
    var s := Run(Start(1), es, cfg);
    var at := s.now;
    QuickReRevokeHides(s, at, at, at, cfg);
    var a := Next(s, Flip(at, true), cfg);
    StepKeeps(s, Flip(at, true), cfg);
    StepKeeps(a, Flip(at, false), cfg);
    CheckKeeps(Next(a, Flip(at, false), cfg), at, cfg);
  }
}
