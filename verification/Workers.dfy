/**
 One turn of a delivery worker over a claimed batch (internal/queue/workers.go:114-181). What DecryptKey, Open and
 the sink answer for each message is chosen by the environment.
 */
module Workers {
  import opened Prelude
  import opened Envelope
  import opened Ledger
  import opened Conservation
  import opened Store

  datatype KeyAnswer = Usable | ForeignDek | Cold | NoKey
  datatype OpenAnswer = Opened | Tampered | Lapsed
  datatype SinkAnswer = Took | Refused | Stopping

  datatype Answer = Answer(key: KeyAnswer, open: OpenAnswer, sink: SinkAnswer)

  datatype Fate = Deliver | Die | Stop

  /** What the three answers make of one message. */
  function FateOf(a: Answer): Fate {
    if a.key.ForeignDek? then Die
    else if !a.key.Usable? then Stop
    else if a.open.Tampered? then Die
    else if a.open.Lapsed? then Stop
    else match a.sink
      case Took => Deliver
      case Refused => Die
      case Stopping => Stop
  }

  datatype Outcome = Outcome(acked: seq<nat>, dead: seq<nat>, released: seq<nat>)

  function Split(batch: seq<nat>, answers: seq<Answer>): Outcome
    requires |answers| == |batch|
  {
    if batch == [] then Outcome([], [], [])
    else
      var o := Split(batch[1..], answers[1..]);
      match FateOf(answers[0])
      case Deliver => o.(acked := [batch[0]] + o.acked)
      case Die => o.(dead := [batch[0]] + o.dead)
      case Stop => Outcome([], [], batch)
  }

  predicate Partitions(batch: seq<nat>, o: Outcome) {
    && multiset(o.acked) + multiset(o.dead) + multiset(o.released) == multiset(batch)
    && |o.released| <= |batch| && o.released == batch[|batch| - |o.released|..]
  }

  lemma OneAcked(x: nat, batch: seq<nat>, o: Outcome)
    requires Partitions(batch, o)
    ensures Partitions([x] + batch, o.(acked := [x] + o.acked))
  {
    assert ([x] + batch)[|batch| + 1 - |o.released|..] == o.released;
  }

  lemma OneDead(x: nat, batch: seq<nat>, o: Outcome)
    requires Partitions(batch, o)
    ensures Partitions([x] + batch, o.(dead := [x] + o.dead))
  {
    assert ([x] + batch)[|batch| + 1 - |o.released|..] == o.released;
  }

  /** The three parts are the batch: no row is lost, none is treated twice, and what is released is its tail. */
  lemma {:induction false} SplitPartitions(batch: seq<nat>, answers: seq<Answer>)
    requires |answers| == |batch|
    ensures Partitions(batch, Split(batch, answers))
  {
    if batch != [] {
      var o := Split(batch[1..], answers[1..]);
      SplitPartitions(batch[1..], answers[1..]);
      assert batch == [batch[0]] + batch[1..] && batch[0..] == batch;
      match FateOf(answers[0])
      case Deliver => OneAcked(batch[0], batch[1..], o);
      case Die => OneDead(batch[0], batch[1..], o);
      case Stop =>
    }
  }

  /**
   S4's clause for one batch: a row is dead-lettered only for a foreign DEK, a tampered envelope or a refusal by the
   sink, never because its key was cold, unavailable, revoked or lapsed; and everything from the first such row on
   is released.
   */
  lemma {:induction false} KeyTroubleNeverKills(batch: seq<nat>, answers: seq<Answer>, k: nat)
    requires |answers| == |batch| && Distinct(batch) && k < |batch|
    requires answers[k].key in {Cold, NoKey} || (answers[k].key.Usable? && answers[k].open.Lapsed?)
    ensures var o := Split(batch, answers);
            batch[k] !in o.dead && batch[k] !in o.acked && batch[k] in o.released
  {
    SplitWithin(batch[1..], answers[1..]);
    if k > 0 && !FateOf(answers[0]).Stop? {
      assert batch[1..][k - 1] == batch[k] && answers[1..][k - 1] == answers[k];
      KeyTroubleNeverKills(batch[1..], answers[1..], k - 1);
    }
  }

  lemma {:induction false} SplitWithin(batch: seq<nat>, answers: seq<Answer>)
    requires |answers| == |batch|
    ensures var o := Split(batch, answers);
            forall id | id in o.acked || id in o.dead || id in o.released :: id in batch
  {
    if batch != [] {
      SplitWithin(batch[1..], answers[1..]);
      assert batch == [batch[0]] + batch[1..];
    }
  }

  // ---- Each row's fate, on the answers alone ----

  /** The walk ends here: no key to open with, the lease over before Open, or the sink shutting down. */
  predicate Stops(a: Answer) {
    a.key.Cold? || a.key.NoKey? || (a.key.Usable? && (a.open.Lapsed? || (a.open.Opened? && a.sink.Stopping?)))
  }

  /** Poison: a DEK of nobody's, an envelope that does not open, or a refusal by the sink. */
  predicate Kills(a: Answer) {
    a.key.ForeignDek? || (a.key.Usable? && (a.open.Tampered? || (a.open.Opened? && a.sink.Refused?)))
  }

  /** The walk gets past message k. */
  ghost predicate Passes(answers: seq<Answer>, k: nat)
    requires k < |answers|
  {
    forall j | 0 <= j <= k :: !Stops(answers[j])
  }

  /** The walk ends at message k. */
  ghost predicate EndsAt(answers: seq<Answer>, k: nat)
    requires k < |answers|
  {
    Stops(answers[k]) && forall j | 0 <= j < k :: !Stops(answers[j])
  }

  /** Nothing stops the walk before message i. */
  ghost predicate GoesOn(answers: seq<Answer>, i: nat) {
    i <= |answers| && forall j | 0 <= j < i :: !Stops(answers[j])
  }

  /** A warm is asked for exactly when the walk ends on a cold DEK, and for that message's. */
  ghost predicate WarmFor(batch: seq<nat>, answers: seq<Answer>, warm: Option<nat>)
    requires |answers| == |batch|
  {
    && (warm.Some? ==> exists k :: 0 <= k < |batch| && EndsAt(answers, k) && batch[k] == warm.value && answers[k].key.Cold?)
    && (warm.None? ==> forall k | 0 <= k < |batch| && EndsAt(answers, k) :: !answers[k].key.Cold?)
  }

  lemma WarmAt(batch: seq<nat>, answers: seq<Answer>, i: nat)
    requires |answers| == |batch| && i < |batch| && GoesOn(answers, i)
    ensures if FateOf(answers[i]).Stop? then WarmFor(batch, answers, if answers[i].key.Cold? then Some(batch[i]) else None)
            else GoesOn(answers, i + 1)
  {
    if FateOf(answers[i]).Stop? { assert EndsAt(answers, i); }
  }

  lemma WarmNowhere(batch: seq<nat>, answers: seq<Answer>)
    requires |answers| == |batch| && GoesOn(answers, |batch|)
    ensures WarmFor(batch, answers, None)
  {
  }

  lemma PassesTail(answers: seq<Answer>, k: nat)
    requires 0 < k < |answers|
    ensures Passes(answers, k) <==> !Stops(answers[0]) && Passes(answers[1..], k - 1)
  {
    if Passes(answers[1..], k - 1) && !Stops(answers[0]) {
      forall j | 0 <= j <= k ensures !Stops(answers[j]) {
        if j > 0 { assert answers[1..][j - 1] == answers[j]; }
      }
    }
  }

  /** A row the walk gets past is dead-lettered exactly if it is poison and acknowledged exactly if not; any other is released. */
  ghost predicate FateIs(o: Outcome, id: nat, passed: bool, kills: bool) {
    && (id in o.released <==> !passed)
    && (id in o.dead <==> passed && kills)
    && (id in o.acked <==> passed && !kills)
  }

  lemma {:induction false} FateExactly(batch: seq<nat>, answers: seq<Answer>, k: nat)
    requires |answers| == |batch| && Distinct(batch) && k < |batch|
    ensures FateIs(Split(batch, answers), batch[k], Passes(answers, k), Kills(answers[k]))
  {
    SplitWithin(batch[1..], answers[1..]);
    assert FateOf(answers[0]).Stop? <==> Stops(answers[0]);
    if k == 0 {
      assert Passes(answers, 0) <==> !Stops(answers[0]);
      assert batch[0] !in batch[1..];
    } else {
      assert batch[1..][k - 1] == batch[k] && answers[1..][k - 1] == answers[k];
      PassesTail(answers, k);
      FateExactly(batch[1..], answers[1..], k - 1);
    }
  }

  /** The rows after the turn. */
  function After(rows: Table, o: Outcome): Table {
    Drop(SetState(Kill(rows, Members(o.dead)), Members(o.released), Ready, 0), Members(o.acked))
  }

  /** The batch as Claim hands it over: rows of the tenant, claimed, each once. */
  ghost predicate Held(rows: Table, idx: nat, batch: seq<nat>) {
    Distinct(batch) && forall id | id in batch :: id in rows && rows[id].tenant == idx && rows[id].state.Claimed?
  }

  /** The table after a turn, row by row: a row of the batch by its fate, any other as it was. */
  lemma TurnLeaves(rows: Table, idx: nat, batch: seq<nat>, answers: seq<Answer>, k: nat)
    requires Held(rows, idx, batch) && |answers| == |batch| && k < |batch|
    ensures var id, after := batch[k], After(rows, Split(batch, answers));
            && (id in after <==> !(Passes(answers, k) && !Kills(answers[k])))
            && (!Passes(answers, k) ==> after[id] == rows[id].(state := Ready, claimedUntil := 0))
            && (Passes(answers, k) && Kills(answers[k]) ==>
                  after[id] == rows[id].(state := Dead, claimedUntil := 0, attempts := rows[id].attempts + 1))
  {
    FateExactly(batch, answers, k);
  }

  lemma TurnLeavesOthers(rows: Table, batch: seq<nat>, answers: seq<Answer>, id: nat)
    requires |answers| == |batch| && id !in batch
    ensures var after := After(rows, Split(batch, answers));
            (id in after <==> id in rows) && (id in rows ==> after[id] == rows[id])
  {
    SplitWithin(batch, answers);
  }

  function KillAll(rows: Table, dead: seq<nat>): Table {
    Kill(rows, Members(dead))
  }

  lemma KillOne(rows: Table, dead: seq<nat>, id: nat)
    requires id !in dead && id in rows && rows[id].state.Claimed?
    ensures Hit(Kill(rows, Members(dead)), [id]) == {id}
    ensures Kill(Kill(rows, Members(dead)), {id}) == Kill(rows, Members(dead + [id]))
  {
    assert Members(dead + [id]) == Members(dead) + {id};
  }

  lemma HitRest(rows: Table, dead: seq<nat>, ids: seq<nat>)
    requires forall id | id in ids :: id !in dead && id in rows && rows[id].state.Claimed?
    ensures Hit(Kill(rows, Members(dead)), ids) == Members(ids)
  {
  }

  function Join(acked: seq<nat>, dead: seq<nat>, o: Outcome): Outcome {
    Outcome(acked + o.acked, dead + o.dead, o.released)
  }

  /** What the walk knows before message i. */
  ghost predicate Walked(batch: seq<nat>, answers: seq<Answer>, i: nat, acked: seq<nat>, dead: seq<nat>) {
    && i <= |batch| == |answers|
    && Split(batch, answers) == Join(acked, dead, Split(batch[i..], answers[i..]))
    && (forall id | id in acked :: id in batch && id !in dead && id !in batch[i..])
    && (forall id | id in dead :: id in batch && id !in batch[i..])
  }

  lemma SplitAt(batch: seq<nat>, answers: seq<Answer>, i: nat)
    requires i < |batch| == |answers|
    ensures var o := Split(batch[i + 1..], answers[i + 1..]);
            Split(batch[i..], answers[i..]) ==
              match FateOf(answers[i])
              case Deliver => o.(acked := [batch[i]] + o.acked)
              case Die => o.(dead := [batch[i]] + o.dead)
              case Stop => Outcome([], [], batch[i..])
  {
    assert batch[i..][1..] == batch[i + 1..] && answers[i..][1..] == answers[i + 1..];
  }

  lemma NextIsNew(batch: seq<nat>, i: nat)
    requires Distinct(batch) && i < |batch|
    ensures batch[i] in batch[i..] && batch[i] !in batch[i + 1..]
    ensures forall id | id in batch[i + 1..] :: id in batch[i..]
  {
    assert batch[i..] == [batch[i]] + batch[i + 1..];
  }

  lemma WalkAcks(batch: seq<nat>, answers: seq<Answer>, i: nat, acked: seq<nat>, dead: seq<nat>)
    requires Distinct(batch) && i < |batch| && Walked(batch, answers, i, acked, dead) && FateOf(answers[i]).Deliver?
    ensures Walked(batch, answers, i + 1, acked + [batch[i]], dead)
  {
    SplitAt(batch, answers, i);
    NextIsNew(batch, i);
    assert (acked + [batch[i]]) + Split(batch[i + 1..], answers[i + 1..]).acked == acked + ([batch[i]] + Split(batch[i + 1..], answers[i + 1..]).acked);
  }

  lemma WalkKills(batch: seq<nat>, answers: seq<Answer>, i: nat, acked: seq<nat>, dead: seq<nat>)
    requires Distinct(batch) && i < |batch| && Walked(batch, answers, i, acked, dead) && FateOf(answers[i]).Die?
    ensures Walked(batch, answers, i + 1, acked, dead + [batch[i]])
  {
    SplitAt(batch, answers, i);
    NextIsNew(batch, i);
    assert (dead + [batch[i]]) + Split(batch[i + 1..], answers[i + 1..]).dead == dead + ([batch[i]] + Split(batch[i + 1..], answers[i + 1..]).dead);
  }

  lemma WalkOn(batch: seq<nat>, answers: seq<Answer>, i: nat, acked: seq<nat>, dead: seq<nat>)
    requires Distinct(batch) && i < |batch| && Walked(batch, answers, i, acked, dead)
    ensures FateOf(answers[i]).Deliver? ==> Walked(batch, answers, i + 1, acked + [batch[i]], dead)
    ensures FateOf(answers[i]).Die? ==> Walked(batch, answers, i + 1, acked, dead + [batch[i]])
    ensures FateOf(answers[i]).Stop? ==> Split(batch, answers) == Outcome(acked, dead, batch[i..])
  {
    match FateOf(answers[i])
    case Deliver => WalkAcks(batch, answers, i, acked, dead);
    case Die => WalkKills(batch, answers, i, acked, dead);
    case Stop => SplitAt(batch, answers, i);
  }

  lemma WalkEnds(batch: seq<nat>, answers: seq<Answer>, acked: seq<nat>, dead: seq<nat>)
    requires Walked(batch, answers, |batch|, acked, dead)
    ensures Split(batch, answers) == Outcome(acked, dead, [])
  {
  }

  class Worker {
    const store: Store

    constructor (s: Store)
      ensures store == s
    {
      store := s;
    }

    /** dead: one row goes to the dead letters. */
    method Bury(idx: nat, id: nat, ghost rows0: Table, ghost dead: seq<nat>)
      requires store.Valid() && Agrees(store.View()) && idx < store.ready.Length
      requires store.rows == KillAll(rows0, dead)
      requires id !in dead && id in rows0 && rows0[id].state.Claimed? && rows0[id].tenant == idx
      modifies store.Repr()
      ensures store.Valid() && Agrees(store.View())
      ensures store.rows == KillAll(rows0, dead + [id])
    {
      KillOne(rows0, dead, id);
      DeadAgrees(store.View(), idx, id);
      var _ := store.DeadLetter(idx, id, true);
    }

    /** release: the unprocessed rest goes back untouched. */
    method GiveBack(idx: nat, rest: seq<nat>, ghost rows0: Table, ghost dead: seq<nat>)
      requires store.Valid() && Agrees(store.View()) && idx < store.ready.Length
      requires store.rows == KillAll(rows0, dead)
      requires forall id | id in rest :: id !in dead && id in rows0 && rows0[id].state.Claimed? && rows0[id].tenant == idx
      modifies store.Repr()
      ensures store.Valid() && Agrees(store.View())
      ensures store.rows == SetState(KillAll(rows0, dead), Members(rest), Ready, 0)
    {
      HitRest(rows0, dead, rest);
      assert Owned(store.rows, Hit(store.rows, rest), idx);
      ReleaseAgrees(store.View(), idx, rest);
      var _, _ := store.Release(idx, rest, true);
    }

    /** The acknowledgement after the walk. */
    method Acknowledge(idx: nat, acked: seq<nat>, ghost rows0: Table, ghost o: Outcome)
      requires store.Valid() && Agrees(store.View()) && idx < store.ready.Length
      requires store.rows == SetState(KillAll(rows0, o.dead), Members(o.released), Ready, 0) && acked == o.acked
      requires forall id | id in acked ::
        id !in o.dead && id !in o.released && id in rows0 && rows0[id].state.Claimed? && rows0[id].tenant == idx
      modifies store.Repr()
      ensures store.Valid() && Agrees(store.View())
      ensures store.rows == After(rows0, o)
    {
      assert Hit(store.rows, acked) == Members(acked);
      if |acked| > 0 {
        assert Owned(store.rows, Hit(store.rows, acked), idx);
        AckAgrees(store.View(), idx, acked);
        var _, _ := store.Ack(idx, acked, true);
      } else {
        assert Drop(store.rows, {}) == store.rows;
      }
    }

    /** The loop over one batch; every statement succeeds. A cold DEK is reported for warming. */
    method Turn(idx: nat, batch: seq<nat>, answers: seq<Answer>) returns (acked: seq<nat>, warm: Option<nat>)
      requires store.Valid() && Agrees(store.View()) && idx < store.ready.Length
      requires |answers| == |batch| && Held(store.rows, idx, batch)
      modifies store.Repr()
      ensures store.Valid() && Agrees(store.View())
      ensures store.rows == After(old(store.rows), Split(batch, answers))
      ensures acked == Split(batch, answers).acked
      ensures WarmFor(batch, answers, warm)
    {
      ghost var rows0 := store.rows;
      ghost var dead: seq<nat> := [];
      acked, warm := [], None;
      var i := 0;
      assert KillAll(rows0, []) == rows0;
      assert batch[0..] == batch && answers[0..] == answers;
      while i < |batch|
        invariant store.Valid() && Agrees(store.View()) && idx < store.ready.Length && warm.None?
        invariant Walked(batch, answers, i, acked, dead) && store.rows == KillAll(rows0, dead)
        invariant GoesOn(answers, i)
      {
        WalkOn(batch, answers, i, acked, dead);
        NextIsNew(batch, i);
        var fate := FateOf(answers[i]);
        WarmAt(batch, answers, i);
        if fate.Stop? {
          if answers[i].key.Cold? {
            warm := Some(batch[i]);
          }
          GiveBack(idx, batch[i..], rows0, dead);
          break;
        }
        if fate.Deliver? {
          acked := acked + [batch[i]];
        } else {
          Bury(idx, batch[i], rows0, dead);
          dead := dead + [batch[i]];
        }
        i := i + 1;
      }
      ghost var o := Split(batch, answers);
      if i == |batch| {
        WalkEnds(batch, answers, acked, dead);
        WarmNowhere(batch, answers);
        assert SetState(KillAll(rows0, dead), Members([]), Ready, 0) == store.rows;
      }
      Acknowledge(idx, acked, rows0, o);
    }
  }
}
