/**
 The tenant struct and the methods that update it under its lock (internal/cmek/lease.go:74-139,
 internal/cmek/fetcher.go:217-306, internal/cmek/manager.go), each proved against the value functions of KeyState.dfy.
 */
module Cell {
  import opened Prelude
  import opened Envelope
  import opened KeyState

  /** Of the ids in `todo`, those whose key is in the clear. */
  ghost function HotIn(deks: map<DekId, Dek>, todo: set<DekId>): set<DekId> {
    set id | id in todo && id in deks && deks[id].prim.Some?
  }

  lemma HotLess(deks: map<DekId, Dek>, todo: set<DekId>, id: DekId)
    requires id in todo && id in deks
    ensures |HotIn(deks, todo)| == |HotIn(deks, todo - {id})| + (if deks[id].prim.Some? then 1 else 0)
  {
    if deks[id].prim.Some? {
      assert HotIn(deks, todo) == HotIn(deks, todo - {id}) + {id};
    } else {
      assert HotIn(deks, todo) == HotIn(deks, todo - {id});
    }
  }

  class KeyCell {
    var state: State
    var published: State  // this tenant's slot of the lock-free grid array
    var sentAt: int
    var deks: map<DekId, Dek>
    var active: Option<DekId>
    var seqNo: nat
    var attempt: nat
    var nextProbeAt: int
    var deniedAt: int
    var probing: bool
    var pending: map<DekId, int>
    var waiters: nat
    var inflight: nat
    var fetch: Fetch

    function View(): Tenant
      reads this
    {
      Tenant(state, published, sentAt, deks, active, seqNo, attempt, nextProbeAt, deniedAt, probing,
                    pending, waiters, inflight, fetch)
    }

    constructor ()
      ensures View() == NEW
    {
      state, published, sentAt := Active, Active, 0;
      deks, active, seqNo := map[], None, 0;
      attempt, nextProbeAt, deniedAt, probing := 0, 0, 0, false;
      pending, waiters, inflight, fetch := map[], 0, 0, Async;
    }

    /** hot: counts the keys in the clear. */
    method Hot() returns (n: nat)
      ensures n == |HotDeks(View())|
    {
      n := 0;
      var todo := deks.Keys;
      ghost var all := |HotIn(deks, todo)|;
      assert HotIn(deks, todo) == HotDeks(View());
      while todo != {}
        invariant todo <= deks.Keys && n + |HotIn(deks, todo)| == all
        decreases todo
      {
        var id :| id in todo;
        HotLess(deks, todo, id);
        if deks[id].prim.Some? {
          n := n + 1;
        }
        todo := todo - {id};
      }
      assert HotIn(deks, {}) == {};
    }

    /** purge: drops every plaintext key, clears pending, and says how many keys were hot. */
    method Purge() returns (n: nat)
      modifies this`deks, this`pending
      ensures View() == KeyState.Purge(old(View()))
      ensures n == |HotDeks(old(View()))|
    {
      ghost var t := View();
      n := Cool();
      pending := map[];
      assert HotIn(t.deks, t.deks.Keys) == HotDeks(t);
    }

    method Cool() returns (n: nat)
      modifies this`deks
      ensures deks == Cooled(old(deks)) && n == |HotIn(old(deks), old(deks).Keys)|
    {
      ghost var before := deks;
      n := 0;
      var todo := deks.Keys;
      while todo != {}
        invariant deks.Keys == before.Keys && todo <= deks.Keys
        invariant forall id | id in deks.Keys :: deks[id] == if id in todo then before[id] else before[id].(prim := None)
        invariant n + |HotIn(before, todo)| == |HotIn(before, before.Keys)|
        decreases todo
      {
        var id :| id in todo;
        HotLess(before, todo, id);
        if deks[id].prim.Some? {
          deks := deks[id := deks[id].(prim := None)];
          n := n + 1;
        }
        todo := todo - {id};
      }
      assert HotIn(before, {}) == {};
      assert deks == Cooled(before);
    }

    method SetState(to: State)
      modifies this`state, this`published
      ensures View() == Become(old(View()), to)
    {
      state := to;
      published := to;
    }

    /** apply: the only state mutator. */
    method Apply(cfg: Config, op: Op, s: Subject, r: Reply, at: int, delay: int)
      requires Applicable(View(), op, s, r)
      modifies this
      ensures View() == KeyState.Apply(cfg, old(View()), op, s, r, at, delay)
    {
      if r.err.Busy? || r.err.StoreErr? {
        if op.Warm? && s.Held? {
          pending := pending[s.id := at + cfg.sweep];
        }
        return;
      }
      match r.verdict
      case OK =>
        if r.sentAt < deniedAt || s.NoDek? {
          return;
        }
        ApplyGood(op, s, r, at);
      case Deny =>
        var _ := Purge();
        deniedAt := at;
        sentAt := 0;
        nextProbeAt := at + cfg.reprobe;
        if state != Revoked {
          SetState(Revoked);
        }
      case _ =>
        ApplyUnanswered(cfg, at, delay);
    }

    method ApplyGood(op: Op, s: Subject, r: Reply, at: int)
      requires !s.NoDek? && (s.Held? ==> s.id in deks)
      modifies this
      ensures View() == ApplyOk(old(View()), op, s, r, at)
    {
      if r.sentAt > sentAt {
        sentAt := r.sentAt;
      }
      Install(op, s, r, at);
      attempt := 0;
      pending := pending - {s.id};
      if state != Active {
        SetState(Active);
      }
    }

    /** The key itself: a new one becomes active, and outside the no-cache modes its plaintext is kept. */
    method Install(op: Op, s: Subject, r: Reply, at: int)
      requires !s.NoDek? && (s.Held? ==> s.id in deks)
      modifies this`deks, this`active
      ensures active == if op.Generate? then Some(s.id) else old(active)
      ensures var d := if s.Fresh? then s.dek else old(deks)[s.id];
              deks == old(deks)[s.id := d.(prim := if Direct(View()) then d.prim else r.prim, hotSince := at)]
    {
      var d := if s.Fresh? then s.dek else deks[s.id];
      if op.Generate? {
        active := Some(s.id);
      }
      if !Direct(View()) {
        d := d.(prim := r.prim);
      }
      deks := deks[s.id := d.(hotSince := at)];
    }

    method ApplyUnanswered(cfg: Config, at: int, delay: int)
      modifies this
      ensures View() == ApplyFail(cfg, old(View()), at, delay)
    {
      attempt := attempt + 1;
      nextProbeAt := at + delay;
      PushBack(nextProbeAt);
      var usable := Usable(cfg, View(), at) && !Direct(View());
      if state == Active && usable {
        SetState(RidingThrough);
      } else if state == Active || (state == RidingThrough && !usable) {
        var _ := Purge();
        SetState(KeyUnavailable);
      }
    }

    /** Every pending warm waits for the same next slot. */
    method PushBack(next: int)
      modifies this`pending
      ensures pending == map id | id in old(pending) :: next
    {
      var todo := pending.Keys;
      while todo != {}
        invariant pending.Keys == old(pending).Keys && todo <= pending.Keys
        invariant forall id | id in pending.Keys :: pending[id] == if id in todo then old(pending)[id] else next
        decreases todo
      {
        var id :| id in todo;
        pending := pending[id := next];
        todo := todo - {id};
      }
    }

    method SetFetch(mode: Fetch)
      modifies this
      ensures View() == KeyState.SetFetch(old(View()), mode)
    {
      if fetch == mode {
        return;
      }
      var was := Direct(View());
      fetch := mode;
      if Direct(View()) && !was {
        var _ := Purge();
      }
    }

    /** The critical section of EncryptKey (after an inline probe, if one was due). */
    method EncryptSection(cfg: Config, at: int) returns (step: EncryptStep)
      modifies this
      ensures (step, View()) == Encrypt(cfg, old(View()), at)
    {
      if state == Revoked {
        return SealParked(true);
      }
      if state == KeyUnavailable {
        return SealParked(false);
      }
      if Direct(View()) {
        return SealDirect;
      }
      var h := TakeHandle(cfg, at);
      if h.Some? {
        var kick := state == Active && at >= sentAt + cfg.soft && !probing && fetch != Sync;
        if kick {
          probing := true;
        }
        return SealNow(h.value, kick);
      }
      if waiters >= cfg.ingestWaiters {
        return SealRefused;
      }
      waiters := waiters + 1;
      return SealCold;
    }

    /** handle: the active key, counted as used, when the tenant may seal now. */
    method TakeHandle(cfg: Config, at: int) returns (h: Option<Handle>)
      modifies this`deks
      ensures h.Some? <==> CanSeal(cfg, old(View()), at)
      ensures h.Some? ==> h.value == HandleOn(cfg, old(View()), active.value, old(deks)[active.value].prim)
      ensures View() == if h.Some? then CountSeal(old(View()), active.value) else old(View())
    {
      if !CanSeal(cfg, View(), at) {
        return None;
      }
      var id := active.value;
      h := Some(Handle(id, Until(cfg, sentAt), deks[id].prim));
      deks := deks[id := deks[id].(msgs := deks[id].msgs + 1)];
    }

    /** The last section of EncryptKey's cold path. */
    method ColdEndSection(cfg: Config, at: int, err: Err) returns (answer: SealAnswer)
      requires waiters > 0
      modifies this
      ensures (answer, View()) == ColdEnd(cfg, old(View()), at, err)
    {
      waiters := waiters - 1;
      if state == Revoked {
        return KeyRevoked;
      }
      var h := TakeHandle(cfg, at);
      if h.Some? {
        return Sealing(h.value);
      }
      return if err.StoreErr? then StoreFailed else KeyDown;
    }

    /** call's first section: the per-tenant cap; a naive tenant is not capped, nor is anyone when the cap is 0. */
    method TakePlace(cfg: Config) returns (busy: bool, counted: bool, naive: bool)
      modifies this`inflight
      ensures naive == fetch.Naive?
      ensures busy <==> !naive && 0 < cfg.tenantInflight <= old(inflight)
      ensures counted <==> !naive && 0 < cfg.tenantInflight && old(inflight) < cfg.tenantInflight
      ensures View() == old(View()).(inflight := old(inflight) + if counted then 1 else 0)
    {
      naive := fetch == Naive;
      busy, counted := false, false;
      if !naive && cfg.tenantInflight > 0 {
        if inflight >= cfg.tenantInflight {
          return true, false, naive;
        }
        inflight := inflight + 1;
        counted := true;
      }
    }

    /** call's deferred section. */
    method GivePlace()
      requires inflight > 0
      modifies this`inflight
      ensures View() == old(View()).(inflight := old(inflight) - 1)
    {
      inflight := inflight - 1;
    }

    /** generate's section: the next DEK id. */
    method DrawId(name: Bytes) returns (id: DekId)
      modifies this`seqNo
      ensures View() == old(View()).(seqNo := old(seqNo) + 1) && id == DekId(name, old(seqNo) + 1)
    {
      seqNo := seqNo + 1;
      id := DekId(name, seqNo);
    }

    method ClearProbing()
      modifies this`probing
      ensures View() == old(View()).(probing := false)
    {
      probing := false;
    }

    /** Warm's section; true when the caller must start the unwrap. */
    method WarmSection(cfg: Config, id: DekId, at: int) returns (kick: bool)
      modifies this
      ensures View() == WarmAsked(cfg, old(View()), id, at) && kick == WarmKicks(cfg, old(View()), id, at)
    {
      if id !in deks || Direct(View()) || id in pending {
        return false;
      }
      pending := pending[id := at];
      kick := !probing && (state == Active || state == RidingThrough) && Usable(cfg, View(), at);
      if kick {
        probing := true;
      }
    }

    /** Hot's section: dispatchable now, and whether a renewal is kicked. */
    method HotSection(cfg: Config, at: int) returns (hot: bool, kick: bool)
      modifies this`probing
      ensures (hot, kick) == HotAnswer(cfg, old(View()), at)
      ensures View() == old(View()).(probing := old(probing) || kick)
    {
      if Direct(View()) {
        return state == Active, false;
      }
      var usable := Usable(cfg, View(), at);
      hot := (state == Active || state == RidingThrough) && usable && |pending| == 0;
      kick := state == Active && !probing && (!usable || SoftDue(cfg, View(), at));
      if fetch == Sync {
        kick := false;
        hot := hot || (!probing && ((state == Active && !usable) || (state != Active && at >= nextProbeAt)));
      }
      if kick {
        probing := true;
      }
    }

    /** This tenant's share of Tick: lapse, ageing, then at most one due task. */
    method TickSection(cfg: Config, now: int) returns (due: Due)
      modifies this
      ensures View() == KeyState.Tick(cfg, old(View()), now, due)
      ensures TickMay(cfg, TickBody(cfg, old(View()), now), now, due)
    {
      var n := Hot();
      if sentAt != 0 && !Usable(cfg, View(), now) && n > 0 {
        var _ := Purge();
        if state == RidingThrough {
          SetState(KeyUnavailable);
        }
      }
      AgeOut(cfg, now);
      due := PickDue(cfg, now);
      if !due.NoDue? {
        probing := true;
      }
    }

    method AgeOut(cfg: Config, now: int)
      modifies this`deks
      ensures View() == TickAge(cfg, old(View()), now)
    {
      ghost var before := View();
      var todo := deks.Keys;
      while todo != {}
        invariant deks.Keys == before.deks.Keys && todo <= deks.Keys
        invariant forall id | id in deks.Keys ::
          deks[id] == if id !in todo && Aged(cfg, before, id, now) then before.deks[id].(prim := None) else before.deks[id]
        decreases todo
      {
        var id :| id in todo;
        if active != Some(id) && deks[id].prim.Some? && now - deks[id].hotSince >= cfg.dekMaxAge + cfg.ttl {
          deks := deks[id := deks[id].(prim := None)];
        }
        todo := todo - {id};
      }
      assert deks == TickAge(cfg, before, now).deks;
    }

    /** The loop over pending stops at the first due warm it meets. */
    method PickDue(cfg: Config, now: int) returns (due: Due)
      ensures TickMay(cfg, View(), now, due)
    {
      if ProbeDue(View(), now) {
        return DueProbe;
      }
      if (state == Active || state == RidingThrough) && Usable(cfg, View(), now) && !probing {
        var todo := pending.Keys;
        while todo != {}
          invariant todo <= pending.Keys
          invariant forall id | id in pending && id !in todo :: !WarmDue(cfg, View(), id, now)
          decreases todo
        {
          var id :| id in todo;
          if id in deks && now >= pending[id] {
            return DueWarm(id);
          }
          todo := todo - {id};
        }
      }
      return NoDue;
    }
  }

  /** Tick over every tenant in grid order, one lock at a time. */
  class Manager {
    const order: seq<KeyCell>

    ghost predicate Valid() {
      forall i, j | 0 <= i < j < |order| :: order[i] != order[j]
    }

    constructor (cells: seq<KeyCell>)
      requires forall i, j | 0 <= i < j < |cells| :: cells[i] != cells[j]
      ensures order == cells && Valid()
    {
      order := cells;
    }

    method Tick(cfg: Config, now: int) returns (due: seq<Due>)
      requires Valid()
      modifies set c | c in order
      ensures |due| == |order|
      ensures forall i | 0 <= i < |order| :: order[i].View() == KeyState.Tick(cfg, old(order[i].View()), now, due[i])
      ensures forall i | 0 <= i < |order| :: TickMay(cfg, TickBody(cfg, old(order[i].View()), now), now, due[i])
    {
      due := [];
      for k := 0 to |order|
        invariant |due| == k
        invariant forall i | k <= i < |order| :: order[i].View() == old(order[i].View())
        invariant forall i | 0 <= i < k :: order[i].View() == KeyState.Tick(cfg, old(order[i].View()), now, due[i])
        invariant forall i | 0 <= i < k :: TickMay(cfg, TickBody(cfg, old(order[i].View()), now), now, due[i])
      {
        var d := order[k].TickSection(cfg, now);
        due := due + [d];
      }
    }
  }
}
