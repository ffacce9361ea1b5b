/**
 The fake KMS's key flags and their ground-truth log (internal/kms/fake.go:127-179, internal/kms/truth.go:14-24). One
 KEK per tenant, named by the tenant's index. Faults and latency only decide whether a call is answered, which the
 lease protocol leaves open.
 */
module FakeKms {
  import opened Checker
  import R = Revocations

  datatype Verdict = UnknownKey | Disabled | Enabled

  /** The log tells the flag: the last episode of a key is open exactly while it is disabled, and episodes are in order. */
  ghost predicate Told(truth: seq<Event>, flags: map<nat, bool>, k: nat, now: int) {
    var ws := R.Pair(EventsOf(truth, k));
    && R.Ordered(ws, now)
    && (if k in flags then R.Open(ws) <==> !flags[k] else ws == [])
  }

  lemma EventsGrow(truth: seq<Event>, e: Event, k: nat)
    ensures EventsOf(truth + [e], k) == if e.idx == k then EventsOf(truth, k) + [R.KeyEvent(e.at, e.enabled)] else EventsOf(truth, k)
  {
    assert (truth + [e])[..|truth|] == truth;
  }

  lemma PairGrows(es: seq<R.KeyEvent>, e: R.KeyEvent)
    ensures R.Pair(es + [e]) == R.Paired(R.Pair(es), e)
  {
    assert (es + [e])[..|es|] == es;
  }

  lemma PairedInOrder(ws: seq<R.Window>, was: int, now: int, on: bool)
    requires R.Ordered(ws, was) && 0 < now && was <= now && (R.Open(ws) <==> on)
    ensures var us := R.Paired(ws, R.KeyEvent(now, on)); R.Ordered(us, now) && (R.Open(us) <==> !on)
  {
  }

  /** A flip keeps every key's log in order and telling. */
  lemma FlipTold(truth: seq<Event>, flags: map<nat, bool>, k: nat, on: bool, was: int, now: int, j: nat)
    requires Told(truth, flags, j, was) && 0 < now && was <= now && k in flags && flags[k] != on
    ensures Told(truth + [Event(k, now, on)], flags[k := on], j, now)
  {
    EventsGrow(truth, Event(k, now, on), j);
    if j == k {
      PairGrows(EventsOf(truth, k), R.KeyEvent(now, on));
      PairedInOrder(R.Pair(EventsOf(truth, k)), was, now, on);
    }
  }

  ghost predicate AllTold(truth: seq<Event>, flags: map<nat, bool>, now: int) {
    forall k: nat :: Told(truth, flags, k, now)
  }

  lemma FlipAllTold(truth: seq<Event>, flags: map<nat, bool>, k: nat, on: bool, was: int, now: int)
    requires AllTold(truth, flags, was) && 0 < now && was <= now && k in flags && flags[k] != on
    ensures AllTold(truth + [Event(k, now, on)], flags[k := on], now)
  {
    var truth', flags' := truth + [Event(k, now, on)], flags[k := on];
    forall j: nat ensures Told(truth', flags', j, now) {
      FlipTold(truth, flags, k, on, was, now, j);
    }
  }

  lemma LaterAllTold(truth: seq<Event>, flags: map<nat, bool>, was: int, now: int)
    requires AllTold(truth, flags, was) && was <= now
    ensures AllTold(truth, flags, now)
  {
    forall j: nat ensures Told(truth, flags, j, now) {
      assert Told(truth, flags, j, was);
    }
  }

  class Fake {
    var flags: map<nat, bool>
    var truth: seq<Event>
    ghost var stamp: int

    ghost predicate Valid()
      reads this
    {
      0 <= stamp && AllTold(truth, flags, stamp)
    }

    constructor (keks: set<nat>)
      ensures Valid() && stamp == 0 && truth == [] && flags.Keys == keks && forall k | k in keks :: flags[k]
    {
      flags := map k | k in keks :: true;
      truth := [];
      stamp := 0;
    }

    /** Revoke and Restore: the stamp is read after the flip in the same section; a flip to the same state is nothing. */
    method Flip(k: nat, on: bool, now: int) returns (flipped: bool)
      requires Valid() && 0 < now && stamp <= now
      modifies this
      ensures Valid() && stamp == now
      ensures flipped == (k in old(flags) && old(flags)[k] != on)
      ensures flags == if flipped then old(flags)[k := on] else old(flags)
      ensures truth == if flipped then old(truth) + [Event(k, now, on)] else old(truth)
    {
      flipped := k in flags && flags[k] != on;
      if flipped {
        FlipAllTold(truth, flags, k, on, stamp, now);
        flags := flags[k := on];
        truth := truth + [Event(k, now, on)];
      } else {
        LaterAllTold(truth, flags, stamp, now);
      }
      stamp := now;
    }

    /** begin's second section, after the latency: the flag, and so whether an episode is open in the log. */
    method Check(k: nat) returns (v: Verdict)
      requires Valid()
      ensures v.UnknownKey? <==> k !in flags
      ensures v.Disabled? <==> R.Open(R.Pair(EventsOf(truth, k)))
    {
      assert Told(truth, flags, k, stamp);
      if k !in flags {
        return UnknownKey;
      }
      return if flags[k] then Enabled else Disabled;
    }
  }
}
