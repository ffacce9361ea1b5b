/** The checker's S4 pass over one census (internal/check/checker.go:244-278). */
module S4 {
  import opened Prelude
  import opened Ledger
  import C = Conservation
  import S = Store

  /** One tenant's test; a tenant the sink's copy does not reach counts as zero deliveries. */
  predicate Green(c: S.Census, sink: seq<int>, i: nat)
    requires i < |c.accepted| == |c.delivered| == |c.expired| == |c.ready| == |c.claimed| == |c.dead|
  {
    var seen := if i < |sink| then sink[i] else 0;
    && c.accepted[i] - (c.delivered[i] + c.ready[i] + c.claimed[i] + c.expired[i] + c.dead[i]) == 0
    && c.delivered[i] <= seen <= c.delivered[i] + c.claimed[i]
  }

  predicate Even(c: S.Census) {
    |c.accepted| == |c.delivered| == |c.expired| == |c.ready| == |c.claimed| == |c.dead|
  }

  ghost function Red(c: S.Census, sink: seq<int>, n: nat): set<nat>
    requires Even(c) && n <= |c.accepted|
  {
    set i: nat | i < n && !Green(c, sink, i)
  }

  lemma RedNext(c: S.Census, sink: seq<int>, n: nat)
    requires Even(c) && n < |c.accepted|
    ensures |Red(c, sink, n + 1)| == |Red(c, sink, n)| + if Green(c, sink, n) then 0 else 1
  {
    assert Red(c, sink, n + 1) == Red(c, sink, n) + if Green(c, sink, n) then {} else {n};
  }

  /** The loop counts the tenants that are not green, and names the first. */
  method CountBad(c: S.Census, sink: seq<int>) returns (bad: nat, first: Option<nat>)
    requires Even(c)
    ensures bad == |Red(c, sink, |c.accepted|)|
    ensures first.None? <==> bad == 0
    ensures first.Some? ==> first.value in Red(c, sink, |c.accepted|) && forall i | i in Red(c, sink, |c.accepted|) :: first.value <= i
  {
    bad, first := 0, None;
    for i := 0 to |c.accepted|
      invariant bad == |Red(c, sink, i)| && (first.None? <==> Red(c, sink, i) == {})
      invariant first.Some? ==> first.value in Red(c, sink, i) && forall k | k in Red(c, sink, i) :: first.value <= k
    {
      RedNext(c, sink, i);
      assert Red(c, sink, i + 1) == Red(c, sink, i) + if Green(c, sink, i) then {} else {i};
      var seen := if i < |sink| then sink[i] else 0;
      var off := c.accepted[i] - (c.delivered[i] + c.ready[i] + c.claimed[i] + c.expired[i] + c.dead[i]);
      var bound := c.delivered[i] <= seen && seen <= c.delivered[i] + c.claimed[i];
      if off != 0 || !bound {
        bad := bad + 1;
        if first.None? {
          first := Some(i);
        }
      }
    }
  }

  /** A census of the books, as Store.TakeCensus takes it. */
  predicate CensusOf(c: S.Census, b: Books) {
    && Even(c) && |c.accepted| == Tenants(b) && Shaped(b)
    && c.accepted == b.accepted && c.delivered == b.delivered && c.expired == b.expired
    && forall i: nat | i < Tenants(b) ::
         c.ready[i] == |Ids(b.rows, i, Ready)| && c.claimed[i] == |Ids(b.rows, i, Claimed)| && c.dead[i] == |Ids(b.rows, i, Dead)|
  }

  /** So the light's count is zero exactly when every tenant's census is green. */
  lemma GreenIsCensusGreen(s: C.Sys, c: S.Census)
    requires CensusOf(c, s.b) && |s.sink| == Tenants(s.b)
    ensures |Red(c, s.sink, |c.accepted|)| == 0 <==> forall i: nat | i < Tenants(s.b) :: C.CensusGreen(s, i)
  {
    forall i: nat | i < Tenants(s.b) ensures Green(c, s.sink, i) <==> C.CensusGreen(s, i) { }
    var red := Red(c, s.sink, |c.accepted|);
    assert forall i: nat | i < Tenants(s.b) :: i in red <==> !C.CensusGreen(s, i);
    if |red| == 0 { assert red == {}; } else { var i :| i in red; }
  }
}
