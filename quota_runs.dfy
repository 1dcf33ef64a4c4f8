/** Sequences of tracked requests from one identity: what holds across many
    calls of the usage-tracking step of routes/ai.js. */
module QuotaRuns {
  import opened UserModel
  import opened AiRoute

  /** The stored records and the outcomes after one request at each instant of
      `nows`, in order. */
  function Run(docs: map<string, UserDoc>, c: Claims, nows: seq<Instant>)
    : (r: (map<string, UserDoc>, seq<TrackOutcome>))
    ensures |r.1| == |nows|
    ensures StoreValid(docs) ==> StoreValid(r.0)
    decreases |nows|
  {
    if nows == [] then (docs, [])
    else
      var step := Track(docs, c, nows[0]);
      var rest := Run(step.0, c, nows[1..]);
      (rest.0, [step.1] + rest.1)
  }

  function Min(a: int, b: int): int {
    if a <= b then a else b
  }

  /** Running two batches one after the other is running them together. */
  lemma {:induction false} RunAppend(docs: map<string, UserDoc>, c: Claims, a: seq<Instant>, b: seq<Instant>)
    ensures var first := Run(docs, c, a);
      var second := Run(first.0, c, b);
      Run(docs, c, a + b) == (second.0, first.1 + second.1)
    decreases |a|
  {
    if a == [] {
      assert a + b == b;
      var second := Run(docs, c, b);
      assert Run(docs, c, a) == (docs, []);
      assert [] + second.1 == second.1;
    } else {
      var step := Track(docs, c, a[0]);
      assert (a + b)[0] == a[0];
      assert (a + b)[1..] == a[1..] + b;
      RunAppend(step.0, c, a[1..], b);
      var tail := Run(step.0, c, a[1..]);
      var second := Run(tail.0, c, b);
      assert [step.1] + (tail.1 + second.1) == ([step.1] + tail.1) + second.1;
    }
  }

  /** No count ever rises above a finite limit: if no stored record is over its
      limit, none is after any sequence of requests, and no permitted request
      leaves its user over the limit. */
  lemma {:induction false} QuotaNeverExceeded(docs: map<string, UserDoc>, c: Claims, nows: seq<Instant>)
    requires StoreWithinQuota(docs)
    ensures var r := Run(docs, c, nows);
      && StoreWithinQuota(r.0)
      && forall i :: 0 <= i < |nows| && r.1[i].Permitted? ==> WithinQuota(r.1[i].user)
    decreases |nows|
  {
    if nows != [] {
      var step := Track(docs, c, nows[0]);
      QuotaNeverExceeded(step.0, c, nows[1..]);
    }
  }

  /** Denials are idempotent: at the limit, within the same month, any number of
      further requests are all denied and leave the stored records as they were. */
  lemma {:induction false} DenialsChangeNothing(docs: map<string, UserDoc>, c: Claims, nows: seq<Instant>)
    requires StoreValid(docs) && c.sub in docs
    requires QueryLimit(docs[c.sub].tier).Finite?
    requires docs[c.sub].usage.aiQueriesThisMonth >= QueryLimit(docs[c.sub].tier).n
    requires forall i :: 0 <= i < |nows| ==> SamePeriod(nows[i], docs[c.sub].usage.lastResetDate)
    ensures var r := Run(docs, c, nows);
      && r.0 == docs
      && forall i :: 0 <= i < |nows| ==> r.1[i].Denied?
    decreases |nows|
  {
    if nows != [] {
      DenialsChangeNothing(docs, c, nows[1..]);
    }
  }

  /** Within one month, starting at count k no higher than the finite limit L,
      request i is permitted with count k + i + 1 while k + i < L, and after that
      every request is denied with used = limit = L; the count ends at
      min(k + n, L) and the tier and the anchor stay put. */
  lemma {:induction false} RequestsWithinOneMonth(docs: map<string, UserDoc>, c: Claims, nows: seq<Instant>, L: nat)
    requires StoreValid(docs) && c.sub in docs
    requires QueryLimit(docs[c.sub].tier) == Finite(L)
    requires docs[c.sub].usage.aiQueriesThisMonth <= L
    requires forall i :: 0 <= i < |nows| ==> SamePeriod(nows[i], docs[c.sub].usage.lastResetDate)
    ensures var r := Run(docs, c, nows);
      var d := docs[c.sub];
      var k := d.usage.aiQueriesThisMonth;
      && c.sub in r.0
      && r.0[c.sub].tier == d.tier
      && r.0[c.sub].usage.lastResetDate == d.usage.lastResetDate
      && r.0[c.sub].usage.aiQueriesThisMonth == Min(k + |nows|, L)
      && (forall i :: 0 <= i < |nows| && k + i < L ==>
            r.1[i].Permitted? && r.1[i].user.usage.aiQueriesThisMonth == k + i + 1)
      && (forall i :: 0 <= i < |nows| && k + i >= L ==>
            r.1[i] == Denied(QuotaExceeded(Finite(L), L, d.tier)))
    decreases |nows|
  {
    if nows != [] {
      var d := docs[c.sub];
      var k := d.usage.aiQueriesThisMonth;
      var step := Track(docs, c, nows[0]);
      if k < L {
        assert step.1.Permitted? && step.1.user.usage.aiQueriesThisMonth == k + 1;
        assert step.0 == docs[c.sub := step.1.user];
      } else {
        DenialsChangeNothing(docs, c, nows[..1]);
        assert step.0 == docs;
      }
      RequestsWithinOneMonth(step.0, c, nows[1..], L);
      var r := Run(docs, c, nows);
      var rest := Run(step.0, c, nows[1..]);
      assert r.1 == [step.1] + rest.1;
      forall i | 0 <= i < |nows| && k + i < L
        ensures r.1[i].Permitted? && r.1[i].user.usage.aiQueriesThisMonth == k + i + 1
      {
        if i > 0 { assert r.1[i] == rest.1[i - 1]; }
      }
      forall i | 0 <= i < |nows| && k + i >= L
        ensures r.1[i] == Denied(QuotaExceeded(Finite(L), L, d.tier))
      {
        if i > 0 { assert r.1[i] == rest.1[i - 1]; }
      }
    }
  }

  /** The unbounded tier is never denied, at any instants whatever. */
  lemma {:induction false} EnterpriseNeverDenied(docs: map<string, UserDoc>, c: Claims, nows: seq<Instant>)
    requires StoreValid(docs) && c.sub in docs && docs[c.sub].tier == Enterprise
    ensures forall i :: 0 <= i < |nows| ==> Run(docs, c, nows).1[i].Permitted?
    decreases |nows|
  {
    if nows != [] {
      var step := Track(docs, c, nows[0]);
      GateDecidesStoredUser(docs, c, nows[0]);
      assert step.1.Permitted?;
      PermitConsumesExactlyOne(docs, c, nows[0]);
      assert step.0 == docs[c.sub := step.1.user];
      EnterpriseNeverDenied(step.0, c, nows[1..]);
      var r := Run(docs, c, nows);
      var rest := Run(step.0, c, nows[1..]);
      assert r.1 == [step.1] + rest.1;
      forall i | 0 <= i < |nows| ensures r.1[i].Permitted? {
        if i == 0 {
          assert r.1[0] == step.1;
          assert step.1.Permitted?;
        } else {
          assert r.1[i] == rest.1[i - 1];
          assert rest.1[i - 1].Permitted?;
        }
      }
    }
  }

  /** Eleven requests in the month of first contact: ten are permitted with counts
      1 to 10, the eleventh is denied, and the account ends at 10 in that month. */
  lemma FirstMonthOfFreeAccount(c: Claims, month: Instant)
    requires c.sub != ""
    ensures var r := Run(map[], c, seq(11, i => month));
      && StoreValid(r.0) && c.sub in r.0
      && r.0[c.sub].usage.lastResetDate == month
      && (forall i :: 0 <= i < 10 ==> r.1[i].Permitted? && r.1[i].user.usage.aiQueriesThisMonth == i + 1)
      && r.1[10] == Denied(QuotaExceeded(Finite(10), 10, Free))
  {
    var requests := seq(11, i => month);
    var empty: map<string, UserDoc> := map[];
    var first := Track(empty, c, month);
    NewIdentityIsCreatedFree(empty, c, month);
    assert first.0 == map[c.sub := first.1.user];
    assert requests[0] == month;
    RequestsWithinOneMonth(first.0, c, requests[1..], 10);
    var r := Run(empty, c, requests);
    var rest := Run(first.0, c, requests[1..]);
    assert r.1 == [first.1] + rest.1;
    forall i | 0 <= i < 11
      ensures i < 10 ==> r.1[i].Permitted? && r.1[i].user.usage.aiQueriesThisMonth == i + 1
      ensures i == 10 ==> r.1[i] == Denied(QuotaExceeded(Finite(10), 10, Free))
    {
      if i > 0 { assert r.1[i] == rest.1[i - 1]; }
    }
  }

  /** A first contact in some month creates a free account; ten requests that
      month are permitted with counts 1 to 10, the eleventh is denied with used 10
      and limit 10, and a request in any other month rolls over and is permitted
      with count 1. */
  lemma FreeTierScenario(c: Claims, month: Instant, nextMonth: Instant)
    requires c.sub != ""
    requires !SamePeriod(month, nextMonth)
    ensures var r := Run(map[], c, seq(11, i => month) + [nextMonth]);
      && (forall i :: 0 <= i < 10 ==> r.1[i].Permitted? && r.1[i].user.usage.aiQueriesThisMonth == i + 1)
      && r.1[10] == Denied(QuotaExceeded(Finite(10), 10, Free))
      && r.1[11].Permitted? && r.1[11].user.usage == Usage(1, 0, nextMonth)
  {
    var empty: map<string, UserDoc> := map[];
    var requests := seq(11, i => month);
    RunAppend(empty, c, requests, [nextMonth]);
    FirstMonthOfFreeAccount(c, month);
    var first := Run(empty, c, requests);
    NewMonthIsNeverBlocked(first.0, c, nextMonth);
    var second := Run(first.0, c, [nextMonth]);
    assert second.1 == [Track(first.0, c, nextMonth).1];
    var r := Run(empty, c, requests + [nextMonth]);
    assert r.1 == first.1 + second.1;
    assert r.1[11] == second.1[0];
    forall i | 0 <= i < 11 ensures r.1[i] == first.1[i] {
    }
  }

  /** The same run with dates: first contact on 15 March 2024, the twelfth
      request on 1 April 2024. */
  lemma March2024Scenario()
    ensures var r := Run(map[], Claims("auth0|alice", None, None),
                         seq(11, i => Instant(2024, 2, 15)) + [Instant(2024, 3, 1)]);
      && r.1[9].Permitted? && r.1[9].user.usage.aiQueriesThisMonth == 10
      && r.1[10] == Denied(QuotaExceeded(Finite(10), 10, Free))
      && r.1[11].Permitted? && r.1[11].user.usage == Usage(1, 0, Instant(2024, 3, 1))
  {
    FreeTierScenario(Claims("auth0|alice", None, None), Instant(2024, 2, 15), Instant(2024, 3, 1));
  }
}
