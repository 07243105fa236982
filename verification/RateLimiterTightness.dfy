/** The sweep is harmless for a tier exactly when the tier's window is no longer than the
  * sweep's age limit, or the tier lets nothing through.
  */
module RateLimiterTightness {
  import opened RateLimiter
  import opened RateLimiterHistory

  /** Whatever happens on other keys, `key` gets the replies of the limiter that forgets nothing. */
  ghost predicate AlwaysIdeal(key: string, tier: Tier) {
    forall start, calls, call, tiers: string -> Tier ::
      Orderly(calls + [call], tiers) && Isolates(tiers, key, tier) && call.key == key
      ==> ReplyTo(start, calls, call) == IdealReplyTo(calls, call)
  }

  ghost predicate Isolates(tiers: string -> Tier, key: string, tier: Tier) {
    tiers(key) == tier && forall k :: k != key ==> SurvivesSweep(tiers(k))
  }

  function Burst(call: Call, n: nat): seq<Call> {
    if n == 0 then [] else Burst(call, n - 1) + [call]
  }

  function Zeros(n: nat): (ts: seq<real>)
    ensures |ts| == n && forall i :: 0 <= i < n ==> ts[i] == 0.0
  {
    if n == 0 then [] else Zeros(n - 1) + [0.0]
  }

  /** A key of a tier that lets nothing through, used to move the sweep's counter. */
  const IDLE_TIER := Tier(0, 1)

  lemma AfterOneMore(start: real, calls: seq<Call>, call: Call)
    ensures After(start, calls + [call]) == Step(After(start, calls), call).0
    ensures Accepted(calls + [call], call.key)
            == Accepted(calls, call.key) + (if IdealReplyTo(calls, call).allowed then [call.now] else [])
  {
    assert (calls + [call])[..|calls|] == calls;
  }

  function Filled(key: string, n: nat): Counter {
    Counter(if n == 0 then map[] else map[key := Zeros(n)], n, 0.0)
  }

  lemma FillStep(first: Call, n: nat)
    requires first.now == 0.0 && first.tier.windowSeconds > 0 && n < first.tier.maxRequests
    ensures Step(Filled(first.key, n), first).0 == Filled(first.key, n + 1)
  {
    AllLive(Zeros(n), WindowStart(first));
    assert Live(Zeros(n), WindowStart(first)) + [first.now] == Zeros(n + 1);
  }

  lemma AfterNothing(key: string)
    ensures After(0.0, []) == Filled(key, 0)
  {
  }

  lemma {:induction false} AfterFirstBurst(first: Call, n: nat)
    requires first.now == 0.0 && first.tier.windowSeconds > 0 && n <= first.tier.maxRequests
    ensures After(0.0, Burst(first, n)) == Filled(first.key, n)
  {
    hide After, Accepted, Step, Filled, IdealReplyTo;
    if n == 0 {
      AfterNothing(first.key);
    } else {
      AfterFirstBurst(first, n - 1);
      AfterOneMore(0.0, Burst(first, n - 1), first);
      FillStep(first, n - 1);
    }
  }

  lemma {:induction false} FirstBurstIsAccepted(first: Call, n: nat)
    requires first.now == 0.0 && first.tier.windowSeconds > 0 && n <= first.tier.maxRequests
    ensures Accepted(Burst(first, n), first.key) == Zeros(n)
  {
    if n > 0 {
      hide After, Accepted, Step;
      FirstBurstIsAccepted(first, n - 1);
      AfterOneMore(0.0, Burst(first, n - 1), first);
      AllLive(Zeros(n - 1), WindowStart(first));
    }
  }

  lemma {:induction false} AllLive(ts: seq<real>, start: real)
    requires forall i :: 0 <= i < |ts| ==> ts[i] > start
    ensures Live(ts, start) == ts
  {
    if ts != [] {
      AllLive(ts[1..], start);
    }
  }

  lemma {:induction false} BurstSize(call: Call, n: nat)
    ensures |Burst(call, n)| == n && forall i :: 0 <= i < n ==> Burst(call, n)[i] == call
  {
    if n > 0 {
      BurstSize(call, n - 1);
    }
  }

  /** The key is already swept away, or the sweep has not run and its turn is still to come. */
  predicate SweptOrDue(c: Counter, key: string, m: nat, calls: nat) {
    key !in c.windows
    || (c.callCount == calls && c.lastPrune == 0.0 && Timestamps(c.windows, key) == Zeros(m))
  }

  lemma OtherStepSweeps(c: Counter, key: string, m: nat, calls: nat, other: Call)
    requires SweptOrDue(c, key, m, calls) && other.key != key && other.now > MAX_AGE
    ensures SweptOrDue(Step(c, other).0, key, m, calls + 1)
    ensures calls + 1 >= PRUNE_EVERY_N ==> key !in Step(c, other).0.windows
  {
  }

  lemma {:induction false} OtherBurstSweeps(first: Call, m: nat, other: Call, n: nat)
    requires first.now == 0.0 && first.tier.windowSeconds > 0 && m == first.tier.maxRequests
    requires other.key != first.key && other.now > MAX_AGE
    ensures var c := After(0.0, Burst(first, m) + Burst(other, n));
            && SweptOrDue(c, first.key, m, m + n)
            && (n > 0 && m + n >= PRUNE_EVERY_N ==> first.key !in c.windows)
  {
    hide After, Step;
    if n == 0 {
      assert Burst(first, m) + Burst(other, n) == Burst(first, m);
      AfterFirstBurst(first, m);
    } else {
      var before := Burst(first, m) + Burst(other, n - 1);
      OtherBurstSweeps(first, m, other, n - 1);
      AfterOneMore(0.0, before, other);
      OtherStepSweeps(After(0.0, before), first.key, m, m + n - 1, other);
      assert Burst(first, m) + Burst(other, n) == before + [other];
    }
  }

  /** A history on which a longer window goes wrong: the limit is used up at time 0, other
    * traffic sweeps the key away before its window has passed, and one more request gets in. */
  function ForgettingHistory(first: Call, other: Call): seq<Call>
    requires first.tier.maxRequests >= 0
  {
    Burst(first, first.tier.maxRequests) + Burst(other, PRUNE_EVERY_N)
  }

  lemma SweepForgetsLongWindow(first: Call, other: Call)
    requires first.now == 0.0 && other.key != first.key && first.tier.maxRequests >= 1
    requires MAX_AGE < other.now < first.tier.windowSeconds as real
    ensures var calls, call := ForgettingHistory(first, other), first.(now := other.now);
            ReplyTo(0.0, calls, call).allowed && !IdealReplyTo(calls, call).allowed
  {
    var m, call := first.tier.maxRequests, first.(now := other.now);
    var calls := ForgettingHistory(first, other);
    hide After, Accepted;
    OtherBurstSweeps(first, m, other, PRUNE_EVERY_N);
    FirstBurstIsAccepted(first, m);
    BurstSize(other, PRUNE_EVERY_N);
    QuietKeepsAccepted(Burst(first, m), Burst(other, PRUNE_EVERY_N), first.key);
    AllLive(Zeros(m), WindowStart(call));
  }

  lemma AgreesExactlyWhenSweepIsSurvived(key: string, tier: Tier)
    ensures AlwaysIdeal(key, tier) <==> SurvivesSweep(tier)
  {
    if SurvivesSweep(tier) {
      forall start, calls, call, tiers: string -> Tier |
        Orderly(calls + [call], tiers) && Isolates(tiers, key, tier) && call.key == key
        ensures ReplyTo(start, calls, call) == IdealReplyTo(calls, call)
      {
        RepliesLikeIdeal(start, calls, call, tiers);
      }
    } else {
      var tiers := k => if k == key then tier else IDLE_TIER;
      var first := Call(key, tier, 0.0);
      var other := Call(key + "'", IDLE_TIER, (MAX_AGE + tier.windowSeconds as real) / 2.0);
      var calls, call := ForgettingHistory(first, other), first.(now := other.now);
      BurstSize(first, tier.maxRequests);
      BurstSize(other, PRUNE_EVERY_N);
      assert Orderly(calls + [call], tiers);
      SweepForgetsLongWindow(first, other);
      assert ReplyTo(0.0, calls, call) != IdealReplyTo(calls, call);
    }
  }
}
