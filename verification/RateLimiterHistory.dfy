/** What the running limiter promises over whole histories of calls, against the simple
  * limiter that keeps every accepted request forever.
  */
module RateLimiterHistory {
  import opened RateLimiter

  // The running limiter over a history

  function After(start: real, calls: seq<Call>): Counter {
    if calls == [] then Counter(map[], 0, start)
    else Step(After(start, calls[..|calls| - 1]), calls[|calls| - 1]).0
  }

  /** The reply to `call` after `calls`. */
  function ReplyTo(start: real, calls: seq<Call>, call: Call): Reply {
    Step(After(start, calls), call).1
  }

  /** The times of the requests of `key` that the running limiter has let through. */
  function Admitted(start: real, calls: seq<Call>, key: string): seq<real> {
    if calls == [] then []
    else
      var before, last := calls[..|calls| - 1], calls[|calls| - 1];
      Admitted(start, before, key)
      + (if last.key == key && ReplyTo(start, before, last).allowed then [last.now] else [])
  }

  // The limiter that forgets nothing

  function Accepted(calls: seq<Call>, key: string): seq<real>
    decreases |calls|, 0
  {
    if calls == [] then []
    else
      var before, last := calls[..|calls| - 1], calls[|calls| - 1];
      Accepted(before, key) + (if last.key == key && IdealReplyTo(before, last).allowed then [last.now] else [])
  }

  function IdealReplyTo(calls: seq<Call>, call: Call): Reply
    decreases |calls|, 1
  {
    Decide(Live(Accepted(calls, call.key), WindowStart(call)), call.tier, call.now)
  }

  // Which histories are meant

  /** The sweep forgets nothing that still counts, or the tier lets nothing through anyway. */
  predicate SurvivesSweep(tier: Tier) {
    tier.windowSeconds as real <= MAX_AGE || tier.maxRequests <= 0
  }

  /** The clock does not run backwards and every key is always checked against one tier. */
  predicate Orderly(calls: seq<Call>, tiers: string -> Tier) {
    && (forall i, j :: 0 <= i < j < |calls| ==> calls[i].now <= calls[j].now)
    && (forall i :: 0 <= i < |calls| ==> calls[i].tier == tiers(calls[i].key))
  }

  ghost predicate Legal(calls: seq<Call>, tiers: string -> Tier) {
    Orderly(calls, tiers) && forall key :: SurvivesSweep(tiers(key))
  }

  // Timestamp lists

  predicate Sorted(ts: seq<real>, now: real) {
    && (forall i, j :: 0 <= i < j < |ts| ==> ts[i] <= ts[j])
    && (forall i :: 0 <= i < |ts| ==> ts[i] <= now)
  }

  lemma {:induction false} LiveOfLive(ts: seq<real>, a: real, b: real)
    requires a <= b
    ensures Live(Live(ts, a), b) == Live(ts, b)
  {
    if ts != [] {
      LiveOfLive(ts[1..], a, b);
      if ts[0] > a {
        assert Live(ts, a)[1..] == Live(ts[1..], a);
      }
    }
  }

  lemma {:induction false} LiveOfAppend(ts: seq<real>, t: real, start: real)
    ensures Live(ts + [t], start) == Live(ts, start) + (if t > start then [t] else [])
  {
    if ts == [] {
      assert ts + [t] == [t];
    } else {
      assert (ts + [t])[1..] == ts[1..] + [t];
      LiveOfAppend(ts[1..], t, start);
    }
  }

  lemma {:induction false} LiveOfOld(ts: seq<real>, start: real)
    requires forall i :: 0 <= i < |ts| ==> ts[i] <= start
    ensures Live(ts, start) == []
  {
    if ts != [] {
      LiveOfOld(ts[1..], start);
    }
  }

  /** On a sorted list the live timestamps are a suffix. */
  lemma {:induction false} LiveIsSuffix(ts: seq<real>, now: real, start: real)
    requires Sorted(ts, now)
    ensures |Live(ts, start)| <= |ts|
    ensures Live(ts, start) == ts[|ts| - |Live(ts, start)|..]
    ensures forall i :: 0 <= i < |ts| ==> (ts[i] > start <==> |ts| - |Live(ts, start)| <= i)
  {
    if ts != [] {
      LiveIsSuffix(ts[1..], now, start);
      if ts[0] > start {
        assert |Live(ts[1..], start)| == |ts| - 1 by {
          assert |ts| > 1 ==> ts[1..][0] == ts[1];
        }
      }
    }
  }

  // The running limiter agrees with the one that forgets nothing

  /** Two lists that no check at time `now` or later can tell apart. */
  ghost predicate Agrees(kept: seq<real>, accepted: seq<real>, tier: Tier, now: real) {
    && Sorted(kept, now)
    && (forall start :: start >= now - tier.windowSeconds as real ==> Live(kept, start) == Live(accepted, start))
    && (tier.maxRequests <= 0 ==> accepted == [])
  }

  lemma StaleCountsForNothing(kept: seq<real>, accepted: seq<real>, tier: Tier, now: real)
    requires Agrees(kept, accepted, tier, now)
    requires IsStale(kept, now - MAX_AGE) && SurvivesSweep(tier)
    ensures Agrees([], accepted, tier, now)
  {
    forall start | start >= now - tier.windowSeconds as real
      ensures Live([], start) == Live(accepted, start)
    {
      if tier.maxRequests > 0 {
        LiveOfOld(kept, start);
      }
    }
  }

  lemma CheckAgrees(kept: seq<real>, accepted: seq<real>, call: Call)
    requires Agrees(kept, accepted, call.tier, call.now)
    ensures var live := Live(kept, WindowStart(call));
            live == Live(accepted, WindowStart(call))
            && var more := if Decide(live, call.tier, call.now).allowed then [call.now] else [];
               Agrees(live + more, accepted + more, call.tier, call.now)
  {
    var live := Live(kept, WindowStart(call));
    LiveIsSuffix(kept, call.now, WindowStart(call));
    var more := if Decide(live, call.tier, call.now).allowed then [call.now] else [];
    assert live + [] == live && accepted + [] == accepted;
    forall start | start >= WindowStart(call)
      ensures Live(live + more, start) == Live(accepted + more, start)
    {
      LiveOfLive(kept, WindowStart(call), start);
      LiveOfAppend(live, call.now, start);
      LiveOfAppend(accepted, call.now, start);
    }
  }

  lemma SweepAgrees(c: Counter, key: string, accepted: seq<real>, tier: Tier, now: real)
    requires Agrees(Timestamps(c.windows, key), accepted, tier, now) && SurvivesSweep(tier)
    ensures Agrees(Timestamps(MaybePruned(c, now).windows, key), accepted, tier, now)
  {
    hide Agrees, SurvivesSweep;
    if IsStale(Timestamps(c.windows, key), now - MAX_AGE) {
      StaleCountsForNothing(Timestamps(c.windows, key), accepted, tier, now);
    }
  }

  /** One step keeps a key's lists agreeing, and answers that key from either list alike. */
  lemma StepAgrees(c: Counter, call: Call, key: string, accepted: seq<real>, tier: Tier)
    requires Agrees(Timestamps(c.windows, key), accepted, tier, call.now) && SurvivesSweep(tier)
    requires key == call.key ==> tier == call.tier
    ensures var (next, reply) := Step(c, call);
            var more := if call.key == key && reply.allowed then [call.now] else [];
            && Agrees(Timestamps(next.windows, key), accepted + more, tier, call.now)
            && (key == call.key ==> reply == Decide(Live(accepted, WindowStart(call)), tier, call.now))
  {
    hide SurvivesSweep;
    SweepAgrees(c, key, accepted, tier, call.now);
    var kept := Timestamps(MaybePruned(c, call.now).windows, key);
    if key == call.key {
      CheckAgrees(kept, accepted, call);
      assert Live(kept, WindowStart(call)) + [] == Live(kept, WindowStart(call));
    }
    assert accepted + [] == accepted;
  }

  lemma {:induction false} RunAgrees(start: real, calls: seq<Call>, tiers: string -> Tier, key: string, now: real)
    requires Legal(calls, tiers)
    requires forall i :: 0 <= i < |calls| ==> calls[i].now <= now
    ensures Agrees(Timestamps(After(start, calls).windows, key), Accepted(calls, key), tiers(key), now)
  {
    hide Agrees, Step, SurvivesSweep;
    if calls == [] {
      EmptyAgrees(tiers(key), now);
    } else {
      var before, last := calls[..|calls| - 1], calls[|calls| - 1];
      RunAgrees(start, before, tiers, key, last.now);
      var accepted := Accepted(before, key);
      var (next, reply) := Step(After(start, before), last);
      StepAgrees(After(start, before), last, key, accepted, tiers(key));
      var more := if last.key == key && reply.allowed then [last.now] else [];
      assert Accepted(calls, key) == accepted + more;
      AgreesLater(Timestamps(next.windows, key), accepted + more, tiers(key), last.now, now);
    }
  }

  lemma EmptyAgrees(tier: Tier, now: real)
    ensures Agrees([], [], tier, now)
  {
  }

  lemma AgreesLater(kept: seq<real>, accepted: seq<real>, tier: Tier, earlier: real, now: real)
    requires Agrees(kept, accepted, tier, earlier) && earlier <= now
    ensures Agrees(kept, accepted, tier, now)
  {
  }

  /** Every reply of the pruned and swept limiter is the reply of the limiter that forgets
    * nothing, whatever the keys and times of the calls before it. */
  lemma RepliesLikeIdeal(start: real, calls: seq<Call>, call: Call, tiers: string -> Tier)
    requires Legal(calls + [call], tiers)
    ensures ReplyTo(start, calls, call) == IdealReplyTo(calls, call)
  {
    var all := calls + [call];
    assert all[..|calls|] == calls;
    assert Legal(calls, tiers) by {
      assert forall i :: 0 <= i < |calls| ==> calls[i] == all[i];
    }
    assert all[|calls|] == call;
    RunAgrees(start, calls, tiers, call.key, call.now);
    StepAgrees(After(start, calls), call, call.key, Accepted(calls, call.key), call.tier);
  }

  lemma {:induction false} AdmittedIsAccepted(start: real, calls: seq<Call>, key: string, tiers: string -> Tier)
    requires Legal(calls, tiers)
    ensures Admitted(start, calls, key) == Accepted(calls, key)
  {
    if calls != [] {
      var before, last := calls[..|calls| - 1], calls[|calls| - 1];
      AdmittedIsAccepted(start, before, key, tiers);
      assert before + [last] == calls;
      RepliesLikeIdeal(start, before, last, tiers);
    }
  }

  // No window is overfull

  /** How many of the timestamps lie in the half-open interval from `lo` to `hi`. */
  function CountIn(ts: seq<real>, lo: real, hi: real): nat {
    if ts == [] then 0
    else CountIn(ts[..|ts| - 1], lo, hi) + (if lo <= ts[|ts| - 1] < hi then 1 else 0)
  }

  /** Any two accepted requests that are less than a window apart have fewer than
    * `maxRequests - 1` others between them. */
  predicate Spread(ts: seq<real>, tier: Tier) {
    forall i, j :: 0 <= i <= j < |ts| && ts[j] - ts[i] < tier.windowSeconds as real ==> j - i < tier.maxRequests
  }

  lemma {:induction false} AcceptedIsSpread(calls: seq<Call>, tiers: string -> Tier, key: string, now: real)
    requires Orderly(calls, tiers)
    requires forall i :: 0 <= i < |calls| ==> calls[i].now <= now
    ensures Sorted(Accepted(calls, key), now) && Spread(Accepted(calls, key), tiers(key))
  {
    if calls != [] {
      var before, last := calls[..|calls| - 1], calls[|calls| - 1];
      AcceptedIsSpread(before, tiers, key, last.now);
      if last.key == key {
        LiveIsSuffix(Accepted(before, key), last.now, WindowStart(last));
      }
    }
  }

  lemma {:induction false} CountAfter(ts: seq<real>, lo: real, hi: real, first: nat)
    requires first <= |ts| && forall i :: 0 <= i < first ==> ts[i] < lo
    ensures CountIn(ts, lo, hi) <= |ts| - first
  {
    if first < |ts| {
      CountAfter(ts[..|ts| - 1], lo, hi, first);
    } else if ts != [] {
      CountAfter(ts[..|ts| - 1], lo, hi, first - 1);
    }
  }

  lemma {:induction false} SpreadBoundsCount(ts: seq<real>, tier: Tier, lo: real)
    requires Spread(ts, tier)
    ensures CountIn(ts, lo, lo + tier.windowSeconds as real) <= Max(0, tier.maxRequests)
  {
    if ts != [] {
      var n := |ts| - 1;
      if lo <= ts[n] < lo + tier.windowSeconds as real {
        assert ts[n] - ts[n] == 0.0;
        var first := Max(0, n + 1 - tier.maxRequests);
        CountAfter(ts, lo, lo + tier.windowSeconds as real, first);
      } else {
        SpreadBoundsCount(ts[..n], tier, lo);
      }
    }
  }

  /** In every half-open interval as long as the window, wherever it starts, the running
    * limiter has let at most `maxRequests` requests of a key through. */
  lemma AdmissionRateIsBounded(start: real, calls: seq<Call>, key: string, tiers: string -> Tier, lo: real)
    requires Legal(calls, tiers)
    ensures CountIn(Admitted(start, calls, key), lo, lo + tiers(key).windowSeconds as real)
            <= Max(0, tiers(key).maxRequests)
  {
    hide Admitted, Accepted, Legal, CountIn, Spread;
    AdmittedIsAccepted(start, calls, key, tiers);
    LegalIsSpread(calls, tiers, key);
    SpreadBoundsCount(Accepted(calls, key), tiers(key), lo);
  }

  lemma LegalIsSpread(calls: seq<Call>, tiers: string -> Tier, key: string)
    requires Legal(calls, tiers)
    ensures Spread(Accepted(calls, key), tiers(key))
  {
    hide Accepted, Spread;
    AcceptedIsSpread(calls, tiers, key, LatestTime(calls));
  }

  ghost function LatestTime(calls: seq<Call>): (now: real)
    requires forall i, j :: 0 <= i < j < |calls| ==> calls[i].now <= calls[j].now
    ensures forall i :: 0 <= i < |calls| ==> calls[i].now <= now
  {
    if calls == [] then 0.0 else calls[|calls| - 1].now
  }

  // The reset value

  lemma {:induction false} QuietKeepsAccepted(calls: seq<Call>, quiet: seq<Call>, key: string)
    requires forall i :: 0 <= i < |quiet| ==> quiet[i].key != key
    ensures Accepted(calls + quiet, key) == Accepted(calls, key)
  {
    if quiet == [] {
      assert calls + quiet == calls;
    } else {
      var n := |quiet| - 1;
      QuietKeepsAccepted(calls, quiet[..n], key);
      assert (calls + quiet)[..|calls + quiet| - 1] == calls + quiet[..n];
    }
  }

  /** A full window stays full until its oldest request expires, and no longer. */
  lemma FullWindow(accepted: seq<real>, tier: Tier, now: real, later: real)
    requires Sorted(accepted, now) && Spread(accepted, tier) && now <= later
    requires 1 <= tier.maxRequests <= |Live(accepted, now - tier.windowSeconds as real)|
    ensures var live := Live(accepted, now - tier.windowSeconds as real);
            && now - tier.windowSeconds as real < live[0] <= now
            && (|Live(accepted, later - tier.windowSeconds as real)| < tier.maxRequests
                <==> later >= live[0] + tier.windowSeconds as real)
  {
    hide Live;
    LiveIsSuffix(accepted, now, now - tier.windowSeconds as real);
    LiveIsSuffix(accepted, now, later - tier.windowSeconds as real);
    var live := Live(accepted, now - tier.windowSeconds as real);
    var first, last := |accepted| - |live|, |accepted| - 1;
    assert live[0] == accepted[first];
    assert accepted[last] - accepted[first] < tier.windowSeconds as real;
    assert |live| == tier.maxRequests;
  }

  lemma ResetReachesExpiry(oldest: real, tier: Tier, now: real)
    requires now - tier.windowSeconds as real < oldest <= now
    ensures var reset, expiry := ResetAfter([oldest], tier, now), oldest + tier.windowSeconds as real;
            1 <= reset <= tier.windowSeconds + 1 && expiry < now + reset as real <= expiry + 1.0
  {
  }

  lemma OnlyAdmittedCounts(calls: seq<Call>, call: Call, key: string)
    requires call.key != key || !IdealReplyTo(calls, call).allowed
    ensures Accepted(calls + [call], key) == Accepted(calls, key)
  {
    assert (calls + [call])[..|calls|] == calls;
  }

  /** A client that is rejected and then stays quiet, while other keys go on, is admitted again
    * exactly from the moment its oldest live request expires; the reset value it was given
    * reaches that moment and overshoots it by at most a second. */
  lemma RejectedClientIsAdmittedAfterReset(
    start: real, calls: seq<Call>, rejected: Call, quiet: seq<Call>, retry: Call, tiers: string -> Tier)
    requires Legal(calls + [rejected] + quiet + [retry], tiers)
    requires forall i :: 0 <= i < |quiet| ==> quiet[i].key != rejected.key
    requires retry.key == rejected.key && rejected.tier.maxRequests >= 1
    requires !ReplyTo(start, calls, rejected).allowed
    ensures Live(Accepted(calls, rejected.key), WindowStart(rejected)) != []
    ensures var reset := ReplyTo(start, calls, rejected).resetAfter;
            var expiry := Live(Accepted(calls, rejected.key), WindowStart(rejected))[0]
                          + rejected.tier.windowSeconds as real;
            && 1 <= reset <= rejected.tier.windowSeconds + 1
            && expiry < rejected.now + reset as real <= expiry + 1.0
            && (ReplyTo(start, calls + [rejected] + quiet, retry).allowed <==> retry.now >= expiry)
  {
    hide After, Live, Accepted, ResetAfter, Legal;
    var history := calls + [rejected] + quiet;
    LegalPrefix(history, [retry], tiers);
    LegalPrefix(calls + [rejected], quiet, tiers);
    LegalPrefix(calls, [rejected], tiers);
    RepliesLikeIdeal(start, calls, rejected, tiers);
    RepliesLikeIdeal(start, history, retry, tiers);
    OnlyAdmittedCounts(calls, rejected, rejected.key);
    QuietKeepsAccepted(calls + [rejected], quiet, rejected.key);
    SameTierLater(calls, rejected, quiet, retry, tiers);
    AcceptedBefore(calls, rejected, tiers);
    var accepted := Accepted(calls, rejected.key);
    FullWindow(accepted, rejected.tier, rejected.now, retry.now);
    var live := Live(accepted, WindowStart(rejected));
    ResetReachesExpiry(live[0], rejected.tier, rejected.now);
    ResetNeedsOnlyOldest(live, rejected.tier, rejected.now);
  }

  // Every part of every reply

  /** How many of the timestamps are later than `since`. */
  function CountLater(ts: seq<real>, since: real): nat {
    if ts == [] then 0
    else CountLater(ts[..|ts| - 1], since) + (if ts[|ts| - 1] > since then 1 else 0)
  }

  lemma {:induction false} LiveAreCounted(ts: seq<real>, since: real)
    ensures |Live(ts, since)| == CountLater(ts, since)
  {
    if ts != [] {
      var n := |ts| - 1;
      LiveAreCounted(ts[..n], since);
      LiveOfAppend(ts[..n], ts[n], since);
      assert ts == ts[..n] + [ts[n]];
    }
  }

  lemma {:induction false} FirstLive(ts: seq<real>, since: real, i: nat)
    requires i < |ts| && ts[i] > since && forall j :: 0 <= j < i ==> ts[j] <= since
    ensures Live(ts, since) != [] && Live(ts, since)[0] == ts[i]
  {
    if i > 0 {
      FirstLive(ts[1..], since, i - 1);
    }
  }

  lemma ReplyCounts(start: real, calls: seq<Call>, call: Call, tiers: string -> Tier)
    requires Legal(calls + [call], tiers)
    ensures
      var reply, n := ReplyTo(start, calls, call), CountLater(Admitted(start, calls, call.key), WindowStart(call));
      && (reply.allowed <==> n < call.tier.maxRequests)
      && reply.remaining == (if reply.allowed then call.tier.maxRequests - 1 - n else 0)
      && (n == 0 ==> reply.resetAfter == call.tier.windowSeconds)
  {
    hide After, Accepted, Admitted, Live, ResetAfter, Legal, CountLater, ReplyTo;
    LegalPrefix(calls, [call], tiers);
    RepliesLikeIdeal(start, calls, call, tiers);
    AdmittedIsAccepted(start, calls, call.key, tiers);
    LiveAreCounted(Admitted(start, calls, call.key), WindowStart(call));
    NoLiveResetsTheWindow(call);
  }

  lemma ReplyResets(start: real, calls: seq<Call>, call: Call, tiers: string -> Tier, i: nat)
    requires Legal(calls + [call], tiers)
    requires i < |Admitted(start, calls, call.key)| && Admitted(start, calls, call.key)[i] > WindowStart(call)
    requires forall j :: 0 <= j < i ==> Admitted(start, calls, call.key)[j] <= WindowStart(call)
    ensures
      var reset := ReplyTo(start, calls, call).resetAfter;
      var expiry := Admitted(start, calls, call.key)[i] + call.tier.windowSeconds as real;
      reset >= 1 && expiry < call.now + reset as real <= expiry + 1.0
  {
    hide After, Accepted, Admitted, Live, ResetAfter, Legal, ReplyTo, Spread;
    LegalPrefix(calls, [call], tiers);
    RepliesLikeIdeal(start, calls, call, tiers);
    AdmittedIsAccepted(start, calls, call.key, tiers);
    AcceptedBefore(calls, call, tiers);
    var admitted := Admitted(start, calls, call.key);
    FirstLive(admitted, WindowStart(call), i);
    ResetReachesExpiry(admitted[i], call.tier, call.now);
    ResetNeedsOnlyOldest(Live(admitted, WindowStart(call)), call.tier, call.now);
  }

  /** A request is let through exactly when fewer than the limit were let through in its window,
    * and is told how many more could be. The reset is the window if there was none in it, and
    * otherwise reaches the expiry of the oldest of them, by at most a second more. */
  lemma ReplyIsExact(start: real, calls: seq<Call>, call: Call, tiers: string -> Tier)
    requires Legal(calls + [call], tiers)
    ensures
      var reply, window := ReplyTo(start, calls, call), call.tier.windowSeconds as real;
      var admitted, since := Admitted(start, calls, call.key), call.now - window;
      var n := CountLater(admitted, since);
      && (reply.allowed <==> n < call.tier.maxRequests)
      && reply.remaining == (if reply.allowed then call.tier.maxRequests - 1 - n else 0)
      && (n == 0 ==> reply.resetAfter == call.tier.windowSeconds)
      && (forall i :: 0 <= i < |admitted| && admitted[i] > since && (forall j :: 0 <= j < i ==> admitted[j] <= since)
            ==> && reply.resetAfter >= 1
                && admitted[i] + window < call.now + reply.resetAfter as real <= admitted[i] + window + 1.0)
  {
    hide Admitted, Legal, CountLater, ReplyTo;
    ReplyCounts(start, calls, call, tiers);
    var admitted, since := Admitted(start, calls, call.key), WindowStart(call);
    forall i | 0 <= i < |admitted| && admitted[i] > since && forall j :: 0 <= j < i ==> admitted[j] <= since
      ensures
        var reset, expiry := ReplyTo(start, calls, call).resetAfter, admitted[i] + call.tier.windowSeconds as real;
        reset >= 1 && expiry < call.now + reset as real <= expiry + 1.0
    {
      ReplyResets(start, calls, call, tiers, i);
    }
  }

  lemma NoLiveResetsTheWindow(call: Call)
    ensures ResetAfter([], call.tier, call.now) == call.tier.windowSeconds
  {
  }

  lemma SameTierLater(calls: seq<Call>, call: Call, between: seq<Call>, later: Call, tiers: string -> Tier)
    requires Legal(calls + [call] + between + [later], tiers)
    ensures call.now <= later.now && call.tier == tiers(call.key) && later.tier == tiers(later.key)
  {
    var all := calls + [call] + between + [later];
    assert all[|calls|] == call && all[|all| - 1] == later;
  }

  lemma AcceptedBefore(calls: seq<Call>, call: Call, tiers: string -> Tier)
    requires Legal(calls + [call], tiers)
    ensures Sorted(Accepted(calls, call.key), call.now)
    ensures Spread(Accepted(calls, call.key), call.tier)
  {
    var all := calls + [call];
    assert forall i :: 0 <= i < |calls| ==> calls[i] == all[i];
    assert all[|calls|] == call;
    AcceptedIsSpread(calls, tiers, call.key, call.now);
  }

  lemma ResetNeedsOnlyOldest(live: seq<real>, tier: Tier, now: real)
    requires live != []
    ensures ResetAfter(live, tier, now) == ResetAfter([live[0]], tier, now)
  {
  }

  lemma LegalPrefix(calls: seq<Call>, more: seq<Call>, tiers: string -> Tier)
    requires Legal(calls + more, tiers)
    ensures Legal(calls, tiers)
  {
    assert forall i :: 0 <= i < |calls| ==> calls[i] == (calls + more)[i];
  }
}
