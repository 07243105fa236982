/** The sliding-window request limiter of the gateway, as it runs: timestamp lists that are
  * pruned at every check, in a map that is swept now and then. Times are in seconds.
  */
module RateLimiter {
  datatype Tier = Tier(maxRequests: int, windowSeconds: int)
  datatype Call = Call(key: string, tier: Tier, now: real)
  datatype Reply = Reply(allowed: bool, remaining: int, resetAfter: int)

  const PRUNE_INTERVAL := 60.0
  const PRUNE_EVERY_N := 1000
  const MAX_AGE := 120.0

  function Max(a: int, b: int): int {
    if a >= b then a else b
  }

  /** Python's int(): the fraction is dropped, towards zero. */
  function Truncated(x: real): int {
    if x >= 0.0 then x.Floor else -(-x).Floor
  }

  /** The timestamps after `start`, in order. */
  function Live(timestamps: seq<real>, start: real): seq<real> {
    if timestamps == [] then []
    else if timestamps[0] > start then [timestamps[0]] + Live(timestamps[1..], start)
    else Live(timestamps[1..], start)
  }

  function WindowStart(call: Call): real {
    call.now - call.tier.windowSeconds as real
  }

  function ResetAfter(live: seq<real>, tier: Tier, now: real): int {
    if live == [] then tier.windowSeconds
    else Max(1, Truncated(live[0] + tier.windowSeconds as real - now) + 1)
  }

  function Decide(live: seq<real>, tier: Tier, now: real): Reply {
    var reset := ResetAfter(live, tier, now);
    if |live| >= tier.maxRequests then Reply(false, 0, reset)
    else Reply(true, Max(0, tier.maxRequests - |live|) - 1, reset)
  }

  type Windows = map<string, seq<real>>

  datatype Counter = Counter(windows: Windows, callCount: nat, lastPrune: real)

  function Timestamps(windows: Windows, key: string): seq<real> {
    if key in windows then windows[key] else []
  }

  predicate IsStale(timestamps: seq<real>, cutoff: real) {
    timestamps == [] || timestamps[|timestamps| - 1] < cutoff
  }

  function WithoutStale(windows: Windows, cutoff: real): Windows {
    map key | key in windows && !IsStale(windows[key], cutoff) :: windows[key]
  }

  /** The sweep, which runs when enough calls and enough time have gone by. */
  function MaybePruned(c: Counter, now: real): Counter {
    var counted := c.(callCount := c.callCount + 1);
    if counted.callCount < PRUNE_EVERY_N || now - c.lastPrune < PRUNE_INTERVAL then counted
    else Counter(WithoutStale(c.windows, now - MAX_AGE), 0, now)
  }

  /** One call: the sweep, then the check of the caller's own list. */
  function Step(c: Counter, call: Call): (Counter, Reply) {
    var swept := MaybePruned(c, call.now);
    var live := Live(Timestamps(swept.windows, call.key), WindowStart(call));
    var reply := Decide(live, call.tier, call.now);
    var kept := if reply.allowed then live + [call.now] else live;
    (swept.(windows := swept.windows[call.key := kept]), reply)
  }

  class SlidingWindowCounter {
    var windows: Windows
    var callCount: nat
    var lastPrune: real

    ghost function View(): Counter
      reads this
    {
      Counter(windows, callCount, lastPrune)
    }

    constructor (now: real)
      ensures View() == Counter(map[], 0, now)
    {
      windows, callCount, lastPrune := map[], 0, now;
    }

    method IsAllowed(key: string, tier: Tier, now: real) returns (reply: Reply)
      modifies this
      ensures (View(), reply) == Step(old(View()), Call(key, tier, now))
    {
      var windowStart := now - tier.windowSeconds as real;
      MaybePrune(now);
      var timestamps := if key in windows then windows[key] else [];
      timestamps := Live(timestamps, windowStart);
      var remaining := Max(0, tier.maxRequests - |timestamps|);
      var resetAfter := ComputeReset(timestamps, tier, now);
      if |timestamps| >= tier.maxRequests {
        windows := windows[key := timestamps];
        return Reply(false, 0, resetAfter);
      }
      timestamps := timestamps + [now];
      windows := windows[key := timestamps];
      return Reply(true, remaining - 1, resetAfter);
    }

    method ComputeReset(timestamps: seq<real>, tier: Tier, now: real) returns (reset: int)
      ensures reset == ResetAfter(timestamps, tier, now)
    {
      if timestamps == [] {
        return tier.windowSeconds;
      }
      var oldest := timestamps[0];
      reset := Truncated(oldest + tier.windowSeconds as real - now) + 1;
      reset := Max(1, reset);
    }

    method MaybePrune(now: real)
      modifies this
      ensures View() == MaybePruned(old(View()), now)
      ensures if old(callCount) + 1 >= 1000 && now - old(lastPrune) >= 60.0 then
                && callCount == 0 && lastPrune == now
                && forall k :: k in windows <==>
                     k in old(windows) && old(windows)[k] != [] && old(windows)[k][|old(windows)[k]| - 1] >= now - 120.0
              else callCount == old(callCount) + 1 && lastPrune == old(lastPrune) && windows == old(windows)
      ensures forall k :: k in windows ==> k in old(windows) && windows[k] == old(windows)[k]
    {
      callCount := callCount + 1;
      if callCount < PRUNE_EVERY_N {
        return;
      }
      if now - lastPrune < PRUNE_INTERVAL {
        return;
      }
      callCount := 0;
      lastPrune := now;
      PruneStale(MAX_AGE, now);
    }

    /** Goes through a snapshot of the keys, in whatever order, and deletes the stale ones. */
    method PruneStale(maxAge: real, now: real)
      modifies `windows
      ensures windows == WithoutStale(old(windows), now - maxAge)
      ensures forall k :: k in windows <==>
                k in old(windows) && old(windows)[k] != [] && old(windows)[k][|old(windows)[k]| - 1] >= now - maxAge
      ensures forall k :: k in windows ==> windows[k] == old(windows)[k]
    {
      var cutoff := now - maxAge;
      var keys := windows.Keys;
      while keys != {}
        invariant keys <= old(windows).Keys
        invariant forall k :: k in windows <==>
          k in old(windows) && (k in keys || !IsStale(old(windows)[k], cutoff))
        invariant forall k :: k in windows ==> windows[k] == old(windows)[k]
        decreases keys
      {
        var k :| k in keys;
        if k in windows {
          var ts := windows[k];
          if ts == [] || ts[|ts| - 1] < cutoff {
            windows := windows - {k};
          }
        }
        keys := keys - {k};
      }
    }
  }
}
