/**
 * A sliding-window rate limiter: per key, the timestamps of admitted calls.
 * A call is admitted when fewer than `maxRequests` of the stored timestamps
 * are younger than `windowMs`; an admitted call stores the still-valid
 * timestamps followed by `now`, a denied call stores nothing. The clock read
 * (`Date.now()`) is the parameter `now`. The TypeScript method is `async` but
 * never awaits, so each call runs to completion before any other.
 */
module RateLimiter {
  import opened Common

  datatype RateLimitConfig = RateLimitConfig(maxRequests: int, windowMs: int)

  /** The constructor's default configuration. */
  const DefaultConfig := RateLimitConfig(100, 60000)

  /** The shared instance used by the search endpoint: 50 searches per hour. */
  const SearchConfig := RateLimitConfig(50, 60 * 60 * 1000)

  /** `filter(t => now - t < windowMs)`: the timestamps still inside the window, in stored order. */
  function ValidRequests(stamps: seq<nat>, now: int, windowMs: int): (r: seq<nat>)
    ensures |r| <= |stamps|
    ensures forall t :: t in r <==> t in stamps && now - t < windowMs
    decreases |stamps|
  {
    if stamps == [] then []
    else (if now - stamps[0] < windowMs then [stamps[0]] else []) + ValidRequests(stamps[1..], now, windowMs)
  }

  /** `this.requests.get(key) || []`. */
  function Lookup(requests: map<string, seq<nat>>, key: string): seq<nat> {
    if key in requests then requests[key] else []
  }

  /** One `checkLimit` call as a value: whether it admits, and the map afterwards. */
  function Check(requests: map<string, seq<nat>>, config: RateLimitConfig, key: string, now: nat)
    : (r: (bool, map<string, seq<nat>>))
    ensures !r.0 ==> r.1 == requests
    ensures r.0 ==> r.1 == requests[key := ValidRequests(Lookup(requests, key), now, config.windowMs) + [now]]
    ensures r.0 <==> |ValidRequests(Lookup(requests, key), now, config.windowMs)| < config.maxRequests
  {
    var valid := ValidRequests(Lookup(requests, key), now, config.windowMs);
    if |valid| >= config.maxRequests then (false, requests)
    else (true, requests[key := valid + [now]])
  }

  /** `getRemainingRequests`: the quota left in the current window, never negative. */
  function Remaining(requests: map<string, seq<nat>>, config: RateLimitConfig, key: string, now: int): (r: int)
    ensures 0 <= r
    ensures config.maxRequests >= 0 ==> r <= config.maxRequests
    ensures r == Max(0, config.maxRequests - |ValidRequests(Lookup(requests, key), now, config.windowMs)|)
  {
    Max(0, config.maxRequests - |ValidRequests(Lookup(requests, key), now, config.windowMs)|)
  }

  function MinOf(s: seq<nat>): (m: nat)
    requires |s| > 0
    ensures m in s
    ensures forall i | 0 <= i < |s| :: m <= s[i]
  {
    if |s| == 1 then s[0] else Common.Min(s[0], MinOf(s[1..]))
  }

  /**
   * `getResetTime`: when the oldest stored timestamp leaves the window, taken
   * over every stored timestamp (expired ones included); 0 without history.
   */
  function ResetTime(requests: map<string, seq<nat>>, config: RateLimitConfig, key: string): (r: int)
    ensures Lookup(requests, key) == [] ==> r == 0
    ensures Lookup(requests, key) != [] ==>
      && (exists i | 0 <= i < |Lookup(requests, key)| :: r == Lookup(requests, key)[i] + config.windowMs)
      && (forall i | 0 <= i < |Lookup(requests, key)| :: r <= Lookup(requests, key)[i] + config.windowMs)
  {
    var stamps := Lookup(requests, key);
    if |stamps| == 0 then 0 else MinOf(stamps) + config.windowMs
  }

  /** Every stored list is within the quota. */
  ghost predicate WithinQuota(requests: map<string, seq<nat>>, config: RateLimitConfig) {
    forall k | k in requests :: |requests[k]| <= config.maxRequests
  }

  class RateLimiter {
    var requests: map<string, seq<nat>>
    const config: RateLimitConfig

    ghost predicate Valid()
      reads this
    {
      WithinQuota(requests, config)
    }

    constructor (config: RateLimitConfig)
      ensures Valid()
      ensures this.config == config && requests == map[]
    {
      this.config := config;
      requests := map[];
    }

    method CheckLimit(identifier: string, now: nat) returns (allowed: bool)
      requires Valid()
      modifies this
      ensures Valid()
      ensures (allowed, requests) == Check(old(requests), config, identifier, now)
    {
      var userRequests := Lookup(requests, identifier);
      var validRequests := ValidRequests(userRequests, now, config.windowMs);
      if |validRequests| >= config.maxRequests {
        return false;
      }
      validRequests := validRequests + [now];
      requests := requests[identifier := validRequests];
      CheckKeepsQuota(old(requests), config, identifier, now);
      return true;
    }

    function GetRemainingRequests(identifier: string, now: nat): (r: int)
      reads this
      ensures 0 <= r
      ensures config.maxRequests >= 0 ==> r <= config.maxRequests
      ensures r > 0 <==> Check(requests, config, identifier, now).0
    {
      Remaining(requests, config, identifier, now)
    }

    function GetResetTime(identifier: string): (r: int)
      reads this
      ensures Lookup(requests, identifier) == [] ==> r == 0
      ensures config.windowMs > 0 ==> (r == 0 <==> Lookup(requests, identifier) == [])
    {
      ResetTimeZeroIffEmpty(requests, config, identifier);
      ResetTime(requests, config, identifier)
    }
  }

  // ----- Properties -----

  /** An admitted call keeps every stored list within the quota. */
  lemma CheckKeepsQuota(requests: map<string, seq<nat>>, config: RateLimitConfig, key: string, now: nat)
    requires WithinQuota(requests, config)
    ensures WithinQuota(Check(requests, config, key, now).1, config)
  {
  }

  /** A call only ever touches its own key. */
  lemma CheckOtherKeysUnchanged(requests: map<string, seq<nat>>, config: RateLimitConfig, key: string, other: string, now: nat)
    requires other != key
    ensures Lookup(Check(requests, config, key, now).1, other) == Lookup(requests, other)
  {
  }

  /** The remaining quota is positive exactly when the next call would be admitted. */
  lemma RemainingPositiveIffAdmitted(requests: map<string, seq<nat>>, config: RateLimitConfig, key: string, now: nat)
    ensures Remaining(requests, config, key, now) > 0 <==> Check(requests, config, key, now).0
  {
  }

  lemma ResetTimeZeroIffEmpty(requests: map<string, seq<nat>>, config: RateLimitConfig, key: string)
    ensures config.windowMs > 0 ==> (ResetTime(requests, config, key) == 0 <==> Lookup(requests, key) == [])
  {
  }

  /** Filtering a list whose timestamps are all in the window keeps it whole. */
  lemma {:induction false} ValidRequestsAllValid(stamps: seq<nat>, now: int, windowMs: int)
    requires forall i | 0 <= i < |stamps| :: now - stamps[i] < windowMs
    ensures ValidRequests(stamps, now, windowMs) == stamps
    decreases |stamps|
  {
    if stamps != [] {
      ValidRequestsAllValid(stamps[1..], now, windowMs);
    }
  }

  /** A sequence of calls for one key at the given times: the map afterwards and each call's answer. */
  function Run(requests: map<string, seq<nat>>, config: RateLimitConfig, key: string, times: seq<nat>)
    : (r: (map<string, seq<nat>>, seq<bool>))
    ensures |r.1| == |times|
    decreases |times|
  {
    if times == [] then (requests, [])
    else
      var prev := Run(requests, config, key, times[..|times| - 1]);
      var step := Check(prev.0, config, key, times[|times| - 1]);
      (step.1, prev.1 + [step.0])
  }

  predicate NonDecreasing(times: seq<nat>) {
    forall i, j | 0 <= i <= j < |times| :: times[i] <= times[j]
  }

  /** One call, with every stored timestamp still valid and room left, is admitted and appended. */
  lemma CheckAppends(requests: map<string, seq<nat>>, config: RateLimitConfig, key: string, now: nat)
    requires |Lookup(requests, key)| < config.maxRequests
    requires forall i | 0 <= i < |Lookup(requests, key)| :: now - Lookup(requests, key)[i] < config.windowMs
    ensures Check(requests, config, key, now).0
    ensures Lookup(Check(requests, config, key, now).1, key) == Lookup(requests, key) + [now]
  {
    ValidRequestsAllValid(Lookup(requests, key), now, config.windowMs);
  }

  /** Every pair of times, in order, lies within one window. */
  predicate WithinWindow(times: seq<nat>, windowMs: int) {
    forall i, j | 0 <= i <= j < |times| :: 0 <= times[j] - times[i] < windowMs
  }

  /** Sorted times whose first and last are less than a window apart all lie within one window. */
  lemma SpanWithinWindow(times: seq<nat>, windowMs: int)
    requires NonDecreasing(times)
    requires |times| > 0 ==> times[|times| - 1] - times[0] < windowMs
    ensures WithinWindow(times, windowMs)
  {
    forall i, j | 0 <= i <= j < |times|
      ensures 0 <= times[j] - times[i] < windowMs
    {
      assert times[0] <= times[i] && times[j] <= times[|times| - 1];
    }
  }

  /** Every call in a run was admitted. */
  predicate AllAdmitted(answers: seq<bool>) {
    forall i | 0 <= i < |answers| :: answers[i]
  }

  /** Without its last call a burst is still within one window, and every earlier call is young at the last. */
  lemma WindowPrefix(init: seq<nat>, now: nat, windowMs: int)
    requires WithinWindow(init + [now], windowMs)
    ensures WithinWindow(init, windowMs)
    ensures forall i | 0 <= i < |init| :: now - init[i] < windowMs
  {
    var times := init + [now];
    forall i, j | 0 <= i <= j < |init|
      ensures 0 <= init[j] - init[i] < windowMs
    {
      assert init[i] == times[i] && init[j] == times[j];
    }
    forall i | 0 <= i < |init|
      ensures now - init[i] < windowMs
    {
      assert init[i] == times[i] && now == times[|init|];
    }
  }

  /** One more call in the window, with room left, is admitted and stored after the others. */
  lemma BurstStep(requests: map<string, seq<nat>>, config: RateLimitConfig, key: string, init: seq<nat>, now: nat)
    requires |init| < config.maxRequests
    requires forall i | 0 <= i < |init| :: now - init[i] < config.windowMs
    requires Lookup(Run(requests, config, key, init).0, key) == init
    requires AllAdmitted(Run(requests, config, key, init).1)
    ensures Lookup(Run(requests, config, key, init + [now]).0, key) == init + [now]
    ensures AllAdmitted(Run(requests, config, key, init + [now]).1)
  {
    var prev := Run(requests, config, key, init);
    CheckAppends(prev.0, config, key, now);
    var times := init + [now];
    assert times[..|times| - 1] == init;
    var step := Check(prev.0, config, key, now);
    assert Run(requests, config, key, times) == (step.1, prev.1 + [step.0]);
    var answers := prev.1 + [step.0];
    forall i | 0 <= i < |answers|
      ensures answers[i]
    {
      if i < |prev.1| {
        assert answers[i] == prev.1[i];
      }
    }
  }

  /**
   * Within one window, the first `maxRequests` calls for a fresh key are
   * admitted and every admitted timestamp is stored.
   */
  lemma {:induction false} BurstAdmitted(requests: map<string, seq<nat>>, config: RateLimitConfig, key: string, times: seq<nat>)
    requires Lookup(requests, key) == []
    requires WithinWindow(times, config.windowMs)
    requires |times| <= config.maxRequests
    ensures Lookup(Run(requests, config, key, times).0, key) == times
    ensures AllAdmitted(Run(requests, config, key, times).1)
    decreases |times|
  {
    if times != [] {
      var init := times[..|times| - 1];
      var now := times[|times| - 1];
      assert times == init + [now];
      WindowPrefix(init, now, config.windowMs);
      BurstAdmitted(requests, config, key, init);
      BurstStep(requests, config, key, init, now);
    }
  }

  lemma BurstThenDenied(requests: map<string, seq<nat>>, config: RateLimitConfig, key: string, times: seq<nat>)
    requires Lookup(requests, key) == []
    requires config.maxRequests >= 0
    requires NonDecreasing(times)
    requires |times| == config.maxRequests + 1
    requires times[|times| - 1] - times[0] < config.windowMs
    ensures forall i | 0 <= i < config.maxRequests :: Run(requests, config, key, times).1[i]
    ensures !Run(requests, config, key, times).1[config.maxRequests]
  {
    var init := times[..|times| - 1];
    var now := times[|times| - 1];
    SpanWithinWindow(times, config.windowMs);
    assert WithinWindow(init, config.windowMs) by {
      forall i, j | 0 <= i <= j < |init|
        ensures 0 <= init[j] - init[i] < config.windowMs
      {
        assert init[i] == times[i] && init[j] == times[j];
      }
    }
    BurstAdmitted(requests, config, key, init);
    forall i | 0 <= i < |init|
      ensures now - init[i] < config.windowMs
    {
      assert init[i] == times[i];
    }
    ValidRequestsAllValid(init, now, config.windowMs);
    var prev := Run(requests, config, key, init);
    var step := Check(prev.0, config, key, now);
    assert !step.0;
    assert Run(requests, config, key, times) == (step.1, prev.1 + [step.0]);
    var answers := prev.1 + [step.0];
    forall i | 0 <= i < config.maxRequests
      ensures answers[i]
    {
      assert answers[i] == prev.1[i];
    }
  }

  /** Calls on one key leave every other key's history, and so its quota, as it was. */
  lemma {:induction false} RunOtherKeyUnchanged(requests: map<string, seq<nat>>, config: RateLimitConfig, key: string, other: string, times: seq<nat>)
    requires other != key
    ensures Lookup(Run(requests, config, key, times).0, other) == Lookup(requests, other)
    decreases |times|
  {
    if times != [] {
      RunOtherKeyUnchanged(requests, config, key, other, times[..|times| - 1]);
      var prev := Run(requests, config, key, times[..|times| - 1]);
      CheckOtherKeysUnchanged(prev.0, config, key, other, times[|times| - 1]);
    }
  }

  /** The endpoint's limiter, fresh: 50 calls within an hour pass, the 51st does not. */
  lemma SearchLimiterBurst(key: string, times: seq<nat>)
    requires NonDecreasing(times)
    requires |times| == 51
    requires times[50] - times[0] < 60 * 60 * 1000
    ensures forall i | 0 <= i < 50 :: Run(map[], SearchConfig, key, times).1[i]
    ensures !Run(map[], SearchConfig, key, times).1[50]
  {
    BurstThenDenied(map[], SearchConfig, key, times);
  }
}
