/** How many calls the limiter lets through: per minute, in any sixty seconds,
    and when Redis and the local map are used in turn. */
module Admission {
  import opened RateLimit

  function Quota(limit: int): nat {
    if limit < 0 then 0 else limit
  }

  function Min(a: nat, b: nat): nat {
    if a < b then a else b
  }

  // ---- The local counter ----

  /** Calls of this key and minute that were admitted when they were made. */
  function AdmittedIn(history: seq<Call>, key: string, window: nat, limit: int): nat {
    if history == [] then 0
    else
      var n := |history| - 1;
      AdmittedIn(history[..n], key, window, limit)
      + (if InWindow(history[n], key, window) && Kept(history, key, window) <= limit then 1 else 0)
  }

  /** With a steady clock the first calls of a minute are admitted, up to the limit. */
  lemma {:induction false} AdmittedPerWindow(history: seq<Call>, key: string, window: nat, limit: int)
    requires SteadyClock(history)
    ensures AdmittedIn(history, key, window, limit) == Min(Count(history, key, window), Quota(limit))
  {
    if history != [] {
      AdmittedPerWindow(history[..|history| - 1], key, window, limit);
      SteadyClockIsExact(history, key);
    }
  }

  /** The limit, once for every time that calls of this key and minute were forgotten. */
  function Allowance(history: seq<Call>, key: string, window: nat, limit: int): nat {
    if history == [] then 0
    else
      var n := |history| - 1;
      Allowance(history[..n], key, window, limit)
      + (if Kept(history[..n], key, window) > 0 && Forgets(LocalRun(history[..n]), history[n], key, window)
         then Quota(limit) else 0)
  }

  /** With any clock every forgetting admits at most the limit once more. */
  lemma {:induction false} AdmittedPerForgetting(history: seq<Call>, key: string, window: nat, limit: int)
    ensures AdmittedIn(history, key, window, limit)
            <= Allowance(history, key, window, limit) + Min(Kept(history, key, window), Quota(limit))
  {
    if history != [] {
      AdmittedPerForgetting(history[..|history| - 1], key, window, limit);
    }
  }

  /** Admitted calls in the sixty seconds that start at `from`. */
  function AdmittedSince(history: seq<Call>, key: string, from: nat, limit: int): nat {
    if history == [] then 0
    else
      var n := |history| - 1;
      var c := history[n];
      AdmittedSince(history[..n], key, from, limit)
      + (if c.key == key && from <= c.at < from + MINUTE && Kept(history, key, Truncate(c.at)) <= limit then 1 else 0)
  }

  /** Sixty seconds touch two minutes. */
  lemma TouchesTwoWindows(from: nat, at: nat)
    requires from <= at < from + MINUTE
    ensures Truncate(at) == Truncate(from) || Truncate(at) == Truncate(from) + MINUTE
  {
  }

  lemma {:induction false} SinceSplits(history: seq<Call>, key: string, from: nat, limit: int)
    ensures AdmittedSince(history, key, from, limit)
            <= AdmittedIn(history, key, Truncate(from), limit) + AdmittedIn(history, key, Truncate(from) + MINUTE, limit)
  {
    if history != [] {
      var n := |history| - 1;
      SinceSplits(history[..n], key, from, limit);
      if from <= history[n].at < from + MINUTE {
        TouchesTwoWindows(from, history[n].at);
      }
    }
  }

  /** With one counter any sixty seconds admit at most twice the limit. */
  lemma SlidingBound(history: seq<Call>, key: string, from: nat, limit: int)
    requires SteadyClock(history)
    ensures AdmittedSince(history, key, from, limit) <= 2 * Quota(limit)
  {
    SinceSplits(history, key, from, limit);
    AdmittedPerWindow(history, key, Truncate(from), limit);
    AdmittedPerWindow(history, key, Truncate(from) + MINUTE, limit);
  }

  // ---- Redis with the local map behind it ----

  /** This step decides a request of this key and charges it to this minute. */
  predicate Charges(t: Tick, key: string, window: nat) {
    Decides(t) && t.key == key && Truncate(t.at) == window
  }

  function AdmittedRequests(ticks: seq<Tick>, key: string, window: nat, limit: int): nat {
    if ticks == [] then 0
    else
      var n := |ticks| - 1;
      AdmittedRequests(ticks[..n], key, window, limit)
      + (if Charges(ticks[n], key, window) && Charged(ticks) <= limit then 1 else 0)
  }

  function AdmittedByRedis(ticks: seq<Tick>, key: string, window: nat, limit: int): nat {
    if ticks == [] then 0
    else
      var n := |ticks| - 1;
      AdmittedByRedis(ticks[..n], key, window, limit)
      + (if ticks[n].Answered? && Charges(ticks[n], key, window) && Charged(ticks) <= limit then 1 else 0)
  }

  /** Other processes and lost replies only use the counter up. */
  lemma {:induction false} RedisBound(ticks: seq<Tick>, key: string, window: nat, limit: int)
    ensures AdmittedByRedis(ticks, key, window, limit) <= Min(RedisCount(ticks, key, window), Quota(limit))
  {
    if ticks != [] {
      RedisBound(ticks[..|ticks| - 1], key, window, limit);
    }
  }

  /** A step that decides is charged to Redis or to the map. */
  lemma DecisionSplits(ticks: seq<Tick>, key: string, window: nat, limit: int)
    requires ticks != []
    ensures var n := |ticks| - 1;
            AdmittedIn(LocalCalls(ticks), key, window, limit)
            == AdmittedIn(LocalCalls(ticks[..n]), key, window, limit)
               + (if ticks[n].FellBack? && Charges(ticks[n], key, window) && Charged(ticks) <= limit then 1 else 0)
  {
    var n := |ticks| - 1;
    var calls := LocalCalls(ticks[..n]);
    if ticks[n].FellBack? {
      assert (calls + [Call(ticks[n].key, ticks[n].at)])[..|calls|] == calls;
    } else {
      assert LocalCalls(ticks) == calls;
    }
  }

  lemma {:induction false} RequestsSplit(ticks: seq<Tick>, key: string, window: nat, limit: int)
    ensures AdmittedRequests(ticks, key, window, limit)
            == AdmittedByRedis(ticks, key, window, limit) + AdmittedIn(LocalCalls(ticks), key, window, limit)
  {
    if ticks != [] {
      var n := |ticks| - 1;
      RequestsSplit(ticks[..n], key, window, limit);
      DecisionSplits(ticks, key, window, limit);
    }
  }

  /** However the steps of requests, Redis and the local map alternate, a minute admits
      at most twice the limit. */
  lemma SwitchingBound(ticks: seq<Tick>, key: string, window: nat, limit: int)
    requires SteadyClock(LocalCalls(ticks))
    ensures AdmittedRequests(ticks, key, window, limit) <= 2 * Quota(limit)
  {
    RequestsSplit(ticks, key, window, limit);
    RedisBound(ticks, key, window, limit);
    AdmittedPerWindow(LocalCalls(ticks), key, window, limit);
  }

  function AdmittedRequestsSince(ticks: seq<Tick>, key: string, from: nat, limit: int): nat {
    if ticks == [] then 0
    else
      var n := |ticks| - 1;
      var t := ticks[n];
      AdmittedRequestsSince(ticks[..n], key, from, limit)
      + (if Decides(t) && t.key == key && from <= t.at < from + MINUTE && Charged(ticks) <= limit then 1 else 0)
  }

  lemma {:induction false} RequestsSinceSplit(ticks: seq<Tick>, key: string, from: nat, limit: int)
    ensures AdmittedRequestsSince(ticks, key, from, limit)
            <= AdmittedRequests(ticks, key, Truncate(from), limit)
               + AdmittedRequests(ticks, key, Truncate(from) + MINUTE, limit)
  {
    if ticks != [] {
      var n := |ticks| - 1;
      RequestsSinceSplit(ticks[..n], key, from, limit);
      if Decides(ticks[n]) && from <= ticks[n].at < from + MINUTE {
        TouchesTwoWindows(from, ticks[n].at);
      }
    }
  }

  /** And any sixty seconds admit at most four times the limit. */
  lemma SwitchingSlidingBound(ticks: seq<Tick>, key: string, from: nat, limit: int)
    requires SteadyClock(LocalCalls(ticks))
    ensures AdmittedRequestsSince(ticks, key, from, limit) <= 4 * Quota(limit)
  {
    RequestsSinceSplit(ticks, key, from, limit);
    SwitchingBound(ticks, key, Truncate(from), limit);
    SwitchingBound(ticks, key, Truncate(from) + MINUTE, limit);
  }
}
