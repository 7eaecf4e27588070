/** The fixed-window rate limiter: a local map of counters with lazy clean-up,
    a Redis counter in front of it, and the admission test. */
module RateLimit {

  // Times are counted in nanoseconds.
  const MINUTE: nat := 60_000_000_000

  /** The start of the minute that contains `t`. */
  function Truncate(t: nat): nat {
    t - t % MINUTE
  }

  /** The start of the minute is a whole number of minutes, at most one minute back. */
  lemma TruncateIsMinuteStart(t: nat)
    ensures Truncate(t) <= t < Truncate(t) + 60_000_000_000
    ensures Truncate(t) % 60_000_000_000 == 0
  {
  }

  datatype Bucket = Bucket(window: nat, count: nat)

  const EMPTY_BUCKET := Bucket(0, 0)
  const CLEANUP_SIZE := 512

  /** A call counted by the local map. */
  datatype Call = Call(key: string, at: nat)

  predicate InWindow(c: Call, key: string, window: nat) {
    c.key == key && Truncate(c.at) == window
  }

  /** The plain count: calls with this key in this minute. */
  function Count(history: seq<Call>, key: string, window: nat): nat {
    if history == [] then 0
    else
      var n := |history| - 1;
      Count(history[..n], key, window) + (if InWindow(history[n], key, window) then 1 else 0)
  }

  /** No reading of the clock falls into an earlier minute than the one before. */
  ghost predicate SteadyClock(history: seq<Call>) {
    forall i, j | 0 <= i < j < |history| :: Truncate(history[i].at) <= Truncate(history[j].at)
  }

  // ---- The local map ----

  function Cleaned(local: map<string, Bucket>, window: nat): map<string, Bucket> {
    if |local| < CLEANUP_SIZE then local
    else map key | key in local && local[key].window >= window :: local[key]
  }

  /** Clean-up leaves a map of fewer than 512 entries alone, and of a larger one exactly
      the buckets that are not of an earlier minute. */
  lemma CleanedKeepsRecent(local: map<string, Bucket>, window: nat, key: string)
    ensures |local| < 512 ==> Cleaned(local, window) == local
    ensures |local| >= 512 ==> (key in Cleaned(local, window) <==> key in local && local[key].window >= window)
    ensures key in Cleaned(local, window) ==> Cleaned(local, window)[key] == local[key]
  {
  }

  /** The bucket a call increments. */
  function BucketFor(local: map<string, Bucket>, key: string, window: nat): Bucket {
    if key in local && local[key].window == window then local[key] else Bucket(window, 0)
  }

  /** The local map after one more call. */
  function Incremented(local: map<string, Bucket>, key: string, window: nat): map<string, Bucket> {
    var cleaned := Cleaned(local, window);
    cleaned[key := Bucket(window, BucketFor(cleaned, key, window).count + 1)]
  }

  /** The local map after all these calls. */
  function LocalRun(history: seq<Call>): map<string, Bucket> {
    if history == [] then map[]
    else
      var n := |history| - 1;
      Incremented(LocalRun(history[..n]), history[n].key, Truncate(history[n].at))
  }

  /** What a map knows of this key and minute. */
  function Held(local: map<string, Bucket>, key: string, window: nat): nat {
    if key in local && local[key].window == window then local[key].count else 0
  }

  /** The call `c` makes the map drop what it knows: it replaces the bucket of its own
      key, or the clean-up it starts removes the bucket of an earlier minute. */
  predicate Forgets(local: map<string, Bucket>, c: Call, key: string, window: nat) {
    var now := Truncate(c.at);
    now != window && (c.key == key || (|local| >= CLEANUP_SIZE && window < now))
  }

  /** The count with forgetting: calls with this key in this minute since the map last
      dropped them. */
  function Kept(history: seq<Call>, key: string, window: nat): nat {
    if history == [] then 0
    else
      var n := |history| - 1;
      (if Forgets(LocalRun(history[..n]), history[n], key, window) then 0 else Kept(history[..n], key, window))
      + (if InWindow(history[n], key, window) then 1 else 0)
  }

  /** No call of this key and minute is followed by one that makes the map drop it. */
  ghost predicate Remembered(history: seq<Call>, key: string, window: nat) {
    forall i, j | 0 <= i < j < |history| && InWindow(history[i], key, window) ::
      !Forgets(LocalRun(history[..j]), history[j], key, window)
  }

  lemma HeldAfter(local: map<string, Bucket>, c: Call, key: string, window: nat)
    ensures Held(Incremented(local, c.key, Truncate(c.at)), key, window)
            == (if Forgets(local, c, key, window) then 0 else Held(local, key, window))
               + (if InWindow(c, key, window) then 1 else 0)
  {
  }

  /** Whatever the clock does, the map holds exactly the kept counts. */
  lemma {:induction false} LocalRunHoldsKept(history: seq<Call>, key: string, window: nat)
    ensures Held(LocalRun(history), key, window) == Kept(history, key, window)
  {
    if history != [] {
      var n := |history| - 1;
      LocalRunHoldsKept(history[..n], key, window);
      HeldAfter(LocalRun(history[..n]), history[n], key, window);
    }
  }

  /** The last call forgets no call of this key and minute. */
  ghost predicate LastRemembers(history: seq<Call>, key: string, window: nat)
    requires history != []
  {
    var n := |history| - 1;
    Forgets(LocalRun(history[..n]), history[n], key, window) ==>
      forall i | 0 <= i < n :: !InWindow(history[i], key, window)
  }

  lemma RememberedShorter(history: seq<Call>, n: nat, key: string, window: nat)
    requires Remembered(history, key, window) && n <= |history|
    ensures Remembered(history[..n], key, window)
  {
    forall i, j | 0 <= i < j < n && InWindow(history[..n][i], key, window)
      ensures !Forgets(LocalRun(history[..n][..j]), history[..n][j], key, window)
    {
      assert history[..n][..j] == history[..j];
    }
  }

  lemma RememberedAt(history: seq<Call>, n: nat, i: nat, j: nat, key: string, window: nat)
    requires i < j < n <= |history| && Remembered(history[..n], key, window) && InWindow(history[i], key, window)
    ensures !Forgets(LocalRun(history[..j]), history[j], key, window)
  {
    assert history[..n][..j] == history[..j];
    assert InWindow(history[..n][i], key, window);
  }

  lemma RememberedLonger(history: seq<Call>, key: string, window: nat)
    requires history != [] && Remembered(history[..|history| - 1], key, window) && LastRemembers(history, key, window)
    ensures Remembered(history, key, window)
  {
    var n := |history| - 1;
    forall i, j | 0 <= i < j < |history| && InWindow(history[i], key, window)
      ensures !Forgets(LocalRun(history[..j]), history[j], key, window)
    {
      if j < n {
        RememberedAt(history, n, i, j, key, window);
      }
    }
  }

  lemma RememberedBefore(history: seq<Call>, key: string, window: nat)
    requires history != []
    ensures Remembered(history, key, window)
            <==> Remembered(history[..|history| - 1], key, window) && LastRemembers(history, key, window)
  {
    if Remembered(history, key, window) {
      RememberedShorter(history, |history| - 1, key, window);
    } else if Remembered(history[..|history| - 1], key, window) && LastRemembers(history, key, window) {
      RememberedLonger(history, key, window);
    }
  }

  lemma {:induction false} CountedIffCalled(history: seq<Call>, key: string, window: nat)
    ensures Count(history, key, window) == 0 <==> forall i | 0 <= i < |history| :: !InWindow(history[i], key, window)
  {
    if history != [] {
      var n := |history| - 1;
      CountedIffCalled(history[..n], key, window);
      assert forall i | 0 <= i < n :: history[..n][i] == history[i];
    }
  }

  /** Whatever the clock does, the kept count never exceeds the plain one, and equals
      it exactly when nothing was forgotten. */
  lemma {:induction false} KeptIsExactIffRemembered(history: seq<Call>, key: string, window: nat)
    ensures Kept(history, key, window) <= Count(history, key, window)
    ensures Kept(history, key, window) == Count(history, key, window) <==> Remembered(history, key, window)
  {
    if history != [] {
      var n := |history| - 1;
      KeptIsExactIffRemembered(history[..n], key, window);
      RememberedBefore(history, key, window);
      CountedIffCalled(history[..n], key, window);
      assert forall i | 0 <= i < n :: history[..n][i] == history[i];
    }
  }

  /** With a steady clock nothing of the present minute is ever forgotten. */
  lemma SteadyClockIsExact(history: seq<Call>, key: string)
    requires history != [] && SteadyClock(history)
    ensures var window := Truncate(history[|history| - 1].at);
            Kept(history, key, window) == Count(history, key, window)
  {
    KeptIsExactIffRemembered(history, key, Truncate(history[|history| - 1].at));
  }

  /** A clock that steps back can lose calls: the second call of minute one is counted
      as its first. */
  lemma ClockGoingBackForgets()
    ensures var history := [Call("k", MINUTE), Call("k", 0), Call("k", MINUTE)];
            Kept(history, "k", MINUTE) == 1 && Count(history, "k", MINUTE) == 2
  {
    var history := [Call("k", MINUTE), Call("k", 0), Call("k", MINUTE)];
    assert history[..2] == [Call("k", MINUTE), Call("k", 0)];
    assert history[..2][..1] == [Call("k", MINUTE)];
    assert history[..2][..1][..0] == [];
    assert Forgets(LocalRun(history[..1]), history[1], "k", MINUTE);
    assert history[..1] == history[..2][..1];
    assert Count(history[..2][..1], "k", MINUTE) == 1;
    assert Count(history[..2], "k", MINUTE) == 1;
  }

  // ---- How large the map gets ----

  /** The keys that have calls in this minute or later ones. */
  function KeysFrom(history: seq<Call>, window: nat): set<string> {
    set c | c in history && Truncate(c.at) >= window :: c.key
  }

  /** The keys that have calls in this minute. */
  function KeysIn(history: seq<Call>, window: nat): set<string> {
    set c | c in history && Truncate(c.at) == window :: c.key
  }

  lemma {:induction false} BucketsHaveCalls(history: seq<Call>, key: string)
    requires key in LocalRun(history)
    ensures exists c :: c in history && InWindow(c, key, LocalRun(history)[key].window)
  {
    var n := |history| - 1;
    assert history[n] in history;
    if key == history[n].key {
      assert InWindow(history[n], key, LocalRun(history)[key].window);
    } else {
      BucketsHaveCalls(history[..n], key);
      var c :| c in history[..n] && InWindow(c, key, LocalRun(history[..n])[key].window);
      assert c in history;
    }
  }

  lemma SubsetIsSmaller<T>(a: set<T>, b: set<T>)
    requires a <= b
    ensures |a| <= |b|
  {
    if a != {} {
      var x :| x in a;
      SubsetIsSmaller(a - {x}, b - {x});
    }
  }

  lemma CleanedKeysAreRecent(history: seq<Call>, window: nat)
    requires |LocalRun(history)| >= CLEANUP_SIZE
    ensures Cleaned(LocalRun(history), window).Keys <= KeysFrom(history, window)
  {
    forall key | key in Cleaned(LocalRun(history), window)
      ensures key in KeysFrom(history, window)
    {
      BucketsHaveCalls(history, key);
    }
  }

  /** After every call, whatever the clock does, the map holds at most 512 entries or
      as many as keys have been seen in this minute or later. */
  lemma MapStaysSmall(history: seq<Call>)
    requires history != []
    ensures |LocalRun(history)| <= Max(CLEANUP_SIZE, |KeysFrom(history, Truncate(history[|history| - 1].at))|)
  {
    var n := |history| - 1;
    var before, key, window := LocalRun(history[..n]), history[n].key, Truncate(history[n].at);
    var cleaned := Cleaned(before, window);
    assert LocalRun(history).Keys == cleaned.Keys + {key};
    if |before| >= CLEANUP_SIZE {
      CleanedKeysAreRecent(history[..n], window);
      assert history[n] in history;
      SubsetIsSmaller(LocalRun(history).Keys, KeysFrom(history, window));
    }
  }

  /** With a steady clock there are no later minutes. */
  lemma SteadyKeys(history: seq<Call>)
    requires history != [] && SteadyClock(history)
    ensures var window := Truncate(history[|history| - 1].at);
            KeysFrom(history, window) == KeysIn(history, window)
  {
  }

  function Max(a: nat, b: nat): nat {
    if a < b then b else a
  }

  // ---- Redis in front of the map ----

  /** What a request sees of the Redis server: an answer, no answer although the
      counter was incremented, or nothing. */
  datatype Reply = Answer | NoAnswer | Unreachable

  /** What happens to the counters, one step at a time: an increment by somebody else,
      a request counted by Redis with or without an answer, a request counted locally.
      Steps of several requests may come in any order. */
  datatype Tick =
    | Foreign(key: string, window: nat)
    | Answered(key: string, at: nat)
    | Lost(key: string, at: nat)
    | FellBack(key: string, at: nat)

  predicate HitsRedis(t: Tick, key: string, window: nat) {
    match t
    case Foreign(k, w) => k == key && w == window
    case Answered(k, at) => k == key && Truncate(at) == window
    case Lost(k, at) => k == key && Truncate(at) == window
    case FellBack(_, _) => false
  }

  function RedisCount(ticks: seq<Tick>, key: string, window: nat): nat {
    if ticks == [] then 0
    else
      var n := |ticks| - 1;
      RedisCount(ticks[..n], key, window) + (if HitsRedis(ticks[n], key, window) then 1 else 0)
  }

  /** The calls that the local map has counted. */
  function LocalCalls(ticks: seq<Tick>): seq<Call> {
    if ticks == [] then []
    else
      var n := |ticks| - 1;
      LocalCalls(ticks[..n]) + (if ticks[n].FellBack? then [Call(ticks[n].key, ticks[n].at)] else [])
  }

  /** The step that decides a request. */
  predicate Decides(t: Tick) {
    t.Answered? || t.FellBack?
  }

  /** The number the request decided last is compared with the limit. */
  function Charged(ticks: seq<Tick>): nat
    requires ticks != [] && Decides(ticks[|ticks| - 1])
  {
    var t := ticks[|ticks| - 1];
    if t.Answered? then RedisCount(ticks, t.key, Truncate(t.at)) else Kept(LocalCalls(ticks), t.key, Truncate(t.at))
  }

  function CounterAt(redis: map<(string, nat), nat>, key: string, window: nat): nat {
    if (key, window) in redis then redis[(key, window)] else 0
  }

  function Counted(redis: map<(string, nat), nat>, key: string, window: nat): map<(string, nat), nat> {
    redis[(key, window) := CounterAt(redis, key, window) + 1]
  }

  ghost predicate CountersExact(redis: map<(string, nat), nat>, ticks: seq<Tick>) {
    forall key, window :: CounterAt(redis, key, window) == RedisCount(ticks, key, window)
  }

  function RedisAfter(redis: map<(string, nat), nat>, t: Tick): map<(string, nat), nat> {
    match t
    case Foreign(key, window) => Counted(redis, key, window)
    case Answered(key, at) => Counted(redis, key, Truncate(at))
    case Lost(key, at) => Counted(redis, key, Truncate(at))
    case FellBack(_, _) => redis
  }

  function LocalAfter(local: map<string, Bucket>, t: Tick): map<string, Bucket> {
    if t.FellBack? then Incremented(local, t.key, Truncate(t.at)) else local
  }

  /** Both counters stand for everything that has happened. */
  ghost predicate StandsFor(local: map<string, Bucket>, redis: map<(string, nat), nat>, ticks: seq<Tick>) {
    local == LocalRun(LocalCalls(ticks)) && CountersExact(redis, ticks)
  }

  lemma LocalCallsExtended(ticks: seq<Tick>, t: Tick)
    ensures LocalCalls(ticks + [t]) == LocalCalls(ticks) + (if t.FellBack? then [Call(t.key, t.at)] else [])
  {
    assert (ticks + [t])[..|ticks|] == ticks;
  }

  /** A call counts for its key and the minute it was made in, and for nothing else. */
  lemma CallsAreCounted(history: seq<Call>, c: Call, key: string, window: nat)
    ensures Count([], key, window) == 0
    ensures Count(history + [c], key, window)
            == Count(history, key, window) + (if c.key == key && c.at - c.at % 60_000_000_000 == window then 1 else 0)
  {
    assert (history + [c])[..|history|] == history;
  }

  /** Everybody's increments count, with or without an answer; local calls do not. */
  lemma IncrementsAreCounted(ticks: seq<Tick>, key: string, at: nat)
    ensures RedisCount([], key, Truncate(at)) == 0
    ensures RedisCount(ticks + [Answered(key, at)], key, Truncate(at)) == RedisCount(ticks, key, Truncate(at)) + 1
    ensures RedisCount(ticks + [Lost(key, at)], key, Truncate(at)) == RedisCount(ticks, key, Truncate(at)) + 1
    ensures RedisCount(ticks + [Foreign(key, Truncate(at))], key, Truncate(at)) == RedisCount(ticks, key, Truncate(at)) + 1
    ensures RedisCount(ticks + [FellBack(key, at)], key, Truncate(at)) == RedisCount(ticks, key, Truncate(at))
  {
    assert forall t :: (ticks + [t])[..|ticks|] == ticks;
  }

  lemma LocalRunExtended(ticks: seq<Tick>, t: Tick)
    ensures LocalRun(LocalCalls(ticks + [t])) == LocalAfter(LocalRun(LocalCalls(ticks)), t)
  {
    LocalCallsExtended(ticks, t);
    var calls := LocalCalls(ticks);
    if t.FellBack? {
      assert (calls + [Call(t.key, t.at)])[..|calls|] == calls;
    } else {
      assert LocalCalls(ticks + [t]) == calls;
    }
  }

  lemma CountersStayExact(redis: map<(string, nat), nat>, ticks: seq<Tick>, t: Tick)
    requires CountersExact(redis, ticks)
    ensures CountersExact(RedisAfter(redis, t), ticks + [t])
  {
    assert (ticks + [t])[..|ticks|] == ticks;
    forall key, window
      ensures CounterAt(RedisAfter(redis, t), key, window) == RedisCount(ticks + [t], key, window)
    {
      assert CounterAt(redis, key, window) == RedisCount(ticks, key, window);
    }
  }

  lemma StillStandsFor(local: map<string, Bucket>, redis: map<(string, nat), nat>, ticks: seq<Tick>, t: Tick)
    requires StandsFor(local, redis, ticks)
    ensures StandsFor(LocalAfter(local, t), RedisAfter(redis, t), ticks + [t])
  {
    LocalRunExtended(ticks, t);
    CountersStayExact(redis, ticks, t);
  }

  lemma ChargedIsCounted(redis: map<(string, nat), nat>, ticks: seq<Tick>, key: string, at: nat)
    requires CountersExact(redis, ticks + [Answered(key, at)])
    ensures Charged(ticks + [Answered(key, at)]) == CounterAt(redis, key, Truncate(at))
  {
    assert (ticks + [Answered(key, at)])[|ticks|] == Answered(key, at);
  }

  lemma ChargedIsKept(ticks: seq<Tick>, key: string, at: nat)
    ensures Charged(ticks + [FellBack(key, at)]) == Kept(LocalCalls(ticks + [FellBack(key, at)]), key, Truncate(at))
  {
    assert (ticks + [FellBack(key, at)])[|ticks|] == FellBack(key, at);
  }

  lemma RedisStep(local: map<string, Bucket>, redis: map<(string, nat), nat>, ticks: seq<Tick>, key: string, at: nat)
    requires StandsFor(local, redis, ticks)
    ensures var counted := Counted(redis, key, Truncate(at));
            && StandsFor(local, counted, ticks + [Answered(key, at)])
            && StandsFor(local, counted, ticks + [Lost(key, at)])
            && Charged(ticks + [Answered(key, at)]) == CounterAt(counted, key, Truncate(at))
  {
    StillStandsFor(local, redis, ticks, Answered(key, at));
    StillStandsFor(local, redis, ticks, Lost(key, at));
    ChargedIsCounted(Counted(redis, key, Truncate(at)), ticks, key, at);
  }

  lemma LocalRunAnswers(ticks: seq<Tick>, key: string, at: nat)
    ensures var after := ticks + [FellBack(key, at)];
            var history, window := LocalCalls(after), Truncate(at);
            && key in LocalRun(history) && LocalRun(history)[key].count == Kept(history, key, window) == Charged(after)
            && Kept(history, key, window) <= Count(history, key, window)
            && (SteadyClock(history) ==> Kept(history, key, window) == Count(history, key, window))
            && |LocalRun(history)| <= Max(CLEANUP_SIZE, |KeysFrom(history, window)|)
  {
    LocalCallsExtended(ticks, FellBack(key, at));
    var history := LocalCalls(ticks + [FellBack(key, at)]);
    LocalRunHoldsKept(history, key, Truncate(at));
    KeptIsExactIffRemembered(history, key, Truncate(at));
    if SteadyClock(history) {
      SteadyClockIsExact(history, key);
    }
    MapStaysSmall(history);
    ChargedIsKept(ticks, key, at);
  }

  class Limiter {
    const limit: int
    var local: map<string, Bucket>

    /** The counters of the Redis server, by key and minute. */
    var redis: map<(string, nat), nat>

    /** Everything that happened to the counters. */
    ghost var ticks: seq<Tick>

    constructor (limit: int)
      ensures Valid() && ticks == [] && this.limit == limit
    {
      this.limit := limit;
      local, redis := map[], map[];
      ticks := [];
    }

    ghost predicate Valid()
      reads this
    {
      StandsFor(local, redis, ticks)
    }

    method CleanupLocal(currentWindow: nat)
      modifies this`local
      ensures local == Cleaned(old(local), currentWindow)
    {
      if |local| < CLEANUP_SIZE { return; }
      var before := local;
      var keys := before.Keys;
      while keys != {}
        invariant keys <= before.Keys
        invariant local == map key | key in before && (key in keys || before[key].window >= currentWindow) :: before[key]
        decreases keys
      {
        var key :| key in keys;
        if before[key].window < currentWindow {
          local := local - {key};
        }
        keys := keys - {key};
      }
    }

    method BumpLocal(key: string, now: nat) returns (count: nat)
      modifies this`local
      ensures local == Incremented(old(local), key, now)
      ensures count == local[key].count
    {
      CleanupLocal(now);
      var value := if key in local then local[key] else EMPTY_BUCKET;
      if value.window != now {
        value := Bucket(now, 0);
      }
      value := value.(count := value.count + 1);
      local := local[key := value];
      return value.count;
    }

    /** One local step, whatever the clock and other requests did before. */
    method IncrementLocal(key: string, at: nat) returns (count: nat)
      requires Valid()
      modifies this`local, this`ticks
      ensures Valid() && ticks == old(ticks) + [FellBack(key, at)]
      ensures count == Charged(ticks) == Kept(LocalCalls(ticks), key, Truncate(at))
      ensures count <= Count(LocalCalls(ticks), key, Truncate(at))
      ensures SteadyClock(LocalCalls(ticks)) ==> count == Count(LocalCalls(ticks), key, Truncate(at))
      ensures |local| <= Max(CLEANUP_SIZE, |KeysFrom(LocalCalls(ticks), Truncate(at))|)
    {
      StillStandsFor(local, redis, ticks, FellBack(key, at));
      LocalRunAnswers(ticks, key, at);
      count := BumpLocal(key, Truncate(at));
      ticks := ticks + [FellBack(key, at)];
    }

    method IncrementRedis(key: string, window: nat) returns (count: nat)
      modifies this`redis
      ensures redis == Counted(old(redis), key, window)
      ensures count == CounterAt(redis, key, window)
    {
      count := CounterAt(redis, key, window) + 1;
      redis := redis[(key, window) := count];
    }

    /** One Redis step of a request here. */
    method Increment(key: string, at: nat, reply: Reply) returns (count: nat, ok: bool)
      requires Valid()
      modifies this`redis, this`ticks
      ensures Valid() && (ok <==> reply == Answer)
      ensures ticks == match reply
                       case Answer => old(ticks) + [Answered(key, at)]
                       case NoAnswer => old(ticks) + [Lost(key, at)]
                       case Unreachable => old(ticks)
      ensures ok ==> count == Charged(ticks)
    {
      if reply == Unreachable { return 0, false; }
      RedisStep(local, redis, ticks, key, at);
      count := IncrementRedis(key, Truncate(at));
      ticks := ticks + [if reply == Answer then Answered(key, at) else Lost(key, at)];
      ok := reply == Answer;
    }

    /** One increment by another process. */
    method ForeignIncrement(key: string, window: nat)
      requires Valid()
      modifies this`redis, this`ticks
      ensures Valid() && ticks == old(ticks) + [Foreign(key, window)]
    {
      StillStandsFor(local, redis, ticks, Foreign(key, window));
      var _ := IncrementRedis(key, window);
      ticks := ticks + [Foreign(key, window)];
    }

    /** One request through the middleware: Redis first, the local map on error. Its two
        steps are the methods above, so steps of other requests may come between them. */
    method Admit(key: string, redisAt: nat, localAt: nat, reply: Reply) returns (admitted: bool)
      requires Valid()
      modifies this`local, this`redis, this`ticks
      ensures Valid() && ticks == old(ticks) + match reply
                                               case Answer => [Answered(key, redisAt)]
                                               case NoAnswer => [Lost(key, redisAt), FellBack(key, localAt)]
                                               case Unreachable => [FellBack(key, localAt)]
      ensures admitted <==> Charged(ticks) <= limit
    {
      var count, ok := Increment(key, redisAt, reply);
      if !ok {
        count := IncrementLocal(key, localAt);
      }
      admitted := !(count > limit);
    }
  }
}
