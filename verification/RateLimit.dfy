/** The sliding-window limiter, against the full history. */
module RateLimit {

  type Key = string

  /** The longest window in use, in nanoseconds; sweeping goes by it. */
  const HOUR: int := 3600 * 1_000_000_000

  type Buckets = map<Key, seq<int>>

  function Bucket(b: Buckets, key: Key): seq<int> {
    if key in b then b[key] else []
  }

  /** The stamps after the cutoff, in order. */
  function Recent(s: seq<int>, cutoff: int): seq<int> {
    if s == [] then []
    else
      var before := Recent(s[..|s| - 1], cutoff);
      if s[|s| - 1] > cutoff then before + [s[|s| - 1]] else before
  }

  /** No stamp is left, or even the newest is older than the longest window. */
  predicate Expired(s: seq<int>, now: int) {
    s == [] || s[|s| - 1] < now - HOUR
  }

  function Swept(b: Buckets, now: int): Buckets {
    map k | k in b && !Expired(b[k], now) :: b[k]
  }

  /** Sweeping did not make enough room: every counter is dropped. */
  predicate DropsAll(b: Buckets, maxKeys: nat, now: int) {
    |b| > maxKeys && |Swept(b, now)| > maxKeys
  }

  function Trimmed(b: Buckets, maxKeys: nat, now: int): Buckets {
    if |b| <= maxKeys then b else if DropsAll(b, maxKeys, now) then map[] else Swept(b, now)
  }

  /** Counting one attempt, once there is room. */
  function Counted(b: Buckets, key: Key, limit: int, window: int, now: int): (Buckets, bool) {
    var kept := Recent(Bucket(b, key), now - window);
    (b[key := kept + [now]], |kept| < limit)
  }

  function AllowStep(b: Buckets, maxKeys: nat, key: Key, limit: int, window: int, now: int): (Buckets, bool) {
    Counted(Trimmed(b, maxKeys, now), key, limit, window, now)
  }

  /** Filters the stamps within their own storage. */
  method KeepRecent(stamps: array<int>, cutoff: int) returns (kept: nat)
    modifies stamps
    ensures kept <= stamps.Length && stamps[..kept] == Recent(old(stamps[..]), cutoff)
  {
    kept := 0;
    ghost var was := stamps[..];
    for i := 0 to stamps.Length
      invariant kept <= i && stamps[..kept] == Recent(was[..i], cutoff)
      invariant forall j :: i <= j < stamps.Length ==> stamps[j] == was[j]
    {
      assert was[..i + 1][..i] == was[..i];
      if stamps[i] > cutoff {
        stamps[kept] := stamps[i];
        kept := kept + 1;
      }
    }
    assert was[..stamps.Length] == was;
  }

  class Limiter {
    var buckets: Buckets
    const maxKeys: nat

    constructor (bound: nat)
      ensures buckets == map[] && maxKeys == bound
    {
      buckets, maxKeys := map[], bound;
    }

    method Allow(key: Key, limit: int, window: int, now: int) returns (allowed: bool)
      modifies this
      ensures (buckets, allowed) == AllowStep(old(buckets), maxKeys, key, limit, window, now)
    {
      MakeRoom(now);
      var bucket := Bucket(buckets, key);
      var stamps := new int[|bucket|](i requires 0 <= i < |bucket| => bucket[i]);
      assert stamps[..] == bucket;
      var kept := KeepRecent(stamps, now - window);
      allowed := kept < limit;
      buckets := buckets[key := stamps[..kept] + [now]];
    }

    method MakeRoom(now: int)
      modifies this
      ensures buckets == Trimmed(old(buckets), maxKeys, now)
    {
      if |buckets| > maxKeys {
        SweepLocked(now);
        if |buckets| > maxKeys {
          buckets := map[];
        }
      }
    }

    method Reset(key: Key)
      modifies this
      ensures buckets == old(buckets) - {key}
    {
      buckets := buckets - {key};
    }

    method SweepLocked(now: int)
      modifies this
      ensures buckets == Swept(old(buckets), now)
    {
      var todo := buckets.Keys;
      ghost var was := buckets;
      while todo != {}
        invariant buckets == map k | k in was && (k in todo || !Expired(was[k], now)) :: was[k]
        invariant todo <= was.Keys
        decreases |todo|
      {
        var key :| key in todo;
        todo := todo - {key};
        if Expired(buckets[key], now) {
          buckets := buckets - {key};
        }
      }
    }

    /** How long until the oldest stamp leaves the window. */
    method RetryAfter(key: Key, window: int, now: int) returns (wait: int)
      ensures wait == RetryTime(Bucket(buckets, key), window, now)
    {
      var stamps := Bucket(buckets, key);
      if |stamps| == 0 {
        return 0;
      }
      wait := stamps[0] + window - now;
      if wait <= 0 {
        wait := 0;
      }
    }
  }

  function RetryTime(stamps: seq<int>, window: int, now: int): int {
    if stamps == [] || stamps[0] + window - now <= 0 then 0 else stamps[0] + window - now
  }

  // Runs against the full history

  /** Every key is always used with one limit and one window. */
  datatype Policy = Policy(limit: int, window: int)

  datatype Try = Try(at: int, allowed: bool)

  /** An attempt some time after the last call, or a reset. */
  datatype Call = Attempt(key: Key, wait: nat) | Clear(key: Key)

  /** The limiter's state, the clock, and every attempt on each key since its last reset
      or the last drop of all counters. */
  datatype World = World(buckets: Buckets, clock: int, log: map<Key, seq<Try>>)

  function LogOf(w: World, key: Key): seq<Try> {
    if key in w.log then w.log[key] else []
  }

  function Times(log: seq<Try>): (r: seq<int>)
    ensures |r| == |log|
  {
    seq(|log|, i requires 0 <= i < |log| => log[i].at)
  }

  /** The world at the given time once old buckets are swept or all are dropped. */
  function Roomy(w: World, maxKeys: nat, now: int): World {
    World(Trimmed(w.buckets, maxKeys, now), now, if DropsAll(w.buckets, maxKeys, now) then map[] else w.log)
  }

  function Recorded(w: World, key: Key, p: Policy): World {
    var (buckets, allowed) := Counted(w.buckets, key, p.limit, p.window, w.clock);
    World(buckets, w.clock, w.log[key := LogOf(w, key) + [Try(w.clock, allowed)]])
  }

  function Step(w: World, c: Call, policy: Key -> Policy, maxKeys: nat): World {
    match c
    case Attempt(key, wait) => Recorded(Roomy(w, maxKeys, w.clock + wait), key, policy(key))
    case Clear(key) => World(w.buckets - {key}, w.clock, w.log - {key})
  }

  function Run(w: World, cs: seq<Call>, policy: Key -> Policy, maxKeys: nat): World {
    if cs == [] then w else Step(Run(w, cs[..|cs| - 1], policy, maxKeys), cs[|cs| - 1], policy, maxKeys)
  }

  /** The last stamp is the newest, and no later than the clock. */
  predicate UpTo(s: seq<int>, clock: int) {
    s != [] ==> AtMost(s, s[|s| - 1]) && s[|s| - 1] <= clock
  }

  predicate AtMost(s: seq<int>, t: int) {
    forall i :: 0 <= i < |s| ==> s[i] <= t
  }

  /** Every answer on record is what counting the whole history before it gives. */
  predicate Honest(log: seq<Try>, p: Policy) {
    log == [] || (Honest(log[..|log| - 1], p) && Fair(log[..|log| - 1], log[|log| - 1], p))
  }

  /** The try's answer counts every earlier one inside its window. */
  predicate Fair(before: seq<Try>, t: Try, p: Policy) {
    t.allowed <==> |Recent(Times(before), t.at - p.window)| < p.limit
  }

  /** The bucket has kept all of the history that can still matter. */
  predicate Faithful(bucket: seq<int>, log: seq<Try>, clock: int, p: Policy) {
    && UpTo(bucket, clock) && Honest(log, p)
    && Recent(bucket, clock - p.window) == Recent(Times(log), clock - p.window)
  }

  ghost predicate Good(w: World, policy: Key -> Policy, maxKeys: nat) {
    && |w.buckets| <= maxKeys + 1
    && forall key :: GoodKey(w, key, policy(key))
  }

  predicate GoodKey(w: World, key: Key, p: Policy) {
    Faithful(Bucket(w.buckets, key), LogOf(w, key), w.clock, p)
  }

  ghost predicate ShortWindows(policy: Key -> Policy) {
    forall key :: policy(key).window <= HOUR
  }

  // The results

  /** On every run the limiter answers as if it had never forgotten an attempt, and
      holds at most one key more than its bound. */
  lemma {:induction false} RunKeepsGood(w: World, cs: seq<Call>, policy: Key -> Policy, maxKeys: nat)
    requires Good(w, policy, maxKeys) && ShortWindows(policy)
    ensures Good(Run(w, cs, policy, maxKeys), policy, maxKeys)
  {
    if cs != [] {
      RunKeepsGood(w, cs[..|cs| - 1], policy, maxKeys);
      StepKeepsGood(Run(w, cs[..|cs| - 1], policy, maxKeys), cs[|cs| - 1], policy, maxKeys, Run(w, cs, policy, maxKeys));
    }
  }

  /** A new limiter, before any attempt. */
  lemma RunsAreGood(start: int, cs: seq<Call>, policy: Key -> Policy, maxKeys: nat)
    requires ShortWindows(policy)
    ensures Good(Run(World(map[], start, map[]), cs, policy, maxKeys), policy, maxKeys)
  {
    RunKeepsGood(World(map[], start, map[]), cs, policy, maxKeys);
  }

  /** In every state that runs reach, the limiter's next answer is the count over the
      full history, and the state it moves to is the limiter's own. */
  lemma AnswerCountsHistory(w: World, policy: Key -> Policy, maxKeys: nat, key: Key, wait: nat)
    requires Good(w, policy, maxKeys) && ShortWindows(policy)
    ensures var at, p := w.clock + wait, policy(key);
            var (buckets, allowed) := AllowStep(w.buckets, maxKeys, key, p.limit, p.window, at);
            && (allowed <==> |Recent(Times(LogOf(Roomy(w, maxKeys, at), key)), at - p.window)| < p.limit)
            && Step(w, Attempt(key, wait), policy, maxKeys).buckets == buckets
  {
    KeyIsGood(w, policy, maxKeys, key);
    NextAnswer(w, maxKeys, w.clock + wait, key, policy(key));
    NextState(w, policy, maxKeys, key, wait);
  }

  lemma KeyIsGood(w: World, policy: Key -> Policy, maxKeys: nat, key: Key)
    requires Good(w, policy, maxKeys) && ShortWindows(policy)
    ensures GoodKey(w, key, policy(key)) && policy(key).window <= HOUR
  {
  }

  lemma NextState(w: World, policy: Key -> Policy, maxKeys: nat, key: Key, wait: nat)
    ensures Step(w, Attempt(key, wait), policy, maxKeys).buckets
         == AllowStep(w.buckets, maxKeys, key, policy(key).limit, policy(key).window, w.clock + wait).0
  {
  }

  /** Attempts let through after lo and no later than hi. */
  function AllowedIn(log: seq<Try>, lo: int, hi: int): nat {
    if log == [] then 0
    else
      var t := log[|log| - 1];
      AllowedIn(log[..|log| - 1], lo, hi) + (if t.allowed && lo < t.at <= hi then 1 else 0)
  }

  /** In every state that runs reach, no window of time has let through more attempts
      on a key than its limit. */
  lemma AtMostLimit(w: World, policy: Key -> Policy, maxKeys: nat, key: Key, hi: int)
    requires Good(w, policy, maxKeys) && policy(key).limit >= 0
    ensures AllowedIn(LogOf(w, key), hi - policy(key).window, hi) <= policy(key).limit
  {
    assert GoodKey(w, key, policy(key));
    HonestBound(LogOf(w, key), policy(key), hi);
  }

  /** Waiting as long as RetryAfter says is enough exactly when fewer stamps than the
      limit are newer than the oldest one: denied attempts are stamps too. */
  lemma RetryEnoughIff(b: Buckets, maxKeys: nat, key: Key, limit: int, window: int, now: int)
    requires Bucket(b, key) != [] && Bucket(b, key)[0] + window > now && |b| <= maxKeys
    ensures var at := now + RetryTime(Bucket(b, key), window, now);
            AllowStep(b, maxKeys, key, limit, window, at).1 <==> |Recent(Bucket(b, key), Bucket(b, key)[0])| < limit
  {
  }

  /** After a denial, with no two attempts at one instant, trying again after exactly
      the time RetryAfter gives is denied again. */
  lemma RetryDeniedAgain(b: Buckets, maxKeys: nat, key: Key, limit: int, window: int, now: int)
    requires limit >= 1 && window >= 1 && |b| < maxKeys
    requires Strict(Bucket(b, key) + [now])
    requires !AllowStep(b, maxKeys, key, limit, window, now).1
    ensures var after := AllowStep(b, maxKeys, key, limit, window, now).0;
            var at := now + RetryTime(Bucket(after, key), window, now);
            !AllowStep(after, maxKeys, key, limit, window, at).1
  {
    var after := AllowStep(b, maxKeys, key, limit, window, now).0;
    DeniedAfter(b, maxKeys, key, limit, window, now);
    ManyAfterFirst(Bucket(b, key), now, now - window, limit);
    RetryEnoughIff(after, maxKeys, key, limit, window, now);
  }

  lemma DeniedAfter(b: Buckets, maxKeys: nat, key: Key, limit: int, window: int, now: int)
    requires |b| < maxKeys && !AllowStep(b, maxKeys, key, limit, window, now).1
    ensures var after, kept := AllowStep(b, maxKeys, key, limit, window, now).0, Recent(Bucket(b, key), now - window);
            |after| <= maxKeys && Bucket(after, key) == kept + [now] && |kept| >= limit
  {
    var after := AllowStep(b, maxKeys, key, limit, window, now).0;
    assert after.Keys == b.Keys + {key};
  }

  /** The stamps kept at a denial, and the denial's own, are as many again after the first. */
  lemma ManyAfterFirst(s: seq<int>, now: int, c: int, limit: int)
    requires Strict(s + [now]) && |Recent(s, c)| >= limit >= 1
    ensures var kept := Recent(s, c);
            kept[0] > c && |Recent(kept + [now], (kept + [now])[0])| >= limit
  {
    var kept := Recent(s, c);
    StrictParts(s, now);
    RecentKeepsStrict(s, c);
    AllRecent(s, c, kept[0]);
    AllAfterFirst(kept + [now], kept[0]);
  }

  predicate Strict(s: seq<int>) {
    forall i, j :: 0 <= i < j < |s| ==> s[i] < s[j]
  }

  // Filtering

  lemma {:induction false} RecentRecent(s: seq<int>, c: int, x: int)
    requires c <= x
    ensures Recent(Recent(s, c), x) == Recent(s, x)
  {
    if s != [] {
      var rest := Recent(s[..|s| - 1], c);
      RecentRecent(s[..|s| - 1], c, x);
      if s[|s| - 1] > c { assert (rest + [s[|s| - 1]])[..|rest|] == rest; }
    }
  }

  lemma SameLater(a: seq<int>, b: seq<int>, c: int, x: int)
    requires Recent(a, c) == Recent(b, c) && c <= x
    ensures Recent(a, x) == Recent(b, x)
  {
    RecentRecent(a, c, x);
    RecentRecent(b, c, x);
  }

  lemma {:induction false} RecentBound(s: seq<int>, c: int, clock: int)
    requires AtMost(s, clock)
    ensures AtMost(Recent(s, c), clock)
  {
    if s != [] { RecentBound(s[..|s| - 1], c, clock); }
  }

  lemma {:induction false} NothingRecent(s: seq<int>, c: int)
    requires AtMost(s, c)
    ensures Recent(s, c) == []
  {
    if s != [] { NothingRecent(s[..|s| - 1], c); }
  }

  lemma {:induction false} RecentShrinks(s: seq<int>, c: int, x: int)
    requires c <= x
    ensures |Recent(s, x)| <= |Recent(s, c)|
  {
    if s != [] { RecentShrinks(s[..|s| - 1], c, x); }
  }

  lemma RecentMore(s: seq<int>, t: int, c: int)
    ensures Recent(s + [t], c) == if t > c then Recent(s, c) + [t] else Recent(s, c)
  {
    assert (s + [t])[..|s|] == s;
  }

  // One attempt

  lemma TrimmedBucket(b: Buckets, maxKeys: nat, now: int, key: Key)
    ensures DropsAll(b, maxKeys, now) ==> Bucket(Trimmed(b, maxKeys, now), key) == []
    ensures !DropsAll(b, maxKeys, now) ==>
              || Bucket(Trimmed(b, maxKeys, now), key) == Bucket(b, key)
              || (Bucket(Trimmed(b, maxKeys, now), key) == [] && Expired(Bucket(b, key), now))
  {
  }

  lemma FaithfulLater(s: seq<int>, log: seq<Try>, clock: int, now: int, p: Policy)
    requires Faithful(s, log, clock, p) && clock <= now && p.window <= HOUR
    ensures Faithful(s, log, now, p)
    ensures Expired(s, now) ==> Faithful([], log, now, p)
  {
    SameLater(s, Times(log), clock - p.window, now - p.window);
    if Expired(s, now) { NothingRecent(s, now - p.window); }
  }

  /** Sweeping and dropping leave each bucket as faithful as it was, to the history that
      is left. */
  lemma RoomyKeeps(w: World, maxKeys: nat, now: int, key: Key, p: Policy)
    requires GoodKey(w, key, p) && w.clock <= now && p.window <= HOUR
    ensures GoodKey(Roomy(w, maxKeys, now), key, p)
  {
    TrimmedBucket(w.buckets, maxKeys, now, key);
    FaithfulLater(Bucket(w.buckets, key), LogOf(w, key), w.clock, now, p);
  }

  lemma HonestMore(log: seq<Try>, t: Try, p: Policy)
    requires Honest(log, p) && Fair(log, t, p)
    ensures Honest(log + [t], p)
  {
    assert (log + [t])[..|log|] == log;
  }

  lemma TimesMore(log: seq<Try>, t: Try)
    ensures Times(log + [t]) == Times(log) + [t.at]
  {
  }

  /** Recording an attempt keeps the bucket and the history together. */
  lemma AttemptKeeps(bucket: seq<int>, log: seq<Try>, now: int, p: Policy)
    requires Faithful(bucket, log, now, p)
    ensures var kept := Recent(bucket, now - p.window);
            Faithful(kept + [now], log + [Try(now, |kept| < p.limit)], now, p)
  {
    var c := now - p.window;
    var kept := Recent(bucket, c);
    var t := Try(now, |kept| < p.limit);
    HonestMore(log, t, p);
    TimesMore(log, t);
    RecentBound(bucket, c, now);
    SameMore(bucket, Times(log), now, c);
  }

  lemma SameMore(a: seq<int>, b: seq<int>, t: int, c: int)
    requires Recent(a, c) == Recent(b, c)
    ensures Recent(Recent(a, c) + [t], c) == Recent(b + [t], c)
  {
    RecentRecent(a, c, c);
    RecentMore(Recent(a, c), t, c);
    RecentMore(b, t, c);
  }

  lemma RecordedKey(w: World, called: Key, q: Policy, key: Key)
    ensures var after, kept := Recorded(w, called, q), Recent(Bucket(w.buckets, key), w.clock - q.window);
            && after.clock == w.clock
            && Bucket(after.buckets, key) == (if called == key then kept + [w.clock] else Bucket(w.buckets, key))
            && LogOf(after, key) == (if called == key then LogOf(w, key) + [Try(w.clock, |kept| < q.limit)] else LogOf(w, key))
  {
  }

  lemma RecordKeeps(w: World, called: Key, q: Policy, key: Key, p: Policy)
    requires GoodKey(w, key, p) && (called == key ==> p == q)
    ensures GoodKey(Recorded(w, called, q), key, p)
  {
    RecordedKey(w, called, q, key);
    if called == key { AttemptKeeps(Bucket(w.buckets, key), LogOf(w, key), w.clock, p); }
  }

  lemma ClearKeepsKey(w: World, called: Key, key: Key, p: Policy)
    requires GoodKey(w, key, p)
    ensures GoodKey(World(w.buckets - {called}, w.clock, w.log - {called}), key, p)
  {
    var after := World(w.buckets - {called}, w.clock, w.log - {called});
    assert Bucket(after.buckets, key) == if called == key then [] else Bucket(w.buckets, key);
    assert LogOf(after, key) == if called == key then [] else LogOf(w, key);
  }

  lemma AttemptKeepsKey(w: World, maxKeys: nat, now: int, called: Key, q: Policy, key: Key, p: Policy)
    requires GoodKey(w, key, p) && w.clock <= now && p.window <= HOUR && (called == key ==> p == q)
    ensures GoodKey(Recorded(Roomy(w, maxKeys, now), called, q), key, p)
  {
    RoomyKeeps(w, maxKeys, now, key, p);
    RecordKeeps(Roomy(w, maxKeys, now), called, q, key, p);
  }

  lemma AttemptKeepsGood(w: World, maxKeys: nat, now: int, called: Key, q: Policy, policy: Key -> Policy, after: World)
    requires Good(w, policy, maxKeys) && ShortWindows(policy) && w.clock <= now && q == policy(called)
    requires after == Recorded(Roomy(w, maxKeys, now), called, q)
    ensures forall key :: GoodKey(after, key, policy(key))
  {
    forall key
      ensures GoodKey(after, key, policy(key))
    {
      assert GoodKey(w, key, policy(key));
      AttemptKeepsKey(w, maxKeys, now, called, q, key, policy(key));
    }
  }

  lemma ClearKeepsGood(w: World, maxKeys: nat, called: Key, policy: Key -> Policy, after: World)
    requires Good(w, policy, maxKeys) && after == World(w.buckets - {called}, w.clock, w.log - {called})
    ensures forall key :: GoodKey(after, key, policy(key))
  {
    forall key
      ensures GoodKey(after, key, policy(key))
    {
      assert GoodKey(w, key, policy(key));
      ClearKeepsKey(w, called, key, policy(key));
    }
  }

  lemma StepKeepsKeys(w: World, c: Call, policy: Key -> Policy, maxKeys: nat, after: World)
    requires Good(w, policy, maxKeys) && ShortWindows(policy) && after == Step(w, c, policy, maxKeys)
    ensures forall key :: GoodKey(after, key, policy(key))
  {
    match c
    case Attempt(called, wait) => AttemptKeepsGood(w, maxKeys, w.clock + wait, called, policy(called), policy, after);
    case Clear(called) => ClearKeepsGood(w, maxKeys, called, policy, after);
  }

  lemma StepKeepsGood(w: World, c: Call, policy: Key -> Policy, maxKeys: nat, after: World)
    requires Good(w, policy, maxKeys) && ShortWindows(policy) && after == Step(w, c, policy, maxKeys)
    ensures Good(after, policy, maxKeys)
  {
    SizeBound(w, c, policy, maxKeys);
    StepKeepsKeys(w, c, policy, maxKeys, after);
  }

  lemma RoomBound(b: Buckets, maxKeys: nat, now: int)
    ensures |Trimmed(b, maxKeys, now)| <= maxKeys
  {
  }

  lemma OneMore(b: Buckets, key: Key, s: seq<int>)
    ensures |b[key := s]| <= |b| + 1
  {
    assert b[key := s].Keys == b.Keys + {key};
    assert |b[key := s].Keys| == |b[key := s]| && |b.Keys| == |b|;
  }

  lemma OneLess(b: Buckets, key: Key)
    ensures |b - {key}| <= |b|
  {
    assert (b - {key}).Keys == b.Keys - {key};
    assert |(b - {key}).Keys| == |b - {key}| && |b.Keys| == |b|;
  }

  lemma SizeBound(w: World, c: Call, policy: Key -> Policy, maxKeys: nat)
    requires |w.buckets| <= maxKeys + 1
    ensures |Step(w, c, policy, maxKeys).buckets| <= maxKeys + 1
  {
    if c.Attempt? {
      var now := w.clock + c.wait;
      var room := Trimmed(w.buckets, maxKeys, now);
      RoomBound(w.buckets, maxKeys, now);
      OneMore(room, c.key, Recent(Bucket(room, c.key), now - policy(c.key).window) + [now]);
    } else {
      OneLess(w.buckets, c.key);
    }
  }

  lemma NextAnswer(w: World, maxKeys: nat, at: int, key: Key, p: Policy)
    requires GoodKey(w, key, p) && w.clock <= at && p.window <= HOUR
    ensures AllowStep(w.buckets, maxKeys, key, p.limit, p.window, at).1 <==>
            |Recent(Times(LogOf(Roomy(w, maxKeys, at), key)), at - p.window)| < p.limit
  {
    RoomyKeeps(w, maxKeys, at, key, p);
  }

  // The limit

  lemma {:induction false} AllowedAreRecent(log: seq<Try>, lo: int, hi: int)
    ensures AllowedIn(log, lo, hi) <= |Recent(Times(log), lo)|
  {
    if log != [] {
      AllowedAreRecent(log[..|log| - 1], lo, hi);
      assert Times(log)[..|log| - 1] == Times(log[..|log| - 1]);
    }
  }

  lemma {:induction false} HonestBound(log: seq<Try>, p: Policy, hi: int)
    requires Honest(log, p) && p.limit >= 0
    ensures AllowedIn(log, hi - p.window, hi) <= p.limit
  {
    if log != [] {
      var n := |log| - 1;
      var t, rest := log[n], log[..n];
      HonestBound(rest, p, hi);
      if t.allowed && hi - p.window < t.at <= hi {
        AllowedAreRecent(rest, hi - p.window, hi);
        RecentShrinks(Times(rest), t.at - p.window, hi - p.window);
      }
    }
  }

  // RetryAfter

  lemma {:induction false} AllAfterFirst(s: seq<int>, first: int)
    requires s != [] && first == s[0] && forall i :: 0 < i < |s| ==> s[i] > first
    ensures |Recent(s, first)| == |s| - 1
  {
    if |s| > 1 { AllAfterFirst(s[..|s| - 1], first); }
  }

  lemma {:induction false} AllRecent(s: seq<int>, c: int, t: int)
    requires t in Recent(s, c)
    ensures t > c
  {
    if s != [] && t in Recent(s[..|s| - 1], c) { AllRecent(s[..|s| - 1], c, t); }
  }

  lemma StrictParts(s: seq<int>, t: int)
    requires Strict(s + [t])
    ensures Strict(s) && forall i :: 0 <= i < |s| ==> s[i] < t
  {
    var all := s + [t];
    assert all[|s|] == t;
    assert forall i :: 0 <= i < |s| ==> all[i] == s[i];
  }

  lemma {:induction false} RecentKeepsStrict(s: seq<int>, c: int)
    requires Strict(s)
    ensures Strict(Recent(s, c))
    ensures forall t :: t in Recent(s, c) ==> t in s
  {
    if s != [] {
      RecentKeepsStrict(s[..|s| - 1], c);
      var before := Recent(s[..|s| - 1], c);
      assert forall i :: 0 <= i < |before| ==> before[i] in before;
    }
  }

  // The answers by hand

  /** How many attempts on record came after the given time. */
  ghost function After(log: seq<Try>, t: int): nat {
    if log == [] then 0 else After(log[1..], t) + if log[0].at > t then 1 else 0
  }

  lemma {:induction false} AfterLast(log: seq<Try>, t: int)
    requires log != []
    ensures After(log, t) == After(log[..|log| - 1], t) + if log[|log| - 1].at > t then 1 else 0
  {
    if |log| > 1 {
      AfterLast(log[1..], t);
      assert log[1..][..|log| - 2] == log[..|log| - 1][1..];
    } else {
      assert log[1..] == [] && log[..0] == [];
    }
  }

  lemma {:induction false} RecentCounts(log: seq<Try>, t: int)
    ensures |Recent(Times(log), t)| == After(log, t)
  {
    if log != [] {
      var front := log[..|log| - 1];
      RecentCounts(front, t);
      AfterLast(log, t);
      assert Times(log)[..|log| - 1] == Times(front);
    }
  }

  /** In every state that runs reach an attempt is let through exactly when fewer attempts than
      the limit, let through or not, are on record within the window before it. */
  lemma AllowedIff(w: World, policy: Key -> Policy, maxKeys: nat, key: Key, at: int, p: Policy, log: seq<Try>)
    requires Good(w, policy, maxKeys) && ShortWindows(policy) && p == policy(key)
    requires w.clock <= at && log == LogOf(Roomy(w, maxKeys, at), key)
    ensures AllowStep(w.buckets, maxKeys, key, p.limit, p.window, at).1 <==> After(log, at - p.window) < p.limit
  {
    KeyIsGood(w, policy, maxKeys, key);
    AllowedByCount(w, maxKeys, at, key, p, log);
  }

  lemma AllowedByCount(w: World, maxKeys: nat, at: int, key: Key, p: Policy, log: seq<Try>)
    requires GoodKey(w, key, p) && w.clock <= at && p.window <= HOUR && log == LogOf(Roomy(w, maxKeys, at), key)
    ensures AllowStep(w.buckets, maxKeys, key, p.limit, p.window, at).1 <==> After(log, at - p.window) < p.limit
  {
    NextAnswer(w, maxKeys, at, key, p);
    RecentCounts(log, at - p.window);
  }

  /** And it is recorded with that answer, let through or not. */
  lemma AttemptRecorded(w: World, policy: Key -> Policy, maxKeys: nat, key: Key, wait: nat)
    ensures LogOf(Step(w, Attempt(key, wait), policy, maxKeys), key)
         == LogOf(Roomy(w, maxKeys, w.clock + wait), key)
            + [Try(w.clock + wait, AllowStep(w.buckets, maxKeys, key, policy(key).limit, policy(key).window, w.clock + wait).1)]
  {
  }

  /** What a sweep keeps: the keys with a stamp in the last hour, unchanged; and when the
      limiter makes room. The stamps of a key are in order of time. */
  lemma SweptIs(b: Buckets, now: int, key: Key)
    requires key in b ==> UpTo(b[key], now)
    ensures key in Swept(b, now) <==> key in b && exists i :: 0 <= i < |b[key]| && b[key][i] >= now - 3_600_000_000_000
    ensures key in Swept(b, now) ==> Swept(b, now)[key] == b[key]
  {
    if key in b && b[key] != [] {
      var newest := b[key][|b[key]| - 1];
      assert AtMost(b[key], newest);
    }
  }

  lemma RoomIs(b: Buckets, maxKeys: nat, now: int)
    ensures |b| <= maxKeys ==> Trimmed(b, maxKeys, now) == b
    ensures |b| > maxKeys && |Swept(b, now)| <= maxKeys ==> Trimmed(b, maxKeys, now) == Swept(b, now)
    ensures |b| > maxKeys && |Swept(b, now)| > maxKeys ==> Trimmed(b, maxKeys, now) == map[]
  {
  }

  /** The advised time is when the oldest stamp is a window old, and is past or now exactly when
      no wait is advised. */
  lemma RetryMeans(s: seq<int>, window: int, now: int)
    ensures RetryTime(s, window, now) >= 0
    ensures s == [] ==> RetryTime(s, window, now) == 0
    ensures s != [] && s[0] + window > now ==> now + RetryTime(s, window, now) == s[0] + window
    ensures s != [] && s[0] + window <= now ==> RetryTime(s, window, now) == 0
  {
  }
}
