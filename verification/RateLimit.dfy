/** The fixed-window rate limiter over Redis counters. INCR and EXPIRE are separate commands, so
    commands of other requests can fall between them, and an EXPIRE can come late or never.
    Times are milliseconds and are parameters. */
module RateLimit {
  import opened Tables

  /** `ratelimit:<route>:<client>`. */
  type Key = Text

  /** A window lasts at least a second. */
  type Seconds = n: int | 1 <= n witness 1

  datatype Options = Options(limit: nat, windowSeconds: Seconds)

  /** A counter without `expiresAt` never expires. */
  datatype Counter = Counter(count: nat, expiresAt: Option<nat>)

  /** Redis drops a key once its expiry lies in the past. */
  predicate Live(counters: map<Key, Counter>, key: Key, now: nat) {
    key in counters && (counters[key].expiresAt.Some? ==> now <= counters[key].expiresAt.value)
  }

  datatype Command =
    | Incr(key: Key, at: nat)
    | Expire(key: Key, windowSeconds: Seconds, at: nat)

  /** What one Redis command does. */
  function Ran(counters: map<Key, Counter>, c: Command): map<Key, Counter> {
    match c
    case Incr(key, at) =>
      counters[key := if Live(counters, key, at) then counters[key].(count := counters[key].count + 1)
                      else Counter(1, None)]
    case Expire(key, windowSeconds, at) =>
      if Live(counters, key, at) then counters[key := counters[key].(expiresAt := Some(at + windowSeconds * 1000))]
      else counters
  }

  /** The guard with its Redis connection. */
  class RateLimitGuard {
    var counters: map<Key, Counter>

    method RedisIncr(key: Key, now: nat) returns (count: nat)
      modifies this
      ensures counters == Ran(old(counters), Incr(key, now))
      ensures key in counters && count == counters[key].count
    {
      var counter := Counter(0, None);
      if Live(counters, key, now) {
        counter := counters[key];
      }
      count := counter.count + 1;
      counters := counters[key := counter.(count := count)];
    }

    method RedisExpire(key: Key, windowSeconds: Seconds, now: nat)
      modifies this
      ensures counters == Ran(old(counters), Expire(key, windowSeconds, now))
    {
      if Live(counters, key, now) {
        counters := counters[key := counters[key].(expiresAt := Some(now + windowSeconds * 1000))];
      }
    }

    /** One request, with nothing in between: refused when its count passes the limit. A route
        without options is never limited. */
    method CanActivate(options: Option<Options>, key: Key, incrAt: nat, expireAt: nat) returns (allowed: bool)
      modifies this
      ensures options.None? ==> allowed && counters == old(counters)
      ensures options.Some? ==>
        var limit, incremented := options.value.limit, Ran(old(counters), Incr(key, incrAt));
        && (allowed <==> incremented[key].count <= limit)
        && counters == if incremented[key].count == 1
                       then Ran(incremented, Expire(key, options.value.windowSeconds, expireAt)) else incremented
    {
      if options.None? {
        return true;
      }
      var count := RedisIncr(key, incrAt);
      if count == 1 {
        RedisExpire(key, options.value.windowSeconds, expireAt);
      }
      allowed := count <= options.value.limit;
    }
  }

  // ----- runs: any interleaving of commands -----

  function Counters(run: seq<Command>): map<Key, Counter> {
    if run == [] then map[] else Ran(Counters(run[..|run| - 1]), run[|run| - 1])
  }

  predicate IncrOf(run: seq<Command>, key: Key, i: nat) {
    i < |run| && run[i].Incr? && run[i].key == key
  }

  predicate ExpireOf(run: seq<Command>, key: Key, e: nat) {
    e < |run| && run[e].Expire? && run[e].key == key
  }

  /** The count the INCR at position `i` returned. */
  function Count(run: seq<Command>, i: nat): nat
    requires i < |run| && run[i].Incr?
  {
    Counters(run[..i + 1])[run[i].key].count
  }

  /** The request was let in; its moment of admission is that of its INCR. */
  predicate Admitted(run: seq<Command>, key: Key, limit: nat, i: nat) {
    IncrOf(run, key, i) && Count(run, i) <= limit
  }

  /** The INCR at `i` started a new counter. */
  predicate Born(run: seq<Command>, key: Key, i: nat) {
    IncrOf(run, key, i) && Count(run, i) == 1
  }

  /** The clock never runs backwards and the route keeps its window. Which requests' EXPIREs ran,
      how often and when, is left open. */
  ghost predicate RunOk(run: seq<Command>, key: Key, window: nat) {
    && (forall i, j | 0 <= i < j < |run| :: run[i].at <= run[j].at)
    && (forall i | 0 <= i < |run| && run[i].Expire? && run[i].key == key :: run[i].windowSeconds * 1000 == window)
  }

  lemma RunStep(run: seq<Command>, n: nat)
    requires n < |run|
    ensures Counters(run[..n + 1]) == Ran(Counters(run[..n]), run[n])
  {
    assert run[..n + 1][..n] == run[..n];
  }

  ghost predicate NoneBorn(run: seq<Command>, key: Key, from: nat, to: nat) {
    forall k | from <= k < to :: !Born(run, key, k)
  }

  /** Until a new counter starts, the count never drops. */
  lemma {:induction false} CountKept(run: seq<Command>, key: Key, i: nat, n: nat)
    requires IncrOf(run, key, i) && i < n <= |run| && NoneBorn(run, key, i + 1, n)
    ensures key in Counters(run[..n]) && Counters(run[..n])[key].count >= Count(run, i)
    decreases n
  {
    if n > i + 1 {
      CountKept(run, key, i, n - 1);
      RunStep(run, n - 1);
      assert !Born(run, key, n - 1);
      CountPositive(run, key, n - 1);
    }
  }

  lemma {:induction false} CountPositive(run: seq<Command>, key: Key, n: nat)
    requires n <= |run|
    ensures key in Counters(run[..n]) ==> Counters(run[..n])[key].count >= 1
  {
    if n > 0 {
      CountPositive(run, key, n - 1);
      RunStep(run, n - 1);
    }
  }

  lemma CountRises(run: seq<Command>, key: Key, i: nat, j: nat)
    requires IncrOf(run, key, i) && IncrOf(run, key, j) && i < j && NoneBorn(run, key, i + 1, j + 1)
    ensures Count(run, i) < Count(run, j)
  {
    CountKept(run, key, i, j);
    RunStep(run, j);
    assert !Born(run, key, j);
  }

  lemma CountAtLeastOne(run: seq<Command>, key: Key, i: nat)
    requires IncrOf(run, key, i)
    ensures Count(run, i) >= 1
  {
    CountPositive(run, key, i + 1);
    RunStep(run, i);
  }

  // ----- one counter admits at most `limit` -----

  ghost predicate OneLifetime(run: seq<Command>, key: Key, group: set<nat>) {
    && (forall i | i in group :: IncrOf(run, key, i))
    && (forall i, j | i in group && j in group && i < j :: NoneBorn(run, key, i + 1, j + 1))
  }

  ghost predicate CountsWithin(run: seq<Command>, key: Key, group: set<nat>, low: nat, high: nat) {
    forall i | i in group :: IncrOf(run, key, i) && low < Count(run, i) <= high
  }

  lemma {:induction false} LifetimeSize(run: seq<Command>, key: Key, group: set<nat>, low: nat, high: nat)
    requires OneLifetime(run, key, group) && CountsWithin(run, key, group, low, high)
    ensures |group| <= if low < high then high - low else 0
    decreases high
  {
    if low < high {
      if i :| i in group && Count(run, i) == high {
        var rest := group - {i};
        forall j | j in rest ensures Count(run, j) <= high - 1 {
          if i < j {
            CountRises(run, key, i, j);
          } else {
            CountRises(run, key, j, i);
          }
        }
        LifetimeSize(run, key, rest, low, high - 1);
      } else {
        LifetimeSize(run, key, group, low, high - 1);
      }
    } else {
      assert group == {};
    }
  }

  ghost predicate AllAdmitted(run: seq<Command>, key: Key, limit: nat, group: set<nat>) {
    forall i | i in group :: Admitted(run, key, limit, i)
  }

  /** Requests counted by one counter: at most `limit` of them are let in. */
  lemma LimitPerLifetime(run: seq<Command>, key: Key, limit: nat, group: set<nat>)
    requires OneLifetime(run, key, group) && AllAdmitted(run, key, limit, group)
    ensures |group| <= limit
  {
    forall i | i in group ensures Count(run, i) >= 1 {
      CountAtLeastOne(run, key, i);
    }
    LifetimeSize(run, key, group, 0, limit);
  }

  // ----- counters are born a window apart -----

  ghost predicate LivesUntil(counters: map<Key, Counter>, key: Key, deadline: nat) {
    key in counters && (counters[key].expiresAt.Some? ==> counters[key].expiresAt.value >= deadline)
  }

  lemma CommandKeepsLife(run: seq<Command>, key: Key, window: nat, deadline: nat, n: nat)
    requires n < |run| && LivesUntil(Counters(run[..n]), key, deadline)
    requires run[n].at <= deadline <= run[n].at + window
    requires ExpireOf(run, key, n) ==> run[n].windowSeconds * 1000 == window
    ensures LivesUntil(Counters(run[..n + 1]), key, deadline)
  {
    RunStep(run, n);
  }

  /** The counter born at `b` cannot expire before a window has passed. */
  lemma {:induction false} LivesAWindow(run: seq<Command>, key: Key, window: nat, b: nat, n: nat)
    requires RunOk(run, key, window) && Born(run, key, b) && b < n <= |run|
    requires run[n - 1].at <= run[b].at + window
    ensures LivesUntil(Counters(run[..n]), key, run[b].at + window)
    decreases n
  {
    if n == b + 1 {
      BornHasNoExpiry(run, key, b);
    } else {
      assert run[b].at <= run[n - 1].at && run[n - 2].at <= run[n - 1].at;
      LivesAWindow(run, key, window, b, n - 1);
      CommandKeepsLife(run, key, window, run[b].at + window, n - 1);
    }
  }

  lemma BornHasNoExpiry(run: seq<Command>, key: Key, b: nat)
    requires Born(run, key, b)
    ensures key in Counters(run[..b + 1]) && Counters(run[..b + 1])[key] == Counter(1, None)
  {
    RunStep(run, b);
    CountPositive(run, key, b);
  }

  /** Two counters of one key start more than a window apart. */
  lemma BirthsApart(run: seq<Command>, key: Key, window: nat, b: nat, c: nat)
    requires RunOk(run, key, window) && Born(run, key, b) && Born(run, key, c) && b < c
    ensures run[c].at > run[b].at + window
  {
    assert run[c - 1].at <= run[c].at;
    if run[c].at <= run[b].at + window {
      LivesAWindow(run, key, window, b, c);
      RunStep(run, c);
      CountPositive(run, key, c);
    }
  }

  // ----- any window -----

  ghost predicate InWindow(run: seq<Command>, key: Key, limit: nat, from: nat, window: nat, group: set<nat>) {
    forall i | i in group :: Admitted(run, key, limit, i) && from <= run[i].at <= from + window
  }

  lemma {:induction false} LeastOf(group: set<nat>, i: nat) returns (m: nat)
    requires i in group
    ensures m in group && forall j | j in group :: m <= j
  {
    if j :| j in group && j < i {
      m := LeastOf(group, j);
    } else {
      m := i;
    }
  }

  /** The requests before, and from, the first new counter after `m`. */
  ghost function Early(run: seq<Command>, key: Key, group: set<nat>, m: nat): set<nat> {
    set i | i in group && NoneBorn(run, key, m + 1, i + 1)
  }

  lemma EarlyIsOneLifetime(run: seq<Command>, key: Key, group: set<nat>, m: nat)
    requires (forall i | i in group :: IncrOf(run, key, i) && m <= i)
    ensures OneLifetime(run, key, Early(run, key, group, m))
  {
  }

  /** No two counters start after `m` and before a window has passed. */
  lemma BornOnceWithin(run: seq<Command>, key: Key, window: nat, m: nat, b: nat, from: nat, j: nat)
    requires RunOk(run, key, window) && m < b < from && j < |run| && m < |run| && run[j].at <= run[m].at + window
    requires Born(run, key, b)
    ensures NoneBorn(run, key, from, j + 1)
  {
    forall c | from <= c < j + 1 ensures !Born(run, key, c) {
      assert run[m].at <= run[b].at && run[c].at <= run[j].at;
      if Born(run, key, c) {
        BirthsApart(run, key, window, b, c);
      }
    }
  }

  lemma LateFollowsABirth(run: seq<Command>, key: Key, group: set<nat>, m: nat, i: nat) returns (b: nat)
    requires i in group - Early(run, key, group, m)
    ensures m < b <= i && Born(run, key, b)
  {
    b :| m + 1 <= b < i + 1 && Born(run, key, b);
  }

  lemma LateIsOneLifetime(run: seq<Command>, key: Key, limit: nat, from: nat, window: nat, group: set<nat>, m: nat)
    requires RunOk(run, key, window) && InWindow(run, key, limit, from, window, group)
    requires m in group && forall i | i in group :: m <= i
    ensures OneLifetime(run, key, group - Early(run, key, group, m))
  {
    var late := group - Early(run, key, group, m);
    forall i, j | i in late && j in late && i < j ensures NoneBorn(run, key, i + 1, j + 1) {
      var b := LateFollowsABirth(run, key, group, m, i);
      BornOnceWithin(run, key, window, m, b, i + 1, j);
    }
  }

  /** A second counter starts at `b`, at most a window after `m`. */
  ghost predicate BornSoon(run: seq<Command>, key: Key, window: nat, m: nat, b: nat) {
    m < b < |run| && Born(run, key, b) && run[b].at <= run[m].at + window
  }

  lemma FirstIsNotBorn(run: seq<Command>, key: Key, window: nat, m: nat, b: nat)
    requires RunOk(run, key, window) && BornSoon(run, key, window, m, b)
    ensures !Born(run, key, m)
  {
    if Born(run, key, m) {
      BirthsApart(run, key, window, m, b);
    }
  }

  lemma EarlyIsNotFirst(run: seq<Command>, key: Key, m: nat, i: nat)
    requires !Born(run, key, m) && IncrOf(run, key, i) && m <= i && NoneBorn(run, key, m + 1, i + 1)
    ensures Count(run, i) > 1
  {
    CountAtLeastOne(run, key, i);
    assert !Born(run, key, i);
  }

  lemma LateBornSoon(run: seq<Command>, key: Key, limit: nat, from: nat, window: nat,
                     group: set<nat>, m: nat, late: nat)
    returns (b: nat)
    requires RunOk(run, key, window) && InWindow(run, key, limit, from, window, group)
    requires m in group && late in group - Early(run, key, group, m)
    ensures BornSoon(run, key, window, m, b)
  {
    b := LateFollowsABirth(run, key, group, m, late);
    assert run[b].at <= run[late].at;
  }

  /** When a second counter starts inside the window, the first request of the window was not
      the first of its counter. */
  lemma EarlyCounts(run: seq<Command>, key: Key, limit: nat, group: set<nat>, m: nat)
    requires !Born(run, key, m) && AllAdmitted(run, key, limit, group) && forall i | i in group :: m <= i
    ensures CountsWithin(run, key, Early(run, key, group, m), 1, limit)
  {
    forall i | i in Early(run, key, group, m) ensures 1 < Count(run, i) <= limit {
      EarlyIsNotFirst(run, key, m, i);
    }
  }

  lemma PartSizes(group: set<nat>, part: set<nat>)
    requires part <= group
    ensures |group| == |part| + |group - part|
  {
    assert group == part + (group - part);
  }

  lemma EarlyWithin(run: seq<Command>, key: Key, limit: nat, group: set<nat>, m: nat)
    requires AllAdmitted(run, key, limit, group) && forall i | i in group :: m <= i
    ensures |Early(run, key, group, m)| <= limit
  {
    EarlyIsOneLifetime(run, key, group, m);
    LimitPerLifetime(run, key, limit, Early(run, key, group, m));
  }

  lemma EarlyIsShort(run: seq<Command>, key: Key, limit: nat, from: nat, window: nat,
                     group: set<nat>, m: nat, late: nat)
    requires RunOk(run, key, window) && InWindow(run, key, limit, from, window, group) && limit >= 1
    requires m in group && late in group && late !in Early(run, key, group, m) && forall i | i in group :: m <= i
    ensures |Early(run, key, group, m)| <= limit - 1
  {
    EarlyIsOneLifetime(run, key, group, m);
    var b := LateBornSoon(run, key, limit, from, window, group, m, late);
    FirstIsNotBorn(run, key, window, m, b);
    EarlyCounts(run, key, limit, group, m);
    LifetimeSize(run, key, Early(run, key, group, m), 1, limit);
  }

  lemma LateWithin(run: seq<Command>, key: Key, limit: nat, from: nat, window: nat, group: set<nat>, m: nat)
    requires RunOk(run, key, window) && InWindow(run, key, limit, from, window, group)
    requires m in group && forall i | i in group :: m <= i
    ensures |group - Early(run, key, group, m)| <= limit
  {
    LateIsOneLifetime(run, key, limit, from, window, group, m);
    LimitPerLifetime(run, key, limit, group - Early(run, key, group, m));
  }

  /** In any interval one window long, both ends included, at most `2 * limit - 1` requests of one
      client on one route are let in, however the commands interleave. */
  lemma LimitPerWindow(run: seq<Command>, key: Key, limit: nat, from: nat, window: nat, group: set<nat>)
    requires RunOk(run, key, window) && InWindow(run, key, limit, from, window, group) && limit >= 1
    ensures |group| <= 2 * limit - 1
  {
    if i :| i in group {
      var m := LeastOf(group, i);
      var early := Early(run, key, group, m);
      PartSizes(group, early);
      LateWithin(run, key, limit, from, window, group, m);
      if l :| l in group - early {
        EarlyIsShort(run, key, limit, from, window, group, m, l);
      } else {
        EarlyWithin(run, key, limit, group, m);
      }
    }
  }

  // ----- exactly when a counter is reset -----

  /** The counter born at `b` is the key's current one. */
  ghost predicate Current(run: seq<Command>, key: Key, b: nat, n: nat) {
    Born(run, key, b) && b < n && NoneBorn(run, key, b + 1, n)
  }

  /** An INCR starts a new counter exactly when it finds none live. */
  lemma BornIffDead(run: seq<Command>, key: Key, n: nat)
    requires IncrOf(run, key, n)
    ensures Born(run, key, n) <==> !Live(Counters(run[..n]), key, run[n].at)
  {
    RunStep(run, n);
    CountPositive(run, key, n);
  }

  /** The counter's expiry is the deadline of an EXPIRE that has run, and no later EXPIRE came
      in time to move it. */
  ghost predicate SetBy(run: seq<Command>, key: Key, window: nat, e: nat, n: nat) {
    ExpireOf(run, key, e) && e < n &&
    forall f: nat | e < f < n && ExpireOf(run, key, f) :: run[f].at > run[e].at + window
  }

  /** Some EXPIRE of the current counter has run, and its deadline has passed by `now`. */
  ghost predicate DeadlinePassed(run: seq<Command>, key: Key, window: nat, b: nat, n: nat, now: nat) {
    exists e: nat :: b < e && SetBy(run, key, window, e, n) && now > run[e].at + window
  }

  ghost predicate NoExpire(run: seq<Command>, key: Key, b: nat, n: nat) {
    forall f: nat | b < f < n :: !ExpireOf(run, key, f)
  }

  /** What the stored counter says of the EXPIREs so far. */
  ghost predicate Tells(run: seq<Command>, key: Key, window: nat, b: nat, n: nat, expiry: Option<nat>) {
    match expiry
    case None => NoExpire(run, key, b, n)
    case Some(d) => exists e: nat :: b < e && SetBy(run, key, window, e, n) && d == run[e].at + window
  }

  /** An EXPIRE that finds the counter live sets the expiry anew. */
  lemma ExpireTells(run: seq<Command>, key: Key, window: nat, b: nat, n: nat)
    requires RunOk(run, key, window) && b < n && ExpireOf(run, key, n)
    ensures Tells(run, key, window, b, n + 1, Some(run[n].at + window))
  {
    assert SetBy(run, key, window, n, n + 1);
  }

  /** Any other command, or an EXPIRE after the expiry, leaves what is told true. */
  lemma StillTells(run: seq<Command>, key: Key, window: nat, b: nat, n: nat, expiry: Option<nat>)
    requires b < n < |run| && Tells(run, key, window, b, n, expiry)
    requires ExpireOf(run, key, n) ==> expiry.Some? && run[n].at > expiry.value
    ensures Tells(run, key, window, b, n + 1, expiry)
  {
    if expiry.Some? {
      var e: nat :| b < e && SetBy(run, key, window, e, n) && expiry.value == run[e].at + window;
      assert SetBy(run, key, window, e, n + 1);
    }
  }

  lemma NextTells(run: seq<Command>, key: Key, window: nat, b: nat, n: nat)
    requires RunOk(run, key, window) && b < n < |run| && !Born(run, key, n) && key in Counters(run[..n])
    requires Tells(run, key, window, b, n, Counters(run[..n])[key].expiresAt)
    ensures key in Counters(run[..n + 1])
    ensures Tells(run, key, window, b, n + 1, Counters(run[..n + 1])[key].expiresAt)
  {
    var before := Counters(run[..n]);
    RunStep(run, n);
    if IncrOf(run, key, n) {
      BornIffDead(run, key, n);
      StillTells(run, key, window, b, n, before[key].expiresAt);
    } else if ExpireOf(run, key, n) && Live(before, key, run[n].at) {
      ExpireTells(run, key, window, b, n);
    } else {
      StillTells(run, key, window, b, n, before[key].expiresAt);
    }
  }

  lemma {:induction false} CurrentTells(run: seq<Command>, key: Key, window: nat, b: nat, n: nat)
    requires RunOk(run, key, window) && Current(run, key, b, n) && n <= |run|
    ensures key in Counters(run[..n])
    ensures Tells(run, key, window, b, n, Counters(run[..n])[key].expiresAt)
    decreases n
  {
    if n == b + 1 {
      RunStep(run, b);
      BornHasNoExpiry(run, key, b);
    } else {
      CurrentTells(run, key, window, b, n - 1);
      assert !Born(run, key, n - 1);
      NextTells(run, key, window, b, n - 1);
    }
  }

  ghost predicate ExpiresBy(counters: map<Key, Counter>, key: Key, deadline: nat) {
    key in counters && counters[key].expiresAt.Some? && counters[key].expiresAt.value <= deadline
  }

  lemma ExpireBounds(run: seq<Command>, key: Key, window: nat, e: nat)
    requires RunOk(run, key, window) && ExpireOf(run, key, e) && key in Counters(run[..e])
    ensures ExpiresBy(Counters(run[..e + 1]), key, run[e].at + window)
  {
    RunStep(run, e);
  }

  lemma StaysBounded(run: seq<Command>, key: Key, n: nat, deadline: nat)
    requires n < |run| && ExpiresBy(Counters(run[..n]), key, deadline) && !Born(run, key, n)
    requires ExpireOf(run, key, n) ==> run[n].at > deadline
    ensures ExpiresBy(Counters(run[..n + 1]), key, deadline)
  {
    RunStep(run, n);
    if IncrOf(run, key, n) {
      BornIffDead(run, key, n);
    }
  }

  /** When some EXPIRE stands, the stored expiry is no later than its deadline. */
  lemma {:induction false} StandingExpiry(run: seq<Command>, key: Key, window: nat, b: nat, e: nat, n: nat)
    requires RunOk(run, key, window) && Current(run, key, b, n) && n <= |run| && b < e && SetBy(run, key, window, e, n)
    ensures ExpiresBy(Counters(run[..n]), key, run[e].at + window)
    decreases n
  {
    if n == e + 1 {
      CountKept(run, key, b, e);
      ExpireBounds(run, key, window, e);
    } else {
      assert SetBy(run, key, window, e, n - 1);
      StandingExpiry(run, key, window, b, e, n - 1);
      assert !Born(run, key, n - 1);
      StaysBounded(run, key, n - 1, run[e].at + window);
    }
  }

  /** A counter is reset exactly when it has run out: if it is the current one, the next INCR
      starts a new counter if and only if an EXPIRE of it has run and its deadline, unless moved
      in time by another, has passed. */
  lemma ResetIffExpired(run: seq<Command>, key: Key, window: nat, b: nat, n: nat)
    requires RunOk(run, key, window) && Current(run, key, b, n) && IncrOf(run, key, n)
    ensures Born(run, key, n) <==> DeadlinePassed(run, key, window, b, n, run[n].at)
  {
    CurrentTells(run, key, window, b, n);
    BornIffDead(run, key, n);
    if DeadlinePassed(run, key, window, b, n, run[n].at) {
      var e: nat :| b < e && SetBy(run, key, window, e, n) && run[n].at > run[e].at + window;
      StandingExpiry(run, key, window, b, e, n);
    }
  }

  /** When each counter gets the one EXPIRE its first request sends, this is simply: the EXPIRE
      ran, and more than a window has passed since. A request is then let in, whatever was refused before. */
  lemma ResetAWindowAfterExpire(run: seq<Command>, key: Key, limit: nat, window: nat, b: nat, e: nat, n: nat)
    requires RunOk(run, key, window) && Current(run, key, b, n) && IncrOf(run, key, n) && limit >= 1
    requires b < e < n && ExpireOf(run, key, e) && NoExpire(run, key, e, n) && NoExpire(run, key, b, e)
    ensures Born(run, key, n) <==> run[n].at > run[e].at + window
    ensures run[n].at > run[e].at + window ==> Admitted(run, key, limit, n)
  {
    ResetIffExpired(run, key, window, b, n);
    assert SetBy(run, key, window, e, n);
    assert forall f: nat | b < f < n && ExpireOf(run, key, f) :: f == e;
  }

  /** Without an EXPIRE since its birth, a counter is not reset. */
  lemma NotResetWithoutExpire(run: seq<Command>, key: Key, window: nat, b: nat, n: nat)
    requires RunOk(run, key, window) && Current(run, key, b, n) && IncrOf(run, key, n) && NoExpire(run, key, b, n)
    ensures !Born(run, key, n)
  {
    ResetIffExpired(run, key, window, b, n);
  }

  // ----- an EXPIRE that never comes -----

  ghost predicate NeverExpires(counters: map<Key, Counter>, key: Key) {
    key in counters && counters[key].expiresAt.None? && counters[key].count >= 1
  }

  lemma StillNeverExpires(run: seq<Command>, key: Key, n: nat)
    requires n < |run| && NeverExpires(Counters(run[..n]), key) && !(run[n].Expire? && run[n].key == key)
    ensures NeverExpires(Counters(run[..n + 1]), key) && !Born(run, key, n)
  {
    RunStep(run, n);
  }

  lemma {:induction false} StaysWithoutExpiry(run: seq<Command>, key: Key, b: nat, n: nat)
    requires Born(run, key, b) && b < n <= |run|
    requires forall k | b < k < |run| :: !(run[k].Expire? && run[k].key == key)
    ensures NeverExpires(Counters(run[..n]), key) && NoneBorn(run, key, b + 1, n)
    decreases n
  {
    if n == b + 1 {
      BornHasNoExpiry(run, key, b);
    } else {
      StaysWithoutExpiry(run, key, b, n - 1);
      StillNeverExpires(run, key, n - 1);
    }
  }

  /** If the process stops between INCR and EXPIRE, the counter never resets: from then on the
      client gets at most `limit` requests in all, however long it waits. */
  lemma LostExpireLocksOut(run: seq<Command>, key: Key, limit: nat, b: nat, group: set<nat>)
    requires Born(run, key, b)
    requires forall k | b < k < |run| :: !(run[k].Expire? && run[k].key == key)
    requires AllAdmitted(run, key, limit, group) && forall i | i in group :: b <= i
    ensures |group| <= limit
  {
    StaysWithoutExpiry(run, key, b, |run|);
    assert NoneBorn(run, key, b + 1, |run|);
    assert OneLifetime(run, key, group);
    LimitPerLifetime(run, key, limit, group);
  }

  // ----- the bound is reached -----

  function Burst(key: Key, at: nat, n: nat): seq<Command> {
    seq(n, _ => Incr(key, at))
  }

  /** A first request, `limit - 1` more at the end of its window, `limit` as the next one opens. */
  function Straddling(key: Key, limit: nat, windowSeconds: Seconds): seq<Command>
    requires limit >= 1
  {
    [Incr(key, 0), Expire(key, windowSeconds, 0)]
    + Burst(key, windowSeconds * 1000, limit - 1) + Burst(key, windowSeconds * 1000 + 1, limit)
  }

  /** `n` INCRs at one moment on a live counter. */
  ghost predicate IsBurst(run: seq<Command>, key: Key, at: nat, from: nat, n: nat) {
    from + n <= |run| && forall i | from <= i < from + n :: run[i] == Incr(key, at)
  }

  lemma {:induction false} BurstEnd(run: seq<Command>, key: Key, at: nat, from: nat, n: nat, counter: Counter)
    requires IsBurst(run, key, at, from, n)
    requires Live(Counters(run[..from]), key, at) && Counters(run[..from])[key] == counter
    ensures key in Counters(run[..from + n]) && Counters(run[..from + n])[key] == counter.(count := counter.count + n)
  {
    if n > 0 {
      BurstEnd(run, key, at, from, n - 1, counter);
      RunStep(run, from + n - 1);
    }
  }

  lemma BurstCounts(run: seq<Command>, key: Key, at: nat, from: nat, n: nat, counter: Counter, limit: nat)
    requires IsBurst(run, key, at, from, n) && counter.count + n <= limit
    requires Live(Counters(run[..from]), key, at) && Counters(run[..from])[key] == counter
    ensures forall i | from <= i < from + n :: Admitted(run, key, limit, i)
  {
    forall i | from <= i < from + n ensures Admitted(run, key, limit, i) {
      BurstEnd(run, key, at, from, i + 1 - from, counter);
    }
  }

  ghost function Range(low: nat, n: nat): (r: set<nat>)
    ensures |r| == n && forall i :: i in r <==> low <= i < low + n
  {
    if n == 0 then {} else Range(low, n - 1) + {low + n - 1}
  }

  ghost predicate Straddles(run: seq<Command>, key: Key, limit: nat, windowSeconds: Seconds) {
    && limit >= 1 && |run| == 2 * limit + 1 && run[0] == Incr(key, 0) && run[1] == Expire(key, windowSeconds, 0)
    && IsBurst(run, key, windowSeconds * 1000, 2, limit - 1)
    && IsBurst(run, key, windowSeconds * 1000 + 1, limit + 1, limit)
  }

  lemma StraddlingStraddles(key: Key, limit: nat, windowSeconds: Seconds)
    requires limit >= 1
    ensures Straddles(Straddling(key, limit, windowSeconds), key, limit, windowSeconds)
  {
  }

  lemma StraddlingOk(run: seq<Command>, key: Key, limit: nat, windowSeconds: Seconds)
    requires Straddles(run, key, limit, windowSeconds)
    ensures RunOk(run, key, windowSeconds * 1000)
  {
    var window := windowSeconds * 1000;
    forall i | 0 <= i < |run|
      ensures i >= 2 ==> run[i] == Incr(key, if i < limit + 1 then window else window + 1)
    {
    }
  }

  lemma StraddlingInWindow(run: seq<Command>, key: Key, limit: nat, windowSeconds: Seconds)
    requires Straddles(run, key, limit, windowSeconds)
    requires forall i | 2 <= i < 2 * limit + 1 :: Admitted(run, key, limit, i)
    ensures InWindow(run, key, limit, windowSeconds * 1000, windowSeconds * 1000, Range(2, 2 * limit - 1))
  {
    var window, group := windowSeconds * 1000, Range(2, 2 * limit - 1);
    forall i | i in group ensures Admitted(run, key, limit, i) && window <= run[i].at < window + window {
      assert run[i] == Incr(key, if i < limit + 1 then window else window + 1);
    }
  }

  /** The counter opened at 0 takes every request up to the turn of the window. */
  lemma BeforeTheTurn(run: seq<Command>, key: Key, limit: nat, windowSeconds: Seconds)
    requires limit >= 1 && |run| >= limit + 1
    requires run[0] == Incr(key, 0) && run[1] == Expire(key, windowSeconds, 0)
    requires IsBurst(run, key, windowSeconds * 1000, 2, limit - 1)
    ensures key in Counters(run[..limit + 1])
    ensures Counters(run[..limit + 1])[key] == Counter(limit, Some(windowSeconds * 1000))
    ensures forall i | 2 <= i < limit + 1 :: Admitted(run, key, limit, i)
  {
    RunStep(run, 0);
    RunStep(run, 1);
    assert run[..0] == [];
    BurstEnd(run, key, windowSeconds * 1000, 2, limit - 1, Counter(1, Some(windowSeconds * 1000)));
    BurstCounts(run, key, windowSeconds * 1000, 2, limit - 1, Counter(1, Some(windowSeconds * 1000)), limit);
  }

  /** At the turn a new counter opens and takes as many again. */
  lemma AfterTheTurn(run: seq<Command>, key: Key, limit: nat, window: nat)
    requires limit >= 1 && |run| >= 2 * limit + 1 && IsBurst(run, key, window + 1, limit + 1, limit)
    requires key in Counters(run[..limit + 1]) && Counters(run[..limit + 1])[key] == Counter(limit, Some(window))
    ensures forall i | limit + 1 <= i < 2 * limit + 1 :: Admitted(run, key, limit, i)
  {
    RunStep(run, limit + 1);
    assert run[limit + 1] == Incr(key, window + 1);
    BurstCounts(run, key, window + 1, limit + 2, limit - 1, Counter(1, None), limit);
  }

  /** `LimitPerWindow` cannot be improved: `2 * limit - 1` requests do get in within a window. */
  lemma LimitPerWindowIsReached(key: Key, limit: nat, windowSeconds: Seconds)
    requires limit >= 1
    ensures var run, window := Straddling(key, limit, windowSeconds), windowSeconds * 1000;
            var group := Range(2, 2 * limit - 1);
            RunOk(run, key, window) && InWindow(run, key, limit, window, window, group) && |group| == 2 * limit - 1
  {
    var run := Straddling(key, limit, windowSeconds);
    StraddlingStraddles(key, limit, windowSeconds);
    StraddlingOk(run, key, limit, windowSeconds);
    BeforeTheTurn(run, key, limit, windowSeconds);
    AfterTheTurn(run, key, limit, windowSeconds * 1000);
    StraddlingInWindow(run, key, limit, windowSeconds);
  }
}
