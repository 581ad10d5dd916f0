/**
 * The fixed-window rate limiter of src/utils/rateLimiter.js: per user an hourly
 * and a daily counter, each with the time at which it resets, and a sliding
 * list of the request times of the last minute.
 */
module WindowRateLimiter {
  import opened Wrappers
  import Seqs

  const Minute: int := 60000
  const Hour: int := 3600000
  const Day: int := 86400000

  datatype Config = Config(enabled: bool, requestsPerHour: int, requestsPerDay: int, burstLimit: int)

  /** `config || {enabled: true, requests_per_hour: 10, requests_per_day: 50, burst_limit: 3}`. */
  function ConfigOrDefault(config: Option<Config>): (c: Config)
    ensures config.None? ==> c == Config(true, 10, 50, 3)
    ensures config.Some? ==> c == config.value
  {
    if config.Some? then config.value else Config(true, 10, 50, 3)
  }

  /** A fixed window: how many requests it counted and when it resets. */
  datatype Window = Window(count: int, resetTime: int)

  /** The three tables, keyed by user id. */
  datatype Tables = Tables(hourly: map<int, Window>, daily: map<int, Window>, burst: map<int, seq<int>>)

  /** The burst window keeps the times less than a minute ago. */
  function Prune(ts: seq<int>, now: int): (r: seq<int>)
    ensures |r| <= |ts|
    ensures forall t :: t in r <==> t in ts && now - t < Minute
    ensures forall t :: Seqs.Count(r, t) == if now - t < Minute then Seqs.Count(ts, t) else 0
    ensures Seqs.IsSubsequence(r, ts)
    decreases |ts|
  {
    if ts == [] then []
    else
      var rest := Prune(ts[1..], now);
      Seqs.CountCons(ts[0], ts[1..]);
      assert [ts[0]] + ts[1..] == ts;
      if now - ts[0] < Minute then Seqs.CountCons(ts[0], rest); [ts[0]] + rest else rest
  }

  function BurstOf(t: Tables, u: int): seq<int>
  {
    if u in t.burst then t.burst[u] else []
  }

  /**
   * The window a check uses: the stored one, created when absent, and
   * restarted at count 0 when its reset time has passed.
   */
  function Refresh(w: Option<Window>, now: int, len: int): (r: Window)
    requires len >= 0
    ensures r.resetTime >= now
    ensures w.Some? && now <= w.value.resetTime ==> r == w.value
    ensures !(w.Some? && now <= w.value.resetTime) ==> r == Window(0, now + len)
  {
    var w0 := if w.Some? then w.value else Window(0, now + len);
    if now > w0.resetTime then Window(0, now + len) else w0
  }

  function Find(m: map<int, Window>, u: int): Option<Window>
  {
    if u in m then Some(m[u]) else None
  }

  /** recordRequest: the burst list always grows; a counter grows only when its entry exists. */
  function RecordIn(t: Tables, u: int, now: int): (r: Tables)
    ensures r.burst == t.burst[u := BurstOf(t, u) + [now]]
    ensures r.hourly.Keys == t.hourly.Keys && r.daily.Keys == t.daily.Keys
    ensures forall v :: v in t.hourly ==> r.hourly[v] == if v == u then t.hourly[v].(count := t.hourly[v].count + 1) else t.hourly[v]
    ensures forall v :: v in t.daily ==> r.daily[v] == if v == u then t.daily[v].(count := t.daily[v].count + 1) else t.daily[v]
  {
    Tables(
      if u in t.hourly then t.hourly[u := t.hourly[u].(count := t.hourly[u].count + 1)] else t.hourly,
      if u in t.daily then t.daily[u := t.daily[u].(count := t.daily[u].count + 1)] else t.daily,
      t.burst[u := BurstOf(t, u) + [now]])
  }

  /**
   * checkLimit on the tables: burst, hourly, daily in that order, each
   * check updating its own table; the request is recorded only when all pass.
   */
  function Check(cfg: Config, t: Tables, u: int, now: int): (r: (Tables, bool))
    ensures r.1 <==> (!cfg.enabled
                      || (|Prune(BurstOf(t, u), now)| < cfg.burstLimit
                          && Refresh(Find(t.hourly, u), now, Hour).count < cfg.requestsPerHour
                          && Refresh(Find(t.daily, u), now, Day).count < cfg.requestsPerDay))
    ensures cfg.enabled && r.1 ==> BurstOf(r.0, u) == Prune(BurstOf(t, u), now) + [now]
    ensures cfg.enabled && !r.1 ==> BurstOf(r.0, u) == Prune(BurstOf(t, u), now)
  {
    if !cfg.enabled then (t, true)
    else
      var ts := Prune(BurstOf(t, u), now);
      var t1 := t.(burst := t.burst[u := ts]);
      if !(|ts| < cfg.burstLimit) then (t1, false)
      else
        var h := Refresh(Find(t.hourly, u), now, Hour);
        var t2 := t1.(hourly := t1.hourly[u := h]);
        if !(h.count < cfg.requestsPerHour) then (t2, false)
        else
          var d := Refresh(Find(t.daily, u), now, Day);
          var t3 := t2.(daily := t2.daily[u := d]);
          if !(d.count < cfg.requestsPerDay) then (t3, false)
          else (RecordIn(t3, u, now), true)
  }

  datatype Usage = Usage(used: int, limit: int, resetIn: int)
  datatype UserStats = UserStats(hourly: Usage, daily: Usage, burstUsed: nat, burstLimit: int)

  /** getUserStats: unknown users count as unused with reset time 0. */
  function StatsOf(cfg: Config, t: Tables, u: int, now: int): (s: UserStats)
    ensures s.hourly.resetIn >= 0 && s.daily.resetIn >= 0
    ensures u !in t.hourly ==> s.hourly == Usage(0, cfg.requestsPerHour, Max(0, -now))
    ensures u !in t.daily ==> s.daily == Usage(0, cfg.requestsPerDay, Max(0, -now))
    ensures u !in t.burst ==> s.burstUsed == 0
    ensures s.hourly.limit == cfg.requestsPerHour && s.daily.limit == cfg.requestsPerDay
    ensures s.burstLimit == cfg.burstLimit && s.burstUsed == |BurstOf(t, u)|
    ensures u in t.hourly ==> s.hourly.used == t.hourly[u].count
    ensures u in t.hourly && t.hourly[u].resetTime > now ==> s.hourly.resetIn == t.hourly[u].resetTime - now
    ensures u in t.hourly && t.hourly[u].resetTime <= now ==> s.hourly.resetIn == 0
    ensures u in t.daily ==> s.daily.used == t.daily[u].count
    ensures u in t.daily && t.daily[u].resetTime > now ==> s.daily.resetIn == t.daily[u].resetTime - now
    ensures u in t.daily && t.daily[u].resetTime <= now ==> s.daily.resetIn == 0
  {
    var h := if u in t.hourly then t.hourly[u] else Window(0, 0);
    var d := if u in t.daily then t.daily[u] else Window(0, 0);
    UserStats(
      Usage(h.count, cfg.requestsPerHour, Max(0, h.resetTime - now)),
      Usage(d.count, cfg.requestsPerDay, Max(0, d.resetTime - now)),
      |BurstOf(t, u)|, cfg.burstLimit)
  }

  function Max(a: int, b: int): int
  {
    if a >= b then a else b
  }

  /** Math.ceil(a / 1000) for a non-negative a. */
  function CeilSeconds(ms: int): (s: int)
    requires ms >= 0
    ensures s >= 0 && (s - 1) * 1000 < ms <= s * 1000
  {
    -((-ms) / 1000)
  }

  /** getRemainingTime: seconds until the exhausted window resets, hourly first; 0 when neither is exhausted. */
  function RemainingTime(cfg: Config, t: Tables, u: int, now: int): (r: int)
    ensures r >= 0
    ensures var s := StatsOf(cfg, t, u, now);
      s.hourly.used < s.hourly.limit && s.daily.used < s.daily.limit ==> r == 0
    ensures var s := StatsOf(cfg, t, u, now);
      s.hourly.used >= s.hourly.limit ==> (r - 1) * 1000 < s.hourly.resetIn <= r * 1000
    ensures var s := StatsOf(cfg, t, u, now);
      s.hourly.used < s.hourly.limit && s.daily.used >= s.daily.limit ==> (r - 1) * 1000 < s.daily.resetIn <= r * 1000
  {
    var s := StatsOf(cfg, t, u, now);
    if s.hourly.used >= s.hourly.limit then CeilSeconds(s.hourly.resetIn)
    else if s.daily.used >= s.daily.limit then CeilSeconds(s.daily.resetIn)
    else 0
  }

  /** The tables after cleanup. */
  function Cleaned(t: Tables, now: int): Tables
  {
    Tables(
      map u | u in t.hourly && !(now > t.hourly[u].resetTime) :: t.hourly[u],
      map u | u in t.daily && !(now > t.daily[u].resetTime) :: t.daily[u],
      map u | u in t.burst && Prune(t.burst[u], now) != [] :: Prune(t.burst[u], now))
  }

  class RateLimiter {
    const config: Config
    var hourlyRequests: map<int, Window>
    var dailyRequests: map<int, Window>
    var burstRequests: map<int, seq<int>>

    function State(): Tables
      reads this
    {
      Tables(hourlyRequests, dailyRequests, burstRequests)
    }

    constructor (config: Option<Config>)
      ensures this.config == ConfigOrDefault(config)
      ensures State() == Tables(map[], map[], map[])
    {
      this.config := ConfigOrDefault(config);
      hourlyRequests := map[];
      dailyRequests := map[];
      burstRequests := map[];
    }

    method CheckLimit(userId: int, now: int) returns (ok: bool)
      modifies this
      ensures (State(), ok) == Check(config, old(State()), userId, now)
    {
      if !config.enabled {
        return true;
      }
      ok := CheckBurstLimit(userId, now);
      if !ok {
        return false;
      }
      ok := CheckHourlyLimit(userId, now);
      if !ok {
        return false;
      }
      ok := CheckDailyLimit(userId, now);
      if !ok {
        return false;
      }
      RecordRequest(userId, now);
      return true;
    }

    method CheckBurstLimit(userId: int, now: int) returns (ok: bool)
      modifies this
      ensures burstRequests == old(burstRequests)[userId := Prune(BurstOf(old(State()), userId), now)]
      ensures hourlyRequests == old(hourlyRequests) && dailyRequests == old(dailyRequests)
      ensures ok <==> |burstRequests[userId]| < config.burstLimit
    {
      if userId !in burstRequests {
        burstRequests := burstRequests[userId := []];
      }
      var timestamps := Prune(burstRequests[userId], now);
      burstRequests := burstRequests[userId := timestamps];
      ok := |timestamps| < config.burstLimit;
    }

    method CheckHourlyLimit(userId: int, now: int) returns (ok: bool)
      modifies this
      ensures hourlyRequests == old(hourlyRequests)[userId := Refresh(Find(old(hourlyRequests), userId), now, Hour)]
      ensures burstRequests == old(burstRequests) && dailyRequests == old(dailyRequests)
      ensures ok <==> hourlyRequests[userId].count < config.requestsPerHour
    {
      if userId !in hourlyRequests {
        hourlyRequests := hourlyRequests[userId := Window(0, now + Hour)];
      }
      var w := hourlyRequests[userId];
      if now > w.resetTime {
        w := Window(0, now + Hour);
        hourlyRequests := hourlyRequests[userId := w];
      }
      ok := w.count < config.requestsPerHour;
    }

    method CheckDailyLimit(userId: int, now: int) returns (ok: bool)
      modifies this
      ensures dailyRequests == old(dailyRequests)[userId := Refresh(Find(old(dailyRequests), userId), now, Day)]
      ensures burstRequests == old(burstRequests) && hourlyRequests == old(hourlyRequests)
      ensures ok <==> dailyRequests[userId].count < config.requestsPerDay
    {
      if userId !in dailyRequests {
        dailyRequests := dailyRequests[userId := Window(0, now + Day)];
      }
      var w := dailyRequests[userId];
      if now > w.resetTime {
        w := Window(0, now + Day);
        dailyRequests := dailyRequests[userId := w];
      }
      ok := w.count < config.requestsPerDay;
    }

    method RecordRequest(userId: int, now: int)
      modifies this
      ensures State() == RecordIn(old(State()), userId, now)
    {
      ghost var t := State();
      ghost var r := RecordIn(t, userId, now);
      if userId !in burstRequests {
        burstRequests := burstRequests[userId := []];
        Seqs.Overwrite(t.burst, userId, [], [] + [now]);
      }
      burstRequests := burstRequests[userId := burstRequests[userId] + [now]];
      assert burstRequests == r.burst;
      if userId in hourlyRequests {
        hourlyRequests := hourlyRequests[userId := hourlyRequests[userId].(count := hourlyRequests[userId].count + 1)];
      }
      assert hourlyRequests == r.hourly;
      if userId in dailyRequests {
        dailyRequests := dailyRequests[userId := dailyRequests[userId].(count := dailyRequests[userId].count + 1)];
      }
      assert dailyRequests == r.daily;
    }

    method GetUserStats(userId: int, now: int) returns (s: UserStats)
      ensures s == StatsOf(config, State(), userId, now)
    {
      var h := if userId in hourlyRequests then hourlyRequests[userId] else Window(0, 0);
      var d := if userId in dailyRequests then dailyRequests[userId] else Window(0, 0);
      var b := if userId in burstRequests then burstRequests[userId] else [];
      s := UserStats(
        Usage(h.count, config.requestsPerHour, Max(0, h.resetTime - now)),
        Usage(d.count, config.requestsPerDay, Max(0, d.resetTime - now)),
        |b|, config.burstLimit);
    }

    method GetRemainingTime(userId: int, now: int) returns (r: int)
      ensures r == RemainingTime(config, State(), userId, now)
    {
      var stats := GetUserStats(userId, now);
      if stats.hourly.used >= stats.hourly.limit {
        return CeilSeconds(stats.hourly.resetIn);
      }
      if stats.daily.used >= stats.daily.limit {
        return CeilSeconds(stats.daily.resetIn);
      }
      return 0;
    }

    /** cleanup: three passes, one per table. */
    method Cleanup(now: int)
      modifies this
      ensures State() == Cleaned(old(State()), now)
    {
      CleanupHourly(now);
      CleanupDaily(now);
      CleanupBurst(now);
    }

    /** Deletes the hourly windows whose reset time has passed. */
    method CleanupHourly(now: int)
      modifies this
      ensures hourlyRequests == Cleaned(old(State()), now).hourly
      ensures dailyRequests == old(dailyRequests) && burstRequests == old(burstRequests)
    {
      ghost var m0 := hourlyRequests;
      var pending := hourlyRequests.Keys;
      while pending != {}
        invariant pending <= m0.Keys
        invariant hourlyRequests == map u | u in m0 && (u in pending || !(now > m0[u].resetTime)) :: m0[u]
        invariant dailyRequests == old(dailyRequests) && burstRequests == old(burstRequests)
        decreases pending
      {
        HasElement(pending);
        var u :| u in pending;
        if now > hourlyRequests[u].resetTime {
          hourlyRequests := map k | k in hourlyRequests && k != u :: hourlyRequests[k];
        }
        pending := pending - {u};
      }
    }

    /** Deletes the daily windows whose reset time has passed. */
    method CleanupDaily(now: int)
      modifies this
      ensures dailyRequests == Cleaned(old(State()), now).daily
      ensures hourlyRequests == old(hourlyRequests) && burstRequests == old(burstRequests)
    {
      ghost var m0 := dailyRequests;
      var pending := dailyRequests.Keys;
      while pending != {}
        invariant pending <= m0.Keys
        invariant dailyRequests == map u | u in m0 && (u in pending || !(now > m0[u].resetTime)) :: m0[u]
        invariant hourlyRequests == old(hourlyRequests) && burstRequests == old(burstRequests)
        decreases pending
      {
        HasElement(pending);
        var u :| u in pending;
        if now > dailyRequests[u].resetTime {
          dailyRequests := map k | k in dailyRequests && k != u :: dailyRequests[k];
        }
        pending := pending - {u};
      }
    }

    /** Prunes every burst list and deletes the lists left empty. */
    method CleanupBurst(now: int)
      modifies this
      ensures burstRequests == Cleaned(old(State()), now).burst
      ensures hourlyRequests == old(hourlyRequests) && dailyRequests == old(dailyRequests)
    {
      ghost var m0 := burstRequests;
      var pending := burstRequests.Keys;
      while pending != {}
        invariant pending <= m0.Keys
        invariant burstRequests == PartlyPruned(m0, pending, now)
        invariant hourlyRequests == old(hourlyRequests) && dailyRequests == old(dailyRequests)
        decreases pending
      {
        HasElement(pending);
        var u :| u in pending;
        PruneStep(m0, pending, now, u);
        var timestamps := Prune(burstRequests[u], now);
        if timestamps == [] {
          burstRequests := map k | k in burstRequests && k != u :: burstRequests[k];
        } else {
          burstRequests := burstRequests[u := timestamps];
        }
        pending := pending - {u};
      }
      assert burstRequests == PartlyPruned(m0, {}, now);
    }
  }

  /** The burst table part way through the cleanup: the users still pending keep their lists. */
  ghost function PartlyPruned(m0: map<int, seq<int>>, pending: set<int>, now: int): map<int, seq<int>>
  {
    map u | u in m0 && (u in pending || Prune(m0[u], now) != []) :: if u in pending then m0[u] else Prune(m0[u], now)
  }

  /** Pruning one pending user's list, or deleting it once empty, moves the user out of pending. */
  lemma PruneStep(m0: map<int, seq<int>>, pending: set<int>, now: int, u: int)
    requires u in pending && pending <= m0.Keys
    ensures var cur := PartlyPruned(m0, pending, now);
      u in cur && cur[u] == m0[u]
      && var t := Prune(m0[u], now);
      PartlyPruned(m0, pending - {u}, now) == if t == [] then (map k | k in cur && k != u :: cur[k]) else cur[u := t]
  {
  }

  lemma HasElement(s: set<int>)
    requires s != {}
    ensures exists x :: x in s
  {
    assert (forall x :: x !in s) ==> s == {};
  }

  /** With the limiter disabled every request passes and nothing is recorded. */
  lemma DisabledAllowsAll(cfg: Config, t: Tables, u: int, now: int)
    requires !cfg.enabled
    ensures Check(cfg, t, u, now) == (t, true)
  {
  }

  /**
   * A request is recorded (its time appended to the burst list) exactly when
   * it is allowed; a failing check leaves the tables of the later checks alone.
   */
  lemma RecordedIffAllowed(cfg: Config, t: Tables, u: int, now: int)
    requires cfg.enabled
    ensures var (t', ok) := Check(cfg, t, u, now);
      u in t'.burst && (ok <==> t'.burst[u] == Prune(BurstOf(t, u), now) + [now])
    ensures var (t', ok) := Check(cfg, t, u, now);
      !ok ==> t'.burst[u] == Prune(BurstOf(t, u), now)
    ensures var (t', ok) := Check(cfg, t, u, now);
      !(|Prune(BurstOf(t, u), now)| < cfg.burstLimit) ==> !ok && t'.hourly == t.hourly && t'.daily == t.daily
    ensures var (t', ok) := Check(cfg, t, u, now);
      ok ==> t'.hourly[u].count == Refresh(Find(t.hourly, u), now, Hour).count + 1
             && t'.daily[u].count == Refresh(Find(t.daily, u), now, Day).count + 1
  {
    var ts := Prune(BurstOf(t, u), now);
    assert |ts + [now]| == |ts| + 1;
  }

  /**
   * After an allowed request the statistics show every reported use within
   * its limit, and the request itself in the burst list.
   */
  lemma AllowedShowsInStats(cfg: Config, t: Tables, u: int, now: int)
    requires cfg.enabled && Check(cfg, t, u, now).1
    ensures var s := StatsOf(cfg, Check(cfg, t, u, now).0, u, now);
      s.hourly.used <= s.hourly.limit && s.daily.used <= s.daily.limit
      && 1 <= s.burstUsed <= s.burstLimit
  {
  }

  /** A sequence of checks: how many passed, and the final tables. */
  function CheckAll(cfg: Config, t: Tables, u: int, times: seq<int>): (int, Tables)
    decreases |times|
  {
    if times == [] then (0, t)
    else
      var (t1, ok) := Check(cfg, t, u, times[0]);
      var (n, t2) := CheckAll(cfg, t1, u, times[1..]);
      ((if ok then 1 else 0) + n, t2)
  }

  function CountFrom(ts: seq<int>, t0: int): nat
    decreases |ts|
  {
    if ts == [] then 0 else (if ts[0] >= t0 then 1 else 0) + CountFrom(ts[1..], t0)
  }

  lemma {:induction false} CountFromAppend(a: seq<int>, b: seq<int>, t0: int)
    ensures CountFrom(a + b, t0) == CountFrom(a, t0) + CountFrom(b, t0)
    decreases |a|
  {
    if a == [] {
      assert a + b == b;
    } else {
      assert (a + b)[1..] == a[1..] + b;
      CountFromAppend(a[1..], b, t0);
    }
  }

  /** Pruning within a minute of t0 keeps every time from t0 on. */
  lemma {:induction false} CountFromPrune(ts: seq<int>, now: int, t0: int)
    requires now < t0 + Minute
    ensures CountFrom(Prune(ts, now), t0) == CountFrom(ts, t0)
    ensures CountFrom(ts, t0) <= |Prune(ts, now)|
    decreases |ts|
  {
    if ts != [] {
      CountFromPrune(ts[1..], now, t0);
      CountFromAppend(if now - ts[0] < Minute then [ts[0]] else [], Prune(ts[1..], now), t0);
    }
  }

  lemma {:induction false} BurstBoundFrom(cfg: Config, t: Tables, u: int, times: seq<int>, t0: int, a: nat)
    requires cfg.enabled
    requires forall i :: 0 <= i < |times| ==> t0 <= times[i] < t0 + Minute
    requires CountFrom(BurstOf(t, u), t0) >= a
    requires a <= Max(cfg.burstLimit, 0)
    ensures a + CheckAll(cfg, t, u, times).0 <= Max(cfg.burstLimit, 0)
    decreases |times|
  {
    if times != [] {
      var now := times[0];
      var ts := Prune(BurstOf(t, u), now);
      CountFromPrune(BurstOf(t, u), now, t0);
      RecordedIffAllowed(cfg, t, u, now);
      var (t1, ok) := Check(cfg, t, u, now);
      if ok {
        CountFromAppend(ts, [now], t0);
      }
      BurstBoundFrom(cfg, t1, u, times[1..], t0, a + if ok then 1 else 0);
    }
  }

  /** Within any 60 seconds at most burst_limit requests of a user pass. */
  lemma BurstBound(cfg: Config, t: Tables, u: int, times: seq<int>, t0: int)
    requires cfg.enabled
    requires forall i :: 0 <= i < |times| ==> t0 <= times[i] < t0 + Minute
    ensures CheckAll(cfg, t, u, times).0 <= Max(cfg.burstLimit, 0)
  {
    BurstBoundFrom(cfg, t, u, times, t0, 0);
  }

  /**
   * While the hourly window of a user has not expired, the requests that pass
   * are at most what is left of requests_per_hour.
   */
  lemma {:induction false} HourlyWindowBound(cfg: Config, t: Tables, u: int, times: seq<int>)
    requires cfg.enabled && u in t.hourly
    requires forall i :: 0 <= i < |times| ==> times[i] <= t.hourly[u].resetTime
    ensures CheckAll(cfg, t, u, times).0 <= Max(cfg.requestsPerHour - t.hourly[u].count, 0)
    decreases |times|
  {
    if times != [] {
      var now := times[0];
      RecordedIffAllowed(cfg, t, u, now);
      var (t1, ok) := Check(cfg, t, u, now);
      assert t1.hourly[u].resetTime == t.hourly[u].resetTime;
      assert t1.hourly[u].count == t.hourly[u].count + if ok then 1 else 0;
      assert ok ==> t.hourly[u].count < cfg.requestsPerHour;
      HourlyWindowBound(cfg, t1, u, times[1..]);
    }
  }

  /** Pruning at a later time after an earlier pruning is the same as the later pruning alone. */
  lemma {:induction false} PruneTwice(ts: seq<int>, now0: int, now: int)
    requires now0 <= now
    ensures Prune(Prune(ts, now0), now) == Prune(ts, now)
    decreases |ts|
  {
    if ts != [] {
      PruneTwice(ts[1..], now0, now);
      var head := if now0 - ts[0] < Minute then [ts[0]] else [];
      PruneAppend(head, Prune(ts[1..], now0), now);
    }
  }

  lemma {:induction false} PruneAppend(a: seq<int>, b: seq<int>, now: int)
    ensures Prune(a + b, now) == Prune(a, now) + Prune(b, now)
    decreases |a|
  {
    if a == [] {
      assert a + b == b;
    } else {
      assert (a + b)[1..] == a[1..] + b;
      PruneAppend(a[1..], b, now);
      PruneHead(a + b, now);
      PruneHead(a, now);
    }
  }

  /** One step of pruning: the first time is kept exactly when it is recent. */
  lemma PruneHead(ts: seq<int>, now: int)
    requires ts != []
    ensures Prune(ts, now) == (if now - ts[0] < Minute then [ts[0]] else []) + Prune(ts[1..], now)
  {
  }

  /** What a check does for a user depends only on the user's pruned list and refreshed windows. */
  lemma CheckLocal(cfg: Config, t: Tables, c: Tables, u: int, now: int)
    requires cfg.enabled
    requires Prune(BurstOf(c, u), now) == Prune(BurstOf(t, u), now)
    requires Refresh(Find(c.hourly, u), now, Hour) == Refresh(Find(t.hourly, u), now, Hour)
    requires Refresh(Find(c.daily, u), now, Day) == Refresh(Find(t.daily, u), now, Day)
    ensures var (a, okA) := Check(cfg, t, u, now);
            var (b, okB) := Check(cfg, c, u, now);
      okA == okB && a.burst[u] == b.burst[u]
      && (okA ==> u in a.hourly && u in b.hourly && a.hourly[u] == b.hourly[u]
                  && u in a.daily && u in b.daily && a.daily[u] == b.daily[u])
  {
  }

  /**
   * Cleanup is invisible to later checks: whether a request passes and the
   * user's burst list afterwards are the same as without the cleanup, and so
   * are the user's counters when it passes.
   */
  lemma CleanupUnobservable(cfg: Config, t: Tables, u: int, now0: int, now: int)
    requires now0 <= now && cfg.enabled
    ensures var (a, okA) := Check(cfg, t, u, now);
            var (b, okB) := Check(cfg, Cleaned(t, now0), u, now);
      okA == okB && a.burst[u] == b.burst[u]
      && (okA ==> u in a.hourly && u in b.hourly && a.hourly[u] == b.hourly[u]
                  && u in a.daily && u in b.daily && a.daily[u] == b.daily[u])
  {
    var c := Cleaned(t, now0);
    PruneTwice(BurstOf(t, u), now0, now);
    if u in t.burst && Prune(t.burst[u], now0) == [] {
      assert Prune(BurstOf(t, u), now) == [];
    }
    CheckLocal(cfg, t, c, u, now);
  }
}
