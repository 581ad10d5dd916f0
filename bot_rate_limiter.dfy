/**
 * The rate limiter the Telegram bot runs: per user, a list of request
 * timestamps (milliseconds), the time of the last recorded request and a
 * counter of requests that came in quick succession.
 */
module BotRateLimiter {
  import opened Wrappers
  import Strs
  import Seqs

  const Minute: int := 60000
  const Hour: int := 3600000
  const Day: int := 86400000

  /** The three limits, fixed when the limiter is constructed. */
  datatype Limits = Limits(requestsPerHour: int, requestsPerDay: int, burstLimit: int)

  datatype UserData = UserData(requests: seq<int>, lastRequest: int, burstCount: int, lastBurstTime: int)

  datatype Reason = BurstLimit | HourlyLimit | DailyLimit

  /** The answer of canMakeRequest; a reset time of None is JavaScript's NaN. */
  datatype Verdict = Allowed | Rejected(reason: Reason, resetIn: Option<int>)

  /**
   * `option || parseInt(env) || default`: the first of the option and the
   * parsed variable that is present and non-zero.
   */
  function Configured(option: Option<int>, env: Option<string>, default: int): (r: int)
    ensures option.Some? && option.value != 0 ==> r == option.value
    ensures (option.None? || option.value == 0) && env.Some? && Strs.ParseInt(env.value).Some?
              && Strs.ParseInt(env.value).value != 0
            ==> r == Strs.ParseInt(env.value).value
    ensures (option.None? || option.value == 0)
              && (env.None? || Strs.ParseInt(env.value).None? || Strs.ParseInt(env.value).value == 0)
            ==> r == default
    ensures default != 0 ==> r != 0
  {
    if option.Some? && option.value != 0 then option.value
    else
      var parsed := if env.Some? then Strs.ParseInt(env.value) else None;
      if parsed.Some? && parsed.value != 0 then parsed.value else default
  }

  function NewUser(): UserData
  {
    UserData([], 0, 0, 0)
  }

  /** The stored record of a user, or the record getUserData would create. */
  function Lookup(m: map<int, UserData>, userId: int): UserData
  {
    if userId in m then m[userId] else NewUser()
  }

  /** `requests.filter(time => time > cutoff)`. */
  function Recent(reqs: seq<int>, cutoff: int): (r: seq<int>)
    ensures |r| <= |reqs|
    ensures forall t :: t in r <==> t in reqs && t > cutoff
    ensures forall t :: Seqs.Count(r, t) == if t > cutoff then Seqs.Count(reqs, t) else 0
    ensures Seqs.IsSubsequence(r, reqs)
    decreases |reqs|
  {
    if reqs == [] then []
    else
      var rest := Recent(reqs[1..], cutoff);
      Seqs.CountCons(reqs[0], reqs[1..]);
      assert [reqs[0]] + reqs[1..] == reqs;
      if reqs[0] > cutoff then Seqs.CountCons(reqs[0], rest); [reqs[0]] + rest else rest
  }

  /**
   * checkBurstLimit: the counter update, which happens whether or not the
   * check fires, and whether it fires.
   */
  function BurstCheck(d: UserData, now: int, burstLimit: int): (r: (UserData, bool))
    ensures r.0 == d.(burstCount := r.0.burstCount)
    ensures now - d.lastRequest < 10000 ==> r.0.burstCount == d.burstCount + 1
    ensures 10000 <= now - d.lastRequest < Minute ==> r.0.burstCount == 1
    ensures now - d.lastRequest >= Minute ==> r.0.burstCount == 0 && !r.1
    ensures now - d.lastRequest < Minute ==> (r.1 <==> r.0.burstCount >= burstLimit)
  {
    var gap := now - d.lastRequest;
    if gap < Minute then
      var count := if gap < 10000 then d.burstCount + 1 else 1;
      (d.(burstCount := count), count >= burstLimit)
    else (d.(burstCount := 0), false)
  }

  /** getHourlyResetTime: from the oldest stored request; NaN when there is none. */
  function HourlyResetTime(reqs: seq<int>, now: int): (r: Option<int>)
    ensures r.Some? <==> reqs != []
    ensures r.Some? ==> r.value >= 0
    ensures r.Some? ==> reqs[0] + Hour <= now + r.value && (r.value == 0 || reqs[0] + Hour == now + r.value)
  {
    if reqs == [] then None else Some(Max(0, reqs[0] + Hour - now))
  }

  /** getDailyResetTime: from the oldest request of the last day, 0 when there is none. */
  function DailyResetTime(reqs: seq<int>, now: int): (r: int)
    ensures r >= 0
    ensures Recent(reqs, now - Day) == [] ==> r == 0
    ensures var recent := Recent(reqs, now - Day);
      recent != [] ==> recent[0] + Day <= now + r && (r == 0 || recent[0] + Day == now + r)
  {
    var recent := Recent(reqs, now - Day);
    if recent != [] then Max(0, recent[0] + Day - now) else 0
  }

  function Max(a: int, b: int): int
  {
    if a >= b then a else b
  }

  /**
   * The checks run burst, hourly, daily and the first that fires sets the
   * reason and the reset time; a burst rejection leaves the list unpruned.
   */
  predicate FirstFiringDecides(lim: Limits, d: UserData, now: int, r: (UserData, Verdict))
  {
    var (d1, burst) := BurstCheck(d, now, lim.burstLimit);
    var hour := Recent(d.requests, now - Hour);
    (burst ==> r == (d1, Rejected(BurstLimit, Some(Minute))))
    && (!burst && |hour| >= lim.requestsPerHour ==> r.1 == Rejected(HourlyLimit, HourlyResetTime(hour, now)))
    && (!burst && |hour| < lim.requestsPerHour && |Recent(hour, now - Day)| >= lim.requestsPerDay ==>
          r.1 == Rejected(DailyLimit, Some(DailyResetTime(hour, now))))
  }

  /**
   * canMakeRequest on one user's record: burst, then hourly (which prunes the
   * stored list to the last hour), then daily; the first check that fires
   * decides. Returns the updated record and the verdict.
   */
  function Check(lim: Limits, d: UserData, now: int): (r: (UserData, Verdict))
    ensures r.0.lastRequest == d.lastRequest && |r.0.requests| <= |d.requests|
    ensures r.0.burstCount == BurstCheck(d, now, lim.burstLimit).0.burstCount
    ensures !BurstCheck(d, now, lim.burstLimit).1 ==> r.0.requests == Recent(d.requests, now - Hour)
    ensures r.1.Allowed? <==>
              !BurstCheck(d, now, lim.burstLimit).1
              && |Recent(d.requests, now - Hour)| < lim.requestsPerHour
              && |Recent(Recent(d.requests, now - Hour), now - Day)| < lim.requestsPerDay
    ensures FirstFiringDecides(lim, d, now, r)
  {
    var (d1, burst) := BurstCheck(d, now, lim.burstLimit);
    if burst then (d1, Rejected(BurstLimit, Some(Minute)))
    else
      var d2 := d1.(requests := Recent(d1.requests, now - Hour));
      if |d2.requests| >= lim.requestsPerHour then (d2, Rejected(HourlyLimit, HourlyResetTime(d2.requests, now)))
      else if |Recent(d2.requests, now - Day)| >= lim.requestsPerDay then
        (d2, Rejected(DailyLimit, Some(DailyResetTime(d2.requests, now))))
      else (d2, Allowed)
  }

  /** recordRequest on one user's record: the request appended, now the last request, the counter kept. */
  function Record(d: UserData, now: int): (r: UserData)
    ensures r.requests == d.requests + [now] && r.lastRequest == now
    ensures r.burstCount == d.burstCount && r.lastBurstTime == d.lastBurstTime
  {
    d.(requests := d.requests + [now], lastRequest := now)
  }

  datatype UserStats = UserStats(
    userId: int, hourlyRequests: nat, dailyRequests: nat, hourlyLimit: int, dailyLimit: int,
    hourlyRemaining: int, dailyRemaining: int, lastRequest: int, burstCount: int)

  /**
   * getUserStats on one user's record: the stored requests of the last hour
   * and of the last day against the limits, the remaining quota never below
   * zero, and the record's last request time and burst counter.
   */
  function StatsOf(lim: Limits, userId: int, d: UserData, now: int): (s: UserStats)
    ensures s.userId == userId && s.hourlyLimit == lim.requestsPerHour && s.dailyLimit == lim.requestsPerDay
    ensures s.hourlyRequests == |Recent(d.requests, now - Hour)| && s.dailyRequests == |Recent(d.requests, now - Day)|
    ensures s.lastRequest == d.lastRequest && s.burstCount == d.burstCount
    ensures s.hourlyRemaining >= 0 && s.dailyRemaining >= 0
    ensures s.hourlyRequests + s.hourlyRemaining >= lim.requestsPerHour
    ensures s.hourlyRemaining > 0 ==> s.hourlyRequests + s.hourlyRemaining == lim.requestsPerHour
    ensures s.dailyRequests + s.dailyRemaining >= lim.requestsPerDay
    ensures s.dailyRemaining > 0 ==> s.dailyRequests + s.dailyRemaining == lim.requestsPerDay
  {
    var hourly := |Recent(d.requests, now - Hour)|;
    var daily := |Recent(d.requests, now - Day)|;
    UserStats(userId, hourly, daily, lim.requestsPerHour, lim.requestsPerDay,
              Max(0, lim.requestsPerHour - hourly), Max(0, lim.requestsPerDay - daily),
              d.lastRequest, d.burstCount)
  }

  /** Whether cleanup removes a record: nothing within a day and `now - lastRequest > now - day`. */
  predicate Dropped(d: UserData, now: int)
  {
    Recent(d.requests, now - Day) == [] && now - d.lastRequest > now - Day
  }

  /** The user table after cleanup. */
  function Cleaned(m: map<int, UserData>, now: int): map<int, UserData>
  {
    map u | u in m && !Dropped(m[u], now) :: m[u].(requests := Recent(m[u].requests, now - Day))
  }

  /** The rate limiter object: its limits and the table of user records. */
  class RateLimiter {
    const limits: Limits
    var userRequests: map<int, UserData>

    /** The limits come from the options, then the environment, then 10 / 50 / 3. */
    constructor (requestsPerHour: Option<int>, envPerHour: Option<string>,
                 requestsPerDay: Option<int>, envPerDay: Option<string>, burstLimit: Option<int>)
      ensures limits == Limits(Configured(requestsPerHour, envPerHour, 10),
                               Configured(requestsPerDay, envPerDay, 50),
                               Configured(burstLimit, None, 3))
      ensures userRequests == map[]
    {
      limits := Limits(Configured(requestsPerHour, envPerHour, 10),
                       Configured(requestsPerDay, envPerDay, 50),
                       Configured(burstLimit, None, 3));
      userRequests := map[];
    }

    /** getUserData: creates the record of an unknown user. */
    method GetUserData(userId: int) returns (d: UserData)
      modifies this
      ensures d == Lookup(old(userRequests), userId)
      ensures userRequests == old(userRequests)[userId := d]
    {
      if userId !in userRequests {
        userRequests := userRequests[userId := NewUser()];
      }
      d := userRequests[userId];
    }

    /** canMakeRequest: the record of the user is created if needed and updated by the checks. */
    method CanMakeRequest(userId: int, now: int) returns (v: Verdict)
      modifies this
      ensures userId in userRequests
      ensures (userRequests[userId], v) == Check(limits, Lookup(old(userRequests), userId), now)
      ensures userRequests == old(userRequests)[userId := userRequests[userId]]
    {
      var d := GetUserData(userId);
      var checked := BurstCheck(d, now, limits.burstLimit);
      var burst := checked.1;
      d := checked.0;
      userRequests := userRequests[userId := d];
      if burst {
        return Rejected(BurstLimit, Some(Minute));
      }
      d := d.(requests := Recent(d.requests, now - Hour));
      userRequests := userRequests[userId := d];
      if |d.requests| >= limits.requestsPerHour {
        return Rejected(HourlyLimit, HourlyResetTime(d.requests, now));
      }
      if |Recent(d.requests, now - Day)| >= limits.requestsPerDay {
        return Rejected(DailyLimit, Some(DailyResetTime(d.requests, now)));
      }
      return Allowed;
    }

    /** recordRequest: appends the time and sets lastRequest; other users are untouched. */
    method RecordRequest(userId: int, now: int)
      modifies this
      ensures userRequests == old(userRequests)[userId := Record(Lookup(old(userRequests), userId), now)]
    {
      var d := GetUserData(userId);
      d := d.(requests := d.requests + [now], lastRequest := now);
      userRequests := userRequests[userId := d];
    }

    /** getUserStats: also creates the record of an unknown user. */
    method GetUserStats(userId: int, now: int) returns (s: UserStats)
      modifies this
      ensures s == StatsOf(limits, userId, Lookup(old(userRequests), userId), now)
      ensures userRequests == old(userRequests)[userId := Lookup(old(userRequests), userId)]
    {
      var d := GetUserData(userId);
      var hourly := |Recent(d.requests, now - Hour)|;
      var daily := |Recent(d.requests, now - Day)|;
      s := UserStats(userId, hourly, daily, limits.requestsPerHour, limits.requestsPerDay,
                     Max(0, limits.requestsPerHour - hourly), Max(0, limits.requestsPerDay - daily),
                     d.lastRequest, d.burstCount);
    }

    /** cleanup: visits every record, prunes it to the last day and deletes it when Dropped. */
    method Cleanup(now: int)
      modifies this
      ensures userRequests == Cleaned(old(userRequests), now)
    {
      ghost var m0 := userRequests;
      var pending := userRequests.Keys;
      while pending != {}
        invariant pending <= m0.Keys
        invariant userRequests == PartlyCleaned(m0, pending, now)
        decreases pending
      {
        HasElement(pending);
        var u :| u in pending;
        CleanStep(m0, pending, now, u);
        var d := userRequests[u];
        d := d.(requests := Recent(d.requests, now - Day));
        if d.requests == [] && now - d.lastRequest > now - Day {
          userRequests := map k | k in userRequests && k != u :: userRequests[k];
        } else {
          userRequests := userRequests[u := d];
        }
        pending := pending - {u};
      }
      assert userRequests == PartlyCleaned(m0, {}, now);
    }
  }

  /** The user table part way through the cleanup: the users still pending keep their records. */
  ghost function PartlyCleaned(m0: map<int, UserData>, pending: set<int>, now: int): map<int, UserData>
  {
    map u | u in m0 && (u in pending || !Dropped(m0[u], now)) ::
      if u in pending then m0[u] else m0[u].(requests := Recent(m0[u].requests, now - Day))
  }

  /** Pruning one pending user's record, or deleting it when Dropped, moves the user out of pending. */
  lemma CleanStep(m0: map<int, UserData>, pending: set<int>, now: int, u: int)
    requires u in pending && pending <= m0.Keys
    ensures var cur := PartlyCleaned(m0, pending, now);
      u in cur && cur[u] == m0[u]
      && var d := m0[u].(requests := Recent(m0[u].requests, now - Day));
      PartlyCleaned(m0, pending - {u}, now)
        == if d.requests == [] && now - d.lastRequest > now - Day then (map k | k in cur && k != u :: cur[k]) else cur[u := d]
  {
  }

  lemma HasElement(s: set<int>)
    requires s != {}
    ensures exists x :: x in s
  {
    assert (forall x :: x !in s) ==> s == {};
  }

  /** formatWaitTime as a number and a unit. */
  datatype Unit = Seconds | Minutes | Hours

  function UnitMs(u: Unit): int
  {
    match u
    case Seconds => 1000
    case Minutes => Minute
    case Hours => Hour
  }

  /** Math.ceil(a / b) for a positive b. */
  function CeilDiv(a: int, b: int): (q: int)
    requires b > 0
    ensures (q - 1) * b < a <= q * b
  {
    -((-a) / b)
  }

  /** The seconds, then minutes, then hours, each rounded up from the previous. */
  function WaitTime(ms: int): (r: (int, Unit))
  {
    var seconds := CeilDiv(ms, 1000);
    if seconds < 60 then (seconds, Seconds)
    else
      var minutes := CeilDiv(seconds, 60);
      if minutes < 60 then (minutes, Minutes) else (CeilDiv(minutes, 60), Hours)
  }

  /** The unit as formatWaitTime writes it, after a space. */
  function UnitText(u: Unit): (t: string)
    ensures |t| > 0 && t[0] == ' '
  {
    match u
    case Seconds => " \U{0441}\U{0435}\U{043A}"
    case Minutes => " \U{043C}\U{0438}\U{043D}"
    case Hours => " \U{0447}"
  }

  /** `formatWaitTime(ms)`: the rounded-up amount, a space and the Russian unit abbreviation. */
  function FormatWaitTime(ms: int): (t: string)
    ensures var (n, u) := WaitTime(ms);
      |t| == |Strs.IntToString(n)| + |UnitText(u)| && Strs.StartsWith(t, Strs.IntToString(n))
      && t[|Strs.IntToString(n)|..] == UnitText(u)
  {
    var (n, u) := WaitTime(ms);
    var t := Strs.IntToString(n) + UnitText(u);
    assert t[..|Strs.IntToString(n)|] == Strs.IntToString(n);
    t
  }

  /** The number at the head of the wait text reads back as the rounded-up wait. */
  lemma WaitTextReadsBack(ms: int)
    ensures Strs.ParseInt(FormatWaitTime(ms)) == Some(WaitTime(ms).0)
  {
    var (n, u) := WaitTime(ms);
    Strs.ParseIntBefore(n, UnitText(u));
    var t := FormatWaitTime(ms);
    assert t == t[..|Strs.IntToString(n)|] + t[|Strs.IntToString(n)|..];
  }

  /** Rounding up an amount already rounded up to whole m keeps it a ceiling, now to whole m·c. */
  lemma CeilCompose(a: int, m: int, q1: int, c: int)
    requires m > 0 && c > 0
    requires (q1 - 1) * m < a <= q1 * m
    ensures var q := CeilDiv(q1, c); (q - 1) * (m * c) < a <= q * (m * c)
  {
    var q := CeilDiv(q1, c);
    assert q1 * m <= (q * c) * m by { MulMono(q1, q * c, m); }
    assert ((q - 1) * c) * m <= (q1 - 1) * m by { MulMono((q - 1) * c, q1 - 1, m); }
    assert (q * c) * m == q * (m * c);
    assert ((q - 1) * c) * m == (q - 1) * (m * c);
  }

  lemma MulMono(x: int, y: int, k: int)
    requires x <= y && k > 0
    ensures x * k <= y * k
  {
  }

  /** The shown wait is the true wait rounded up to whole units: never less, by less than one unit. */
  lemma WaitTimeRoundsUp(ms: int)
    ensures var (n, u) := WaitTime(ms); (n - 1) * UnitMs(u) < ms <= n * UnitMs(u)
    ensures var (n, u) := WaitTime(ms); u != Hours ==> n < 60
  {
    var seconds := CeilDiv(ms, 1000);
    if seconds >= 60 {
      CeilCompose(ms, 1000, seconds, 60);
      var minutes := CeilDiv(seconds, 60);
      if minutes >= 60 {
        CeilCompose(ms, Minute, minutes, 60);
      }
    }
  }

  /** A burst rejection always reports one minute; an hourly one reports a reset time when the limit is positive. */
  lemma RejectionResetTimes(lim: Limits, d: UserData, now: int)
    ensures var v := Check(lim, d, now).1;
      v.Rejected? ==> (v.reason == BurstLimit <==> BurstCheck(d, now, lim.burstLimit).1)
    ensures var v := Check(lim, d, now).1;
      v.Rejected? && v.reason == BurstLimit ==> v.resetIn == Some(Minute)
    ensures var v := Check(lim, d, now).1;
      v.Rejected? && lim.requestsPerHour > 0 ==> v.resetIn.Some? && v.resetIn.value >= 0
  {
  }

  /** The hourly check keeps exactly the last hour, so the daily check sees nothing older. */
  lemma RecentNested(reqs: seq<int>, c1: int, c2: int)
    requires c2 <= c1
    ensures Recent(Recent(reqs, c1), c2) == Recent(reqs, c1)
  {
    RecentAll(Recent(reqs, c1), c2);
  }

  /** Filtering a list that is already past the cutoff changes nothing. */
  lemma {:induction false} RecentAll(reqs: seq<int>, c: int)
    requires forall t :: t in reqs ==> t > c
    ensures Recent(reqs, c) == reqs
    decreases |reqs|
  {
    if reqs != [] {
      assert reqs[0] in reqs;
      assert forall t :: t in reqs[1..] ==> t in reqs;
      RecentAll(reqs[1..], c);
      assert [reqs[0]] + reqs[1..] == reqs;
    }
  }

  /** A daily limit at least the hourly one never fires. */
  lemma DailyLimitUnreachable(lim: Limits, d: UserData, now: int)
    requires lim.requestsPerDay >= lim.requestsPerHour
    ensures !(Check(lim, d, now).1.Rejected? && Check(lim, d, now).1.reason == DailyLimit)
  {
    var (d1, burst) := BurstCheck(d, now, lim.burstLimit);
    if !burst {
      RecentNested(d1.requests, now - Hour, now - Day);
    }
  }

  /** The bot's handling of one request: check, and record only when allowed. */
  function Serve(lim: Limits, d: UserData, now: int): (UserData, bool)
  {
    var (d1, v) := Check(lim, d, now);
    if v.Allowed? then (Record(d1, now), true) else (d1, false)
  }

  /** A sequence of requests in time order: the final record and how many were allowed. */
  function ServeAll(lim: Limits, d: UserData, times: seq<int>): (int, UserData)
    decreases |times|
  {
    if times == [] then (0, d)
    else
      var (d1, ok) := Serve(lim, d, times[0]);
      var (n, d2) := ServeAll(lim, d1, times[1..]);
      ((if ok then 1 else 0) + n, d2)
  }

  lemma {:induction false} BurstBoundFrom(lim: Limits, d: UserData, times: seq<int>, t0: int, a: nat)
    requires forall i :: 0 <= i < |times| ==> t0 <= times[i] < t0 + 10000
    requires a == 0 ==> d.lastRequest <= t0 - Minute
    requires a >= 1 ==> t0 <= d.lastRequest < t0 + 10000 && d.burstCount >= a - 1
    requires a <= Max(lim.burstLimit, 1)
    ensures a + ServeAll(lim, d, times).0 <= Max(lim.burstLimit, 1)
    decreases |times|
  {
    if times != [] {
      var now := times[0];
      var (d1, ok) := Serve(lim, d, now);
      var a1 := a + if ok then 1 else 0;
      assert a1 <= Max(lim.burstLimit, 1);
      assert a1 >= 1 ==> d1.burstCount >= a1 - 1;
      BurstBoundFrom(lim, d1, times[1..], t0, a1);
    }
  }

  /**
   * Within ten seconds, after a minute of quiet, at most burstLimit requests
   * (at least one) get through.
   */
  lemma BurstBound(lim: Limits, d: UserData, times: seq<int>, t0: int)
    requires forall i :: 0 <= i < |times| ==> t0 <= times[i] < t0 + 10000
    requires d.lastRequest <= t0 - Minute
    ensures ServeAll(lim, d, times).0 <= Max(lim.burstLimit, 1)
  {
    BurstBoundFrom(lim, d, times, t0, 0);
  }

  /** How many timestamps are at or after t0. */
  function CountFrom(reqs: seq<int>, t0: int): nat
    decreases |reqs|
  {
    if reqs == [] then 0 else (if reqs[0] >= t0 then 1 else 0) + CountFrom(reqs[1..], t0)
  }

  lemma {:induction false} CountFromRecent(reqs: seq<int>, cutoff: int, t0: int)
    requires cutoff < t0
    ensures CountFrom(Recent(reqs, cutoff), t0) == CountFrom(reqs, t0)
    ensures CountFrom(reqs, t0) <= |Recent(reqs, cutoff)|
    decreases |reqs|
  {
    if reqs != [] {
      CountFromRecent(reqs[1..], cutoff, t0);
      assert Recent(reqs, cutoff) == (if reqs[0] > cutoff then [reqs[0]] else []) + Recent(reqs[1..], cutoff);
      CountFromAppend(if reqs[0] > cutoff then [reqs[0]] else [], Recent(reqs[1..], cutoff), t0);
    }
  }

  lemma {:induction false} CountFromAppend(a: seq<int>, b: seq<int>, t0: int)
    ensures CountFrom(a + b, t0) == CountFrom(a, t0) + CountFrom(b, t0)
    decreases |a|
  {
    if a == [] {
      assert a + b == b;
    } else {
      assert (a + b)[1..] == a[1..] + b;
      CountFromAppend(a[1..], b, t0);
    }
  }

  lemma {:induction false} HourlyBoundFrom(lim: Limits, d: UserData, times: seq<int>, t0: int, a: nat)
    requires forall i :: 0 <= i < |times| ==> t0 <= times[i] < t0 + Hour
    requires CountFrom(d.requests, t0) >= a
    requires a <= Max(lim.requestsPerHour, 0)
    ensures a + ServeAll(lim, d, times).0 <= Max(lim.requestsPerHour, 0)
    decreases |times|
  {
    if times != [] {
      var now := times[0];
      var (d1, burst) := BurstCheck(d, now, lim.burstLimit);
      var recent := Recent(d1.requests, now - Hour);
      CountFromRecent(d1.requests, now - Hour, t0);
      var (d2, ok) := Serve(lim, d, now);
      if ok {
        CountFromAppend(recent, [now], t0);
        assert d2.requests == recent + [now];
      } else if !burst {
        assert d2.requests == recent;
      }
      HourlyBoundFrom(lim, d2, times[1..], t0, a + if ok then 1 else 0);
    }
  }

  /** Within one hour at most requestsPerHour requests get through. */
  lemma HourlyBound(lim: Limits, d: UserData, times: seq<int>, t0: int)
    requires forall i :: 0 <= i < |times| ==> t0 <= times[i] < t0 + Hour
    ensures ServeAll(lim, d, times).0 <= Max(lim.requestsPerHour, 0)
  {
    HourlyBoundFrom(lim, d, times, t0, 0);
  }

  /** The hourly count of getUserStats never exceeds the daily count. */
  lemma {:induction false} RecentMonotone(reqs: seq<int>, c1: int, c2: int)
    requires c2 <= c1
    ensures |Recent(reqs, c1)| <= |Recent(reqs, c2)|
    decreases |reqs|
  {
    if reqs != [] {
      RecentMonotone(reqs[1..], c1, c2);
    }
  }

  lemma HourlyWithinDaily(lim: Limits, userId: int, d: UserData, now: int)
    ensures StatsOf(lim, userId, d, now).hourlyRequests <= StatsOf(lim, userId, d, now).dailyRequests
  {
    RecentMonotone(d.requests, now - Hour, now - Day);
  }

  /**
   * A request recorded now shows in the statistics taken now: one more
   * request in the last hour and in the last day, one less remaining when
   * some quota was left, and now as the last request.
   */
  lemma RecordShowsInStats(lim: Limits, userId: int, d: UserData, now: int)
    ensures var before, after := StatsOf(lim, userId, d, now), StatsOf(lim, userId, Record(d, now), now);
      after.hourlyRequests == before.hourlyRequests + 1 && after.dailyRequests == before.dailyRequests + 1
      && (before.hourlyRemaining > 0 ==> after.hourlyRemaining == before.hourlyRemaining - 1)
      && after.lastRequest == now && after.burstCount == before.burstCount
  {
    RecentAppend(d.requests, now, now - Hour);
    RecentAppend(d.requests, now, now - Day);
  }

  lemma {:induction false} RecentAppend(a: seq<int>, x: int, c: int)
    ensures Recent(a + [x], c) == Recent(a, c) + (if x > c then [x] else [])
    decreases |a|
  {
    if a == [] {
      assert [] + [x] == [x];
    } else {
      assert (a + [x])[1..] == a[1..] + [x];
      RecentAppend(a[1..], x, c);
    }
  }

  /**
   * Because its cutoff compares an elapsed time with an absolute time,
   * cleanup deletes a record only when its last request lies in the first
   * day after the epoch; every other record is kept, pruned to the last day.
   */
  lemma CleanupCutoff(m: map<int, UserData>, now: int, u: int)
    requires u in m
    ensures u !in Cleaned(m, now) <==> Recent(m[u].requests, now - Day) == [] && m[u].lastRequest < Day
    ensures u in Cleaned(m, now) ==> forall t :: t in Cleaned(m, now)[u].requests ==> t > now - Day
  {
  }
}
