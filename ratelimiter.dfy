/** middlewares/ratelimiter.go: a fixed-window request limiter over a shared
    counter store (Redis). The store is a class whose INCR, EXPIRE and TTL
    commands and whose clock are specified by functions on its state; the
    per-request handler is a method proved equal to the function LimitStep,
    about which the fixed-window properties are proved. */
module RateLimiter {
  import opened Wrappers
  import opened Values
  import opened Strings
  import opened Http

  /** Redis counters are signed 64-bit integers. */
  const MaxInt64 := 0x7fff_ffff_ffff_ffff

  /** The state of the counter store: the counters, the absolute deadline (in
      seconds on the store's clock) of each counter that has one, the clock,
      and whether the store answers commands at all. */
  datatype Counters = Counters(
    counts: map<string, int>,
    deadlines: map<string, int>,
    clock: int,
    reachable: bool)

  /** Every deadline belongs to a counter and lies in the future: expired
      counters are gone. */
  ghost predicate Live(s: Counters) {
    && s.deadlines.Keys <= s.counts.Keys
    && forall k :: k in s.deadlines ==> s.deadlines[k] > s.clock
  }

  function Lookup(m: map<string, int>, k: string): Option<int> {
    if k in m then Some(m[k]) else None
  }

  /** The value INCR starts from: an absent counter counts as zero. */
  function Count(s: Counters, key: string): int {
    if key in s.counts then s.counts[key] else 0
  }

  /** `t` differs from `s` at most in the counter `key` and its deadline. */
  ghost predicate OnlyKeyChanged(s: Counters, t: Counters, key: string) {
    && t.clock == s.clock
    && t.reachable == s.reachable
    && forall k :: k != key ==>
         Lookup(t.counts, k) == Lookup(s.counts, k) && Lookup(t.deadlines, k) == Lookup(s.deadlines, k)
  }

  const OverflowError := "ERR increment or decrement would overflow"
  const UnreachableError := "connection refused"

  /** INCR key: add one to the counter (creating it at zero, without a
      deadline) and return the new value; fail, changing nothing, when the
      store does not answer or the counter is already at its 64-bit maximum. */
  function IncrStep(s: Counters, key: string): (r: (Counters, Result<int, string>))
    ensures r.1.Err? ==> r.0 == s
    ensures r.1.Err? <==> !s.reachable || Count(s, key) == MaxInt64
    ensures r.1.Ok? ==> r.1.value == Count(s, key) + 1 && Count(r.0, key) == r.1.value
    ensures r.0.deadlines == s.deadlines
    ensures OnlyKeyChanged(s, r.0, key)
  {
    if !s.reachable then (s, Err(UnreachableError))
    else if Count(s, key) == MaxInt64 then (s, Err(OverflowError))
    else (s.(counts := s.counts[key := Count(s, key) + 1]), Ok(Count(s, key) + 1))
  }

  /** EXPIRE key seconds: give an existing counter the deadline `seconds`
      from now, or delete it when `seconds` is not positive; a missing
      counter, or a store that does not answer, is left alone (the source
      ignores EXPIRE's reply). */
  function ExpireStep(s: Counters, key: string, seconds: int): (t: Counters)
    ensures OnlyKeyChanged(s, t, key)
    ensures s.reachable && key in s.counts && seconds > 0 ==>
      Lookup(t.counts, key) == Lookup(s.counts, key) && Lookup(t.deadlines, key) == Some(s.clock + seconds)
    ensures s.reachable && key in s.counts && seconds <= 0 ==> key !in t.counts && key !in t.deadlines
    ensures !s.reachable || key !in s.counts ==> t == s
  {
    if !s.reachable || key !in s.counts then s
    else if seconds <= 0 then s.(counts := s.counts - {key}, deadlines := s.deadlines - {key})
    else s.(deadlines := s.deadlines[key := s.clock + seconds])
  }

  /** The reply to TTL key: the seconds left, or that the counter has no
      deadline, or that there is no counter, or that the command failed. */
  datatype TtlReply = Remaining(seconds: int) | NoDeadline | NoCounter | TtlFailed

  function TtlStep(s: Counters, key: string): (r: TtlReply)
    ensures r.Remaining? <==> s.reachable && key in s.counts && key in s.deadlines
    ensures r.Remaining? ==> r.seconds == s.deadlines[key] - s.clock
  {
    if !s.reachable then TtlFailed
    else if key !in s.counts then NoCounter
    else if key !in s.deadlines then NoDeadline
    else Remaining(s.deadlines[key] - s.clock)
  }

  /** The store's clock moves `dt` seconds on, and every counter whose
      deadline is reached disappears. */
  function TickStep(s: Counters, dt: nat): (t: Counters)
    ensures t.clock == s.clock + dt && t.reachable == s.reachable
    ensures forall k :: k in t.counts <==> k in s.counts && (k !in s.deadlines || s.deadlines[k] > s.clock + dt)
    ensures forall k :: k in t.counts ==> t.counts[k] == s.counts[k]
    ensures forall k :: k in t.deadlines <==> k in s.deadlines && s.deadlines[k] > s.clock + dt
    ensures forall k :: k in t.deadlines ==> t.deadlines[k] == s.deadlines[k]
  {
    var now := s.clock + dt;
    Counters(
      map k | k in s.counts && (k !in s.deadlines || s.deadlines[k] > now) :: s.counts[k],
      map k | k in s.deadlines && s.deadlines[k] > now :: s.deadlines[k],
      now,
      s.reachable)
  }

  lemma TickKeepsLive(s: Counters, dt: nat)
    requires Live(s)
    ensures Live(TickStep(s, dt))
  {
  }

  /** The shared counter store, updated in place by its commands. */
  class CounterStore {
    var counts: map<string, int>
    var deadlines: map<string, int>
    var clock: int
    var reachable: bool

    function State(): Counters
      reads this
    {
      Counters(counts, deadlines, clock, reachable)
    }

    ghost predicate Valid()
      reads this
    {
      Live(State())
    }

    constructor (now: int)
      ensures Valid() && State() == Counters(map[], map[], now, true)
    {
      counts := map[];
      deadlines := map[];
      clock := now;
      reachable := true;
    }

    method Incr(key: string) returns (r: Result<int, string>)
      requires Valid()
      modifies this
      ensures Valid()
      ensures (State(), r) == IncrStep(old(State()), key)
    {
      if !reachable {
        r := Err(UnreachableError);
      } else {
        var current := if key in counts then counts[key] else 0;
        if current == MaxInt64 {
          r := Err(OverflowError);
        } else {
          counts := counts[key := current + 1];
          r := Ok(current + 1);
        }
      }
    }

    method Expire(key: string, seconds: int)
      requires Valid()
      modifies this
      ensures Valid()
      ensures State() == ExpireStep(old(State()), key, seconds)
    {
      if reachable && key in counts {
        if seconds <= 0 {
          counts := counts - {key};
          deadlines := deadlines - {key};
        } else {
          deadlines := deadlines[key := clock + seconds];
        }
      }
    }

    method TTL(key: string) returns (r: TtlReply)
      ensures r == TtlStep(State(), key)
    {
      if !reachable {
        r := TtlFailed;
      } else if key !in counts {
        r := NoCounter;
      } else if key !in deadlines {
        r := NoDeadline;
      } else {
        r := Remaining(deadlines[key] - clock);
      }
    }

    /** Time passes on the store's clock; expired counters disappear. */
    method Tick(dt: nat)
      requires Valid()
      modifies this
      ensures Valid()
      ensures State() == TickStep(old(State()), dt)
    {
      var now := clock + dt;
      counts := map k | k in counts && (k !in deadlines || deadlines[k] > now) :: counts[k];
      deadlines := map k | k in deadlines && deadlines[k] > now :: deadlines[k];
      clock := now;
    }

    /** The network between the service and the store goes down or comes back. */
    method SetReachable(up: bool)
      requires Valid()
      modifies this
      ensures Valid()
      ensures State() == old(State()).(reachable := up)
    {
      reachable := up;
    }
  }

  /** What RateLimiterConfig builds: a pass-through when the store handle is
      nil at construction time, otherwise a limit and a window (seconds). */
  datatype LimiterConfig = PassThrough | Limited(limit: int, window: nat)

  function RateLimiterConfig(store: CounterStore?, limit: int, window: nat): (l: LimiterConfig)
    ensures l.PassThrough? <==> store == null
    ensures l.Limited? ==> l.limit == limit && l.window == window
  {
    if store == null then PassThrough else Limited(limit, window)
  }

  /** The identifier: "user:" and the caller's id when "userData" is a map
      whose "id" is a string (even an empty one), otherwise "ip:" and the
      client address. */
  function Identifier(c: Context): (r: string)
    ensures CallerId(c).Some? ==> r == "user:" + CallerId(c).value
    ensures CallerId(c).None? ==> r == "ip:" + c.req.clientIP
  {
    match CallerId(c)
    case Some(id) => "user:" + id
    case None => "ip:" + c.req.clientIP
  }

  /** The counter key "rate:<identifier>:<URL path>". */
  function CounterKey(c: Context): (k: string)
    ensures k == "rate:" + Identifier(c) + ":" + c.req.path
  {
    "rate:" + Identifier(c) + ":" + c.req.path
  }

  /** Requests with the same identifier on different concrete paths (say two
      parent ids under /comments/reply/) count against different counters. */
  lemma {:induction false} DistinctPathsDistinctKeys(c1: Context, c2: Context)
    requires Identifier(c1) == Identifier(c2)
    requires CounterKey(c1) == CounterKey(c2)
    ensures c1.req.path == c2.req.path
  {
    var n := |"rate:" + Identifier(c1) + ":"|;
    assert CounterKey(c1)[n..] == c1.req.path;
    assert CounterKey(c2)[n..] == c2.req.path;
  }

  /** A user-scoped counter is never an address-scoped one. */
  lemma UserAndAddressKeysDiffer(c1: Context, c2: Context)
    requires CallerId(c1).Some? && CallerId(c2).None?
    ensures CounterKey(c1) != CounterKey(c2)
  {
    assert CounterKey(c1)[5] == 'u';
    assert CounterKey(c2)[5] == 'i';
  }

  const InternalErrorMessage := "Rate limiter internal error"
  const RetryAfterHeader := "Retry-After"

  /** The whole seconds go-redis reports for a TTL reply. A missing deadline
      or counter comes back as a duration of -1ns or -2ns, and a failed
      command as zero, all of which truncate to 0 seconds. */
  function RetryAfterSeconds(t: TtlReply): (n: nat)
    ensures t.Remaining? && t.seconds >= 0 ==> n == t.seconds
    ensures !t.Remaining? ==> n == 0
  {
    if t.Remaining? && t.seconds >= 0 then t.seconds else 0
  }

  /** The 429 message: the limit and the window as fmt prints an int and a
      time.Duration, then the seconds left. The text between its fixed head
      and tail is the window's rendering, which reads back as the window
      (Strings.DurationReads) and is the only text that does
      (Strings.ReadDurationOnlyRenderings). */
  function LimitMessage(limit: int, window: nat, ttl: TtlReply): (m: string)
    ensures var tail := ". Try again in " + NatToString(RetryAfterSeconds(ttl)) + " seconds.";
      |m| > |tail| && m[|m| - |tail|..] == tail
    ensures var head := "Rate limit exceeded. You are limited to " + IntToString(limit) + " requests per ";
      |m| > |head| && m[..|head|] == head
    ensures var head := "Rate limit exceeded. You are limited to " + IntToString(limit) + " requests per ";
      var tail := ". Try again in " + NatToString(RetryAfterSeconds(ttl)) + " seconds.";
      |head| <= |m| - |tail| && m[|head|..|m| - |tail|] == DurationString(window)
  {
    var head := "Rate limit exceeded. You are limited to " + IntToString(limit) + " requests per ";
    var tail := ". Try again in " + NatToString(RetryAfterSeconds(ttl)) + " seconds.";
    ThreeParts(head, DurationString(window), tail);
    head + (DurationString(window) + tail)
  }

  /** The message of the limiter SetupRouter installs, ten requests a
      minute: the limit prints as "10" and the window as Go prints one
      minute, "1m0s". */
  lemma InstalledLimitMessage(ttl: TtlReply)
    ensures LimitMessage(10, 60, ttl)
      == "Rate limit exceeded. You are limited to " + "10" + " requests per "
         + ("1m0s" + (". Try again in " + NatToString(RetryAfterSeconds(ttl)) + " seconds."))
  {
    OneMinute();
    TenString();
  }

  /** Where the parts of `a + (b + c)` sit. */
  lemma ThreeParts(a: string, b: string, c: string)
    ensures |a + (b + c)| == |a| + |b| + |c|
    ensures (a + (b + c))[..|a|] == a
    ensures (a + (b + c))[|a| + |b|..] == c
    ensures (a + (b + c))[|a|..|a| + |b|] == b
  {
    assert (a + (b + c))[|a|..] == b + c;
    assert (b + c)[|b|..] == c;
  }

  /** The handler RateLimiterConfig returns, as a function of the store's
      state: a pass-through forwards everything; otherwise INCR the request's
      counter (a store error aborts with 500), EXPIRE it when the new count is
      1, and abort with 429, a Retry-After header and the limit message when
      the count exceeds the limit. */
  function LimitStep(l: LimiterConfig, s: Counters, c: Context): (r: (Counters, Outcome))
    ensures l.PassThrough? ==> r == (s, Continue(c))
    ensures r.1.Continue? ==> r.1.ctx == c
    ensures r.1.Abort? ==> r.1.status == StatusTooManyRequests || r.1.status == StatusInternalServerError
    ensures r.1.Abort? ==> r.1.ctx.req == c.req && r.1.ctx.keys == c.keys && r.1.ctx.params == c.params
    ensures OnlyKeyChanged(s, r.0, CounterKey(c))
    ensures r.1.Abort? && r.1.status == StatusInternalServerError ==>
      r.0 == s && r.1.message == InternalErrorMessage && r.1.ctx == c
    ensures l.Limited? && r.1.Abort? && r.1.status == StatusTooManyRequests ==>
      var ttl := TtlStep(r.0, CounterKey(c));
      && r.1.message == LimitMessage(l.limit, l.window, ttl)
      && r.1.ctx == c.(header := c.header[RetryAfterHeader := NatToString(RetryAfterSeconds(ttl))])
  {
    match l
    case PassThrough => (s, Continue(c))
    case Limited(limit, window) =>
      var key := CounterKey(c);
      var (s1, incr) := IncrStep(s, key);
      if incr.Err? then
        (s1, Abort(StatusInternalServerError, InternalErrorMessage, c))
      else
        var count := incr.value;
        var s2 := if count == 1 then ExpireStep(s1, key, window) else s1;
        if count > limit then
          var ttl := TtlStep(s2, key);
          var c' := c.(header := c.header[RetryAfterHeader := NatToString(RetryAfterSeconds(ttl))]);
          (s2, Abort(StatusTooManyRequests, LimitMessage(limit, window, ttl), c'))
        else
          (s2, Continue(c))
  }

  /** The handler as the source runs it: INCR, then EXPIRE when the count is
      1, then TTL when over the limit, each a separate command on the store. */
  method Limit(l: LimiterConfig, store: CounterStore, c: Context) returns (o: Outcome)
    requires store.Valid()
    modifies store
    ensures store.Valid()
    ensures (store.State(), o) == LimitStep(l, old(store.State()), c)
  {
    if l.PassThrough? {
      return Continue(c);
    }
    var key := CounterKey(c);
    var incr := store.Incr(key);
    if incr.Err? {
      return Abort(StatusInternalServerError, InternalErrorMessage, c);
    }
    var count := incr.value;
    if count == 1 {
      store.Expire(key, l.window);
    }
    if count > l.limit {
      var ttl := store.TTL(key);
      var retry := RetryAfterSeconds(ttl);
      var c' := c.(header := c.header[RetryAfterHeader := NatToString(retry)]);
      return Abort(StatusTooManyRequests, LimitMessage(l.limit, l.window, ttl), c');
    }
    return Continue(c);
  }

  /** A store error at request time fails closed: 500, nothing forwarded,
      nothing changed. */
  lemma StoreErrorFailsClosed(limit: int, window: nat, s: Counters, c: Context)
    requires !s.reachable || Count(s, CounterKey(c)) == MaxInt64
    ensures LimitStep(Limited(limit, window), s, c) == (s, Abort(StatusInternalServerError, InternalErrorMessage, c))
  {
  }

  /** The counter `key` is absent, or has a deadline at most one window
      ahead: what EXPIRE leaves behind when it ran. */
  ghost predicate HealthyWindow(s: Counters, key: string, window: nat) {
    key in s.counts ==> key in s.deadlines && s.deadlines[key] <= s.clock + window
  }

  /** One request against a healthy store: its counter goes up by exactly
      one; the deadline is set (to one window from now) only when the counter
      was absent and is never moved afterwards; the request is forwarded
      exactly when the new count is within the limit, and otherwise refused
      with 429, the limit message, and a Retry-After header holding the
      seconds left, which lie between 1 and the window while the window is
      healthy. */
  lemma OneRequest(limit: int, window: nat, s: Counters, c: Context)
    requires Live(s) && s.reachable && window > 0
    requires Count(s, CounterKey(c)) < MaxInt64
    ensures var key := CounterKey(c);
      var r := LimitStep(Limited(limit, window), s, c);
      && Live(r.0) && r.0.clock == s.clock && r.0.reachable
      && Count(r.0, key) == Count(s, key) + 1 && key in r.0.counts
      && (Count(s, key) == 0 ==> Lookup(r.0.deadlines, key) == Some(s.clock + window))
      && (Count(s, key) != 0 ==> Lookup(r.0.deadlines, key) == Lookup(s.deadlines, key))
      && (r.1.Continue? <==> Count(s, key) + 1 <= limit)
      && (r.1.Abort? ==>
            && r.1.status == StatusTooManyRequests
            && RetryAfterHeader in r.1.ctx.header
            && r.1.ctx.header[RetryAfterHeader] == NatToString(RetryAfterSeconds(TtlStep(r.0, key)))
            && r.1.message == LimitMessage(limit, window, TtlStep(r.0, key)))
      && (HealthyWindow(s, key, window) && r.1.Abort? ==> 1 <= RetryAfterSeconds(TtlStep(r.0, key)) <= window)
  {
    var key := CounterKey(c);
    var (s1, incr) := IncrStep(s, key);
    assert incr == Ok(Count(s, key) + 1);
    assert Live(s1) by {
      assert s1.deadlines == s.deadlines && s1.counts.Keys >= s.counts.Keys && s1.clock == s.clock;
    }
    if Count(s, key) == 0 {
      var s2 := ExpireStep(s1, key, window);
      assert key in s1.counts;
      assert s2 == s1.(deadlines := s1.deadlines[key := s.clock + window]);
      assert Live(s2);
      assert LimitStep(Limited(limit, window), s, c).0 == s2;
    } else {
      assert LimitStep(Limited(limit, window), s, c).0 == s1;
    }
  }

  /** A healthy window stays healthy: a request sets the deadline of a new
      counter one window ahead and leaves an existing deadline alone, and
      time only brings the deadline nearer or removes the counter. */
  lemma WindowStaysHealthy(limit: int, window: nat, s: Counters, c: Context, dt: nat)
    requires Live(s) && window > 0 && HealthyWindow(s, CounterKey(c), window)
    ensures HealthyWindow(LimitStep(Limited(limit, window), s, c).0, CounterKey(c), window)
    ensures HealthyWindow(TickStep(s, dt), CounterKey(c), window)
  {
    var key := CounterKey(c);
    if s.reachable && Count(s, key) < MaxInt64 {
      OneRequest(limit, window, s, c);
    }
  }

  /** What happens on the store between requests: time passes, or a request
      for the counter under study arrives. */
  datatype Event = Hit | Wait(dt: nat)

  function TotalWait(events: seq<Event>): nat {
    if |events| == 0 then 0
    else (if events[0].Wait? then events[0].dt else 0) + TotalWait(events[1..])
  }

  /** The limiter's answers to the hits of `events` (all carrying context
      `c`), with time passing as the waits say. */
  function Run(l: LimiterConfig, s: Counters, c: Context, events: seq<Event>): (r: (Counters, seq<Outcome>))
    decreases |events|
  {
    if |events| == 0 then (s, [])
    else if events[0].Wait? then Run(l, TickStep(s, events[0].dt), c, events[1..])
    else
      var step := LimitStep(l, s, c);
      var rest := Run(l, step.0, c, events[1..]);
      (rest.0, [step.1] + rest.1)
  }

  /** The answers of a window whose counter had already seen `h` requests:
      the j-th is forwarded exactly when h + j + 1 is within the limit, and
      each refusal is a 429. */
  ghost predicate WindowAnswers(os: seq<Outcome>, h: int, limit: int) {
    forall j :: 0 <= j < |os| ==>
      && (os[j].Continue? <==> h + j + 1 <= limit)
      && (os[j].Abort? ==> os[j].status == StatusTooManyRequests)
  }

  lemma WindowAnswersCons(o: Outcome, os: seq<Outcome>, h: int, limit: int)
    requires o.Continue? <==> h + 1 <= limit
    requires o.Abort? ==> o.status == StatusTooManyRequests
    requires WindowAnswers(os, h + 1, limit)
    ensures WindowAnswers([o] + os, h, limit)
  {
    var all := [o] + os;
    forall j | 0 <= j < |all|
      ensures (all[j].Continue? <==> h + j + 1 <= limit)
      ensures (all[j].Abort? ==> all[j].status == StatusTooManyRequests)
    {
      if j > 0 {
        assert all[j] == os[j - 1];
      }
    }
  }

  /** The fixed window, for any interleaving of requests and waiting that
      stays inside one window: when the counter has already seen `h`
      requests of its window (or none, and is absent), the j-th request of
      the run is forwarded exactly when h + j + 1 is within the limit, and
      every other one is refused with 429. */
  lemma {:induction false} WindowRun(limit: int, window: nat, s: Counters, c: Context, events: seq<Event>)
    requires Live(s) && s.reachable && window > 0
    requires TotalWait(events) < window
    requires 0 <= Count(s, CounterKey(c)) && Count(s, CounterKey(c)) + |events| < MaxInt64
    requires CounterKey(c) in s.counts ==>
      CounterKey(c) in s.deadlines && s.clock + TotalWait(events) < s.deadlines[CounterKey(c)]
    ensures WindowAnswers(Run(Limited(limit, window), s, c, events).1, Count(s, CounterKey(c)), limit)
    decreases |events|
  {
    var key := CounterKey(c);
    var l := Limited(limit, window);
    if |events| > 0 {
      var rest := events[1..];
      if events[0].Wait? {
        var s1 := TickStep(s, events[0].dt);
        TickKeepsLive(s, events[0].dt);
        assert TotalWait(events) == events[0].dt + TotalWait(rest);
        assert Count(s1, key) == Count(s, key);
        WindowRun(limit, window, s1, c, rest);
      } else {
        var step := LimitStep(l, s, c);
        OneRequest(limit, window, s, c);
        assert TotalWait(rest) == TotalWait(events);
        assert key in s.counts ==> Count(s, key) != 0 || s.counts[key] == 0;
        WindowRun(limit, window, step.0, c, rest);
        WindowAnswersCons(step.1, Run(l, step.0, c, rest).1, Count(s, key), limit);
      }
    }
  }

  /** From a fresh counter: within one window the first `limit` requests are
      forwarded and from the (limit+1)-th on every request is refused. */
  lemma FreshWindow(limit: int, window: nat, s: Counters, c: Context, events: seq<Event>)
    requires Live(s) && s.reachable && window > 0
    requires TotalWait(events) < window && |events| < MaxInt64
    requires CounterKey(c) !in s.counts
    ensures var os := Run(Limited(limit, window), s, c, events).1;
      forall j :: 0 <= j < |os| ==>
        (os[j].Continue? <==> j < limit) && (os[j].Abort? ==> os[j].status == StatusTooManyRequests)
  {
    WindowRun(limit, window, s, c, events);
  }

  /** Once the window's deadline is reached the counter is gone, so the next
      request starts a new window: it is counted as the first and is
      forwarded whenever the limit admits at least one request. */
  lemma WindowResets(limit: int, window: nat, s: Counters, c: Context, dt: nat)
    requires Live(s) && s.reachable && window > 0
    requires CounterKey(c) in s.deadlines && s.clock + dt >= s.deadlines[CounterKey(c)]
    ensures var t := TickStep(s, dt);
      && CounterKey(c) !in t.counts
      && var r := LimitStep(Limited(limit, window), t, c);
         Count(r.0, CounterKey(c)) == 1 && (r.1.Continue? <==> limit >= 1)
  {
    var t := TickStep(s, dt);
    TickKeepsLive(s, dt);
    OneRequest(limit, window, t, c);
  }

  /** Every answer is a 429 with "Retry-After: 0". */
  ghost predicate LockedOut(os: seq<Outcome>) {
    forall j :: 0 <= j < |os| ==>
      && os[j].Abort? && os[j].status == StatusTooManyRequests
      && RetryAfterHeader in os[j].ctx.header && os[j].ctx.header[RetryAfterHeader] == "0"
  }

  lemma LockedOutCons(o: Outcome, os: seq<Outcome>)
    requires LockedOut([o]) && LockedOut(os)
    ensures LockedOut([o] + os)
  {
    var all := [o] + os;
    assert forall j :: 0 < j < |all| ==> all[j] == os[j - 1];
  }

  /** A request on a counter with no deadline that is already at or over the
      limit: refused with 429 and "Retry-After: 0"; the counter goes up by
      one and still has no deadline. */
  lemma OverLimitWithoutDeadline(limit: int, window: nat, s: Counters, c: Context)
    requires Live(s) && s.reachable
    requires CounterKey(c) in s.counts && CounterKey(c) !in s.deadlines
    requires limit <= s.counts[CounterKey(c)] && 1 <= s.counts[CounterKey(c)] < MaxInt64
    ensures var key := CounterKey(c);
      var r := LimitStep(Limited(limit, window), s, c);
      && Live(r.0) && r.0.reachable
      && key in r.0.counts && r.0.counts[key] == s.counts[key] + 1 && key !in r.0.deadlines
      && LockedOut([r.1])
  {
    var key := CounterKey(c);
    var (s1, incr) := IncrStep(s, key);
    assert s1.counts == s.counts[key := s.counts[key] + 1] && s1.deadlines == s.deadlines;
    assert Live(s1);
    assert TtlStep(s1, key) == NoDeadline;
    assert NatToString(0) == "0";
  }

  /** The cost of setting the deadline in a second command: if the service
      dies between INCR and EXPIRE, the counter is left without a deadline.
      From then on no amount of waiting removes it, and once it has reached
      the limit every request is refused with 429 and "Retry-After: 0". */
  lemma {:induction false} LostExpireLocksOut(limit: int, window: nat, s: Counters, c: Context, events: seq<Event>)
    requires Live(s) && s.reachable
    requires CounterKey(c) in s.counts && CounterKey(c) !in s.deadlines
    requires limit <= s.counts[CounterKey(c)] && 1 <= s.counts[CounterKey(c)]
    requires s.counts[CounterKey(c)] + |events| < MaxInt64
    ensures LockedOut(Run(Limited(limit, window), s, c, events).1)
    decreases |events|
  {
    var l := Limited(limit, window);
    if |events| > 0 {
      var rest := events[1..];
      if events[0].Wait? {
        TickKeepsLive(s, events[0].dt);
        LostExpireLocksOut(limit, window, TickStep(s, events[0].dt), c, rest);
      } else {
        var step := LimitStep(l, s, c);
        OverLimitWithoutDeadline(limit, window, s, c);
        LostExpireLocksOut(limit, window, step.0, c, rest);
        LockedOutCons(step.1, Run(l, step.0, c, rest).1);
      }
    }
  }

  /** The state that crash leaves behind: INCR ran on an absent counter and
      EXPIRE never did. */
  lemma CrashAfterIncrLeavesNoDeadline(s: Counters, key: string)
    requires Live(s) && s.reachable && key !in s.counts
    ensures var t := IncrStep(s, key).0;
      Live(t) && key in t.counts && t.counts[key] == 1 && key !in t.deadlines
  {
  }

  /** The pass-through limiter forwards every request. */
  lemma {:induction false} PassThroughNeverRefuses(s: Counters, c: Context, events: seq<Event>)
    ensures forall j :: 0 <= j < |Run(PassThrough, s, c, events).1| ==>
      Run(PassThrough, s, c, events).1[j] == Continue(c)
    decreases |events|
  {
    if |events| > 0 {
      var s1 := if events[0].Wait? then TickStep(s, events[0].dt) else s;
      PassThroughNeverRefuses(s1, c, events[1..]);
    }
  }
}
