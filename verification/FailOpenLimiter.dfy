/** The rate limiters as objects, and how much a fleet of processes admits while Redis comes and goes. */
module FailOpenLimiter {
  import opened Collections
  import opened TokenBucket

  /** A call to Redis: answered; executed but the reply lost; not executed. The last two raise RedisError. */
  datatype Outcome = Answered | ReplyLost | Down

  // ---------- The limiters ----------

  class RedisTokenBucketRateLimiter {
    var entries: map<string, Entry>

    constructor ()
      ensures entries == map[]
    {
      entries := map[];
    }

    function Stored(key: string): Option<Entry>
      reads this
    {
      if key in entries then Some(entries[key]) else None
    }

    /** The script, run at a moment. */
    method Check(key: string, limit: Positive, window: Positive, m: Moment) returns (r: RateLimitResult)
      modifies this
      ensures r == ScriptAnswer(PerWindow(limit, window), Live(old(Stored(key)), m.redis), m.now)
      ensures r.allowed <==> Refilled(PerWindow(limit, window), Live(old(Stored(key)), m.redis), m.now) >= 1.0
      ensures entries == old(entries)[key := AfterEntry(PerWindow(limit, window), old(Stored(key)), m)]
    {
      var p := PerWindow(limit, window);
      var tokens, ts := limit as real, m.now;
      if key in entries && m.redis < entries[key].expiresAt {
        tokens, ts := entries[key].bucket.tokens, entries[key].bucket.ts;
      } else {
        NothingEarned(p, m.now);
      }
      tokens := Min(limit as real, tokens + Earned(p, ts, m.now));
      var allowed := tokens >= 1.0;
      if allowed {
        tokens := tokens - 1.0;
      }
      entries := entries[key := Entry(Bucket(tokens, m.now), m.redis + Ttl(p) as real)];
      var resetSeconds := 0;
      if tokens < limit as real {
        resetSeconds := Ceil((limit as real - tokens) / p.rate);
      }
      r := RateLimitResult(allowed, limit, tokens.Floor, resetSeconds);
    }
  }

  class LocalTokenBucketRateLimiter {
    var buckets: map<string, Bucket>

    constructor ()
      ensures buckets == map[]
    {
      buckets := map[];
    }

    function Held(key: string): Option<Bucket>
      reads this
    {
      if key in buckets then Some(buckets[key]) else None
    }

    method Check(key: string, limit: Positive, window: Positive, now: real) returns (r: RateLimitResult)
      modifies this
      ensures r == LocalAnswer(PerWindow(limit, window), old(Held(key)), now)
      ensures r.allowed <==> Refilled(PerWindow(limit, window), old(Held(key)), now) >= 1.0
      ensures buckets == old(buckets)[key := After(PerWindow(limit, window), old(Held(key)), now)]
    {
      var p := PerWindow(limit, window);
      var tokens, ts := limit as real, now;
      if key in buckets {
        tokens, ts := buckets[key].tokens, buckets[key].ts;
      } else {
        NothingEarned(p, now);
      }
      tokens := Min(limit as real, tokens + Earned(p, ts, now));
      var allowed := tokens >= 1.0;
      if allowed {
        tokens := tokens - 1.0;
      }
      buckets := buckets[key := Bucket(tokens, now)];
      var resetSeconds := 0;
      if tokens < limit as real {
        resetSeconds := ((limit as real - tokens) / p.rate + 0.999).Floor;
      }
      r := RateLimitResult(allowed, limit, tokens.Floor, resetSeconds);
    }
  }

  /** One process: the shared Redis limiter first, its own buckets when that raises. */
  class FailOpenRateLimiter {
    const primary: RedisTokenBucketRateLimiter
    const fallback: LocalTokenBucketRateLimiter

    constructor (primary: RedisTokenBucketRateLimiter, fallback: LocalTokenBucketRateLimiter)
      ensures this.primary == primary && this.fallback == fallback
    {
      this.primary := primary;
      this.fallback := fallback;
    }

    /** The two limiters' buckets for one key, as one process of a fleet of one. */
    function View(key: string, redis: real): Fleet
      reads primary, fallback
    {
      Fleet(Live(primary.Stored(key), redis), [fallback.Held(key)])
    }

    method Check(key: string, limit: Positive, window: Positive, m: Moment, outcome: Outcome)
      returns (r: RateLimitResult)
      modifies primary, fallback
      ensures var p, was := PerWindow(limit, window), old(View(key, m.redis));
              && r == (if outcome == Answered then ScriptAnswer(p, was.redis, m.now)
                       else LocalAnswer(p, was.locals[0], m.now))
              && r.allowed == Grants(p, was, Request(0, m.now, outcome))
              && View(key, m.redis) == Next(p, was, Request(0, m.now, outcome))
      ensures forall other :: other != key ==> View(other, m.redis) == old(View(other, m.redis))
    {
      TtlIsTwoWindows(limit, window);
      if outcome != Down {
        r := primary.Check(key, limit, window, m);
      }
      if outcome != Answered {
        r := fallback.Check(key, limit, window, m.now);
      }
    }
  }

  // ---------- A fleet of processes ----------

  /** The buckets of one key: the shared one and one per process. */
  datatype Fleet = Fleet(redis: Option<Bucket>, locals: seq<Option<Bucket>>)

  datatype Request = Request(process: nat, now: real, outcome: Outcome)

  predicate Grants(p: Policy, f: Fleet, r: Request) {
    r.process < |f.locals| &&
    Allowed(p, if r.outcome == Answered then f.redis else f.locals[r.process], r.now)
  }

  function Next(p: Policy, f: Fleet, r: Request): Fleet {
    if r.process >= |f.locals| then f
    else
      Fleet(if r.outcome == Down then f.redis else Some(After(p, f.redis, r.now)),
            if r.outcome == Answered then f.locals
            else f.locals[r.process := Some(After(p, f.locals[r.process], r.now))])
  }

  function FleetAdmitted(p: Policy, f: Fleet, rs: seq<Request>): nat
    decreases |rs|
  {
    if rs == [] then 0
    else (if Grants(p, f, rs[0]) then 1 else 0) + FleetAdmitted(p, Next(p, f, rs[0]), rs[1..])
  }

  function Times(rs: seq<Request>): seq<real> {
    if rs == [] then [] else [rs[0].now] + Times(rs[1..])
  }

  function Copies(n: nat, x: real): real {
    if n == 0 then 0.0 else x + Copies(n - 1, x)
  }

  lemma {:induction false} CopiesIsTimes(n: nat, x: real)
    ensures Copies(n, x) == n as real * x
  {
    if n > 0 {
      CopiesIsTimes(n - 1, x);
      assert n as real * x == (n - 1) as real * x + x;
    }
  }

  lemma {:induction false} CopiesAdd(n: nat, x: real, y: real)
    ensures Copies(n, x) + Copies(n, y) == Copies(n, x + y)
  {
    if n > 0 {
      CopiesAdd(n - 1, x, y);
    }
  }

  /** Tokens all local buckets would have at a time. */
  function Pooled(p: Policy, locals: seq<Option<Bucket>>, t: real): real {
    if locals == [] then 0.0 else Refilled(p, locals[0], t) + Pooled(p, locals[1..], t)
  }

  ghost predicate Sound(p: Policy, f: Fleet) {
    InRange(p, f.redis) && forall i :: 0 <= i < |f.locals| ==> InRange(p, f.locals[i])
  }

  /** No bucket gains more than the clock's forward step refills. */
  lemma RefillStep(p: Policy, cell: Option<Bucket>, t: real, now: real)
    ensures Refilled(p, cell, now) <= Refilled(p, cell, t) + Earned(p, t, now)
  {
    if cell.Some? {
      EarnedStep(p, cell.value.ts, t, now);
    }
  }

  lemma EarnedStep(p: Policy, from: real, t: real, now: real)
    ensures Earned(p, from, now) <= Earned(p, from, t) + Earned(p, t, now)
  {
    Distribute(Ahead(from, t), Ahead(t, now), p.rate);
    var slack := Ahead(from, t) + Ahead(t, now) - Ahead(from, now);
    assert slack * p.rate >= 0.0;
    Distribute(Ahead(from, now), slack, p.rate);
  }

  lemma {:induction false} PooledStep(p: Policy, locals: seq<Option<Bucket>>, t: real, now: real)
    ensures Pooled(p, locals, now) <= Pooled(p, locals, t) + Copies(|locals|, Earned(p, t, now))
  {
    if locals != [] {
      RefillStep(p, locals[0], t, now);
      PooledStep(p, locals[1..], t, now);
    }
  }

  lemma {:induction false} PooledUpdate(p: Policy, locals: seq<Option<Bucket>>, i: nat, cell: Option<Bucket>, t: real)
    requires i < |locals|
    ensures Pooled(p, locals[i := cell], t) == Pooled(p, locals, t) - Refilled(p, locals[i], t) + Refilled(p, cell, t)
  {
    if i > 0 {
      assert locals[i := cell][1..] == locals[1..][i - 1 := cell];
      PooledUpdate(p, locals[1..], i - 1, cell, t);
    } else {
      assert locals[i := cell][1..] == locals[1..];
    }
  }

  lemma {:induction false} PooledFull(p: Policy, locals: seq<Option<Bucket>>, t: real)
    ensures Pooled(p, locals, t) <= Copies(|locals|, p.limit as real)
  {
    if locals != [] {
      PooledFull(p, locals[1..], t);
    }
  }

  /** A check spends exactly what it grants. */
  lemma CheckSpends(p: Policy, cell: Option<Bucket>, now: real)
    requires InRange(p, cell)
    ensures InRange(p, Some(After(p, cell, now)))
    ensures Refilled(p, Some(After(p, cell, now)), now) + (if Allowed(p, cell, now) then 1.0 else 0.0) ==
            Refilled(p, cell, now)
  {
    FirstCheck(p, cell, now);
    NothingEarned(p, now);
  }

  function Supply(p: Policy, f: Fleet, t: real): real {
    Refilled(p, f.redis, t) + Pooled(p, f.locals, t)
  }

  lemma RequestSpends(p: Policy, f: Fleet, r: Request)
    requires Sound(p, f)
    ensures Sound(p, Next(p, f, r))
    ensures Supply(p, Next(p, f, r), r.now) + (if Grants(p, f, r) then 1.0 else 0.0) <= Supply(p, f, r.now)
  {
    if r.process < |f.locals| {
      var own := f.locals[r.process];
      CheckSpends(p, f.redis, r.now);
      CheckSpends(p, own, r.now);
      PooledUpdate(p, f.locals, r.process, Some(After(p, own, r.now)), r.now);
    }
  }

  lemma SupplyStep(p: Policy, f: Fleet, t: real, now: real)
    ensures Supply(p, f, now) <= Supply(p, f, t) + Copies(|f.locals| + 1, Earned(p, t, now))
  {
    RefillStep(p, f.redis, t, now);
    PooledStep(p, f.locals, t, now);
  }

  lemma {:induction false} FleetStep(p: Policy, f: Fleet, t: real, rs: seq<Request>)
    requires Sound(p, f)
    ensures FleetAdmitted(p, f, rs) as real <=
            Supply(p, f, t) + Copies(|f.locals| + 1, Refills(p, t, Times(rs)))
    decreases |rs|
  {
    var n := |f.locals| + 1;
    if rs == [] {
      CopiesIsTimes(n, 0.0);
      SupplyNonNegative(p, f, t);
    } else {
      var r, f' := rs[0], Next(p, f, rs[0]);
      RequestSpends(p, f, r);
      SupplyStep(p, f, t, r.now);
      FleetStep(p, f', r.now, rs[1..]);
      assert Times(rs)[1..] == Times(rs[1..]);
      CopiesAdd(n, Earned(p, t, r.now), Refills(p, r.now, Times(rs[1..])));
    }
  }

  lemma {:induction false} PooledNonNegative(p: Policy, locals: seq<Option<Bucket>>, t: real)
    requires forall i :: 0 <= i < |locals| ==> InRange(p, locals[i])
    ensures Pooled(p, locals, t) >= 0.0
  {
    if locals != [] {
      PooledNonNegative(p, locals[1..], t);
    }
  }

  lemma SupplyNonNegative(p: Policy, f: Fleet, t: real)
    requires Sound(p, f)
    ensures Supply(p, f, t) >= 0.0
  {
    PooledNonNegative(p, f.locals, t);
  }

  function FleetAfter(p: Policy, f: Fleet, rs: seq<Request>): Fleet
    decreases |rs|
  {
    if rs == [] then f else FleetAfter(p, Next(p, f, rs[0]), rs[1..])
  }

  lemma {:induction false} SoundAfter(p: Policy, f: Fleet, rs: seq<Request>)
    requires Sound(p, f)
    ensures Sound(p, FleetAfter(p, f, rs)) && |FleetAfter(p, f, rs).locals| == |f.locals|
    decreases |rs|
  {
    if rs != [] {
      RequestSpends(p, f, rs[0]);
      SoundAfter(p, Next(p, f, rs[0]), rs[1..]);
    }
  }

  function Untouched(processes: nat): Fleet {
    Fleet(None, seq(processes, _ => None))
  }

  lemma WindowBound(p: Policy, f: Fleet, rs: seq<Request>)
    requires Sound(p, f) && rs != []
    ensures FleetAdmitted(p, f, rs) as real <=
            Copies(|f.locals| + 1, p.limit as real + Refills(p, rs[0].now, Times(rs[1..])))
  {
    var n, t, refills := |f.locals| + 1, rs[0].now, Refills(p, rs[0].now, Times(rs[1..]));
    var supply := Supply(p, f, t);
    assert FleetAdmitted(p, f, rs) as real <= supply + Copies(n, refills) by {
      FleetStep(p, f, t, rs);
      RefillsFromFirst(p, rs);
    }
    assert supply <= Copies(n, p.limit as real) by {
      SupplyFull(p, f, t);
    }
    CopiesAdd(n, p.limit as real, refills);
  }

  lemma SupplyFull(p: Policy, f: Fleet, t: real)
    ensures Supply(p, f, t) <= Copies(|f.locals| + 1, p.limit as real)
  {
    PooledFull(p, f.locals, t);
  }

  lemma RefillsFromFirst(p: Policy, rs: seq<Request>)
    requires rs != []
    ensures Refills(p, rs[0].now, Times(rs)) == Refills(p, rs[0].now, Times(rs[1..]))
  {
    assert Times(rs)[1..] == Times(rs[1..]);
    NothingEarned(p, rs[0].now);
  }

  /** Bounded blast radius: N processes that fail over to their own buckets and back, in any pattern of outages and
      lost replies and under any clock, admit in any window at most N+1 times what one bucket may. */
  lemma FleetBound(p: Policy, processes: nat, before: seq<Request>, window: seq<Request>)
    requires window != []
    ensures FleetAdmitted(p, FleetAfter(p, Untouched(processes), before), window) as real <=
            Copies(processes + 1, p.limit as real + Refills(p, window[0].now, Times(window[1..])))
  {
    var f := FleetAfter(p, Untouched(processes), before);
    assert Sound(p, f) && |f.locals| == processes by {
      SoundAfter(p, Untouched(processes), before);
    }
    WindowBound(p, f, window);
  }

  // ---------- With key expiry ----------

  /** A request and Redis's clock when it is made. */
  datatype TimedRequest = TimedRequest(r: Request, redis: real)

  datatype ExpiringFleet = ExpiringFleet(entry: Option<Entry>, locals: seq<Option<Bucket>>)

  predicate Executes(f: ExpiringFleet, q: TimedRequest) {
    q.r.process < |f.locals| && q.r.outcome != Down
  }

  function LiveFleet(f: ExpiringFleet, redis: real): Fleet {
    Fleet(Live(f.entry, redis), f.locals)
  }

  function NextExpiring(p: Policy, f: ExpiringFleet, q: TimedRequest): ExpiringFleet {
    ExpiringFleet(if Executes(f, q) then Some(AfterEntry(p, f.entry, Moment(q.r.now, q.redis))) else f.entry,
                  Next(p, LiveFleet(f, q.redis), q.r).locals)
  }

  function ExpiringAdmitted(p: Policy, f: ExpiringFleet, qs: seq<TimedRequest>): nat
    decreases |qs|
  {
    if qs == [] then 0
    else
      (if Grants(p, LiveFleet(f, qs[0].redis), qs[0].r) then 1 else 0)
      + ExpiringAdmitted(p, NextExpiring(p, f, qs[0]), qs[1..])
  }

  function Untimed(qs: seq<TimedRequest>): seq<Request> {
    if qs == [] then [] else [qs[0].r] + Untimed(qs[1..])
  }

  /** From one execution of the script to the next, while Redis's clock moves two windows, the callers' moves one. */
  ghost predicate ExecutionsAgree(window: Positive, last: Option<Moment>, processes: nat, qs: seq<TimedRequest>)
    decreases |qs|
  {
    qs != [] ==>
      var m := Moment(qs[0].r.now, qs[0].redis);
      if qs[0].r.process < processes && qs[0].r.outcome != Down then
        (last.Some? ==> ClocksAgree(window, last.value, [m])) && ExecutionsAgree(window, Some(m), processes, qs[1..])
      else ExecutionsAgree(window, last, processes, qs[1..])
  }

  /** The expiring fleet and the one whose key never expires are in the same state. */
  ghost predicate InStep(limit: Positive, window: Positive, last: Option<Moment>, f: ExpiringFleet, g: Fleet) {
    && g.locals == f.locals
    && (f.entry.None? <==> g.redis.None?) && (f.entry.Some? ==> last.Some?)
    && (f.entry.Some? ==> Twin(PerWindow(limit, window), 2 * window, f.entry.value, g.redis.value, last.value))
  }

  /** A live entry or none, the two answer and change alike. */
  lemma InStepStep(limit: Positive, window: Positive, last: Option<Moment>, f: ExpiringFleet, g: Fleet, q: TimedRequest)
    requires InStep(limit, window, last, f, g) && ExecutionsAgree(window, last, |f.locals|, [q])
    ensures var p := PerWindow(limit, window);
            && Grants(p, LiveFleet(f, q.redis), q.r) == Grants(p, g, q.r)
            && InStep(limit, window, if Executes(f, q) then Some(Moment(q.r.now, q.redis)) else last,
                      NextExpiring(p, f, q), Next(p, g, q.r))
  {
    var p, m := PerWindow(limit, window), Moment(q.r.now, q.redis);
    if Executes(f, q) {
      TtlIsTwoWindows(limit, window);
      FirstCheck(p, g.redis, q.r.now);
      if f.entry.Some? {
        ExpiryStep(limit, window, f.entry.value, g.redis.value, last.value, m);
      }
    }
  }

  lemma {:induction false} ExpiryInvisibleToFleet(
    limit: Positive, window: Positive, last: Option<Moment>, f: ExpiringFleet, g: Fleet, qs: seq<TimedRequest>)
    requires InStep(limit, window, last, f, g) && ExecutionsAgree(window, last, |f.locals|, qs)
    ensures ExpiringAdmitted(PerWindow(limit, window), f, qs)
         == FleetAdmitted(PerWindow(limit, window), g, Untimed(qs))
    decreases |qs|
  {
    if qs != [] {
      var p, q := PerWindow(limit, window), qs[0];
      assert ExecutionsAgree(window, last, |f.locals|, [q]) by {
        assert [q][1..] == [];
      }
      InStepStep(limit, window, last, f, g, q);
      assert Untimed(qs)[1..] == Untimed(qs[1..]);
      ExpiryInvisibleToFleet(limit, window, if Executes(f, q) then Some(Moment(q.r.now, q.redis)) else last,
                             NextExpiring(p, f, q), Next(p, g, q.r), qs[1..]);
    }
  }

  function ExpiringFleetAfter(p: Policy, f: ExpiringFleet, qs: seq<TimedRequest>): ExpiringFleet
    decreases |qs|
  {
    if qs == [] then f else ExpiringFleetAfter(p, NextExpiring(p, f, qs[0]), qs[1..])
  }

  /** A stretch of requests leaves the two in step, and the clocks agree over what follows it. */
  lemma {:induction false} InStepAfter(limit: Positive, window: Positive, last: Option<Moment>, f: ExpiringFleet,
                                       g: Fleet, before: seq<TimedRequest>, rest: seq<TimedRequest>)
    returns (last': Option<Moment>)
    requires InStep(limit, window, last, f, g) && ExecutionsAgree(window, last, |f.locals|, before + rest)
    ensures var p := PerWindow(limit, window);
            && InStep(limit, window, last', ExpiringFleetAfter(p, f, before), FleetAfter(p, g, Untimed(before)))
            && ExecutionsAgree(window, last', |f.locals|, rest)
            && |ExpiringFleetAfter(p, f, before).locals| == |f.locals|
    decreases |before|
  {
    last' := last;
    if before == [] {
      assert before + rest == rest;
    } else {
      var p, q := PerWindow(limit, window), before[0];
      HeadAndTail(before, rest);
      assert ExecutionsAgree(window, last, |f.locals|, [q]) by {
        assert [q][1..] == [];
      }
      InStepStep(limit, window, last, f, g, q);
      assert Untimed(before)[1..] == Untimed(before[1..]);
      last' := InStepAfter(limit, window, if Executes(f, q) then Some(Moment(q.r.now, q.redis)) else last,
                           NextExpiring(p, f, q), Next(p, g, q.r), before[1..], rest);
    }
  }

  /** The bound with Redis's key expiry: on clocks that agree between executions of the script, N processes admit in
      any window at most N+1 times what one bucket may. */
  lemma ExpiringFleetBound(limit: Positive, window: Positive, processes: nat,
                           before: seq<TimedRequest>, during: seq<TimedRequest>)
    requires during != [] && ExecutionsAgree(window, None, processes, before + during)
    ensures var p := PerWindow(limit, window);
            var f := ExpiringFleetAfter(p, ExpiringFleet(None, seq(processes, _ => None)), before);
            ExpiringAdmitted(p, f, during) as real <=
              Copies(processes + 1, limit as real + Refills(p, during[0].r.now, Times(Untimed(during[1..]))))
  {
    var p, start := PerWindow(limit, window), ExpiringFleet(None, seq(processes, _ => None));
    var last := InStepAfter(limit, window, None, start, Untouched(processes), before, during);
    ExpiryInvisibleToFleet(limit, window, last, ExpiringFleetAfter(p, start, before),
                           FleetAfter(p, Untouched(processes), Untimed(before)), during);
    assert Untimed(during)[1..] == Untimed(during[1..]);
    FleetBound(p, processes, Untimed(before), Untimed(during));
  }
}
