/** Continuous-refill token buckets: the Redis script, its in-process twin, and the fail-open combination. Time and
    tokens are real numbers. */
module TokenBucket {
  import opened Collections

  /** What a check asks of a bucket: its capacity, and tokens refilled per second. */
  datatype Terms = Terms(limit: nat, rate: real)

  type Policy = p: Terms | p.limit > 0 && p.rate > 0.0 witness Terms(1, 1.0)

  datatype Bucket = Bucket(tokens: real, ts: real)

  datatype RateLimitResult = RateLimitResult(allowed: bool, limit: int, remaining: int, resetSeconds: int)

  type Positive = n: nat | n > 0 witness 1

  /** limit requests per window of so many seconds. */
  function PerWindow(limit: Positive, window: Positive): (p: Policy)
    ensures p.limit == limit && p.rate * window as real == limit as real
  {
    Terms(limit, limit as real / window as real)
  }

  function Min(a: real, b: real): real {
    if a <= b then a else b
  }

  /** How far the clock went forward from one reading to the next. */
  function Ahead(from: real, to: real): real {
    if to > from then to - from else 0.0
  }

  /** Tokens refilled between two readings. */
  function Earned(p: Policy, from: real, to: real): (r: real)
    ensures r >= 0.0
  {
    Ahead(from, to) * p.rate
  }

  function Ceil(x: real): int {
    if x.Floor as real == x then x.Floor else x.Floor + 1
  }

  /** Tokens on hand at a check, before it takes one; a missing key is a full bucket. */
  function Refilled(p: Policy, cell: Option<Bucket>, now: real): real {
    match cell
    case None => p.limit as real
    case Some(b) => Min(p.limit as real, b.tokens + Earned(p, b.ts, now))
  }

  predicate Allowed(p: Policy, cell: Option<Bucket>, now: real) {
    Refilled(p, cell, now) >= 1.0
  }

  /** The bucket a check leaves behind, stamped with the check's own time even when the clock went back. */
  function After(p: Policy, cell: Option<Bucket>, now: real): Bucket {
    Bucket(Refilled(p, cell, now) - (if Allowed(p, cell, now) then 1.0 else 0.0), now)
  }

  /** The script's retry hint. */
  function ScriptReset(p: Policy, tokens: real): int {
    if tokens < p.limit as real then Ceil((p.limit as real - tokens) / p.rate) else 0
  }

  /** The in-process twin's retry hint; int() of a positive number is its floor. */
  function LocalReset(p: Policy, tokens: real): int {
    if tokens >= p.limit as real then 0 else ((p.limit as real - tokens) / p.rate + 0.999).Floor
  }

  // ---------- The admission bound ----------

  function Admitted(p: Policy, cell: Option<Bucket>, times: seq<real>): nat
    decreases |times|
  {
    if times == [] then 0
    else
      (if Allowed(p, cell, times[0]) then 1 else 0) +
      Admitted(p, Some(After(p, cell, times[0])), times[1..])
  }

  /** Sum of the clock's forward steps. */
  function Forward(from: real, times: seq<real>): (sum: real)
    ensures sum >= 0.0
    decreases |times|
  {
    if times == [] then 0.0 else Ahead(from, times[0]) + Forward(times[0], times[1..])
  }

  lemma Distribute(a: real, b: real, r: real)
    ensures (a + b) * r == a * r + b * r
  {
  }

  /** Tokens refilled by the forward steps. */
  ghost function Refills(p: Policy, from: real, times: seq<real>): real
    decreases |times|
  {
    if times == [] then 0.0 else Earned(p, from, times[0]) + Refills(p, times[0], times[1..])
  }

  /** Rate times the sum of the forward steps. */
  lemma {:induction false} RefillsAreForward(p: Policy, from: real, times: seq<real>)
    ensures Refills(p, from, times) == Forward(from, times) * p.rate
    decreases |times|
  {
    if times != [] {
      RefillsAreForward(p, times[0], times[1..]);
      Distribute(Ahead(from, times[0]), Forward(times[0], times[1..]), p.rate);
    }
  }

  lemma OneCheck(p: Policy, b: Bucket, now: real)
    requires 0.0 <= b.tokens
    ensures 0.0 <= After(p, Some(b), now).tokens
    ensures After(p, Some(b), now).tokens + (if Allowed(p, Some(b), now) then 1.0 else 0.0) <=
            b.tokens + Earned(p, b.ts, now)
  {
  }

  lemma {:induction false} AdmittedFromBucket(p: Policy, b: Bucket, times: seq<real>)
    requires 0.0 <= b.tokens
    ensures Admitted(p, Some(b), times) as real <= b.tokens + Refills(p, b.ts, times)
    decreases |times|
  {
    if times != [] {
      OneCheck(p, b, times[0]);
      AdmittedFromBucket(p, After(p, Some(b), times[0]), times[1..]);
    }
  }

  lemma FirstCheck(p: Policy, cell: Option<Bucket>, now: real)
    requires InRange(p, cell)
    ensures InRange(p, Some(After(p, cell, now)))
    ensures After(p, cell, now).tokens + (if Allowed(p, cell, now) then 1.0 else 0.0) <= p.limit as real
  {
  }

  lemma AdmittedFromCell(p: Policy, cell: Option<Bucket>, window: seq<real>)
    requires InRange(p, cell) && window != []
    ensures Admitted(p, cell, window) as real <= p.limit as real + Refills(p, window[0], window[1..])
  {
    FirstCheck(p, cell, window[0]);
    AdmittedFromBucket(p, After(p, cell, window[0]), window[1..]);
  }

  /** Admission bound under any clock, from any state a run of checks can leave: a window of checks on one key admits
      at most limit plus what the clock's forward steps inside the window refill, even when the clock also goes
      back. RefillsAreForward says how much that is. */
  lemma AdmissionBound(p: Policy, before: seq<real>, window: seq<real>)
    requires window != []
    ensures Admitted(p, CellAfter(p, None, before), window) as real <=
            p.limit as real + Refills(p, window[0], window[1..])
  {
    CellInRange(p, None, before);
    AdmittedFromCell(p, CellAfter(p, None, before), window);
  }

  function CellAfter(p: Policy, cell: Option<Bucket>, times: seq<real>): Option<Bucket>
    decreases |times|
  {
    if times == [] then cell else CellAfter(p, Some(After(p, cell, times[0])), times[1..])
  }

  predicate InRange(p: Policy, cell: Option<Bucket>) {
    cell.Some? ==> 0.0 <= cell.value.tokens <= p.limit as real
  }

  lemma {:induction false} CellInRange(p: Policy, cell: Option<Bucket>, times: seq<real>)
    requires InRange(p, cell)
    ensures InRange(p, CellAfter(p, cell, times))
    decreases |times|
  {
    if times != [] {
      FirstCheck(p, cell, times[0]);
      CellInRange(p, Some(After(p, cell, times[0])), times[1..]);
    }
  }

  ghost predicate Monotone(from: real, times: seq<real>)
    decreases |times|
  {
    times == [] || (from <= times[0] && Monotone(times[0], times[1..]))
  }

  lemma {:induction false} RefillsAreElapsed(p: Policy, from: real, times: seq<real>)
    requires Monotone(from, times)
    ensures Refills(p, from, times) == if times == [] then 0.0 else Earned(p, from, times[|times| - 1])
    decreases |times|
  {
    if times != [] {
      RefillsAreElapsed(p, times[0], times[1..]);
      if |times| > 1 {
        MonotoneLast(times[0], times[1..]);
      }
      Distribute(times[0] - from, times[|times| - 1] - times[0], p.rate);
    }
  }

  lemma {:induction false} MonotoneLast(from: real, times: seq<real>)
    requires Monotone(from, times) && times != []
    ensures from <= times[|times| - 1]
    decreases |times|
  {
    if |times| > 1 {
      MonotoneLast(times[0], times[1..]);
    }
  }

  /** On a clock that never goes back, a window admits at most limit + rate * elapsed. */
  lemma AdmissionOverTime(p: Policy, before: seq<real>, window: seq<real>)
    requires window != [] && Monotone(window[0], window[1..])
    ensures Admitted(p, CellAfter(p, None, before), window) as real <=
            p.limit as real + Earned(p, window[0], window[|window| - 1])
  {
    var cell := CellAfter(p, None, before);
    assert InRange(p, cell) by {
      CellInRange(p, None, before);
    }
    AdmittedFromCell(p, cell, window);
    RefillsAreElapsed(p, window[0], window[1..]);
  }

  // ---------- Exactly which checks are admitted ----------

  lemma {:induction false} CellSnoc(p: Policy, cell: Option<Bucket>, times: seq<real>, t: real)
    ensures CellAfter(p, cell, times + [t]) == Some(After(p, CellAfter(p, cell, times), t))
    decreases |times|
  {
    if times == [] {
      assert [] + [t] == [t] && [t][1..] == [];
    } else {
      HeadAndTail(times, [t]);
      CellSnoc(p, Some(After(p, cell, times[0])), times[1..], t);
    }
  }

  lemma {:induction false} AdmittedSnoc(p: Policy, cell: Option<Bucket>, times: seq<real>, t: real)
    ensures Admitted(p, cell, times + [t]) ==
            Admitted(p, cell, times) + if Allowed(p, CellAfter(p, cell, times), t) then 1 else 0
    decreases |times|
  {
    if times == [] {
      assert [] + [t] == [t] && [t][1..] == [];
    } else {
      HeadAndTail(times, [t]);
      AdmittedSnoc(p, Some(After(p, cell, times[0])), times[1..], t);
    }
  }

  lemma {:induction false} CellJoin(p: Policy, cell: Option<Bucket>, a: seq<real>, b: seq<real>)
    ensures CellAfter(p, cell, a + b) == CellAfter(p, CellAfter(p, cell, a), b)
    decreases |a|
  {
    if a == [] {
      assert a + b == b;
    } else {
      HeadAndTail(a, b);
      CellJoin(p, Some(After(p, cell, a[0])), a[1..], b);
    }
  }

  lemma OneReading(p: Policy, from: real, now: real)
    ensures Refills(p, from, [now]) == Earned(p, from, now)
  {
    assert [now][1..] == [];
  }

  lemma {:induction false} RefillsSnoc(p: Policy, from: real, times: seq<real>, t: real, now: real)
    ensures Refills(p, from, times + [t] + [now]) == Refills(p, from, times + [t]) + Earned(p, t, now)
    decreases |times|
  {
    if times == [] {
      assert times + [t] == [t] && times + [t] + [now] == [t, now] && [t, now][1..] == [now];
      OneReading(p, from, t);
      OneReading(p, t, now);
    } else {
      HeadAndTail(times, [t]);
      HeadAndTail(times + [t], [now]);
      RefillsSnoc(p, times[0], times[1..], t, now);
    }
  }

  /** What is left, at a time, of the bound on the window that begins with the k-th check of a run. */
  ghost function Room(p: Policy, times: seq<real>, k: nat, now: real): real
    requires k < |times|
  {
    p.limit as real + Refills(p, times[k], times[k + 1..] + [now])
    - Admitted(p, CellAfter(p, None, times[..k]), times[k..]) as real
  }

  /** Room as the run goes on by one check. */
  lemma RoomSnoc(p: Policy, front: seq<real>, u: real, k: nat, now: real)
    requires k <= |front|
    ensures var taken := if Allowed(p, CellAfter(p, None, front), u) then 1.0 else 0.0;
            Room(p, front + [u], k, now) ==
            (if k < |front| then Room(p, front, k, u) else p.limit as real) + Earned(p, u, now) - taken
  {
    var times := front + [u];
    if k < |front| {
      assert times[..k] == front[..k] && times[k..] == front[k..] + [u] && times[k + 1..] == front[k + 1..] + [u];
      RefillsSnoc(p, front[k], front[k + 1..], u, now);
      AdmittedSnoc(p, CellAfter(p, None, front[..k]), front[k..], u);
      assert front == front[..k] + front[k..];
      CellJoin(p, None, front[..k], front[k..]);
    } else {
      assert times[..k] == front && times[k..] == [u] && times[k + 1..] + [now] == [now] && front[..k] == front;
      OneReading(p, u, now);
      AdmittedSnoc(p, CellAfter(p, None, front), [], u);
      assert [] + [u] == [u];
    }
  }

  /** The bucket holds what the scarcest window leaves, up to the limit. */
  ghost predicate HoldsLeast(p: Policy, times: seq<real>, now: real, tokens: real) {
    && tokens <= p.limit as real
    && (forall k :: 0 <= k < |times| ==> tokens <= Room(p, times, k, now))
    && (tokens == p.limit as real || exists k :: 0 <= k < |times| && tokens == Room(p, times, k, now))
  }

  lemma {:induction false} TokensAreLeastRoom(p: Policy, times: seq<real>, now: real)
    ensures HoldsLeast(p, times, now, Refilled(p, CellAfter(p, None, times), now))
    decreases |times|
  {
    if times != [] {
      var n := |times| - 1;
      var front, u := times[..n], times[n];
      assert times == front + [u];
      TokensAreLeastRoom(p, front, u);
      CellSnoc(p, None, front, u);
      var had := Refilled(p, CellAfter(p, None, front), u);
      var tokens := Refilled(p, CellAfter(p, None, times), now);
      forall k | 0 <= k < |times|
        ensures tokens <= Room(p, times, k, now)
      {
        RoomSnoc(p, front, u, k, now);
      }
      if tokens != p.limit as real {
        var k :| 0 <= k <= n && had == if k < n then Room(p, front, k, u) else p.limit as real;
        RoomSnoc(p, front, u, k, now);
        assert tokens == Room(p, times, k, now);
      }
    }
  }

  /** The limiter refuses nothing it need not: after any run of checks on a key, under any clock, a check is admitted
      if and only if no window that ends with it would then hold more than the limit plus its refills. */
  lemma AdmittedExactlyWhenRoom(p: Policy, times: seq<real>, now: real)
    ensures Allowed(p, CellAfter(p, None, times), now) <==>
            forall k :: 0 <= k < |times| ==> Room(p, times, k, now) >= 1.0
  {
    TokensAreLeastRoom(p, times, now);
  }

  /** n checks at one instant. */
  function Burst(now: real, n: nat): seq<real> {
    if n == 0 then [] else [now] + Burst(now, n - 1)
  }

  lemma {:induction false} BurstFrom(p: Policy, b: Bucket, n: nat)
    requires 0.0 <= b.tokens <= p.limit as real
    ensures Admitted(p, Some(b), Burst(b.ts, n)) == if n <= b.tokens.Floor then n else b.tokens.Floor
    decreases n
  {
    if n > 0 {
      NothingEarned(p, b.ts);
      var after := After(p, Some(b), b.ts);
      assert Burst(b.ts, n)[1..] == Burst(b.ts, n - 1);
      BurstFrom(p, after, n - 1);
      assert b.tokens >= 1.0 ==> after.tokens == b.tokens - 1.0 && after.tokens.Floor == b.tokens.Floor - 1;
    }
  }

  /** From an untouched key a burst of checks is admitted up to the limit, and no further. */
  lemma BurstIsTheLimit(p: Policy, now: real, n: nat)
    ensures Admitted(p, None, Burst(now, n)) == if n <= p.limit then n else p.limit
  {
    if n > 0 {
      assert Burst(now, n)[1..] == Burst(now, n - 1);
      BurstFrom(p, After(p, None, now), n - 1);
    }
  }

  /** `remaining` is how many more checks would be admitted at the same instant. */
  lemma RemainingMeaning(p: Policy, times: seq<real>, now: real, n: nat)
    ensures var cell := CellAfter(p, None, times);
            var remaining := ScriptAnswer(p, cell, now).remaining;
            && Admitted(p, Some(After(p, cell, now)), Burst(now, n)) == (if n <= remaining then n else remaining)
            && LocalAnswer(p, cell, now).remaining == remaining
  {
    var cell := CellAfter(p, None, times);
    assert InRange(p, cell) by {
      CellInRange(p, None, times);
    }
    FirstCheck(p, cell, now);
    BurstFrom(p, After(p, cell, now), n);
  }

  // ---------- Key expiry ----------

  /** A stored bucket and the moment, on Redis's own clock, its key disappears. */
  datatype Entry = Entry(bucket: Bucket, expiresAt: real)

  /** One check: the caller's clock and Redis's. */
  datatype Moment = Moment(now: real, redis: real)

  function Ttl(p: Policy): int {
    Ceil(p.limit as real / p.rate) * 2
  }

  function Live(entry: Option<Entry>, redis: real): Option<Bucket> {
    if entry.None? || redis >= entry.value.expiresAt then None else Some(entry.value.bucket)
  }

  function AfterEntry(p: Policy, entry: Option<Entry>, m: Moment): Entry {
    Entry(After(p, Live(entry, m.redis), m.now), m.redis + Ttl(p) as real)
  }

  /** What a check tells the caller. */
  function Answer(p: Policy, cell: Option<Bucket>, now: real, reset: int): RateLimitResult {
    RateLimitResult(Allowed(p, cell, now), p.limit, After(p, cell, now).tokens.Floor, reset)
  }

  function ScriptAnswer(p: Policy, cell: Option<Bucket>, now: real): RateLimitResult {
    Answer(p, cell, now, ScriptReset(p, After(p, cell, now).tokens))
  }

  function LocalAnswer(p: Policy, cell: Option<Bucket>, now: real): RateLimitResult {
    Answer(p, cell, now, LocalReset(p, After(p, cell, now).tokens))
  }

  function Answers(p: Policy, entry: Option<Entry>, ms: seq<Moment>): seq<RateLimitResult>
    decreases |ms|
  {
    if ms == [] then []
    else
      [ScriptAnswer(p, Live(entry, ms[0].redis), ms[0].now)] +
      Answers(p, Some(AfterEntry(p, entry, ms[0])), ms[1..])
  }

  /** The same script if keys never expired. */
  function AnswersForever(p: Policy, cell: Option<Bucket>, ms: seq<Moment>): seq<RateLimitResult>
    decreases |ms|
  {
    if ms == [] then []
    else [ScriptAnswer(p, cell, ms[0].now)] + AnswersForever(p, Some(After(p, cell, ms[0].now)), ms[1..])
  }

  lemma DivideBack(a: real, b: real)
    requires b > 0.0
    ensures (b * a) / b == a
  {
  }

  lemma TtlIsTwoWindows(limit: Positive, window: Positive)
    ensures Ttl(PerWindow(limit, window)) == 2 * window
  {
    var p := PerWindow(limit, window);
    DivideBack(window as real, p.rate);
    assert p.limit as real / p.rate == window as real;
  }

  /** An expired key goes unnoticed by a check exactly when its bucket would have been full again anyway. */
  lemma ExpiryUnnoticedIffFull(p: Policy, b: Bucket, now: real)
    requires InRange(p, Some(b))
    ensures Allowed(p, Some(b), now) && After(p, None, now) == After(p, Some(b), now) <==>
            b.tokens + Earned(p, b.ts, now) >= p.limit as real
  {
  }

  /** While Redis's clock moves two windows, the caller's moves at least one. A shared clock that never goes back
      satisfies this. */
  ghost predicate ClocksAgree(window: Positive, from: Moment, ms: seq<Moment>)
    decreases |ms|
  {
    ms == [] ||
    (&& (ms[0].redis - from.redis >= 2.0 * window as real ==> ms[0].now - from.now >= window as real)
     && ClocksAgree(window, ms[0], ms[1..]))
  }

  lemma Enough(seconds: real, window: real, rate: real)
    requires seconds >= window && rate > 0.0
    ensures seconds * rate >= rate * window
  {
  }

  lemma WindowRefills(limit: Positive, window: Positive, from: real, to: real)
    requires to - from >= window as real
    ensures Earned(PerWindow(limit, window), from, to) >= limit as real
  {
    Enough(to - from, window as real, PerWindow(limit, window).rate);
  }

  /** The entry of a key that was last checked at a moment, with the bucket that never expires. */
  predicate Twin(p: Policy, ttl: int, entry: Entry, b: Bucket, at: Moment) {
    entry == Entry(b, at.redis + ttl as real) && b.ts == at.now && InRange(p, Some(b))
  }

  lemma ExpiryStep(limit: Positive, window: Positive, entry: Entry, b: Bucket, at: Moment, m: Moment)
    requires var p := PerWindow(limit, window);
             Twin(p, 2 * window, entry, b, at) && ClocksAgree(window, at, [m])
    ensures var p := PerWindow(limit, window);
            && Allowed(p, Live(Some(entry), m.redis), m.now) == Allowed(p, Some(b), m.now)
            && After(p, Live(Some(entry), m.redis), m.now) == After(p, Some(b), m.now)
  {
    var p := PerWindow(limit, window);
    if m.redis >= entry.expiresAt {
      WindowRefills(limit, window, b.ts, m.now);
    }
  }

  lemma {:induction false} TwinsAnswerAlike(
    limit: Positive, window: Positive, entry: Entry, b: Bucket, at: Moment, ms: seq<Moment>)
    requires Twin(PerWindow(limit, window), 2 * window, entry, b, at) && ClocksAgree(window, at, ms)
    ensures Answers(PerWindow(limit, window), Some(entry), ms) ==
            AnswersForever(PerWindow(limit, window), Some(b), ms)
    decreases |ms|
  {
    if ms != [] {
      var p := PerWindow(limit, window);
      var b' := After(p, Some(b), ms[0].now);
      ExpiryStep(limit, window, entry, b, at, ms[0]);
      TtlIsTwoWindows(limit, window);
      FirstCheck(p, Some(b), ms[0].now);
      TwinsAnswerAlike(limit, window, AfterEntry(p, Some(entry), ms[0]), b', ms[0], ms[1..]);
    }
  }

  /** Expiry is invisible: on clocks that agree, the script with its EXPIRE answers every sequence of checks on a key
      as it would if keys never expired. */
  lemma ExpiryIsInvisible(limit: Positive, window: Positive, ms: seq<Moment>)
    requires ms != [] ==> ClocksAgree(window, ms[0], ms[1..])
    ensures Answers(PerWindow(limit, window), None, ms) == AnswersForever(PerWindow(limit, window), None, ms)
  {
    if ms != [] {
      var p := PerWindow(limit, window);
      var b := After(p, None, ms[0].now);
      TtlIsTwoWindows(limit, window);
      TwinsAnswerAlike(limit, window, AfterEntry(p, None, ms[0]), b, ms[0], ms[1..]);
    }
  }

  ghost predicate SharedClock(from: real, ms: seq<Moment>)
    decreases |ms|
  {
    ms == [] || (ms[0].now == ms[0].redis && from <= ms[0].now && SharedClock(ms[0].now, ms[1..]))
  }

  lemma {:induction false} SharedClocksAgree(window: Positive, from: real, ms: seq<Moment>)
    requires SharedClock(from, ms)
    ensures ClocksAgree(window, Moment(from, from), ms)
    decreases |ms|
  {
    if ms != [] {
      SharedClocksAgree(window, ms[0].now, ms[1..]);
    }
  }

  lemma NothingEarned(p: Policy, t: real)
    ensures Earned(p, t, t) == 0.0
  {
  }

  /** Without agreement the expiry shows: one request per window, a caller whose clock stands still, and the second
      request is admitted two windows later only because the key is gone. */
  lemma StalledClockShowsExpiry(window: Positive, t: real)
    ensures var p, m := PerWindow(1, window), Moment(t, t);
            && Allowed(p, Live(Some(AfterEntry(p, None, m)), t + 2.0 * window as real), t)
            && !Allowed(p, Some(After(p, None, t)), t)
  {
    var p := PerWindow(1, window);
    assert Ttl(p) == 2 * window by {
      TtlIsTwoWindows(1, window);
    }
    NothingEarned(p, t);
    assert After(p, None, t) == Bucket(0.0, t);
  }

  // ---------- Retry hints ----------

  lemma CeilMeaning(x: real, k: int)
    ensures k >= Ceil(x) <==> k as real >= x
  {
  }

  lemma QuotientBound(seconds: real, missing: real, rate: real)
    requires rate > 0.0
    ensures seconds >= missing / rate <==> seconds * rate >= missing
  {
    var q := missing / rate;
    assert q * rate == missing;
    if seconds >= q {
      assert (seconds - q) * rate >= 0.0;
    } else {
      assert (q - seconds) * rate > 0.0;
    }
  }

  /** The script's hint is exact: after a check, a whole number of seconds without other requests refills the bucket
      if and only if it is at least the hint. */
  lemma ScriptResetIsSound(p: Policy, cell: Option<Bucket>, now: real, seconds: nat)
    requires InRange(p, cell)
    ensures var left := After(p, cell, now);
            Refilled(p, Some(left), now + seconds as real) == p.limit as real <==>
            seconds >= ScriptReset(p, left.tokens)
  {
    FirstCheck(p, cell, now);
    var left := After(p, cell, now);
    HintMeaning(p, left, seconds);
  }

  lemma HintMeaning(p: Policy, b: Bucket, seconds: nat)
    requires InRange(p, Some(b))
    ensures Refilled(p, Some(b), b.ts + seconds as real) == p.limit as real <==> seconds >= ScriptReset(p, b.tokens)
  {
    var missing := p.limit as real - b.tokens;
    assert Earned(p, b.ts, b.ts + seconds as real) == seconds as real * p.rate;
    QuotientBound(seconds as real, missing, p.rate);
    CeilMeaning(missing / p.rate, seconds);
  }

  lemma HintArithmetic(x: real)
    ensures var fraction := x - x.Floor as real;
            (x + 0.999).Floor == Ceil(x) - if 0.0 < fraction < 0.001 then 1 else 0
  {
  }

  /** The twin's hint is the script's, or one second less; less exactly when the exact waiting time is under a
      thousandth of a second past a whole second, which is then all it is short by. */
  lemma LocalResetIsClose(p: Policy, tokens: real)
    ensures var exact := (p.limit as real - tokens) / p.rate;
            var fraction := exact - exact.Floor as real;
            if tokens < p.limit as real && 0.0 < fraction < 0.001 then
              LocalReset(p, tokens) == ScriptReset(p, tokens) - 1 && exact - LocalReset(p, tokens) as real < 0.001
            else LocalReset(p, tokens) == ScriptReset(p, tokens)
  {
    HintArithmetic((p.limit as real - tokens) / p.rate);
  }
}
