/** The token-bucket rate limiter. Times are seconds and, like tokens, real numbers. */
module TokenBucket {
  import opened Text

  datatype Bucket = Bucket(tokens: real, lastRefill: real)

  datatype Limits = Limits(rate: real, capacity: real)

  predicate ValidLimits(l: Limits) { l.rate > 0.0 && l.capacity >= 1.0 }

  datatype Verdict = Admit | Reject(retryAfter: int)

  function Ceil(x: real): int { -(-x).Floor }

  function Min(a: real, b: real): real { if a > b then b else a }

  /** The tokens a stretch of time brings in. */
  function Gain(l: Limits, d: real): (g: real)
    requires ValidLimits(l) && d >= 0.0
    ensures g >= 0.0 && (d > 0.0 ==> g > 0.0) && (d == 0.0 ==> g == 0.0)
  {
    ProductIsPositive(d, l.rate);
    d * l.rate
  }

  lemma ProductIsPositive(d: real, rate: real)
    requires d >= 0.0 && rate > 0.0
    ensures d * rate >= 0.0 && (d > 0.0 ==> d * rate > 0.0) && (d == 0.0 ==> d * rate == 0.0)
  {
  }

  lemma ProductAdds(a: real, b: real, c: real, rate: real)
    requires a + b == c
    ensures a * rate + b * rate == c * rate
  {
  }

  /** Time adds up, and so does what it brings in. */
  lemma GainsAddUp(l: Limits, a: real, b: real, c: real)
    requires ValidLimits(l) && a <= b <= c
    ensures Gain(l, b - a) + Gain(l, c - b) == Gain(l, c - a)
  {
    ProductAdds(b - a, c - b, c - a, l.rate);
  }

  /** The bucket as a call at `now` finds it: a new one is full, an old one has gained the tokens of the time gone
      by. */
  function Refilled(l: Limits, b: Option<Bucket>, now: real): Bucket
    requires ValidLimits(l)
  {
    match b
    case None => Bucket(l.capacity, now)
    case Some(b) =>
      if now > b.lastRefill then Bucket(Min(b.tokens + Gain(l, now - b.lastRefill), l.capacity), now) else b
  }

  function RetryAfter(l: Limits, tokens: real): int
    requires ValidLimits(l)
  {
    var wait := Ceil((1.0 - tokens) / l.rate);
    if wait < 1 then 1 else wait
  }

  /** A call is let through when a whole token is there. */
  predicate Lets(l: Limits, b: Option<Bucket>, now: real)
    requires ValidLimits(l)
  {
    Refilled(l, b, now).tokens >= 1.0
  }

  /** The bucket a call leaves: one token less when it was let through. */
  function Left(l: Limits, b: Option<Bucket>, now: real): Bucket
    requires ValidLimits(l)
  {
    var full := Refilled(l, b, now);
    if full.tokens >= 1.0 then full.(tokens := full.tokens - 1.0) else full
  }

  function Answer(l: Limits, b: Option<Bucket>, now: real): Verdict
    requires ValidLimits(l)
  {
    if Lets(l, b, now) then Admit else Reject(RetryAfter(l, Refilled(l, b, now).tokens))
  }

  class TokenBucketRateLimiter {
    const limits: Limits
    var buckets: map<string, Bucket>

    /** Missing or negative settings fall back to sixty a minute and a burst of one. */
    constructor (requestsPerMinute: int, burst: int)
      ensures ValidLimits(limits) && buckets == map[]
      ensures limits.rate * 60.0 == (if requestsPerMinute > 0 then requestsPerMinute else 60) as real
      ensures limits.capacity == (if burst > 0 then burst else 1) as real
    {
      var perMinute := if requestsPerMinute <= 0 then 60 else requestsPerMinute;
      var capacity := if burst <= 0 then 1 else burst;
      limits := Limits(perMinute as real / 60.0, capacity as real);
      buckets := map[];
    }

    method Allow(now: real, key: string) returns (allowed: bool, retryAfter: int)
      requires ValidLimits(limits)
      modifies this
      ensures buckets == old(buckets)[key := Left(limits, Find(old(buckets), key), now)]
      ensures if allowed then Answer(limits, Find(old(buckets), key), now) == Admit
              else Answer(limits, Find(old(buckets), key), now) == Reject(retryAfter)
    {
      var b := if key in buckets then buckets[key] else Bucket(limits.capacity, now);
      if now > b.lastRefill {
        var elapsed := now - b.lastRefill;
        b := b.(tokens := b.tokens + Gain(limits, elapsed));
        if b.tokens > limits.capacity { b := b.(tokens := limits.capacity); }
        b := b.(lastRefill := now);
      }
      assert b == Refilled(limits, Find(buckets, key), now);
      if b.tokens < 1.0 {
        buckets := buckets[key := b];
        var missing := 1.0 - b.tokens;
        retryAfter := Ceil(missing / limits.rate);
        if retryAfter < 1 { retryAfter := 1; }
        return false, retryAfter;
      }
      b := b.(tokens := b.tokens - 1.0);
      buckets := buckets[key := b];
      return true, 0;
    }
  }

  // ----- runs over many keys -----

  datatype Request = Request(key: string, at: real)

  ghost predicate ClockRuns(calls: seq<Request>) {
    forall i, j :: 0 <= i < j < |calls| ==> calls[i].at <= calls[j].at
  }

  /** The limiter's map after the first n calls. */
  function BucketsAfter(l: Limits, calls: seq<Request>, n: nat): map<string, Bucket>
    requires ValidLimits(l) && n <= |calls|
  {
    if n == 0 then map[]
    else
      var before := BucketsAfter(l, calls, n - 1);
      before[calls[n - 1].key := Left(l, Find(before, calls[n - 1].key), calls[n - 1].at)]
  }

  function Find(buckets: map<string, Bucket>, key: string): Option<Bucket> {
    if key in buckets then Some(buckets[key]) else None
  }

  predicate Admitted(l: Limits, calls: seq<Request>, i: nat)
    requires ValidLimits(l) && i < |calls|
  {
    Lets(l, Find(BucketsAfter(l, calls, i), calls[i].key), calls[i].at)
  }

  /** How many of the calls from i up to j one key got through. */
  function Admissions(l: Limits, calls: seq<Request>, key: string, i: nat, j: nat): nat
    requires ValidLimits(l) && i <= j <= |calls|
  {
    if i == j then 0
    else Admissions(l, calls, key, i, j - 1) + (if calls[j - 1].key == key && Admitted(l, calls, j - 1) then 1 else 0)
  }

  // ----- the bound -----

  predicate BucketInv(l: Limits, b: Bucket) { 0.0 <= b.tokens <= l.capacity }

  /** One refill and one call on a bucket never create tokens beyond a full bucket or what the time brought in. */
  lemma CallBalance(l: Limits, b: Option<Bucket>, now: real)
    requires ValidLimits(l) && (b.Some? ==> BucketInv(l, b.value) && b.value.lastRefill <= now)
    ensures var after := Left(l, b, now);
            var total := after.tokens + (if Lets(l, b, now) then 1.0 else 0.0);
            && BucketInv(l, after) && after.lastRefill == now && total <= l.capacity
            && (b.Some? ==> total <= b.value.tokens + Gain(l, now - b.value.lastRefill))
  {
  }

  lemma {:induction false} BucketsStayInBounds(l: Limits, calls: seq<Request>, n: nat, key: string)
    requires ValidLimits(l) && n <= |calls| && ClockRuns(calls)
    ensures var b := Find(BucketsAfter(l, calls, n), key);
            b.Some? ==> BucketInv(l, b.value) && forall m :: n <= m < |calls| ==> b.value.lastRefill <= calls[m].at
  {
    if n > 0 {
      BucketsStayInBounds(l, calls, n - 1, key);
      var b := Find(BucketsAfter(l, calls, n - 1), key);
      if calls[n - 1].key == key { CallBalance(l, b, calls[n - 1].at); }
    }
  }

  /** Within a window, what was admitted and what is left never exceed a full bucket and what the time brought in. */
  lemma {:induction false} WindowBalance(l: Limits, calls: seq<Request>, key: string, i: nat, j: nat, start: real)
    requires ValidLimits(l) && i <= j <= |calls| && ClockRuns(calls)
    requires forall m :: i <= m < |calls| ==> start <= calls[m].at
    ensures Balanced(l, Find(BucketsAfter(l, calls, j), key), Admissions(l, calls, key, i, j), start)
    decreases j - i
  {
    BucketsStayInBounds(l, calls, j, key);
    if i < j {
      WindowBalance(l, calls, key, i, j - 1, start);
      if calls[j - 1].key == key {
        BucketsStayInBounds(l, calls, j - 1, key);
        OneMoreCall(l, Find(BucketsAfter(l, calls, j - 1), key), calls[j - 1].at, Admissions(l, calls, key, i, j - 1),
                    start);
      }
    }
  }

  predicate Balanced(l: Limits, b: Option<Bucket>, admitted: nat, start: real)
    requires ValidLimits(l)
  {
    if b.None? || b.value.lastRefill < start then admitted == 0
    else admitted as real + b.value.tokens <= l.capacity + Gain(l, b.value.lastRefill - start)
  }

  lemma OneMoreCall(l: Limits, b: Option<Bucket>, now: real, admitted: nat, start: real)
    requires ValidLimits(l) && (b.Some? ==> BucketInv(l, b.value) && b.value.lastRefill <= now)
    requires Balanced(l, b, admitted, start) && start <= now
    ensures Balanced(l, Some(Left(l, b, now)), admitted + (if Lets(l, b, now) then 1 else 0), start)
  {
    CallBalance(l, b, now);
    if b.Some? && start <= b.value.lastRefill { GainsAddUp(l, start, b.value.lastRefill, now); }
  }

  lemma BalanceBounds(l: Limits, b: Option<Bucket>, admitted: nat, start: real, finish: real)
    requires ValidLimits(l) && Balanced(l, b, admitted, start) && start <= finish
    requires b.Some? ==> BucketInv(l, b.value) && b.value.lastRefill <= finish
    ensures admitted as real <= l.capacity + Gain(l, finish - start)
  {
    if b.Some? && start <= b.value.lastRefill { GainsAddUp(l, start, b.value.lastRefill, finish); }
  }

  /** Over any stretch of calls made between `start` and `finish`, a key is admitted at most a burst and what the rate
      allows for that time, whatever was called before and whatever other keys do. */
  lemma AdmissionsAreBounded(l: Limits, calls: seq<Request>, key: string, i: nat, j: nat, start: real, finish: real)
    requires ValidLimits(l) && i <= j <= |calls| && ClockRuns(calls) && start <= finish
    requires forall m :: i <= m < j ==> start <= calls[m].at <= finish
    ensures Admissions(l, calls, key, i, j) as real <= l.capacity + (finish - start) * l.rate
  {
    assert Gain(l, finish - start) == (finish - start) * l.rate;
    AdmissionsFitTheGain(l, calls, key, i, j, start, finish);
  }

  lemma GainIsTheRate(l: Limits, d: real)
    requires ValidLimits(l) && d >= 0.0
    ensures Gain(l, d) == d * l.rate
  {
  }

  lemma AdmissionsFitTheGain(l: Limits, calls: seq<Request>, key: string, i: nat, j: nat, start: real, finish: real)
    requires ValidLimits(l) && i <= j <= |calls| && ClockRuns(calls) && start <= finish
    requires forall m :: i <= m < j ==> start <= calls[m].at <= finish
    ensures Admissions(l, calls, key, i, j) as real <= l.capacity + Gain(l, finish - start)
  {
    if i < j {
      var window := calls[..j];
      SamePrefix(l, calls, window, key, i, j);
      WindowBalance(l, window, key, i, j, start);
      BucketsStayInBounds(l, window, j, key);
      BucketIsRecent(l, window, key, j, finish);
      BalanceBounds(l, Find(BucketsAfter(l, window, j), key), Admissions(l, window, key, i, j), start, finish);
    }
  }

  lemma {:induction false} BucketIsRecent(l: Limits, calls: seq<Request>, key: string, n: nat, finish: real)
    requires ValidLimits(l) && n <= |calls| && ClockRuns(calls) && (n > 0 ==> calls[n - 1].at <= finish)
    ensures Find(BucketsAfter(l, calls, n), key).Some? ==>
                  Find(BucketsAfter(l, calls, n), key).value.lastRefill <= finish
  {
    if n > 0 { BucketIsRecent(l, calls, key, n - 1, finish); }
  }

  lemma {:induction false} SameBuckets(l: Limits, a: seq<Request>, b: seq<Request>, n: nat)
    requires ValidLimits(l) && n <= |a| && n <= |b| && a[..n] == b[..n]
    ensures BucketsAfter(l, a, n) == BucketsAfter(l, b, n)
  {
    if n > 0 {
      assert a[..n][n - 1] == b[..n][n - 1];
      assert a[..n - 1] == a[..n][..n - 1] && b[..n - 1] == b[..n][..n - 1];
      SameBuckets(l, a, b, n - 1);
    }
  }

  lemma {:induction false} SamePrefix(l: Limits, calls: seq<Request>, window: seq<Request>, key: string, i: nat, j: nat)
    requires ValidLimits(l) && i <= j <= |window| <= |calls| && window == calls[..|window|]
    ensures Admissions(l, calls, key, i, j) == Admissions(l, window, key, i, j)
    decreases j - i
  {
    if i < j {
      SamePrefix(l, calls, window, key, i, j - 1);
      assert calls[..j - 1] == window[..j - 1];
      SameBuckets(l, calls, window, j - 1);
    }
  }

  // ----- nothing is rejected early -----

  /** The bucket was full when call m of the key found it, and since then only admissions and time changed it. */
  predicate FullSince(l: Limits, calls: seq<Request>, key: string, m: nat, n: nat, b: Bucket)
    requires ValidLimits(l) && m < n <= |calls|
  {
    && calls[m].key == key && calls[m].at <= b.lastRefill
    && b.tokens == l.capacity - Admissions(l, calls, key, m, n) as real + Gain(l, b.lastRefill - calls[m].at)
  }

  lemma CallWhenFull(l: Limits, b: Option<Bucket>, now: real)
    requires ValidLimits(l) && (b.Some? ==> b.value.lastRefill <= now)
    requires b.None? || b.value.tokens + Gain(l, now - b.value.lastRefill) >= l.capacity
    requires b.Some? ==> BucketInv(l, b.value)
    ensures Left(l, b, now) == Bucket(l.capacity - 1.0, now) && Lets(l, b, now)
  {
  }

  lemma CallWhileFilling(l: Limits, b: Bucket, now: real)
    requires ValidLimits(l) && b.lastRefill <= now && b.tokens + Gain(l, now - b.lastRefill) <= l.capacity
    ensures Left(l, Some(b), now).lastRefill == now
    ensures Left(l, Some(b), now).tokens ==
            b.tokens + Gain(l, now - b.lastRefill) - if Lets(l, Some(b), now) then 1.0 else 0.0
    ensures Lets(l, Some(b), now) <==> b.tokens + Gain(l, now - b.lastRefill) >= 1.0
  {
  }

  lemma OneMoreAdmission(l: Limits, calls: seq<Request>, key: string, m: nat, n: nat)
    requires ValidLimits(l) && m <= n < |calls|
    ensures Admissions(l, calls, key, m, n + 1) ==
            Admissions(l, calls, key, m, n) + if calls[n].key == key && Admitted(l, calls, n) then 1 else 0
  {
  }

  lemma FullSinceGoesOn(l: Limits, calls: seq<Request>, key: string, m: nat, n: nat, b: Bucket)
    requires ValidLimits(l) && m < n < |calls| && calls[n].key == key && b.lastRefill <= calls[n].at
    requires Find(BucketsAfter(l, calls, n), key) == Some(b) && FullSince(l, calls, key, m, n, b)
    requires b.tokens + Gain(l, calls[n].at - b.lastRefill) <= l.capacity
    ensures FullSince(l, calls, key, m, n + 1, Left(l, Some(b), calls[n].at))
  {
    CallWhileFilling(l, b, calls[n].at);
    OneMoreAdmission(l, calls, key, m, n);
    GainsAddUp(l, calls[m].at, b.lastRefill, calls[n].at);
  }

  lemma FullNow(l: Limits, calls: seq<Request>, key: string, n: nat)
    requires ValidLimits(l) && n < |calls| && calls[n].key == key
    requires var b := Find(BucketsAfter(l, calls, n), key);
             b.Some? ==> BucketInv(l, b.value) && b.value.lastRefill <= calls[n].at
                         && b.value.tokens + Gain(l, calls[n].at - b.value.lastRefill) >= l.capacity
    ensures FullSince(l, calls, key, n, n + 1, Left(l, Find(BucketsAfter(l, calls, n), key), calls[n].at))
  {
    CallWhenFull(l, Find(BucketsAfter(l, calls, n), key), calls[n].at);
    OneMoreAdmission(l, calls, key, n, n);
  }

  lemma FullSinceMoves(l: Limits, calls: seq<Request>, key: string, m: nat, n: nat) returns (now: nat)
    requires ValidLimits(l) && m <= n < |calls| && ClockRuns(calls) && calls[n].key == key
    requires var b := Find(BucketsAfter(l, calls, n), key);
             b.Some? ==> m < n && BucketInv(l, b.value) && b.value.lastRefill <= calls[n].at
                         && FullSince(l, calls, key, m, n, b.value)
    ensures now <= n && FullSince(l, calls, key, now, n + 1, Left(l, Find(BucketsAfter(l, calls, n), key), calls[n].at))
  {
    var b := Find(BucketsAfter(l, calls, n), key);
    if b.None? || b.value.tokens + Gain(l, calls[n].at - b.value.lastRefill) >= l.capacity {
      FullNow(l, calls, key, n);
      now := n;
    } else {
      FullSinceGoesOn(l, calls, key, m, n, b.value);
      now := m;
    }
  }

  /** Every bucket was full at one of its key's calls. */
  lemma {:induction false} LastFull(l: Limits, calls: seq<Request>, key: string, n: nat) returns (m: nat)
    requires ValidLimits(l) && n <= |calls| && ClockRuns(calls)
    ensures var b := Find(BucketsAfter(l, calls, n), key);
            m <= n && (b.Some? ==> m < n && FullSince(l, calls, key, m, n, b.value))
  {
    m := 0;
    if n > 0 {
      m := LastFull(l, calls, key, n - 1);
      if calls[n - 1].key == key {
        BucketsStayInBounds(l, calls, n - 1, key);
        m := FullSinceMoves(l, calls, key, m, n - 1);
      } else if Find(BucketsAfter(l, calls, n - 1), key).Some? {
        OneMoreAdmission(l, calls, key, m, n - 1);
      }
    }
  }

  /** The calls from m on took what a burst and the time up to call i bring in, so that no whole token is left. */
  predicate UsedUp(l: Limits, calls: seq<Request>, m: nat, i: nat)
    requires ValidLimits(l) && m <= i < |calls| && calls[m].at <= calls[i].at
  {
    && calls[m].key == calls[i].key
    && Admissions(l, calls, calls[i].key, m, i) as real + 1.0 > l.capacity + Gain(l, calls[i].at - calls[m].at)
  }

  /** A rejected call had no room in some stretch of its key's calls. */
  lemma RejectedIsUsedUp(l: Limits, calls: seq<Request>, i: nat) returns (m: nat)
    requires ValidLimits(l) && i < |calls| && ClockRuns(calls) && !Admitted(l, calls, i)
    ensures m <= i && UsedUp(l, calls, m, i)
  {
    var b := Find(BucketsAfter(l, calls, i), calls[i].key);
    m := LastFull(l, calls, calls[i].key, i);
    BucketsStayInBounds(l, calls, i, calls[i].key);
    if b.None? || b.value.tokens + Gain(l, calls[i].at - b.value.lastRefill) >= l.capacity {
      CallWhenFull(l, b, calls[i].at);
      assert false;
    } else {
      CallWhileFilling(l, b.value, calls[i].at);
      GainsAddUp(l, calls[m].at, b.value.lastRefill, calls[i].at);
    }
  }

  lemma UsedUpRejects(l: Limits, calls: seq<Request>, m: nat, i: nat)
    requires ValidLimits(l) && m <= i < |calls| && ClockRuns(calls) && calls[m].at <= calls[i].at
    requires UsedUp(l, calls, m, i)
    ensures !Admitted(l, calls, i)
  {
    OneMoreAdmission(l, calls, calls[i].key, m, i);
    AdmissionsFitTheGain(l, calls, calls[i].key, m, i + 1, calls[m].at, calls[i].at);
  }

  /** The stretch from call m to call i of the key leaves no room for call i: with it, more would be admitted than a
      burst and what the rate allows for that time. */
  predicate NoRoom(l: Limits, calls: seq<Request>, m: nat, i: nat)
    requires ValidLimits(l) && m <= i < |calls|
  {
    && calls[m].key == calls[i].key
    && Admissions(l, calls, calls[i].key, m, i) as real + 1.0 > l.capacity + (calls[i].at - calls[m].at) * l.rate
  }

  /** A call is rejected if and only if some stretch of its key's calls that ends with it has no room for it: the
      limiter lets through all that a burst and the rate allow, and no more. */
  lemma RejectedIffNoRoom(l: Limits, calls: seq<Request>, i: nat)
    requires ValidLimits(l) && i < |calls| && ClockRuns(calls)
    ensures !Admitted(l, calls, i) <==> exists m: nat :: m <= i && NoRoom(l, calls, m, i)
  {
    if !Admitted(l, calls, i) {
      var m := RejectedIsUsedUp(l, calls, i);
      GainIsTheRate(l, calls[i].at - calls[m].at);
      assert NoRoom(l, calls, m, i);
    }
    forall m: nat | m <= i && NoRoom(l, calls, m, i)
      ensures !Admitted(l, calls, i)
    {
      GainIsTheRate(l, calls[i].at - calls[m].at);
      UsedUpRejects(l, calls, m, i);
    }
  }

  /** How many of the first n calls are the key's. */
  function CallsOf(calls: seq<Request>, key: string, n: nat): nat
    requires n <= |calls|
  {
    if n == 0 then 0 else CallsOf(calls, key, n - 1) + if calls[n - 1].key == key then 1 else 0
  }

  lemma {:induction false} TokensForTheRest(l: Limits, calls: seq<Request>, key: string, n: nat)
    requires ValidLimits(l) && n <= |calls|
    ensures match Find(BucketsAfter(l, calls, n), key)
            case None => CallsOf(calls, key, n) == 0
            case Some(b) => b.tokens <= l.capacity && b.tokens >= l.capacity - CallsOf(calls, key, n) as real
  {
    if n > 0 { TokensForTheRest(l, calls, key, n - 1); }
  }

  /** Among a key's first calls, as many as the burst are all admitted, whatever their times and whatever other keys
      do. */
  lemma BurstIsAdmitted(l: Limits, calls: seq<Request>, i: nat)
    requires ValidLimits(l) && i < |calls| && CallsOf(calls, calls[i].key, i) as real + 1.0 <= l.capacity
    ensures Admitted(l, calls, i)
  {
    TokensForTheRest(l, calls, calls[i].key, i);
  }

  // ----- keys do not disturb each other -----

  function Only(calls: seq<Request>, key: string): seq<Request> {
    if calls == [] then []
    else Only(calls[..|calls| - 1], key) + (if calls[|calls| - 1].key == key then [calls[|calls| - 1]] else [])
  }

  lemma OneMoreBucket(l: Limits, calls: seq<Request>, c: Request)
    requires ValidLimits(l)
    ensures var before := BucketsAfter(l, calls, |calls|);
            BucketsAfter(l, calls + [c], |calls| + 1) == before[c.key := Left(l, Find(before, c.key), c.at)]
  {
    assert (calls + [c])[..|calls|] == calls[..|calls|];
    SameBuckets(l, calls + [c], calls, |calls|);
  }

  lemma OneMoreOfMany(calls: seq<Request>, c: Request, key: string)
    ensures Only(calls + [c], key) == if c.key == key then Only(calls, key) + [c] else Only(calls, key)
  {
    assert (calls + [c])[..|calls|] == calls;
  }

  /** A key's bucket is the one it would have if no other key had ever called. */
  lemma {:induction false} KeysAreIndependent(l: Limits, calls: seq<Request>, key: string)
    requires ValidLimits(l)
    ensures Find(BucketsAfter(l, calls, |calls|), key)
            == Find(BucketsAfter(l, Only(calls, key), |Only(calls, key)|), key)
    decreases |calls|
  {
    if calls != [] {
      var init, c := calls[..|calls| - 1], calls[|calls| - 1];
      KeysAreIndependent(l, init, key);
      OneMoreBucket(l, init, c);
      assert calls == init + [c];
      OneMoreBucket(l, Only(init, key), c);
      OneMoreOfMany(init, c, key);
    }
  }

  // ----- retry-after -----

  /** The ceiling of a quotient is the least whole number that, times the divisor, reaches the dividend. */
  lemma CeilIsLeast(m: real, rate: real, q: int)
    requires rate > 0.0
    ensures q >= Ceil(m / rate) <==> q as real * rate >= m
  {
    QuotientTimesDivisor(m, rate);
    if q >= Ceil(m / rate) {
      ProductGrows(m / rate, q as real, rate);
    } else {
      ProductGrowsStrictly(q as real, m / rate, rate);
    }
  }

  lemma QuotientTimesDivisor(m: real, rate: real)
    requires rate > 0.0
    ensures (m / rate) * rate == m
  {
  }

  lemma ProductGrows(a: real, b: real, rate: real)
    requires rate > 0.0 && a <= b
    ensures a * rate <= b * rate
  {
    ProductIsPositive(b - a, rate);
    ProductAdds(a, b - a, b, rate);
  }

  lemma ProductGrowsStrictly(a: real, b: real, rate: real)
    requires rate > 0.0 && a < b
    ensures a * rate < b * rate
  {
    ProductIsPositive(b - a, rate);
    ProductAdds(a, b - a, b, rate);
  }

  /** The bucket after calls at the given times. */
  function AfterCalls(l: Limits, b: Bucket, times: seq<real>): Bucket
    requires ValidLimits(l)
  {
    if times == [] then b else Left(l, Some(AfterCalls(l, b, times[..|times| - 1])), times[|times| - 1])
  }

  /** Every one of these calls is rejected. */
  predicate AllRejected(l: Limits, b: Bucket, times: seq<real>)
    requires ValidLimits(l)
  {
    times == [] || (AllRejected(l, b, times[..|times| - 1])
                    && !Lets(l, Some(AfterCalls(l, b, times[..|times| - 1])), times[|times| - 1]))
  }

  ghost predicate Between(times: seq<real>, from: real, to: real) {
    && (forall i :: 0 <= i < |times| ==> from <= times[i] <= to)
    && (forall i, j :: 0 <= i < j < |times| ==> times[i] <= times[j])
  }

  /** A bucket that is short of a token holds what it held and what the time since brought in. */
  predicate OnlyFilled(l: Limits, b: Bucket, c: Bucket, now: real)
    requires ValidLimits(l)
  {
    && b.lastRefill <= c.lastRefill <= now
    && c.tokens < 1.0 && c.tokens == b.tokens + Gain(l, c.lastRefill - b.lastRefill)
  }

  /** Rejected calls take nothing: the bucket only fills with time. */
  lemma {:induction false} RejectionsCostNothing(l: Limits, b: Bucket, times: seq<real>, now: real)
    requires ValidLimits(l) && b.tokens < 1.0 && AllRejected(l, b, times) && Between(times, b.lastRefill, now)
             && b.lastRefill <= now
    ensures OnlyFilled(l, b, AfterCalls(l, b, times), now)
    decreases |times|
  {
    if times != [] {
      var init, last := times[..|times| - 1], times[|times| - 1];
      RejectionsCostNothing(l, b, init, last);
      OneMoreRejection(l, b, AfterCalls(l, b, init), last);
    }
  }

  lemma OneMoreRejection(l: Limits, b: Bucket, c: Bucket, now: real)
    requires ValidLimits(l) && OnlyFilled(l, b, c, now) && !Lets(l, Some(c), now)
    ensures OnlyFilled(l, b, Left(l, Some(c), now), now)
  {
    GainsAddUp(l, b.lastRefill, c.lastRefill, now);
  }

  /** A bucket that only filled lets a call through exactly when the missing part of a token has come in. */
  lemma LetsWhenDue(l: Limits, b: Bucket, c: Bucket, later: real)
    requires ValidLimits(l) && OnlyFilled(l, b, c, later)
    ensures Lets(l, Some(c), later) <==> Gain(l, later - b.lastRefill) >= 1.0 - b.tokens
  {
    GainsAddUp(l, b.lastRefill, c.lastRefill, later);
  }

  /** After a rejection, with only rejections since, a call at least the announced wait later gets through, and a call
      any smaller positive whole number of seconds later does not: the announced wait is the least that works. */
  lemma RetryAfterIsExact(l: Limits, b: Option<Bucket>, now: real, between: seq<real>, later: real, wait: int,
                          seconds: int)
    requires ValidLimits(l) && (b.Some? ==> b.value.lastRefill <= now) && Answer(l, b, now) == Reject(wait)
    requires AllRejected(l, Left(l, b, now), between) && Between(between, now, later) && now <= later
    ensures wait >= 1
    ensures later - now >= wait as real ==> Lets(l, Some(AfterCalls(l, Left(l, b, now), between)), later)
    ensures 1 <= seconds < wait && later == now + seconds as real ==>
                  !Lets(l, Some(AfterCalls(l, Left(l, b, now), between)), later)
  {
    var c := Left(l, b, now);
    assert c == Refilled(l, b, now) && c.lastRefill == now;
    RejectionsCostNothing(l, c, between, later);
    ExactWhileFilling(l, c, AfterCalls(l, c, between), later, wait, seconds);
  }

  lemma ExactWhileFilling(l: Limits, c: Bucket, d: Bucket, later: real, wait: int, seconds: int)
    requires ValidLimits(l) && c.tokens < 1.0 && wait == RetryAfter(l, c.tokens) && OnlyFilled(l, c, d, later)
    ensures wait >= 1
    ensures later - c.lastRefill >= wait as real ==> Lets(l, Some(d), later)
    ensures 1 <= seconds < wait && later == c.lastRefill + seconds as real ==> !Lets(l, Some(d), later)
  {
    LetsWhenDue(l, c, d, later);
    WaitIsDue(l, c.tokens, wait, later - c.lastRefill, seconds);
  }

  lemma WaitIsDue(l: Limits, tokens: real, wait: int, due: real, seconds: int)
    requires ValidLimits(l) && tokens < 1.0 && wait == RetryAfter(l, tokens) && due >= 0.0
    ensures due >= wait as real ==> Gain(l, due) >= 1.0 - tokens
    ensures 1 <= seconds < wait ==> Gain(l, seconds as real) < 1.0 - tokens
  {
    CeilIsLeast(1.0 - tokens, l.rate, wait);
    CeilIsLeast(1.0 - tokens, l.rate, seconds);
    if due >= wait as real { ProductGrows(wait as real, due, l.rate); }
  }
}
