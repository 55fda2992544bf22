/** The failed-attempt lockout limiter, and the full-history specification it refines. Times are nanoseconds. */
module Lockout {
  import opened Text

  const SECOND: int := 1000000000
  const MINUTE: int := 60 * SECOND
  const EVICTION_SIZE: nat := 4096

  datatype Limits = Limits(maxFailures: nat, window: int, lockout: int)

  predicate ValidLimits(l: Limits) { l.maxFailures > 0 && l.window > 0 && l.lockout > 0 }

  /** Missing or negative settings fall back to five failures, ten minutes and fifteen minutes. */
  function Configured(maxFailures: int, window: int, lockout: int): (l: Limits)
    ensures ValidLimits(l)
  {
    Limits(if maxFailures <= 0 then 5 else maxFailures,
           if window <= 0 then 10 * MINUTE else window,
           if lockout <= 0 then 15 * MINUTE else lockout)
  }

  datatype KeyState = KeyState(failures: seq<int>, lockoutUntil: Option<int>, lastSeen: int)

  datatype Verdict = Free | Blocked(retryAfter: int)

  /** The failures that are not older than a cutoff. */
  function Since(times: seq<int>, cutoff: int): (kept: seq<int>)
    ensures |kept| <= |times|
  {
    if times == [] then []
    else Since(times[..|times| - 1], cutoff) + (if times[|times| - 1] >= cutoff then [times[|times| - 1]] else [])
  }

  function RetrySeconds(now: int, until: int): int
    requires now < until
  {
    var retry := (until - now) / SECOND;
    if retry < 1 then 1 else retry
  }

  // ----- compaction in place -----

  /** Moves the first `length` times that are still in the window to the front of the same array. */
  method PruneFailures(times: array<int>, length: nat, now: int, window: int) returns (kept: nat)
    requires length <= times.Length
    modifies times
    ensures kept <= length && times[..kept] == Since(old(times[..length]), now - window)
    ensures times[length..] == old(times[length..])
  {
    var cutoff := now - window;
    kept := 0;
    ghost var was := times[..length];
    for i := 0 to length
      invariant kept <= i
      invariant times[..kept] == Since(was[..i], cutoff)
      invariant times[i..] == old(times[i..])
    {
      assert was[..i + 1][..i] == was[..i];
      assert times[i] == was[i] by { assert times[i..][0] == old(times[i..])[0]; }
      if times[i] >= cutoff {
        times[kept] := times[i];
        kept := kept + 1;
      }
      assert times[i + 1..] == old(times[i..])[1..] == old(times[i + 1..]);
    }
    assert was[..length] == was;
  }

  /** The compaction of a key's failures. */
  method Compacted(failures: seq<int>, now: int, window: int) returns (kept: seq<int>)
    ensures kept == Since(failures, now - window)
  {
    var times := new int[|failures|](i requires 0 <= i < |failures| => failures[i]);
    assert times[..] == times[..times.Length] == failures;
    var n := PruneFailures(times, times.Length, now, window);
    kept := times[..n];
  }

  // ----- one key -----

  const UNSEEN := KeyState([], None, 0)

  function Seen(states: map<string, KeyState>, key: string): KeyState {
    if key in states then states[key] else UNSEEN
  }

  predicate Locked(s: KeyState, now: int) { s.lockoutUntil.Some? && now < s.lockoutUntil.value }

  /** Nothing that could affect a later answer. */
  predicate Idle(s: KeyState) { s.failures == [] && s.lockoutUntil.None? }

  function AllowState(l: Limits, s: KeyState, now: int): KeyState {
    if Locked(s, now) then s.(lastSeen := now) else KeyState(Since(s.failures, now - l.window), None, now)
  }

  function AllowVerdict(s: KeyState, now: int): Verdict {
    if Locked(s, now) then Blocked(RetrySeconds(now, s.lockoutUntil.value)) else Free
  }

  /** The failures a new one is counted with: none survive the end of a lock. */
  function Recent(l: Limits, s: KeyState, now: int): seq<int> {
    Since(if s.lockoutUntil.Some? then [] else s.failures, now - l.window) + [now]
  }

  function FailureState(l: Limits, s: KeyState, now: int): KeyState {
    if Locked(s, now) then s.(lastSeen := now)
    else if |Recent(l, s, now)| >= l.maxFailures then KeyState([], Some(now + l.lockout), now)
    else KeyState(Recent(l, s, now), None, now)
  }

  function FailureVerdict(l: Limits, s: KeyState, now: int): Verdict
    requires ValidLimits(l)
  {
    if Locked(s, now) then Blocked(RetrySeconds(now, s.lockoutUntil.value))
    else if |Recent(l, s, now)| >= l.maxFailures then Blocked(RetrySeconds(now, now + l.lockout))
    else Free
  }

  // ----- the limiter -----

  predicate Evictable(l: Limits, s: KeyState, now: int) { s.lastSeen < now - (l.window + l.lockout) && Idle(s) }

  function Evicted(l: Limits, states: map<string, KeyState>, now: int): map<string, KeyState> {
    if |states| < EVICTION_SIZE then states
    else map key | key in states && !Evictable(l, states[key], now) :: states[key]
  }

  function AfterAllow(l: Limits, states: map<string, KeyState>, key: string, now: int): map<string, KeyState> {
    var s := AllowState(l, Seen(states, key), now);
    if Idle(s) then states - {key} else states[key := s]
  }

  function AfterFailure(l: Limits, states: map<string, KeyState>, key: string, now: int): map<string, KeyState>
    requires ValidLimits(l)
  {
    var after := states[key := FailureState(l, Seen(states, key), now)];
    if FailureVerdict(l, Seen(states, key), now).Blocked? then after else Evicted(l, after, now)
  }

  class FailedAttemptLockoutLimiter {
    const limits: Limits
    var states: map<string, KeyState>

    constructor (maxFailures: int, window: int, lockout: int)
      ensures limits == Configured(maxFailures, window, lockout) && states == map[]
    {
      limits := Configured(maxFailures, window, lockout);
      states := map[];
    }

    /** Whether a key may try; a blank key always may. */
    method Allow(rawKey: string, now: int) returns (allowed: bool, retryAfter: int)
      modifies this
      ensures Blank(rawKey) ==> allowed && retryAfter == 0 && states == old(states)
      ensures !Blank(rawKey) ==>
                && states == AfterAllow(limits, old(states), Trim(rawKey), now)
                && (if allowed then AllowVerdict(Seen(old(states), Trim(rawKey)), now).Free? && retryAfter == 0
                    else AllowVerdict(Seen(old(states), Trim(rawKey)), now) == Blocked(retryAfter))
    {
      var key := Trim(rawKey);
      if key == "" { return true, 0; }
      var s := if key in states then states[key] else UNSEEN;
      s := s.(lastSeen := now);
      if s.lockoutUntil.Some? && now < s.lockoutUntil.value {
        states := states[key := s];
        return false, RetrySeconds(now, s.lockoutUntil.value);
      }
      if s.lockoutUntil.Some? { s := s.(lockoutUntil := None); }
      var kept := Compacted(s.failures, now, limits.window);
      s := s.(failures := kept);
      if |s.failures| == 0 && s.lockoutUntil.None? {
        states := states - {key};
        return true, 0;
      }
      states := states[key := s];
      return true, 0;
    }

    /** Records a failure; the failure that reaches the limit locks the key. */
    method RegisterFailure(rawKey: string, now: int) returns (locked: bool, retryAfter: int)
      requires ValidLimits(limits)
      modifies this
      ensures Blank(rawKey) ==> !locked && retryAfter == 0 && states == old(states)
      ensures !Blank(rawKey) ==>
                && states == AfterFailure(limits, old(states), Trim(rawKey), now)
                && (if locked then FailureVerdict(limits, Seen(old(states), Trim(rawKey)), now) == Blocked(retryAfter)
                    else FailureVerdict(limits, Seen(old(states), Trim(rawKey)), now).Free? && retryAfter == 0)
    {
      var key := Trim(rawKey);
      if key == "" { return false, 0; }
      var s := if key in states then states[key] else UNSEEN;
      s := s.(lastSeen := now);
      if s.lockoutUntil.Some? && now < s.lockoutUntil.value {
        states := states[key := s];
        return true, RetrySeconds(now, s.lockoutUntil.value);
      }
      if s.lockoutUntil.Some? { s := s.(lockoutUntil := None, failures := []); }
      var kept := Compacted(s.failures, now, limits.window);
      s := s.(failures := kept + [now]);
      if |s.failures| >= limits.maxFailures {
        s := s.(lockoutUntil := Some(now + limits.lockout), failures := []);
        states := states[key := s];
        return true, RetrySeconds(now, now + limits.lockout);
      }
      states := states[key := s];
      EvictStale(now);
      return false, 0;
    }

    method Reset(rawKey: string)
      modifies this
      ensures states == if Blank(rawKey) then old(states) else old(states) - {Trim(rawKey)}
    {
      var key := Trim(rawKey);
      if key == "" { return; }
      states := states - {key};
    }

    /** Once many keys are held, drops those idle for longer than a window and a lockout. */
    method EvictStale(now: int)
      modifies this
      ensures states == Evicted(limits, old(states), now)
    {
      if |states| < EVICTION_SIZE { return; }
      var cutoff := now - (limits.window + limits.lockout);
      var todo := states.Keys;
      while todo != {}
        invariant todo <= old(states).Keys
        invariant states ==
                  map key | key in old(states) && (key in todo || !Evictable(limits, old(states)[key], now)) ::
                    old(states)[key]
        decreases |todo|
      {
        var key :| key in todo;
        todo := todo - {key};
        var s := states[key];
        if s.lastSeen < cutoff && s.lockoutUntil.None? && |s.failures| == 0 { states := states - {key}; }
      }
    }
  }

  // ----- the full history -----

  datatype Call = Ask(key: string, at: int) | Fail(key: string, at: int) | Clear(key: string, at: int)

  /** Every failure of a key since it was last locked or reset, and its last lock. */
  datatype History = History(failures: seq<int>, lockedUntil: Option<int>)

  const NO_HISTORY := History([], None)

  predicate HistoryLocked(h: History, now: int) { h.lockedUntil.Some? && now < h.lockedUntil.value }

  /** A failure locks the key when, with it, the window holds as many failures as the limit. */
  predicate Trips(l: Limits, h: History, now: int) { |Since(h.failures + [now], now - l.window)| >= l.maxFailures }

  function NextHistory(l: Limits, h: History, c: Call): History {
    match c
    case Ask(_, _) => h
    case Fail(_, now) =>
      if HistoryLocked(h, now) then h
      else if Trips(l, h, now) then History([], Some(now + l.lockout))
      else h.(failures := h.failures + [now])
    case Clear(_, _) => NO_HISTORY
  }

  function HistoryVerdict(l: Limits, h: History, c: Call): Verdict
    requires ValidLimits(l)
  {
    if c.Clear? then Free
    else if HistoryLocked(h, c.at) then Blocked(RetrySeconds(c.at, h.lockedUntil.value))
    else if c.Fail? && Trips(l, h, c.at) then Blocked(RetrySeconds(c.at, c.at + l.lockout))
    else Free
  }

  /** The history of one key after the first n calls, and the limiter's map after them. */
  function HistoryAfter(l: Limits, calls: seq<Call>, n: nat, key: string): History
    requires n <= |calls|
  {
    if n == 0 then NO_HISTORY
    else
      var h := HistoryAfter(l, calls, n - 1, key);
      if calls[n - 1].key == key then NextHistory(l, h, calls[n - 1]) else h
  }

  function NextStates(l: Limits, states: map<string, KeyState>, c: Call): map<string, KeyState>
    requires ValidLimits(l)
  {
    match c
    case Ask(key, at) => AfterAllow(l, states, key, at)
    case Fail(key, at) => AfterFailure(l, states, key, at)
    case Clear(key, _) => states - {key}
  }

  function StatesAfter(l: Limits, calls: seq<Call>, n: nat): map<string, KeyState>
    requires ValidLimits(l) && n <= |calls|
  {
    if n == 0 then map[] else NextStates(l, StatesAfter(l, calls, n - 1), calls[n - 1])
  }

  function StateVerdict(l: Limits, s: KeyState, c: Call): Verdict
    requires ValidLimits(l)
  {
    match c
    case Ask(_, at) => AllowVerdict(s, at)
    case Fail(_, at) => FailureVerdict(l, s, at)
    case Clear(_, _) => Free
  }

  ghost predicate ClockRuns(calls: seq<Call>) {
    forall i, j :: 0 <= i < j < |calls| ==> calls[i].at <= calls[j].at
  }

  // ----- refinement -----

  lemma {:induction false} SinceTwice(times: seq<int>, a: int, b: int)
    requires a <= b
    ensures Since(Since(times, a), b) == Since(times, b)
    decreases |times|
  {
    if times != [] {
      var init, last := times[..|times| - 1], times[|times| - 1];
      SinceTwice(init, a, b);
      SinceAppend(Since(init, a), last, b);
      assert Since(init, a) + [] == Since(init, a);
    }
  }

  lemma SinceAppend(times: seq<int>, t: int, cutoff: int)
    ensures Since(times + [t], cutoff) == Since(times, cutoff) + (if t >= cutoff then [t] else [])
  {
  }

  /** The limiter keeps, of the full history, what is not older than some cutoff already passed. */
  ghost predicate Keeps(l: Limits, s: KeyState, h: History, now: int) {
    && (exists cutoff :: cutoff <= now - l.window && s.failures == Since(h.failures, cutoff))
    && (s.lockoutUntil == h.lockedUntil || (s.lockoutUntil.None? && h.lockedUntil.Some? && h.lockedUntil.value <= now))
    && (s.lockoutUntil.Some? ==> h.failures == [])
    && |s.failures| < l.maxFailures
  }

  lemma PruneKeeps(l: Limits, s: KeyState, h: History, now: int)
    requires Keeps(l, s, h, now)
    ensures Since(s.failures, now - l.window) == Since(h.failures, now - l.window)
  {
    var cutoff :| cutoff <= now - l.window && s.failures == Since(h.failures, cutoff);
    SinceTwice(h.failures, cutoff, now - l.window);
  }

  lemma KeepsLater(l: Limits, s: KeyState, h: History, now: int, later: int)
    requires Keeps(l, s, h, now) && now <= later
    ensures Keeps(l, s, h, later)
  {
  }

  lemma RecentIsHistory(l: Limits, s: KeyState, h: History, now: int)
    requires ValidLimits(l) && Keeps(l, s, h, now) && !Locked(s, now)
    ensures Recent(l, s, now) == Since(h.failures + [now], now - l.window)
  {
    PruneKeeps(l, s, h, now);
    SinceAppend(h.failures, now, now - l.window);
  }

  /** What the limiter's state of a key becomes. */
  function NextState(l: Limits, s: KeyState, c: Call): KeyState {
    match c
    case Ask(_, at) => AllowState(l, s, at)
    case Fail(_, at) => FailureState(l, s, at)
    case Clear(_, _) => UNSEEN
  }

  lemma CallKeeps(l: Limits, s: KeyState, h: History, c: Call)
    requires ValidLimits(l) && Keeps(l, s, h, c.at)
    ensures Keeps(l, NextState(l, s, c), NextHistory(l, h, c), c.at)
    ensures StateVerdict(l, s, c) == HistoryVerdict(l, h, c)
  {
    var now := c.at;
    match c {
      case Ask(_, _) =>
        if !Locked(s, now) { PruneKeeps(l, s, h, now); }
      case Fail(_, _) =>
        if !Locked(s, now) { RecentIsHistory(l, s, h, now); }
        assert Since([], now - l.window) == [];
      case Clear(_, _) =>
        assert Since([], now - l.window) == [];
    }
  }

  /** Two states that answer alike. */
  predicate SameAnswers(a: KeyState, b: KeyState) { a.failures == b.failures && a.lockoutUntil == b.lockoutUntil }

  lemma NextStatesAnswers(l: Limits, states: map<string, KeyState>, c: Call, key: string)
    requires ValidLimits(l)
    ensures SameAnswers(Seen(NextStates(l, states, c), key),
                        if c.key == key then NextState(l, Seen(states, key), c) else Seen(states, key))
  {
  }

  lemma NextStateAlike(l: Limits, a: KeyState, b: KeyState, c: Call)
    requires ValidLimits(l) && SameAnswers(a, b)
    ensures StateVerdict(l, a, c) == StateVerdict(l, b, c) && SameAnswers(NextState(l, a, c), NextState(l, b, c))
  {
  }

  /** The answers to one key's calls in a run of calls of any keys. */
  function AnswersTo(l: Limits, states: map<string, KeyState>, calls: seq<Call>, key: string): seq<Verdict>
    requires ValidLimits(l)
    decreases |calls|
  {
    if calls == [] then []
    else
      (if calls[0].key == key then [StateVerdict(l, Seen(states, key), calls[0])] else [])
      + AnswersTo(l, NextStates(l, states, calls[0]), calls[1..], key)
  }

  /** A key's answers depend on its own state alone, and not on when it was last seen. */
  lemma {:induction false} AnswersDependOnTheKey(l: Limits, a: map<string, KeyState>, b: map<string, KeyState>,
                                                 calls: seq<Call>, key: string)
    requires ValidLimits(l) && SameAnswers(Seen(a, key), Seen(b, key))
    ensures AnswersTo(l, a, calls, key) == AnswersTo(l, b, calls, key)
    decreases |calls|
  {
    if calls != [] {
      NextStatesAnswers(l, a, calls[0], key);
      NextStatesAnswers(l, b, calls[0], key);
      NextStateAlike(l, Seen(a, key), Seen(b, key), calls[0]);
      AnswersDependOnTheKey(l, NextStates(l, a, calls[0]), NextStates(l, b, calls[0]), calls[1..], key);
    }
  }

  /** Evicting idle keys changes no answer to any later run of calls. */
  lemma {:induction false} EvictionIsUnobservable(l: Limits, states: map<string, KeyState>, now: int,
                                                  calls: seq<Call>, key: string)
    requires ValidLimits(l)
    ensures AnswersTo(l, Evicted(l, states, now), calls, key) == AnswersTo(l, states, calls, key)
  {
    AnswersDependOnTheKey(l, Evicted(l, states, now), states, calls, key);
  }

  /** In every later run of calls a reset key is answered as if it had never been seen, and every other key as if there
      had been no reset. */
  lemma {:induction false} ResetForgetsOneKey(l: Limits, states: map<string, KeyState>, reset: string,
                                              calls: seq<Call>, key: string)
    requires ValidLimits(l)
    ensures AnswersTo(l, states - {reset}, calls, key)
            == AnswersTo(l, if key == reset then map[] else states, calls, key)
  {
    AnswersDependOnTheKey(l, states - {reset}, if key == reset then map[] else states, calls, key);
  }

  lemma {:induction false} LimiterKeepsHistory(l: Limits, calls: seq<Call>, n: nat, key: string, now: int)
    requires ValidLimits(l) && n <= |calls| && ClockRuns(calls) && (n > 0 ==> calls[n - 1].at <= now)
    ensures Keeps(l, Seen(StatesAfter(l, calls, n), key), HistoryAfter(l, calls, n, key), now)
  {
    if n == 0 {
      assert Since([], now - l.window) == [];
    } else {
      var c := calls[n - 1];
      LimiterKeepsHistory(l, calls, n - 1, key, c.at);
      var s, h := Seen(StatesAfter(l, calls, n - 1), key), HistoryAfter(l, calls, n - 1, key);
      if c.key == key { CallKeeps(l, s, h, c); }
      NextStatesAnswers(l, StatesAfter(l, calls, n - 1), c, key);
      var s' := if c.key == key then NextState(l, s, c) else s;
      KeepsLater(l, s', HistoryAfter(l, calls, n, key), c.at, now);
      SameKeeps(l, s', Seen(StatesAfter(l, calls, n), key), HistoryAfter(l, calls, n, key), now);
    }
  }

  lemma SameKeeps(l: Limits, a: KeyState, b: KeyState, h: History, now: int)
    requires Keeps(l, a, h, now) && SameAnswers(b, a)
    ensures Keeps(l, b, h, now)
  {
  }

  /** With a clock that does not run backwards, every answer is the one a limiter would give that never forgets a
      failure between locks and resets. */
  lemma RefinesFullHistory(l: Limits, calls: seq<Call>, n: nat)
    requires ValidLimits(l) && n < |calls| && ClockRuns(calls)
    ensures StateVerdict(l, Seen(StatesAfter(l, calls, n), calls[n].key), calls[n])
            == HistoryVerdict(l, HistoryAfter(l, calls, n, calls[n].key), calls[n])
  {
    LimiterKeepsHistory(l, calls, n, calls[n].key, calls[n].at);
    CallKeeps(l, Seen(StatesAfter(l, calls, n), calls[n].key), HistoryAfter(l, calls, n, calls[n].key), calls[n]);
  }

  predicate Small(l: Limits, s: KeyState) {
    |s.failures| < l.maxFailures && (s.lockoutUntil.Some? ==> s.failures == [])
  }

  lemma NextStateIsSmall(l: Limits, s: KeyState, c: Call)
    requires ValidLimits(l) && Small(l, s)
    ensures Small(l, NextState(l, s, c))
  {
  }

  /** A key never holds as many failures as the limit, and a locked key holds none. */
  lemma {:induction false} StatesStaySmall(l: Limits, calls: seq<Call>, n: nat, key: string)
    requires ValidLimits(l) && n <= |calls|
    ensures Small(l, Seen(StatesAfter(l, calls, n), key))
  {
    if n > 0 {
      StatesStaySmall(l, calls, n - 1, key);
      NextStateIsSmall(l, Seen(StatesAfter(l, calls, n - 1), key), calls[n - 1]);
      NextStatesAnswers(l, StatesAfter(l, calls, n - 1), calls[n - 1], key);
    }
  }
}
