/** The lockout limiter's answers over whole runs, told by the calls alone. */
module LockoutLaws {
  import opened Text
  import opened Lockout

  /** The limiter's answers to a run of calls. */
  ghost predicate Answered(l: Limits, calls: seq<Call>, answers: seq<Verdict>)
    requires ValidLimits(l)
  {
    && |answers| == |calls|
    && forall n {:trigger answers[n]} :: 0 <= n < |calls| ==>
         answers[n] == StateVerdict(l, Seen(StatesAfter(l, calls, n), calls[n].key), calls[n])
  }

  ghost predicate AnsweredAsHistory(l: Limits, calls: seq<Call>, answers: seq<Verdict>)
    requires ValidLimits(l)
  {
    && |answers| == |calls|
    && forall n {:trigger answers[n]} :: 0 <= n < |calls| ==>
         answers[n] == HistoryVerdict(l, HistoryAfter(l, calls, n, calls[n].key), calls[n])
  }

  lemma AnswersFollowHistory(l: Limits, calls: seq<Call>, answers: seq<Verdict>)
    requires ValidLimits(l) && ClockRuns(calls) && Answered(l, calls, answers)
    ensures AnsweredAsHistory(l, calls, answers)
  {
    forall n | 0 <= n < |calls|
      ensures answers[n] == HistoryVerdict(l, HistoryAfter(l, calls, n, calls[n].key), calls[n])
    {
      RefinesFullHistory(l, calls, n);
    }
  }

  /** The failed attempts of a key since its last reset that are not older than a cutoff, among the first n calls. */
  function FailsSince(calls: seq<Call>, key: string, cutoff: int, n: nat): nat
    requires n <= |calls|
  {
    if n == 0 || calls[n - 1] == Clear(key, calls[n - 1].at) then 0
    else FailsSince(calls, key, cutoff, n - 1) + if FailsWithin(calls, key, cutoff, n - 1) then 1 else 0
  }

  predicate FailsWithin(calls: seq<Call>, key: string, cutoff: int, i: nat)
    requires i < |calls|
  {
    calls[i] == Fail(key, calls[i].at) && calls[i].at >= cutoff
  }

  ghost predicate NotCleared(calls: seq<Call>, key: string, i: nat, j: nat)
    requires i <= j <= |calls|
  {
    forall k :: i <= k < j ==> calls[k] != Clear(key, calls[k].at)
  }

  // ----- why a call is blocked -----

  /** Failure i filled the window, and the lock it set still runs when call n is made. */
  ghost predicate Reason(l: Limits, calls: seq<Call>, key: string, i: nat, n: nat, now: int)
    requires i < n <= |calls|
  {
    && calls[i] == Fail(key, calls[i].at) && now < calls[i].at + l.lockout && NotCleared(calls, key, i, n)
    && FailsSince(calls, key, calls[i].at - l.window, i + 1) >= l.maxFailures
  }

  ghost predicate HasReason(l: Limits, calls: seq<Call>, key: string, n: nat, now: int)
    requires n <= |calls|
  {
    exists i: nat :: i < n && Reason(l, calls, key, i, n, now)
  }

  lemma OneMoreFailure(times: seq<int>, t: int, cutoff: int)
    ensures |Since(times + [t], cutoff)| == |Since(times, cutoff)| + if t >= cutoff then 1 else 0
  {
    SinceAppend(times, t, cutoff);
  }

  lemma {:induction false} RecordedAreCalls(l: Limits, calls: seq<Call>, key: string, cutoff: int, n: nat)
    requires n <= |calls|
    ensures |Since(HistoryAfter(l, calls, n, key).failures, cutoff)| <= FailsSince(calls, key, cutoff, n)
  {
    if n > 0 {
      RecordedAreCalls(l, calls, key, cutoff, n - 1);
      OneMoreFailure(HistoryAfter(l, calls, n - 1, key).failures, calls[n - 1].at, cutoff);
    }
  }

  lemma TripHasReason(l: Limits, calls: seq<Call>, n: nat)
    requires ValidLimits(l) && n < |calls| && calls[n].Fail?
             && Trips(l, HistoryAfter(l, calls, n, calls[n].key), calls[n].at)
    ensures Reason(l, calls, calls[n].key, n, n + 1, calls[n].at)
  {
    var cutoff := calls[n].at - l.window;
    RecordedAreCalls(l, calls, calls[n].key, cutoff, n);
    OneMoreFailure(HistoryAfter(l, calls, n, calls[n].key).failures, calls[n].at, cutoff);
  }

  /** A lock in the history was set by a failure that filled the window. */
  lemma {:induction false} LockHasReason(l: Limits, calls: seq<Call>, key: string, n: nat, now: int) returns (i: nat)
    requires ValidLimits(l) && n <= |calls| && HistoryLocked(HistoryAfter(l, calls, n, key), now)
    ensures i < n && Reason(l, calls, key, i, n, now)
  {
    var c, h := calls[n - 1], HistoryAfter(l, calls, n - 1, key);
    if c.key == key && c.Fail? && !HistoryLocked(h, c.at) && Trips(l, h, c.at) {
      i := n - 1;
      TripHasReason(l, calls, i);
    } else {
      i := LockHasReason(l, calls, key, n - 1, now);
    }
  }

  /** No key is blocked without cause: some failure of the key, with which the window before it held as many as the
      limit, happened less than a lockout ago and was not reset since. */
  lemma BlockedHasReason(l: Limits, calls: seq<Call>, answers: seq<Verdict>, n: nat)
    requires ValidLimits(l) && ClockRuns(calls) && Answered(l, calls, answers)
    requires n < |calls| && answers[n].Blocked?
    ensures HasReason(l, calls, calls[n].key, n + 1, calls[n].at)
  {
    AnswersFollowHistory(l, calls, answers);
    var c := calls[n];
    if HistoryLocked(HistoryAfter(l, calls, n, c.key), c.at) {
      var i := LockHasReason(l, calls, c.key, n, c.at);
      assert Reason(l, calls, c.key, i, n + 1, c.at);
    } else {
      TripHasReason(l, calls, n);
    }
  }

  // ----- as many failures as the limit always block -----

  lemma {:induction false} OldFailsDoNotCount(calls: seq<Call>, key: string, cutoff: int, n: nat)
    requires n <= |calls| && forall i :: 0 <= i < n ==> calls[i].at < cutoff
    ensures FailsSince(calls, key, cutoff, n) == 0
  {
    if n > 0 { OldFailsDoNotCount(calls, key, cutoff, n - 1); }
  }

  /** No failure of the key since the cutoff was blocked. */
  ghost predicate NoneBlocked(calls: seq<Call>, answers: seq<Verdict>, key: string, cutoff: int, n: nat)
    requires n <= |calls| == |answers|
  {
    forall i {:trigger answers[i]} :: 0 <= i < n && FailsWithin(calls, key, cutoff, i) ==> answers[i].Free?
  }

  lemma {:induction false} UnblockedAreRecorded(l: Limits, calls: seq<Call>, answers: seq<Verdict>, key: string,
                                                cutoff: int, n: nat)
    requires ValidLimits(l) && n <= |calls| && ClockRuns(calls) && AnsweredAsHistory(l, calls, answers)
    requires NoneBlocked(calls, answers, key, cutoff, n)
    ensures |Since(HistoryAfter(l, calls, n, key).failures, cutoff)| == FailsSince(calls, key, cutoff, n)
  {
    if n > 0 {
      UnblockedAreRecorded(l, calls, answers, key, cutoff, n - 1);
      if calls[n - 1] == Fail(key, calls[n - 1].at) {
        if calls[n - 1].at < cutoff { OldFailsDoNotCount(calls, key, cutoff, n - 1); }
        assert FailsWithin(calls, key, cutoff, n - 1) ==> answers[n - 1].Free?;
        FailureIsRecorded(l, HistoryAfter(l, calls, n - 1, key), calls[n - 1], cutoff);
      }
    }
  }

  lemma FailureIsRecorded(l: Limits, h: History, c: Call, cutoff: int)
    requires ValidLimits(l) && c.Fail?
    requires if c.at < cutoff then |Since(h.failures, cutoff)| == 0 else HistoryVerdict(l, h, c).Free?
    ensures |Since(NextHistory(l, h, c).failures, cutoff)| ==
            |Since(h.failures, cutoff)| + if c.at < cutoff then 0 else 1
  {
    OneMoreFailure(h.failures, c.at, cutoff);
  }

  lemma FreeIsBelowTheLimit(l: Limits, h: History, c: Call)
    requires ValidLimits(l) && c.Fail? && HistoryVerdict(l, h, c).Free?
    ensures |Since(h.failures, c.at - l.window)| + 1 < l.maxFailures
  {
    OneMoreFailure(h.failures, c.at, c.at - l.window);
  }

  /** As many failures as the limit within a window, none of them reset, never all go unpunished. */
  lemma LimitBlocks(l: Limits, calls: seq<Call>, answers: seq<Verdict>, n: nat)
    requires ValidLimits(l) && ClockRuns(calls) && Answered(l, calls, answers)
    requires n < |calls| && calls[n].Fail?
    requires FailsSince(calls, calls[n].key, calls[n].at - l.window, n + 1) >= l.maxFailures
    ensures !NoneBlocked(calls, answers, calls[n].key, calls[n].at - l.window, n + 1)
  {
    if NoneBlocked(calls, answers, calls[n].key, calls[n].at - l.window, n + 1) {
      UnblockedIsBelowTheLimit(l, calls, answers, n);
    }
  }

  lemma UnblockedIsBelowTheLimit(l: Limits, calls: seq<Call>, answers: seq<Verdict>, n: nat)
    requires ValidLimits(l) && ClockRuns(calls) && Answered(l, calls, answers)
    requires n < |calls| && calls[n].Fail?
    requires NoneBlocked(calls, answers, calls[n].key, calls[n].at - l.window, n + 1)
    ensures FailsSince(calls, calls[n].key, calls[n].at - l.window, n + 1) < l.maxFailures
  {
    AnswersFollowHistory(l, calls, answers);
    assert answers[n].Free?;
    UnblockedAreRecorded(l, calls, answers, calls[n].key, calls[n].at - l.window, n);
    FreeIsBelowTheLimit(l, HistoryAfter(l, calls, n, calls[n].key), calls[n]);
  }

  // ----- how long a lock lasts -----

  lemma {:induction false} LockStays(l: Limits, calls: seq<Call>, key: string, i: nat, n: nat, now: int)
    requires ValidLimits(l) && i <= n <= |calls| && NotCleared(calls, key, i, n)
    requires HistoryLocked(HistoryAfter(l, calls, i, key), now) && forall k :: i <= k < n ==> calls[k].at <= now
    ensures HistoryAfter(l, calls, n, key) == HistoryAfter(l, calls, i, key)
    decreases n - i
  {
    if i < n { LockStays(l, calls, key, i, n - 1, now); }
  }

  lemma BlockedSetsHistory(l: Limits, calls: seq<Call>, i: nat)
    requires ValidLimits(l) && i < |calls|
    requires HistoryVerdict(l, HistoryAfter(l, calls, i, calls[i].key), calls[i]).Blocked?
    ensures var h := HistoryAfter(l, calls, i + 1, calls[i].key);
            HistoryLocked(h, calls[i].at)
            && HistoryVerdict(l, HistoryAfter(l, calls, i, calls[i].key), calls[i])
               == Blocked(RetrySeconds(calls[i].at, h.lockedUntil.value))
  {
  }

  /** After an answer that announces a wait of r seconds every call of the key that is made sooner is blocked too, if
      there was no reset; a last fraction of a second is announced as one. */
  lemma LockLasts(l: Limits, calls: seq<Call>, answers: seq<Verdict>, i: nat, n: nat, r: int)
    requires ValidLimits(l) && ClockRuns(calls) && Answered(l, calls, answers)
    requires i < n < |calls| && calls[n].key == calls[i].key && NotCleared(calls, calls[i].key, i, n + 1)
    requires answers[i] == Blocked(r) && r > 1 && calls[n].at < calls[i].at + r * 1_000_000_000
    ensures answers[n].Blocked?
  {
    AnswersFollowHistory(l, calls, answers);
    BlockedSetsHistory(l, calls, i);
    LockStays(l, calls, calls[i].key, i + 1, n, calls[n].at);
  }

  lemma {:induction false} LockPasses(l: Limits, calls: seq<Call>, key: string, i: nat, n: nat)
    requires ValidLimits(l) && i <= n <= |calls| && forall k :: i <= k < n ==> calls[k] != Fail(key, calls[k].at)
    ensures HistoryAfter(l, calls, n, key).lockedUntil in {None, HistoryAfter(l, calls, i, key).lockedUntil}
    decreases n - i
  {
    if i < n { LockPasses(l, calls, key, i, n - 1); }
  }

  /** One second past the announced wait the key may try again, if no failure came after the answer. */
  lemma LockEnds(l: Limits, calls: seq<Call>, answers: seq<Verdict>, i: nat, n: nat, r: int)
    requires ValidLimits(l) && ClockRuns(calls) && Answered(l, calls, answers)
    requires i < n < |calls| && calls[n] == Ask(calls[i].key, calls[n].at)
    requires forall k :: i < k < n ==> calls[k] != Fail(calls[i].key, calls[k].at)
    requires answers[i] == Blocked(r) && calls[n].at >= calls[i].at + (r + 1) * 1_000_000_000
    ensures answers[n].Free?
  {
    AnswersFollowHistory(l, calls, answers);
    BlockedSetsHistory(l, calls, i);
    LockPasses(l, calls, calls[i].key, i + 1, n);
  }

  /** The failure that locks a key, at an instant at which the key could still try, announces the whole lockout in
      full seconds. */
  lemma FreshLockIsWhole(l: Limits, s: KeyState, key: string, now: int, r: int)
    requires ValidLimits(l) && StateVerdict(l, s, Ask(key, now)).Free?
    requires StateVerdict(l, s, Fail(key, now)) == Blocked(r)
    ensures r >= 1
    ensures l.lockout >= 1_000_000_000 ==> r * 1_000_000_000 <= l.lockout < (r + 1) * 1_000_000_000
    ensures l.lockout < 1_000_000_000 ==> r == 1
  {
    assert RetrySeconds(now, now + l.lockout) == r;
  }

  // ----- what is kept in memory -----

  /** With 4096 keys or more an eviction drops exactly the keys that hold neither a failure nor a lock and were last
      seen longer than a window and a lockout ago; it changes no other. */
  lemma EvictionIsExact(l: Limits, states: map<string, KeyState>, now: int, key: string)
    requires key in states
    ensures key !in Evicted(l, states, now) <==>
            && |states| >= 4096 && states[key].failures == [] && states[key].lockoutUntil == None
            && states[key].lastSeen + l.window + l.lockout < now
    ensures key in Evicted(l, states, now) ==> Evicted(l, states, now)[key] == states[key]
    ensures Evicted(l, states, now).Keys <= states.Keys
  {
  }

  /** A key that may try and has no recent failure leaves no trace. */
  lemma AllowLeavesNoTrace(l: Limits, states: map<string, KeyState>, key: string, now: int)
    requires AllowVerdict(Seen(states, key), now).Free?
    requires forall k :: 0 <= k < |Seen(states, key).failures| ==> Seen(states, key).failures[k] < now - l.window
    ensures key !in AfterAllow(l, states, key, now)
  {
    NoneSince(Seen(states, key).failures, now - l.window);
  }

  lemma {:induction false} NoneSince(times: seq<int>, cutoff: int)
    requires forall k :: 0 <= k < |times| ==> times[k] < cutoff
    ensures Since(times, cutoff) == []
    decreases |times|
  {
    if times != [] { NoneSince(times[..|times| - 1], cutoff); }
  }

  /** Settings that are missing or negative are five failures, ten minutes and fifteen minutes, in nanoseconds. */
  lemma SettingsAreKept(maxFailures: int, window: int, lockout: int)
    ensures Configured(maxFailures, window, lockout).maxFailures == if maxFailures >= 1 then maxFailures else 5
    ensures Configured(maxFailures, window, lockout).window == if window >= 1 then window else 600_000_000_000
    ensures Configured(maxFailures, window, lockout).lockout == if lockout >= 1 then lockout else 900_000_000_000
  {
  }
}
