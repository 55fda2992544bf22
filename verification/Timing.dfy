/** Interview time. Instants are microseconds; the service truncates differences to
    whole seconds and the database rounds them. */
module Timing {

  const SECOND: int := 1_000_000

  /** The service's conversion: towards zero. */
  function TruncSeconds(d: int): int {
    if d >= 0 then d / SECOND else -((-d) / SECOND)
  }

  /** The database's conversion: to the nearest second, halves away from zero. */
  function RoundSeconds(d: int): int {
    if d >= 0 then (d + SECOND / 2) / SECOND else -((-d + SECOND / 2) / SECOND)
  }

  function Clamp(seconds: int, limit: nat): nat {
    if seconds < 0 then 0 else if seconds > limit then limit else seconds
  }

  /** Seconds the service counts against the running question. */
  function LiveElapsed(issuedAt: int, at: int, limit: nat): nat {
    Clamp(TruncSeconds(at - issuedAt), limit)
  }

  /** Seconds the database charges for the answered question. */
  function Charge(issuedAt: int, submittedAt: int, limit: nat): nat {
    Clamp(RoundSeconds(submittedAt - issuedAt), limit)
  }

  function Remaining(budget: int, lapsed: int, live: int): nat {
    if budget - (lapsed + live) < 0 then 0 else budget - (lapsed + live)
  }

  /** The two conversions disagree by at most one second, and only upwards. */
  lemma ChargeIsLiveOrOneMore(issuedAt: int, submittedAt: int, limit: nat)
    ensures LiveElapsed(issuedAt, submittedAt, limit) <= Charge(issuedAt, submittedAt, limit)
    ensures Charge(issuedAt, submittedAt, limit) <= LiveElapsed(issuedAt, submittedAt, limit) + 1
  {
  }

  /** A turn admitted with time left can be charged without overrunning the budget. */
  lemma AdmittedTurnFits(budget: nat, lapsed: nat, issuedAt: int, submittedAt: int, limit: nat)
    requires Remaining(budget, lapsed, LiveElapsed(issuedAt, submittedAt, limit)) > 0
    ensures lapsed + Charge(issuedAt, submittedAt, limit) <= budget
  {
  }
}
