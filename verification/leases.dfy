/** The lease columns shared by every job table (internal/deployment/reliability.go).

    A job row carries an attempt counter, the token of its latest attempt, a deadline that is set
    by the first attempt, and the earliest time of its next attempt.  Tokens come from a counter;
    0 stands for the empty token of a job that was never claimed. */
module Leases {
  import opened Common

  /** A point in time, in microseconds, as PostgreSQL keeps it. */
  type Time = int

  const SECOND: Time := 1_000_000
  const EXECUTION_WINDOW: Time := 600 * SECOND
  const MAX_ATTEMPTS: nat := 3

  datatype Lease = Lease(attempt: nat, token: nat, deadline: Option<Time>, nextAttempt: Time)

  function Unclaimed(now: Time): Lease {
    Lease(0, 0, None, now)
  }

  /** The delay that follows the attempt numbered `attempt`, counted from zero. */
  function Backoff(attempt: nat): (delay: Time)
    ensures delay >= 5 * SECOND
  {
    if attempt == 0 then 5 * SECOND else 2 * Backoff(attempt - 1)
  }

  predicate Due(lease: Lease, now: Time) {
    lease.nextAttempt <= now
  }

  /** The sweep that opens every claim ends such a job. */
  predicate Exhausted(lease: Lease, now: Time) {
    || (lease.deadline.Some? && lease.deadline.value < now)
    || (lease.attempt >= MAX_ATTEMPTS && Due(lease, now))
  }

  predicate MayStart(lease: Lease, now: Time) {
    lease.attempt < MAX_ATTEMPTS && (lease.deadline.None? || lease.deadline.value > now)
  }

  function NextAttempt(lease: Lease, token: nat, now: Time): Lease {
    Lease(
      lease.attempt + 1,
      token,
      if lease.deadline.Some? then lease.deadline else Some(now + EXECUTION_WINDOW),
      now + Backoff(lease.attempt))
  }

  /** A report is accepted only with the token of the latest attempt, before the deadline. */
  predicate Holds(lease: Lease, token: nat, now: Time) {
    token != 0 && lease.token == token && lease.deadline.Some? && now < lease.deadline.value
  }

  predicate LeaseOk(lease: Lease, lastToken: nat) {
    && lease.attempt <= MAX_ATTEMPTS
    && lease.token <= lastToken
    && (lease.attempt == 0 <==> lease.token == 0)
    && (lease.attempt == 0 <==> lease.deadline.None?)
  }

  /** What never changes back: attempts and tokens only grow and a deadline, once set, stays. */
  predicate LeaseEvolves(before: Lease, after: Lease) {
    && before.attempt <= after.attempt
    && before.token <= after.token
    && (before.deadline.Some? ==> after.deadline == before.deadline)
  }

  /** A due job that survived the sweep can start, unless its deadline is this very instant. */
  lemma SurvivorStarts(lease: Lease, now: Time)
    requires Due(lease, now) && !Exhausted(lease, now)
    ensures MayStart(lease, now) <==> lease.deadline != Some(now)
  {
  }
}
