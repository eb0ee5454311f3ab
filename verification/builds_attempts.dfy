/** Which builds a claim ends and which one it starts, told from their leases alone. */
module BuildAttempts {
  import opened Common
  import opened Leases
  import opened BuildModel

  /** The build's time is over, or it is due again after three attempts. */
  predicate Spent(lease: Lease, now: Time) {
    || (lease.deadline.Some? && lease.deadline.value < now)
    || (lease.attempt >= 3 && lease.nextAttempt <= now)
  }

  predicate Underway(status: BuildStatus) {
    status.Queued? || status.Building?
  }

  predicate Turn(build: Build, now: Time) {
    Underway(build.status) && build.lease.nextAttempt <= now && !Spent(build.lease, now)
  }

  /** What a claim makes of a build that it does not start. */
  function Swept(build: Build, now: Time): Build {
    if Underway(build.status) && Spent(build.lease, now)
    then build.(status := if build.cancelRequested then Cancelled else Failed)
    else build
  }

  /** The build starts: 45 minutes from its first attempt, and 5, 10, 20 seconds to the next one. */
  function Started(build: Build, token: nat, now: Time): Build {
    var lease := build.lease;
    build.(status := Building,
           lease := Lease(lease.attempt + 1, token, if lease.deadline.Some? then lease.deadline else Some(now + 2_700_000_000),
                          now + (if lease.attempt == 0 then 5_000_000 else if lease.attempt == 1 then 10_000_000 else 20_000_000)))
  }

  lemma StartedIsNext(build: Build, token: nat, now: Time)
    requires Turn(build, now)
    ensures build.(status := Building, lease := NextBuildAttempt(build.lease, token, now)) == Started(build, token, now)
  {
    assert Backoff(0) == 5_000_000 && Backoff(1) == 10_000_000 && Backoff(2) == 20_000_000;
  }

  /** A claim ends exactly the open builds that are spent, as cancelled if that was asked for, and
      starts the oldest one whose turn it is, with one more attempt; it comes back empty exactly if
      it is no build's turn. */
  lemma ClaimExactly(yard: Yard, now: Time)
    ensures var claimed := Claim(yard, now);
            && claimed.yard == yard.(builds := claimed.yard.builds, lastToken := claimed.yard.lastToken)
            && |claimed.yard.builds| == |yard.builds| && claimed.reply.Ok?
            && match claimed.reply.value
               case None =>
                 && claimed.yard.lastToken == yard.lastToken
                 && forall i :: 0 <= i < |yard.builds| ==>
                                  !Turn(yard.builds[i], now) && claimed.yard.builds[i] == Swept(yard.builds[i], now)
               case Some((b, token)) =>
                 && token == yard.lastToken + 1 && claimed.yard.lastToken == token
                 && b < |yard.builds| && Turn(yard.builds[b], now)
                 && claimed.yard.builds[b] == Started(yard.builds[b], token, now)
                 && (forall i :: 0 <= i < b ==> !Turn(yard.builds[i], now))
                 && forall i :: 0 <= i < |yard.builds| && i != b ==> claimed.yard.builds[i] == Swept(yard.builds[i], now)
  {
    hide Started, NextBuildAttempt, FirstReady;
    var swept := Sweep(yard.builds, now);
    forall i | 0 <= i < |yard.builds| ensures swept[i] == Swept(yard.builds[i], now) && (Ready(swept[i], now) <==> Turn(yard.builds[i], now)) {
    }
    var found := FirstReady(swept, now);
    if found.Some? {
      StartedIsNext(yard.builds[found.value], yard.lastToken + 1, now);
    }
  }

  predicate Begun(reply: Result<Option<(nat, nat)>, BuildError>, b: nat, token: nat) {
    reply == Ok(Some((b, token)))
  }

  /** No other build is open. */
  predicate Alone(builds: seq<Build>, b: nat) {
    && b < |builds| && Underway(builds[b].status)
    && forall i :: 0 <= i < |builds| && i != b ==> !Underway(builds[i].status)
  }

  lemma AloneIsStarted(yard: Yard, b: nat, now: Time)
    requires Alone(yard.builds, b) && Turn(yard.builds[b], now)
    ensures var claimed := Claim(yard, now);
            && Begun(claimed.reply, b, yard.lastToken + 1) && Alone(claimed.yard.builds, b)
            && claimed.yard.lastToken == yard.lastToken + 1
            && claimed.yard.builds[b] == Started(yard.builds[b], yard.lastToken + 1, now)
  {
    hide Claim, Started;
    ClaimExactly(yard, now);
    StartedIsUnderway(yard.builds[b], yard.lastToken + 1, now);
  }

  lemma StartedIsUnderway(build: Build, token: nat, now: Time)
    ensures Underway(Started(build, token, now).status)
  {
  }

  /** A build that nobody reports on is started three times, whenever it is due within its 45
      minutes, and the next claim ends it. */
  lemma AbandonedGetsThree(yard: Yard, b: nat, t0: Time, t1: Time, t2: Time, t3: Time, t4: Time)
    requires Alone(yard.builds, b) && yard.builds[b].lease == Unclaimed(t0) && t0 <= t1
    requires t1 + 5_000_000 <= t2 && t2 + 10_000_000 <= t3 <= t1 + 2_700_000_000 && t3 + 20_000_000 <= t4
    ensures var one, two, three := Claim(yard, t1), Claim(Claim(yard, t1).yard, t2), Claim(Claim(Claim(yard, t1).yard, t2).yard, t3);
            && Begun(one.reply, b, yard.lastToken + 1) && Begun(two.reply, b, yard.lastToken + 2)
            && Begun(three.reply, b, yard.lastToken + 3)
            && b < |three.yard.builds| && three.yard.builds[b].lease.attempt == 3
            && Claim(three.yard, t4).reply == Ok(None)
            && b < |Claim(three.yard, t4).yard.builds|
            && Claim(three.yard, t4).yard.builds[b].status == (if yard.builds[b].cancelRequested then Cancelled else Failed)
  {
    hide Claim;
    AloneIsStarted(yard, b, t1);
    var one := Claim(yard, t1).yard;
    AloneIsStarted(one, b, t2);
    var two := Claim(one, t2).yard;
    AloneIsStarted(two, b, t3);
    ClaimExactly(Claim(two, t3).yard, t4);
  }
}
