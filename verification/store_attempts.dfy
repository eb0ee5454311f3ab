/** Which jobs a claim ends and which it hands out, told from their leases alone. */
module StoreAttempts {
  import opened Common
  import opened Leases
  import opened StoreModel
  import opened StoreInvariant
  import opened StoreRuns

  /** The job's ten minutes are over, or it is due again after three attempts. */
  predicate Spent(lease: Lease, now: Time) {
    || (lease.deadline.Some? && lease.deadline.value < now)
    || (lease.attempt >= 3 && lease.nextAttempt <= now)
  }

  predicate Underway(status: Status) {
    status.Queued? || status.Working?
  }

  predicate Unfinished(status: TaskStatus) {
    status.Waiting? || status.Executing?
  }

  /** A due job with time and attempts left. */
  predicate Wants(lease: Lease, now: Time) {
    lease.nextAttempt <= now && !Spent(lease, now)
  }

  predicate ActionTurn(db: Db, a: nat)
    requires a < |db.actions|
  {
    Unfinished(db.actions[a].status) && Wants(db.actions[a].lease, db.clock)
  }

  /** Every older deployment of its service is finished, or spent. */
  predicate DeploymentTurn(db: Db, d: nat)
    requires d < |db.deployments|
  {
    && Underway(db.deployments[d].status) && Wants(db.deployments[d].lease, db.clock)
    && forall j :: 0 <= j < d && db.deployments[j].service == db.deployments[d].service && Underway(db.deployments[j].status) ==>
                     Spent(db.deployments[j].lease, db.clock)
  }

  predicate RunTurn(db: Db, r: nat)
    requires r < |db.runs|
  {
    Unfinished(db.runs[r].status) && Wants(db.runs[r].lease, db.clock)
  }

  predicate NoActionTurn(db: Db) {
    forall a :: 0 <= a < |db.actions| ==> !ActionTurn(db, a)
  }

  predicate NoDeploymentTurn(db: Db) {
    forall d :: 0 <= d < |db.deployments| ==> !DeploymentTurn(db, d)
  }

  /******* What a claim ends *******/

  lemma SweepExactly(db: Db, now: Time)
    ensures var swept := Sweep(db, now);
            && swept == db.(deployments := swept.deployments, actions := swept.actions, runs := swept.runs)
            && |swept.deployments| == |db.deployments| && |swept.actions| == |db.actions| && |swept.runs| == |db.runs|
            && (forall i :: 0 <= i < |db.deployments| ==>
                              swept.deployments[i] == var row := db.deployments[i];
                              if Underway(row.status) && Spent(row.lease, now) then row.(status := Failed) else row)
            && (forall i :: 0 <= i < |db.actions| ==>
                              swept.actions[i] == var row := db.actions[i];
                              if Unfinished(row.status) && Spent(row.lease, now) then row.(status := Broken) else row)
            && (forall i :: 0 <= i < |db.runs| ==>
                              swept.runs[i] == var row := db.runs[i];
                              if Unfinished(row.status) && Spent(row.lease, now) then row.(status := Broken) else row)
  {
  }

  /** `after` has the statuses of `swept`, but for the job that was started, if any. */
  ghost predicate StartsOne(swept: Db, after: Db, reply: Option<Work>) {
    && |after.deployments| == |swept.deployments| && |after.actions| == |swept.actions| && |after.runs| >= |swept.runs|
    && (forall i :: 0 <= i < |swept.deployments| ==> after.deployments[i].status == swept.deployments[i].status)
    && (forall i :: 0 <= i < |swept.actions| ==>
                      after.actions[i].status == if reply.Some? && reply.value.ActionWork? && reply.value.action == i
                      then Executing else swept.actions[i].status)
    && (forall i :: 0 <= i < |swept.runs| ==>
                      after.runs[i].status == if reply.Some? && reply.value.CronWork? && reply.value.run == i
                      then Executing else swept.runs[i].status)
  }

  predicate StartedWasUnfinished(swept: Db, reply: Option<Work>) {
    && (reply.Some? && reply.value.ActionWork? ==>
          reply.value.action < |swept.actions| && Unfinished(swept.actions[reply.value.action].status))
    && (reply.Some? && reply.value.CronWork? && reply.value.run < |swept.runs| ==>
          Unfinished(swept.runs[reply.value.run].status))
  }

  lemma ActionStartsOne(db: Db, swept: Db, a: nat, after: Db, reply: Option<Work>)
    requires a < |swept.actions| && ActionReady(swept.actions, a, db.clock)
    requires ClaimAction(db, swept, a, db.clock) == Outcome(after, Ok(reply))
    ensures StartsOne(swept, after, reply) && StartedWasUnfinished(swept, reply)
  {
    hide Backoff;
  }

  lemma DeploymentStartsOne(db: Db, swept: Db, d: nat, after: Db, reply: Option<Work>)
    requires d < |swept.deployments| && ClaimDeployment(db, swept, d, db.clock) == Outcome(after, Ok(reply))
    ensures StartsOne(swept, after, reply) && StartedWasUnfinished(swept, reply)
  {
    hide Backoff;
  }

  lemma CronStartsOne(db: Db, swept: Db, next: Time, after: Db, reply: Option<Work>)
    requires ClaimCron(db, swept, db.clock, next) == Outcome(after, Ok(reply))
    ensures StartsOne(swept, after, reply) && StartedWasUnfinished(swept, reply)
  {
    hide Backoff, ServiceReady, MayStart;
  }

  /** Of what the sweep leaves, a claim changes the status of the job that it starts, if any. */
  lemma ClaimStartsOne(db: Db, next: Time, after: Db, reply: Option<Work>)
    requires Claim(db, db.clock, next) == Outcome(after, Ok(reply))
    ensures StartsOne(Sweep(db, db.clock), after, reply) && StartedWasUnfinished(Sweep(db, db.clock), reply)
  {
    hide Sweep, StartsOne, StartedWasUnfinished, ClaimAction, ClaimDeployment, ClaimCron, ActionReady, DeploymentReady;
    var swept := Sweep(db, db.clock);
    var a, d := FirstAction(swept.actions, db.clock), FirstDeployment(swept.deployments, db.clock);
    if a.Some? {
      ActionStartsOne(db, swept, a.value, after, reply);
    } else if d.Some? {
      DeploymentStartsOne(db, swept, d.value, after, reply);
    } else {
      CronStartsOne(db, swept, next, after, reply);
    }
  }

  /** An accepted claim finishes exactly the unfinished jobs that are spent, as failed, and no other:
      every other job keeps its status, but for the one that it starts. */
  lemma ClaimFinishesExactly(db: Db, next: Time, after: Db, reply: Option<Work>)
    requires Claim(db, db.clock, next) == Outcome(after, Ok(reply))
    ensures |after.deployments| == |db.deployments| && |after.actions| == |db.actions| && |after.runs| >= |db.runs|
    ensures forall i :: 0 <= i < |db.deployments| ==>
                          after.deployments[i].status == var row := db.deployments[i];
                          if Underway(row.status) && Spent(row.lease, db.clock) then Failed else row.status
    ensures forall i :: 0 <= i < |db.actions| ==>
                          after.actions[i].status == var row := db.actions[i];
                          if Unfinished(row.status) && Spent(row.lease, db.clock) then Broken
                          else if reply.Some? && reply.value.ActionWork? && reply.value.action == i then Executing
                          else row.status
    ensures forall i :: 0 <= i < |db.runs| ==>
                          after.runs[i].status == var row := db.runs[i];
                          if Unfinished(row.status) && Spent(row.lease, db.clock) then Broken
                          else if reply.Some? && reply.value.CronWork? && reply.value.run == i then Executing
                          else row.status
  {
    hide Sweep, Claim;
    SweepExactly(db, db.clock);
    ClaimStartsOne(db, next, after, reply);
  }

  /******* What a claim hands out *******/

  /** The lease of the next attempt: ten minutes from the first one, and 5, 10, 20 seconds to the
      next one. */
  function Attempted(lease: Lease, token: nat, now: Time): Lease {
    Lease(lease.attempt + 1, token, if lease.deadline.Some? then lease.deadline else Some(now + 600_000_000),
          now + (if lease.attempt == 0 then 5_000_000 else if lease.attempt == 1 then 10_000_000 else 20_000_000))
  }

  lemma AttemptedIsNext(lease: Lease, token: nat, now: Time)
    requires Wants(lease, now)
    ensures NextAttempt(lease, token, now) == Attempted(lease, token, now)
    ensures MayStart(lease, now) <==> lease.deadline != Some(now)
  {
    assert Backoff(0) == 5_000_000 && Backoff(1) == 10_000_000 && Backoff(2) == 20_000_000;
  }

  lemma TurnsAreReady(db: Db)
    ensures var swept := Sweep(db, db.clock);
            && |swept.deployments| == |db.deployments| && |swept.actions| == |db.actions| && |swept.runs| == |db.runs|
            && (forall a :: 0 <= a < |db.actions| ==> (ActionReady(swept.actions, a, db.clock) <==> ActionTurn(db, a)))
            && (forall r :: 0 <= r < |db.runs| ==> (RunReady(swept.runs, r, db.clock) <==> RunTurn(db, r)))
  {
    hide Sweep;
    SweepExactly(db, db.clock);
  }

  lemma DeploymentTurnIsReady(db: Db, d: nat)
    requires d < |db.deployments|
    ensures |Sweep(db, db.clock).deployments| == |db.deployments|
    ensures DeploymentReady(Sweep(db, db.clock).deployments, d, db.clock) <==> DeploymentTurn(db, d)
  {
    hide Sweep;
    SweepExactly(db, db.clock);
    var swept := Sweep(db, db.clock).deployments;
    if DeploymentTurn(db, d) {
      forall j | 0 <= j < d && swept[j].service == swept[d].service ensures Terminal(swept[j].status) {
        assert db.deployments[j].service == db.deployments[d].service;
      }
    }
    if DeploymentReady(swept, d, db.clock) {
      forall j | 0 <= j < d && db.deployments[j].service == db.deployments[d].service && Underway(db.deployments[j].status)
        ensures Spent(db.deployments[j].lease, db.clock)
      {
        assert swept[j].service == swept[d].service;
      }
    }
  }

  /** The oldest action whose turn it is, of any service, is handed out with one more attempt; it
      fails only if its time ends this instant. */
  lemma ActionIsHandedOut(db: Db, next: Time, a: nat)
    requires Inv(db) && a < |db.actions| && ActionTurn(db, a) && forall i :: 0 <= i < a ==> !ActionTurn(db, i)
    ensures var after, row := Claim(db, db.clock, next), db.actions[a];
            if row.lease.deadline == Some(db.clock) then after == Outcome(db, Err(Conflict))
            else
              && row.service < |db.services| && db.services[row.service].activeId.Some?
              && after.reply == Ok(Some(ActionWork(db.lastToken + 1, a, db.services[row.service].activeId.value)))
              && a < |after.db.actions|
              && after.db.actions[a] == row.(status := Executing, lease := Attempted(row.lease, db.lastToken + 1, db.clock))
              && after.db.lastToken == db.lastToken + 1
  {
    hide Sweep, ActionReady, ActionTurn, NextAttempt, MayStart, Inv, Attempted;
    SweepExactly(db, db.clock);
    TurnsAreReady(db);
    ActionTurnMeans(db, a);
    AttemptedIsNext(db.actions[a].lease, db.lastToken + 1, db.clock);
    JobsHaveServices(db);
  }

  lemma ActionTurnMeans(db: Db, a: nat)
    requires a < |db.actions| && ActionTurn(db, a)
    ensures Unfinished(db.actions[a].status) && Wants(db.actions[a].lease, db.clock)
    ensures Sweep(db, db.clock).actions[a] == db.actions[a]
  {
  }

  lemma JobsHaveServices(db: Db)
    requires Inv(db)
    ensures forall i :: 0 <= i < |db.actions| && Unfinished(db.actions[i].status) ==>
                          db.actions[i].service < |db.services| && db.services[db.actions[i].service].activeId.Some?
    ensures forall i :: 0 <= i < |db.deployments| ==> db.deployments[i].service < |db.services|
    ensures forall i :: 0 <= i < |db.runs| ==> db.runs[i].service < |db.services| && db.runs[i].deployment < |db.deployments|
  {
    hide QueueOk, CancelOk, BoundOk, KeysOk, CronOk, LeasesOk;
  }

  /** When it is no action's turn, the oldest deployment whose turn it is is handed out. */
  lemma DeploymentIsHandedOut(db: Db, next: Time, d: nat)
    requires Inv(db) && NoActionTurn(db)
    requires d < |db.deployments| && DeploymentTurn(db, d) && forall i :: 0 <= i < d ==> !DeploymentTurn(db, i)
    ensures var after, row := Claim(db, db.clock, next), db.deployments[d];
            if row.lease.deadline == Some(db.clock) then after == Outcome(db, Err(Conflict))
            else
              && row.service < |db.services| && d < |after.db.deployments|
              && after.reply == Ok(Some(DeploymentWork(db.lastToken + 1, d,
                   var service := db.services[row.service];
                   if service.activeId.Some? && service.desired.Running? then service.activeId else None)))
              && after.db.deployments[d] == row.(lease := Attempted(row.lease, db.lastToken + 1, db.clock))
              && after.db.lastToken == db.lastToken + 1
  {
    hide Sweep, ActionReady, DeploymentReady, ActionTurn, DeploymentTurn, NextAttempt, MayStart, Inv, Attempted;
    SweepExactly(db, db.clock);
    TurnsAreReady(db);
    forall i | 0 <= i <= d ensures DeploymentReady(Sweep(db, db.clock).deployments, i, db.clock) <==> DeploymentTurn(db, i) {
      DeploymentTurnIsReady(db, i);
    }
    DeploymentTurnMeans(db, d);
    AttemptedIsNext(db.deployments[d].lease, db.lastToken + 1, db.clock);
    JobsHaveServices(db);
  }

  lemma DeploymentTurnMeans(db: Db, d: nat)
    requires d < |db.deployments| && DeploymentTurn(db, d)
    ensures Underway(db.deployments[d].status) && Wants(db.deployments[d].lease, db.clock)
    ensures Sweep(db, db.clock).deployments[d] == db.deployments[d]
  {
  }

  /** When it is no action's and no deployment's turn, the cron run whose turn it is and that was
      scheduled first is handed out. */
  lemma RunIsHandedOut(db: Db, next: Time, r: nat)
    requires Inv(db) && NoActionTurn(db) && NoDeploymentTurn(db) && r < |db.runs| && RunTurn(db, r)
    requires forall i :: 0 <= i < |db.runs| && i != r && RunTurn(db, i) ==> db.runs[r].scheduledFor < db.runs[i].scheduledFor
    ensures var after, row := Claim(db, db.clock, next), db.runs[r];
            if row.lease.deadline == Some(db.clock) then after == Outcome(db, Err(Conflict))
            else
              && after.reply == Ok(Some(CronWork(db.lastToken + 1, r, row.deployment))) && r < |after.db.runs|
              && after.db.runs[r] == row.(status := Executing, lease := Attempted(row.lease, db.lastToken + 1, db.clock))
              && after.db.lastToken == db.lastToken + 1
  {
    hide Sweep, ActionReady, DeploymentReady, RunReady, ActionTurn, DeploymentTurn, RunTurn, NextAttempt, MayStart, Inv, Attempted;
    hide ServiceReady;
    SweepExactly(db, db.clock);
    TurnsAreReady(db);
    forall i | 0 <= i < |db.deployments|
      ensures DeploymentReady(Sweep(db, db.clock).deployments, i, db.clock) <==> DeploymentTurn(db, i)
    {
      DeploymentTurnIsReady(db, i);
    }
    RunTurnMeans(db, r);
    AttemptedIsNext(db.runs[r].lease, db.lastToken + 1, db.clock);
    JobsHaveServices(db);
  }

  lemma RunTurnMeans(db: Db, r: nat)
    requires r < |db.runs| && RunTurn(db, r)
    ensures Unfinished(db.runs[r].status) && Wants(db.runs[r].lease, db.clock)
    ensures Sweep(db, db.clock).runs[r] == db.runs[r]
  {
  }

  /******* Three attempts *******/

  /** Deployment `d` is the only unfinished job. */
  predicate Alone(db: Db, d: nat) {
    && d < |db.deployments| && Underway(db.deployments[d].status)
    && (forall i :: 0 <= i < |db.deployments| && i != d ==> !Underway(db.deployments[i].status))
    && (forall a :: 0 <= a < |db.actions| ==> !Unfinished(db.actions[a].status))
    && (forall r :: 0 <= r < |db.runs| ==> !Unfinished(db.runs[r].status))
  }

  lemma AloneIsTurn(db: Db, d: nat)
    requires Alone(db, d) && Wants(db.deployments[d].lease, db.clock)
    ensures NoActionTurn(db) && DeploymentTurn(db, d) && forall i :: 0 <= i < d ==> !DeploymentTurn(db, i)
  {
  }

  /** A claim at `now` of the only unfinished job, while it wants one. */
  lemma AloneIsClaimed(db: Db, d: nat, now: Time, next: Time)
    requires Inv(db) && Alone(db, d) && db.clock <= now < next
    requires Wants(db.deployments[d].lease, now) && db.deployments[d].lease.deadline != Some(now)
    ensures var after := Claim(Tick(db, now), now, next);
            && after.reply.Ok? && after.reply.value.Some? && after.reply.value.value.DeploymentWork?
            && after.reply.value.value.deployment == d && after.reply.value.value.token == db.lastToken + 1
            && after.db == Apply(db, Event(now, DoClaim(next)))
            && Inv(after.db) && Alone(after.db, d) && after.db.clock == now && after.db.lastToken == db.lastToken + 1
            && after.db.deployments[d].lease == Attempted(db.deployments[d].lease, db.lastToken + 1, now)
  {
    hide Inv, Claim, Attempted, Alone, Wants;
    var ticked := Tick(db, now);
    TickInv(db, now);
    AloneLater(db, now, d);
    AloneIsTurn(ticked, d);
    DeploymentIsHandedOut(ticked, next, d);
    ClaimInv(ticked, next);
    ClaimedIsAlone(ticked, d, next);
  }

  lemma AloneLater(db: Db, now: Time, d: nat)
    requires Alone(db, d)
    ensures Alone(Tick(db, now), d) && d < |db.deployments|
  {
  }

  lemma ClaimedIsAlone(db: Db, d: nat, next: Time)
    requires Alone(db, d) && Wants(db.deployments[d].lease, db.clock)
    requires Claim(db, db.clock, next).reply.Ok? && Claim(db, db.clock, next).reply.value.Some?
    requires Claim(db, db.clock, next).reply.value.value.DeploymentWork?
    ensures Alone(Claim(db, db.clock, next).db, d) && Claim(db, db.clock, next).db.clock == db.clock
  {
    hide Sweep, Backoff;
    SweepExactly(db, db.clock);
    var swept := Sweep(db, db.clock);
    assert forall a :: 0 <= a < |swept.actions| ==> !Unfinished(swept.actions[a].status);
  }

  /** A deployment that nobody reports on, as of an agent that crashes every time, is handed out
      three times, whenever it is due within its ten minutes; a claim after that ends it. */
  lemma AbandonedGetsThree(
    db: Db, d: nat, t1: Time, t2: Time, t3: Time, t4: Time, next: Time, after: Db, reply: Option<Work>)
    requires Inv(db) && Alone(db, d) && db.deployments[d].lease == Unclaimed(db.clock) && db.clock <= t1
    requires t1 + 5_000_000 <= t2 && t2 + 10_000_000 <= t3 < t1 + 600_000_000 && t3 + 20_000_000 <= t4 < next
    ensures var one, two := Event(t1, DoClaim(next)), Event(t2, DoClaim(next));
            var second, third := Apply(db, one), Apply(Apply(db, one), two);
            var done := Claim(Tick(third, t3), t3, next);
            && Handed(Claim(Tick(db, t1), t1, next).reply, d, db.lastToken + 1)
            && Handed(Claim(Tick(second, t2), t2, next).reply, d, db.lastToken + 2)
            && Handed(done.reply, d, db.lastToken + 3)
            && d < |done.db.deployments| && done.db.deployments[d].lease.attempt == 3
            && (Claim(Tick(done.db, t4), t4, next) == Outcome(after, Ok(reply)) ==>
                  d < |after.deployments| && after.deployments[d].status.Failed?)
  {
    hide Inv, Claim, Alone;
    AloneLater(db, t1, d);
    AloneIsClaimed(db, d, t1, next);
    var second := Apply(db, Event(t1, DoClaim(next)));
    AloneLater(second, t2, d);
    AloneIsClaimed(second, d, t2, next);
    var third := Apply(second, Event(t2, DoClaim(next)));
    AloneLater(third, t3, d);
    AloneIsClaimed(third, d, t3, next);
    var last := Claim(Tick(third, t3), t3, next).db;
    AloneLater(last, t4, d);
    AloneUnderway(last, d);
    if Claim(Tick(last, t4), t4, next) == Outcome(after, Ok(reply)) {
      ClaimFinishesExactly(Tick(last, t4), next, after, reply);
    }
  }

  lemma AloneUnderway(db: Db, d: nat)
    requires Alone(db, d)
    ensures d < |db.deployments| && Underway(db.deployments[d].status)
  {
  }

  predicate Handed(reply: Result<Option<Work>, Error>, d: nat, token: nat) {
    reply.Ok? && reply.value.Some? && reply.value.value.DeploymentWork?
    && reply.value.value.deployment == d && reply.value.value.token == token
  }
}
