/** What a request leads to: the operations of the store one after the other. */
module StoreProgress {
  import opened Common
  import opened Leases
  import opened StoreModel
  import opened StoreInvariant
  import opened StoreRuns
  import opened StorePromises

  /******* A request is claimed *******/

  lemma FreshDeployment(
    db: Db, s: nat, spec: Spec, command: Option<string>, key: string, valid: bool, resolved: bool, after: Db)
    requires Enqueue(db, s, spec, command, key, valid, resolved, db.clock) == Outcome(after, Ok(|db.deployments|))
    ensures s < |db.services| && !ActionPending(db.actions, s)
    ensures var row := Deployment(s, db.services[s].settings.(port := spec.port), key, Payload(spec, command), Queued,
                                  Unclaimed(db.clock), false);
            after == db.(services := after.services, deployments := db.deployments + [row])
    ensures |after.services| == |db.services|
    ensures forall t :: 0 <= t < |db.services| ==> after.services[t].activeId == db.services[t].activeId
    ensures forall t :: 0 <= t < |db.services| ==> after.services[t].desired == db.services[t].desired
    ensures forall t :: 0 <= t < |db.services| ==> after.services[t].settings.volume == db.services[t].settings.volume
  {
    hide PendingCount, ActionPending;
  }

  lemma SweepAppends(rows: seq<Deployment>, row: Deployment, now: Time)
    requires !Exhausted(row.lease, now)
    ensures SweepDeployments(rows + [row], now) == SweepDeployments(rows, now) + [row]
  {
  }

  lemma SweepAppendsAction(rows: seq<Action>, row: Action, now: Time)
    requires !Exhausted(row.lease, now)
    ensures SweepActions(rows + [row], now) == SweepActions(rows, now) + [row]
  {
  }

  /** When nothing else is ready and the service has nothing unfinished, a new deployment is the
      very next work that is handed out, with the running active release as Previous. */
  lemma FreshDeploymentIsClaimed(
    db: Db, s: nat, spec: Spec, command: Option<string>, key: string, valid: bool, resolved: bool, after: Db, next: Time)
    requires Enqueue(db, s, spec, command, key, valid, resolved, db.clock) == Outcome(after, Ok(|db.deployments|))
    requires NoActionReady(Sweep(db, db.clock)) && NoDeploymentReady(Sweep(db, db.clock))
    requires !DeploymentPending(Sweep(db, db.clock).deployments, s)
    ensures s < |db.services|
    ensures Claim(after, after.clock, next).reply == Ok(Some(DeploymentWork(
                db.lastToken + 1, |db.deployments|, if Released(db.services[s]) then db.services[s].activeId else None)))
  {
    hide Enqueue, Exhausted, SweepActions, SweepRuns, SweepDeployments, FirstAction, FirstDeployment, Backoff;
    FreshDeployment(db, s, spec, command, key, valid, resolved, after);
    var rows, row := db.deployments, after.deployments[|db.deployments|];
    FreshLease(db.clock);
    SweepAppends(rows, row, db.clock);
    var swept := SweepDeployments(rows, db.clock);
    SweepLength(rows, db.clock);
    OnlyTheLastIsReady(swept, row, db.clock);
  }

  lemma FreshLease(now: Time)
    ensures !Exhausted(Unclaimed(now), now) && Due(Unclaimed(now), now) && MayStart(Unclaimed(now), now)
  {
  }

  lemma SweepLength(rows: seq<Deployment>, now: Time)
    ensures |SweepDeployments(rows, now)| == |rows|
  {
  }

  lemma ReadyAmongFewer(rows: seq<Deployment>, row: Deployment, i: nat, now: Time)
    requires i < |rows|
    ensures DeploymentReady(rows + [row], i, now) ==> DeploymentReady(rows, i, now)
  {
    var more := rows + [row];
    assert more[i] == rows[i];
    assert forall j :: 0 <= j < i ==> rows[j] == more[j];
  }

  lemma OnlyTheLastIsReady(rows: seq<Deployment>, row: Deployment, now: Time)
    requires forall i :: 0 <= i < |rows| ==> !DeploymentReady(rows, i, now)
    requires !DeploymentPending(rows, row.service) && row.status.Queued? && Due(row.lease, now)
    ensures FirstDeployment(rows + [row], now) == Some(|rows|)
  {
    hide FirstDeployment;
    var more := rows + [row];
    forall i | 0 <= i < |rows| ensures !DeploymentReady(more, i, now) {
      ReadyAmongFewer(rows, row, i, now);
    }
    assert DeploymentReady(more, |rows|, now);
  }

  /** When no other action is ready, a new action is the very next work that is handed out, for
      the active release. */
  lemma FreshActionIsClaimed(db: Db, s: nat, kind: ActionKind, backupExists: bool, after: Db, a: nat, next: Time)
    requires EnqueueAction(db, s, kind, backupExists, db.clock) == Outcome(after, Ok(a))
    requires NoActionReady(Sweep(db, db.clock))
    ensures s < |db.services| && db.services[s].activeId.Some?
    ensures Claim(after, after.clock, next).reply == Ok(Some(ActionWork(db.lastToken + 1, a, db.services[s].activeId.value)))
  {
    hide Exhausted, SweepActions, SweepRuns, SweepDeployments, FirstAction, Backoff, HasWork;
    var row := Action(s, kind, Waiting, Unclaimed(db.clock));
    FreshLease(db.clock);
    SweepAppendsAction(db.actions, row, db.clock);
    ActionSweepLength(db.actions, db.clock);
    OnlyTheLastActionIsReady(SweepActions(db.actions, db.clock), row, db.clock);
  }

  lemma ActionSweepLength(rows: seq<Action>, now: Time)
    ensures |SweepActions(rows, now)| == |rows|
  {
  }

  lemma OnlyTheLastActionIsReady(rows: seq<Action>, row: Action, now: Time)
    requires forall i :: 0 <= i < |rows| ==> !ActionReady(rows, i, now)
    requires row.status.Waiting? && Due(row.lease, now)
    ensures FirstAction(rows + [row], now) == Some(|rows|)
  {
    hide FirstAction;
    var more := rows + [row];
    forall i | 0 <= i < |rows| ensures !ActionReady(more, i, now) {
      assert !ActionReady(rows, i, now);
    }
    assert ActionReady(more, |rows|, now);
  }

  /******* The snapshot *******/

  /** A new deployment is promised a volume exactly if that volume is attached to its service. */
  lemma SnapshotIsAttachment(
    db: Db, s: nat, spec: Spec, command: Option<string>, key: string, valid: bool, resolved: bool, after: Db, v: VolumeId)
    requires VolumesOk(db)
    requires Enqueue(db, s, spec, command, key, valid, resolved, db.clock) == Outcome(after, Ok(|db.deployments|))
    ensures |after.deployments| == |db.deployments| + 1
    ensures after.deployments[|db.deployments|].settings.volume == Some(v)
       <==> v in db.attachments && db.attachments[v].service == s
  {
    hide Enqueue, SnapshotsOk;
    FreshDeployment(db, s, spec, command, key, valid, resolved, after);
  }

  /******* Cancellation *******/

  /** A cancellation is accepted exactly for an unfinished deployment, and then prevails: in every
      later state it is not active and no report makes it so. */
  lemma CancelPrevails(db: Db, d: nat, events: seq<Event>, token: nat, now: Time)
    requires Inv(db) && Legal(Cancel(db, d).db, events)
    ensures Cancel(db, d).reply.Ok? <==> d < |db.deployments| && !Terminal(db.deployments[d].status)
    ensures Cancel(db, d).reply.Ok? ==>
              var later := Run(Cancel(db, d).db, events);
              && d < |later.deployments| && !later.deployments[d].status.Active?
              && Report(later, d, token, Activated, now) == Outcome(later, Err(Conflict))
  {
    hide Inv, Run, Legal, Report;
    if Cancel(db, d).reply.Ok? {
      CancelInv(db, d);
      CancelledNeverActivates(Cancel(db, d).db, events, d, token, now);
    }
  }

  /******* Cron *******/

  /** A cron run that a claim makes is for the occurrence that was due, of the release that is
      active, and the schedule moves on to one that is not due yet. */
  lemma MadeRun(db: Db, next: Time, after: Db, token: nat, r: nat, release: nat)
    requires next > db.clock && |after.runs| > |db.runs|
    requires Claim(db, db.clock, next) == Outcome(after, Ok(Some(CronWork(token, r, release))))
    ensures r == |db.runs| && |after.runs| == |db.runs| + 1 && |after.services| == |db.services|
    ensures var run := after.runs[r];
            && run.service < |db.services|
            && var service := db.services[run.service];
               && service.workload.Cron? && Released(service)
               && service.activeId == Some(run.deployment) && run.deployment == release
               && service.nextRun == Some(run.scheduledFor) && run.scheduledFor <= db.clock
               && after.services[run.service].nextRun == Some(next)
  {
    hide SweepActions, SweepDeployments, FirstAction, FirstDeployment, EarliestRun, EarliestService, Backoff, ExpireRun;
    var swept := Sweep(db, db.clock);
    assert |swept.runs| == |db.runs|;
  }
}
