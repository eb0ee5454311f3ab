/** The store's promises to its callers, each over every later history. */
module StorePromises {
  import opened Common
  import opened Leases
  import opened StoreModel
  import opened StoreInvariant
  import opened StoreRuns
  import opened StoreHistory

  /******* Activation *******/

  /** Only a report can move an active pointer. */
  lemma PointersKept(db: Db, step: Step)
    requires !step.DoReport?
    ensures |db.services| <= |Perform(db, step).services|
    ensures forall s :: 0 <= s < |db.services| ==> Perform(db, step).services[s].activeId == db.services[s].activeId
  {
    if step.DoClaim? {
      ClaimKeepsPointers(db, step.after);
    }
  }

  lemma ClaimKeepsPointers(db: Db, next: Time)
    ensures var after := Claim(db, db.clock, next).db;
            && |after.services| == |db.services|
            && forall s :: 0 <= s < |db.services| ==> after.services[s].activeId == db.services[s].activeId
  {
    hide SweepDeployments, SweepActions, SweepRuns, FirstAction, FirstDeployment;
  }

  /** Two claimed deployments of one service are never unfinished together. */
  lemma OneInFlight(deployments: seq<Deployment>, d: nat, e: nat)
    requires QueueOk(deployments) && d < |deployments| && e < |deployments|
    requires deployments[d].service == deployments[e].service
    requires !Terminal(deployments[d].status) && !Terminal(deployments[e].status)
    requires deployments[d].lease.attempt > 0 && deployments[e].lease.attempt > 0
    ensures d == e
  {
    assert d < e ==> SameQueue(deployments, d, e);
    assert e < d ==> SameQueue(deployments, e, d);
  }

  lemma PointerStaysOneStep(db: Db, step: Step, d: nat)
    requires Inv(db) && d < |db.deployments|
    requires !Terminal(db.deployments[d].status) && db.deployments[d].lease.attempt > 0
    requires d < |Perform(db, step).deployments| && !Terminal(Perform(db, step).deployments[d].status)
    ensures var s := db.deployments[d].service;
            && s < |db.services| && s < |Perform(db, step).services|
            && Perform(db, step).services[s].activeId == db.services[s].activeId
  {
    hide ActiveOk, QueueOk, CancelOk, BoundOk, ActionsOk, KeysOk, CronOk;
    if !step.DoReport? {
      hide LeasesOk, Perform;
      PointersKept(db, step);
    } else if step.d < |db.deployments| && db.deployments[step.d].service == db.deployments[d].service {
      if step.reported.Activated? && !Terminal(db.deployments[step.d].status) && db.deployments[step.d].lease.attempt > 0 {
        OneInFlight(db.deployments, d, step.d);
      }
    }
  }

  /** From its claim until it finishes, a deployment sees one and the same active release. */
  lemma {:induction false} PointerStays(db: Db, events: seq<Event>, d: nat)
    requires Inv(db) && Legal(db, events) && d < |db.deployments|
    requires !Terminal(db.deployments[d].status) && db.deployments[d].lease.attempt > 0
    requires d < |Run(db, events).deployments| && !Terminal(Run(db, events).deployments[d].status)
    ensures var s := db.deployments[d].service;
            && s < |db.services| && s < |Run(db, events).services|
            && Run(db, events).services[s].activeId == db.services[s].activeId
    decreases |events|
  {
    hide Inv, Perform, Evolves;
    if |events| > 0 {
      var ticked, next := Tick(db, events[0].now), Apply(db, events[0]);
      TickInv(db, events[0].now);
      ApplyInv(db, events[0]);
      ApplyEvolves(db, events[0]);
      RunOnlyMovesForward(next, events[1..]);
      EvolvedRow(db, next, d);
      EvolvedRow(next, Run(next, events[1..]), d);
      PointerStaysOneStep(ticked, events[0].step, d);
      PointerStays(next, events[1..], d);
    } else {
      OwnService(db, d);
    }
  }

  lemma OwnService(db: Db, d: nat)
    requires Inv(db) && d < |db.deployments|
    ensures db.deployments[d].service < |db.services|
  {
    hide ActiveOk, QueueOk, CancelOk, BoundOk, ActionsOk, KeysOk, CronOk, LeasesOk;
  }

  lemma EvolvedRow(before: Db, after: Db, d: nat)
    requires Evolves(before, after) && d < |before.deployments|
    ensures d < |after.deployments| && RowEvolves(before.deployments[d], after.deployments[d])
  {
  }

  /** What a claim of a deployment says and does. */
  lemma ClaimedDeployment(db: Db, next: Time, token: nat, d: nat, previous: Option<nat>)
    requires Inv(db)
    requires Claim(db, db.clock, next).reply == Ok(Some(DeploymentWork(token, d, previous)))
    ensures var after := Claim(db, db.clock, next).db;
            && token == db.lastToken + 1 && after.services == db.services
            && d < |db.deployments| && d < |after.deployments| && after.deployments[d].service == db.deployments[d].service
            && !Terminal(after.deployments[d].status)
            && after.deployments[d].lease.attempt > 0 && after.deployments[d].lease.token == token
            && after.deployments[d].service < |db.services|
            && (var service := db.services[after.deployments[d].service];
                previous == if Released(service) then service.activeId else None)
  {
    hide Inv;
  }

  /** When the activation of a claimed deployment is accepted, however late, it retires exactly
      the release that was active at the claim, the one the agent was told to fall back to. */
  lemma ActivationRetiresPrevious(
    db: Db, next: Time, claimed: Db, token: nat, d: nat, previous: Option<nat>,
    events: seq<Event>, later: Db, reportToken: nat, now: Time, after: Db)
    requires Inv(db) && next > db.clock
    requires Claim(db, db.clock, next) == Outcome(claimed, Ok(Some(DeploymentWork(token, d, previous))))
    requires Legal(claimed, events) && later == Run(claimed, events)
    requires d < |later.deployments| && !Terminal(later.deployments[d].status)
    requires Report(later, d, reportToken, Activated, now) == Outcome(after, Ok(Unit))
    ensures d < |db.deployments| && |after.deployments| == |later.deployments|
    ensures var s := db.deployments[d].service;
            && s < |db.services| && s < |after.services|
            && after.services[s].activeId == Some(d) && after.services[s].desired.Running?
            && (previous.Some? ==> db.services[s].activeId == previous)
            && forall i :: 0 <= i < |later.deployments| ==>
                             after.deployments[i].status ==
                             if i == d then Active
                             else if db.services[s].activeId == Some(i) then Superseded
                             else later.deployments[i].status
  {
    hide Inv, Claim, Run, Legal;
    ClaimedDeployment(db, next, token, d, previous);
    ClaimInv(db, next);
    PointerStays(claimed, events, d);
    RunKeepsInvariant(claimed, events);
    RunOnlyMovesForward(claimed, events);
    EvolvedRow(claimed, later, d);
    var s := db.deployments[d].service;
    if later.services[s].activeId.Some? {
      PointerIsActive(later, s);
    }
  }

  lemma PointerIsActive(db: Db, s: nat)
    requires Inv(db) && s < |db.services| && db.services[s].activeId.Some?
    ensures var a := db.services[s].activeId.value;
            a < |db.deployments| && db.deployments[a].service == s && db.deployments[a].status.Active?
  {
    hide RefsOk, QueueOk, CancelOk, BoundOk, ActionsOk, KeysOk, CronOk, LeasesOk;
  }

  /******* The order of work *******/

  predicate NoActionReady(db: Db) {
    forall i :: 0 <= i < |db.actions| ==> !ActionReady(db.actions, i, db.clock)
  }

  predicate NoDeploymentReady(db: Db) {
    forall i :: 0 <= i < |db.deployments| ==> !DeploymentReady(db.deployments, i, db.clock)
  }

  predicate NoCronReady(db: Db) {
    && (forall i :: 0 <= i < |db.runs| ==> !RunReady(db.runs, i, db.clock))
    && (forall s :: 0 <= s < |db.services| ==> !ServiceReady(db.services, db.runs, s, db.clock))
  }

  /** The agent is sent away empty-handed exactly when nothing that is left after the sweep is
      ready: no action, no deployment, no cron run and no cron service. */
  lemma ClaimIdleExactly(db: Db, next: Time)
    ensures Claim(db, db.clock, next).reply == Ok(None)
       <==> var swept := Sweep(db, db.clock); NoActionReady(swept) && NoDeploymentReady(swept) && NoCronReady(swept)
  {
    hide Sweep, ActionReady, DeploymentReady, RunReady, ServiceReady;
    var swept := Sweep(db, db.clock);
    assert swept.clock == db.clock by { SweepKeepsClock(db); }
  }

  lemma SweepKeepsClock(db: Db)
    ensures Sweep(db, db.clock).clock == db.clock
  {
  }

  /** Actions come before deployments and deployments before cron runs; among the actions and
      among the deployments the oldest ready one is taken. */
  lemma ClaimOrder(db: Db, next: Time, work: Work)
    requires Claim(db, db.clock, next).reply == Ok(Some(work))
    ensures var swept := Sweep(db, db.clock);
            match work
            case ActionWork(_, a, _) =>
              && a < |swept.actions| && ActionReady(swept.actions, a, db.clock)
              && forall i :: 0 <= i < a ==> !ActionReady(swept.actions, i, db.clock)
            case DeploymentWork(_, d, _) =>
              && NoActionReady(swept)
              && d < |swept.deployments| && DeploymentReady(swept.deployments, d, db.clock)
              && forall i :: 0 <= i < d ==> !DeploymentReady(swept.deployments, i, db.clock)
            case CronWork(_, _, _) => NoActionReady(swept) && NoDeploymentReady(swept)
  {
    hide Sweep, ActionReady, DeploymentReady, RunReady, ServiceReady;
    SweepKeepsClock(db);
  }

  /******* Fencing *******/

  /** A token issued before a job's latest claim never changes that job again. */
  lemma StaleTokenRejected(
    db: Db, next: Time, claimed: Db, token: nat, d: nat, previous: Option<nat>,
    events: seq<Event>, later: Db, stale: nat, reported: Reported, now: Time)
    requires Inv(db) && next > db.clock
    requires Claim(db, db.clock, next) == Outcome(claimed, Ok(Some(DeploymentWork(token, d, previous))))
    requires Legal(claimed, events) && later == Run(claimed, events)
    requires stale <= db.lastToken && !reported.LogsOnly?
    ensures Report(later, d, stale, reported, now) == Outcome(later, Err(Conflict))
  {
    hide Inv, Claim, Run, Legal;
    ClaimedDeployment(db, next, token, d, previous);
    ClaimInv(db, next);
    RunOnlyMovesForward(claimed, events);
    EvolvedRow(claimed, later, d);
  }

  lemma ClaimedAction(db: Db, next: Time, token: nat, a: nat, release: nat)
    requires Claim(db, db.clock, next).reply == Ok(Some(ActionWork(token, a, release)))
    ensures var after := Claim(db, db.clock, next).db;
            token == db.lastToken + 1 && a < |after.actions| && after.actions[a].lease.token == token
  {
    hide Sweep, Backoff;
    SweepKeepsTokens(db);
  }

  lemma ClaimedCron(db: Db, next: Time, token: nat, r: nat, release: nat)
    requires Claim(db, db.clock, next).reply == Ok(Some(CronWork(token, r, release)))
    ensures var after := Claim(db, db.clock, next).db;
            token == db.lastToken + 1 && r < |after.runs| && after.runs[r].lease.token == token
  {
    hide Sweep, Backoff;
    SweepKeepsTokens(db);
  }

  lemma SweepKeepsTokens(db: Db)
    ensures Sweep(db, db.clock).lastToken == db.lastToken
  {
  }

  lemma EvolvedJobs(before: Db, after: Db)
    requires Evolves(before, after)
    ensures |before.actions| <= |after.actions| && |before.runs| <= |after.runs|
    ensures forall a :: 0 <= a < |before.actions| ==> before.actions[a].lease.token <= after.actions[a].lease.token
    ensures forall r :: 0 <= r < |before.runs| ==> before.runs[r].lease.token <= after.runs[r].lease.token
  {
  }

  /** Nor does a token issued before an action's or a cron run's latest claim change that job. */
  lemma StaleJobTokens(
    db: Db, next: Time, claimed: Db, work: Work, events: seq<Event>, later: Db, stale: nat, outcome: bool, now: Time)
    requires Inv(db) && next > db.clock && stale <= db.lastToken
    requires Claim(db, db.clock, next) == Outcome(claimed, Ok(Some(work)))
    requires Legal(claimed, events) && later == Run(claimed, events)
    ensures work.ActionWork? ==> ReportAction(later, work.action, stale, outcome, now).db == later
    ensures work.CronWork? ==> ReportCronRun(later, work.run, stale, outcome, now).db == later
  {
    hide Inv, Claim, Run, Legal, Evolves;
    ClaimInv(db, next);
    RunOnlyMovesForward(claimed, events);
    EvolvedJobs(claimed, later);
    match work
    case ActionWork(token, a, release) => ClaimedAction(db, next, token, a, release);
    case CronWork(token, r, release) => ClaimedCron(db, next, token, r, release);
    case DeploymentWork(_, _, _) =>
  }

  /** After a cancellation request no report activates the deployment, and it never was active. */
  lemma CancelledNeverActivates(db: Db, events: seq<Event>, d: nat, token: nat, now: Time)
    requires Inv(db) && Legal(db, events) && d < |db.deployments| && db.deployments[d].cancelRequested
    ensures var later := Run(db, events);
            && d < |later.deployments|
            && !later.deployments[d].status.Active? && !later.deployments[d].status.Superseded?
            && Report(later, d, token, Activated, now) == Outcome(later, Err(Conflict))
  {
    hide Inv, Run, Legal;
    RunKeepsInvariant(db, events);
    RunOnlyMovesForward(db, events);
    EvolvedRow(db, Run(db, events), d);
    CancelledRow(Run(db, events), d);
  }

  lemma CancelledRow(db: Db, d: nat)
    requires Inv(db) && d < |db.deployments| && db.deployments[d].cancelRequested
    ensures !db.deployments[d].status.Active? && !db.deployments[d].status.Superseded?
  {
    hide RefsOk, QueueOk, ActiveOk, BoundOk, ActionsOk, KeysOk, CronOk, LeasesOk;
  }

  /******* Volumes *******/

  /** The tables with a service that mounts nothing. */
  function Unmounted(db: Db, s: nat): Db
    requires s < |db.services|
  {
    db.(services := db.services[s := db.services[s].(settings := db.services[s].settings.(volume := None, mount := ""))])
  }

  /** Detaching takes back what attaching did, and nothing that the attachment itself causes
      stands in its way. */
  lemma DetachUndoesAttach(db: Db, v: VolumeId, s: nat, mount: string, after: Db)
    requires AttachVolume(db, v, s, mount, true) == Outcome(after, Ok(Unit))
    ensures s < |db.services| && v !in db.attachments
    ensures v in after.attachments && after.attachments[v] == Attachment(s, mount)
    ensures after.services[s].settings == db.services[s].settings.(volume := Some(v), mount := mount)
    ensures DetachVolume(after, v) == Outcome(Unmounted(db, s), Ok(Unit))
    ensures VolumesOk(db) ==> db.services[s].settings.volume.None?
  {
    hide SnapshotsOk;
    assert after.attachments - {v} == db.attachments;
  }

  /******* Idempotency keys *******/

  lemma {:induction false} PriorIsFirst(deployments: seq<Deployment>, s: nat, key: string, d: nat)
    requires KeysOk(deployments) && key != ""
    requires d < |deployments| && deployments[d].service == s && deployments[d].key == key
    ensures Prior(deployments, s, key) == Some(d)
  {
    var found := Prior(deployments, s, key).value;
    assert found < d ==> SameQueue(deployments, found, d);
    assert d < found ==> SameQueue(deployments, d, found);
  }

  lemma DistinctKeys(db: Db)
    requires Inv(db)
    ensures KeysOk(db.deployments)
  {
    hide RefsOk, QueueOk, ActiveOk, BoundOk, ActionsOk, CronOk, CancelOk, LeasesOk;
  }

  lemma EnqueuedRow(
    db: Db, s: nat, spec: Spec, command: Option<string>, key: string, valid: bool, resolved: bool, after: Db, d: nat)
    requires Enqueue(db, s, spec, command, key, valid, resolved, db.clock) == Outcome(after, Ok(d))
    ensures s < |after.services| && d < |after.deployments| && |key| <= 128
    ensures after.services[s].workload.Cron? ==> after.services[s].schedule != ""
    ensures IsData(after.services[s].kind) ==> spec == TemplateSpec(after.services[s].kind)
    ensures key != "" ==> after.deployments[d].service == s && after.deployments[d].key == key
                          && after.deployments[d].payload == Payload(spec, command)
  {
  }

  /** Once a keyed request is accepted, repeating it in any later state returns the same
      deployment and changes nothing, and the same key with other content adds nothing. */
  lemma RepeatedRequest(
    db: Db, s: nat, spec: Spec, command: Option<string>, key: string, valid: bool, resolved: bool, after: Db, d: nat,
    events: seq<Event>, later: Db, other: Payload, valid': bool, resolved': bool)
    requires Inv(db) && key != ""
    requires Enqueue(db, s, spec, command, key, valid, resolved, db.clock) == Outcome(after, Ok(d))
    requires Legal(after, events) && later == Run(after, events)
    ensures (command.Some? ==> valid') ==>
              Enqueue(later, s, spec, command, key, valid', resolved', later.clock) == Outcome(later, Ok(d))
    ensures other != Payload(spec, command) ==>
              var again := Enqueue(later, s, other.spec, other.command, key, valid', resolved', later.clock);
              again.db == later && again.reply.Err?
  {
    hide Inv, Run, Legal, Evolves;
    EnqueueInv(db, s, spec, command, key, valid, resolved, db.clock);
    EnqueuedRow(db, s, spec, command, key, valid, resolved, after, d);
    RunKeepsInvariant(after, events);
    RunOnlyMovesForward(after, events);
    EvolvedRow(after, later, d);
    EvolvedService(after, later, s);
    DistinctKeys(later);
    PriorIsFirst(later.deployments, s, key, d);
  }

  lemma EvolvedService(before: Db, after: Db, s: nat)
    requires Evolves(before, after) && s < |before.services|
    ensures s < |after.services| && ServiceEvolves(before.services[s], after.services[s])
  {
  }
}
