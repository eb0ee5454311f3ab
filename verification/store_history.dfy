/** What never changes back along a run, and the promises about later states that follow. */
module StoreHistory {
  import opened Common
  import opened Leases
  import opened StoreModel
  import opened StoreInvariant
  import opened StoreRuns

  /******* Rows only move forward *******/

  /** A finished deployment stays as it is, except that an active one may be superseded. */
  predicate RowEvolves(before: Deployment, after: Deployment) {
    && after.service == before.service && after.settings == before.settings
    && after.key == before.key && after.payload == before.payload
    && LeaseEvolves(before.lease, after.lease)
    && (before.cancelRequested ==> after.cancelRequested)
    && (Terminal(before.status) ==>
          after.status == before.status || (before.status.Active? && after.status.Superseded?))
  }

  predicate ActionEvolves(before: Action, after: Action) {
    && after.service == before.service && after.kind == before.kind
    && LeaseEvolves(before.lease, after.lease)
    && (!Pending(before.status) ==> after.status == before.status)
  }

  predicate RunEvolves(before: CronRun, after: CronRun) {
    && after.service == before.service && after.deployment == before.deployment
    && after.scheduledFor == before.scheduledFor
    && LeaseEvolves(before.lease, after.lease)
    && (!Pending(before.status) ==> after.status == before.status)
  }

  /** The active pointer only advances in creation order. */
  predicate ServiceEvolves(before: Service, after: Service) {
    && after.scope == before.scope && after.kind == before.kind && after.workload == before.workload
    && (before.schedule != "" ==> after.schedule != "")
    && (before.activeId.Some? ==> after.activeId.Some? && before.activeId.value <= after.activeId.value)
  }

  ghost predicate DeploymentsEvolve(before: seq<Deployment>, after: seq<Deployment>) {
    |before| <= |after| && forall i :: 0 <= i < |before| ==> RowEvolves(before[i], after[i])
  }

  ghost predicate ActionsEvolve(before: seq<Action>, after: seq<Action>) {
    |before| <= |after| && forall i :: 0 <= i < |before| ==> ActionEvolves(before[i], after[i])
  }

  ghost predicate RunsEvolve(before: seq<CronRun>, after: seq<CronRun>) {
    |before| <= |after| && forall i :: 0 <= i < |before| ==> RunEvolves(before[i], after[i])
  }

  ghost predicate ServicesEvolve(before: seq<Service>, after: seq<Service>) {
    |before| <= |after| && forall s :: 0 <= s < |before| ==> ServiceEvolves(before[s], after[s])
  }

  ghost predicate Evolves(before: Db, after: Db) {
    && DeploymentsEvolve(before.deployments, after.deployments)
    && ActionsEvolve(before.actions, after.actions)
    && RunsEvolve(before.runs, after.runs)
    && ServicesEvolve(before.services, after.services)
    && before.lastToken <= after.lastToken
    && before.clock <= after.clock
  }

  lemma RowsCompose(a: seq<Deployment>, b: seq<Deployment>, c: seq<Deployment>)
    requires DeploymentsEvolve(a, b) && DeploymentsEvolve(b, c)
    ensures DeploymentsEvolve(a, c)
  {
    forall i | 0 <= i < |a| ensures RowEvolves(a[i], c[i]) {
      assert RowEvolves(a[i], b[i]) && RowEvolves(b[i], c[i]);
    }
  }

  lemma TablesCompose(a: Db, b: Db, c: Db)
    requires ActionsEvolve(a.actions, b.actions) && ActionsEvolve(b.actions, c.actions)
    requires RunsEvolve(a.runs, b.runs) && RunsEvolve(b.runs, c.runs)
    requires ServicesEvolve(a.services, b.services) && ServicesEvolve(b.services, c.services)
    ensures ActionsEvolve(a.actions, c.actions) && RunsEvolve(a.runs, c.runs) && ServicesEvolve(a.services, c.services)
  {
    forall i | 0 <= i < |a.actions| ensures ActionEvolves(a.actions[i], c.actions[i]) {
      assert ActionEvolves(a.actions[i], b.actions[i]) && ActionEvolves(b.actions[i], c.actions[i]);
    }
    forall i | 0 <= i < |a.runs| ensures RunEvolves(a.runs[i], c.runs[i]) {
      assert RunEvolves(a.runs[i], b.runs[i]) && RunEvolves(b.runs[i], c.runs[i]);
    }
    forall s | 0 <= s < |a.services| ensures ServiceEvolves(a.services[s], c.services[s]) {
      assert ServiceEvolves(a.services[s], b.services[s]) && ServiceEvolves(b.services[s], c.services[s]);
    }
  }

  lemma EvolvesTransitively(a: Db, b: Db, c: Db)
    requires Evolves(a, b) && Evolves(b, c)
    ensures Evolves(a, c)
  {
    hide DeploymentsEvolve, ActionsEvolve, RunsEvolve, ServicesEvolve;
    RowsCompose(a.deployments, b.deployments, c.deployments);
    TablesCompose(a, b, c);
  }

  /** Tables that a transaction does not touch evolve into themselves. */
  lemma TouchedTables(db: Db, after: Db)
    requires after.deployments == db.deployments || DeploymentsEvolve(db.deployments, after.deployments)
    requires after.actions == db.actions || ActionsEvolve(db.actions, after.actions)
    requires after.runs == db.runs || RunsEvolve(db.runs, after.runs)
    requires after.services == db.services || ServicesEvolve(db.services, after.services)
    requires db.lastToken <= after.lastToken && db.clock <= after.clock
    ensures Evolves(db, after)
  {
  }

  lemma UpdatedService(services: seq<Service>, s: nat, service: Service)
    requires s < |services| && ServiceEvolves(services[s], service)
    ensures ServicesEvolve(services, services[s := service])
  {
  }

  lemma AddedService(services: seq<Service>, service: Service)
    ensures ServicesEvolve(services, services + [service])
  {
  }

  lemma AddedDeployment(rows: seq<Deployment>, row: Deployment)
    ensures DeploymentsEvolve(rows, rows + [row])
  {
  }

  lemma UpdatedDeployment(rows: seq<Deployment>, d: nat, row: Deployment)
    requires d < |rows| && RowEvolves(rows[d], row)
    ensures DeploymentsEvolve(rows, rows[d := row])
  {
  }

  lemma AddedAction(rows: seq<Action>, row: Action)
    ensures ActionsEvolve(rows, rows + [row])
  {
  }

  lemma UpdatedAction(rows: seq<Action>, a: nat, row: Action)
    requires a < |rows| && ActionEvolves(rows[a], row)
    ensures ActionsEvolve(rows, rows[a := row])
  {
  }

  lemma AddedRun(rows: seq<CronRun>, row: CronRun)
    ensures RunsEvolve(rows, rows + [row])
  {
  }

  lemma UpdatedRun(rows: seq<CronRun>, r: nat, row: CronRun)
    requires r < |rows| && RunEvolves(rows[r], row)
    ensures RunsEvolve(rows, rows[r := row])
  {
  }

  lemma EnqueueEvolves(
    db: Db, s: nat, spec: Spec, command: Option<string>, key: string, valid: bool, resolved: bool, now: Time)
    ensures Evolves(db, Enqueue(db, s, spec, command, key, valid, resolved, now).db)
  {
    hide DeploymentsEvolve, ActionsEvolve, RunsEvolve, ServicesEvolve;
    var after := Enqueue(db, s, spec, command, key, valid, resolved, now).db;
    if after != db {
      UpdatedService(db.services, s, after.services[s]);
      AddedDeployment(db.deployments, after.deployments[|db.deployments|]);
    }
    TouchedTables(db, after);
  }

  lemma CreateDatabaseEvolves(db: Db, scope: Scope, kind: Kind, now: Time)
    ensures Evolves(db, CreateDatabase(db, scope, kind, now).db)
  {
    hide DeploymentsEvolve, ActionsEvolve, RunsEvolve, ServicesEvolve;
    var made := AddDatabase(db, scope, kind);
    AddedService(db.services, made.services[|db.services|]);
    TouchedTables(db, made);
    EnqueueEvolves(made, |db.services|, TemplateSpec(kind), None, "database-bootstrap", true, true, now);
    EvolvesTransitively(db, made, Enqueue(made, |db.services|, TemplateSpec(kind), None, "database-bootstrap", true, true, now).db);
    EvolvesReflexively(db);
  }

  lemma SweepEvolves(db: Db, now: Time)
    ensures Evolves(db, Sweep(db, now))
  {
  }

  lemma {:induction false} ClaimEvolves(db: Db, next: Time)
    requires LeasesOk(db)
    ensures Evolves(db, Claim(db, db.clock, next).db)
  {
    hide DeploymentsEvolve, ActionsEvolve, RunsEvolve, ServicesEvolve, LeasesOk;
    var now := db.clock;
    var swept := Sweep(db, now);
    SweepRows(db, now);
    LeasesSettle(db, swept);
    SweepEvolves(db, now);
    EvolvesReflexively(db);
    var a := FirstAction(swept.actions, now);
    var d := FirstDeployment(swept.deployments, now);
    if a.Some? {
      ClaimActionEvolves(db, swept, a.value, now);
    } else if d.Some? {
      ClaimDeploymentEvolves(db, swept, d.value, now);
    } else {
      ClaimCronEvolves(db, swept, now, next);
    }
  }

  lemma ClaimActionEvolves(db: Db, swept: Db, i: nat, now: Time)
    requires Evolves(db, swept) && LeasesOk(swept) && i < |swept.actions| && ActionReady(swept.actions, i, now)
    ensures Evolves(db, ClaimAction(db, swept, i, now).db)
  {
    hide DeploymentsEvolve, ActionsEvolve, RunsEvolve, ServicesEvolve;
    EvolvesReflexively(db);
    var after := ClaimAction(db, swept, i, now);
    if after.reply.Ok? {
      UpdatedAction(swept.actions, i, after.db.actions[i]);
      TouchedTables(swept, after.db);
      EvolvesTransitively(db, swept, after.db);
    }
  }

  lemma ClaimDeploymentEvolves(db: Db, swept: Db, i: nat, now: Time)
    requires Evolves(db, swept) && LeasesOk(swept) && i < |swept.deployments| && DeploymentReady(swept.deployments, i, now)
    ensures Evolves(db, ClaimDeployment(db, swept, i, now).db)
  {
    hide DeploymentsEvolve, ActionsEvolve, RunsEvolve, ServicesEvolve;
    EvolvesReflexively(db);
    var after := ClaimDeployment(db, swept, i, now);
    if after.reply.Ok? {
      UpdatedDeployment(swept.deployments, i, after.db.deployments[i]);
      TouchedTables(swept, after.db);
      EvolvesTransitively(db, swept, after.db);
    }
  }

  lemma ClaimCronEvolves(db: Db, swept: Db, now: Time, next: Time)
    requires Evolves(db, swept) && LeasesOk(swept)
    ensures Evolves(db, ClaimCron(db, swept, now, next).db)
  {
    hide DeploymentsEvolve, ActionsEvolve, RunsEvolve, ServicesEvolve;
    EvolvesReflexively(db);
    var r := EarliestRun(swept.runs, now, |swept.runs|);
    var s := EarliestService(swept.services, swept.runs, now, |swept.services|);
    if r.Some? {
      StartRunEvolves(db, swept, r.value, now);
    } else if s.Some? {
      var added := AddRun(swept, s.value, now, next);
      UpdatedService(swept.services, s.value, added.services[s.value]);
      AddedRun(swept.runs, added.runs[|swept.runs|]);
      TouchedTables(swept, added);
      EvolvesTransitively(db, swept, added);
      StartRunEvolves(db, added, |swept.runs|, now);
    }
  }

  lemma StartRunEvolves(db: Db, ready: Db, i: nat, now: Time)
    requires Evolves(db, ready) && i < |ready.runs| && RunReady(ready.runs, i, now)
    requires LeaseOk(ready.runs[i].lease, ready.lastToken)
    ensures Evolves(db, StartRun(db, ready, i, now).db)
  {
    hide DeploymentsEvolve, ActionsEvolve, RunsEvolve, ServicesEvolve;
    EvolvesReflexively(db);
    var after := StartRun(db, ready, i, now);
    if after.reply.Ok? {
      UpdatedRun(ready.runs, i, after.db.runs[i]);
      TouchedTables(ready, after.db);
      EvolvesTransitively(db, ready, after.db);
    }
  }

  /** The head of the queue is newer than the release it replaces. */
  lemma ActivationAdvances(db: Db, d: nat)
    requires QueueOk(db.deployments) && ActiveOk(db.services, db.deployments) && Activatable(db, d)
    ensures var active := db.services[db.deployments[d].service].activeId; active.Some? ==> active.value < d
  {
    var active := db.services[db.deployments[d].service].activeId;
    if active.Some? && d < active.value {
      assert SameQueue(db.deployments, d, active.value);
    }
  }

  lemma ReportEvolves(db: Db, d: nat, token: nat, reported: Reported)
    requires QueueOk(db.deployments) && ActiveOk(db.services, db.deployments) && LeasesOk(db)
    ensures Evolves(db, Report(db, d, token, reported, db.clock).db)
  {
    hide QueueOk, DeploymentsEvolve, ActionsEvolve, RunsEvolve, ServicesEvolve;
    EvolvesReflexively(db);
    var after := Report(db, d, token, reported, db.clock).db;
    if after != db && reported.Activated? {
      ActivationEvolves(db, d);
    } else if after != db {
      UpdatedDeployment(db.deployments, d, after.deployments[d]);
      TouchedTables(db, after);
    }
  }

  lemma ActivationEvolves(db: Db, d: nat)
    requires QueueOk(db.deployments) && ActiveOk(db.services, db.deployments) && Activatable(db, d)
    ensures Evolves(db, Activate(db, d))
  {
    hide ActionsEvolve, RunsEvolve, ServicesEvolve, QueueOk;
    var after := Activate(db, d);
    var s := db.deployments[d].service;
    ActivationAdvances(db, d);
    UpdatedService(db.services, s, after.services[s]);
    TouchedTables(db, after);
  }

  lemma SettingsEvolve(db: Db, step: Step)
    requires step.DoAttach? || step.DoDetach? || step.DoSaveSettings? || step.DoSchedule?
    ensures Evolves(db, Perform(db, step))
  {
    hide DeploymentsEvolve, ActionsEvolve, RunsEvolve, ServicesEvolve;
    var after := Perform(db, step);
    if after.services != db.services {
      var s := if step.DoDetach? then db.attachments[step.volume].service else step.s;
      UpdatedService(db.services, s, after.services[s]);
    }
    TouchedTables(db, after);
  }

  lemma CreationEvolves(db: Db, step: Step)
    requires step.DoCreateCompute? || step.DoCreateVolume? || step.DoEnqueueAction?
    ensures Evolves(db, Perform(db, step))
  {
    hide DeploymentsEvolve, ActionsEvolve, RunsEvolve, ServicesEvolve;
    var after := Perform(db, step);
    if step.DoCreateCompute? {
      AddedService(db.services, after.services[|db.services|]);
    } else if after.actions != db.actions {
      AddedAction(db.actions, after.actions[|db.actions|]);
    }
    TouchedTables(db, after);
  }

  lemma FinishEvolves(db: Db, step: Step)
    requires step.DoCancel? || step.DoReportAction? || step.DoReportRun?
    ensures Evolves(db, Perform(db, step))
  {
    hide DeploymentsEvolve, ActionsEvolve, RunsEvolve, ServicesEvolve, Holds, Evolves;
    var after := Perform(db, step);
    if step.DoReportAction? {
      ActionFinishes(db, step.a, step.token, step.done);
    } else if step.DoCancel? {
      if after.deployments != db.deployments {
        UpdatedDeployment(db.deployments, step.d, after.deployments[step.d]);
      }
      TouchedTables(db, after);
    } else {
      if after.runs != db.runs {
        UpdatedRun(db.runs, step.r, after.runs[step.r]);
      }
      TouchedTables(db, after);
    }
  }

  lemma ActionFinishes(db: Db, a: nat, token: nat, done: bool)
    ensures Evolves(db, ReportAction(db, a, token, done, db.clock).db)
  {
    hide DeploymentsEvolve, ActionsEvolve, RunsEvolve, ServicesEvolve, Holds, Evolves;
    var after := ReportAction(db, a, token, done, db.clock).db;
    if after.actions != db.actions {
      UpdatedAction(db.actions, a, after.actions[a]);
    }
    if after.services != db.services {
      var s := db.actions[a].service;
      UpdatedService(db.services, s, after.services[s]);
    }
    TouchedTables(db, after);
  }

  lemma StepEvolves(db: Db, step: Step)
    requires Inv(db)
    ensures Evolves(db, Perform(db, step))
  {
    hide Evolves, RefsOk, ActiveOk, QueueOk, LeasesOk, CancelOk, BoundOk, ActionsOk, KeysOk, CronOk, AttachmentsOk, SnapshotsOk;
    match step {
      case DoCreateDatabase(scope, kind) => CreateDatabaseEvolves(db, scope, kind, db.clock);
      case DoEnqueue(s, spec, command, key, valid, resolved) =>
        EnqueueEvolves(db, s, spec, command, key, valid, resolved, db.clock);
      case DoClaim(after) => ClaimEvolves(db, after);
      case DoReport(d, token, reported) => ReportEvolves(db, d, token, reported);
      case _ =>
        if step.DoAttach? || step.DoDetach? || step.DoSaveSettings? || step.DoSchedule? {
          SettingsEvolve(db, step);
        } else if step.DoCreateCompute? || step.DoCreateVolume? || step.DoEnqueueAction? {
          CreationEvolves(db, step);
        } else {
          FinishEvolves(db, step);
        }
    }
  }

  lemma ApplyEvolves(db: Db, event: Event)
    requires Inv(db) && Timely(db, event)
    ensures Evolves(db, Apply(db, event))
  {
    hide Inv, Perform, DeploymentsEvolve, ActionsEvolve, RunsEvolve, ServicesEvolve;
    var ticked := Tick(db, event.now);
    TickInv(db, event.now);
    TouchedTables(db, ticked);
    StepEvolves(ticked, event.step);
    EvolvesTransitively(db, ticked, Perform(ticked, event.step));
  }

  /** Along every run rows keep their content, finished work stays finished, tokens, attempts and
      active pointers only grow, and a deadline never changes. */
  lemma {:induction false} RunOnlyMovesForward(db: Db, events: seq<Event>)
    requires Inv(db) && Legal(db, events)
    ensures Evolves(db, Run(db, events))
    decreases |events|
  {
    hide Inv, Perform, DeploymentsEvolve, ActionsEvolve, RunsEvolve, ServicesEvolve;
    if |events| > 0 {
      var next := Apply(db, events[0]);
      ApplyEvolves(db, events[0]);
      ApplyInv(db, events[0]);
      RunOnlyMovesForward(next, events[1..]);
      EvolvesTransitively(db, next, Run(next, events[1..]));
    } else {
      assert Evolves(db, db) by { EvolvesReflexively(db); }
    }
  }

  lemma EvolvesReflexively(db: Db)
    ensures Evolves(db, db)
  {
  }
}
