/** Whole runs of the control plane: any sequence of transactions, by any callers, on a clock
    that never goes back. */
module StoreRuns {
  import opened Common
  import opened Leases
  import opened StoreModel
  import opened StoreInvariant

  datatype Step =
    | DoCreateCompute(scope: Scope, workload: Workload)
    | DoCreateDatabase(scope: Scope, kind: Kind)
    | DoCreateVolume(scope: Scope)
    | DoAttach(volume: VolumeId, s: nat, mount: string, valid: bool)
    | DoDetach(volume: VolumeId)
    | DoSaveSettings(s: nat, mount: string, valid: bool)
    | DoEnqueue(s: nat, spec: Spec, command: Option<string>, key: string, valid: bool, resolved: bool)
    | DoEnqueueAction(s: nat, action: ActionKind, backupExists: bool)
    | DoSchedule(s: nat, schedule: string, next: Option<Time>)
    | DoCancel(d: nat)
    | DoClaim(after: Time)
    | DoReport(d: nat, token: nat, reported: Reported)
    | DoReportAction(a: nat, token: nat, done: bool)
    | DoReportRun(r: nat, token: nat, succeeded: bool)

  datatype Event = Event(now: Time, step: Step)

  function Tick(db: Db, now: Time): Db {
    db.(clock := now)
  }

  function Perform(db: Db, step: Step): Db {
    match step
    case DoCreateCompute(scope, workload) => CreateCompute(db, scope, workload).db
    case DoCreateDatabase(scope, kind) => CreateDatabase(db, scope, kind, db.clock).db
    case DoCreateVolume(scope) => CreateVolume(db, scope).db
    case DoAttach(volume, s, mount, valid) => AttachVolume(db, volume, s, mount, valid).db
    case DoDetach(volume) => DetachVolume(db, volume).db
    case DoSaveSettings(s, mount, valid) => SaveSettings(db, s, mount, valid).db
    case DoEnqueue(s, spec, command, key, valid, resolved) => Enqueue(db, s, spec, command, key, valid, resolved, db.clock).db
    case DoEnqueueAction(s, action, backupExists) => EnqueueAction(db, s, action, backupExists, db.clock).db
    case DoSchedule(s, schedule, next) => SaveCronSchedule(db, s, schedule, next).db
    case DoCancel(d) => Cancel(db, d).db
    case DoClaim(after) => Claim(db, db.clock, after).db
    case DoReport(d, token, reported) => Report(db, d, token, reported, db.clock).db
    case DoReportAction(a, token, done) => ReportAction(db, a, token, done, db.clock).db
    case DoReportRun(r, token, succeeded) => ReportCronRun(db, r, token, succeeded, db.clock).db
  }

  function Apply(db: Db, event: Event): Db {
    Perform(Tick(db, event.now), event.step)
  }

  /** The occurrences a step is given lie after now, as those of any schedule do. */
  predicate Timely(db: Db, event: Event) {
    && db.clock <= event.now
    && (event.step.DoClaim? ==> event.step.after > event.now)
    && (event.step.DoSchedule? && event.step.next.Some? ==> event.step.next.value > event.now)
  }

  /** No accepted settings form takes a volume out of another service's hands. */
  predicate Polite(db: Db, event: Event) {
    event.step.DoSaveSettings? ==> TakesNothing(db, event.step.s, event.step.mount, event.step.valid)
  }

  function Run(db: Db, events: seq<Event>): Db
    decreases |events|
  {
    if |events| == 0 then db else Run(Apply(db, events[0]), events[1..])
  }

  predicate Legal(db: Db, events: seq<Event>)
    decreases |events|
  {
    |events| > 0 ==> Timely(db, events[0]) && Legal(Apply(db, events[0]), events[1..])
  }

  predicate AllPolite(db: Db, events: seq<Event>)
    decreases |events|
  {
    |events| > 0 ==> Polite(db, events[0]) && AllPolite(Apply(db, events[0]), events[1..])
  }

  /******* The invariants over every run *******/

  lemma TickInv(db: Db, now: Time)
    requires Inv(db) && db.clock <= now
    ensures Inv(Tick(db, now))
    ensures VolumesOk(db) ==> VolumesOk(Tick(db, now))
  {
    hide ActiveOk, QueueOk, CancelOk, BoundOk, ActionsOk, KeysOk;
  }

  lemma ApplyInv(db: Db, event: Event)
    requires Inv(db) && Timely(db, event)
    ensures Inv(Apply(db, event))
    ensures VolumesOk(db) && Polite(db, event) ==> VolumesOk(Apply(db, event))
  {
    hide Inv, VolumesOk, SaveSettings;
    PoliteLater(db, event);
    TickInv(db, event.now);
    var db := Tick(db, event.now);
    match event.step
    case DoCreateCompute(scope, workload) => CreateComputeInv(db, scope, workload);
    case DoCreateDatabase(scope, kind) => CreateDatabaseInv(db, scope, kind, db.clock);
    case DoCreateVolume(scope) => CreateVolumeInv(db, scope);
    case DoAttach(volume, s, mount, valid) => AttachVolumeInv(db, volume, s, mount, valid);
    case DoDetach(volume) => DetachVolumeInv(db, volume);
    case DoSaveSettings(s, mount, valid) => SaveSettingsInv(db, s, mount, valid);
    case DoEnqueue(s, spec, command, key, valid, resolved) =>
      EnqueueInv(db, s, spec, command, key, valid, resolved, db.clock);
    case DoEnqueueAction(s, action, backupExists) => EnqueueActionInv(db, s, action, backupExists, db.clock);
    case DoSchedule(s, schedule, next) => SaveCronScheduleInv(db, s, schedule, next);
    case DoCancel(d) => CancelInv(db, d);
    case DoClaim(after) => ClaimInv(db, after);
    case DoReport(d, token, reported) => ReportInv(db, d, token, reported);
    case DoReportAction(a, token, done) => ReportActionInv(db, a, token, done);
    case DoReportRun(r, token, succeeded) => ReportCronRunInv(db, r, token, succeeded);
  }

  lemma PoliteLater(db: Db, event: Event)
    ensures Polite(db, event) ==> Polite(Tick(db, event.now), event)
  {
  }

  /** Every state that a run reaches satisfies the invariant of the tables, whatever the requests. */
  lemma {:induction false} RunKeepsInvariant(db: Db, events: seq<Event>)
    requires Inv(db) && Legal(db, events)
    ensures Inv(Run(db, events))
    decreases |events|
  {
    hide Inv, Perform, VolumesOk;
    if |events| > 0 {
      ApplyInv(db, events[0]);
      RunKeepsInvariant(Apply(db, events[0]), events[1..]);
    }
  }

  /** And that of volumes, as long as no settings form takes one. */
  lemma {:induction false} RunKeepsVolumes(db: Db, events: seq<Event>)
    requires Inv(db) && VolumesOk(db) && Legal(db, events) && AllPolite(db, events)
    ensures VolumesOk(Run(db, events))
    decreases |events|
  {
    hide Inv, Perform, VolumesOk, Polite;
    if |events| > 0 {
      ApplyInv(db, events[0]);
      RunKeepsVolumes(Apply(db, events[0]), events[1..]);
    }
  }

  /******* Exclusive volumes *******/

  /** Release `d` is running, or becomes so when its service's unfinished work is done. */
  ghost predicate Live(db: Db, d: nat) {
    && d < |db.deployments|
    && var s := db.deployments[d].service;
       || !Terminal(db.deployments[d].status)
       || (s < |db.services| && db.services[s].activeId == Some(d) && db.services[s].desired.Running?)
       || (s < |db.services| && db.services[s].activeId == Some(d)
           && exists i :: 0 <= i < |db.actions| && db.actions[i].service == s && Restarts(db.actions[i]))
       || (exists i :: 0 <= i < |db.runs| && db.runs[i].deployment == d && Pending(db.runs[i].status))
  }

  lemma LiveHolds(db: Db, d: nat)
    requires Inv(db) && VolumesOk(db) && Live(db, d)
    ensures SnapshotHeld(db.deployments, db.attachments, d)
  {
    hide ActiveOk, QueueOk, CancelOk, BoundOk, ActionsOk, KeysOk, CronOk, AttachmentsOk, LeasesOk;
  }

  /** Releases `d` and `e` are live, of different services, and mount one volume. */
  ghost predicate Shared(db: Db, d: nat, e: nat) {
    && Live(db, d) && Live(db, e) && db.deployments[d].service != db.deployments[e].service
    && db.deployments[d].settings.volume.Some?
    && db.deployments[d].settings.volume == db.deployments[e].settings.volume
  }

  /** Two live releases that mount one volume belong to one service, in every state that is reached
      without a settings form that takes a volume. */
  lemma ExclusiveVolumes(clock: Time, events: seq<Event>, d: nat, e: nat)
    requires Legal(Empty(clock), events) && AllPolite(Empty(clock), events)
    ensures !Shared(Run(Empty(clock), events), d, e)
  {
    hide Inv, VolumesOk, Run, Legal, AllPolite, Live;
    EmptyInv(clock);
    var db := Run(Empty(clock), events);
    RunKeepsInvariant(Empty(clock), events);
    RunKeepsVolumes(Empty(clock), events);
    if Live(db, d) && Live(db, e) {
      LiveHolds(db, d);
      LiveHolds(db, e);
    }
  }

  /** No two services are set to mount one volume. */
  predicate SettingsDiffer(services: seq<Service>) {
    forall s, t :: 0 <= s < t < |services| && services[s].settings.volume.Some? ==>
                     services[s].settings.volume != services[t].settings.volume
  }

  /** The settings form leaves two services set to mount one volume exactly when it takes that
      volume from the other one. */
  lemma SaveSettingsExactly(db: Db, s: nat, mount: string, valid: bool)
    requires Inv(db) && VolumesOk(db)
    ensures SettingsDiffer(db.services)
    ensures SettingsDiffer(SaveSettings(db, s, mount, valid).db.services) <==> TakesNothing(db, s, mount, valid)
  {
    hide Inv, VolumesOk, SettingsDiffer;
    VolumesDiffer(db);
    if TakesNothing(db, s, mount, valid) {
      SaveSettingsInv(db, s, mount, valid);
      VolumesDiffer(SaveSettings(db, s, mount, valid).db);
    } else {
      TakenVolume(db, s, mount, valid);
    }
  }

  lemma VolumesDiffer(db: Db)
    requires VolumesOk(db)
    ensures SettingsDiffer(db.services)
  {
    hide SnapshotsOk;
  }

  lemma TakenVolume(db: Db, s: nat, mount: string, valid: bool)
    requires VolumesOk(db) && !TakesNothing(db, s, mount, valid)
    ensures !SettingsDiffer(SaveSettings(db, s, mount, valid).db.services)
  {
    hide SnapshotsOk;
    var services, owner := SaveSettings(db, s, mount, valid).db.services, db.attachments[Derived(s)].service;
    assert services[owner].settings.volume == Some(Derived(s)) && services[s].settings.volume == Some(Derived(s));
  }

  lemma QueuedIsLive(db: Db, s: nat, spec: Spec, command: Option<string>, valid: bool, resolved: bool, after: Db)
    requires Enqueue(db, s, spec, command, "", valid, resolved, db.clock) == Outcome(after, Ok(|db.deployments|))
    ensures s < |db.services| && |after.deployments| == |db.deployments| + 1 && |after.services| == |db.services|
    ensures forall d :: 0 <= d < |db.deployments| ==> after.deployments[d] == db.deployments[d]
    ensures forall t :: 0 <= t < |db.services| ==> after.services[t].settings.volume == db.services[t].settings.volume
    ensures var row := after.deployments[|db.deployments|];
            row.service == s && row.settings.volume == db.services[s].settings.volume && row.status.Queued?
  {
    hide PendingCount, ActionPending;
  }

  /** Whether a form that takes a volume does harm: after it, a deployment of each of two services
      puts both live on one volume exactly when the form took the one's volume for the other. */
  lemma SharedExactly(
    db: Db, s: nat, mount: string, valid: bool, t: nat, saved: Db,
    spec: Spec, command: Option<string>, one: Db, spec': Spec, command': Option<string>, both: Db)
    requires Inv(db) && VolumesOk(db) && s != t
    requires SaveSettings(db, s, mount, valid) == Outcome(saved, Ok(Unit))
    requires Enqueue(saved, t, spec, command, "", true, true, saved.clock) == Outcome(one, Ok(|saved.deployments|))
    requires Enqueue(one, s, spec', command', "", true, true, one.clock) == Outcome(both, Ok(|one.deployments|))
    ensures Shared(both, |saved.deployments|, |one.deployments|)
       <==> mount != "" && Derived(s) in db.attachments && db.attachments[Derived(s)].service == t
  {
    hide Inv, SnapshotsOk, Enqueue;
    QueuedIsLive(saved, t, spec, command, true, true, one);
    QueuedIsLive(one, s, spec', command', true, true, both);
  }
}
