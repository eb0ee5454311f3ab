/** The invariant of the tables, clause by clause. */
module StoreInvariant {
  import opened Common
  import opened Leases
  import opened StoreModel

  /** Foreign keys. */
  ghost predicate RefsOk(db: Db) {
    && (forall i :: 0 <= i < |db.deployments| ==> db.deployments[i].service < |db.services|)
    && (forall i :: 0 <= i < |db.actions| ==> db.actions[i].service < |db.services|)
    && (forall i :: 0 <= i < |db.runs| ==>
                      && db.runs[i].service < |db.services|
                      && db.runs[i].deployment < |db.deployments|
                      && db.deployments[db.runs[i].deployment].service == db.runs[i].service)
  }

  /** The active rows and the services' pointers are two views of one relation. */
  ghost predicate ActiveOk(services: seq<Service>, deployments: seq<Deployment>) {
    && (forall s :: 0 <= s < |services| && services[s].activeId.Some? ==>
                      var a := services[s].activeId.value;
                      a < |deployments| && deployments[a].service == s && deployments[a].status.Active?)
    && (forall d :: 0 <= d < |deployments| && deployments[d].status.Active? ==>
                      deployments[d].service < |services| && services[deployments[d].service].activeId == Some(d))
  }

  predicate SameQueue(deployments: seq<Deployment>, i: nat, j: nat)
    requires i < |deployments| && j < |deployments|
  {
    deployments[i].service == deployments[j].service
  }

  /** Only the oldest unfinished deployment of a service was ever claimed, and the active release
      is older than every unfinished one. */
  ghost predicate QueueOk(deployments: seq<Deployment>) {
    && (forall i, j :: 0 <= i < j < |deployments| && SameQueue(deployments, i, j)
                       && !Terminal(deployments[i].status) && !Terminal(deployments[j].status) ==>
                         deployments[j].lease.attempt == 0)
    && (forall i, j :: 0 <= i < j < |deployments| && SameQueue(deployments, i, j) && !Terminal(deployments[i].status) ==>
                         !deployments[j].status.Active?)
  }

  ghost predicate LeasesOk(db: Db) {
    && (forall i :: 0 <= i < |db.deployments| ==>
                      && LeaseOk(db.deployments[i].lease, db.lastToken)
                      && (db.deployments[i].lease.attempt == 0 ==> db.deployments[i].status.Queued? || db.deployments[i].status.Failed?))
    && (forall i :: 0 <= i < |db.actions| ==> LeaseOk(db.actions[i].lease, db.lastToken))
    && (forall i :: 0 <= i < |db.runs| ==> LeaseOk(db.runs[i].lease, db.lastToken))
  }

  ghost predicate CancelOk(deployments: seq<Deployment>) {
    forall i :: 0 <= i < |deployments| && deployments[i].cancelRequested ==>
                  !deployments[i].status.Active? && !deployments[i].status.Superseded?
  }

  /** At most ten unfinished deployments per service. */
  ghost predicate BoundOk(deployments: seq<Deployment>) {
    forall s: nat :: PendingCount(deployments, s) <= 10
  }

  /** At most one unfinished action per service, and then no unfinished deployment. */
  ghost predicate ActionsOk(services: seq<Service>, deployments: seq<Deployment>, actions: seq<Action>) {
    && (forall i, j :: 0 <= i < j < |actions| && Pending(actions[i].status) && Pending(actions[j].status) ==>
                         actions[i].service != actions[j].service)
    && (forall i :: 0 <= i < |actions| && Pending(actions[i].status) ==>
                      && actions[i].service < |services| && services[actions[i].service].activeId.Some?
                      && !DeploymentPending(deployments, actions[i].service))
  }

  /** The idempotency keys of a service are distinct. */
  ghost predicate KeysOk(deployments: seq<Deployment>) {
    forall i, j :: 0 <= i < j < |deployments| && SameQueue(deployments, i, j) && deployments[i].key != "" ==>
                     deployments[i].key != deployments[j].key
  }

  /** One unfinished run per service; occurrences strictly increase and precede the next one. */
  ghost predicate CronOk(services: seq<Service>, runs: seq<CronRun>, clock: Time) {
    && (forall i, j :: 0 <= i < j < |runs| && runs[i].service == runs[j].service ==>
                         && runs[i].scheduledFor < runs[j].scheduledFor
                         && !(Pending(runs[i].status) && Pending(runs[j].status)))
    && (forall i :: 0 <= i < |runs| ==>
                      && runs[i].scheduledFor <= clock
                      && runs[i].service < |services|
                      && (services[runs[i].service].nextRun.Some? ==> runs[i].scheduledFor < services[runs[i].service].nextRun.value))
  }

  /** A volume that a service's row names, or that an attachment gives to a service. */
  ghost predicate AttachmentsOk(db: Db) {
    && (forall v :: v in db.attachments ==>
                      && v in db.volumes
                      && db.attachments[v].service < |db.services|
                      && db.services[db.attachments[v].service].settings.volume == Some(v))
    && (forall s :: 0 <= s < |db.services| && db.services[s].settings.volume.Some? ==>
                      var v := db.services[s].settings.volume.value;
                      v in db.attachments && db.attachments[v].service == s)
    && (forall n: nat :: Created(n) in db.volumes ==> n < db.volumesCreated)
    && (forall s: nat :: Derived(s) in db.volumes ==> s < |db.services|)
  }

  /** The volume in this release's snapshot, if any, is attached to the release's service. */
  predicate SnapshotHeld(deployments: seq<Deployment>, attachments: map<VolumeId, Attachment>, d: nat)
    requires d < |deployments|
  {
    var volume := deployments[d].settings.volume;
    volume.Some? ==> volume.value in attachments && attachments[volume.value].service == deployments[d].service
  }

  predicate Restarts(action: Action) {
    Pending(action.status) && (action.kind.Start? || action.kind.Restart?)
  }

  /** Every release that may run now or once its pending work is done holds its volume. */
  ghost predicate SnapshotsOk(db: Db) {
    && (forall d :: 0 <= d < |db.deployments| && !Terminal(db.deployments[d].status) ==>
                      SnapshotHeld(db.deployments, db.attachments, d))
    && (forall s :: 0 <= s < |db.services| && Released(db.services[s]) && db.services[s].activeId.value < |db.deployments| ==>
                      SnapshotHeld(db.deployments, db.attachments, db.services[s].activeId.value))
    && (forall i :: 0 <= i < |db.actions| && Restarts(db.actions[i]) && db.actions[i].service < |db.services| ==>
                      var release := db.services[db.actions[i].service].activeId;
                      release.Some? && release.value < |db.deployments| ==>
                        SnapshotHeld(db.deployments, db.attachments, release.value))
    && (forall i :: 0 <= i < |db.runs| && Pending(db.runs[i].status) && db.runs[i].deployment < |db.deployments| ==>
                      SnapshotHeld(db.deployments, db.attachments, db.runs[i].deployment))
  }

  /** The invariant of the tables, over every run. */
  ghost predicate Inv(db: Db) {
    && RefsOk(db)
    && ActiveOk(db.services, db.deployments)
    && QueueOk(db.deployments)
    && LeasesOk(db)
    && CancelOk(db.deployments)
    && BoundOk(db.deployments)
    && ActionsOk(db.services, db.deployments, db.actions)
    && KeysOk(db.deployments)
    && CronOk(db.services, db.runs, db.clock)
  }

  /** The invariant of volumes, over every run in which no settings form takes a volume from
      another service. */
  ghost predicate VolumesOk(db: Db) {
    AttachmentsOk(db) && SnapshotsOk(db)
  }

  lemma EmptyInv(clock: Time)
    ensures Inv(Empty(clock)) && VolumesOk(Empty(clock))
  {
  }

  /******* Counting unfinished deployments *******/

  lemma {:induction false} CountAppend(rows: seq<Deployment>, row: Deployment, s: nat)
    ensures PendingCount(rows + [row], s)
         == PendingCount(rows, s) + if row.service == s && !Terminal(row.status) then 1 else 0
  {
    assert (rows + [row])[..|rows|] == rows;
  }

  /** Rows that keep their service and do not come back from a terminal status count no more. */
  lemma {:induction false} CountShrinks(before: seq<Deployment>, after: seq<Deployment>, s: nat)
    requires |before| == |after|
    requires forall i :: 0 <= i < |before| ==>
                           before[i].service == after[i].service && (Terminal(before[i].status) ==> Terminal(after[i].status))
    ensures PendingCount(after, s) <= PendingCount(before, s)
  {
    if |before| > 0 {
      CountShrinks(before[..|before| - 1], after[..|after| - 1], s);
    }
  }

  lemma {:induction false} BoundShrinks(before: seq<Deployment>, after: seq<Deployment>)
    requires BoundOk(before)
    requires |before| == |after|
    requires forall i :: 0 <= i < |before| ==>
                           before[i].service == after[i].service && (Terminal(before[i].status) ==> Terminal(after[i].status))
    ensures BoundOk(after)
  {
    forall s: nat ensures PendingCount(after, s) <= 10 {
      CountShrinks(before, after, s);
    }
  }

  /******* Rows that settle: they keep their content and only move towards a terminal status *******/

  predicate RowSettles(before: Deployment, after: Deployment) {
    && after.service == before.service && after.settings == before.settings
    && after.key == before.key && after.payload == before.payload && after.lease == before.lease
    && (Terminal(before.status) ==> after.status == before.status && after.cancelRequested == before.cancelRequested)
    && (!Terminal(before.status) ==> !after.status.Active? && !after.status.Superseded?)
    && (before.lease.attempt == 0 && before.status.Queued? ==> after.status.Queued? || after.status.Failed?)
    && (before.cancelRequested ==> after.cancelRequested)
  }

  ghost predicate DeploymentsSettle(before: seq<Deployment>, after: seq<Deployment>) {
    |before| == |after| && forall i :: 0 <= i < |before| ==> RowSettles(before[i], after[i])
  }

  ghost predicate ActionsSettle(before: seq<Action>, after: seq<Action>) {
    && |before| == |after|
    && forall i :: 0 <= i < |before| ==>
                     && after[i].service == before[i].service && after[i].kind == before[i].kind
                     && after[i].lease == before[i].lease
                     && (Pending(after[i].status) ==> Pending(before[i].status))
  }

  ghost predicate RunsSettle(before: seq<CronRun>, after: seq<CronRun>) {
    && |before| == |after|
    && forall i :: 0 <= i < |before| ==>
                     && after[i].service == before[i].service && after[i].deployment == before[i].deployment
                     && after[i].scheduledFor == before[i].scheduledFor && after[i].lease == before[i].lease
                     && (Pending(after[i].status) ==> Pending(before[i].status))
  }

  lemma QueueSettles(before: seq<Deployment>, after: seq<Deployment>)
    requires QueueOk(before) && DeploymentsSettle(before, after)
    ensures QueueOk(after)
  {
  }

  lemma ActiveSettles(services: seq<Service>, before: seq<Deployment>, after: seq<Deployment>)
    requires ActiveOk(services, before) && DeploymentsSettle(before, after)
    ensures ActiveOk(services, after)
  {
  }

  lemma KeysSettle(before: seq<Deployment>, after: seq<Deployment>)
    requires KeysOk(before) && DeploymentsSettle(before, after)
    ensures KeysOk(after)
  {
  }

  lemma ActionsOkSettle(
    services: seq<Service>, deployments: seq<Deployment>, deployments': seq<Deployment>, actions: seq<Action>, actions': seq<Action>)
    requires ActionsOk(services, deployments, actions)
    requires DeploymentsSettle(deployments, deployments') && ActionsSettle(actions, actions')
    ensures ActionsOk(services, deployments', actions')
  {
    forall s: nat | DeploymentPending(deployments', s) ensures DeploymentPending(deployments, s) {
      var i :| 0 <= i < |deployments'| && deployments'[i].service == s && !Terminal(deployments'[i].status);
      assert RowSettles(deployments[i], deployments'[i]);
    }
  }

  lemma SnapshotsSettle(db: Db, db': Db)
    requires SnapshotsOk(db)
    requires db'.services == db.services && db'.attachments == db.attachments
    requires DeploymentsSettle(db.deployments, db'.deployments)
    requires ActionsSettle(db.actions, db'.actions) && RunsSettle(db.runs, db'.runs)
    ensures SnapshotsOk(db')
  {
    forall d: nat | d < |db.deployments| && SnapshotHeld(db.deployments, db.attachments, d)
      ensures SnapshotHeld(db'.deployments, db'.attachments, d)
    {
      assert RowSettles(db.deployments[d], db'.deployments[d]);
    }
  }

  lemma LeasesSettle(db: Db, db': Db)
    requires LeasesOk(db)
    requires db'.lastToken == db.lastToken
    requires DeploymentsSettle(db.deployments, db'.deployments)
    requires ActionsSettle(db.actions, db'.actions) && RunsSettle(db.runs, db'.runs)
    ensures LeasesOk(db')
  {
  }

  lemma CancelSettles(before: seq<Deployment>, after: seq<Deployment>)
    requires CancelOk(before) && DeploymentsSettle(before, after)
    ensures CancelOk(after)
  {
  }

  lemma RefsSettle(db: Db, db': Db)
    requires RefsOk(db)
    requires db'.services == db.services
    requires DeploymentsSettle(db.deployments, db'.deployments)
    requires ActionsSettle(db.actions, db'.actions) && RunsSettle(db.runs, db'.runs)
    ensures RefsOk(db')
  {
  }

  /** Settings may change as long as every service keeps the volume it names. */
  lemma ResettleAttachments(db: Db, db': Db)
    requires AttachmentsOk(db)
    requires db'.attachments == db.attachments && db'.volumes == db.volumes && db'.volumesCreated == db.volumesCreated
    requires |db'.services| == |db.services|
    requires forall s :: 0 <= s < |db.services| ==> db'.services[s].settings.volume == db.services[s].settings.volume
    ensures AttachmentsOk(db')
  {
  }

  lemma CronSettles(services: seq<Service>, before: seq<CronRun>, after: seq<CronRun>, clock: Time)
    requires CronOk(services, before, clock) && RunsSettle(before, after)
    ensures CronOk(services, after, clock)
  {
  }

  lemma SettleInv(db: Db, db': Db)
    requires Inv(db)
    requires db' == db.(deployments := db'.deployments, actions := db'.actions, runs := db'.runs)
    requires DeploymentsSettle(db.deployments, db'.deployments)
    requires ActionsSettle(db.actions, db'.actions) && RunsSettle(db.runs, db'.runs)
    ensures Inv(db')
    ensures VolumesOk(db) ==> VolumesOk(db')
  {
    hide RefsOk, ActiveOk, QueueOk, LeasesOk, CancelOk, BoundOk, ActionsOk, KeysOk, CronOk, AttachmentsOk, SnapshotsOk;
    RefsSettle(db, db');
    ActiveSettles(db.services, db.deployments, db'.deployments);
    QueueSettles(db.deployments, db'.deployments);
    LeasesSettle(db, db');
    CancelSettles(db.deployments, db'.deployments);
    BoundShrinks(db.deployments, db'.deployments);
    ActionsOkSettle(db.services, db.deployments, db'.deployments, db.actions, db'.actions);
    KeysSettle(db.deployments, db'.deployments);
    CronSettles(db.services, db.runs, db'.runs, db.clock);
    if VolumesOk(db) {
      SnapshotsSettle(db, db');
      ResettleAttachments(db, db');
    }
  }

  /******* Services that keep their releases: only settings change, or new rows appear *******/

  ghost predicate ServicesKeep(before: seq<Service>, after: seq<Service>) {
    && |before| <= |after|
    && (forall s :: 0 <= s < |before| ==>
                      after[s].activeId == before[s].activeId && after[s].desired == before[s].desired)
    && (forall s :: |before| <= s < |after| ==> after[s].activeId.None?)
  }

  ghost predicate TimersKeep(before: seq<Service>, after: seq<Service>) {
    && |before| <= |after|
    && (forall s :: 0 <= s < |before| ==> after[s].nextRun == before[s].nextRun)
  }

  ghost predicate AttachmentsKeep(before: map<VolumeId, Attachment>, after: map<VolumeId, Attachment>) {
    forall v :: v in before ==> v in after && after[v].service == before[v].service
  }

  lemma CronKeeps(services: seq<Service>, services': seq<Service>, runs: seq<CronRun>, clock: Time)
    requires CronOk(services, runs, clock) && TimersKeep(services, services')
    ensures CronOk(services', runs, clock)
  {
  }

  lemma ActiveKeeps(services: seq<Service>, services': seq<Service>, deployments: seq<Deployment>)
    requires ActiveOk(services, deployments) && ServicesKeep(services, services')
    ensures ActiveOk(services', deployments)
  {
  }

  lemma KeepJobs(db: Db, db': Db)
    requires Inv(db)
    requires ServicesKeep(db.services, db'.services) && TimersKeep(db.services, db'.services)
    requires db'.deployments == db.deployments && db'.actions == db.actions && db'.runs == db.runs
    requires db'.lastToken == db.lastToken && db'.clock == db.clock
    ensures Inv(db')
  {
    CronKeeps(db.services, db'.services, db.runs, db.clock);
    KeepReleases(db, db');
  }

  lemma KeepReleases(db: Db, db': Db)
    requires Inv(db)
    requires ServicesKeep(db.services, db'.services)
    requires CronOk(db'.services, db'.runs, db'.clock)
    requires db'.deployments == db.deployments && db'.actions == db.actions && db'.runs == db.runs
    requires db'.lastToken == db.lastToken
    ensures Inv(db')
  {
    ActiveKeeps(db.services, db'.services, db.deployments);
    assert ActionsOk(db'.services, db'.deployments, db'.actions);
  }

  lemma KeepSnapshots(db: Db, db': Db)
    requires RefsOk(db) && SnapshotsOk(db)
    requires ServicesKeep(db.services, db'.services) && AttachmentsKeep(db.attachments, db'.attachments)
    requires db'.deployments == db.deployments && db'.actions == db.actions && db'.runs == db.runs
    ensures SnapshotsOk(db')
  {
    forall d: nat | d < |db.deployments| && SnapshotHeld(db.deployments, db.attachments, d)
      ensures SnapshotHeld(db'.deployments, db'.attachments, d)
    {
    }
  }

  /******* Creation *******/

  lemma CreateComputeInv(db: Db, scope: Scope, workload: Workload)
    requires Inv(db)
    ensures Inv(CreateCompute(db, scope, workload).db)
    ensures VolumesOk(db) ==> VolumesOk(CreateCompute(db, scope, workload).db)
  {
    hide RefsOk, ActiveOk, QueueOk, LeasesOk, CancelOk, BoundOk, ActionsOk, KeysOk, CronOk, AttachmentsOk, SnapshotsOk;
    KeepJobs(db, CreateCompute(db, scope, workload).db);
    if VolumesOk(db) {
      KeepSnapshots(db, CreateCompute(db, scope, workload).db);
      CreateComputeAttachments(db, scope, workload);
    }
  }

  lemma CreateComputeAttachments(db: Db, scope: Scope, workload: Workload)
    requires AttachmentsOk(db)
    ensures AttachmentsOk(CreateCompute(db, scope, workload).db)
  {
  }

  lemma CreateVolumeInv(db: Db, scope: Scope)
    requires Inv(db)
    ensures Inv(CreateVolume(db, scope).db)
    ensures VolumesOk(db) ==> VolumesOk(CreateVolume(db, scope).db)
  {
  }

  lemma AddDatabaseAttachments(db: Db, scope: Scope, kind: Kind)
    requires AttachmentsOk(db)
    ensures AttachmentsOk(AddDatabase(db, scope, kind))
    ensures AttachmentsKeep(db.attachments, AddDatabase(db, scope, kind).attachments)
  {
    assert Derived(|db.services|) !in db.volumes;
  }

  lemma AddDatabaseInv(db: Db, scope: Scope, kind: Kind)
    requires Inv(db)
    ensures Inv(AddDatabase(db, scope, kind))
    ensures VolumesOk(db) ==> VolumesOk(AddDatabase(db, scope, kind))
  {
    hide RefsOk, ActiveOk, QueueOk, LeasesOk, CancelOk, BoundOk, ActionsOk, KeysOk, CronOk, AttachmentsOk, SnapshotsOk;
    var db' := AddDatabase(db, scope, kind);
    KeepJobs(db, db');
    if VolumesOk(db) {
      AddDatabaseAttachments(db, scope, kind);
      KeepSnapshots(db, db');
    }
  }

  /** A new row at the end of the queue of a service without unfinished actions. */
  lemma AppendJobs(db: Db, row: Deployment)
    requires Inv(db)
    requires row.service < |db.services| && row.status.Queued? && row.lease.attempt == 0 && LeaseOk(row.lease, db.lastToken)
    requires !row.cancelRequested
    requires !ActionPending(db.actions, row.service) && PendingCount(db.deployments, row.service) < 10
    requires row.key != "" ==> Prior(db.deployments, row.service, row.key).None?
    ensures Inv(db.(deployments := db.deployments + [row]))
  {
    hide RefsOk, ActiveOk, QueueOk, LeasesOk, ActionsOk, KeysOk, CronOk, AttachmentsOk, SnapshotsOk;
    var deployments := db.deployments + [row];
    forall t: nat ensures PendingCount(deployments, t) <= 10 {
      CountAppend(db.deployments, row, t);
    }
    AppendActive(db.services, db.deployments, row);
    AppendQueue(db.deployments, row);
    AppendActions(db.services, db.deployments, db.actions, row);
    AppendKeys(db.deployments, row);
    AppendRefs(db, row);
    AppendLeases(db, row);
    assert CancelOk(deployments);
  }

  lemma AppendActive(services: seq<Service>, deployments: seq<Deployment>, row: Deployment)
    requires ActiveOk(services, deployments) && row.status.Queued?
    ensures ActiveOk(services, deployments + [row])
  {
  }

  lemma AppendQueue(deployments: seq<Deployment>, row: Deployment)
    requires QueueOk(deployments) && row.status.Queued? && row.lease.attempt == 0
    ensures QueueOk(deployments + [row])
  {
    var after := deployments + [row];
    forall i, j | 0 <= i < j < |after| && SameQueue(after, i, j) && !Terminal(after[i].status)
      ensures !after[j].status.Active? && (!Terminal(after[j].status) ==> after[j].lease.attempt == 0)
    {
      assert j < |deployments| ==> SameQueue(deployments, i, j);
    }
  }

  lemma AppendActions(services: seq<Service>, deployments: seq<Deployment>, actions: seq<Action>, row: Deployment)
    requires ActionsOk(services, deployments, actions) && !ActionPending(actions, row.service)
    ensures ActionsOk(services, deployments + [row], actions)
  {
    forall i | 0 <= i < |actions| && Pending(actions[i].status)
      ensures !DeploymentPending(deployments + [row], actions[i].service)
    {
      assert actions[i].service != row.service;
    }
  }

  lemma AppendKeys(deployments: seq<Deployment>, row: Deployment)
    requires KeysOk(deployments) && (row.key != "" ==> Prior(deployments, row.service, row.key).None?)
    ensures KeysOk(deployments + [row])
  {
    var after := deployments + [row];
    forall i, j | 0 <= i < j < |after| && SameQueue(after, i, j) && after[i].key != ""
      ensures after[i].key != after[j].key
    {
      assert j < |deployments| ==> SameQueue(deployments, i, j);
    }
  }

  lemma AppendRefs(db: Db, row: Deployment)
    requires RefsOk(db) && row.service < |db.services|
    ensures RefsOk(db.(deployments := db.deployments + [row]))
  {
  }

  lemma AppendLeases(db: Db, row: Deployment)
    requires LeasesOk(db) && LeaseOk(row.lease, db.lastToken) && row.status.Queued?
    ensures LeasesOk(db.(deployments := db.deployments + [row]))
  {
  }

  lemma AppendSnapshots(db: Db, row: Deployment)
    requires RefsOk(db) && SnapshotsOk(db) && ActiveOk(db.services, db.deployments)
    requires SnapshotHeld([row], db.attachments, 0)
    ensures SnapshotsOk(db.(deployments := db.deployments + [row]))
  {
    var after := db.deployments + [row];
    forall d: nat | d < |db.deployments| && SnapshotHeld(db.deployments, db.attachments, d)
      ensures SnapshotHeld(after, db.attachments, d)
    {
    }
    assert SnapshotHeld(after, db.attachments, |db.deployments|);
  }

  lemma NamedVolume(db: Db, s: nat)
    requires AttachmentsOk(db) && s < |db.services|
    ensures var volume := db.services[s].settings.volume;
            volume.Some? ==> volume.value in db.attachments && db.attachments[volume.value].service == s
  {
  }

  lemma EnqueueInv(
    db: Db, s: nat, spec: Spec, command: Option<string>, key: string, valid: bool, resolved: bool, now: Time)
    requires Inv(db)
    ensures Inv(Enqueue(db, s, spec, command, key, valid, resolved, now).db)
    ensures VolumesOk(db) ==> VolumesOk(Enqueue(db, s, spec, command, key, valid, resolved, now).db)
  {
    hide RefsOk, ActiveOk, QueueOk, LeasesOk, CancelOk, BoundOk, ActionsOk, KeysOk, CronOk, AttachmentsOk, SnapshotsOk;
    var after := Enqueue(db, s, spec, command, key, valid, resolved, now).db;
    if after != db {
      var row := after.deployments[|db.deployments|];
      var kept := db.(services := after.services);
      assert after == kept.(deployments := db.deployments + [row]);
      KeepJobs(db, kept);
      AppendJobs(kept, row);
      if VolumesOk(db) {
        KeepSnapshots(db, kept);
        ResettleAttachments(db, after);
        NamedVolume(after, s);
        AppendSnapshots(kept, row);
      }
    }
  }

  lemma CreateDatabaseInv(db: Db, scope: Scope, kind: Kind, now: Time)
    requires Inv(db)
    ensures Inv(CreateDatabase(db, scope, kind, now).db)
    ensures VolumesOk(db) ==> VolumesOk(CreateDatabase(db, scope, kind, now).db)
  {
    hide Inv, VolumesOk;
    AddDatabaseInv(db, scope, kind);
    EnqueueInv(AddDatabase(db, scope, kind), |db.services|, TemplateSpec(kind), None, "database-bootstrap", true, true, now);
  }

  /******* Volumes *******/

  function Hold(db: Db, s: nat, v: VolumeId, mount: string): Db
    requires s < |db.services|
  {
    var settings := db.services[s].settings.(volume := Some(v), mount := mount);
    db.(attachments := db.attachments[v := Attachment(s, mount)],
        services := db.services[s := db.services[s].(settings := settings)])
  }

  /** A service without another volume may take a volume that no other service holds. */
  lemma HoldAttachments(db: Db, s: nat, v: VolumeId, mount: string)
    requires AttachmentsOk(db)
    requires s < |db.services| && v in db.volumes
    requires db.services[s].settings.volume.None? || db.services[s].settings.volume == Some(v)
    requires v in db.attachments ==> db.attachments[v].service == s
    ensures AttachmentsOk(Hold(db, s, v, mount))
  {
  }

  lemma UnattachedService(db: Db, s: nat)
    requires AttachmentsOk(db) && s < |db.services| && !HasVolume(db.attachments, s)
    ensures db.services[s].settings.volume.None?
  {
  }

  lemma AttachVolumeInv(db: Db, v: VolumeId, s: nat, mount: string, valid: bool)
    requires Inv(db)
    ensures Inv(AttachVolume(db, v, s, mount, valid).db)
    ensures VolumesOk(db) ==> VolumesOk(AttachVolume(db, v, s, mount, valid).db)
  {
    hide RefsOk, ActiveOk, QueueOk, LeasesOk, CancelOk, BoundOk, ActionsOk, KeysOk, CronOk, AttachmentsOk, SnapshotsOk;
    var after := AttachVolume(db, v, s, mount, valid);
    if after.reply.Ok? {
      assert after.db == Hold(db, s, v, mount);
      KeepJobs(db, after.db);
      if VolumesOk(db) {
        UnattachedService(db, s);
        HoldAttachments(db, s, v, mount);
        KeepSnapshots(db, after.db);
      }
    }
  }

  lemma DetachVolumeAttachments(db: Db, v: VolumeId)
    requires AttachmentsOk(db)
    ensures AttachmentsOk(DetachVolume(db, v).db)
  {
  }

  /** A service that is stopped and has no unfinished work has no release to lose its volume. */
  lemma DetachVolumeSnapshots(db: Db, v: VolumeId)
    requires RefsOk(db) && ActiveOk(db.services, db.deployments) && SnapshotsOk(db)
    ensures SnapshotsOk(DetachVolume(db, v).db)
  {
    var db' := DetachVolume(db, v).db;
    if db' != db {
      var s := db.attachments[v].service;
      forall d: nat | d < |db.deployments| && db.deployments[d].service != s && SnapshotHeld(db.deployments, db.attachments, d)
        ensures SnapshotHeld(db'.deployments, db'.attachments, d)
      {
      }
      forall d: nat | d < |db.deployments| && !Terminal(db.deployments[d].status)
        ensures SnapshotHeld(db'.deployments, db'.attachments, d)
      {
        assert db.deployments[d].service != s;
      }
    }
  }

  lemma DetachVolumeInv(db: Db, v: VolumeId)
    requires Inv(db)
    ensures Inv(DetachVolume(db, v).db)
    ensures VolumesOk(db) ==> VolumesOk(DetachVolume(db, v).db)
  {
    hide QueueOk, LeasesOk, CancelOk, BoundOk, ActionsOk, KeysOk, CronOk, AttachmentsOk, SnapshotsOk, RefsOk, ActiveOk;
    KeepJobs(db, DetachVolume(db, v).db);
    if VolumesOk(db) {
      DetachVolumeAttachments(db, v);
      DetachVolumeSnapshots(db, v);
    }
  }

  /** The derived volume of the service is not in another service's hands. */
  predicate DerivedFree(db: Db, s: nat) {
    Derived(s) in db.attachments ==> db.attachments[Derived(s)].service == s
  }

  /** What an accepted form changes: nothing about volumes, or it holds the derived volume. */
  lemma SaveSettingsShape(db: Db, s: nat, mount: string, valid: bool)
    requires s < |db.services|
    requires var volume := db.services[s].settings.volume;
             volume.Some? ==> volume.value in db.attachments && db.attachments[volume.value].service == s
    ensures var after := SaveSettings(db, s, mount, valid);
            after.reply.Ok? && after.db.services[s].settings.volume.Some? ==>
              && after.db == Hold(db.(volumes := after.db.volumes), s, Derived(s), mount)
              && db.volumes.Keys + {Derived(s)} == after.db.volumes.Keys
              && (db.services[s].settings.volume.None? || db.services[s].settings.volume == Some(Derived(s)))
  {
  }

  lemma SaveSettingsAttachments(db: Db, s: nat, mount: string, valid: bool)
    requires AttachmentsOk(db) && DerivedFree(db, s)
    requires SaveSettings(db, s, mount, valid).reply.Ok?
    ensures AttachmentsOk(SaveSettings(db, s, mount, valid).db)
    ensures AttachmentsKeep(db.attachments, SaveSettings(db, s, mount, valid).db.attachments)
    ensures ServicesKeep(db.services, SaveSettings(db, s, mount, valid).db.services)
  {
    hide AttachmentsOk;
    var after := SaveSettings(db, s, mount, valid).db;
    NamedVolume(db, s);
    SaveSettingsShape(db, s, mount, valid);
    if after.services[s].settings.volume.None? {
      ResettleAttachments(db, after);
    } else {
      AddVolume(db, s, after.volumes);
      HoldAttachments(db.(volumes := after.volumes), s, Derived(s), mount);
    }
  }

  lemma AddVolume(db: Db, s: nat, volumes: map<VolumeId, Volume>)
    requires AttachmentsOk(db) && s < |db.services|
    requires db.volumes.Keys <= volumes.Keys <= db.volumes.Keys + {Derived(s)}
    ensures AttachmentsOk(db.(volumes := volumes))
  {
  }

  /** An accepted form with a mount path takes its derived volume from nobody. */
  predicate TakesNothing(db: Db, s: nat, mount: string, valid: bool) {
    mount != "" && SaveSettings(db, s, mount, valid).reply.Ok? ==> DerivedFree(db, s)
  }

  lemma SaveSettingsInv(db: Db, s: nat, mount: string, valid: bool)
    requires Inv(db)
    ensures Inv(SaveSettings(db, s, mount, valid).db)
    ensures VolumesOk(db) && TakesNothing(db, s, mount, valid) ==> VolumesOk(SaveSettings(db, s, mount, valid).db)
  {
    hide RefsOk, ActiveOk, QueueOk, LeasesOk, CancelOk, BoundOk, ActionsOk, KeysOk, CronOk, AttachmentsOk, SnapshotsOk;
    var after := SaveSettings(db, s, mount, valid);
    if after.reply.Ok? {
      KeepJobs(db, after.db);
      if VolumesOk(db) && TakesNothing(db, s, mount, valid) {
        NamedVolume(db, s);
        if mount == "" && after.db.services[s].settings.volume.None? {
          KeepSnapshots(db, after.db);
          ResettleAttachments(db, after.db);
        } else {
          SaveSettingsAttachments(db, s, mount, valid);
          KeepSnapshots(db, after.db);
        }
      }
    }
  }

  /******* Queueing *******/

  lemma AppendAction(services: seq<Service>, deployments: seq<Deployment>, actions: seq<Action>, row: Action)
    requires ActionsOk(services, deployments, actions)
    requires row.service < |services| && services[row.service].activeId.Some?
    requires !DeploymentPending(deployments, row.service) && !ActionPending(actions, row.service)
    ensures ActionsOk(services, deployments, actions + [row])
  {
  }

  lemma AppendActionSnapshots(db: Db, row: Action)
    requires SnapshotsOk(db) && row.service < |db.services|
    requires db.services[row.service].activeId.Some? && db.services[row.service].activeId.value < |db.deployments|
    requires Restarts(row) ==> SnapshotHeld(db.deployments, db.attachments, db.services[row.service].activeId.value)
    ensures SnapshotsOk(db.(actions := db.actions + [row]))
  {
  }

  lemma AppendActionJobs(db: Db, row: Action)
    requires Inv(db) && row.service < |db.services| && db.services[row.service].activeId.Some?
    requires !DeploymentPending(db.deployments, row.service) && !ActionPending(db.actions, row.service)
    requires LeaseOk(row.lease, db.lastToken)
    ensures Inv(db.(actions := db.actions + [row]))
  {
    AppendAction(db.services, db.deployments, db.actions, row);
    AppendActionRefs(db, row);
  }

  lemma AppendActionRefs(db: Db, row: Action)
    requires RefsOk(db) && LeasesOk(db) && row.service < |db.services| && LeaseOk(row.lease, db.lastToken)
    ensures RefsOk(db.(actions := db.actions + [row])) && LeasesOk(db.(actions := db.actions + [row]))
  {
  }

  lemma EnqueueActionInv(db: Db, s: nat, kind: ActionKind, backupExists: bool, now: Time)
    requires Inv(db)
    ensures Inv(EnqueueAction(db, s, kind, backupExists, now).db)
    ensures VolumesOk(db) ==> VolumesOk(EnqueueAction(db, s, kind, backupExists, now).db)
  {
    hide RefsOk, ActiveOk, QueueOk, LeasesOk, CancelOk, BoundOk, ActionsOk, KeysOk, CronOk, AttachmentsOk, SnapshotsOk;
    if EnqueueAction(db, s, kind, backupExists, now).reply.Ok? {
      var row := Action(s, kind, Waiting, Unclaimed(now));
      AppendActionJobs(db, row);
      if VolumesOk(db) {
        StartHolds(db, s);
        AppendActionSnapshots(db, row);
        ResettleAttachments(db, db.(actions := db.actions + [row]));
      }
    }
  }

  /** A release whose volume is still the one its service names holds that volume. */
  lemma StartHolds(db: Db, s: nat)
    requires ActiveOk(db.services, db.deployments) && AttachmentsOk(db)
    requires s < |db.services| && db.services[s].activeId.Some?
    ensures var a := db.services[s].activeId.value;
            && a < |db.deployments|
            && (db.deployments[a].settings.volume == db.services[s].settings.volume ==>
                  SnapshotHeld(db.deployments, db.attachments, a))
  {
  }

  lemma ScheduleCron(services: seq<Service>, services': seq<Service>, runs: seq<CronRun>, clock: Time)
    requires CronOk(services, runs, clock) && |services'| == |services|
    requires forall s :: 0 <= s < |services| ==>
                           || services'[s].nextRun == services[s].nextRun
                           || (services'[s].nextRun.Some? && services'[s].nextRun.value > clock)
    ensures CronOk(services', runs, clock)
  {
  }

  lemma SaveCronScheduleInv(db: Db, s: nat, schedule: string, next: Option<Time>)
    requires Inv(db) && (next.Some? ==> next.value > db.clock)
    ensures Inv(SaveCronSchedule(db, s, schedule, next).db)
    ensures VolumesOk(db) ==> VolumesOk(SaveCronSchedule(db, s, schedule, next).db)
  {
    hide RefsOk, ActiveOk, QueueOk, LeasesOk, CancelOk, BoundOk, ActionsOk, KeysOk, CronOk, AttachmentsOk, SnapshotsOk;
    var db' := SaveCronSchedule(db, s, schedule, next).db;
    ScheduleCron(db.services, db'.services, db.runs, db.clock);
    KeepReleases(db, db');
    if VolumesOk(db) {
      KeepSnapshots(db, db');
      ResettleAttachments(db, db');
    }
  }

  lemma CancelRows(db: Db, d: nat)
    ensures DeploymentsSettle(db.deployments, Cancel(db, d).db.deployments)
  {
  }

  lemma CancelInv(db: Db, d: nat)
    requires Inv(db)
    ensures Inv(Cancel(db, d).db)
    ensures VolumesOk(db) ==> VolumesOk(Cancel(db, d).db)
  {
    hide Inv, VolumesOk;
    CancelRows(db, d);
    SettleInv(db, Cancel(db, d).db);
  }

  /******* Claiming *******/

  lemma SweepRows(db: Db, now: Time)
    ensures DeploymentsSettle(db.deployments, Sweep(db, now).deployments)
    ensures ActionsSettle(db.actions, Sweep(db, now).actions)
    ensures RunsSettle(db.runs, Sweep(db, now).runs)
  {
  }

  lemma SweepInv(db: Db, now: Time)
    requires Inv(db)
    ensures Inv(Sweep(db, now))
    ensures VolumesOk(db) ==> VolumesOk(Sweep(db, now))
  {
    hide Inv, VolumesOk;
    SweepRows(db, now);
    SettleInv(db, Sweep(db, now));
  }

  lemma ClaimActionInv(db: Db, swept: Db, i: nat, now: Time)
    requires Inv(db) && Inv(swept) && i < |swept.actions| && ActionReady(swept.actions, i, now)
    ensures Inv(ClaimAction(db, swept, i, now).db)
    ensures VolumesOk(db) && VolumesOk(swept) ==> VolumesOk(ClaimAction(db, swept, i, now).db)
  {
    hide Inv, VolumesOk;
    var after := ClaimAction(db, swept, i, now);
    if after.reply.Ok? {
      LeaseAction(swept, i, now);
    }
  }

  /** The tables after an action's next attempt. */
  function WithAttempt(db: Db, i: nat, now: Time): Db
    requires i < |db.actions|
  {
    var row := db.actions[i].(status := Executing, lease := NextAttempt(db.actions[i].lease, db.lastToken + 1, now));
    db.(actions := db.actions[i := row], lastToken := db.lastToken + 1)
  }

  lemma LeaseAction(db: Db, i: nat, now: Time)
    requires Inv(db) && i < |db.actions| && Pending(db.actions[i].status) && MayStart(db.actions[i].lease, now)
    ensures Inv(WithAttempt(db, i, now))
    ensures VolumesOk(db) ==> VolumesOk(WithAttempt(db, i, now))
  {
    hide ActiveOk, QueueOk, CancelOk, BoundOk, ActionsOk, KeysOk, CronOk, AttachmentsOk, SnapshotsOk;
    var after := WithAttempt(db, i, now);
    LeaseActionRows(db.services, db.deployments, db.actions, after.actions);
    LeaseActionTokens(db, after.actions);
    if VolumesOk(db) {
      LeaseActionSnapshots(db, after.actions);
      ResettleAttachments(db, after);
    }
    assert RefsOk(after);
  }

  ghost predicate SameActions(before: seq<Action>, after: seq<Action>) {
    && |before| == |after|
    && forall i :: 0 <= i < |before| ==>
                     && after[i].service == before[i].service && after[i].kind == before[i].kind
                     && Pending(after[i].status) == Pending(before[i].status)
  }

  lemma LeaseActionRows(services: seq<Service>, deployments: seq<Deployment>, before: seq<Action>, after: seq<Action>)
    requires ActionsOk(services, deployments, before) && SameActions(before, after)
    ensures ActionsOk(services, deployments, after)
  {
  }

  lemma LeaseActionSnapshots(db: Db, actions: seq<Action>)
    requires SnapshotsOk(db) && SameActions(db.actions, actions)
    ensures SnapshotsOk(db.(actions := actions, lastToken := db.lastToken + 1))
  {
  }

  lemma LeaseActionTokens(db: Db, actions: seq<Action>)
    requires LeasesOk(db)
    requires forall i :: 0 <= i < |actions| ==> LeaseOk(actions[i].lease, db.lastToken + 1)
    ensures LeasesOk(db.(actions := actions, lastToken := db.lastToken + 1))
  {
  }

  /** Leasing the head of a queue changes one lease and nothing else. */
  ghost predicate Leased(before: seq<Deployment>, after: seq<Deployment>, i: nat) {
    && i < |before| == |after| && !Terminal(before[i].status)
    && after == before[i := before[i].(lease := after[i].lease)]
    && (forall j :: 0 <= j < i && SameQueue(before, j, i) ==> Terminal(before[j].status))
  }

  lemma LeaseQueue(before: seq<Deployment>, after: seq<Deployment>, i: nat)
    requires QueueOk(before) && Leased(before, after, i)
    ensures QueueOk(after)
  {
    forall j, k | 0 <= j < k < |after| && SameQueue(after, j, k) && !Terminal(after[j].status)
      ensures !after[k].status.Active? && (!Terminal(after[k].status) ==> after[k].lease.attempt == 0)
    {
      assert SameQueue(before, j, k);
      assert k != i;
    }
  }

  lemma LeaseActive(services: seq<Service>, before: seq<Deployment>, after: seq<Deployment>, i: nat)
    requires ActiveOk(services, before) && Leased(before, after, i)
    ensures ActiveOk(services, after)
  {
  }

  lemma LeaseActions(services: seq<Service>, before: seq<Deployment>, after: seq<Deployment>, actions: seq<Action>, i: nat)
    requires ActionsOk(services, before, actions) && Leased(before, after, i)
    ensures ActionsOk(services, after, actions)
  {
    forall s: nat | DeploymentPending(after, s) ensures DeploymentPending(before, s) {
      var j :| 0 <= j < |after| && after[j].service == s && !Terminal(after[j].status);
      assert before[j].service == s && !Terminal(before[j].status);
    }
  }

  lemma LeaseKeys(before: seq<Deployment>, after: seq<Deployment>, i: nat)
    requires KeysOk(before) && CancelOk(before) && Leased(before, after, i)
    ensures KeysOk(after) && CancelOk(after)
  {
    forall j, k | 0 <= j < k < |after| && SameQueue(after, j, k) ensures SameQueue(before, j, k) {
    }
  }

  lemma LeaseSnapshots(db: Db, after: seq<Deployment>, i: nat)
    requires SnapshotsOk(db) && RefsOk(db) && Leased(db.deployments, after, i)
    ensures SnapshotsOk(db.(deployments := after, lastToken := db.lastToken + 1))
  {
    forall d: nat | d < |after| && SnapshotHeld(db.deployments, db.attachments, d)
      ensures SnapshotHeld(after, db.attachments, d)
    {
    }
  }

  lemma LeaseRefs(db: Db, after: seq<Deployment>, i: nat)
    requires RefsOk(db) && Leased(db.deployments, after, i)
    ensures RefsOk(db.(deployments := after, lastToken := db.lastToken + 1))
  {
  }

  lemma LeaseTokens(db: Db, after: seq<Deployment>, i: nat)
    requires LeasesOk(db) && Leased(db.deployments, after, i)
    requires LeaseOk(after[i].lease, db.lastToken + 1) && after[i].lease.attempt > 0
    ensures LeasesOk(db.(deployments := after, lastToken := db.lastToken + 1))
  {
  }

  lemma LeaseInv(db: Db, after: seq<Deployment>, i: nat)
    requires Inv(db) && Leased(db.deployments, after, i)
    requires LeaseOk(after[i].lease, db.lastToken + 1) && after[i].lease.attempt > 0
    ensures Inv(db.(deployments := after, lastToken := db.lastToken + 1))
    ensures VolumesOk(db) ==> VolumesOk(db.(deployments := after, lastToken := db.lastToken + 1))
  {
    hide RefsOk, ActiveOk, QueueOk, LeasesOk, CancelOk, BoundOk, ActionsOk, KeysOk, CronOk, AttachmentsOk, SnapshotsOk;
    LeaseQueue(db.deployments, after, i);
    LeaseActive(db.services, db.deployments, after, i);
    LeaseActions(db.services, db.deployments, after, db.actions, i);
    LeaseKeys(db.deployments, after, i);
    LeaseRefs(db, after, i);
    LeaseTokens(db, after, i);
    BoundShrinks(db.deployments, after);
    if VolumesOk(db) {
      LeaseSnapshots(db, after, i);
      ResettleAttachments(db, db.(deployments := after, lastToken := db.lastToken + 1));
    }
  }

  lemma NextLeaseOk(lease: Lease, lastToken: nat, now: Time)
    requires LeaseOk(lease, lastToken) && MayStart(lease, now)
    ensures LeaseOk(NextAttempt(lease, lastToken + 1, now), lastToken + 1)
  {
  }

  lemma DeploymentLease(db: Db, i: nat)
    requires Inv(db) && i < |db.deployments|
    ensures LeaseOk(db.deployments[i].lease, db.lastToken)
  {
  }

  lemma ClaimDeploymentInv(db: Db, swept: Db, i: nat, now: Time)
    requires Inv(db) && Inv(swept) && i < |swept.deployments| && DeploymentReady(swept.deployments, i, now)
    ensures Inv(ClaimDeployment(db, swept, i, now).db)
    ensures VolumesOk(db) && VolumesOk(swept) ==> VolumesOk(ClaimDeployment(db, swept, i, now).db)
  {
    hide Inv, VolumesOk;
    var after := ClaimDeployment(db, swept, i, now);
    if after.reply.Ok? {
      DeploymentLease(swept, i);
      NextLeaseOk(swept.deployments[i].lease, swept.lastToken, now);
      LeaseInv(swept, after.db.deployments, i);
    }
  }

  /** Runs that only change their status among the pending ones, and their lease. */
  ghost predicate SameRuns(before: seq<CronRun>, after: seq<CronRun>) {
    && |before| == |after|
    && forall i :: 0 <= i < |before| ==>
                     && after[i].service == before[i].service && after[i].deployment == before[i].deployment
                     && after[i].scheduledFor == before[i].scheduledFor
                     && Pending(after[i].status) == Pending(before[i].status)
  }

  lemma StartRunInv(db: Db, ready: Db, i: nat, now: Time)
    requires Inv(db) && Inv(ready) && i < |ready.runs| && Pending(ready.runs[i].status)
    ensures Inv(StartRun(db, ready, i, now).db)
    ensures VolumesOk(db) && VolumesOk(ready) ==> VolumesOk(StartRun(db, ready, i, now).db)
  {
    hide RefsOk, ActiveOk, QueueOk, CancelOk, BoundOk, ActionsOk, KeysOk, CronOk, AttachmentsOk, SnapshotsOk, LeasesOk;
    var after := StartRun(db, ready, i, now);
    if after.reply.Ok? {
      StartRunRows(ready, after.db.runs);
      StartRunTokens(ready, i, now);
      if VolumesOk(ready) {
        StartRunSnapshots(ready, after.db.runs);
      }
    }
  }

  lemma StartRunRows(db: Db, runs: seq<CronRun>)
    requires RefsOk(db) && CronOk(db.services, db.runs, db.clock) && SameRuns(db.runs, runs)
    ensures var db' := db.(runs := runs, lastToken := db.lastToken + 1);
            RefsOk(db') && CronOk(db'.services, db'.runs, db'.clock)
  {
  }

  lemma StartRunSnapshots(db: Db, runs: seq<CronRun>)
    requires VolumesOk(db) && SameRuns(db.runs, runs)
    ensures VolumesOk(db.(runs := runs, lastToken := db.lastToken + 1))
  {
  }

  lemma StartRunTokens(db: Db, i: nat, now: Time)
    requires LeasesOk(db) && i < |db.runs| && MayStart(db.runs[i].lease, now)
    ensures var row := db.runs[i].(status := Executing, lease := NextAttempt(db.runs[i].lease, db.lastToken + 1, now));
            LeasesOk(db.(runs := db.runs[i := row], lastToken := db.lastToken + 1))
  {
  }

  lemma AddRunCron(services: seq<Service>, runs: seq<CronRun>, run: CronRun, next: Time, clock: Time)
    requires CronOk(services, runs, clock) && next > clock
    requires run.service < |services| && services[run.service].nextRun == Some(run.scheduledFor) && run.scheduledFor <= clock
    requires !RunPending(runs, run.service)
    ensures CronOk(services[run.service := services[run.service].(nextRun := Some(next))], runs + [run], clock)
  {
  }

  lemma AddRunInv(db: Db, s: nat, next: Time)
    requires Inv(db) && s < |db.services| && ServiceReady(db.services, db.runs, s, db.clock) && next > db.clock
    ensures Inv(AddRun(db, s, db.clock, next))
    ensures VolumesOk(db) ==> VolumesOk(AddRun(db, s, db.clock, next))
  {
    hide ActiveOk, QueueOk, CancelOk, BoundOk, ActionsOk, KeysOk, CronOk, AttachmentsOk, SnapshotsOk, LeasesOk, RefsOk;
    var db' := AddRun(db, s, db.clock, next);
    var timed := db.(services := db'.services);
    AddRunCron(db.services, db.runs, db'.runs[|db.runs|], next, db.clock);
    ScheduleCron(db.services, db'.services, db.runs, db.clock);
    KeepReleases(db, timed);
    AddRunRows(timed, db'.runs[|db.runs|]);
    if VolumesOk(db) {
      KeepSnapshots(db, timed);
      ResettleAttachments(db, db');
      AddRunSnapshots(timed, db'.runs[|db.runs|]);
    }
  }

  lemma AddRunRows(db: Db, run: CronRun)
    requires RefsOk(db) && LeasesOk(db) && ActiveOk(db.services, db.deployments)
    requires run.service < |db.services| && LeaseOk(run.lease, db.lastToken)
    requires db.services[run.service].activeId == Some(run.deployment)
    ensures var db' := db.(runs := db.runs + [run]); RefsOk(db') && LeasesOk(db')
  {
  }

  lemma AddRunSnapshots(db: Db, run: CronRun)
    requires SnapshotsOk(db) && ActiveOk(db.services, db.deployments)
    requires run.service < |db.services| && Released(db.services[run.service])
    requires db.services[run.service].activeId == Some(run.deployment)
    ensures SnapshotsOk(db.(runs := db.runs + [run]))
  {
  }

  lemma ClaimCronInv(db: Db, swept: Db, next: Time)
    requires Inv(db) && Inv(swept) && next > swept.clock
    ensures Inv(ClaimCron(db, swept, swept.clock, next).db)
    ensures VolumesOk(db) && VolumesOk(swept) ==> VolumesOk(ClaimCron(db, swept, swept.clock, next).db)
  {
    hide Inv, VolumesOk;
    var now := swept.clock;
    var r := EarliestRun(swept.runs, now, |swept.runs|);
    var s := EarliestService(swept.services, swept.runs, now, |swept.services|);
    if r.Some? {
      StartRunInv(db, swept, r.value, now);
    } else if s.Some? {
      AddRunInv(swept, s.value, next);
      StartRunInv(db, AddRun(swept, s.value, now, next), |swept.runs|, now);
    }
  }

  lemma ClaimInv(db: Db, next: Time)
    requires Inv(db) && next > db.clock
    ensures Inv(Claim(db, db.clock, next).db)
    ensures VolumesOk(db) ==> VolumesOk(Claim(db, db.clock, next).db)
  {
    hide Inv, VolumesOk;
    var now := db.clock;
    var swept := Sweep(db, now);
    SweepInv(db, now);
    var a := FirstAction(swept.actions, now);
    var d := FirstDeployment(swept.deployments, now);
    if a.Some? {
      ClaimActionInv(db, swept, a.value, now);
    } else if d.Some? {
      ClaimDeploymentInv(db, swept, d.value, now);
    } else {
      ClaimCronInv(db, swept, next);
    }
  }

  /******* Reporting *******/

  /** Activating the head of a queue: the row is claimed, and everything older has finished. */
  ghost predicate Activatable(db: Db, d: nat) {
    && d < |db.deployments| && db.deployments[d].service < |db.services|
    && !Terminal(db.deployments[d].status) && db.deployments[d].lease.attempt > 0 && !db.deployments[d].cancelRequested
  }

  lemma ActivatePointers(db: Db, d: nat)
    requires ActiveOk(db.services, db.deployments) && Activatable(db, d)
    ensures ActiveOk(Activate(db, d).services, Activate(db, d).deployments)
  {
  }

  /** A row keeps its service, and finishes if it had finished before. */
  ghost predicate Finishes(before: seq<Deployment>, after: seq<Deployment>) {
    && |before| == |after|
    && forall i :: 0 <= i < |before| ==>
                     && after[i].service == before[i].service && after[i].key == before[i].key
                     && after[i].settings == before[i].settings && after[i].lease == before[i].lease
                     && after[i].payload == before[i].payload && after[i].cancelRequested == before[i].cancelRequested
                     && (Terminal(before[i].status) ==> Terminal(after[i].status))
                     && (!Terminal(after[i].status) ==> after[i].status == before[i].status)
  }

  lemma ActivateFinishes(db: Db, d: nat)
    requires Activatable(db, d)
    ensures Finishes(db.deployments, Activate(db, d).deployments)
  {
  }

  lemma ActivateQueue(db: Db, d: nat)
    requires QueueOk(db.deployments) && Activatable(db, d)
    ensures QueueOk(Activate(db, d).deployments)
  {
    var before, after := db.deployments, Activate(db, d).deployments;
    forall i, j | 0 <= i < j < |after| && SameQueue(after, i, j) && !Terminal(after[i].status)
      ensures !after[j].status.Active? && (!Terminal(after[j].status) ==> after[j].lease.attempt == 0)
    {
      assert SameQueue(before, i, j) && !Terminal(before[i].status);
      assert j != d;
    }
  }

  lemma ActivateActions(db: Db, d: nat)
    requires ActionsOk(db.services, db.deployments, db.actions) && Activatable(db, d)
    ensures ActionsOk(Activate(db, d).services, Activate(db, d).deployments, db.actions)
  {
    var after := Activate(db, d);
    ActivateFinishes(db, d);
    forall s: nat | DeploymentPending(after.deployments, s) ensures DeploymentPending(db.deployments, s) {
      var i :| 0 <= i < |after.deployments| && after.deployments[i].service == s && !Terminal(after.deployments[i].status);
      assert db.deployments[i].service == s && !Terminal(db.deployments[i].status);
    }
  }

  lemma ActivateRows(db: Db, d: nat)
    requires KeysOk(db.deployments) && CancelOk(db.deployments) && RefsOk(db) && ActiveOk(db.services, db.deployments)
    requires Activatable(db, d)
    ensures KeysOk(Activate(db, d).deployments) && CancelOk(Activate(db, d).deployments) && RefsOk(Activate(db, d))
  {
    ActivateFinishes(db, d);
    var before, after := db.deployments, Activate(db, d).deployments;
    forall i, j | 0 <= i < j < |after| && SameQueue(after, i, j) ensures SameQueue(before, i, j) {
    }
  }

  lemma ActivateLeases(db: Db, d: nat)
    requires LeasesOk(db) && ActiveOk(db.services, db.deployments) && Activatable(db, d)
    ensures LeasesOk(Activate(db, d))
  {
    ActivateFinishes(db, d);
  }

  lemma ActivateSnapshots(db: Db, d: nat)
    requires SnapshotsOk(db) && Activatable(db, d) && ActiveOk(db.services, db.deployments)
    requires ActionsOk(db.services, db.deployments, db.actions)
    ensures SnapshotsOk(Activate(db, d))
  {
    var after := Activate(db, d);
    ActivateFinishes(db, d);
    forall i: nat | i < |db.deployments| && SnapshotHeld(db.deployments, db.attachments, i)
      ensures SnapshotHeld(after.deployments, after.attachments, i)
    {
    }
    forall i | 0 <= i < |db.actions| && Restarts(db.actions[i]) ensures db.actions[i].service != db.deployments[d].service {
      assert !DeploymentPending(db.deployments, db.actions[i].service);
    }
  }

  lemma ActivateCron(services: seq<Service>, s: nat, service: Service, runs: seq<CronRun>, clock: Time)
    requires CronOk(services, runs, clock) && s < |services| && service.nextRun == services[s].nextRun
    ensures CronOk(services[s := service], runs, clock)
  {
  }

  lemma ActivateInv(db: Db, d: nat)
    requires Inv(db) && Activatable(db, d)
    ensures Inv(Activate(db, d))
    ensures VolumesOk(db) ==> VolumesOk(Activate(db, d))
  {
    hide ActiveOk, QueueOk, CancelOk, BoundOk, ActionsOk, KeysOk, CronOk, AttachmentsOk, SnapshotsOk, LeasesOk, RefsOk;
    var after := Activate(db, d);
    var s := db.deployments[d].service;
    ActivatePointers(db, d);
    ActivateQueue(db, d);
    ActivateActions(db, d);
    ActivateRows(db, d);
    ActivateLeases(db, d);
    ActivateFinishes(db, d);
    ActivateCron(db.services, s, after.services[s], db.runs, db.clock);
    BoundShrinks(db.deployments, after.deployments);
    if VolumesOk(db) {
      ActivateSnapshots(db, d);
      ResettleAttachments(db, after);
    }
  }

  lemma ReportInv(db: Db, d: nat, token: nat, reported: Reported)
    requires Inv(db)
    ensures Inv(Report(db, d, token, reported, db.clock).db)
    ensures VolumesOk(db) ==> VolumesOk(Report(db, d, token, reported, db.clock).db)
  {
    hide Inv, VolumesOk;
    var after := Report(db, d, token, reported, db.clock);
    if after.reply.Ok? && d < |db.deployments| && !reported.LogsOnly? && !Terminal(db.deployments[d].status) {
      DeploymentLease(db, d);
      if reported.Activated? {
        ActivateInv(db, d);
      } else {
        SettleInv(db, after.db);
      }
    }
  }

  lemma ReportCronRunInv(db: Db, r: nat, token: nat, succeeded: bool)
    requires Inv(db)
    ensures Inv(ReportCronRun(db, r, token, succeeded, db.clock).db)
    ensures VolumesOk(db) ==> VolumesOk(ReportCronRun(db, r, token, succeeded, db.clock).db)
  {
    hide Inv, VolumesOk;
    SettleInv(db, ReportCronRun(db, r, token, succeeded, db.clock).db);
  }

  /** The active release of the service, if any, holds its volume. */
  ghost predicate ReleaseHeld(db: Db, s: nat)
    requires s < |db.services|
  {
    var release := db.services[s].activeId;
    release.Some? && release.value < |db.deployments| ==> SnapshotHeld(db.deployments, db.attachments, release.value)
  }

  /** Starting or stopping a service.  A start needs a release that holds its volume. */
  lemma DesiredInv(db: Db, s: nat, desired: Desired)
    requires Inv(db) && s < |db.services|
    ensures Inv(db.(services := db.services[s := db.services[s].(desired := desired)]))
    ensures VolumesOk(db) && (desired.Running? ==> ReleaseHeld(db, s)) ==>
              VolumesOk(db.(services := db.services[s := db.services[s].(desired := desired)]))
  {
    hide QueueOk, CancelOk, BoundOk, KeysOk, CronOk, AttachmentsOk, SnapshotsOk, LeasesOk, RefsOk, ActiveOk, ActionsOk, ReleaseHeld;
    var db' := db.(services := db.services[s := db.services[s].(desired := desired)]);
    DesiredPointers(db, s, desired);
    ActivateCron(db.services, s, db'.services[s], db.runs, db.clock);
    if VolumesOk(db) && (desired.Running? ==> ReleaseHeld(db, s)) {
      DesiredSnapshots(db, s, desired);
      ResettleAttachments(db, db');
    }
  }

  lemma DesiredPointers(db: Db, s: nat, desired: Desired)
    requires ActiveOk(db.services, db.deployments) && RefsOk(db) && LeasesOk(db)
    requires ActionsOk(db.services, db.deployments, db.actions) && s < |db.services|
    ensures var db' := db.(services := db.services[s := db.services[s].(desired := desired)]);
            && ActiveOk(db'.services, db'.deployments) && RefsOk(db') && LeasesOk(db')
            && ActionsOk(db'.services, db'.deployments, db'.actions)
  {
  }

  lemma DesiredSnapshots(db: Db, s: nat, desired: Desired)
    requires SnapshotsOk(db) && s < |db.services| && (desired.Running? ==> ReleaseHeld(db, s))
    ensures SnapshotsOk(db.(services := db.services[s := db.services[s].(desired := desired)]))
  {
  }

  lemma RestartHolds(db: Db, a: nat)
    requires VolumesOk(db) && a < |db.actions| && Restarts(db.actions[a]) && db.actions[a].service < |db.services|
    ensures ReleaseHeld(db, db.actions[a].service)
  {
  }

  lemma ReportActionInv(db: Db, a: nat, token: nat, done: bool)
    requires Inv(db)
    ensures Inv(ReportAction(db, a, token, done, db.clock).db)
    ensures VolumesOk(db) ==> VolumesOk(ReportAction(db, a, token, done, db.clock).db)
  {
    hide Inv, VolumesOk;
    var after := ReportAction(db, a, token, done, db.clock);
    if after.db != db {
      var settled := db.(actions := after.db.actions);
      SettleInv(db, settled);
      if VolumesOk(db) && Restarts(db.actions[a]) && db.actions[a].service < |db.services| {
        RestartHolds(db, a);
      }
      if settled != after.db {
        var s := db.actions[a].service;
        DesiredInv(settled, s, after.db.services[s].desired);
      }
    }
  }
}
