/** When each request to the store is accepted, and what it then leaves, told from the rows. */
module StoreExactly {
  import opened Common
  import opened Leases
  import opened StoreModel
  import opened StoreInvariant
  import opened StoreRuns
  import opened StoreBounds
  import opened StoreAttempts
  import opened StoreScopes

  /** Nothing of service `s` is waiting or under way. */
  predicate Free(db: Db, s: nat) {
    && (forall d :: 0 <= d < |db.deployments| && db.deployments[d].service == s ==> !Underway(db.deployments[d].status))
    && NoAction(db, s)
    && (forall r :: 0 <= r < |db.runs| && db.runs[r].service == s ==> !Unfinished(db.runs[r].status))
  }

  predicate NoAction(db: Db, s: nat) {
    forall a :: 0 <= a < |db.actions| && db.actions[a].service == s ==> !Unfinished(db.actions[a].status)
  }

  predicate Serving(service: Service) {
    service.activeId.Some? && service.desired.Running?
  }

  lemma FreeIsIdle(db: Db, s: nat)
    ensures Free(db, s) <==> !HasWork(db, s)
    ensures NoAction(db, s) <==> !ActionPending(db.actions, s)
  {
  }

  /******* Deployments *******/

  /** The unfinished deployments of a service. */
  function Open(db: Db, s: nat): set<nat> {
    set d | 0 <= d < |db.deployments| && db.deployments[d].service == s && Underway(db.deployments[d].status)
  }

  predicate KeyTaken(db: Db, s: nat, key: string) {
    exists d :: 0 <= d < |db.deployments| && db.deployments[d].service == s && db.deployments[d].key == key
  }

  function Port(kind: Kind): nat {
    match kind
    case Http => 80
    case Postgres => 5432
    case Redis => 6379
    case MySql => 3306
    case Mongo => 27017
  }

  /** The one release that a database may have. */
  predicate Pins(kind: Kind, spec: Spec) {
    spec == Spec(Pinned(kind), Port(kind), "/")
  }

  /** What a request must be whether it is new or not. */
  predicate Proper(db: Db, s: nat, spec: Spec, command: Option<string>, key: string, valid: bool) {
    && s < |db.services|
    && (command.Some? ==> valid)
    && (db.services[s].workload.Cron? ==> db.services[s].schedule != "")
    && (!db.services[s].kind.Http? ==> Pins(db.services[s].kind, spec))
    && |key| <= 128
  }

  /** A request adds a deployment exactly if the service is there and complete, the release is one it
      may have, its key is short and new, no action and fewer than ten deployments are unfinished, and
      every variable resolves.  With a key that is taken it gets that deployment exactly if it is
      proper and the content is the same, and changes nothing. */
  lemma EnqueueExactly(db: Db, s: nat, spec: Spec, command: Option<string>, key: string, valid: bool, resolved: bool)
    requires KeysOk(db.deployments)
    ensures var after := Enqueue(db, s, spec, command, key, valid, resolved, db.clock);
            && (after.reply == Ok(|db.deployments|) <==>
                  && Proper(db, s, spec, command, key, valid) && (key == "" || !KeyTaken(db, s, key))
                  && NoAction(db, s) && |Open(db, s)| < 10 && resolved)
            && (after.reply != Ok(|db.deployments|) ==> after.db == db)
            && forall d: nat :: d < |db.deployments| ==>
                                  (after.reply == Ok(d) <==>
                                   && Proper(db, s, spec, command, key, valid) && key != ""
                                   && db.deployments[d].service == s && db.deployments[d].key == key
                                   && db.deployments[d].payload == Payload(spec, command))
  {
    hide PendingCount, HasWork, NoAction, ActionPending, Prior;
    FreeIsIdle(db, s);
    OpenIsPending(db, s);
    PriorIsTheOne(db, s, key);
  }

  lemma PriorIsTheOne(db: Db, s: nat, key: string)
    requires KeysOk(db.deployments)
    ensures Prior(db.deployments, s, key).Some? <==> KeyTaken(db, s, key)
    ensures forall d: nat :: d < |db.deployments| && db.deployments[d].service == s && db.deployments[d].key == key && key != "" ==>
                               Prior(db.deployments, s, key) == Some(d)
  {
    hide Prior;
    forall d: nat | d < |db.deployments| && db.deployments[d].service == s && db.deployments[d].key == key && key != ""
      ensures Prior(db.deployments, s, key) == Some(d)
    {
      var found := Prior(db.deployments, s, key).value;
      assert SameQueue(db.deployments, found, d) && SameQueue(db.deployments, d, found);
    }
  }

  lemma OpenIsPending(db: Db, s: nat)
    ensures PendingCount(db.deployments, s) == |Open(db, s)|
  {
    CountIsCardinality(db.deployments, s);
    assert Open(db, s) == PendingDeployments(db.deployments, s);
  }

  /** What an accepted request adds: a row with the service's settings, and with the port asked for,
      which the service takes over. */
  lemma EnqueuedExactly(db: Db, s: nat, spec: Spec, command: Option<string>, key: string, valid: bool, resolved: bool)
    requires s < |db.services| && Enqueue(db, s, spec, command, key, valid, resolved, db.clock).reply == Ok(|db.deployments|)
    ensures var after := Enqueue(db, s, spec, command, key, valid, resolved, db.clock).db;
            var settings := db.services[s].settings;
            after == db.(
              services := db.services[s := db.services[s].(settings := Settings(settings.volume, settings.mount, spec.port))],
              deployments := db.deployments + [Deployment(
                s, Settings(settings.volume, settings.mount, spec.port), key, Payload(spec, command), Queued,
                Lease(0, 0, None, db.clock), false)])
  {
    hide PendingCount, ActionPending;
    var after := Enqueue(db, s, spec, command, key, valid, resolved, db.clock).db;
    assert after.deployments == db.deployments + [Deployment(
                s, db.services[s].settings.(port := spec.port), key, Payload(spec, command), Queued,
                Lease(0, 0, None, db.clock), false)];
    assert after.services == db.services[s := db.services[s].(settings := db.services[s].settings.(port := spec.port))];
  }

  /** A deployment can be asked to stop exactly while it is unfinished.  One that was never handed out
      fails at once; any other goes on, marked, until its agent notices. */
  lemma CancelExactly(db: Db, d: nat)
    requires LeasesOk(db)
    ensures var after := Cancel(db, d);
            && (after.reply.Ok? <==> d < |db.deployments| && Underway(db.deployments[d].status))
            && (after.reply.Err? ==> after.db == db)
            && (after.reply.Ok? ==>
                  after.db == db.(deployments := db.deployments[d := db.deployments[d].(
                    cancelRequested := true, status := if db.deployments[d].lease.attempt == 0 then Failed else db.deployments[d].status)]))
  {
  }

  /** The token is that of the job's latest attempt, and its time is not over. */
  predicate InForce(lease: Lease, token: nat, now: Time) {
    token != 0 && lease.token == token && lease.deadline.Some? && now < lease.deadline.value
  }

  /** A report on a deployment is accepted exactly if it only brings logs, or is in force, activates
      nothing that was asked to stop, and is new or says again how the deployment ended. */
  lemma ReportExactly(db: Db, d: nat, token: nat, reported: Reported)
    requires RefsOk(db)
    ensures var after := Report(db, d, token, reported, db.clock);
            && (after.reply.Ok? <==>
                  && d < |db.deployments|
                  && (reported.LogsOnly? ||
                      (&& InForce(db.deployments[d].lease, token, db.clock)
                       && !(reported.Activated? && db.deployments[d].cancelRequested)
                       && (|| Underway(db.deployments[d].status)
                           || (reported.Activated? && db.deployments[d].status.Active?)
                           || (reported.Failure? && db.deployments[d].status.Failed?)))))
            && (after.db != db ==> d < |db.deployments| && Underway(db.deployments[d].status) && after.reply.Ok?)
            && (after.reply.Ok? && d < |db.deployments| && Underway(db.deployments[d].status) && !reported.Activated? ==>
                  after.db.deployments == if reported.LogsOnly? then db.deployments
                  else db.deployments[d := db.deployments[d].(
                    status := if reported.Failure? then Failed else Working(reported.stage))])
  {
  }

  /******* Actions *******/

  /** An action is accepted exactly if the service has a release and nothing unfinished, and mounts what
      that release mounts for a start or restart; a backup or restore needs a running PostgreSQL, MySQL
      or MongoDB, or a stopped application or Redis with a volume, and a restore its backup. */
  lemma EnqueueActionExactly(db: Db, s: nat, kind: ActionKind, backupExists: bool)
    requires ActiveOk(db.services, db.deployments)
    ensures var after := EnqueueAction(db, s, kind, backupExists, db.clock);
            && (after.reply.Ok? <==>
                  && s < |db.services| && db.services[s].activeId.Some? && Free(db, s)
                  && (kind.Start? || kind.Restart? ==>
                        var release := db.deployments[db.services[s].activeId.value].settings;
                        db.services[s].settings.volume == release.volume && db.services[s].settings.mount == release.mount)
                  && (kind.Backup? || kind.Restore? ==>
                        match db.services[s].kind
                        case Postgres => db.services[s].desired.Running?
                        case MySql => db.services[s].desired.Running?
                        case Mongo => db.services[s].desired.Running?
                        case Http => db.services[s].desired.Stopped? && db.services[s].settings.volume.Some?
                        case Redis => db.services[s].desired.Stopped? && db.services[s].settings.volume.Some?)
                  && (kind.Restore? ==> backupExists))
            && (after.reply.Ok? ==>
                  && after.reply == Ok(|db.actions|)
                  && after.db == db.(actions := db.actions + [Action(s, kind, Waiting, Lease(0, 0, None, db.clock))]))
            && (after.reply.Err? ==> after.db == db)
  {
    hide HasWork;
    FreeIsIdle(db, s);
  }

  /** A report on an action is accepted exactly if it is in force and the action is unfinished or ended
      that way; the action then has succeeded or not as was said, and a stop that succeeded leaves its
      service stopped, a start or restart running. */
  lemma ReportActionExactly(db: Db, a: nat, token: nat, done: bool)
    requires RefsOk(db)
    ensures var after := ReportAction(db, a, token, done, db.clock);
            && (after.reply.Ok? <==>
                  && a < |db.actions| && InForce(db.actions[a].lease, token, db.clock)
                  && (|| Unfinished(db.actions[a].status)
                      || (done && db.actions[a].status.Succeeded?) || (!done && db.actions[a].status.Broken?)))
            && (after.reply.Err? ==> after.db == db)
            && (after.reply.Ok? && Unfinished(db.actions[a].status) ==>
                  var row := db.actions[a];
                  after.db == db.(
                    actions := db.actions[a := row.(status := if done then Succeeded else Broken)],
                    services := if !done || row.kind.Backup? || row.kind.Restore? then db.services
                    else db.services[row.service := db.services[row.service].(
                      desired := if row.kind.Stop? then Stopped else Running)]))
            && (after.reply.Ok? && !Unfinished(db.actions[a].status) ==> after.db == db)
  {
  }

  /******* Cron *******/

  lemma ReportRunExactly(db: Db, r: nat, token: nat, succeeded: bool)
    ensures var after := ReportCronRun(db, r, token, succeeded, db.clock);
            && (after.reply.Ok? <==>
                  && r < |db.runs|
                  && (|| (Unfinished(db.runs[r].status) && InForce(db.runs[r].lease, token, db.clock))
                      || (succeeded && db.runs[r].status.Succeeded?) || (!succeeded && db.runs[r].status.Broken?)))
            && (after.reply.Err? ==> after.db == db)
            && (after.reply.Ok? ==>
                  after.db == db.(runs := db.runs[r := db.runs[r].(status := if succeeded then Succeeded else Broken)]))
  {
  }

  /** A schedule can be given to a cron service only, and must be well formed. */
  lemma SaveCronScheduleExactly(db: Db, s: nat, schedule: string, next: Option<Time>)
    ensures var after := SaveCronSchedule(db, s, schedule, next);
            && (after.reply.Ok? <==> s < |db.services| && db.services[s].workload.Cron? && schedule != "" && next.Some?)
            && (after.reply.Err? ==> after.db == db)
            && (after.reply.Ok? ==>
                  after.db == db.(services := db.services[s := db.services[s].(schedule := schedule, nextRun := next)]))
  {
  }

  /** A cron service is due exactly at its occurrence, while it is released, meant to run and not
      running already. */
  lemma ServiceReadyExactly(db: Db, s: nat)
    requires s < |db.services|
    ensures ServiceReady(db.services, db.runs, s, db.clock) <==>
              && db.services[s].workload.Cron? && Serving(db.services[s]) && db.services[s].schedule != ""
              && db.services[s].nextRun.Some? && db.services[s].nextRun.value <= db.clock
              && forall r :: 0 <= r < |db.runs| && db.runs[r].service == s ==> !Unfinished(db.runs[r].status)
  {
  }

  /******* Volumes *******/

  /** A volume can be attached exactly if it is free and nobody's own, and the service an application of
      its project and environment that does not run, has nothing unfinished and no other volume. */
  lemma AttachExactly(db: Db, v: VolumeId, s: nat, mount: string, valid: bool)
    ensures var after := AttachVolume(db, v, s, mount, valid);
            && (after.reply.Ok? <==>
                  && v in db.volumes && !db.volumes[v].managed && v !in db.attachments
                  && s < |db.services| && db.services[s].kind.Http? && db.services[s].scope == db.volumes[v].scope
                  && !Serving(db.services[s]) && Free(db, s) && valid
                  && forall w :: w in db.attachments ==> db.attachments[w].service != s)
            && (after.reply.Err? ==> after.db == db)
            && (after.reply.Ok? ==>
                  after.db == db.(
                    attachments := db.attachments[v := Attachment(s, mount)],
                    services := db.services[s := db.services[s].(settings := Settings(Some(v), mount, db.services[s].settings.port))]))
  {
    hide HasWork;
    FreeIsIdle(db, s);
  }

  lemma DetachExactly(db: Db, v: VolumeId)
    requires AttachmentsOk(db)
    ensures var after := DetachVolume(db, v);
            && (after.reply.Ok? <==>
                  && v in db.attachments && !db.volumes[v].managed
                  && !Serving(db.services[db.attachments[v].service]) && Free(db, db.attachments[v].service))
            && (after.reply.Err? ==> after.db == db)
            && (after.reply.Ok? ==>
                  var s := db.attachments[v].service;
                  after.db == db.(
                    attachments := db.attachments - {v},
                    services := db.services[s := db.services[s].(settings := Settings(None, "", db.services[s].settings.port))]))
  {
    hide HasWork;
    if v in db.attachments {
      FreeIsIdle(db, db.attachments[v].service);
    }
  }

  /** The settings form is accepted exactly if it keeps a mount path that is there, and the service has
      no other volume than the one named after it once it mounts anything.  It leaves the service
      mounting that volume, which it makes if need be. */
  lemma FormExactly(db: Db, s: nat, mount: string, valid: bool)
    ensures var after := SaveSettings(db, s, mount, valid);
            && (after.reply.Ok? <==>
                  && s < |db.services| && valid
                  && (db.services[s].settings.mount == "" || db.services[s].settings.mount == mount)
                  && (mount != "" || db.services[s].settings.volume.Some? ==>
                        forall v :: v in db.attachments && db.attachments[v].service == s ==> v == Derived(s)))
            && (after.reply.Err? ==> after.db == db)
            && (after.reply.Ok? ==>
                  var old' := db.services[s].settings;
                  var volume := if mount != "" then Some(Derived(s)) else old'.volume;
                  var services := db.services[s := db.services[s].(settings := Settings(volume, mount, old'.port))];
                  if volume.None? then after.db == db.(services := services)
                  else
                    && after.db == db.(services := services, volumes := after.db.volumes,
                                       attachments := db.attachments[Derived(s) := Attachment(s, mount)])
                    && after.db.volumes == if Derived(s) in db.volumes then db.volumes
                       else db.volumes[Derived(s) := Volume(db.services[s].scope, false)])
  {
  }

  /******* Creation *******/

  /** An application and a volume come alone and without anything attached. */
  lemma CreatedExactly(db: Db, scope: Scope, workload: Workload)
    ensures CreateCompute(db, scope, workload) == Outcome(
              db.(services := db.services + [Service(scope, Http, workload, Settings(None, "", 80), None, Running, "", None)]),
              Ok(|db.services|))
    ensures var after := CreateVolume(db, scope);
            && after.reply == Ok(Created(db.volumesCreated))
            && after.db == db.(volumes := after.db.volumes, volumesCreated := after.db.volumesCreated)
            && after.db.volumes == db.volumes[Created(db.volumesCreated) := Volume(scope, false)]
            && after.db.volumesCreated > db.volumesCreated
  {
  }

  /** A database comes as one: the service, its managed volume mounted where its engine keeps its data,
      and the queued release of its engine at its port. */
  lemma CreateDatabaseExactly(db: Db, scope: Scope, kind: Kind)
    requires RefsOk(db)
    ensures var after := CreateDatabase(db, scope, kind, db.clock);
            && (after.reply == Ok(|db.services|) <==> !kind.Http?)
            && (kind.Http? ==> after.reply.Err? && after.db == db)
            && (!kind.Http? ==>
                  var s, v := |db.services|, Derived(|db.services|);
                  var settings := Settings(Some(v), DataPath(kind), Port(kind));
                  after.db == db.(
                    services := db.services + [Service(scope, kind, Web, settings, None, Running, "", None)],
                    volumes := db.volumes[v := Volume(scope, true)],
                    attachments := db.attachments[v := Attachment(s, DataPath(kind))],
                    deployments := db.deployments + [Deployment(
                      s, settings, "database-bootstrap", Payload(Spec(Pinned(kind), Port(kind), "/"), None), Queued,
                      Lease(0, 0, None, db.clock), false)]))
  {
    hide PendingCount, HasWork, Prior, NoAction, ActionPending;
    if !kind.Http? {
      var made, s := AddDatabase(db, scope, kind), |db.services|;
      FreeIsIdle(made, s);
      NothingYet(made, s);
      var after := CreateDatabase(db, scope, kind, db.clock).db;
      assert after.services == db.services + [Service(
        scope, kind, Web, Settings(Some(Derived(s)), DataPath(kind), Port(kind)), None, Running, "", None)];
    }
  }

  /** A new service has no deployment and no action. */
  lemma NothingYet(db: Db, s: nat)
    requires forall d :: 0 <= d < |db.deployments| ==> db.deployments[d].service != s
    requires forall a :: 0 <= a < |db.actions| ==> db.actions[a].service != s
    ensures PendingCount(db.deployments, s) == 0 && NoAction(db, s)
    ensures Prior(db.deployments, s, "database-bootstrap").None?
  {
    hide PendingCount, Prior;
    OpenIsPending(db, s);
    assert Open(db, s) == {};
  }
}
