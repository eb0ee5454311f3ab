/** The durable tables of the control plane and one function for each transaction on them.

    A table is a sequence of rows in creation order and a row's identity is its position, so a
    fresh identity is the length of the table.  Every function returns the tables after the
    transaction and the reply to its caller; an error leaves the tables as they were, because
    the transaction is rolled back.  `now` is the time of the transaction. */
module StoreModel {
  import opened Common
  import opened Leases

  /** A volume's identity.  Its runtime name is injective in it: `Created` volumes are named
      after their own row, `Derived` ones after the service they were made for. */
  datatype VolumeId = Created(number: nat) | Derived(service: nat)

  datatype Scope = Scope(project: nat, environment: string)
  datatype Volume = Volume(scope: Scope, managed: bool)
  datatype Attachment = Attachment(service: nat, mount: string)

  datatype Kind = Http | Postgres | Redis | MySql | Mongo
  datatype Workload = Web | Worker | Cron
  datatype Desired = Running | Stopped

  datatype Settings = Settings(volume: Option<VolumeId>, mount: string, port: nat)

  datatype Service = Service(
    scope: Scope, kind: Kind, workload: Workload, settings: Settings, activeId: Option<nat>,
    desired: Desired, schedule: string, nextRun: Option<Time>)

  datatype Stage = Pulling | Predeploy | Starting | Checking | Routing
  datatype Status = Queued | Working(stage: Stage) | Active | Failed | Superseded

  /** What a client asks to deploy, and the content its idempotency key is compared on.  The
      image that a data template pins is named by the template's kind. */
  datatype Image = Pinned(kind: Kind) | Reference(name: string)
  datatype Spec = Spec(image: Image, port: nat, healthPath: string)
  datatype Payload = Payload(spec: Spec, command: Option<string>)

  datatype Deployment = Deployment(
    service: nat, settings: Settings, key: string, payload: Payload, status: Status, lease: Lease,
    cancelRequested: bool)

  datatype TaskStatus = Waiting | Executing | Succeeded | Broken
  datatype ActionKind = Start | Stop | Restart | Backup | Restore
  datatype Action = Action(service: nat, kind: ActionKind, status: TaskStatus, lease: Lease)
  datatype CronRun = CronRun(service: nat, deployment: nat, scheduledFor: Time, status: TaskStatus, lease: Lease)

  datatype Db = Db(
    services: seq<Service>, deployments: seq<Deployment>, actions: seq<Action>, runs: seq<CronRun>,
    volumes: map<VolumeId, Volume>, attachments: map<VolumeId, Attachment>, volumesCreated: nat,
    lastToken: nat, clock: Time)

  datatype Error =
    | NotFound | Conflict | Invalid | NoSchedule | PinnedRelease | Busy | QueueFull | Unresolved
    | Finished | Managed | Attached | WrongScope | StillRunning | NoRelease | VolumeChanged | Immovable

  datatype Outcome<+T> = Outcome(db: Db, reply: Result<T, Error>)

  /** The work handed to the agent.  `previous` is the release to fall back to. */
  datatype Work =
    | DeploymentWork(token: nat, deployment: nat, previous: Option<nat>)
    | ActionWork(token: nat, action: nat, release: nat)
    | CronWork(token: nat, run: nat, release: nat)

  /** The stages an agent may report; `LogsOnly` is the report without a stage. */
  datatype Reported = LogsOnly | Progress(stage: Stage) | Activated | Failure

  function Empty(clock: Time): Db {
    Db([], [], [], [], map[], map[], 0, 0, clock)
  }

  /******* Status *******/

  predicate Terminal(status: Status) {
    status.Active? || status.Failed? || status.Superseded?
  }

  predicate Pending(status: TaskStatus) {
    status.Waiting? || status.Executing?
  }

  predicate IsData(kind: Kind) {
    !kind.Http?
  }

  /** Whether the service has a deployment, an action or a cron run that is not finished. */
  predicate DeploymentPending(deployments: seq<Deployment>, s: nat) {
    exists i :: 0 <= i < |deployments| && deployments[i].service == s && !Terminal(deployments[i].status)
  }

  predicate ActionPending(actions: seq<Action>, s: nat) {
    exists i :: 0 <= i < |actions| && actions[i].service == s && Pending(actions[i].status)
  }

  predicate RunPending(runs: seq<CronRun>, s: nat) {
    exists i :: 0 <= i < |runs| && runs[i].service == s && Pending(runs[i].status)
  }

  predicate HasWork(db: Db, s: nat) {
    DeploymentPending(db.deployments, s) || ActionPending(db.actions, s) || RunPending(db.runs, s)
  }

  predicate Released(service: Service) {
    service.activeId.Some? && service.desired.Running?
  }

  predicate HasVolume(attachments: map<VolumeId, Attachment>, s: nat) {
    exists v :: v in attachments && attachments[v].service == s
  }

  /******* Creation *******/

  function NewService(scope: Scope, kind: Kind, workload: Workload, settings: Settings): Service {
    Service(scope, kind, workload, settings, None, Running, "", None)
  }

  function CreateCompute(db: Db, scope: Scope, workload: Workload): Outcome<nat> {
    var service := NewService(scope, Http, workload, Settings(None, "", 80));
    Outcome(db.(services := db.services + [service]), Ok(|db.services|))
  }

  function CreateVolume(db: Db, scope: Scope): Outcome<VolumeId> {
    var v := Created(db.volumesCreated);
    Outcome(
      db.(volumes := db.volumes[v := Volume(scope, false)], volumesCreated := db.volumesCreated + 1),
      Ok(v))
  }

  function TemplatePort(kind: Kind): nat {
    match kind
    case Http => 80
    case Postgres => 5432
    case Redis => 6379
    case MySql => 3306
    case Mongo => 27017
  }

  function TemplateMount(kind: Kind): string {
    match kind
    case Http => ""
    case Postgres => "/var/lib/postgresql/data"
    case Redis => "/data"
    case MySql => "/var/lib/mysql"
    case Mongo => "/data/db"
  }

  function TemplateSpec(kind: Kind): Spec {
    Spec(Pinned(kind), TemplatePort(kind), "/")
  }

  /** The service row, its managed volume and the attachment, before the bootstrap release. */
  function AddDatabase(db: Db, scope: Scope, kind: Kind): Db {
    var s := |db.services|;
    var v := Derived(s);
    var settings := Settings(Some(v), TemplateMount(kind), TemplatePort(kind));
    db.(services := db.services + [NewService(scope, kind, Web, settings)],
        volumes := db.volumes[v := Volume(scope, true)],
        attachments := db.attachments[v := Attachment(s, TemplateMount(kind))])
  }

  function CreateDatabase(db: Db, scope: Scope, kind: Kind, now: Time): Outcome<nat> {
    if !IsData(kind) then
      Outcome(db, Err(Invalid))
    else
      var s := |db.services|;
      var queued := Enqueue(AddDatabase(db, scope, kind), s, TemplateSpec(kind), None, "database-bootstrap", true, true, now);
      if queued.reply.Ok? then Outcome(queued.db, Ok(s)) else Outcome(db, Err(queued.reply.error))
  }

  /******* Volumes *******/

  function AttachVolume(db: Db, v: VolumeId, s: nat, mount: string, valid: bool): Outcome<Unit> {
    if v !in db.volumes then
      Outcome(db, Err(NotFound))
    else if db.volumes[v].managed then
      Outcome(db, Err(Managed))
    else if v in db.attachments then
      Outcome(db, Err(Attached))
    else if s >= |db.services| then
      Outcome(db, Err(NotFound))
    else if db.services[s].scope != db.volumes[v].scope || IsData(db.services[s].kind) then
      Outcome(db, Err(WrongScope))
    else if Released(db.services[s]) then
      Outcome(db, Err(StillRunning))
    else if HasVolume(db.attachments, s) then
      Outcome(db, Err(Attached))
    else if HasWork(db, s) then
      Outcome(db, Err(Busy))
    else if !valid then
      Outcome(db, Err(Invalid))
    else
      var settings := db.services[s].settings.(volume := Some(v), mount := mount);
      Outcome(
        db.(attachments := db.attachments[v := Attachment(s, mount)],
            services := db.services[s := db.services[s].(settings := settings)]),
        Ok(Unit))
  }

  function DetachVolume(db: Db, v: VolumeId): Outcome<Unit> {
    if v !in db.volumes || v !in db.attachments then
      Outcome(db, Err(NotFound))
    else if db.volumes[v].managed then
      Outcome(db, Err(Managed))
    else
      var s := db.attachments[v].service;
      if s >= |db.services| then
        Outcome(db, Err(NotFound))
      else if Released(db.services[s]) then
        Outcome(db, Err(StillRunning))
      else if HasWork(db, s) then
        Outcome(db, Err(Busy))
      else
        var settings := db.services[s].settings.(volume := None, mount := "");
        Outcome(
          db.(attachments := db.attachments - {v},
              services := db.services[s := db.services[s].(settings := settings)]),
          Ok(Unit))
  }

  /** The settings form: it can only add a volume named after the service, and its upsert takes
      that volume from whichever service holds it. */
  function SaveSettings(db: Db, s: nat, mount: string, valid: bool): Outcome<Unit> {
    if s >= |db.services| then
      Outcome(db, Err(NotFound))
    else
      var current := db.services[s].settings;
      if current.mount != "" && mount != current.mount then
        Outcome(db, Err(Immovable))
      else if !valid then
        Outcome(db, Err(Invalid))
      else
        var settings := current.(mount := mount, volume := if mount != "" then Some(Derived(s)) else current.volume);
        var services := db.services[s := db.services[s].(settings := settings)];
        if settings.volume.None? then
          Outcome(db.(services := services), Ok(Unit))
        else if exists v :: v in db.attachments && v != Derived(s) && db.attachments[v].service == s then
          // One attachment per service: the insertion breaks a uniqueness constraint.
          Outcome(db, Err(Attached))
        else
          var v := Derived(s);
          Outcome(
            db.(services := services,
                volumes := if v in db.volumes then db.volumes else db.volumes[v := Volume(db.services[s].scope, false)],
                attachments := db.attachments[v := Attachment(s, mount)]),
            Ok(Unit))
  }

  /******* Queueing *******/

  /** The deployment that already carries this key. */
  function Prior(deployments: seq<Deployment>, s: nat, key: string): (found: Option<nat>)
    ensures found.Some? ==> found.value < |deployments|
                            && deployments[found.value].service == s && deployments[found.value].key == key
    ensures found.None? ==> forall i :: 0 <= i < |deployments| ==> deployments[i].service != s || deployments[i].key != key
  {
    if |deployments| == 0 then None
    else
      var last := |deployments| - 1;
      if deployments[last].service == s && deployments[last].key == key then Some(last)
      else Prior(deployments[..last], s, key)
  }

  function PendingCount(deployments: seq<Deployment>, s: nat): nat {
    if |deployments| == 0 then 0
    else
      var last := |deployments| - 1;
      PendingCount(deployments[..last], s)
      + if deployments[last].service == s && !Terminal(deployments[last].status) then 1 else 0
  }

  /** `command` is the start command a source build adds.  `valid` is what the settings validator
      says of it, `resolved` whether every variable of the service resolves. */
  function Enqueue(
    db: Db, s: nat, spec: Spec, command: Option<string>, key: string, valid: bool, resolved: bool, now: Time
  ): Outcome<nat> {
    if s >= |db.services| then
      Outcome(db, Err(NotFound))
    else
      var service := db.services[s];
      var prior := if key == "" then None else Prior(db.deployments, s, key);
      if command.Some? && !valid then
        Outcome(db, Err(Invalid))
      else if service.workload.Cron? && service.schedule == "" then
        Outcome(db, Err(NoSchedule))
      else if IsData(service.kind) && spec != TemplateSpec(service.kind) then
        Outcome(db, Err(PinnedRelease))
      else if |key| > 128 then
        Outcome(db, Err(Conflict))
      else if prior.Some? then
        Outcome(db, if db.deployments[prior.value].payload == Payload(spec, command) then Ok(prior.value) else Err(Conflict))
      else if ActionPending(db.actions, s) then
        Outcome(db, Err(Busy))
      else if PendingCount(db.deployments, s) >= 10 then
        Outcome(db, Err(QueueFull))
      else if !resolved then
        Outcome(db, Err(Unresolved))
      else
        var settings := service.settings.(port := spec.port);
        var row := Deployment(s, settings, key, Payload(spec, command), Queued, Unclaimed(now), false);
        Outcome(
          db.(services := db.services[s := service.(settings := settings)], deployments := db.deployments + [row]),
          Ok(|db.deployments|))
  }

  function EnqueueAction(db: Db, s: nat, kind: ActionKind, backupExists: bool, now: Time): Outcome<nat> {
    if s >= |db.services| then
      Outcome(db, Err(NotFound))
    else
      var service := db.services[s];
      if service.activeId.None? then
        Outcome(db, Err(NoRelease))
      else if service.activeId.value >= |db.deployments| then
        Outcome(db, Err(NotFound))
      else
        var release := db.deployments[service.activeId.value];
        if (kind.Start? || kind.Restart?)
           && (service.settings.volume != release.settings.volume || service.settings.mount != release.settings.mount)
        then
          Outcome(db, Err(VolumeChanged))
        else if (kind.Backup? || kind.Restore?) && !CanBackUp(service) then
          Outcome(db, Err(Invalid))
        else if kind.Restore? && !backupExists then
          Outcome(db, Err(NotFound))
        else if HasWork(db, s) then
          Outcome(db, Err(Busy))
        else
          Outcome(db.(actions := db.actions + [Action(s, kind, Waiting, Unclaimed(now))]), Ok(|db.actions|))
  }

  predicate CanBackUp(service: Service) {
    || ((service.kind.Postgres? || service.kind.MySql? || service.kind.Mongo?) && service.desired.Running?)
    || ((service.kind.Http? || service.kind.Redis?) && service.settings.volume.Some? && service.desired.Stopped?)
  }

  /** `next` is the first occurrence of the schedule after now, if the schedule is well formed. */
  function SaveCronSchedule(db: Db, s: nat, schedule: string, next: Option<Time>): Outcome<Unit> {
    if schedule == "" || next.None? then
      Outcome(db, Err(Invalid))
    else if s >= |db.services| || !db.services[s].workload.Cron? then
      Outcome(db, Err(NotFound))
    else
      Outcome(
        db.(services := db.services[s := db.services[s].(schedule := schedule, nextRun := next)]),
        Ok(Unit))
  }

  function Cancelled(row: Deployment): Deployment {
    row.(cancelRequested := true,
         status := if row.status.Queued? && row.lease.attempt == 0 then Failed else row.status)
  }

  function Cancel(db: Db, d: nat): Outcome<Unit> {
    if d >= |db.deployments| || Terminal(db.deployments[d].status) then
      Outcome(db, Err(Conflict))
    else
      Outcome(db.(deployments := db.deployments[d := Cancelled(db.deployments[d])]), Ok(Unit))
  }

  /******* Claiming *******/

  function ExpireDeployment(row: Deployment, now: Time): Deployment {
    if !Terminal(row.status) && Exhausted(row.lease, now) then row.(status := Failed) else row
  }

  function ExpireAction(row: Action, now: Time): Action {
    if Pending(row.status) && Exhausted(row.lease, now) then row.(status := Broken) else row
  }

  function ExpireRun(row: CronRun, now: Time): CronRun {
    if Pending(row.status) && Exhausted(row.lease, now) then row.(status := Broken) else row
  }

  function SweepDeployments(rows: seq<Deployment>, now: Time): (swept: seq<Deployment>) {
    seq(|rows|, i requires 0 <= i < |rows| => ExpireDeployment(rows[i], now))
  }

  function SweepActions(rows: seq<Action>, now: Time): seq<Action> {
    seq(|rows|, i requires 0 <= i < |rows| => ExpireAction(rows[i], now))
  }

  function SweepRuns(rows: seq<CronRun>, now: Time): seq<CronRun> {
    seq(|rows|, i requires 0 <= i < |rows| => ExpireRun(rows[i], now))
  }

  function Sweep(db: Db, now: Time): Db {
    db.(deployments := SweepDeployments(db.deployments, now),
        actions := SweepActions(db.actions, now),
        runs := SweepRuns(db.runs, now))
  }

  predicate ActionReady(actions: seq<Action>, i: nat, now: Time)
    requires i < |actions|
  {
    Pending(actions[i].status) && Due(actions[i].lease, now)
  }

  /** A deployment is ready when it is due and nothing older of its service is unfinished. */
  predicate DeploymentReady(deployments: seq<Deployment>, i: nat, now: Time)
    requires i < |deployments|
  {
    && !Terminal(deployments[i].status)
    && Due(deployments[i].lease, now)
    && forall j :: 0 <= j < i && deployments[j].service == deployments[i].service ==> Terminal(deployments[j].status)
  }

  predicate RunReady(runs: seq<CronRun>, i: nat, now: Time)
    requires i < |runs|
  {
    Pending(runs[i].status) && Due(runs[i].lease, now)
  }

  predicate ServiceReady(services: seq<Service>, runs: seq<CronRun>, s: nat, now: Time)
    requires s < |services|
  {
    var service := services[s];
    && service.workload.Cron? && Released(service) && service.schedule != ""
    && service.nextRun.Some? && service.nextRun.value <= now
    && !RunPending(runs, s)
  }

  /** The oldest ready action. */
  function FirstAction(actions: seq<Action>, now: Time, from: nat := 0): (found: Option<nat>)
    requires from <= |actions|
    ensures found.Some? ==> from <= found.value < |actions| && ActionReady(actions, found.value, now)
                            && forall j :: from <= j < found.value ==> !ActionReady(actions, j, now)
    ensures found.None? ==> forall j :: from <= j < |actions| ==> !ActionReady(actions, j, now)
    decreases |actions| - from
  {
    if from == |actions| then None
    else if ActionReady(actions, from, now) then Some(from)
    else FirstAction(actions, now, from + 1)
  }

  /** The oldest ready deployment. */
  function FirstDeployment(deployments: seq<Deployment>, now: Time, from: nat := 0): (found: Option<nat>)
    requires from <= |deployments|
    ensures found.Some? ==> from <= found.value < |deployments| && DeploymentReady(deployments, found.value, now)
                            && forall j :: from <= j < found.value ==> !DeploymentReady(deployments, j, now)
    ensures found.None? ==> forall j :: from <= j < |deployments| ==> !DeploymentReady(deployments, j, now)
    decreases |deployments| - from
  {
    if from == |deployments| then None
    else if DeploymentReady(deployments, from, now) then Some(from)
    else FirstDeployment(deployments, now, from + 1)
  }

  /** The ready run that was scheduled earliest; the older row wins a tie. */
  function EarliestRun(runs: seq<CronRun>, now: Time, n: nat): (found: Option<nat>)
    requires n <= |runs|
    ensures found.Some? ==> found.value < n && RunReady(runs, found.value, now)
    ensures found.Some? ==> forall j :: 0 <= j < n && RunReady(runs, j, now) ==>
                                          runs[found.value].scheduledFor <= runs[j].scheduledFor
    ensures found.None? ==> forall j :: 0 <= j < n ==> !RunReady(runs, j, now)
  {
    if n == 0 then None
    else
      var best := EarliestRun(runs, now, n - 1);
      if RunReady(runs, n - 1, now) && (best.None? || runs[n - 1].scheduledFor < runs[best.value].scheduledFor)
      then Some(n - 1) else best
  }

  /** The ready cron service whose occurrence is earliest; the older row wins a tie. */
  function EarliestService(services: seq<Service>, runs: seq<CronRun>, now: Time, n: nat): (found: Option<nat>)
    requires n <= |services|
    ensures found.Some? ==> found.value < n && ServiceReady(services, runs, found.value, now)
    ensures found.Some? ==> forall j :: 0 <= j < n && ServiceReady(services, runs, j, now) ==>
                                          services[found.value].nextRun.value <= services[j].nextRun.value
    ensures found.None? ==> forall j :: 0 <= j < n ==> !ServiceReady(services, runs, j, now)
  {
    if n == 0 then None
    else
      var best := EarliestService(services, runs, now, n - 1);
      if ServiceReady(services, runs, n - 1, now)
         && (best.None? || services[n - 1].nextRun.value < services[best.value].nextRun.value)
      then Some(n - 1) else best
  }

  /** `next` is the first occurrence after now of the schedule of the cron service that is due. */
  function Claim(db: Db, now: Time, next: Time): Outcome<Option<Work>> {
    var swept := Sweep(db, now);
    var a := FirstAction(swept.actions, now);
    var d := FirstDeployment(swept.deployments, now);
    if a.Some? then ClaimAction(db, swept, a.value, now)
    else if d.Some? then ClaimDeployment(db, swept, d.value, now)
    else ClaimCron(db, swept, now, next)
  }

  function ClaimAction(db: Db, swept: Db, i: nat, now: Time): Outcome<Option<Work>>
    requires i < |swept.actions|
  {
    var row := swept.actions[i];
    var token := swept.lastToken + 1;
    if row.service >= |swept.services| || swept.services[row.service].activeId.None? then
      Outcome(db, Err(NotFound))
    else if !MayStart(row.lease, now) then
      Outcome(db, Err(Conflict))
    else
      Outcome(
        swept.(actions := swept.actions[i := row.(status := Executing, lease := NextAttempt(row.lease, token, now))],
               lastToken := token),
        Ok(Some(ActionWork(token, i, swept.services[row.service].activeId.value))))
  }

  function ClaimDeployment(db: Db, swept: Db, i: nat, now: Time): Outcome<Option<Work>>
    requires i < |swept.deployments|
  {
    var row := swept.deployments[i];
    var token := swept.lastToken + 1;
    if row.service >= |swept.services| then
      Outcome(db, Err(NotFound))
    else if !MayStart(row.lease, now) then
      Outcome(db, Err(Conflict))
    else
      var service := swept.services[row.service];
      Outcome(
        swept.(deployments := swept.deployments[i := row.(lease := NextAttempt(row.lease, token, now))],
               lastToken := token),
        Ok(Some(DeploymentWork(token, i, if Released(service) then service.activeId else None))))
  }

  function ClaimCron(db: Db, swept: Db, now: Time, next: Time): Outcome<Option<Work>> {
    var r := EarliestRun(swept.runs, now, |swept.runs|);
    var s := EarliestService(swept.services, swept.runs, now, |swept.services|);
    if r.Some? then
      StartRun(db, swept, r.value, now)
    else if s.Some? then
      var added := AddRun(swept, s.value, now, next);
      StartRun(db, added, |swept.runs|, now)
    else
      Outcome(swept, Ok(None))
  }

  function AddRun(db: Db, s: nat, now: Time, next: Time): Db
    requires s < |db.services| && db.services[s].nextRun.Some? && db.services[s].activeId.Some?
  {
    var service := db.services[s];
    var run := CronRun(s, service.activeId.value, service.nextRun.value, Waiting, Unclaimed(now));
    db.(runs := db.runs + [run], services := db.services[s := service.(nextRun := Some(next))])
  }

  function StartRun(db: Db, ready: Db, i: nat, now: Time): Outcome<Option<Work>>
    requires i < |ready.runs|
  {
    var row := ready.runs[i];
    var token := ready.lastToken + 1;
    if row.service >= |ready.services| || row.deployment >= |ready.deployments| then
      Outcome(db, Err(NotFound))
    else if !MayStart(row.lease, now) then
      Outcome(db, Err(Conflict))
    else
      Outcome(
        ready.(runs := ready.runs[i := row.(status := Executing, lease := NextAttempt(row.lease, token, now))],
               lastToken := token),
        Ok(Some(CronWork(token, i, row.deployment))))
  }

  /******* Reporting *******/

  function Target(reported: Reported): Status
    requires !reported.LogsOnly?
  {
    match reported
    case Progress(stage) => Working(stage)
    case Activated => Active
    case Failure => Failed
  }

  function Retire(deployments: seq<Deployment>, release: Option<nat>): seq<Deployment> {
    if release.Some? && release.value < |deployments| && deployments[release.value].status.Active?
    then deployments[release.value := deployments[release.value].(status := Superseded)]
    else deployments
  }

  function Report(db: Db, d: nat, token: nat, reported: Reported, now: Time): Outcome<Unit> {
    if d >= |db.deployments| then
      Outcome(db, Err(NotFound))
    else if reported.LogsOnly? then
      Outcome(db, Ok(Unit))
    else
      var row := db.deployments[d];
      if !Holds(row.lease, token, now) || (reported.Activated? && row.cancelRequested) then
        Outcome(db, Err(Conflict))
      else if Terminal(row.status) then
        Outcome(db, if row.status == Target(reported) then Ok(Unit) else Err(Finished))
      else if !reported.Activated? then
        Outcome(db.(deployments := db.deployments[d := row.(status := Target(reported))]), Ok(Unit))
      else if row.service >= |db.services| then
        Outcome(db, Err(NotFound))
      else
        Outcome(Activate(db, d), Ok(Unit))
  }

  function Activate(db: Db, d: nat): Db
    requires d < |db.deployments| && db.deployments[d].service < |db.services|
  {
    var row := db.deployments[d];
    var service := db.services[row.service];
    db.(deployments := Retire(db.deployments, service.activeId)[d := row.(status := Active)],
        services := db.services[row.service := service.(activeId := Some(d), desired := Running)])
  }

  function ReportAction(db: Db, a: nat, token: nat, done: bool, now: Time): Outcome<Unit> {
    if a >= |db.actions| then
      Outcome(db, Err(NotFound))
    else
      var row := db.actions[a];
      var status := if done then Succeeded else Broken;
      if !Holds(row.lease, token, now) then
        Outcome(db, Err(Conflict))
      else if !Pending(row.status) then
        Outcome(db, if row.status == status then Ok(Unit) else Err(Finished))
      else
        var actions := db.actions[a := row.(status := status)];
        if done && (row.kind.Start? || row.kind.Stop? || row.kind.Restart?) && row.service < |db.services| then
          var desired := if row.kind.Stop? then Stopped else Running;
          Outcome(
            db.(actions := actions,
                services := db.services[row.service := db.services[row.service].(desired := desired)]),
            Ok(Unit))
        else
          Outcome(db.(actions := actions), Ok(Unit))
  }

  function ReportCronRun(db: Db, r: nat, token: nat, succeeded: bool, now: Time): Outcome<Unit> {
    if r >= |db.runs| then
      Outcome(db, Err(NotFound))
    else
      var row := db.runs[r];
      var status := if succeeded then Succeeded else Broken;
      if !Pending(row.status) then
        Outcome(db, if row.status == status then Ok(Unit) else Err(Conflict))
      else if !Holds(row.lease, token, now) then
        Outcome(db, Err(Conflict))
      else
        Outcome(db.(runs := db.runs[r := row.(status := status)]), Ok(Unit))
  }
}
