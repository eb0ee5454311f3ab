/** The build queue and its hand-over to the deployments (internal/builds/store.go): one function
    for each transaction. */
module BuildModel {
  import opened Common
  import opened Leases
  import StoreModel
  import StoreRuns

  const BUILD_WINDOW: Time := 2700 * SECOND
  const MAX_OPEN: nat := 10

  datatype Config = Config(
    repository: string, installation: nat, branch: string, startCommand: string, port: nat, healthPath: string, autoDeploy: bool)

  datatype BuildStatus = Queued | Building | Succeeded | Failed | Cancelled

  /** `deployment` is empty until the hand-over is recorded. */
  datatype Build = Build(
    service: nat, commit: string, config: Config, key: string, status: BuildStatus, image: string,
    deployment: Option<nat>, lease: Lease, cancelRequested: bool)

  /** `replies` remembers which deployments were ever returned for which build: a flush that is
      still under way may record any of them. */
  datatype Yard = Yard(
    builds: seq<Build>, deliveries: set<string>, sources: map<nat, Config>, lastToken: nat, replies: set<(nat, nat)>,
    db: StoreModel.Db)

  datatype BuildError = NotFound | Invalid | Conflict | QueueFull | Refused(reason: StoreModel.Error)

  datatype Outcome<+T> = Outcome(yard: Yard, reply: Result<T, BuildError>)

  function Idle(db: StoreModel.Db): Yard {
    Yard([], {}, map[], 0, {}, db)
  }

  predicate Open(status: BuildStatus) {
    status.Queued? || status.Building?
  }

  function OpenCount(builds: seq<Build>, s: nat): nat {
    if |builds| == 0 then 0
    else
      var last := builds[|builds| - 1];
      OpenCount(builds[..|builds| - 1], s) + if last.service == s && Open(last.status) then 1 else 0
  }

  /** The build of a service with this request key. */
  function Requested(builds: seq<Build>, s: nat, key: string): (found: Option<nat>)
    ensures found.Some? ==> found.value < |builds| && builds[found.value].service == s && builds[found.value].key == key
    ensures found.None? ==> forall i :: 0 <= i < |builds| ==> builds[i].service != s || builds[i].key != key
  {
    if |builds| == 0 then None
    else
      var last := |builds| - 1;
      if builds[last].service == s && builds[last].key == key then Some(last) else Requested(builds[..last], s, key)
  }

  function SaveSource(yard: Yard, s: nat, config: Config, valid: bool): Outcome<Unit> {
    if !valid then Outcome(yard, Err(Invalid))
    else if s >= |yard.db.services| then Outcome(yard, Err(NotFound))
    else Outcome(yard.(sources := yard.sources[s := config]), Ok(Unit))
  }

  function Enqueue(yard: Yard, s: nat, commit: string, validCommit: bool, key: string, config: Config, now: Time): Outcome<nat> {
    var prior := if key == "" then None else Requested(yard.builds, s, key);
    if !validCommit || |key| > 150 then Outcome(yard, Err(Invalid))
    else if s >= |yard.db.services| then Outcome(yard, Err(NotFound))
    else if prior.Some? then
      var build := yard.builds[prior.value];
      Outcome(yard, if build.commit == commit && build.config == config then Ok(prior.value) else Err(Conflict))
    else if OpenCount(yard.builds, s) >= MAX_OPEN then Outcome(yard, Err(QueueFull))
    else
      var build := Build(s, commit, config, key, Queued, "", None, Unclaimed(now), false);
      Outcome(yard.(builds := yard.builds + [build]), Ok(|yard.builds|))
  }

  /******* Deliveries *******/

  predicate Wants(sources: map<nat, Config>, s: nat, repository: string, branch: string, installation: nat) {
    && s in sources && sources[s].repository == repository && sources[s].branch == branch
    && sources[s].installation == installation && sources[s].autoDeploy
  }

  /** Builds for the first `n` services that follow the pushed branch; the first error counts. */
  function PushTo(
    yard: Yard, delivery: string, repository: string, branch: string, installation: nat, commit: string, validCommit: bool,
    now: Time, n: nat): Outcome<Unit>
  {
    if n == 0 then Outcome(yard, Ok(Unit))
    else
      var earlier := PushTo(yard, delivery, repository, branch, installation, commit, validCommit, now, n - 1);
      if earlier.reply.Err? || !Wants(yard.sources, n - 1, repository, branch, installation) then earlier
      else
        var queued := Enqueue(earlier.yard, n - 1, commit, validCommit, "webhook:" + delivery, yard.sources[n - 1], now);
        Outcome(queued.yard, if queued.reply.Ok? then Ok(Unit) else Err(queued.reply.error))
  }

  function Push(
    yard: Yard, delivery: string, repository: string, branch: string, installation: nat, commit: string, validCommit: bool,
    now: Time): Outcome<Unit>
  {
    if delivery in yard.deliveries then Outcome(yard, Ok(Unit))
    else
      var noted := yard.(deliveries := yard.deliveries + {delivery});
      var pushed := PushTo(noted, delivery, repository, branch, installation, commit, validCommit, now, |yard.db.services|);
      if pushed.reply.Ok? then pushed else Outcome(yard, pushed.reply)
  }

  /******* Attempts *******/

  function Expire(build: Build, now: Time): Build {
    if Open(build.status) && Exhausted(build.lease, now)
    then build.(status := if build.cancelRequested then Cancelled else Failed)
    else build
  }

  function Sweep(builds: seq<Build>, now: Time): (swept: seq<Build>)
    ensures |swept| == |builds|
  {
    seq(|builds|, i requires 0 <= i < |builds| => Expire(builds[i], now))
  }

  predicate Ready(build: Build, now: Time) {
    Open(build.status) && Due(build.lease, now)
  }

  function FirstReady(builds: seq<Build>, now: Time, from: nat := 0): (found: Option<nat>)
    requires from <= |builds|
    ensures found.Some? ==> from <= found.value < |builds| && Ready(builds[found.value], now)
                            && forall j :: from <= j < found.value ==> !Ready(builds[j], now)
    ensures found.None? ==> forall j :: from <= j < |builds| ==> !Ready(builds[j], now)
    decreases |builds| - from
  {
    if from == |builds| then None
    else if Ready(builds[from], now) then Some(from)
    else FirstReady(builds, now, from + 1)
  }

  function NextBuildAttempt(lease: Lease, token: nat, now: Time): Lease {
    NextAttempt(lease, token, now).(deadline := if lease.deadline.Some? then lease.deadline else Some(now + BUILD_WINDOW))
  }

  function Claim(yard: Yard, now: Time): Outcome<Option<(nat, nat)>> {
    var swept := Sweep(yard.builds, now);
    var i := FirstReady(swept, now);
    if i.None? then Outcome(yard.(builds := swept), Ok(None))
    else
      var build, token := swept[i.value], yard.lastToken + 1;
      var claimed := build.(status := Building, lease := NextBuildAttempt(build.lease, token, now));
      Outcome(yard.(builds := swept[i.value := claimed], lastToken := token), Ok(Some((i.value, token))))
  }

  function Report(yard: Yard, i: nat, token: nat, status: BuildStatus, image: string, valid: bool, now: Time): Outcome<Unit> {
    if !valid || status.Queued? then Outcome(yard, Err(Invalid))
    else if i >= |yard.builds| then Outcome(yard, Err(Conflict))
    else
      var build := yard.builds[i];
      if !Holds(build.lease, token, now) || !(Open(build.status) || build.status == status)
         || (build.cancelRequested && status.Succeeded?)
      then Outcome(yard, Err(Conflict))
      else
        var final := if build.cancelRequested && !status.Building? then Cancelled else status;
        Outcome(yard.(builds := yard.builds[i := build.(status := final, image := image)]), Ok(Unit))
  }

  function Cancel(yard: Yard, i: nat): Outcome<Unit> {
    if i >= |yard.builds| || !Open(yard.builds[i].status) then Outcome(yard, Err(Conflict))
    else
      var build := yard.builds[i];
      var status := if build.status.Queued? then Cancelled else build.status;
      Outcome(yard.(builds := yard.builds[i := build.(cancelRequested := true, status := status)]), Ok(Unit))
  }

  /******* The hand-over: two commits *******/

  function Digits(n: nat): string {
    if n < 10 then [('0' as int + n) as char] else Digits(n / 10) + [('0' as int + n % 10) as char]
  }

  /** The idempotency key of a build's deployment. */
  function BuildKey(i: nat): string {
    "build:" + Digits(i)
  }

  function HandOverEvent(build: Build, i: nat, image: string, valid: bool, resolved: bool, now: Time): StoreRuns.Event {
    StoreRuns.Event(
      now,
      StoreRuns.DoEnqueue(
        build.service, StoreModel.Spec(StoreModel.Reference(image), build.config.port, build.config.healthPath),
        Some(build.config.startCommand), BuildKey(i), valid, resolved))
  }

  /** The first commit: the deployment is requested for the image that a flush has read. */
  function HandOver(yard: Yard, i: nat, image: string, valid: bool, resolved: bool, now: Time): Outcome<nat> {
    if i >= |yard.builds| || !yard.builds[i].status.Succeeded? then Outcome(yard, Err(NotFound))
    else
      var build := yard.builds[i];
      var step := HandOverEvent(build, i, image, valid, resolved, now).step;
      var queued := StoreModel.Enqueue(
        StoreRuns.Tick(yard.db, now), build.service, step.spec, step.command, step.key, valid, resolved, now);
      if queued.reply.Ok?
      then Outcome(yard.(db := queued.db, replies := yard.replies + {(i, queued.reply.value)}), Ok(queued.reply.value))
      else Outcome(yard.(db := queued.db), Err(Refused(queued.reply.error)))
  }

  /** The second commit: the deployment is recorded unless one already is. */
  function Record(yard: Yard, i: nat, d: nat): Yard {
    if i < |yard.builds| && yard.builds[i].deployment.None?
    then yard.(builds := yard.builds[i := yard.builds[i].(deployment := Some(d))])
    else yard
  }

  const BATCH: nat := 10

  predicate Unrecorded(build: Build) {
    build.status.Succeeded? && build.deployment.None?
  }

  /** How many of the first `n` builds wait for their deployment to be recorded. */
  function Waiting(builds: seq<Build>, n: nat): nat
    requires n <= |builds|
  {
    if n == 0 then 0 else Waiting(builds, n - 1) + if Unrecorded(builds[n - 1]) then 1 else 0
  }

  /** The build waits, and fewer than ten older ones do. */
  predicate Chosen(builds: seq<Build>, i: nat) {
    i < |builds| && Unrecorded(builds[i]) && Waiting(builds, i) < BATCH
  }
}
