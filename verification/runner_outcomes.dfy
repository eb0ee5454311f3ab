/** Where the protocol ends when nothing goes wrong from some point on. */
module RunnerOutcomes {
  import opened Common
  import opened Leases
  import opened StoreModel
  import opened StoreRuns
  import opened StoreExamples
  import opened RunnerModel
  import opened RunnerSafety
  import opened RunnerProduct
  import opened Runners

  /** The attempt is the current one, in time, and the deployment is unfinished. */
  predicate Current(job: Job, db: Db, s: nat) {
    && job.release < |db.deployments| && s < |db.services|
    && var row := db.deployments[job.release];
       row.service == s && !Terminal(row.status) && Holds(row.lease, job.token, db.clock)
  }

  predicate Wanted(job: Job, db: Db, s: nat) {
    Current(job, db, s) && !db.deployments[job.release].cancelRequested
  }

  lemma EndOf(world: World, first: Record, rest: seq<Record>)
    ensures After(world, [first] + rest) == After(first.world, rest)
  {
    if |rest| > 0 {
      assert ([first] + rest)[|rest|] == rest[|rest| - 1];
    }
  }

  /** A call that meets no trouble has its effect and succeeds if the store accepts it. */
  lemma QuietCall(job: Job, pc: Pc, world: World, tape: Tape, tick: nat)
    requires Possible(job, pc) && !pc.Done? && Quiet(tape, tick)
    ensures RecordAt(job, pc, world, tape(tick)).world == Effect(job, CallAt(job, pc), world)
    ensures NextAt(job, pc, world, tape(tick)) == Next(job, pc, Accepted(job, CallAt(job, pc), world), false)
    ensures Quiet(tape, tick + 1)
  {
    hide Effect, Accepted, Report;
    assert tape(tick) == Slot([], Fine);
    assert Interfere(world.db, []) == world.db;
  }

  lemma Told(job: Job, db: Db, s: nat, reported: Reported)
    requires Current(job, db, s) && (reported.Activated? ==> Wanted(job, db, s)) && !reported.LogsOnly?
    ensures var after := Report(db, job.release, job.token, reported, db.clock);
            && after.reply.Ok? && job.release < |after.db.deployments|
            && (reported.Progress? ==> Current(job, after.db, s) && (Wanted(job, db, s) ==> Wanted(job, after.db, s)))
            && (reported.Activated? ==> ActiveOf(after.db, s) == Some(job.release) && after.db.deployments[job.release].status.Active?)
            && (reported.Failure? ==> after.db.deployments[job.release].status.Failed?)
  {
  }

  /******* Success *******/

  predicate Forward(pc: Pc) {
    match pc
    case ReportPulling => true case PullImage => true case ReportPredeploy => true case Predeploying => true
    case DropPredeploy => true case ReportStarting => true
    case ClearCronRoute => true case ReportCronActive => true case RemoveCronPrevious => true
    case ClearRoute => true case StopPrevious => true case Ensuring => true case ReportChecking => true
    case AwaitReady => true case ReportRouting => true case SwitchRoute => true case VerifyRoute => true
    case ReportActive => true case RetirePrevious => true case Done => true
    case _ => false
  }

  predicate Activated(job: Job, world: World, s: nat) {
    && job.release < |world.db.deployments| && world.db.deployments[job.release].status.Active?
    && ActiveOf(world.db, s) == Some(job.release)
    && world.route == (if job.cron then None else RouteTo(job, Some(job.release)))
    && (!job.cron ==> job.release in world.running)
  }

  /** What holds at each point of an undisturbed deployment. */
  predicate ForwardAt(job: Job, pc: Pc, world: World, s: nat) {
    && Forward(pc)
    && (if pc.Done? || Switched(pc) then Activated(job, world, s) else Wanted(job, world.db, s))
    && (CandidateRuns(pc) ==> job.release in world.running)
    && (pc.ReportCronActive? ==> job.cron && world.route == None)
    && (pc.VerifyRoute? || pc.ReportActive? ==> !job.cron && world.route == RouteTo(job, Some(job.release)))
    && (pc.Done? && job.previous.Some? ==> job.previous.value !in world.running)
  }

  lemma ForwardStep(job: Job, pc: Pc, world: World, s: nat)
    requires Possible(job, pc) && !pc.Done? && ForwardAt(job, pc, world, s) && job.previous != Some(job.release)
    ensures var call := CallAt(job, pc);
            Accepted(job, call, world) && ForwardAt(job, Next(job, pc, true, false), Effect(job, call, world), s)
  {
    hide ForwardAt, Next, Effect, Accepted;
    if CallAt(job, pc).Tell? {
      ForwardReport(job, pc, world, s);
    } else {
      ForwardCall(job, pc, world, s);
    }
  }

  lemma ForwardCall(job: Job, pc: Pc, world: World, s: nat)
    requires Possible(job, pc) && !pc.Done? && ForwardAt(job, pc, world, s) && job.previous != Some(job.release)
    requires !CallAt(job, pc).Tell?
    ensures var call := CallAt(job, pc);
            Accepted(job, call, world) && ForwardAt(job, Next(job, pc, true, false), Effect(job, call, world), s)
  {
    hide Report, Wanted, ActiveOf;
  }

  lemma ForwardReport(job: Job, pc: Pc, world: World, s: nat)
    requires Possible(job, pc) && !pc.Done? && ForwardAt(job, pc, world, s) && job.previous != Some(job.release)
    requires CallAt(job, pc).Tell?
    ensures var call := CallAt(job, pc);
            Accepted(job, call, world) && ForwardAt(job, Next(job, pc, true, false), Effect(job, call, world), s)
  {
    hide Report, Current, Wanted, ActiveOf;
    WantedIsCurrent(job, world.db, s);
    Told(job, world.db, s, CallAt(job, pc).reported);
  }

  lemma WantedIsCurrent(job: Job, db: Db, s: nat)
    requires Wanted(job, db, s)
    ensures Current(job, db, s)
  {
  }

  /** Undisturbed, a deployment ends active: its container runs, the route leads to it exactly if
      the service is public, and the previous release is stopped. */
  lemma {:induction false} UndisturbedDeployment(job: Job, pc: Pc, world: World, tape: Tape, tick: nat, s: nat)
    requires Possible(job, pc) && Quiet(tape, tick) && ForwardAt(job, pc, world, s) && job.previous != Some(job.release)
    ensures ForwardAt(job, Done, After(world, Execute(job, pc, world, tape, tick)), s)
    decreases Rank(pc)
  {
    hide Execute, RecordAt, NextAt, ForwardAt, CallAt, Accepted, Effect;
    if pc.Done? {
      NoCalls(job, pc, world, tape, tick);
    } else {
      var record, next := RecordAt(job, pc, world, tape(tick)), NextAt(job, pc, world, tape(tick));
      Unfold(job, pc, world, tape, tick);
      NextPossible(job, pc, world, tape(tick));
      QuietCall(job, pc, world, tape, tick);
      ForwardStep(job, pc, world, s);
      UndisturbedDeployment(job, next, record.world, tape, tick + 1, s);
      EndOf(world, record, Execute(job, next, record.world, tape, tick + 1));
    }
  }

  /** The same, from the claim to the end. */
  lemma DeploymentSucceeds(job: Job, world: World, tape: Tape, s: nat)
    requires Quiet(tape, 0) && Wanted(job, world.db, s) && job.previous != Some(job.release)
    ensures var end := After(world, Execute(job, START, world, tape, 0));
            && Activated(job, end, s)
            && (job.previous.Some? ==> job.previous.value !in end.running)
  {
    hide Execute, Wanted, Activated;
    UndisturbedDeployment(job, START, world, tape, 0, s);
  }

  /******* Failure *******/

  predicate Recovering(pc: Pc) {
    || pc.FailRemove? || pc.FailEnsure? || pc.FailReady? || pc.FailRoute? || pc.FailVerify? || pc.FailCleanup?
    || pc.ReportFailed? || pc.Done?
  }

  predicate RecoveringAt(job: Job, pc: Pc, world: World, s: nat) {
    && Recovering(pc)
    && (if pc.Done? then job.release < |world.db.deployments| && world.db.deployments[job.release].status.Failed?
        else Current(job, world.db, s))
    && (job.previous.Some? && (!job.volume || !(pc.FailRemove? || pc.FailEnsure?)) ==> job.previous.value in world.running)
    && (pc.FailVerify? || pc.FailCleanup? || pc.ReportFailed? || pc.Done? ==> world.route == RouteTo(job, job.previous))
    && (pc.ReportFailed? || pc.Done? ==> job.release !in world.running)
  }

  lemma RecoveryStep(job: Job, pc: Pc, world: World, s: nat)
    requires Possible(job, pc) && !pc.Done? && RecoveringAt(job, pc, world, s) && job.previous != Some(job.release)
    ensures var call := CallAt(job, pc);
            Accepted(job, call, world) && RecoveringAt(job, Next(job, pc, true, false), Effect(job, call, world), s)
  {
    hide Report, Current;
    if pc.ReportFailed? {
      Told(job, world.db, s, Failure);
    }
  }

  /** Undisturbed, a failed or cancelled deployment ends with the previous release back: running,
      with the route restored, the candidate removed and the failure reported. */
  lemma {:induction false} UndisturbedRecovery(job: Job, pc: Pc, world: World, tape: Tape, tick: nat, s: nat)
    requires Possible(job, pc) && Quiet(tape, tick) && RecoveringAt(job, pc, world, s) && job.previous != Some(job.release)
    ensures RecoveringAt(job, Done, After(world, Execute(job, pc, world, tape, tick)), s)
    decreases Rank(pc)
  {
    hide Execute, RecordAt, NextAt, RecoveringAt, CallAt, Accepted, Effect;
    if pc.Done? {
      NoCalls(job, pc, world, tape, tick);
    } else {
      var record, next := RecordAt(job, pc, world, tape(tick)), NextAt(job, pc, world, tape(tick));
      Unfold(job, pc, world, tape, tick);
      NextPossible(job, pc, world, tape(tick));
      QuietCall(job, pc, world, tape, tick);
      RecoveryStep(job, pc, world, s);
      UndisturbedRecovery(job, next, record.world, tape, tick + 1, s);
      EndOf(world, record, Execute(job, next, record.world, tape, tick + 1));
    }
  }

  /******* When a route is lost *******/

  ghost predicate LosesRoute(records: seq<Record>) {
    exists k :: 0 <= k < |records| && records[k].world.route.None?
  }

  /** The first report is accepted, the image cannot be pulled, and nothing else goes wrong. */
  function PullFails(): Tape {
    (i: nat) => Slot([], if i == 1 then Lost(false, false) else Fine)
  }

  lemma PullFailsClears(job: Job, world: World, s: nat)
    requires job.public && !job.volume && job.previous.None? && Current(job, world.db, s)
    ensures LosesRoute(Execute(job, START, world, PullFails(), 0))
  {
    hide Report, Current, RecordAt, Execute;
    var tape := PullFails();
    assert Interfere(world.db, []) == world.db;
    Told(job, world.db, s, Progress(Pulling));
    Unfold(job, ReportPulling, world, tape, 0);
    var w1 := RecordAt(job, ReportPulling, world, tape(0)).world;
    Unfold(job, PullImage, w1, tape, 1);
    var w2 := RecordAt(job, PullImage, w1, tape(1)).world;
    Unfold(job, FailRoute, w2, tape, 2);
    FailRouteClears(job, w2, tape(2));
    assert Execute(job, START, world, tape, 0)[2].world.route.None?;
  }

  lemma FailRouteClears(job: Job, world: World, slot: Slot)
    requires job.previous.None? && slot.fault.Fine?
    ensures RecordAt(job, FailRoute, world, slot).world.route.None?
  {
  }

  /** A deployment of a public service without a volume can lose its route exactly when there is no
      previous release to lead it back to: a failure then clears it. */
  lemma RouteLostExactly(job: Job, world: World, s: nat)
    requires job.public && !job.cron && !job.volume && job.previous != Some(job.release)
    requires Current(job, world.db, s) && ServedAt(job, START, world) && world.route.Some?
    ensures (exists tape: Tape :: LosesRoute(Execute(job, START, world, tape, 0))) <==> job.previous.None?
  {
    hide Execute, Current, ServedAt;
    if job.previous.None? {
      PullFailsClears(job, world, s);
    } else {
      forall tape: Tape ensures !LosesRoute(Execute(job, START, world, tape, 0)) {
        forall k | 0 <= k < |Execute(job, START, world, tape, 0)|
          ensures Execute(job, START, world, tape, 0)[k].world.route.Some?
        {
          TrafficIsServed(job, START, world, tape, 0, k);
        }
      }
    }
  }

  /******* Giving up a job that was activated *******/

  /** Nothing goes wrong but that the job is over when its activation is in effect: while the old
      container is being stopped, or because the acknowledgement came too late.  The recovery then
      removes the container of the release that the store calls active. */
  lemma GivenUpAfterActivation(job: Job, world: World, tape: Tape, s: nat)
    requires Quiet(tape, 0) && Wanted(job, world.db, s) && job.previous != Some(job.release)
    ensures RemovesActive(Attempt(job, world, tape, 0, true), s)
  {
    hide Execute, Wanted, Quiet, ActiveOf;
    var first := Execute(job, START, world, tape, 0);
    var after := After(world, first);
    DeploymentSucceeds(job, world, tape, s);
    QuietLater(tape, |first|);
    QuietRecoveryRemoves(job, FailFrom(job), after, tape, |first|);
    var rest := Execute(job, FailFrom(job), after, tape, |first|);
    var k :| 0 <= k < |rest| && rest[k].call == RemoveContainer(job.release) && rest[k].world.db == after.db;
    assert Attempt(job, world, tape, 0, true)[|first| + k] == rest[k];
  }

  /** The job of the one release of a run that has just claimed it. */
  const CLAIMED: Job := Job(1, 0, None, false, false, false, false)

  /** So it goes for that job: its container, which the store calls active, ends removed. */
  lemma ActiveContainerRemoved(tape: Tape)
    requires Quiet(tape, 0)
    ensures var world := World({}, None, Run(Empty(0), Abandoned()));
            JobOf(CLAIMED, world.db, 1, 0, None, 0) && RemovesActive(Attempt(CLAIMED, world, tape, 0, true), 0)
  {
    hide Attempt, Run, Quiet;
    AbandonedRun();
    GivenUpAfterActivation(CLAIMED, World({}, None, AfterClaim()), tape, 0);
  }

  lemma QuietLater(tape: Tape, tick: nat)
    requires Quiet(tape, 0)
    ensures Quiet(tape, tick)
  {
  }
}
