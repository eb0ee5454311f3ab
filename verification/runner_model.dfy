/** The deployment protocol of the agent, one call at a time, with faults.

    Between two calls anybody else may use the store.  Every call may succeed, fail, or fail
    after it took effect; the agent may crash at any moment, so the promises are about every
    call of an execution and not only about its end. */
module RunnerModel {
  import opened Common
  import opened StoreModel
  import opened StoreRuns

  /** What the agent knows of a claimed deployment: its release, the release to fall back to,
      whether the service has a public route, is a cron service, and mounts a volume. */
  datatype Job = Job(
    token: nat, release: nat, previous: Option<nat>, public: bool, cron: bool, volume: bool, predeploy: bool)

  datatype Call =
    | Pull | PreDeploy | RemovePreDeploy
    | EnsureContainer(id: nat) | StopContainer(id: nat) | RemoveContainer(id: nat)
    | SetRoute(to: Option<nat>)
    | Ready(id: nat) | Verify(id: nat)
    | Tell(reported: Reported)

  /** The containers that run, where the proxy sends the service's traffic, and the store. */
  datatype World = World(running: set<nat>, route: Option<nat>, db: Db)

  /** `Lost` is a call that fails, having taken effect or not; `expired` tells whether the job's
      time or its cancellation is the reason. */
  datatype Fault = Fine | Lost(effect: bool, expired: bool)

  /** What happens at one call: what others do to the store just before, and the fault. */
  datatype Slot = Slot(others: seq<StoreRuns.Event>, fault: Fault)
  type Tape = nat -> Slot

  datatype Record = Record(call: Call, ok: bool, world: World)

  /** Only the one agent that holds the execution lock reports on deployments and actions; a claim of an
      agent that is gone may still arrive. */
  predicate ByOthers(events: seq<StoreRuns.Event>) {
    forall i :: 0 <= i < |events| ==> !events[i].step.DoReport? && !events[i].step.DoReportAction?
  }

  function Interfere(db: Db, others: seq<StoreRuns.Event>): Db {
    if ByOthers(others) && Legal(db, others) then Run(db, others) else db
  }

  function Effect(job: Job, call: Call, world: World): World {
    match call
    case EnsureContainer(id) => world.(running := world.running + {id})
    case StopContainer(id) => world.(running := world.running - {id})
    case RemoveContainer(id) => world.(running := world.running - {id})
    case SetRoute(to) => world.(route := to)
    case Tell(reported) => world.(db := Report(world.db, job.release, job.token, reported, world.db.clock).db)
    case _ => world
  }

  /** Whether the store accepts the report; any other call is accepted. */
  predicate Accepted(job: Job, call: Call, world: World) {
    match call
    case Tell(reported) => Report(world.db, job.release, job.token, reported, world.db.clock).reply.Ok?
    case _ => true
  }

  function Reached(job: Job, call: Call, world: World, slot: Slot): World {
    var met := world.(db := Interfere(world.db, slot.others));
    if slot.fault.Fine? || slot.fault.effect then Effect(job, call, met) else met
  }

  predicate Succeeds(job: Job, call: Call, world: World, slot: Slot) {
    slot.fault.Fine? && Accepted(job, call, world.(db := Interfere(world.db, slot.others)))
  }

  predicate Expired(slot: Slot) {
    slot.fault.Lost? && slot.fault.expired
  }

  /******* The protocol *******/

  datatype Pc =
    | ReportPulling | PullImage | ReportPredeploy | Predeploying | DropFailedPredeploy | DropPredeploy | ReportStarting
    | ClearCronRoute | ReportCronActive | RemoveCronPrevious
    | ClearRoute | StopPrevious | Ensuring | ReportChecking | AwaitReady | ReportRouting | SwitchRoute | VerifyRoute
    | ReportActive | RetirePrevious
    | FailRemove | FailEnsure | FailReady | FailRoute | FailVerify | FailCleanup | ReportFailed
    | Done

  function Rank(pc: Pc): nat {
    match pc
    case ReportPulling => 27 case PullImage => 26 case ReportPredeploy => 25 case Predeploying => 24
    case DropFailedPredeploy => 22 case DropPredeploy => 23 case ReportStarting => 21
    case ClearCronRoute => 20 case ReportCronActive => 19 case RemoveCronPrevious => 1
    case ClearRoute => 18 case StopPrevious => 17 case Ensuring => 16 case ReportChecking => 15
    case AwaitReady => 14 case ReportRouting => 13 case SwitchRoute => 12 case VerifyRoute => 11
    case ReportActive => 10 case RetirePrevious => 1
    case FailRemove => 9 case FailEnsure => 8 case FailReady => 7 case FailRoute => 6 case FailVerify => 5
    case FailCleanup => 4 case ReportFailed => 3
    case Done => 0
  }

  /** The route that belongs to a release of this service: none unless it is public. */
  function RouteTo(job: Job, release: Option<nat>): Option<nat> {
    if job.public then release else None
  }

  function CallAt(job: Job, pc: Pc): Call
    requires !pc.Done? && Possible(job, pc)
  {
    match pc
    case ReportPulling => Tell(Progress(Pulling))
    case PullImage => Pull
    case ReportPredeploy => Tell(Progress(Predeploy))
    case Predeploying => PreDeploy
    case DropFailedPredeploy => RemovePreDeploy
    case DropPredeploy => RemovePreDeploy
    case ReportStarting => Tell(Progress(Starting))
    case ClearCronRoute => SetRoute(None)
    case ReportCronActive => Tell(Activated)
    case RemoveCronPrevious => RemoveContainer(job.previous.value)
    case ClearRoute => SetRoute(None)
    case StopPrevious => StopContainer(job.previous.value)
    case Ensuring => EnsureContainer(job.release)
    case ReportChecking => Tell(Progress(Checking))
    case AwaitReady => Ready(job.release)
    case ReportRouting => Tell(Progress(Routing))
    case SwitchRoute => SetRoute(RouteTo(job, Some(job.release)))
    case VerifyRoute => Verify(job.release)
    case ReportActive => Tell(Activated)
    case RetirePrevious => StopContainer(job.previous.value)
    case FailRemove => RemoveContainer(job.release)
    case FailEnsure => EnsureContainer(job.previous.value)
    case FailReady => Ready(job.previous.value)
    case FailRoute => SetRoute(RouteTo(job, job.previous))
    case FailVerify => Verify(job.previous.value)
    case FailCleanup => RemoveContainer(job.release)
    case ReportFailed => Tell(Failure)
  }

  /** Where a failure continues: a shared volume must first be freed. */
  function FailFrom(job: Job): Pc {
    if job.volume then FailRemove else FailRoute
  }

  /** The points of the protocol that a job of this kind can reach. */
  predicate Possible(job: Job, pc: Pc) {
    match pc
    case ClearCronRoute => job.cron
    case ReportCronActive => job.cron
    case RemoveCronPrevious => job.cron && job.previous.Some?
    case ClearRoute => !job.cron && job.volume && job.previous.Some?
    case StopPrevious => !job.cron && job.volume && job.previous.Some?
    case Ensuring => !job.cron
    case ReportChecking => !job.cron
    case AwaitReady => !job.cron
    case ReportRouting => !job.cron
    case SwitchRoute => !job.cron
    case VerifyRoute => !job.cron && job.public
    case ReportActive => !job.cron
    case RetirePrevious => !job.cron && job.previous.Some?
    case FailRemove => job.volume
    case FailEnsure => job.volume && job.previous.Some?
    case FailReady => job.volume && job.previous.Some?
    case FailVerify => job.public && job.previous.Some?
    case _ => true
  }

  /** Where the protocol goes on after a call that succeeded or failed. */
  function Next(job: Job, pc: Pc, ok: bool, expired: bool): Pc {
    match pc
    case ReportPulling => if ok then PullImage else Done
    case PullImage =>
      if ok then (if job.predeploy then ReportPredeploy else ReportStarting) else if expired then Done else FailFrom(job)
    case ReportPredeploy => if ok then Predeploying else Done
    case Predeploying => if ok then DropPredeploy else if expired then Done else DropFailedPredeploy
    case DropFailedPredeploy => FailFrom(job)
    case DropPredeploy => if ok then ReportStarting else Done
    case ReportStarting =>
      if !ok then Done
      else if job.cron then ClearCronRoute
      else if job.volume && job.previous.Some? then ClearRoute
      else Ensuring
    case ClearCronRoute => if ok then ReportCronActive else FailFrom(job)
    case ReportCronActive => if ok && job.previous.Some? then RemoveCronPrevious else Done
    case RemoveCronPrevious => Done
    case ClearRoute => if ok then StopPrevious else Done
    case StopPrevious => if ok then Ensuring else Done
    case Ensuring => if ok then ReportChecking else if expired then Done else FailFrom(job)
    case ReportChecking => if ok then AwaitReady else Done
    case AwaitReady => if ok then ReportRouting else if expired then Done else FailFrom(job)
    case ReportRouting => if ok then SwitchRoute else Done
    case SwitchRoute => if !ok then FailFrom(job) else if job.public then VerifyRoute else ReportActive
    case VerifyRoute => if ok then ReportActive else if expired then Done else FailFrom(job)
    case ReportActive => if ok && job.previous.Some? then RetirePrevious else Done
    case RetirePrevious => Done
    case FailRemove => if !ok then Done else if job.previous.Some? then FailEnsure else FailRoute
    case FailEnsure => if ok then FailReady else Done
    case FailReady => if ok then FailRoute else Done
    case FailRoute => if !ok then Done else if job.previous.Some? && job.public then FailVerify else FailCleanup
    case FailVerify => if ok then FailCleanup else Done
    case FailCleanup => if ok then ReportFailed else Done
    case ReportFailed => Done
    case Done => Done
  }

  lemma NextDescends(job: Job, pc: Pc, ok: bool, expired: bool)
    requires !pc.Done? && Possible(job, pc)
    ensures Possible(job, Next(job, pc, ok, expired)) && Rank(Next(job, pc, ok, expired)) < Rank(pc)
  {
  }

  function NextAt(job: Job, pc: Pc, world: World, slot: Slot): Pc
    requires !pc.Done? && Possible(job, pc)
  {
    Next(job, pc, Succeeds(job, CallAt(job, pc), world, slot), Expired(slot))
  }

  function RecordAt(job: Job, pc: Pc, world: World, slot: Slot): Record
    requires !pc.Done? && Possible(job, pc)
  {
    var call := CallAt(job, pc);
    Record(call, Succeeds(job, call, world, slot), Reached(job, call, world, slot))
  }

  /** The records of an execution that goes on from `pc` in `world`. */
  function Execute(job: Job, pc: Pc, world: World, tape: Tape, tick: nat): seq<Record>
    requires Possible(job, pc)
    decreases Rank(pc)
  {
    if pc.Done? then []
    else
      NextDescends(job, pc, Succeeds(job, CallAt(job, pc), world, tape(tick)), Expired(tape(tick)));
      var record := RecordAt(job, pc, world, tape(tick));
      [record] + Execute(job, NextAt(job, pc, world, tape(tick)), record.world, tape, tick + 1)
  }

  /** Where an attempt starts, whether new or resumed. */
  const START: Pc := ReportPulling
}
