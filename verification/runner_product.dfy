/** The deployment protocol and the store together: lost acknowledgements and crashes included. */
module RunnerProduct {
  import opened Common
  import opened Leases
  import opened StoreModel
  import opened StoreInvariant
  import opened StoreRuns
  import opened StoreHistory
  import opened StorePromises
  import opened RunnerModel
  import opened RunnerSafety

  /** The release the store calls active for service `s`. */
  function ActiveOf(db: Db, s: nat): Option<nat> {
    if s < |db.services| then db.services[s].activeId else None
  }

  /******* What others do to the store *******/

  lemma {:induction false} OthersKeepPointers(db: Db, others: seq<StoreRuns.Event>, s: nat)
    requires Inv(db) && s < |db.services| && ByOthers(others) && Legal(db, others)
    ensures Inv(Run(db, others)) && s < |Run(db, others).services| && ActiveOf(Run(db, others), s) == ActiveOf(db, s)
    ensures Evolves(db, Run(db, others))
    decreases |others|
  {
    hide Inv, Perform, Evolves;
    RunOnlyMovesForward(db, others);
    if |others| > 0 {
      assert !others[0].step.DoReport?;
      ApplyInv(db, others[0]);
      PointersKept(Tick(db, others[0].now), others[0].step);
      OthersKeepPointers(Apply(db, others[0]), others[1..], s);
    }
  }

  /** The release is a row of service `s`, and the tables satisfy the invariant. */
  ghost predicate Known(db: Db, d: nat, s: nat) {
    && Inv(db)
    && d < |db.deployments| && db.deployments[d].service == s && s < |db.services|
  }

  lemma InterferenceKept(db: Db, others: seq<StoreRuns.Event>, d: nat, s: nat)
    requires Known(db, d, s)
    ensures Known(Interfere(db, others), d, s) && ActiveOf(Interfere(db, others), s) == ActiveOf(db, s)
  {
    hide Inv, Run, Legal, ByOthers, Evolves;
    if ByOthers(others) && Legal(db, others) {
      OthersKeepPointers(db, others, s);
      EvolvedRow(db, Run(db, others), d);
    }
  }

  lemma ReportKept(db: Db, d: nat, s: nat, token: nat, reported: Reported)
    requires Known(db, d, s)
    ensures var after := Report(db, d, token, reported, db.clock);
            && Known(after.db, d, s)
            && (!reported.Activated? ==> ActiveOf(after.db, s) == ActiveOf(db, s))
            && (ActiveOf(after.db, s) == ActiveOf(db, s) || ActiveOf(after.db, s) == Some(d))
            && (reported.Activated? && after.reply.Ok? ==> ActiveOf(after.db, s) == Some(d))
  {
    hide Inv;
    ReportInv(db, d, token, reported);
    if db.deployments[d].status.Active? {
      ActiveRowIsPointed(db, d, s);
    }
  }

  lemma ActiveRowIsPointed(db: Db, d: nat, s: nat)
    requires Known(db, d, s) && db.deployments[d].status.Active?
    ensures ActiveOf(db, s) == Some(d)
  {
    hide RefsOk, QueueOk, CancelOk, BoundOk, ActionsOk, KeysOk, CronOk, LeasesOk;
  }

  /******* The active container *******/

  predicate Switched(pc: Pc) {
    pc.RetirePrevious? || pc.RemoveCronPrevious?
  }

  /** Until the activation is acknowledged the candidate is not active; afterwards it is. */
  ghost predicate PointerAt(job: Job, pc: Pc, db: Db, s: nat) {
    && Known(db, job.release, s)
    && (!pc.Done? ==> (ActiveOf(db, s) == Some(job.release) <==> Switched(pc)))
  }

  lemma PointerStep(job: Job, pc: Pc, world: World, slot: Slot, s: nat)
    requires Possible(job, pc) && !pc.Done? && PointerAt(job, pc, world.db, s)
    ensures PointerAt(job, NextAt(job, pc, world, slot), RecordAt(job, pc, world, slot).world.db, s)
    ensures !CallAt(job, pc).Tell? ==> ActiveOf(RecordAt(job, pc, world, slot).world.db, s) == ActiveOf(world.db, s)
    ensures var after := ActiveOf(RecordAt(job, pc, world, slot).world.db, s);
            after == ActiveOf(world.db, s) || (after == Some(job.release) && (pc.ReportActive? || pc.ReportCronActive?))
  {
    hide Inv, Interfere, Report, Known, ActiveOf;
    InterferenceKept(world.db, slot.others, job.release, s);
    if CallAt(job, pc).Tell? {
      ReportStep(job, pc, world, slot, s);
    }
  }

  lemma ReportStep(job: Job, pc: Pc, world: World, slot: Slot, s: nat)
    requires Possible(job, pc) && !pc.Done? && PointerAt(job, pc, world.db, s) && CallAt(job, pc).Tell?
    ensures PointerAt(job, NextAt(job, pc, world, slot), RecordAt(job, pc, world, slot).world.db, s)
    ensures var after := ActiveOf(RecordAt(job, pc, world, slot).world.db, s);
            after == ActiveOf(world.db, s) || (after == Some(job.release) && (pc.ReportActive? || pc.ReportCronActive?))
  {
    hide Inv, Interfere, Report, Known, ActiveOf;
    InterferenceKept(world.db, slot.others, job.release, s);
    var met := Interfere(world.db, slot.others);
    ReportKept(met, job.release, s, job.token, CallAt(job, pc).reported);
  }

  /** The one call that may stop the active release: a shared volume changes hands. */
  predicate HandsOver(job: Job, call: Call) {
    job.volume && job.previous.Some? && call == StopContainer(job.previous.value)
  }

  lemma HitStep(job: Job, pc: Pc, world: World, slot: Slot, s: nat, id: nat)
    requires Possible(job, pc) && !pc.Done? && PointerAt(job, pc, world.db, s)
    requires job.previous != Some(job.release)
    requires Hits(RecordAt(job, pc, world, slot).call, id)
    requires ActiveOf(RecordAt(job, pc, world, slot).world.db, s) == Some(id)
    ensures HandsOver(job, RecordAt(job, pc, world, slot).call)
  {
    hide Inv, Interfere, Report, PointerAt;
    PointerStep(job, pc, world, slot, s);
    assert Hits(CallAt(job, pc), id) && ActiveOf(world.db, s) == Some(id);
    PointerMeans(job, pc, world.db, s);
  }

  lemma PointerMeans(job: Job, pc: Pc, db: Db, s: nat)
    requires PointerAt(job, pc, db, s) && !pc.Done?
    ensures ActiveOf(db, s) == Some(job.release) <==> Switched(pc)
  {
  }

  /** In every interleaving with the other users of the store, whatever calls fail, are lost or
      never come: no call stops or removes the container of the release that the store calls
      active, except that a shared volume is first taken from Previous. */
  lemma {:induction false} ActiveUntouched(job: Job, pc: Pc, world: World, tape: Tape, tick: nat, s: nat, k: nat, id: nat)
    requires Possible(job, pc) && PointerAt(job, pc, world.db, s) && job.previous != Some(job.release)
    requires k < |Execute(job, pc, world, tape, tick)|
    requires Hits(Execute(job, pc, world, tape, tick)[k].call, id)
    requires ActiveOf(Execute(job, pc, world, tape, tick)[k].world.db, s) == Some(id)
    ensures HandsOver(job, Execute(job, pc, world, tape, tick)[k].call)
    decreases Rank(pc)
  {
    hide RecordAt, NextAt, Execute, PointerAt, Hits, HandsOver;
    if pc.Done? {
      NoCalls(job, pc, world, tape, tick);
    } else {
      var record, next := RecordAt(job, pc, world, tape(tick)), NextAt(job, pc, world, tape(tick));
      Unfold(job, pc, world, tape, tick);
      NextPossible(job, pc, world, tape(tick));
      if k == 0 {
        HitStep(job, pc, world, tape(tick), s, id);
      } else {
        PointerStep(job, pc, world, tape(tick), s);
        ActiveUntouched(job, next, record.world, tape, tick + 1, s, k - 1, id);
      }
    }
  }

  /******* The active release runs *******/

  predicate ActiveRuns(world: World, s: nat) {
    ActiveOf(world.db, s).Some? ==> ActiveOf(world.db, s).value in world.running
  }

  predicate CandidateRuns(pc: Pc) {
    || pc.ReportChecking? || pc.AwaitReady? || pc.ReportRouting? || pc.SwitchRoute? || pc.VerifyRoute?
    || pc.ReportActive? || pc.RetirePrevious?
  }

  /** The runtime agrees with the store. */
  predicate AgreesAt(job: Job, pc: Pc, world: World, s: nat) {
    ActiveRuns(world, s) && (CandidateRuns(pc) ==> job.release in world.running)
  }

  lemma AgreesStep(job: Job, pc: Pc, world: World, slot: Slot, s: nat)
    requires Possible(job, pc) && !pc.Done? && !job.volume && !job.cron && job.previous != Some(job.release)
    requires PointerAt(job, pc, world.db, s) && AgreesAt(job, pc, world, s)
    ensures AgreesAt(job, NextAt(job, pc, world, slot), RecordAt(job, pc, world, slot).world, s)
  {
    hide Inv, Interfere, Report, PointerAt, ActiveOf;
    PointerStep(job, pc, world, slot, s);
    PointerMeans(job, pc, world.db, s);
  }

  /** Without a shared volume, the container of the active release runs after every call: also
      when the activation took effect but its acknowledgement was lost. */
  lemma {:induction false} ActiveKeepsRunning(job: Job, pc: Pc, world: World, tape: Tape, tick: nat, s: nat, k: nat)
    requires Possible(job, pc) && !job.volume && !job.cron && job.previous != Some(job.release)
    requires PointerAt(job, pc, world.db, s) && AgreesAt(job, pc, world, s)
    requires k < |Execute(job, pc, world, tape, tick)|
    ensures ActiveRuns(Execute(job, pc, world, tape, tick)[k].world, s)
    decreases Rank(pc)
  {
    hide RecordAt, NextAt, Execute, PointerAt, ActiveOf;
    if pc.Done? {
      NoCalls(job, pc, world, tape, tick);
    } else {
      var record, next := RecordAt(job, pc, world, tape(tick)), NextAt(job, pc, world, tape(tick));
      Unfold(job, pc, world, tape, tick);
      NextPossible(job, pc, world, tape(tick));
      AgreesStep(job, pc, world, tape(tick), s);
      PointerStep(job, pc, world, tape(tick), s);
      if k > 0 {
        ActiveKeepsRunning(job, next, record.world, tape, tick + 1, s, k - 1);
      }
    }
  }

  /******* From the claim on *******/

  /** The job that the agent makes of claimed work of service `s`. */
  predicate JobOf(job: Job, db: Db, token: nat, d: nat, previous: Option<nat>, s: nat) {
    && d < |db.deployments| && db.deployments[d].service == s && s < |db.services|
    && job.token == token && job.release == d && job.previous == previous
    && job.cron == db.services[s].workload.Cron?
    && job.volume == db.deployments[d].settings.volume.Some?
  }

  lemma ClaimStartsThere(db: Db, next: Time, claimed: Db, token: nat, d: nat, previous: Option<nat>)
    requires Inv(db) && next > db.clock
    requires Claim(db, db.clock, next) == Outcome(claimed, Ok(Some(DeploymentWork(token, d, previous))))
    ensures d < |claimed.deployments| && claimed.deployments[d].service < |claimed.services|
    ensures Known(claimed, d, claimed.deployments[d].service)
    ensures ActiveOf(claimed, claimed.deployments[d].service) != Some(d)
    ensures previous != Some(d)
  {
    hide Inv, Claim;
    ClaimedDeployment(db, next, token, d, previous);
    ClaimInv(db, next);
    var s := claimed.deployments[d].service;
    if ActiveOf(claimed, s) == Some(d) {
      PointerIsActive(claimed, s);
    }
  }

  /** The call leaves the active container of service `s` alone. */
  ghost predicate Spares(job: Job, record: Record, s: nat) {
    forall id: nat :: Hits(record.call, id) && ActiveOf(record.world.db, s) == Some(id) ==> HandsOver(job, record.call)
  }

  /** A claimed job, from its first call to any later one, leaves the active container alone and,
      without a shared volume, running. */
  lemma ClaimedJobIsSafe(
    job: Job, world: World, tape: Tape, k: nat, s: nat,
    db: Db, next: Time, token: nat, d: nat, previous: Option<nat>)
    requires k < |Execute(job, START, world, tape, 0)|
    requires JobOf(job, world.db, token, d, previous, s)
    requires Inv(db) && next > db.clock
    requires Claim(db, db.clock, next) == Outcome(world.db, Ok(Some(DeploymentWork(token, d, previous))))
    ensures Spares(job, Execute(job, START, world, tape, 0)[k], s)
    ensures !job.volume && !job.cron && ActiveRuns(world, s) ==> ActiveRuns(Execute(job, START, world, tape, 0)[k].world, s)
  {
    hide Inv, Claim, Execute, Known, ActiveOf, Hits, HandsOver, ActiveRuns;
    ClaimStartsThere(db, next, world.db, token, d, previous);
    StartIsSafe(job, world, tape, k, s);
  }

  lemma StartIsSafe(job: Job, world: World, tape: Tape, k: nat, s: nat)
    requires k < |Execute(job, START, world, tape, 0)|
    requires Known(world.db, job.release, s) && ActiveOf(world.db, s) != Some(job.release) && job.previous != Some(job.release)
    ensures Spares(job, Execute(job, START, world, tape, 0)[k], s)
    ensures !job.volume && !job.cron && ActiveRuns(world, s) ==> ActiveRuns(Execute(job, START, world, tape, 0)[k].world, s)
  {
    hide Inv, Execute, Known, ActiveOf, Hits, HandsOver, ActiveRuns;
    var record := Execute(job, START, world, tape, 0)[k];
    forall id: nat | Hits(record.call, id) && ActiveOf(record.world.db, s) == Some(id) ensures HandsOver(job, record.call) {
      ActiveUntouched(job, START, world, tape, 0, s, k, id);
    }
    if !job.volume && !job.cron && ActiveRuns(world, s) {
      ActiveKeepsRunning(job, START, world, tape, 0, s, k);
    }
  }

  /** A deployment is activated at most once: after that, no report of its activation changes
      anything, in any later state. */
  lemma ActivatedOnce(db: Db, d: nat, token: nat, now: Time, events: seq<StoreRuns.Event>, token': nat, now': Time)
    requires Inv(db) && d < |db.deployments| && db.clock == now
    requires Report(db, d, token, Activated, now).reply.Ok?
    requires Legal(Report(db, d, token, Activated, now).db, events)
    ensures var later := Run(Report(db, d, token, Activated, now).db, events);
            Report(later, d, token', Activated, now').db == later
  {
    hide Inv, Run, Legal, Evolves;
    var after := Report(db, d, token, Activated, now).db;
    assert after.deployments[d].status.Active?;
    ReportInv(db, d, token, Activated);
    RunOnlyMovesForward(after, events);
    EvolvedRow(after, Run(after, events), d);
  }

  /******* Recovery after a cancelled or expired job *******/

  ghost predicate Quiet(tape: Tape, tick: nat) {
    forall i: nat :: tick <= i ==> tape(i) == Slot([], Fine)
  }

  lemma QuietStep(job: Job, pc: Pc, world: World, tape: Tape, tick: nat)
    requires Possible(job, pc) && !pc.Done? && !CallAt(job, pc).Tell? && Quiet(tape, tick)
    ensures RecordAt(job, pc, world, tape(tick)) == Record(CallAt(job, pc), true, Effect(job, CallAt(job, pc), world))
    ensures RecordAt(job, pc, world, tape(tick)).world.db == world.db
    ensures NextAt(job, pc, world, tape(tick)) == Next(job, pc, true, false)
  {
    assert tape(tick) == Slot([], Fine);
  }

  ghost predicate Removes(job: Job, records: seq<Record>, db: Db) {
    exists k :: 0 <= k < |records| && records[k].call == RemoveContainer(job.release)
                && records[k].world.db == db && job.release !in records[k].world.running
  }

  lemma {:induction false} QuietRecoveryRemoves(job: Job, pc: Pc, world: World, tape: Tape, tick: nat)
    requires Possible(job, pc) && Quiet(tape, tick)
    requires pc.FailRemove? || pc.FailEnsure? || pc.FailReady? || pc.FailRoute? || pc.FailVerify? || pc.FailCleanup?
    ensures Removes(job, Execute(job, pc, world, tape, tick), world.db)
    decreases Rank(pc)
  {
    hide Execute, RecordAt, NextAt;
    var record, next := RecordAt(job, pc, world, tape(tick)), NextAt(job, pc, world, tape(tick));
    Unfold(job, pc, world, tape, tick);
    NextPossible(job, pc, world, tape(tick));
    QuietStep(job, pc, world, tape, tick);
    var records := Execute(job, pc, world, tape, tick);
    if pc.FailCleanup? {
      assert records[0].call == RemoveContainer(job.release);
    } else {
      QuietRecoveryRemoves(job, next, record.world, tape, tick + 1);
      var rest := Execute(job, next, record.world, tape, tick + 1);
      var k :| 0 <= k < |rest| && rest[k].call == RemoveContainer(job.release)
               && rest[k].world.db == world.db && job.release !in rest[k].world.running;
      assert records[k + 1] == rest[k];
    }
  }

  ghost predicate RemovesActive(records: seq<Record>, s: nat) {
    exists k: nat, id: nat :: k < |records| && records[k].call == RemoveContainer(id) && ActiveOf(records[k].world.db, s) == Some(id)
  }

  /** The recovery of a cancelled or expired job can remove the active container exactly when the
      activation had already taken effect: because its acknowledgement was lost, or because the
      time ran out only while the old container was being stopped. */
  lemma RecoveryExactly(job: Job, world: World, s: nat)
    requires Known(world.db, job.release, s) && job.previous != Some(job.release)
    ensures (exists tape: Tape :: RemovesActive(Execute(job, FailFrom(job), world, tape, 0), s))
       <==> ActiveOf(world.db, s) == Some(job.release)
  {
    hide Execute, Known;
    if ActiveOf(world.db, s) == Some(job.release) {
      var tape: Tape := (i: nat) => Slot([], Fine);
      QuietRecoveryRemoves(job, FailFrom(job), world, tape, 0);
      var records := Execute(job, FailFrom(job), world, tape, 0);
      var k :| 0 <= k < |records| && records[k].call == RemoveContainer(job.release) && records[k].world.db == world.db;
      assert RemovesActive(records, s);
    } else {
      forall tape: Tape ensures !RemovesActive(Execute(job, FailFrom(job), world, tape, 0), s) {
        RecoveryIsSafe(job, world, tape, s);
      }
    }
  }

  lemma RecoveryIsSafe(job: Job, world: World, tape: Tape, s: nat)
    requires Known(world.db, job.release, s) && job.previous != Some(job.release)
    requires ActiveOf(world.db, s) != Some(job.release)
    ensures !RemovesActive(Execute(job, FailFrom(job), world, tape, 0), s)
  {
    hide Execute, Known;
    var records := Execute(job, FailFrom(job), world, tape, 0);
    if RemovesActive(records, s) {
      var k: nat, id: nat :| k < |records| && records[k].call == RemoveContainer(id) && ActiveOf(records[k].world.db, s) == Some(id);
      ActiveUntouched(job, FailFrom(job), world, tape, 0, s, k, id);
    }
  }
}
