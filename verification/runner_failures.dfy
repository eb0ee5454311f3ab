/** What becomes of a deployment in which one call fails. */
module RunnerFailures {
  import opened Common
  import opened Leases
  import opened StoreModel
  import opened StoreRuns
  import opened RunnerModel
  import opened RunnerSafety
  import opened RunnerProduct
  import opened RunnerOrder
  import opened Runners
  import RunnerOutcomes

  /** From `tick` on everything goes well but the call `n` calls later, which fails with or without
      its effect while the job still has time. */
  ghost predicate OneFails(tape: Tape, tick: nat, n: nat, effect: bool) {
    forall i: nat :: tick <= i ==> tape(i) == Slot([], if i == tick + n then Lost(effect, false) else Fine)
  }

  /******* The way back *******/

  /** What holds on the failure path when nothing more goes wrong. */
  predicate FailingAt(job: Job, pc: Pc, world: World, s: nat) {
    && Backward(pc)
    && (if pc.Done? then job.release < |world.db.deployments| && world.db.deployments[job.release].status.Failed?
        else RunnerOutcomes.Current(job, world.db, s))
    && (pc.FailVerify? || pc.FailCleanup? || pc.ReportFailed? || pc.Done? ==> world.route == RouteTo(job, job.previous))
    && (pc.ReportFailed? || pc.Done? ==> job.release !in world.running)
  }

  lemma FailingCall(job: Job, pc: Pc, world: World, s: nat)
    requires Possible(job, pc) && !pc.Done? && FailingAt(job, pc, world, s) && job.previous != Some(job.release)
    ensures var call := CallAt(job, pc);
            Accepted(job, call, world) && FailingAt(job, Next(job, pc, true, false), Effect(job, call, world), s)
  {
    hide Report, RunnerOutcomes.Current;
    if pc.ReportFailed? {
      RunnerOutcomes.Told(job, world.db, s, Failure);
    }
  }

  lemma {:induction false} FailingEnds(job: Job, pc: Pc, world: World, tape: Tape, tick: nat, s: nat)
    requires Possible(job, pc) && Quiet(tape, tick) && FailingAt(job, pc, world, s) && job.previous != Some(job.release)
    ensures FailingAt(job, Done, After(world, Execute(job, pc, world, tape, tick)), s)
    decreases Rank(pc)
  {
    hide Execute, RecordAt, NextAt, FailingAt, CallAt, Accepted, Effect;
    if pc.Done? {
      NoCalls(job, pc, world, tape, tick);
    } else {
      var record, next := RecordAt(job, pc, world, tape(tick)), NextAt(job, pc, world, tape(tick));
      Unfold(job, pc, world, tape, tick);
      NextPossible(job, pc, world, tape(tick));
      RunnerOutcomes.QuietCall(job, pc, world, tape, tick);
      FailingCall(job, pc, world, s);
      FailingEnds(job, next, record.world, tape, tick + 1, s);
      RunnerOutcomes.EndOf(world, record, Execute(job, next, record.world, tape, tick + 1));
    }
  }

  /******* The failing call *******/

  lemma FaultyCall(job: Job, pc: Pc, world: World, tape: Tape, tick: nat, effect: bool)
    requires Possible(job, pc) && !pc.Done? && Onward(pc) && !CallAt(job, pc).Tell? && tape(tick) == Slot([], Lost(effect, false))
    ensures var record := RecordAt(job, pc, world, tape(tick));
            !record.ok && record.world.db == world.db && NextAt(job, pc, world, tape(tick)) == Next(job, pc, false, false)
  {
    assert Interfere(world.db, []) == world.db;
  }

  lemma BackHolds(job: Job, pc: Pc, world: World, s: nat)
    requires RunnerOutcomes.ForwardAt(job, pc, world, s) && !pc.Done? && !Switched(pc)
    ensures RunnerOutcomes.Current(job, world.db, s)
  {
  }

  lemma AfterDrop(job: Job, world: World, tape: Tape, tick: nat)
    requires tape(tick) == Slot([], Fine)
    ensures NextAt(job, DropFailedPredeploy, world, tape(tick)) == FailFrom(job)
    ensures RecordAt(job, DropFailedPredeploy, world, tape(tick)).world == world
  {
    assert Interfere(world.db, []) == world.db;
  }

  lemma TurnsBack(job: Job, pc: Pc, world: World, tape: Tape, tick: nat, s: nat, effect: bool)
    requires Possible(job, pc) && Onward(pc) && !pc.Done? && job.previous != Some(job.release)
    requires OneFails(tape, tick, 0, effect) && RunnerOutcomes.ForwardAt(job, pc, world, s)
    requires BacksOut(CallAt(job, pc), At(Path(job, pc), 1), false)
    ensures FailingAt(job, Done, After(world, Execute(job, pc, world, tape, tick)), s)
  {
    hide Execute, RecordAt, NextAt, FailingAt, CallAt, Accepted, Effect, Path, RunnerOutcomes.ForwardAt, RunnerOutcomes.Current, Onward, Next;
    FailingStep(job, pc, false);
    BacksOutIsEarly(job, pc);
    FaultyCall(job, pc, world, tape, tick, effect);
    BackHolds(job, pc, world, s);
    var record, next := RecordAt(job, pc, world, tape(tick)), NextAt(job, pc, world, tape(tick));
    Unfold(job, pc, world, tape, tick);
    NextPossible(job, pc, world, tape(tick));
    BackStart(job, record.world, s);
    if next.DropFailedPredeploy? {
      Unfold(job, next, record.world, tape, tick + 1);
      AfterDrop(job, record.world, tape, tick + 1);
      FailingEnds(job, FailFrom(job), record.world, tape, tick + 2, s);
      RunnerOutcomes.EndOf(record.world, RecordAt(job, next, record.world, tape(tick + 1)),
                           Execute(job, FailFrom(job), record.world, tape, tick + 2));
    } else {
      FailingEnds(job, next, record.world, tape, tick + 1, s);
    }
    RunnerOutcomes.EndOf(world, record, Execute(job, next, record.world, tape, tick + 1));
  }

  lemma BackStart(job: Job, world: World, s: nat)
    requires RunnerOutcomes.Current(job, world.db, s)
    ensures FailingAt(job, FailFrom(job), world, s)
  {
    hide RunnerOutcomes.Current;
  }

  lemma BacksOutIsEarly(job: Job, pc: Pc)
    requires Possible(job, pc) && Onward(pc) && !pc.Done? && BacksOut(CallAt(job, pc), At(Path(job, pc), 1), false)
    ensures !CallAt(job, pc).Tell? && !Switched(pc)
  {
    hide Path;
  }

  lemma {:induction false} FailsAt(job: Job, pc: Pc, world: World, tape: Tape, tick: nat, s: nat, n: nat, effect: bool)
    requires Possible(job, pc) && Onward(pc) && job.previous != Some(job.release)
    requires OneFails(tape, tick, n, effect) && RunnerOutcomes.ForwardAt(job, pc, world, s)
    requires n < |Path(job, pc)| && BacksOut(Path(job, pc)[n], At(Path(job, pc), n + 1), false)
    ensures FailingAt(job, Done, After(world, Execute(job, pc, world, tape, tick)), s)
    decreases Rank(pc)
  {
    hide Execute, RecordAt, NextAt, FailingAt, CallAt, Accepted, Effect, Path, RunnerOutcomes.ForwardAt, Onward, Next, BacksOut;
    if pc.Done? {
      PathEnds(job);
    } else {
      NextDescends(job, pc, true, false);
      PathStep(job, pc, CallAt(job, pc), Next(job, pc, true, false));
      if n == 0 {
        TurnsBack(job, pc, world, tape, tick, s, effect);
      } else {
        var record, next := RecordAt(job, pc, world, tape(tick)), NextAt(job, pc, world, tape(tick));
        Unfold(job, pc, world, tape, tick);
        NextPossible(job, pc, world, tape(tick));
        FineCall(job, pc, world, tape, tick);
        RunnerOutcomes.ForwardStep(job, pc, world, s);
        OnwardStep(job, pc, false);
        assert Path(job, pc)[n] == Path(job, next)[n - 1] && At(Path(job, pc), n + 1) == At(Path(job, next), n);
        FailsAt(job, next, record.world, tape, tick + 1, s, n - 1, effect);
        RunnerOutcomes.EndOf(world, record, Execute(job, next, record.world, tape, tick + 1));
      }
    }
  }

  lemma FineCall(job: Job, pc: Pc, world: World, tape: Tape, tick: nat)
    requires Possible(job, pc) && !pc.Done? && tape(tick) == Slot([], Fine)
    ensures RecordAt(job, pc, world, tape(tick)).world == Effect(job, CallAt(job, pc), world)
    ensures NextAt(job, pc, world, tape(tick)) == Next(job, pc, Accepted(job, CallAt(job, pc), world), false)
  {
    hide Effect, Accepted, Report;
    assert Interfere(world.db, []) == world.db;
  }

  /******* Never active *******/

  lemma {:induction false} PointerNeedsReport(job: Job, pc: Pc, world: World, tape: Tape, tick: nat, s: nat, k: nat)
    requires Possible(job, pc) && PointerAt(job, pc, world.db, s)
    requires k < |Execute(job, pc, world, tape, tick)|
    requires forall j :: 0 <= j <= k ==> Execute(job, pc, world, tape, tick)[j].call != Tell(Activated)
    ensures ActiveOf(Execute(job, pc, world, tape, tick)[k].world.db, s) == ActiveOf(world.db, s)
    decreases Rank(pc)
  {
    hide RecordAt, NextAt, Execute, PointerAt, ActiveOf;
    if pc.Done? {
      NoCalls(job, pc, world, tape, tick);
    } else {
      var records := Execute(job, pc, world, tape, tick);
      var record, next := RecordAt(job, pc, world, tape(tick)), NextAt(job, pc, world, tape(tick));
      Unfold(job, pc, world, tape, tick);
      NextPossible(job, pc, world, tape(tick));
      PointerStep(job, pc, world, tape(tick), s);
      NextOfRecord(job, pc, world, tape(tick));
      assert records[0] == record;
      assert !pc.ReportActive? && !pc.ReportCronActive?;
      if k > 0 {
        var rest := Execute(job, next, record.world, tape, tick + 1);
        forall j | 0 <= j <= k - 1 ensures rest[j].call != Tell(Activated) {
          assert rest[j] == records[j + 1];
        }
        PointerNeedsReport(job, next, record.world, tape, tick + 1, s, k - 1);
      }
    }
  }

  /** One failing call on the way, be it the pull, the command, the start of the container, its
      readiness, the change of the route or its verification, fails the deployment: it ends failed,
      removed, with the route back where it was, and was not active at any call. */
  lemma OneFailingCallFails(job: Job, world: World, tape: Tape, s: nat, n: nat, effect: bool)
    requires RunnerOutcomes.Wanted(job, world.db, s) && job.previous != Some(job.release)
    requires Known(world.db, job.release, s) && ActiveOf(world.db, s) != Some(job.release)
    requires OneFails(tape, 0, n, effect)
    requires n < |Forward(job)| && BacksOut(Forward(job)[n], At(Forward(job), n + 1), false)
    ensures var records := Execute(job, START, world, tape, 0);
            var end := After(world, records);
            && job.release < |end.db.deployments| && end.db.deployments[job.release].status.Failed?
            && end.route == (if job.public then job.previous else None) && job.release !in end.running
            && forall k :: 0 <= k < |records| ==> ActiveOf(records[k].world.db, s) == ActiveOf(world.db, s)
  {
    hide Execute, Forward, Path, BacksOut, Known, ActiveOf, RunnerOutcomes.Wanted;
    PathIsForward(job);
    FailsAt(job, START, world, tape, 0, s, n, effect);
    var records := Execute(job, START, world, tape, 0);
    forall k | 0 <= k < |records| ensures ActiveOf(records[k].world.db, s) == ActiveOf(world.db, s) {
      forall j | 0 <= j <= k ensures records[j].call != Tell(Activated) {
        if records[j].call == Tell(Activated) {
          ActivationIsEarned(job, world, tape, 0, j);
          ActivationComesLast(job, j);
          NotAfterActivation(job, n, j);
        }
      }
      PointerNeedsReport(job, START, world, tape, 0, s, k);
    }
  }

  /** No call after the activation makes a deployment fail. */
  lemma NotAfterActivation(job: Job, n: nat, j: nat)
    requires j < |Forward(job)| && Forward(job)[j] == Tell(Activated)
    requires j == |Forward(job)| - (if job.previous.Some? then 2 else 1)
    requires job.previous.Some? ==>
               Forward(job)[j + 1] == StopContainer(job.previous.value) || Forward(job)[j + 1] == RemoveContainer(job.previous.value)
    requires n < |Forward(job)| && BacksOut(Forward(job)[n], At(Forward(job), n + 1), false)
    ensures n < j
  {
    hide Forward;
  }

  /** A call that is lost fails; it leaves what it would have left if it took effect, and else only what
      others did just before. */
  lemma LostCallsExactly(job: Job, call: Call, world: World, others: seq<StoreRuns.Event>, expired: bool)
    ensures forall effect: bool :: !Succeeds(job, call, world, Slot(others, Lost(effect, expired)))
    ensures Reached(job, call, world, Slot(others, Lost(true, expired))) == Reached(job, call, world, Slot(others, Fine))
    ensures Reached(job, call, world, Slot(others, Lost(false, expired))) == World(world.running, world.route, Interfere(world.db, others))
  {
  }
}
