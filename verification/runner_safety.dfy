/** What every execution of the deployment protocol keeps, at every call and whatever fails. */
module RunnerSafety {
  import opened Common
  import opened StoreModel
  import opened RunnerModel

  lemma Unfold(job: Job, pc: Pc, world: World, tape: Tape, tick: nat)
    requires Possible(job, pc) && !pc.Done?
    ensures Possible(job, NextAt(job, pc, world, tape(tick)))
    ensures Execute(job, pc, world, tape, tick) ==
            [RecordAt(job, pc, world, tape(tick))]
            + Execute(job, NextAt(job, pc, world, tape(tick)), RecordAt(job, pc, world, tape(tick)).world, tape, tick + 1)
  {
    NextPossible(job, pc, world, tape(tick));
  }

  /******* One writer for a shared volume *******/

  predicate OneWriter(job: Job, running: set<nat>) {
    job.previous.Some? ==> !(job.release in running && job.previous.value in running)
  }

  /** At some points one of the two containers is known to be stopped. */
  predicate WriterAt(job: Job, pc: Pc, running: set<nat>) {
    && OneWriter(job, running)
    && (pc.Ensuring? && job.previous.Some? ==> job.previous.value !in running)
    && (pc.FailEnsure? ==> job.release !in running)
  }

  lemma WriterStep(job: Job, pc: Pc, world: World, slot: Slot)
    requires Possible(job, pc) && !pc.Done? && job.volume && job.previous != Some(job.release)
    requires WriterAt(job, pc, world.running)
    ensures WriterAt(job, NextAt(job, pc, world, slot), RecordAt(job, pc, world, slot).world.running)
  {
    hide Interfere, Report;
  }

  /** If the two containers of a volume deployment do not both run at the start, they never do,
      whatever calls fail, on the way forward and on the way back. */
  lemma {:induction false} SingleWriter(job: Job, pc: Pc, world: World, tape: Tape, tick: nat, k: nat)
    requires Possible(job, pc) && job.volume && job.previous != Some(job.release)
    requires WriterAt(job, pc, world.running)
    requires k < |Execute(job, pc, world, tape, tick)|
    ensures OneWriter(job, Execute(job, pc, world, tape, tick)[k].world.running)
    decreases Rank(pc)
  {
    hide RecordAt, NextAt, Execute;
    if pc.Done? {
      NoCalls(job, pc, world, tape, tick);
    } else {
      var record, next := RecordAt(job, pc, world, tape(tick)), NextAt(job, pc, world, tape(tick));
      Unfold(job, pc, world, tape, tick);
      WriterStep(job, pc, world, tape(tick));
      NextPossible(job, pc, world, tape(tick));
      if k > 0 {
        SingleWriter(job, next, record.world, tape, tick + 1, k - 1);
      }
    }
  }

  lemma NoCalls(job: Job, pc: Pc, world: World, tape: Tape, tick: nat)
    requires pc.Done?
    ensures Execute(job, pc, world, tape, tick) == []
  {
  }

  lemma NextPossible(job: Job, pc: Pc, world: World, slot: Slot)
    requires Possible(job, pc) && !pc.Done?
    ensures Possible(job, NextAt(job, pc, world, slot)) && Rank(NextAt(job, pc, world, slot)) < Rank(pc)
  {
    NextDescends(job, pc, Succeeds(job, CallAt(job, pc), world, slot), Expired(slot));
  }

  /******* Traffic always has a running target *******/

  predicate Served(route: Option<nat>, running: set<nat>) {
    route.Some? ==> route.value in running
  }

  /** What a job without a volume keeps: Previous runs until the activation is acknowledged, the
      candidate runs from its start on, and the route is known where it decides a removal. */
  predicate ServedAt(job: Job, pc: Pc, world: World) {
    && Served(world.route, world.running)
    && (job.previous.Some? && !pc.Done? ==> job.previous.value in world.running)
    && (pc in {ReportChecking, AwaitReady, ReportRouting, SwitchRoute, VerifyRoute, ReportActive, RetirePrevious}
        ==> job.release in world.running)
    && (pc in {VerifyRoute, ReportActive, RetirePrevious} ==> world.route == RouteTo(job, Some(job.release)))
    && (pc in {ReportCronActive, RemoveCronPrevious} ==> world.route == None)
    && (pc in {FailVerify, FailCleanup, ReportFailed} ==> world.route == RouteTo(job, job.previous))
  }

  lemma ServedStep(job: Job, pc: Pc, world: World, slot: Slot)
    requires Possible(job, pc) && !pc.Done? && !job.volume && job.previous != Some(job.release)
    requires ServedAt(job, pc, world)
    ensures ServedAt(job, NextAt(job, pc, world, slot), RecordAt(job, pc, world, slot).world)
  {
    hide Interfere, Report;
  }

  /** Without a shared volume a route never leads to a container that does not run, whatever calls
      fail: if it did not at the start, it does not after any call. */
  lemma {:induction false} RouteLeadsToRunning(job: Job, pc: Pc, world: World, tape: Tape, tick: nat, k: nat)
    requires Possible(job, pc) && !job.volume && job.previous != Some(job.release)
    requires ServedAt(job, pc, world)
    requires k < |Execute(job, pc, world, tape, tick)|
    ensures var after := Execute(job, pc, world, tape, tick)[k].world; Served(after.route, after.running)
    decreases Rank(pc)
  {
    hide RecordAt, NextAt, Execute;
    if pc.Done? {
      NoCalls(job, pc, world, tape, tick);
    } else {
      var record, next := RecordAt(job, pc, world, tape(tick)), NextAt(job, pc, world, tape(tick));
      Unfold(job, pc, world, tape, tick);
      ServedStep(job, pc, world, tape(tick));
      NextPossible(job, pc, world, tape(tick));
      if k > 0 {
        RouteLeadsToRunning(job, next, record.world, tape, tick + 1, k - 1);
      }
    }
  }

  /** A public service whose traffic has somewhere to go back to. */
  predicate Replaces(job: Job) {
    job.public && !job.cron && !job.volume && job.previous.Some? && job.previous.value != job.release
  }

  lemma RoutedStep(job: Job, pc: Pc, world: World, slot: Slot)
    requires Possible(job, pc) && !pc.Done? && Replaces(job) && world.route.Some?
    ensures RecordAt(job, pc, world, slot).world.route.Some?
  {
    hide Interfere, Report;
  }

  /** Replacing a release of a public service without a volume never interrupts its traffic: from a
      start where the route leads to a running container and Previous runs, the service is routed
      and the routed container runs after every call, whatever calls fail. */
  lemma {:induction false} TrafficIsServed(job: Job, pc: Pc, world: World, tape: Tape, tick: nat, k: nat)
    requires Possible(job, pc) && Replaces(job) && ServedAt(job, pc, world) && world.route.Some?
    requires k < |Execute(job, pc, world, tape, tick)|
    ensures var after := Execute(job, pc, world, tape, tick)[k].world;
            after.route.Some? && after.route.value in after.running
    decreases Rank(pc)
  {
    hide RecordAt, NextAt, Execute;
    if pc.Done? {
      NoCalls(job, pc, world, tape, tick);
    } else {
      var record, next := RecordAt(job, pc, world, tape(tick)), NextAt(job, pc, world, tape(tick));
      Unfold(job, pc, world, tape, tick);
      ServedStep(job, pc, world, tape(tick));
      RoutedStep(job, pc, world, tape(tick));
      NextPossible(job, pc, world, tape(tick));
      if k > 0 {
        TrafficIsServed(job, next, record.world, tape, tick + 1, k - 1);
      }
    }
  }

  /******* The order of stopping and removing *******/

  predicate Hits(call: Call, id: nat) {
    call == StopContainer(id) || call == RemoveContainer(id)
  }

  ghost predicate Acknowledged(records: seq<Record>, k: nat)
    requires k <= |records|
  {
    exists j :: 0 <= j < k && records[j].call == Tell(Activated) && records[j].ok
  }

  /** The old container is stopped or removed only after the activation was acknowledged. */
  lemma {:induction false} OldOutlivesActivation(job: Job, pc: Pc, world: World, tape: Tape, tick: nat, k: nat)
    requires Possible(job, pc) && !job.volume && job.previous.Some? && job.previous.value != job.release
    requires !pc.RetirePrevious? && !pc.RemoveCronPrevious?
    requires k < |Execute(job, pc, world, tape, tick)| && Hits(Execute(job, pc, world, tape, tick)[k].call, job.previous.value)
    ensures Acknowledged(Execute(job, pc, world, tape, tick), k)
    decreases Rank(pc)
  {
    hide Execute, Interfere, Report;
    var records := Execute(job, pc, world, tape, tick);
    if pc.Done? {
      NoCalls(job, pc, world, tape, tick);
    } else {
      var record, next := RecordAt(job, pc, world, tape(tick)), NextAt(job, pc, world, tape(tick));
      Unfold(job, pc, world, tape, tick);
      var rest := Execute(job, next, record.world, tape, tick + 1);
      assert k > 0;
      if next.RetirePrevious? || next.RemoveCronPrevious? {
        assert records[0].call == Tell(Activated) && records[0].ok;
      } else {
        OldOutlivesActivation(job, next, record.world, tape, tick + 1, k - 1);
        var j :| 0 <= j < k - 1 && rest[j].call == Tell(Activated) && rest[j].ok;
        assert records[j + 1] == rest[j];
      }
    }
  }

  /** The old route is back, and was seen to work if it leads to a release. */
  ghost predicate RestoredBefore(job: Job, records: seq<Record>, k: nat)
    requires k <= |records|
  {
    exists j :: 0 <= j < k
                && records[j].call == SetRoute(RouteTo(job, job.previous)) && records[j].ok
                && (RouteTo(job, job.previous).Some? ==> VerifiedBetween(job, records, j, k))
  }

  ghost predicate VerifiedBetween(job: Job, records: seq<Record>, j: nat, k: nat)
    requires j < k <= |records| && job.previous.Some?
  {
    exists m :: j < m < k && records[m].call == Verify(job.previous.value) && records[m].ok
  }

  lemma RestoredShift(job: Job, first: Record, rest: seq<Record>, k: nat)
    requires 0 < k <= |rest| + 1 && RestoredBefore(job, rest, k - 1)
    ensures RestoredBefore(job, [first] + rest, k)
  {
    var records := [first] + rest;
    var j :| 0 <= j < k - 1
             && rest[j].call == SetRoute(RouteTo(job, job.previous)) && rest[j].ok
             && (RouteTo(job, job.previous).Some? ==> VerifiedBetween(job, rest, j, k - 1));
    assert records[j + 1] == rest[j];
    if RouteTo(job, job.previous).Some? {
      var m :| j < m < k - 1 && rest[m].call == Verify(job.previous.value) && rest[m].ok;
      assert records[m + 1] == rest[m];
      assert VerifiedBetween(job, records, j + 1, k);
    }
  }

  lemma RestoredAtFailure(job: Job, world: World, tape: Tape, tick: nat, k: nat)
    requires k < |Execute(job, FailRoute, world, tape, tick)|
    requires Execute(job, FailRoute, world, tape, tick)[k].call == RemoveContainer(job.release)
    ensures RestoredBefore(job, Execute(job, FailRoute, world, tape, tick), k)
  {
    hide Interfere, Report;
    var records := Execute(job, FailRoute, world, tape, tick);
    var w1 := RecordAt(job, FailRoute, world, tape(tick)).world;
    var pc1 := NextAt(job, FailRoute, world, tape(tick));
    Unfold(job, FailRoute, world, tape, tick);
    assert k > 0 && !pc1.Done?;
    assert records[0].call == SetRoute(RouteTo(job, job.previous)) && records[0].ok;
    if RouteTo(job, job.previous).Some? {
      Unfold(job, pc1, w1, tape, tick + 1);
      assert pc1.FailVerify? && k > 1;
      assert records[1].call == Verify(job.previous.value) && records[1].ok;
      assert VerifiedBetween(job, records, 0, k);
    }
  }

  /** Without a shared volume the candidate is removed only once the old route is restored and,
      when it leads to a release, verified. */
  lemma {:induction false} CandidateOutlivesRestore(job: Job, pc: Pc, world: World, tape: Tape, tick: nat, k: nat)
    requires Possible(job, pc) && !job.volume && job.previous != Some(job.release)
    requires !pc.FailVerify? && !pc.FailCleanup?
    requires k < |Execute(job, pc, world, tape, tick)|
    requires Execute(job, pc, world, tape, tick)[k].call == RemoveContainer(job.release)
    ensures RestoredBefore(job, Execute(job, pc, world, tape, tick), k)
    decreases Rank(pc)
  {
    hide Execute, Interfere, Report, RestoredBefore;
    if pc.Done? {
      NoCalls(job, pc, world, tape, tick);
    } else if pc.FailRoute? {
      RestoredAtFailure(job, world, tape, tick, k);
    } else {
      var record, next := RecordAt(job, pc, world, tape(tick)), NextAt(job, pc, world, tape(tick));
      Unfold(job, pc, world, tape, tick);
      assert k > 0;
      CandidateOutlivesRestore(job, next, record.world, tape, tick + 1, k - 1);
      RestoredShift(job, record, Execute(job, next, record.world, tape, tick + 1), k);
    }
  }
}
