/** The agent's runner (internal/agent/runner.go), as the code runs it: one call after the other,
    with early returns, and the same failure path from every place.  Every method appends to the
    trace exactly the records of the protocol that the other modules reason about. */
module Runners {
  import opened Common
  import opened StoreModel
  import opened RunnerModel
  import opened RunnerSafety
  import opened RunnerProduct

  function After(world: World, records: seq<Record>): World {
    if |records| == 0 then world else records[|records| - 1].world
  }

  /** One job of the agent's loop: the deployment and, when the job's time is over or it was
      cancelled, its recovery. */
  function Attempt(job: Job, world: World, tape: Tape, tick: nat, over: bool): seq<Record> {
    var records := Execute(job, START, world, tape, tick);
    if over then records + Execute(job, FailFrom(job), After(world, records), tape, tick + |records|) else records
  }

  /** The one-writer promise covers the whole attempt, recovery included. */
  lemma AttemptHasOneWriter(job: Job, world: World, tape: Tape, tick: nat, over: bool, k: nat)
    requires job.volume && job.previous != Some(job.release) && OneWriter(job, world.running)
    requires k < |Attempt(job, world, tape, tick, over)|
    ensures OneWriter(job, Attempt(job, world, tape, tick, over)[k].world.running)
  {
    hide Execute, OneWriter;
    var records := Execute(job, START, world, tape, tick);
    if |records| > 0 {
      SingleWriter(job, START, world, tape, tick, |records| - 1);
    }
    if k < |records| {
      SingleWriter(job, START, world, tape, tick, k);
    } else {
      SingleWriter(job, FailFrom(job), After(world, records), tape, tick + |records|, k - |records|);
    }
  }

  /** The whole attempt spares the active container, unless the job is given up after its
      activation took effect. */
  lemma AttemptSparesActive(job: Job, world: World, tape: Tape, tick: nat, over: bool, s: nat, k: nat)
    requires Known(world.db, job.release, s) && ActiveOf(world.db, s) != Some(job.release) && job.previous != Some(job.release)
    requires over ==> ActiveOf(After(world, Execute(job, START, world, tape, tick)).db, s) != Some(job.release)
    requires k < |Attempt(job, world, tape, tick, over)|
    ensures Spares(job, Attempt(job, world, tape, tick, over)[k], s)
  {
    hide Execute, Known, ActiveOf, Hits, HandsOver;
    var records := Execute(job, START, world, tape, tick);
    var after := After(world, records);
    if |records| > 0 {
      KnownAlong(job, START, world, tape, tick, s, |records| - 1);
    }
    var record := Attempt(job, world, tape, tick, over)[k];
    forall id: nat | Hits(record.call, id) && ActiveOf(record.world.db, s) == Some(id) ensures HandsOver(job, record.call) {
      if k < |records| {
        ActiveUntouched(job, START, world, tape, tick, s, k, id);
      } else {
        ActiveUntouched(job, FailFrom(job), after, tape, tick + |records|, s, k - |records|, id);
      }
    }
  }

  lemma {:induction false} KnownAlong(job: Job, pc: Pc, world: World, tape: Tape, tick: nat, s: nat, k: nat)
    requires Possible(job, pc) && PointerAt(job, pc, world.db, s)
    requires k < |Execute(job, pc, world, tape, tick)|
    ensures Known(Execute(job, pc, world, tape, tick)[k].world.db, job.release, s)
    decreases Rank(pc)
  {
    hide RecordAt, NextAt, Execute, Known, ActiveOf;
    if pc.Done? {
      NoCalls(job, pc, world, tape, tick);
    } else {
      Unfold(job, pc, world, tape, tick);
      NextPossible(job, pc, world, tape(tick));
      PointerStep(job, pc, world, tape(tick), s);
      if k > 0 {
        KnownAlong(job, NextAt(job, pc, world, tape(tick)), RecordAt(job, pc, world, tape(tick)).world, tape, tick + 1, s, k - 1);
      }
    }
  }

  class Runner {
    const start: World
    const tape: Tape
    var running: set<nat>
    var route: Option<nat>
    var db: Db
    var trace: seq<Record>

    /** The trace tells the whole history of the world. */
    ghost predicate Valid()
      reads this
    {
      World() == After(start, trace)
    }

    function World(): World
      reads this
    {
      RunnerModel.World(running, route, db)
    }

    /** The trace at the end, if the protocol now goes on from `pc`. */
    ghost function Total(job: Job, pc: Pc): seq<Record>
      requires Possible(job, pc)
      reads this
    {
      trace + Execute(job, pc, World(), tape, |trace|)
    }

    constructor (world: World, tape: Tape)
      ensures Valid() && World() == world && this.tape == tape && trace == []
    {
      this.start := world;
      this.tape := tape;
      running, route, db := world.running, world.route, world.db;
      trace := [];
    }

    /** One call: others may use the store before it, and it may fail, even after its effect. */
    method Make(job: Job, call: Call) returns (ok: bool, expired: bool)
      requires Valid()
      modifies this
      ensures Valid() && World() == Reached(job, call, old(World()), tape(|old(trace)|))
      ensures ok == Succeeds(job, call, old(World()), tape(|old(trace)|)) && expired == Expired(tape(|old(trace)|))
      ensures trace == old(trace) + [Record(call, ok, World())]
    {
      hide Report, Interfere;
      var slot := tape(|trace|);
      db := Interfere(db, slot.others);
      ok := slot.fault.Fine? && Accepted(job, call, World());
      expired := Expired(slot);
      if slot.fault.Fine? || slot.fault.effect {
        match call
        case EnsureContainer(id) => running := running + {id};
        case StopContainer(id) => running := running - {id};
        case RemoveContainer(id) => running := running - {id};
        case SetRoute(to) => route := to;
        case Tell(reported) =>
          var reply := Report(db, job.release, job.token, reported, db.clock);
          db := reply.db;
        case _ =>
      }
      trace := trace + [Record(call, ok, World())];
    }

    /** The call at the point `pc` of the protocol, which then goes on from `Next`. */
    method Do(job: Job, ghost pc: Pc, call: Call) returns (ok: bool, expired: bool)
      requires Valid() && Possible(job, pc) && !pc.Done? && call == CallAt(job, pc)
      modifies this
      ensures Valid() && Possible(job, Next(job, pc, ok, expired))
      ensures Total(job, Next(job, pc, ok, expired)) == old(Total(job, pc))
      ensures Next(job, pc, ok, expired).Done? ==> trace == old(Total(job, pc))
    {
      hide Reached, Succeeds, Expired, Execute, Valid, World, Possible, Next, CallAt;
      ghost var before, tick := World(), |trace|;
      ok, expired := Make(job, call);
      Unfold(job, pc, before, tape, tick);
      NextDescends(job, pc, ok, expired);
      if Next(job, pc, ok, expired).Done? {
        NoCalls(job, Next(job, pc, ok, expired), World(), tape, |trace|);
      }
    }

    /** The failure path: free a shared volume, bring Previous back, restore and verify the route,
        and only then remove the candidate and report. */
    method FailWithLogs(job: Job)
      requires Valid()
      modifies this
      ensures Valid() && trace == old(Total(job, FailFrom(job)))
    {
      hide Execute, Total, World, Valid;
      var ok, expired;
      if job.volume {
        ok := FreeVolume(job);
        if !ok { return; }
      }
      ok, expired := Do(job, FailRoute, SetRoute(RouteTo(job, job.previous)));
      if !ok { return; }
      if job.previous.Some? && job.public {
        ok, expired := Do(job, FailVerify, Verify(job.previous.value));
        if !ok { return; }
      }
      ok, expired := Do(job, FailCleanup, RemoveContainer(job.release));
      if !ok { return; }
      ok, expired := Do(job, ReportFailed, Tell(Failure));
    }

    method FreeVolume(job: Job) returns (ok: bool)
      requires Valid() && job.volume
      modifies this
      ensures Valid()
      ensures ok ==> Total(job, FailRoute) == old(Total(job, FailRemove))
      ensures !ok ==> trace == old(Total(job, FailRemove))
    {
      hide Execute, Total, World, Valid;
      var expired;
      ok, expired := Do(job, FailRemove, RemoveContainer(job.release));
      if !ok { return; }
      if job.previous.Some? {
        ok, expired := Do(job, FailEnsure, EnsureContainer(job.previous.value));
        if !ok { return; }
        ok, expired := Do(job, FailReady, Ready(job.previous.value));
      }
    }

    /** A call whose failure ends the candidate, unless the job's own time is over. */
    method DoOrFail(job: Job, ghost pc: Pc, call: Call) returns (ok: bool)
      requires Valid() && Possible(job, pc) && !pc.Done? && call == CallAt(job, pc)
      requires Next(job, pc, false, true).Done? && Next(job, pc, false, false) == FailFrom(job)
      modifies this
      ensures Valid() && Possible(job, Next(job, pc, true, false))
      ensures ok ==> Total(job, Next(job, pc, true, false)) == old(Total(job, pc))
      ensures !ok || Next(job, pc, true, false).Done? ==> trace == old(Total(job, pc))
    {
      hide Execute, Total, World, Valid;
      var expired;
      ok, expired := Do(job, pc, call);
      if !ok && !expired {
        FailWithLogs(job);
      }
      SuccessIgnoresTime(job, pc, expired);
    }

    lemma SuccessIgnoresTime(job: Job, pc: Pc, expired: bool)
      requires !pc.Done? && Possible(job, pc)
      ensures Next(job, pc, true, expired) == Next(job, pc, true, false) && Possible(job, Next(job, pc, true, false))
    {
      NextDescends(job, pc, true, false);
    }

    /** The one-shot command that runs in its own container before the release starts. */
    method PreDeployFirst(job: Job) returns (ok: bool)
      requires Valid()
      modifies this
      ensures Valid()
      ensures ok ==> Total(job, ReportStarting) == old(Total(job, ReportPredeploy))
      ensures !ok ==> trace == old(Total(job, ReportPredeploy))
    {
      hide Execute, Total, World, Valid;
      var expired;
      ok, expired := Do(job, ReportPredeploy, Tell(Progress(Predeploy)));
      if !ok { return; }
      ok, expired := Do(job, Predeploying, PreDeploy);
      if !ok {
        if !expired {
          var cleaned;
          cleaned, expired := Do(job, DropFailedPredeploy, RemovePreDeploy);
          FailWithLogs(job);
        }
        return;
      }
      ok, expired := Do(job, DropPredeploy, RemovePreDeploy);
    }

    method ActivateCron(job: Job)
      requires Valid() && job.cron
      modifies this
      ensures Valid() && trace == old(Total(job, ClearCronRoute))
    {
      hide Execute, Total, World, Valid;
      var ok, expired := Do(job, ClearCronRoute, SetRoute(None));
      if !ok {
        FailWithLogs(job);
        return;
      }
      ok, expired := Do(job, ReportCronActive, Tell(Activated));
      if !ok { return; }
      if job.previous.Some? {
        ok, expired := Do(job, RemoveCronPrevious, RemoveContainer(job.previous.value));
      }
    }

    method Replace(job: Job)
      requires Valid() && !job.cron
      modifies this
      ensures Valid()
      ensures trace == old(Total(job, if job.volume && job.previous.Some? then ClearRoute else Ensuring))
    {
      hide Execute, Total, World, Valid;
      var ok, expired;
      if job.volume && job.previous.Some? {
        ok, expired := Do(job, ClearRoute, SetRoute(None));
        if !ok { return; }
        ok, expired := Do(job, StopPrevious, StopContainer(job.previous.value));
        if !ok { return; }
      }
      ok := DoOrFail(job, Ensuring, EnsureContainer(job.release));
      if !ok { return; }
      ok, expired := Do(job, ReportChecking, Tell(Progress(Checking)));
      if !ok { return; }
      ok := DoOrFail(job, AwaitReady, Ready(job.release));
      if !ok { return; }
      ok, expired := Do(job, ReportRouting, Tell(Progress(Routing)));
      if !ok { return; }
      SwitchOver(job);
    }

    method SwitchOver(job: Job)
      requires Valid() && !job.cron
      modifies this
      ensures Valid() && trace == old(Total(job, SwitchRoute))
    {
      hide Execute, Total, World, Valid;
      var ok, expired := Do(job, SwitchRoute, SetRoute(RouteTo(job, Some(job.release))));
      if !ok {
        FailWithLogs(job);
        return;
      }
      if job.public {
        ok := DoOrFail(job, VerifyRoute, Verify(job.release));
        if !ok { return; }
      }
      ok, expired := Do(job, ReportActive, Tell(Activated));
      if !ok { return; }
      if job.previous.Some? {
        ok, expired := Do(job, RetirePrevious, StopContainer(job.previous.value));
      }
    }

    method Run(job: Job)
      requires Valid()
      modifies this
      ensures Valid() && trace == old(trace + Execute(job, START, World(), tape, |trace|))
    {
      hide Execute, World, Valid;
      var ok, expired := Do(job, ReportPulling, Tell(Progress(Pulling)));
      if !ok { return; }
      ok := DoOrFail(job, PullImage, Pull);
      if !ok { return; }
      if job.predeploy {
        ok := PreDeployFirst(job);
        if !ok { return; }
      }
      ok, expired := Do(job, ReportStarting, Tell(Progress(Starting)));
      if !ok { return; }
      if job.cron {
        ActivateCron(job);
      } else {
        Replace(job);
      }
    }

    method RecoverCancellation(job: Job)
      requires Valid()
      modifies this
      ensures Valid() && trace == old(trace + Execute(job, FailFrom(job), World(), tape, |trace|))
    {
      FailWithLogs(job);
    }

    /** The agent's loop on one claimed deployment; `over` is the state of the job's context. */
    method Work(job: Job, over: bool)
      requires Valid()
      modifies this
      ensures Valid() && trace == old(trace + Attempt(job, World(), tape, |trace|, over))
    {
      hide Execute;
      ghost var before, written := World(), trace;
      Run(job);
      ghost var records := Execute(job, START, before, tape, |written|);
      assert World() == After(before, records);
      if over {
        RecoverCancellation(job);
        assert trace == written + Attempt(job, before, tape, |written|, over);
      }
    }
  }
}
