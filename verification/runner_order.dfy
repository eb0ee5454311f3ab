/** In which order the agent's calls come, whatever fails: the whole shape of an execution. */
module RunnerOrder {
  import opened Common
  import opened StoreModel
  import opened StoreRuns
  import opened RunnerModel
  import opened RunnerSafety

  /** The candidate starts, is checked, and is routed to. */
  function Opening(job: Job): seq<Call> {
    [EnsureContainer(job.release), Tell(Progress(Checking)), Ready(job.release), Tell(Progress(Routing)),
     SetRoute(if job.public then Some(job.release) else None)]
  }

  /** It is verified, activated, and the previous release stops. */
  function Closing(job: Job): seq<Call> {
    (if job.public then [Verify(job.release)] else [])
    + [Tell(Activated)] + (if job.previous.Some? then [StopContainer(job.previous.value)] else [])
  }

  /** A cron release only gives up its route; any other takes over, a shared volume first. */
  function Takeover(job: Job): seq<Call> {
    if job.cron then
      [SetRoute(None), Tell(Activated)] + (if job.previous.Some? then [RemoveContainer(job.previous.value)] else [])
    else
      (if job.volume && job.previous.Some? then [SetRoute(None), StopContainer(job.previous.value)] else [])
      + Opening(job) + Closing(job)
  }

  /** Everything that a deployment has to do. */
  function Forward(job: Job): seq<Call> {
    [Tell(Progress(Pulling)), Pull]
    + (if job.predeploy then [Tell(Progress(Predeploy)), PreDeploy, RemovePreDeploy] else [])
    + [Tell(Progress(Starting))] + Takeover(job)
  }

  /** The old route is restored and verified, the candidate removed and the failure reported. */
  function Restoring(job: Job): seq<Call> {
    [SetRoute(if job.public then job.previous else None)]
    + (if job.previous.Some? && job.public then [Verify(job.previous.value)] else [])
    + [RemoveContainer(job.release), Tell(Failure)]
  }

  /** Everything that the failure path has to do; a shared volume first goes back to Previous. */
  function Back(job: Job): seq<Call> {
    (if job.volume then
       [RemoveContainer(job.release)]
       + (if job.previous.Some? then [EnsureContainer(job.previous.value), Ready(job.previous.value)] else [])
     else [])
    + Restoring(job)
  }

  /** The calls in their order up to the first that fails, or all of them. */
  predicate Follows(records: seq<Record>, calls: seq<Call>) {
    && |records| <= |calls|
    && (forall i :: 0 <= i < |records| ==> records[i].call == calls[i])
    && (forall i :: 0 <= i < |records| - 1 ==> records[i].ok)
    && (|records| < |calls| ==> |records| > 0 && !records[|records| - 1].ok)
  }

  /** After which failing call the failure path is taken: not after a report, a clean-up or the
      hand-over of a volume, and only after a change of the route if the job's time is over. */
  predicate BacksOut(call: Call, next: Option<Call>, expired: bool) {
    match call
    case Pull => !expired
    case PreDeploy => !expired
    case EnsureContainer(_) => !expired
    case Ready(_) => !expired
    case Verify(_) => !expired
    case SetRoute(_) => !(next.Some? && next.value.StopContainer?)
    case _ => false
  }

  function At(calls: seq<Call>, n: nat): Option<Call> {
    if n < |calls| then Some(calls[n]) else None
  }

  /** The first `n` records follow `calls`; then the failure path follows if the last of them failed
      and asks for it, after the clean-up of a failed command. */
  ghost predicate Shaped(job: Job, records: seq<Record>, calls: seq<Call>, tape: Tape, tick: nat, n: nat) {
    && n <= |records| && Follows(records[..n], calls)
    && (if n == 0 || records[n - 1].ok || !BacksOut(records[n - 1].call, At(calls, n), Expired(tape(tick + n - 1))) then
          n == |records|
        else
          var rest := records[n..];
          if records[n - 1].call.PreDeploy? then
            |rest| > 0 && rest[0].call == RemovePreDeploy && Follows(rest[1..], Back(job))
          else Follows(rest, Back(job)))
  }

  /******* The path through the points of the protocol *******/

  function Path(job: Job, pc: Pc): seq<Call>
    requires Possible(job, pc)
    decreases Rank(pc)
  {
    if pc.Done? then []
    else
      NextDescends(job, pc, true, false);
      [CallAt(job, pc)] + Path(job, Next(job, pc, true, false))
  }

  lemma PathStep(job: Job, pc: Pc, call: Call, next: Pc)
    requires Possible(job, pc) && !pc.Done? && CallAt(job, pc) == call && Next(job, pc, true, false) == next
    ensures Possible(job, next) && Path(job, pc) == [call] + Path(job, next)
  {
    NextDescends(job, pc, true, false);
  }

  lemma PathEnds(job: Job)
    ensures Path(job, Done) == []
  {
  }

  lemma PathFromReport(job: Job)
    requires !job.cron
    ensures Path(job, if job.public then VerifyRoute else ReportActive) == Closing(job)
  {
    hide Path;
    PathEnds(job);
    if job.previous.Some? {
      PathStep(job, RetirePrevious, StopContainer(job.previous.value), Done);
    }
    PathStep(job, ReportActive, Tell(Activated), if job.previous.Some? then RetirePrevious else Done);
    if job.public {
      PathStep(job, VerifyRoute, Verify(job.release), ReportActive);
    }
  }

  lemma PathFromEnsuring(job: Job)
    requires !job.cron
    ensures Path(job, Ensuring) == Opening(job) + Closing(job)
  {
    hide Path, Closing;
    PathFromReport(job);
    PathStep(job, SwitchRoute, SetRoute(if job.public then Some(job.release) else None), if job.public then VerifyRoute else ReportActive);
    PathStep(job, ReportRouting, Tell(Progress(Routing)), SwitchRoute);
    PathStep(job, AwaitReady, Ready(job.release), ReportRouting);
    PathStep(job, ReportChecking, Tell(Progress(Checking)), AwaitReady);
    PathStep(job, Ensuring, EnsureContainer(job.release), ReportChecking);
  }

  lemma PathFromStarting(job: Job)
    ensures Path(job, ReportStarting) == [Tell(Progress(Starting))] + Takeover(job)
  {
    hide Path, Closing, Opening;
    if job.cron {
      PathEnds(job);
      if job.previous.Some? {
        PathStep(job, RemoveCronPrevious, RemoveContainer(job.previous.value), Done);
      }
      PathStep(job, ReportCronActive, Tell(Activated), if job.previous.Some? then RemoveCronPrevious else Done);
      PathStep(job, ClearCronRoute, SetRoute(None), ReportCronActive);
      PathStep(job, ReportStarting, Tell(Progress(Starting)), ClearCronRoute);
    } else {
      PathFromEnsuring(job);
      if job.volume && job.previous.Some? {
        PathStep(job, StopPrevious, StopContainer(job.previous.value), Ensuring);
        PathStep(job, ClearRoute, SetRoute(None), StopPrevious);
        PathStep(job, ReportStarting, Tell(Progress(Starting)), ClearRoute);
      } else {
        PathStep(job, ReportStarting, Tell(Progress(Starting)), Ensuring);
      }
    }
  }

  lemma PathIsForward(job: Job)
    ensures Path(job, START) == Forward(job)
  {
    hide Path;
    PathFromStarting(job);
    hide Takeover;
    if job.predeploy {
      PathStep(job, DropPredeploy, RemovePreDeploy, ReportStarting);
      PathStep(job, Predeploying, PreDeploy, DropPredeploy);
      PathStep(job, ReportPredeploy, Tell(Progress(Predeploy)), Predeploying);
    }
    PathStep(job, PullImage, Pull, if job.predeploy then ReportPredeploy else ReportStarting);
    PathStep(job, ReportPulling, Tell(Progress(Pulling)), PullImage);
  }

  lemma PathFromFailRoute(job: Job)
    ensures Path(job, FailRoute) == Restoring(job)
  {
    hide Path;
    PathEnds(job);
    PathStep(job, ReportFailed, Tell(Failure), Done);
    PathStep(job, FailCleanup, RemoveContainer(job.release), ReportFailed);
    if job.previous.Some? && job.public {
      PathStep(job, FailVerify, Verify(job.previous.value), FailCleanup);
    }
    PathStep(job, FailRoute, SetRoute(if job.public then job.previous else None),
             if job.previous.Some? && job.public then FailVerify else FailCleanup);
  }

  lemma PathIsBack(job: Job)
    ensures Path(job, FailFrom(job)) == Back(job)
  {
    hide Path, Restoring;
    PathFromFailRoute(job);
    if job.volume {
      if job.previous.Some? {
        PathStep(job, FailReady, Ready(job.previous.value), FailRoute);
        PathStep(job, FailEnsure, EnsureContainer(job.previous.value), FailReady);
      }
      PathStep(job, FailRemove, RemoveContainer(job.release), if job.previous.Some? then FailEnsure else FailRoute);
    }
  }

  /******* Every execution keeps to it *******/

  predicate Backward(pc: Pc) {
    || pc.FailRemove? || pc.FailEnsure? || pc.FailReady? || pc.FailRoute? || pc.FailVerify? || pc.FailCleanup?
    || pc.ReportFailed? || pc.Done?
  }

  lemma BackwardStep(job: Job, pc: Pc, expired: bool)
    requires Possible(job, pc) && Backward(pc) && !pc.Done?
    ensures Next(job, pc, false, expired) == Done && Next(job, pc, true, expired) == Next(job, pc, true, false)
    ensures Backward(Next(job, pc, true, false))
  {
  }

  /** Once on the failure path, an execution follows it. */
  lemma {:induction false} FollowsBack(job: Job, pc: Pc, world: World, tape: Tape, tick: nat)
    requires Possible(job, pc) && Backward(pc)
    ensures Follows(Execute(job, pc, world, tape, tick), Path(job, pc))
    decreases Rank(pc)
  {
    hide Execute, Path, RecordAt, NextAt, Backward;
    if pc.Done? {
      NoCalls(job, pc, world, tape, tick);
      PathEnds(job);
    } else {
      var record, next := RecordAt(job, pc, world, tape(tick)), NextAt(job, pc, world, tape(tick));
      Unfold(job, pc, world, tape, tick);
      NextPossible(job, pc, world, tape(tick));
      NextOfRecord(job, pc, world, tape(tick));
      BackwardStep(job, pc, Expired(tape(tick)));
      PathStep(job, pc, CallAt(job, pc), Next(job, pc, true, false));
      if next.Done? {
        NoCalls(job, next, record.world, tape, tick + 1);
        PathEnds(job);
      } else {
        FollowsBack(job, next, record.world, tape, tick + 1);
      }
    }
  }

  lemma NextOfRecord(job: Job, pc: Pc, world: World, slot: Slot)
    requires Possible(job, pc) && !pc.Done?
    ensures RecordAt(job, pc, world, slot).call == CallAt(job, pc)
    ensures NextAt(job, pc, world, slot) == Next(job, pc, RecordAt(job, pc, world, slot).ok, Expired(slot))
  {
    hide Interfere, Report;
  }

  predicate Onward(pc: Pc) {
    pc.Done? || (!Backward(pc) && !pc.DropFailedPredeploy?)
  }

  lemma OnwardStep(job: Job, pc: Pc, expired: bool)
    requires Possible(job, pc) && Onward(pc) && !pc.Done?
    ensures Onward(Next(job, pc, true, expired)) && Next(job, pc, true, expired) == Next(job, pc, true, false)
  {
  }

  /** Where a failing call leads. */
  lemma FailingStep(job: Job, pc: Pc, expired: bool)
    requires Possible(job, pc) && Onward(pc) && !pc.Done?
    ensures Possible(job, Next(job, pc, true, false))
    ensures var call, next := CallAt(job, pc), Next(job, pc, false, expired);
            && (BacksOut(call, At(Path(job, pc), 1), expired) <==> !next.Done?)
            && (!next.Done? ==> next == if call.PreDeploy? then DropFailedPredeploy else FailFrom(job))
  {
    hide Path;
    NextDescends(job, pc, true, false);
    PathStep(job, pc, CallAt(job, pc), Next(job, pc, true, false));
    if CallAt(job, pc).SetRoute? {
      SecondCall(job, pc);
    }
  }

  lemma SecondCall(job: Job, pc: Pc)
    requires Possible(job, pc) && !pc.Done? && CallAt(job, pc).SetRoute? && Onward(pc)
    ensures var second := At(Path(job, pc), 1); (second.Some? && second.value.StopContainer?) <==> pc.ClearRoute?
  {
    hide Path;
    var next := Next(job, pc, true, false);
    NextDescends(job, pc, true, false);
    PathStep(job, pc, CallAt(job, pc), next);
    PathStep(job, next, CallAt(job, next), Next(job, next, true, false));
  }

  lemma ShapedOn(job: Job, record: Record, rest: seq<Record>, calls: seq<Call>, tape: Tape, tick: nat, m: nat)
    requires Shaped(job, rest, calls, tape, tick + 1, m) && record.ok && (m == 0 ==> |rest| == 0)
    ensures Shaped(job, [record] + rest, [record.call] + calls, tape, tick, m + 1)
  {
    var records := [record] + rest;
    assert records[..m + 1] == [record] + rest[..m];
    assert records[m + 1..] == rest[m..];
    if m > 0 {
      assert records[m] == rest[m - 1];
      assert At([record.call] + calls, m + 1) == At(calls, m);
      assert tick + (m + 1) - 1 == tick + 1 + m - 1;
    }
  }

  lemma ShapedTurn(job: Job, pc: Pc, world: World, tape: Tape, tick: nat)
    requires Possible(job, pc) && Onward(pc) && !pc.Done? && !RecordAt(job, pc, world, tape(tick)).ok
    ensures Shaped(job, Execute(job, pc, world, tape, tick), Path(job, pc), tape, tick, 1)
  {
    hide Execute, Path, RecordAt, NextAt, Onward, Next, CallAt, Back, BacksOut;
    var record, next := RecordAt(job, pc, world, tape(tick)), NextAt(job, pc, world, tape(tick));
    Unfold(job, pc, world, tape, tick);
    NextPossible(job, pc, world, tape(tick));
    NextOfRecord(job, pc, world, tape(tick));
    FailingStep(job, pc, Expired(tape(tick)));
    PathStep(job, pc, CallAt(job, pc), Next(job, pc, true, false));
    var records := Execute(job, pc, world, tape, tick);
    var rest := Execute(job, next, record.world, tape, tick + 1);
    assert records[..1] == [record] && records[1..] == rest;
    if next.Done? {
      NoCalls(job, next, record.world, tape, tick + 1);
    } else {
      ShapedBack(job, next, record.world, tape, tick + 1);
    }
  }

  lemma ShapedBack(job: Job, pc: Pc, world: World, tape: Tape, tick: nat)
    requires Possible(job, pc) && (pc == FailFrom(job) || pc.DropFailedPredeploy?)
    ensures var rest := Execute(job, pc, world, tape, tick);
            if pc.DropFailedPredeploy? then |rest| > 0 && rest[0].call == RemovePreDeploy && Follows(rest[1..], Back(job))
            else Follows(rest, Back(job))
  {
    hide Execute, Path, RecordAt, NextAt, Back;
    PathIsBack(job);
    if pc.DropFailedPredeploy? {
      var record := RecordAt(job, pc, world, tape(tick));
      Unfold(job, pc, world, tape, tick);
      NextOfRecord(job, pc, world, tape(tick));
      FollowsBack(job, FailFrom(job), record.world, tape, tick + 1);
    } else {
      FollowsBack(job, pc, world, tape, tick);
    }
  }

  lemma {:induction false} Shaping(job: Job, pc: Pc, world: World, tape: Tape, tick: nat) returns (n: nat)
    requires Possible(job, pc) && Onward(pc)
    ensures Shaped(job, Execute(job, pc, world, tape, tick), Path(job, pc), tape, tick, n)
    ensures n == 0 ==> |Execute(job, pc, world, tape, tick)| == 0
    decreases Rank(pc)
  {
    hide Execute, Path, RecordAt, NextAt, Onward, Next, CallAt, Shaped;
    if pc.Done? {
      NoCalls(job, pc, world, tape, tick);
      PathEnds(job);
      NothingShaped(job, tape, tick);
      return 0;
    }
    var record, next := RecordAt(job, pc, world, tape(tick)), NextAt(job, pc, world, tape(tick));
    if !record.ok {
      ShapedTurn(job, pc, world, tape, tick);
      return 1;
    }
    Unfold(job, pc, world, tape, tick);
    NextPossible(job, pc, world, tape(tick));
    NextOfRecord(job, pc, world, tape(tick));
    OnwardStep(job, pc, Expired(tape(tick)));
    PathStep(job, pc, CallAt(job, pc), Next(job, pc, true, false));
    var m := Shaping(job, next, record.world, tape, tick + 1);
    ShapedOn(job, record, Execute(job, next, record.world, tape, tick + 1), Path(job, next), tape, tick, m);
    n := m + 1;
  }

  lemma NothingShaped(job: Job, tape: Tape, tick: nat)
    ensures Shaped(job, [], [], tape, tick, 0)
  {
  }

  /** Every execution makes the calls of a deployment in their order, each only after all before it
      succeeded, up to the first that fails; then it stops, or takes the failure path, whose calls
      it also makes in their order up to the first that fails. */
  lemma ExecutionIsShaped(job: Job, world: World, tape: Tape, tick: nat) returns (n: nat)
    ensures n > 0 && Shaped(job, Execute(job, START, world, tape, tick), Forward(job), tape, tick, n)
  {
    hide Execute, Shaped, Forward, Path;
    PathIsForward(job);
    n := Shaping(job, START, world, tape, tick);
    Unfold(job, START, world, tape, tick);
  }

  /******* What an activation has seen *******/

  /** The failure path reports no activation. */
  lemma NoActivationBack(job: Job, records: seq<Record>, n: nat)
    requires n <= |records|
    requires var rest := records[n..];
             || Follows(rest, Back(job))
             || (|rest| > 0 && rest[0].call == RemovePreDeploy && Follows(rest[1..], Back(job)))
    ensures forall i :: n <= i < |records| ==> records[i].call != Tell(Activated)
  {
    BackIsNoActivation(job);
    hide Back;
    var rest := records[n..];
    forall i | n <= i < |records| ensures records[i].call != Tell(Activated) {
      assert records[i] == rest[i - n];
      if Follows(rest, Back(job)) {
        assert rest[i - n].call == Back(job)[i - n];
      } else if i > n {
        assert rest[1..][i - n - 1] == rest[i - n];
        assert rest[i - n].call == Back(job)[i - n - 1];
      }
    }
  }

  lemma BackIsNoActivation(job: Job)
    ensures forall i :: 0 <= i < |Back(job)| ==> Back(job)[i] != Tell(Activated)
  {
  }

  lemma {:induction false} OkIsFine(job: Job, pc: Pc, world: World, tape: Tape, tick: nat, k: nat)
    requires Possible(job, pc) && k < |Execute(job, pc, world, tape, tick)| && Execute(job, pc, world, tape, tick)[k].ok
    ensures tape(tick + k).fault.Fine?
    decreases Rank(pc)
  {
    hide Execute, Interfere, Report, NextAt;
    if pc.Done? {
      NoCalls(job, pc, world, tape, tick);
    } else {
      Unfold(job, pc, world, tape, tick);
      NextPossible(job, pc, world, tape(tick));
      if k > 0 {
        OkIsFine(job, NextAt(job, pc, world, tape(tick)), RecordAt(job, pc, world, tape(tick)).world, tape, tick + 1, k - 1);
      }
    }
  }

  /** A release is reported active only after everything that comes before it, and nothing else, was
      done and succeeded, in order: the image pulled, its command run and cleaned up, the container
      started, ready, routed to and, if the service is public, verified. */
  lemma ActivationIsEarned(job: Job, world: World, tape: Tape, tick: nat, k: nat)
    requires k < |Execute(job, START, world, tape, tick)|
    requires Execute(job, START, world, tape, tick)[k].call == Tell(Activated)
    ensures k < |Forward(job)| && Forward(job)[k] == Tell(Activated)
    ensures forall j :: 0 <= j < k ==>
                          var record := Execute(job, START, world, tape, tick)[j];
                          record.ok && record.call == Forward(job)[j] && tape(tick + j).fault.Fine?
  {
    hide Execute, Forward, Back, BacksOut;
    var records := Execute(job, START, world, tape, tick);
    var n := ExecutionIsShaped(job, world, tape, tick);
    if n < |records| {
      NoActivationBack(job, records, n);
    }
    assert k < n && records[..n][k] == records[k];
    forall j | 0 <= j < k ensures records[j].ok && records[j].call == Forward(job)[j] && tape(tick + j).fault.Fine? {
      assert records[..n][j] == records[j];
      OkIsFine(job, START, world, tape, tick, j);
    }
  }

  lemma TakeoverActivates(job: Job)
    ensures var calls := Takeover(job);
            && |calls| >= (if job.previous.Some? then 2 else 1)
            && forall i :: 0 <= i < |calls| ==> (calls[i] == Tell(Activated) <==> i == |calls| - (if job.previous.Some? then 2 else 1))
    ensures var calls := Takeover(job); job.previous.Some? ==>
              calls[|calls| - 1] == StopContainer(job.previous.value) || calls[|calls| - 1] == RemoveContainer(job.previous.value)
  {
  }

  /** The activation is the last call, or only the previous release is stopped after it. */
  lemma ActivationComesLast(job: Job, j: nat)
    requires j < |Forward(job)| && Forward(job)[j] == Tell(Activated)
    ensures j == |Forward(job)| - (if job.previous.Some? then 2 else 1)
    ensures job.previous.Some? ==>
              Forward(job)[j + 1] == StopContainer(job.previous.value) || Forward(job)[j + 1] == RemoveContainer(job.previous.value)
  {
    TakeoverActivates(job);
    hide Takeover;
    var front := [Tell(Progress(Pulling)), Pull]
                 + (if job.predeploy then [Tell(Progress(Predeploy)), PreDeploy, RemovePreDeploy] else [])
                 + [Tell(Progress(Starting))];
    assert Forward(job) == front + Takeover(job);
    assert Tell(Activated) !in front;
    assert j >= |front|;
  }
}
