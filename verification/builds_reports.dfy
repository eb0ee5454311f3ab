/** Where a build's success, its image and its deployment come from, over every run. */
module BuildReports {
  import opened Common
  import opened Leases
  import opened BuildModel
  import opened BuildRuns
  import StoreModel
  import StoreInvariant
  import StoreRuns
  import StoreHistory
  import StorePromises

  /** The token is that of the build's latest attempt, and its time is not over. */
  predicate InForce(build: Build, token: nat, now: Time) {
    && token != 0 && build.lease.token == token
    && build.lease.deadline.Some? && now < build.lease.deadline.value
  }

  /** A report counts exactly if it is well formed, in force, about a build that is open or already has
      that status, and no success of one that was asked to stop; it is then stored as it is, but for
      such a build, which ends cancelled. */
  lemma ReportExactly(yard: Yard, i: nat, token: nat, status: BuildStatus, image: string, valid: bool, now: Time)
    ensures var after := Report(yard, i, token, status, image, valid, now);
            && (after.reply.Ok? <==>
                  && valid && (status.Building? || status.Succeeded? || status.Failed? || status.Cancelled?)
                  && i < |yard.builds| && InForce(yard.builds[i], token, now)
                  && (yard.builds[i].status.Queued? || yard.builds[i].status.Building? || yard.builds[i].status == status)
                  && !(yard.builds[i].cancelRequested && status.Succeeded?))
            && (after.reply.Ok? ==>
                  && |after.yard.builds| == |yard.builds|
                  && after.yard.builds[i].image == image
                  && after.yard.builds[i].status == (if yard.builds[i].cancelRequested && !status.Building? then Cancelled else status)
                  && after.yard.builds[i].lease == yard.builds[i].lease
                  && forall j :: 0 <= j < |yard.builds| && j != i ==> after.yard.builds[j] == yard.builds[j])
            && (after.reply.Err? ==> after.yard == yard)
  {
  }

  /******* One step *******/

  /** The step is a report on build `i` that is accepted. */
  predicate Accepts(yard: Yard, step: Step, i: nat) {
    step.DoReport? && step.i == i && Report(yard, i, step.token, step.status, step.image, step.valid, step.now).reply.Ok?
  }

  /** What the builds are after a step, beside an accepted report: no new success, no new image of an
      old one. */
  predicate NothingNew(before: seq<Build>, after: seq<Build>, i: nat) {
    && |before| <= |after|
    && (i < |before| ==> after[i].status.Succeeded? ==> before[i].status.Succeeded? && after[i].image == before[i].image)
    && (|before| <= i < |after| ==> after[i].status.Queued?)
  }

  lemma {:induction false} PushToAppends(
    yard: Yard, delivery: string, repository: string, branch: string, installation: nat, commit: string, validCommit: bool,
    now: Time, n: nat)
    ensures var after := PushTo(yard, delivery, repository, branch, installation, commit, validCommit, now, n).yard;
            && yard.builds <= after.builds
            && forall j :: |yard.builds| <= j < |after.builds| ==> after.builds[j].status.Queued?
  {
    hide Requested, OpenCount;
    if n > 0 {
      PushToAppends(yard, delivery, repository, branch, installation, commit, validCommit, now, n - 1);
    }
  }

  lemma OneStep(yard: Yard, step: Step, i: nat)
    requires i < |Perform(yard, step).builds| && !Accepts(yard, step, i)
    ensures NothingNew(yard.builds, Perform(yard, step).builds, i)
  {
    match step
    case DoPush(delivery, repository, branch, installation, commit, validCommit, now) =>
      var noted := yard.(deliveries := yard.deliveries + {delivery});
      PushToAppends(noted, delivery, repository, branch, installation, commit, validCommit, now, |yard.db.services|);
      hide PushTo;
    case Elsewhere(event) =>
      hide StoreRuns.Apply;
    case DoHandOver(_, _, _, _, _) =>
      hide StoreModel.Enqueue;
    case _ =>
      hide Requested, OpenCount, NextBuildAttempt;
  }

  lemma AcceptedStep(yard: Yard, step: Step, i: nat)
    requires Accepts(yard, step, i)
    ensures i < |yard.builds| && i < |Perform(yard, step).builds| && InForce(yard.builds[i], step.token, step.now)
    ensures Perform(yard, step).builds[i].image == step.image
    ensures Perform(yard, step).builds[i].status.Succeeded? ==> step.status.Succeeded?
  {
    ReportExactly(yard, i, step.token, step.status, step.image, step.valid, step.now);
  }

  /******* Runs, step after step *******/

  /** The state before step `k` of a run from nothing. */
  function Before(clock: Time, steps: seq<Step>, k: nat): Yard
    requires k <= |steps|
  {
    Run(Idle(StoreModel.Empty(clock)), steps[..k])
  }

  lemma {:induction false} RunSnoc(yard: Yard, steps: seq<Step>)
    requires |steps| > 0
    ensures var n := |steps| - 1; Run(yard, steps) == Perform(Run(yard, steps[..n]), steps[n])
    ensures LegalRun(yard, steps) ==> LegalRun(yard, steps[..|steps| - 1])
    decreases |steps|
  {
    hide Perform, Legal;
    var n := |steps| - 1;
    if n > 0 {
      assert steps[1..][..n - 1] == steps[..n][1..];
      RunSnoc(Perform(yard, steps[0]), steps[1..]);
    } else {
      assert steps[..0] == [] && steps[1..] == [];
    }
  }

  lemma NextState(clock: Time, steps: seq<Step>, k: nat)
    requires k < |steps|
    ensures Before(clock, steps, k + 1) == Perform(Before(clock, steps, k), steps[k])
  {
    hide Perform, Run;
    assert steps[..k + 1][..k] == steps[..k];
    RunSnoc(Idle(StoreModel.Empty(clock)), steps[..k + 1]);
  }

  /** Step `k` of the run is a report on build `i`, with this status and image and the token of that
      time, and in time. */
  ghost predicate Reported(clock: Time, steps: seq<Step>, k: nat, i: nat, status: BuildStatus, image: string) {
    && k < |steps| && steps[k].DoReport? && steps[k].i == i && steps[k].status == status && steps[k].image == image
    && i < |Before(clock, steps, k).builds| && InForce(Before(clock, steps, k).builds[i], steps[k].token, steps[k].now)
  }

  /** No report on build `i` is accepted from step `k` up to step `n`. */
  ghost predicate Unreported(clock: Time, steps: seq<Step>, k: nat, n: nat, i: nat)
    requires n <= |steps|
  {
    forall j :: k <= j < n ==> !Accepts(Before(clock, steps, j), steps[j], i)
  }

  lemma {:induction false} SuccessWasReported(clock: Time, steps: seq<Step>, n: nat, i: nat) returns (k: nat)
    requires n <= |steps| && i < |Before(clock, steps, n).builds| && Before(clock, steps, n).builds[i].status.Succeeded?
    ensures k < n && Reported(clock, steps, k, i, Succeeded, Before(clock, steps, n).builds[i].image)
    ensures Unreported(clock, steps, k + 1, n, i)
  {
    hide Perform, Run, Accepts, InForce;
    if n == 0 {
      NothingBuilt(clock, steps);
    } else {
      var m := n - 1;
      NextState(clock, steps, m);
      var before := Before(clock, steps, m);
      if Accepts(before, steps[m], i) {
        AcceptedStep(before, steps[m], i);
        AcceptsMeans(before, steps[m], i);
        k := m;
      } else {
        OneStep(before, steps[m], i);
        k := SuccessWasReported(clock, steps, m, i);
      }
    }
  }

  lemma AcceptsMeans(yard: Yard, step: Step, i: nat)
    requires Accepts(yard, step, i)
    ensures step.DoReport? && step.i == i
  {
  }

  lemma NothingBuilt(clock: Time, steps: seq<Step>)
    ensures Before(clock, steps, 0).builds == []
  {
  }

  /** A build has succeeded only if a report in force said so, and its image is that of the last report
      on it that was accepted. */
  lemma SucceededExactly(clock: Time, steps: seq<Step>, i: nat) returns (k: nat)
    requires var yard := Run(Idle(StoreModel.Empty(clock)), steps); i < |yard.builds| && yard.builds[i].status.Succeeded?
    ensures var yard := Run(Idle(StoreModel.Empty(clock)), steps);
            Reported(clock, steps, k, i, Succeeded, yard.builds[i].image) && Unreported(clock, steps, k + 1, |steps|, i)
  {
    hide Run, Reported, Unreported;
    assert steps[..|steps|] == steps;
    k := SuccessWasReported(clock, steps, |steps|, i);
  }

  /** A failure or a cancellation reported in force is final: the build stays so, and never gets a
      deployment. */
  lemma FailureIsFinal(
    yard: Yard, i: nat, token: nat, status: BuildStatus, image: string, now: Time, steps: seq<Step>)
    requires YardInv(yard) && i < |yard.builds| && (yard.builds[i].status.Queued? || yard.builds[i].status.Building?)
    requires InForce(yard.builds[i], token, now) && (status.Failed? || status.Cancelled?)
    requires LegalRun(Report(yard, i, token, status, image, true, now).yard, steps)
    ensures var later := Run(Report(yard, i, token, status, image, true, now).yard, steps);
            && Report(yard, i, token, status, image, true, now).reply.Ok?
            && i < |later.builds| && later.builds[i].deployment.None?
            && later.builds[i].status == (if yard.builds[i].cancelRequested then Cancelled else status)
            && forall d: nat :: (i, d) !in later.replies
  {
    hide Run, LegalRun, YardInv, YardEvolves, Report, InForce;
    ReportExactly(yard, i, token, status, image, true, now);
    var after := Report(yard, i, token, status, image, true, now).yard;
    ReportInv(yard, i, token, status, image, true, now);
    RunInv(after, steps);
    ClosedStays(after, Run(after, steps), i);
  }

  lemma ClosedStays(yard: Yard, later: Yard, i: nat)
    requires YardInv(later) && YardEvolves(yard, later)
    requires i < |yard.builds| && (yard.builds[i].status.Failed? || yard.builds[i].status.Cancelled?)
    ensures i < |later.builds| && later.builds[i].status == yard.builds[i].status && later.builds[i].deployment.None?
    ensures forall d: nat :: (i, d) !in later.replies
  {
    hide StoreInvariant.Inv, StoreHistory.Evolves, KeysOk, BoundOk;
    assert BuildEvolves(yard.builds[i], later.builds[i]) && BuildOk(later.builds[i], later.lastToken);
  }

  /******* The images of deployments *******/

  /** Every hand-over is of an image that the build had, as a succeeded one, in some state before it:
      what a flush has read. */
  ghost predicate ImagesRead(clock: Time, steps: seq<Step>) {
    forall m :: 0 <= m < |steps| && steps[m].DoHandOver? ==> ReadBefore(clock, steps, m, steps[m].i, steps[m].image)
  }

  ghost predicate ReadBefore(clock: Time, steps: seq<Step>, m: nat, i: nat, image: string)
    requires m <= |steps|
  {
    exists j :: 0 <= j <= m && HasImage(Before(clock, steps, j), i, image)
  }

  predicate HasImage(yard: Yard, i: nat, image: string) {
    i < |yard.builds| && yard.builds[i].status.Succeeded? && yard.builds[i].image == image
  }

  predicate Runs(deployments: seq<StoreModel.Deployment>, d: nat, image: string) {
    d < |deployments| && deployments[d].payload.spec.image == StoreModel.Reference(image)
  }

  lemma {:induction false} PrefixLegal(yard: Yard, steps: seq<Step>, n: nat)
    requires LegalRun(yard, steps) && n <= |steps|
    ensures LegalRun(yard, steps[..n])
    decreases |steps|
  {
    hide Perform, Legal;
    if n > 0 {
      assert steps[..n][1..] == steps[1..][..n - 1];
      PrefixLegal(Perform(yard, steps[0]), steps[1..], n - 1);
    }
  }

  lemma StateInv(clock: Time, steps: seq<Step>, n: nat)
    requires LegalRun(Idle(StoreModel.Empty(clock)), steps) && n <= |steps|
    ensures YardInv(Before(clock, steps, n))
    ensures n < |steps| ==> Legal(Before(clock, steps, n), steps[n])
  {
    hide Perform, Run, YardInv, YardEvolves, Legal;
    IdleInv(clock);
    PrefixLegal(Idle(StoreModel.Empty(clock)), steps, n);
    RunInv(Idle(StoreModel.Empty(clock)), steps[..n]);
    if n < |steps| {
      assert steps[..n + 1][..n] == steps[..n];
      PrefixLegal(Idle(StoreModel.Empty(clock)), steps, n + 1);
      LastIsLegal(Idle(StoreModel.Empty(clock)), steps[..n + 1]);
    }
  }

  lemma {:induction false} LastIsLegal(yard: Yard, steps: seq<Step>)
    requires |steps| > 0 && LegalRun(yard, steps)
    ensures Legal(Run(yard, steps[..|steps| - 1]), steps[|steps| - 1])
    decreases |steps|
  {
    hide Perform, Legal;
    if |steps| > 1 {
      assert steps[1..][..|steps| - 2] == steps[..|steps| - 1][1..];
      LastIsLegal(Perform(yard, steps[0]), steps[1..]);
    } else {
      assert steps[..0] == [];
    }
  }

  /** The deployments that a step returns for builds. */
  lemma NewReply(yard: Yard, step: Step, i: nat, d: nat)
    requires YardInv(yard) && Legal(yard, step) && (i, d) in Perform(yard, step).replies && (i, d) !in yard.replies
    ensures step.DoHandOver? && step.i == i && Runs(Perform(yard, step).db.deployments, d, step.image)
  {
    hide StoreModel.Enqueue, BuildKey, YardInv, StoreRuns.Apply;
    match step
    case DoHandOver(b, image, valid, resolved, now) =>
      Accepted(yard, b, image, valid, resolved, now, d);
    case DoPush(delivery, repository, branch, installation, commit, validCommit, now) =>
      PushKeepsReplies(yard, delivery, repository, branch, installation, commit, validCommit, now);
    case _ =>
  }

  lemma PushKeepsReplies(
    yard: Yard, delivery: string, repository: string, branch: string, installation: nat, commit: string, validCommit: bool, now: Time)
    ensures Push(yard, delivery, repository, branch, installation, commit, validCommit, now).yard.replies == yard.replies
  {
    hide PushTo;
    var noted := yard.(deliveries := yard.deliveries + {delivery});
    PushToKeepsReplies(noted, delivery, repository, branch, installation, commit, validCommit, now, |yard.db.services|);
  }

  lemma {:induction false} PushToKeepsReplies(
    yard: Yard, delivery: string, repository: string, branch: string, installation: nat, commit: string, validCommit: bool,
    now: Time, n: nat)
    ensures PushTo(yard, delivery, repository, branch, installation, commit, validCommit, now, n).yard.replies == yard.replies
  {
    hide Requested, OpenCount;
    if n > 0 {
      PushToKeepsReplies(yard, delivery, repository, branch, installation, commit, validCommit, now, n - 1);
    }
  }

  lemma StillRuns(yard: Yard, later: Yard, d: nat, image: string)
    requires YardEvolves(yard, later) && Runs(yard.db.deployments, d, image)
    ensures Runs(later.db.deployments, d, image)
  {
    hide StoreHistory.ActionsEvolve, StoreHistory.RunsEvolve, StoreHistory.ServicesEvolve;
    assert StoreHistory.RowEvolves(yard.db.deployments[d], later.db.deployments[d]);
  }

  lemma {:induction false} RepliesRunReadImages(clock: Time, steps: seq<Step>, n: nat, i: nat, d: nat) returns (image: string, j: nat)
    requires LegalRun(Idle(StoreModel.Empty(clock)), steps) && ImagesRead(clock, steps)
    requires n <= |steps| && (i, d) in Before(clock, steps, n).replies
    ensures Runs(Before(clock, steps, n).db.deployments, d, image) && j < n && HasImage(Before(clock, steps, j), i, image)
  {
    hide Perform, Run, YardInv, YardEvolves, Legal, Runs, HasImage;
    if n == 0 {
      NothingReplied(clock, steps);
    } else {
      var m := n - 1;
      var before := Before(clock, steps, m);
      NextState(clock, steps, m);
      StateInv(clock, steps, m);
      StepInv(before, steps[m]);
      if (i, d) in before.replies {
        image, j := RepliesRunReadImages(clock, steps, m, i, d);
        StillRuns(before, Perform(before, steps[m]), d, image);
      } else {
        NewReply(before, steps[m], i, d);
        image := steps[m].image;
        assert ReadBefore(clock, steps, m, i, image);
        j :| 0 <= j <= m && HasImage(Before(clock, steps, j), i, image);
      }
    }
  }

  lemma NothingReplied(clock: Time, steps: seq<Step>)
    ensures Before(clock, steps, 0).replies == {} && Before(clock, steps, 0).db.deployments == []
  {
  }

  /** Every deployment that was ever returned for a build runs an image that a report in force named as
      the build's success. */
  lemma DeployedImagesWereReported(clock: Time, steps: seq<Step>, i: nat, d: nat) returns (image: string, k: nat)
    requires LegalRun(Idle(StoreModel.Empty(clock)), steps) && ImagesRead(clock, steps)
    requires (i, d) in Run(Idle(StoreModel.Empty(clock)), steps).replies
    ensures Runs(Run(Idle(StoreModel.Empty(clock)), steps).db.deployments, d, image)
    ensures Reported(clock, steps, k, i, Succeeded, image)
  {
    hide Run, LegalRun, ImagesRead, Runs, Reported;
    assert steps[..|steps|] == steps;
    var j;
    image, j := RepliesRunReadImages(clock, steps, |steps|, i, d);
    k := SuccessWasReported(clock, steps, j, i);
  }

  /******* Who makes the deployments under a build's key *******/

  /** Somebody asked the store directly for a deployment of this service under this key. */
  predicate AsksFor(step: Step, s: nat, key: string) {
    step.Elsewhere? && step.event.step.DoEnqueue? && step.event.step.s == s && step.event.step.key == key
  }

  /** A deployment that a transaction of the store adds carries the key that was asked for. */
  lemma NewDeployment(db: StoreModel.Db, event: StoreRuns.Event, d: nat)
    requires d < |StoreRuns.Apply(db, event).deployments| && |db.deployments| <= d
    ensures var row := StoreRuns.Apply(db, event).deployments[d];
            || (event.step.DoEnqueue? && event.step.s == row.service && event.step.key == row.key)
            || row.key == "database-bootstrap"
  {
    hide StoreModel.Prior, StoreModel.PendingCount, StoreModel.HasWork, StoreModel.Claim, Holds, StoreModel.ActionPending;
    if event.step.DoClaim? {
      ClaimAddsNothing(StoreRuns.Tick(db, event.now), event.step.after);
    }
  }

  lemma ClaimAddsNothing(db: StoreModel.Db, next: Time)
    ensures |StoreModel.Claim(db, db.clock, next).db.deployments| == |db.deployments|
  {
    hide StoreModel.FirstAction, StoreModel.FirstDeployment, StoreModel.EarliestRun, StoreModel.EarliestService;
  }

  predicate Keyed(deployments: seq<StoreModel.Deployment>, d: nat, s: nat, key: string) {
    d < |deployments| && deployments[d].service == s && deployments[d].key == key
  }

  lemma HandedOverRow(yard: Yard, step: Step, d: nat)
    requires step.DoHandOver? && |yard.db.deployments| <= d < |Perform(yard, step).db.deployments|
    ensures (step.i, d) in Perform(yard, step).replies && Perform(yard, step).db.deployments[d].key == BuildKey(step.i)
  {
    hide StoreModel.Prior, StoreModel.PendingCount, StoreModel.ActionPending, BuildKey;
  }

  lemma NotBootstrap(i: nat)
    ensures BuildKey(i) != "database-bootstrap"
  {
    assert BuildKey(i)[0] == 'b';
  }

  lemma OthersAddNothing(yard: Yard, step: Step)
    requires !step.DoHandOver? && !step.Elsewhere?
    ensures Perform(yard, step).db == yard.db
  {
    match step
    case DoPush(delivery, repository, branch, installation, commit, validCommit, now) =>
      hide PushTo;
      PushKeepsStore(yard.(deliveries := yard.deliveries + {delivery}), delivery, repository, branch, installation, commit,
                     validCommit, now, |yard.db.services|);
    case _ =>
      hide Requested, OpenCount, NextBuildAttempt, Push;
  }

  lemma {:induction false} PushKeepsStore(
    yard: Yard, delivery: string, repository: string, branch: string, installation: nat, commit: string, validCommit: bool,
    now: Time, n: nat)
    ensures PushTo(yard, delivery, repository, branch, installation, commit, validCommit, now, n).yard.db == yard.db
  {
    hide Requested, OpenCount;
    if n > 0 {
      PushKeepsStore(yard, delivery, repository, branch, installation, commit, validCommit, now, n - 1);
    }
  }

  lemma {:induction false} KeyedWas(clock: Time, steps: seq<Step>, n: nat, i: nat, d: nat, s: nat)
    requires LegalRun(Idle(StoreModel.Empty(clock)), steps) && n <= |steps|
    requires Keyed(Before(clock, steps, n).db.deployments, d, s, BuildKey(i))
    ensures (i, d) in Before(clock, steps, n).replies || exists m :: 0 <= m < n && AsksFor(steps[m], s, BuildKey(i))
  {
    hide Perform, Run, YardInv, YardEvolves, Legal, BuildKey, LegalRun;
    if n == 0 {
      NothingReplied(clock, steps);
    } else {
      var m := n - 1;
      var before := Before(clock, steps, m);
      NextState(clock, steps, m);
      StateInv(clock, steps, m);
      StepInv(before, steps[m]);
      if d < |before.db.deployments| {
        RowsStay(before, Perform(before, steps[m]), d);
        KeyedWas(clock, steps, m, i, d, s);
      } else if steps[m].DoHandOver? {
        HandedOverRow(before, steps[m], d);
        BuildKeyInjective(i, steps[m].i);
      } else if steps[m].Elsewhere? {
        ElsewhereApplies(before, steps[m]);
        NewDeployment(before.db, steps[m].event, d);
        NotBootstrap(i);
        assert AsksFor(steps[m], s, BuildKey(i));
      } else {
        OthersAddNothing(before, steps[m]);
      }
    }
  }

  lemma ElsewhereApplies(yard: Yard, step: Step)
    requires step.Elsewhere?
    ensures Perform(yard, step).db == StoreRuns.Apply(yard.db, step.event)
  {
    hide StoreRuns.Apply;
  }

  lemma RowsStay(yard: Yard, later: Yard, d: nat)
    requires YardEvolves(yard, later) && d < |yard.db.deployments|
    ensures d < |later.db.deployments| && later.db.deployments[d].service == yard.db.deployments[d].service
    ensures later.db.deployments[d].key == yard.db.deployments[d].key
    ensures yard.replies <= later.replies
  {
    hide StoreHistory.ActionsEvolve, StoreHistory.RunsEvolve, StoreHistory.ServicesEvolve;
    assert StoreHistory.RowEvolves(yard.db.deployments[d], later.db.deployments[d]);
  }

  /** Every deployment under a build's key runs an image that a report in force named as the build's
      success, unless somebody asked the store directly for a deployment under that very key. */
  lemma BuildDeploymentsRunReportedImages(clock: Time, steps: seq<Step>, i: nat, d: nat)
    requires LegalRun(Idle(StoreModel.Empty(clock)), steps) && ImagesRead(clock, steps)
    requires var yard := Run(Idle(StoreModel.Empty(clock)), steps); MadeFor(yard.builds, yard.db.deployments, i, d)
    ensures var yard := Run(Idle(StoreModel.Empty(clock)), steps);
            || (exists image, k :: Runs(yard.db.deployments, d, image) && Reported(clock, steps, k, i, Succeeded, image))
            || (exists m :: 0 <= m < |steps| && AsksFor(steps[m], yard.builds[i].service, BuildKey(i)))
  {
    hide Run, LegalRun, ImagesRead, Runs, Reported, BuildKey;
    assert steps[..|steps|] == steps;
    var yard := Run(Idle(StoreModel.Empty(clock)), steps);
    KeyedWas(clock, steps, |steps|, i, d, yard.builds[i].service);
    if (i, d) in yard.replies {
      var image, k := DeployedImagesWereReported(clock, steps, i, d);
    }
  }
}
