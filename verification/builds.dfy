/** The build store (internal/builds/store.go): methods that update the tables in place, over the
    deployment store that it hands its results to. */
module BuildStores {
  import opened Common
  import opened Leases
  import opened BuildModel
  import opened BuildRuns
  import StoreModel
  import StoreRuns
  import StoreInvariant
  import Stores

  /** The step hands over build `i` with this image, or records its deployment. */
  predicate About(step: Step, i: nat, image: string) {
    (step.DoHandOver? && step.i == i && step.image == image) || (step.DoRecord? && step.i == i)
  }

  /** Older builds come first. */
  predicate InOrder(steps: seq<Step>) {
    forall j, k :: 0 <= j < k < |steps| && HasBuild(steps[j]) && HasBuild(steps[k]) ==> steps[j].i <= steps[k].i
  }

  /** Every step is about a build that is to be handed over, with the image it has. */
  predicate Handles(builds: seq<Build>, steps: seq<Step>) {
    forall step :: step in steps ==> HasBuild(step) && Chosen(builds, step.i) && About(step, step.i, builds[step.i].image)
  }

  /** No step is about build `bound` or a younger one. */
  predicate Below(steps: seq<Step>, bound: nat) {
    forall step :: step in steps && HasBuild(step) ==> step.i < bound
  }

  /** Every build that was to be handed over has its deployment recorded. */
  ghost predicate AllRecorded(before: seq<Build>, after: seq<Build>) {
    forall i: nat :: Chosen(before, i) ==> i < |after| && after[i].deployment.Some?
  }

  predicate HasBuild(step: Step) {
    step.DoHandOver? || step.DoRecord?
  }

  /** The last of the steps is a hand-over that the deployment store refuses for this reason. */
  predicate RefusedAt(yard: Yard, steps: seq<Step>, error: BuildError) {
    && |steps| > 0
    && var last := |steps| - 1;
       match steps[last]
       case DoHandOver(i, image, valid, resolved, now) =>
         BuildModel.HandOver(Run(yard, steps[..last]), i, image, valid, resolved, now).reply == Err(error)
       case _ => false
  }

  class BuildStore {
    const deployments: Stores.Store
    var builds: seq<Build>
    var deliveries: set<string>
    var sources: map<nat, Config>
    var lastToken: nat
    ghost var replies: set<(nat, nat)>

    ghost function Model(): Yard
      reads this, deployments
    {
      Yard(builds, deliveries, sources, lastToken, replies, deployments.Model())
    }

    ghost predicate Valid()
      reads this, deployments
    {
      YardInv(Model())
    }

    constructor (deployments: Stores.Store)
      requires deployments.Valid()
      ensures Valid() && this.deployments == deployments && Model() == Idle(deployments.Model())
    {
      this.deployments := deployments;
      builds, deliveries, sources, lastToken, replies := [], {}, map[], 0, {};
    }

    method SaveSource(s: nat, config: Config, valid: bool) returns (reply: Result<Unit, BuildError>)
      requires Valid()
      modifies this
      ensures Valid() && Outcome(Model(), reply) == BuildModel.SaveSource(old(Model()), s, config, valid)
    {
      hide YardInv;
      SaveSourceInv(Model(), s, config, valid);
      if !valid {
        return Err(Invalid);
      }
      if s >= |deployments.services| {
        return Err(NotFound);
      }
      sources := sources[s := config];
      return Ok(Unit);
    }

    method Enqueue(s: nat, commit: string, validCommit: bool, key: string, config: Config, now: Time)
      returns (reply: Result<nat, BuildError>)
      requires Valid()
      modifies this
      ensures Valid() && Outcome(Model(), reply) == BuildModel.Enqueue(old(Model()), s, commit, validCommit, key, config, now)
    {
      hide YardInv, YardEvolves, Requested, OpenCount;
      RequestInv(Model(), s, commit, validCommit, key, config, now);
      if !validCommit || |key| > 150 {
        return Err(Invalid);
      }
      if s >= |deployments.services| {
        return Err(NotFound);
      }
      if key != "" {
        var prior := Requested(builds, s, key);
        if prior.Some? {
          var build := builds[prior.value];
          if build.commit != commit || build.config != config {
            return Err(Conflict);
          }
          return Ok(prior.value);
        }
      }
      if OpenCount(builds, s) >= MAX_OPEN {
        return Err(QueueFull);
      }
      builds := builds + [Build(s, commit, config, key, Queued, "", None, Unclaimed(now), false)];
      return Ok(|builds| - 1);
    }

    /** One transaction for all services that follow the branch: an error undoes everything. */
    method Push(
      delivery: string, repository: string, branch: string, installation: nat, commit: string, validCommit: bool, now: Time)
      returns (reply: Result<Unit, BuildError>)
      requires Valid()
      modifies this
      ensures Valid()
      ensures Outcome(Model(), reply)
           == BuildModel.Push(old(Model()), delivery, repository, branch, installation, commit, validCommit, now)
    {
      hide YardInv, YardEvolves, BuildModel.Enqueue;
      PushInv(Model(), delivery, repository, branch, installation, commit, validCommit, now);
      if delivery in deliveries {
        return Ok(Unit);
      }
      ghost var before := Model();
      var builds0, deliveries0 := builds, deliveries;
      deliveries := deliveries + {delivery};
      ghost var noted := Model();
      NotedInv(before, delivery);
      for s := 0 to |deployments.services|
        invariant deployments.Model() == before.db && sources == before.sources && lastToken == before.lastToken
        invariant replies == before.replies && deliveries == noted.deliveries && Valid()
        invariant Outcome(Model(), Ok(Unit)) == PushTo(noted, delivery, repository, branch, installation, commit, validCommit, now, s)
      {
        if Wants(sources, s, repository, branch, installation) {
          ghost var earlier := Model();
          EnqueueTouchesBuilds(earlier, s, commit, validCommit, "webhook:" + delivery, sources[s], now);
          var queued := Enqueue(s, commit, validCommit, "webhook:" + delivery, sources[s], now);
          if queued.Err? {
            PushFails(noted, delivery, repository, branch, installation, commit, validCommit, now, s + 1, |deployments.services|);
            builds, deliveries := builds0, deliveries0;
            return Err(queued.error);
          }
        }
      }
      return Ok(Unit);
    }

    lemma NotedInv(yard: Yard, delivery: string)
      requires YardInv(yard)
      ensures YardInv(yard.(deliveries := yard.deliveries + {delivery}))
    {
      hide StoreInvariant.Inv, KeysOk, BoundOk, BuildsOk, HandedOver;
    }

    lemma EnqueueTouchesBuilds(yard: Yard, s: nat, commit: string, validCommit: bool, key: string, config: Config, now: Time)
      ensures var after := BuildModel.Enqueue(yard, s, commit, validCommit, key, config, now).yard; after == yard.(builds := after.builds)
    {
    }

    lemma {:induction false} PushFails(
      yard: Yard, delivery: string, repository: string, branch: string, installation: nat, commit: string, validCommit: bool,
      now: Time, n: nat, m: nat)
      requires n <= m && PushTo(yard, delivery, repository, branch, installation, commit, validCommit, now, n).reply.Err?
      ensures PushTo(yard, delivery, repository, branch, installation, commit, validCommit, now, m).reply
           == PushTo(yard, delivery, repository, branch, installation, commit, validCommit, now, n).reply
    {
      if n < m {
        PushFails(yard, delivery, repository, branch, installation, commit, validCommit, now, n, m - 1);
      }
    }

    /** Builds whose time or attempts are used up end first; then the oldest ready one starts. */
    method Claim(now: Time) returns (reply: Option<(nat, nat)>)
      requires Valid()
      modifies this
      ensures Valid() && Outcome(Model(), Ok(reply)) == BuildModel.Claim(old(Model()), now)
    {
      hide YardInv, YardEvolves, FirstReady, NextBuildAttempt, Expire;
      BuildRuns.ClaimInv(Model(), now);
      ghost var before := builds;
      for i := 0 to |builds|
        invariant |builds| == |before| && deliveries == old(deliveries) && sources == old(sources)
        invariant lastToken == old(lastToken) && replies == old(replies)
        invariant forall j :: 0 <= j < i ==> builds[j] == Expire(before[j], now)
        invariant forall j :: i <= j < |before| ==> builds[j] == before[j]
      {
        builds := builds[i := Expire(builds[i], now)];
      }
      assert builds == Sweep(before, now);
      var i := FirstReady(builds, now);
      if i.None? {
        return None;
      }
      lastToken := lastToken + 1;
      var build := builds[i.value];
      builds := builds[i.value := build.(status := Building, lease := NextBuildAttempt(build.lease, lastToken, now))];
      return Some((i.value, lastToken));
    }

    method Report(i: nat, token: nat, status: BuildStatus, image: string, valid: bool, now: Time)
      returns (reply: Result<Unit, BuildError>)
      requires Valid()
      modifies this
      ensures Valid() && Outcome(Model(), reply) == BuildModel.Report(old(Model()), i, token, status, image, valid, now)
    {
      hide YardInv, YardEvolves;
      BuildRuns.ReportInv(Model(), i, token, status, image, valid, now);
      if !valid || status.Queued? {
        return Err(Invalid);
      }
      if i >= |builds| {
        return Err(Conflict);
      }
      var build := builds[i];
      if !Holds(build.lease, token, now) {
        return Err(Conflict);
      }
      if !Open(build.status) && build.status != status {
        return Err(Conflict);
      }
      if build.cancelRequested && status.Succeeded? {
        return Err(Conflict);
      }
      var final := if build.cancelRequested && !status.Building? then Cancelled else status;
      builds := builds[i := build.(status := final, image := image)];
      return Ok(Unit);
    }

    method Cancel(i: nat) returns (reply: Result<Unit, BuildError>)
      requires Valid()
      modifies this
      ensures Valid() && Outcome(Model(), reply) == BuildModel.Cancel(old(Model()), i)
    {
      hide YardInv, YardEvolves;
      BuildRuns.CancelInv(Model(), i);
      if i >= |builds| || !Open(builds[i].status) {
        return Err(Conflict);
      }
      var build := builds[i];
      builds := builds[i := build.(cancelRequested := true, status := if build.status.Queued? then Cancelled else build.status)];
      return Ok(Unit);
    }

    /******* The hand-over *******/

    method HandOver(i: nat, image: string, valid: bool, resolved: bool, now: Time) returns (reply: Result<nat, BuildError>)
      requires Valid() && deployments.Valid() && deployments.clock <= now && i < |builds| && builds[i].status.Succeeded?
      modifies this, deployments
      ensures Valid() && deployments.Valid() && builds == old(builds)
      ensures Outcome(Model(), reply) == BuildModel.HandOver(old(Model()), i, image, valid, resolved, now)
      ensures deployments.clock == now
    {
      hide YardInv, YardEvolves, StoreModel.Enqueue, BuildKey, StoreInvariant.Inv;
      HandOverInv(Model(), i, image, valid, resolved, now);
      var build := builds[i];
      var spec := StoreModel.Spec(StoreModel.Reference(image), build.config.port, build.config.healthPath);
      ghost var before := Model();
      EnqueueClock(before.db, build.service, spec, Some(build.config.startCommand), BuildKey(i), valid, resolved, now);
      var queued := deployments.Enqueue(build.service, spec, Some(build.config.startCommand), BuildKey(i), valid, resolved, now);
      if queued.Err? {
        return Err(Refused(queued.error));
      }
      replies := replies + {(i, queued.value)};
      return Ok(queued.value);
    }

    lemma EnqueueClock(
      db: StoreModel.Db, s: nat, spec: StoreModel.Spec, command: Option<string>, key: string, valid: bool, resolved: bool, now: Time)
      ensures StoreRuns.Apply(db, StoreRuns.Event(now, StoreRuns.DoEnqueue(s, spec, command, key, valid, resolved)))
           == StoreModel.Enqueue(StoreRuns.Tick(db, now), s, spec, command, key, valid, resolved, now).db
      ensures StoreModel.Enqueue(StoreRuns.Tick(db, now), s, spec, command, key, valid, resolved, now).db.clock == now
    {
    }

    /** The builds to hand over and their images, as one query reads them: the ten oldest. */
    method ReadUnrecorded() returns (items: seq<(nat, string)>)
      ensures |items| <= BATCH
      ensures forall i: nat, image :: (i, image) in items <==> Chosen(builds, i) && image == builds[i].image
      ensures forall j, k :: 0 <= j < k < |items| ==> items[j].0 < items[k].0
    {
      items := [];
      for i := 0 to |builds|
        invariant |items| == if Waiting(builds, i) < BATCH then Waiting(builds, i) else BATCH
        invariant forall x :: x in items ==> x.0 < i
        invariant forall j: nat, image :: (j, image) in items <==> j < i && Chosen(builds, j) && image == builds[j].image
        invariant forall j, k :: 0 <= j < k < |items| ==> items[j].0 < items[k].0
      {
        if |items| < BATCH && builds[i].status.Succeeded? && builds[i].deployment.None? {
          items := items + [(i, builds[i].image)];
        }
      }
    }

    /** No build changes but for a deployment that is recorded. */
    twostate predicate OnlyRecords()
      reads this
    {
      && |builds| == old(|builds|)
      && forall j :: 0 <= j < |builds| ==>
                       && builds[j].status == old(builds)[j].status
                       && (old(builds)[j].deployment.Some? ==> builds[j].deployment.Some?)
    }

    /** The two commits for one build; the flush may end before either of them. */
    method HandOverAndRecord(i: nat, image: string, valid: bool, resolved: bool, now: Time, commits: nat)
      returns (reply: Result<Unit, BuildError>, crashed: bool, left: nat, ghost done: seq<Step>)
      requires Valid() && deployments.Valid() && deployments.clock <= now && i < |builds| && builds[i].status.Succeeded?
      modifies this, deployments
      ensures Valid() && deployments.Valid() && deployments.clock <= now && OnlyRecords()
      ensures LegalRun(old(Model()), done) && Model() == Run(old(Model()), done)
      ensures |done| + left == commits && (crashed ==> reply.Ok? && left == 0)
      ensures forall step :: step in done ==> About(step, i, image)
      ensures reply.Err? ==> RefusedAt(old(Model()), done, reply.error)
      ensures reply.Ok? && !crashed ==> builds[i].deployment.Some?
    {
      hide YardInv, YardEvolves, BuildModel.HandOver, StoreInvariant.Inv, Run, LegalRun;
      ghost var start := Model();
      EmptyRun(start);
      if commits == 0 {
        return Ok(Unit), true, 0, [];
      }
      ghost var step := DoHandOver(i, image, valid, resolved, now);
      LongerRun(start, [], step);
      var d := HandOver(i, image, valid, resolved, now);
      left, done := commits - 1, [] + [step];
      if d.Err? {
        assert done[..0] == [];
        return Err(d.error), false, left, done;
      }
      if left == 0 {
        return Ok(Unit), true, left, done;
      }
      Replied(start, i, image, valid, resolved, now);
      LongerRun(start, done, DoRecord(i, d.value));
      RecordInv(Model(), i, d.value);
      if builds[i].deployment.None? {
        builds := builds[i := builds[i].(deployment := Some(d.value))];
      }
      return Ok(Unit), false, left - 1, done + [DoRecord(i, d.value)];
    }

    /** One flush that stops after `commits` commits, wherever that is.  It hands over and records the
        ten oldest builds that wait, in their order and nothing else; if it was not stopped, by a
        crash or by a refusal, all of these are recorded. */
    method Flush(valid: bool, resolved: bool, now: Time, commits: nat)
      returns (reply: Result<Unit, BuildError>, crashed: bool, ghost steps: seq<Step>)
      requires Valid() && deployments.Valid() && deployments.clock <= now
      modifies this, deployments
      ensures Valid() && deployments.Valid()
      ensures LegalRun(old(Model()), steps) && Model() == Run(old(Model()), steps)
      ensures Handles(old(builds), steps) && InOrder(steps)
      ensures crashed ==> reply.Ok? && |steps| == commits
      ensures reply.Err? ==> RefusedAt(old(Model()), steps, reply.error)
      ensures reply.Ok? && !crashed ==> AllRecorded(old(builds), builds)
    {
      hide YardInv, StoreInvariant.Inv, Run, LegalRun, RefusedAt, Chosen, Handles, InOrder, Below;
      var items := ReadUnrecorded();
      steps := [];
      var left := commits;
      ghost var start := Model();
      ItemsAreThere(items);
      EmptyRun(start);
      NothingHandled(start.builds);
      for k := 0 to |items|
        invariant Valid() && deployments.Valid() && deployments.clock <= now
        invariant forall x :: x in items ==> x.0 < |builds| && builds[x.0].status.Succeeded?
        invariant forall j :: 0 <= j < k ==> items[j].0 < |builds| && builds[items[j].0].deployment.Some?
        invariant LegalRun(start, steps) && Model() == Run(start, steps) && |steps| + left == commits
        invariant Handles(start.builds, steps) && InOrder(steps)
        invariant k < |items| ==> Below(steps, items[k].0)
      {
        assert items[k] in items && (items[k].0, items[k].1) == items[k];
        ghost var done;
        reply, crashed, left, done := HandOverAndRecord(items[k].0, items[k].1, valid, resolved, now, left);
        RunsOn(start, steps, done);
        HandledMore(start.builds, steps, done, items[k].0, if k + 1 < |items| then items[k + 1].0 else items[k].0 + 1);
        if reply.Err? {
          RefusedLater(start, steps, done, reply.error);
        }
        steps := steps + done;
        if reply.Err? || crashed {
          return;
        }
      }
      forall i: nat | Chosen(start.builds, i) ensures i < |builds| && builds[i].deployment.Some? {
        ChosenIsThere(start.builds, i);
        assert (i, start.builds[i].image) in items;
      }
      return Ok(Unit), false, steps;
    }

    lemma NothingHandled(builds: seq<Build>)
      ensures Handles(builds, []) && InOrder([]) && forall bound :: Below([], bound)
    {
    }

    lemma HandledMore(builds: seq<Build>, steps: seq<Step>, done: seq<Step>, i: nat, next: nat)
      requires Handles(builds, steps) && InOrder(steps) && Below(steps, i) && Chosen(builds, i) && i < next
      requires forall step :: step in done ==> About(step, i, builds[i].image)
      ensures Handles(builds, steps + done) && InOrder(steps + done) && Below(steps + done, next)
    {
      hide Chosen;
      var more := steps + done;
      forall j, k | 0 <= j < k < |more| && HasBuild(more[j]) && HasBuild(more[k]) ensures more[j].i <= more[k].i {
        assert j < |steps| ==> more[j] in steps;
        assert j >= |steps| ==> more[j] in done;
        assert k < |steps| ==> more[k] == steps[k] && more[j] == steps[j];
        assert k >= |steps| ==> more[k] in done;
      }
    }

    lemma ChosenIsThere(builds: seq<Build>, i: nat)
      requires Chosen(builds, i)
      ensures i < |builds|
    {
    }

    lemma ItemsAreThere(items: seq<(nat, string)>)
      requires forall i: nat, image :: (i, image) in items <==> Chosen(builds, i) && image == builds[i].image
      ensures forall x :: x in items ==> x.0 < |builds| && builds[x.0].status.Succeeded? && x.1 == builds[x.0].image && Chosen(builds, x.0)
    {
      forall x | x in items
        ensures x.0 < |builds| && builds[x.0].status.Succeeded? && x.1 == builds[x.0].image && Chosen(builds, x.0)
      {
        assert (x.0, x.1) == x;
      }
    }

    lemma RefusedLater(yard: Yard, steps: seq<Step>, done: seq<Step>, error: BuildError)
      requires RefusedAt(Run(yard, steps), done, error)
      ensures RefusedAt(yard, steps + done, error)
    {
      hide BuildModel.HandOver, Run;
      var last := |done| - 1;
      assert (steps + done)[..|steps| + last] == steps + done[..last];
      RunConcatenates(yard, steps, done[..last]);
    }

    lemma {:induction false} RunConcatenates(yard: Yard, steps: seq<Step>, more: seq<Step>)
      ensures Run(yard, steps + more) == Run(Run(yard, steps), more)
      decreases |steps|
    {
      hide Perform;
      if |steps| == 0 {
        assert steps + more == more;
      } else {
        assert (steps + more)[1..] == steps[1..] + more;
        RunConcatenates(Perform(yard, steps[0]), steps[1..], more);
      }
    }

    lemma {:induction false} RunsOn(yard: Yard, steps: seq<Step>, more: seq<Step>)
      requires LegalRun(yard, steps) && LegalRun(Run(yard, steps), more)
      ensures LegalRun(yard, steps + more) && Run(yard, steps + more) == Run(Run(yard, steps), more)
      decreases |steps|
    {
      hide Perform, Legal;
      if |steps| == 0 {
        assert steps + more == more;
      } else {
        assert (steps + more)[1..] == steps[1..] + more;
        RunsOn(Perform(yard, steps[0]), steps[1..], more);
      }
    }

    lemma EmptyRun(yard: Yard)
      ensures LegalRun(yard, []) && Run(yard, []) == yard
    {
    }

    lemma Replied(yard: Yard, i: nat, image: string, valid: bool, resolved: bool, now: Time)
      requires BuildModel.HandOver(yard, i, image, valid, resolved, now).reply.Ok?
      ensures var after := BuildModel.HandOver(yard, i, image, valid, resolved, now); (i, after.reply.value) in after.yard.replies
    {
    }

    lemma {:induction false} LongerRun(yard: Yard, steps: seq<Step>, step: Step)
      requires LegalRun(yard, steps)
      ensures Run(yard, steps + [step]) == Perform(Run(yard, steps), step)
      ensures Legal(Run(yard, steps), step) ==> LegalRun(yard, steps + [step])
      decreases |steps|
    {
      hide Perform, Legal;
      if |steps| == 0 {
        assert (steps + [step])[1..] == [];
      } else {
        assert (steps + [step])[1..] == steps[1..] + [step];
        LongerRun(Perform(yard, steps[0]), steps[1..], step);
      }
    }
  }
}
