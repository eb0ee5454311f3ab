/** Bounds on the work of the control plane: attempts, queues and cron occurrences. */
module StoreBounds {
  import opened Common
  import opened Leases
  import opened StoreModel
  import opened StoreInvariant
  import opened StoreRuns

  /******* Bounded execution *******/

  /** A claim that commits leaves every job past its deadline finished. */
  lemma ClaimEndsOverdueWork(db: Db, next: Time, after: Db, reply: Option<Work>)
    requires Claim(db, db.clock, next) == Outcome(after, Ok(reply))
    ensures |after.deployments| == |db.deployments| && |after.actions| == |db.actions| && |after.runs| >= |db.runs|
    ensures forall i :: 0 <= i < |db.deployments| && Exhausted(db.deployments[i].lease, db.clock) ==>
                          Terminal(after.deployments[i].status)
    ensures forall i :: 0 <= i < |db.actions| && Exhausted(db.actions[i].lease, db.clock) ==>
                          !Pending(after.actions[i].status)
    ensures forall i :: 0 <= i < |db.runs| && Exhausted(db.runs[i].lease, db.clock) ==>
                          !Pending(after.runs[i].status)
  {
    hide Claim, Sweep;
    var swept := Sweep(db, db.clock);
    SweepEnds(db, db.clock);
    ClaimTouchesOneJob(db, next, after, reply);
  }

  lemma SweepEnds(db: Db, now: Time)
    ensures var swept := Sweep(db, now);
            && |swept.deployments| == |db.deployments| && |swept.actions| == |db.actions| && |swept.runs| == |db.runs|
            && (forall i :: 0 <= i < |db.deployments| && Exhausted(db.deployments[i].lease, now) ==> Terminal(swept.deployments[i].status))
            && (forall i :: 0 <= i < |db.actions| && Exhausted(db.actions[i].lease, now) ==> !Pending(swept.actions[i].status))
            && (forall i :: 0 <= i < |db.runs| && Exhausted(db.runs[i].lease, now) ==> !Pending(swept.runs[i].status))
  {
  }

  lemma ClaimTouchesOneJob(db: Db, next: Time, after: Db, reply: Option<Work>)
    requires Claim(db, db.clock, next) == Outcome(after, Ok(reply))
    ensures var swept := Sweep(db, db.clock);
            && |after.deployments| == |swept.deployments| && |after.actions| == |swept.actions| && |after.runs| >= |swept.runs|
            && (forall i :: 0 <= i < |swept.deployments| && Terminal(swept.deployments[i].status) ==>
                              after.deployments[i] == swept.deployments[i])
            && (forall i :: 0 <= i < |swept.actions| && !Pending(swept.actions[i].status) ==> after.actions[i] == swept.actions[i])
            && (forall i :: 0 <= i < |swept.runs| && !Pending(swept.runs[i].status) ==> after.runs[i] == swept.runs[i])
  {
    hide Sweep;
  }

  /** The lease of the job that a claim picks, after its sweep. */
  function Selected(db: Db): Option<Lease> {
    var swept := Sweep(db, db.clock);
    var a := FirstAction(swept.actions, db.clock);
    var d := FirstDeployment(swept.deployments, db.clock);
    var r := EarliestRun(swept.runs, db.clock, |swept.runs|);
    if a.Some? then Some(swept.actions[a.value].lease)
    else if d.Some? then Some(swept.deployments[d.value].lease)
    else if r.Some? then Some(swept.runs[r.value].lease)
    else None
  }

  /** A claim fails in one case only: the job it picks has its deadline at this very instant. */
  lemma ClaimFailsExactly(db: Db, next: Time)
    requires Inv(db)
    ensures Claim(db, db.clock, next).reply.Err?
       <==> Selected(db).Some? && Selected(db).value.deadline == Some(db.clock)
    ensures Claim(db, db.clock, next).reply.Err? ==> Claim(db, db.clock, next).db == db
  {
    hide QueueOk, CancelOk, BoundOk, KeysOk, CronOk, LeasesOk, ActiveOk, RefsOk, ActionsOk;
    var swept := Sweep(db, db.clock);
    SweepInv(db, db.clock);
    PickedJobs(swept);
    PickedSurvives(db);
  }

  lemma PickedJobs(db: Db)
    requires Inv(db)
    ensures forall i :: 0 <= i < |db.actions| && Pending(db.actions[i].status) ==>
                          db.actions[i].service < |db.services| && db.services[db.actions[i].service].activeId.Some?
    ensures forall i :: 0 <= i < |db.deployments| ==> db.deployments[i].service < |db.services|
    ensures forall i :: 0 <= i < |db.runs| ==> db.runs[i].service < |db.services| && db.runs[i].deployment < |db.deployments|
    ensures forall s :: 0 <= s < |db.services| && db.services[s].activeId.Some? ==> db.services[s].activeId.value < |db.deployments|
  {
    hide QueueOk, CancelOk, BoundOk, KeysOk, CronOk, LeasesOk;
  }

  lemma PickedSurvives(db: Db)
    ensures Selected(db).Some? ==>
              (MayStart(Selected(db).value, db.clock) <==> Selected(db).value.deadline != Some(db.clock))
  {
  }

  /** Attempts over a table of leases. */
  function Attempts(leases: seq<Lease>): nat {
    if |leases| == 0 then 0 else Attempts(leases[..|leases| - 1]) + leases[|leases| - 1].attempt
  }

  function DeploymentLeases(rows: seq<Deployment>): seq<Lease> {
    seq(|rows|, i requires 0 <= i < |rows| => rows[i].lease)
  }

  function ActionLeases(rows: seq<Action>): seq<Lease> {
    seq(|rows|, i requires 0 <= i < |rows| => rows[i].lease)
  }

  function RunLeases(rows: seq<CronRun>): seq<Lease> {
    seq(|rows|, i requires 0 <= i < |rows| => rows[i].lease)
  }

  function TotalAttempts(db: Db): nat {
    Attempts(DeploymentLeases(db.deployments)) + Attempts(ActionLeases(db.actions)) + Attempts(RunLeases(db.runs))
  }

  function Jobs(db: Db): nat {
    |db.deployments| + |db.actions| + |db.runs|
  }

  /** How many work items a run hands out. */
  function HandedOut(db: Db, events: seq<Event>): nat
    decreases |events|
  {
    if |events| == 0 then 0
    else Hands(Tick(db, events[0].now), events[0].step) + HandedOut(Apply(db, events[0]), events[1..])
  }

  function Hands(db: Db, step: Step): nat {
    if step.DoClaim? then
      var reply := Claim(db, db.clock, step.after).reply;
      if reply.Ok? && reply.value.Some? then 1 else 0
    else 0
  }

  lemma {:induction false} AttemptsUpdated(leases: seq<Lease>, i: nat, lease: Lease)
    requires i < |leases|
    ensures Attempts(leases[i := lease]) == Attempts(leases) - leases[i].attempt + lease.attempt
  {
    var last := |leases| - 1;
    if i < last {
      AttemptsUpdated(leases[..last], i, lease);
      assert leases[i := lease][..last] == leases[..last][i := lease];
    } else {
      assert leases[i := lease][..last] == leases[..last];
    }
  }

  lemma AttemptsAdded(leases: seq<Lease>, lease: Lease)
    ensures Attempts(leases + [lease]) == Attempts(leases) + lease.attempt
  {
    assert (leases + [lease])[..|leases|] == leases;
  }

  lemma {:induction false} AttemptsBounded(leases: seq<Lease>)
    requires forall i :: 0 <= i < |leases| ==> leases[i].attempt <= MAX_ATTEMPTS
    ensures Attempts(leases) <= 3 * |leases|
  {
    if |leases| > 0 {
      AttemptsBounded(leases[..|leases| - 1]);
    }
  }

  lemma SameTotals(db: Db, after: Db)
    requires |after.deployments| == |db.deployments| && |after.actions| == |db.actions| && |after.runs| == |db.runs|
    requires forall i :: 0 <= i < |db.deployments| ==> after.deployments[i].lease == db.deployments[i].lease
    requires forall i :: 0 <= i < |db.actions| ==> after.actions[i].lease == db.actions[i].lease
    requires forall i :: 0 <= i < |db.runs| ==> after.runs[i].lease == db.runs[i].lease
    ensures TotalAttempts(after) == TotalAttempts(db)
  {
    assert DeploymentLeases(after.deployments) == DeploymentLeases(db.deployments);
    assert ActionLeases(after.actions) == ActionLeases(db.actions);
    assert RunLeases(after.runs) == RunLeases(db.runs);
  }

  lemma EnqueueTotal(
    db: Db, s: nat, spec: Spec, command: Option<string>, key: string, valid: bool, resolved: bool, now: Time)
    ensures TotalAttempts(Enqueue(db, s, spec, command, key, valid, resolved, now).db) == TotalAttempts(db)
  {
    var after := Enqueue(db, s, spec, command, key, valid, resolved, now).db;
    if after != db {
      AttemptsAdded(DeploymentLeases(db.deployments), Unclaimed(now));
      assert DeploymentLeases(after.deployments) == DeploymentLeases(db.deployments) + [Unclaimed(now)];
    }
  }

  lemma EnqueueActionTotal(db: Db, s: nat, kind: ActionKind, backupExists: bool, now: Time)
    ensures TotalAttempts(EnqueueAction(db, s, kind, backupExists, now).db) == TotalAttempts(db)
  {
    var after := EnqueueAction(db, s, kind, backupExists, now).db;
    if after != db {
      AttemptsAdded(ActionLeases(db.actions), Unclaimed(now));
      assert ActionLeases(after.actions) == ActionLeases(db.actions) + [Unclaimed(now)];
    }
  }

  lemma StartRunTotal(db: Db, ready: Db, i: nat, now: Time)
    requires i < |ready.runs|
    ensures var after := StartRun(db, ready, i, now);
            after.reply.Ok? ==> after.reply.value.Some? && TotalAttempts(after.db) == TotalAttempts(ready) + 1
  {
    var after := StartRun(db, ready, i, now);
    if after.reply.Ok? {
      var lease := NextAttempt(ready.runs[i].lease, ready.lastToken + 1, now);
      AttemptsUpdated(RunLeases(ready.runs), i, lease);
      assert RunLeases(after.db.runs) == RunLeases(ready.runs)[i := lease];
    }
  }

  lemma ClaimTotal(db: Db, next: Time)
    ensures TotalAttempts(Claim(db, db.clock, next).db) == TotalAttempts(db) + Hands(db, DoClaim(next))
  {
    hide FirstAction, FirstDeployment, EarliestRun, EarliestService, TotalAttempts;
    var now := db.clock;
    var swept := Sweep(db, now);
    SameTotals(db, swept);
    var a := FirstAction(swept.actions, now);
    var d := FirstDeployment(swept.deployments, now);
    var r := EarliestRun(swept.runs, now, |swept.runs|);
    var s := EarliestService(swept.services, swept.runs, now, |swept.services|);
    if a.Some? {
      ClaimActionTotal(db, swept, a.value, now);
    } else if d.Some? {
      ClaimDeploymentTotal(db, swept, d.value, now);
    } else if r.Some? {
      StartRunTotal(db, swept, r.value, now);
    } else if s.Some? {
      AddRunTotal(swept, s.value, now, next);
      StartRunTotal(db, AddRun(swept, s.value, now, next), |swept.runs|, now);
    }
  }

  lemma AddRunTotal(db: Db, s: nat, now: Time, next: Time)
    requires s < |db.services| && db.services[s].nextRun.Some? && db.services[s].activeId.Some?
    ensures TotalAttempts(AddRun(db, s, now, next)) == TotalAttempts(db)
  {
    var after := AddRun(db, s, now, next);
    AttemptsAdded(RunLeases(db.runs), Unclaimed(now));
    assert RunLeases(after.runs) == RunLeases(db.runs) + [Unclaimed(now)];
  }

  lemma ClaimActionTotal(db: Db, swept: Db, i: nat, now: Time)
    requires i < |swept.actions|
    ensures var after := ClaimAction(db, swept, i, now);
            after.reply.Ok? ==> after.reply.value.Some? && TotalAttempts(after.db) == TotalAttempts(swept) + 1
  {
    var after := ClaimAction(db, swept, i, now);
    if after.reply.Ok? {
      var lease := NextAttempt(swept.actions[i].lease, swept.lastToken + 1, now);
      AttemptsUpdated(ActionLeases(swept.actions), i, lease);
      assert ActionLeases(after.db.actions) == ActionLeases(swept.actions)[i := lease];
    }
  }

  lemma ClaimDeploymentTotal(db: Db, swept: Db, i: nat, now: Time)
    requires i < |swept.deployments|
    ensures var after := ClaimDeployment(db, swept, i, now);
            after.reply.Ok? ==> after.reply.value.Some? && TotalAttempts(after.db) == TotalAttempts(swept) + 1
  {
    var after := ClaimDeployment(db, swept, i, now);
    if after.reply.Ok? {
      var lease := NextAttempt(swept.deployments[i].lease, swept.lastToken + 1, now);
      AttemptsUpdated(DeploymentLeases(swept.deployments), i, lease);
      assert DeploymentLeases(after.db.deployments) == DeploymentLeases(swept.deployments)[i := lease];
    }
  }

  lemma StepTotal(db: Db, step: Step)
    ensures TotalAttempts(Perform(db, step)) == TotalAttempts(db) + Hands(db, step)
  {
    hide TotalAttempts;
    match step {
      case DoEnqueue(s, spec, command, key, valid, resolved) =>
        EnqueueTotal(db, s, spec, command, key, valid, resolved, db.clock);
      case DoCreateDatabase(scope, kind) =>
        var made := AddDatabase(db, scope, kind);
        SameTotals(db, made);
        EnqueueTotal(made, |db.services|, TemplateSpec(kind), None, "database-bootstrap", true, true, db.clock);
      case DoEnqueueAction(s, action, backupExists) =>
        EnqueueActionTotal(db, s, action, backupExists, db.clock);
      case DoClaim(after) =>
        ClaimTotal(db, after);
      case _ =>
        LeasesKept(db, step);
        SameTotals(db, Perform(db, step));
    }
  }

  lemma LeasesKept(db: Db, step: Step)
    requires !step.DoEnqueue? && !step.DoCreateDatabase? && !step.DoEnqueueAction? && !step.DoClaim?
    ensures var after := Perform(db, step);
            && |after.deployments| == |db.deployments| && |after.actions| == |db.actions| && |after.runs| == |db.runs|
            && (forall i :: 0 <= i < |db.deployments| ==> after.deployments[i].lease == db.deployments[i].lease)
            && (forall i :: 0 <= i < |db.actions| ==> after.actions[i].lease == db.actions[i].lease)
            && (forall i :: 0 <= i < |db.runs| ==> after.runs[i].lease == db.runs[i].lease)
  {
    hide HasWork, HasVolume, Holds, IsData, Released;
    if step.DoReport? || step.DoReportAction? || step.DoReportRun? || step.DoCancel? {
      hide AttachVolume, DetachVolume, SaveSettings, SaveCronSchedule;
    } else {
      hide Report, ReportAction, ReportCronRun, Cancel;
    }
  }

  lemma {:induction false} RunTotal(db: Db, events: seq<Event>)
    ensures TotalAttempts(Run(db, events)) == TotalAttempts(db) + HandedOut(db, events)
    decreases |events|
  {
    hide TotalAttempts, Perform, Hands;
    if |events| > 0 {
      SameTotals(db, Tick(db, events[0].now));
      StepTotal(Tick(db, events[0].now), events[0].step);
      RunTotal(Apply(db, events[0]), events[1..]);
    }
  }

  lemma TotalBounded(db: Db)
    requires Inv(db)
    ensures TotalAttempts(db) <= 3 * Jobs(db)
  {
    hide RefsOk, QueueOk, ActiveOk, BoundOk, ActionsOk, CronOk, CancelOk, KeysOk;
    AttemptsBounded(DeploymentLeases(db.deployments));
    AttemptsBounded(ActionLeases(db.actions));
    AttemptsBounded(RunLeases(db.runs));
  }

  /** Over every run the work items handed out number at most three for each job created. */
  lemma HandOutsBounded(clock: Time, events: seq<Event>)
    requires Legal(Empty(clock), events)
    ensures HandedOut(Empty(clock), events) <= 3 * Jobs(Run(Empty(clock), events))
  {
    hide Inv, Run, Legal, HandedOut;
    EmptyInv(clock);
    RunKeepsInvariant(Empty(clock), events);
    RunTotal(Empty(clock), events);
    TotalBounded(Run(Empty(clock), events));
  }

  /******* Queues *******/

  function PendingDeployments(deployments: seq<Deployment>, s: nat): set<nat> {
    set d: nat | d < |deployments| && deployments[d].service == s && !Terminal(deployments[d].status)
  }

  function PendingActions(actions: seq<Action>, s: nat): set<nat> {
    set a: nat | a < |actions| && actions[a].service == s && Pending(actions[a].status)
  }

  lemma {:induction false} CountIsCardinality(deployments: seq<Deployment>, s: nat)
    ensures PendingCount(deployments, s) == |PendingDeployments(deployments, s)|
  {
    if |deployments| > 0 {
      var last := |deployments| - 1;
      var rest := PendingDeployments(deployments[..last], s);
      CountIsCardinality(deployments[..last], s);
      if deployments[last].service == s && !Terminal(deployments[last].status) {
        assert PendingDeployments(deployments, s) == rest + {last};
      } else {
        assert PendingDeployments(deployments, s) == rest;
      }
    }
  }

  /** In every reachable state a service has at most ten unfinished deployments or one unfinished
      action, and not both kinds at once. */
  lemma QueueBounds(clock: Time, events: seq<Event>, s: nat)
    requires Legal(Empty(clock), events)
    ensures var db := Run(Empty(clock), events);
            && |PendingDeployments(db.deployments, s)| <= 10
            && |PendingActions(db.actions, s)| <= 1
            && (PendingActions(db.actions, s) == {} || PendingDeployments(db.deployments, s) == {})
  {
    hide Run, Legal, RefsOk, QueueOk, ActiveOk, CronOk, CancelOk, LeasesOk, KeysOk;
    var db := Run(Empty(clock), events);
    EmptyInv(clock);
    RunKeepsInvariant(Empty(clock), events);
    CountIsCardinality(db.deployments, s);
    if a :| a in PendingActions(db.actions, s) {
      assert PendingActions(db.actions, s) == {a};
      assert !DeploymentPending(db.deployments, s);
      assert PendingDeployments(db.deployments, s) == {};
    }
  }

  /******* Cron *******/

  /** In every reachable state the runs of a service have strictly increasing occurrences, and
      only one of them is unfinished. */
  lemma CronRunsOrdered(clock: Time, events: seq<Event>, i: nat, j: nat)
    requires Legal(Empty(clock), events)
    requires var runs := Run(Empty(clock), events).runs; i < j < |runs| && runs[i].service == runs[j].service
    ensures var runs := Run(Empty(clock), events).runs;
            runs[i].scheduledFor < runs[j].scheduledFor && !(Pending(runs[i].status) && Pending(runs[j].status))
  {
    hide Run, Legal, RefsOk, QueueOk, ActiveOk, CancelOk, LeasesOk, KeysOk, BoundOk, ActionsOk;
    EmptyInv(clock);
    RunKeepsInvariant(Empty(clock), events);
  }

  /** Every occurrence of service `s` from run `n` on lies after `t`. */
  ghost predicate OnlyAfter(db: Db, s: nat, n: nat, t: Time) {
    && t <= db.clock && s < |db.services| && n <= |db.runs|
    && (db.services[s].nextRun.Some? ==> t < db.services[s].nextRun.value)
    && forall i :: n <= i < |db.runs| && db.runs[i].service == s ==> t < db.runs[i].scheduledFor
  }

  lemma ClaimOnlyAfter(db: Db, next: Time, s: nat, n: nat, t: Time)
    requires OnlyAfter(db, s, n, t) && next > db.clock
    ensures OnlyAfter(Claim(db, db.clock, next).db, s, n, t)
  {
    hide FirstAction, FirstDeployment, SweepDeployments, SweepActions;
  }

  /** Without a claim no run appears, and only a schedule edit moves a next occurrence. */
  lemma RunsKept(db: Db, step: Step)
    requires !step.DoClaim?
    ensures var runs := Perform(db, step).runs;
            && |runs| == |db.runs|
            && forall i :: 0 <= i < |runs| ==> runs[i].service == db.runs[i].service && runs[i].scheduledFor == db.runs[i].scheduledFor
  {
  }

  lemma TimersKept(db: Db, step: Step)
    requires !step.DoClaim?
    ensures var after := Perform(db, step);
            && |db.services| <= |after.services| && after.clock == db.clock
            && forall s :: 0 <= s < |db.services| ==>
                             || after.services[s].nextRun == db.services[s].nextRun
                             || (step.DoSchedule? && after.services[s].nextRun == step.next)
  {
    hide HasWork, HasVolume, Holds, PendingCount, Prior, ActionPending, CanBackUp, TemplateSpec, TemplateMount, TemplatePort, Retire;
    if step.DoReport? || step.DoReportAction? || step.DoReportRun? || step.DoCancel? {
      hide AttachVolume, DetachVolume, SaveSettings, SaveCronSchedule, Enqueue, EnqueueAction, CreateDatabase;
    } else {
      hide Report, ReportAction, ReportCronRun, Cancel;
    }
  }

  lemma StepOnlyAfter(db: Db, event: Event, s: nat, n: nat, t: Time)
    requires OnlyAfter(db, s, n, t) && Timely(db, event)
    ensures OnlyAfter(Apply(db, event), s, n, t)
  {
    hide Perform;
    var ticked := Tick(db, event.now);
    if event.step.DoClaim? {
      ClaimOnlyAfter(ticked, event.step.after, s, n, t);
      PerformClaim(ticked, event.step);
    } else {
      RunsKept(ticked, event.step);
      TimersKept(ticked, event.step);
    }
  }

  lemma PerformClaim(db: Db, step: Step)
    requires step.DoClaim?
    ensures Perform(db, step) == Claim(db, db.clock, step.after).db
  {
  }

  lemma {:induction false} RunOnlyAfter(db: Db, events: seq<Event>, s: nat, n: nat, t: Time)
    requires OnlyAfter(db, s, n, t) && Legal(db, events)
    ensures OnlyAfter(Run(db, events), s, n, t)
    decreases |events|
  {
    hide OnlyAfter, Perform;
    if |events| > 0 {
      StepOnlyAfter(db, events[0], s, n, t);
      RunOnlyAfter(Apply(db, events[0]), events[1..], s, n, t);
    }
  }

  lemma ClaimedRun(db: Db, next: Time, after: Db, token: nat, run: nat, release: nat)
    requires next > db.clock && |after.runs| > |db.runs|
    requires Claim(db, db.clock, next) == Outcome(after, Ok(Some(CronWork(token, run, release))))
    ensures run == |db.runs| && |after.runs| == run + 1
    ensures OnlyAfter(after, after.runs[run].service, run + 1, db.clock)
  {
    hide FirstAction, FirstDeployment, SweepDeployments, SweepActions, EarliestRun;
  }

  /** However many occurrences were missed, one claim makes one run of them: every later run of
      the service, whatever happens and however the schedule is edited, is for a time after it. */
  lemma MissedOccurrencesCollapse(
    db: Db, next: Time, after: Db, token: nat, run: nat, release: nat, events: seq<Event>, i: nat)
    requires next > db.clock && |after.runs| > |db.runs|
    requires Claim(db, db.clock, next) == Outcome(after, Ok(Some(CronWork(token, run, release))))
    requires run < |after.runs| && Legal(after, events)
    requires run < i < |Run(after, events).runs| && Run(after, events).runs[i].service == after.runs[run].service
    ensures |after.runs| == |db.runs| + 1 && Run(after, events).runs[i].scheduledFor > db.clock
  {
    hide Run, Legal, Claim;
    ClaimedRun(db, next, after, token, run, release);
    RunOnlyAfter(after, events, after.runs[run].service, run + 1, db.clock);
  }
}
