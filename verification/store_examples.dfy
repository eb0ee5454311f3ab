/** Concrete runs that show what the promises' conditions are for. */
module StoreExamples {
  import opened Common
  import opened Leases
  import opened StoreModel
  import opened StoreRuns
  import opened StoreBackups
  import opened StoreProgress

  /** A run in which the settings form is used twice on one service, its volume being handed to
      another service in between. */
  function VolumeTakenBack(): seq<Event> {
    var scope := Scope(0, "production");
    var spec := Spec(Reference("app"), 80, "/");
    [Event(0, DoCreateCompute(scope, Web)),
     Event(0, DoCreateCompute(scope, Web)),
     Event(0, DoSaveSettings(0, "/d", true)),
     Event(0, DoDetach(Derived(0))),
     Event(0, DoAttach(Derived(0), 1, "/d", true)),
     Event(0, DoEnqueue(1, spec, None, "", true, true)),
     Event(0, DoSaveSettings(0, "/d", true)),
     Event(0, DoEnqueue(0, spec, None, "", true, true))]
  }

  lemma RunUnfolds(db: Db, events: seq<Event>)
    requires |events| > 0
    ensures Run(db, events) == Run(Apply(db, events[0]), events[1..])
  {
  }

  function AfterAttach(): Db {
    var scope := Scope(0, "production");
    Db([NewService(scope, Http, Web, Settings(None, "", 80)),
        NewService(scope, Http, Web, Settings(Some(Derived(0)), "/d", 80))],
       [], [], [], map[Derived(0) := Volume(scope, false)], map[Derived(0) := Attachment(1, "/d")], 0, 0, 0)
  }

  function AfterForm(): Db {
    var scope := Scope(0, "production");
    Db([NewService(scope, Http, Web, Settings(Some(Derived(0)), "/d", 80)), NewService(scope, Http, Web, Settings(None, "", 80))],
       [], [], [], map[Derived(0) := Volume(scope, false)], map[Derived(0) := Attachment(0, "/d")], 0, 0, 0)
  }

  lemma Form()
    ensures Run(Empty(0), VolumeTakenBack()) == Run(AfterForm(), VolumeTakenBack()[3..])
  {
    var e := VolumeTakenBack();
    var blank := NewService(Scope(0, "production"), Http, Web, Settings(None, "", 80));
    var s2 := Apply(Apply(Empty(0), e[0]), e[1]);
    assert s2 == Empty(0).(services := [blank, blank]);
    assert Apply(s2, e[2]) == AfterForm();
    hide Run, Apply;
    RunUnfolds(Empty(0), e);
    RunUnfolds(Apply(Empty(0), e[0]), e[1..]);
    RunUnfolds(s2, e[2..]);
    assert e[1..][1..] == e[2..] && e[2..][1..] == e[3..];
  }

  lemma FirstHalf()
    ensures Run(Empty(0), VolumeTakenBack()) == Run(AfterAttach(), VolumeTakenBack()[5..])
  {
    var e := VolumeTakenBack();
    var blank := NewService(Scope(0, "production"), Http, Web, Settings(None, "", 80));
    var s4 := Apply(AfterForm(), e[3]);
    assert s4 == AfterForm().(services := [blank, blank], attachments := map[]);
    assert Apply(s4, e[4]) == AfterAttach();
    hide Run, Apply;
    Form();
    RunUnfolds(AfterForm(), e[3..]);
    RunUnfolds(s4, e[4..]);
    assert e[3..][1..] == e[4..] && e[4..][1..] == e[5..];
  }

  function QueuedRelease(s: nat): Deployment {
    Deployment(s, Settings(Some(Derived(0)), "/d", 80), "", Payload(Spec(Reference("app"), 80, "/"), None), Queued, Unclaimed(0), false)
  }

  function AfterEnqueue(): Db {
    AfterAttach().(deployments := [QueuedRelease(1)])
  }

  function AfterTakingBack(): Db {
    var db := AfterEnqueue();
    db.(services := db.services[0 := db.services[0].(settings := Settings(Some(Derived(0)), "/d", 80))],
        attachments := map[Derived(0) := Attachment(0, "/d")])
  }

  lemma EnqueueSecond()
    ensures Apply(AfterAttach(), VolumeTakenBack()[5]) == AfterEnqueue()
  {
    var after := Apply(AfterAttach(), VolumeTakenBack()[5]);
    assert after.services == AfterAttach().services;
  }

  lemma TakeBack()
    ensures Apply(AfterEnqueue(), VolumeTakenBack()[6]) == AfterTakingBack()
  {
  }

  lemma EnqueueFirst()
    ensures Apply(AfterTakingBack(), VolumeTakenBack()[7]).deployments == [QueuedRelease(1), QueuedRelease(0)]
  {
    assert PendingCount(AfterTakingBack().deployments, 0) == 0;
  }

  /** The run is a legal one, and after it two services are about to run on one volume. */
  lemma SettingsMoveVolume()
    ensures Legal(Empty(0), VolumeTakenBack())
    ensures var db := Run(Empty(0), VolumeTakenBack());
            |db.deployments| == 2 && Shared(db, 0, 1) && db.deployments[0].settings.volume == Some(Derived(0))
  {
    hide Apply, AfterAttach, AfterEnqueue, AfterTakingBack;
    LegalAtOnce(Empty(0), VolumeTakenBack());
    FirstHalf();
    EnqueueSecond();
    TakeBack();
    EnqueueFirst();
    var e := VolumeTakenBack();
    RunUnfolds(AfterAttach(), e[5..]);
    RunUnfolds(AfterEnqueue(), e[6..]);
    RunUnfolds(AfterTakingBack(), e[7..]);
    assert e[5..][1..] == e[6..] && e[6..][1..] == e[7..] && e[7..][1..] == [];
    assert Run(Empty(0), e) == Apply(AfterTakingBack(), e[7]);
  }

  lemma PerformKeepsClock(db: Db, step: Step)
    ensures Perform(db, step).clock == db.clock
  {
    hide Sweep, FirstAction, FirstDeployment, EarliestRun, EarliestService, PendingCount, Prior, HasWork, HasVolume, Holds;
    SweepClock(db);
  }

  lemma SweepClock(db: Db)
    ensures Sweep(db, db.clock).clock == db.clock
  {
  }

  /** Requests that all arrive at one time make a legal run. */
  lemma {:induction false} LegalAtOnce(db: Db, events: seq<Event>)
    requires forall i :: 0 <= i < |events| ==> events[i].now == db.clock && !events[i].step.DoClaim? && !events[i].step.DoSchedule?
    ensures Legal(db, events)
    decreases |events|
  {
    hide Perform;
    if |events| > 0 {
      PerformKeepsClock(Tick(db, db.clock), events[0].step);
      LegalAtOnce(Apply(db, events[0]), events[1..]);
    }
  }

  /******* A deadline at the very instant of a claim *******/

  /** A release is queued and claimed at once, and its agent is never heard of again. */
  function Abandoned(): seq<Event> {
    [Event(0, DoCreateCompute(Scope(0, "production"), Web)),
     Event(0, DoEnqueue(0, Spec(Reference("app"), 80, "/"), None, "", true, true)),
     Event(0, DoClaim(1))]
  }

  /** The one release, claimed for the first time at time 0. */
  function ClaimedRelease(): Deployment {
    Deployment(0, Settings(None, "", 80), "", Payload(Spec(Reference("app"), 80, "/"), None), Queued,
               Lease(1, 1, Some(EXECUTION_WINDOW), 5 * SECOND), false)
  }

  function AfterClaim(): Db {
    Db([NewService(Scope(0, "production"), Http, Web, Settings(None, "", 80))], [ClaimedRelease()], [], [], map[], map[], 0, 1, 0)
  }

  lemma OneQueued(db: Db)
    requires db == AfterClaim().(deployments := [ClaimedRelease().(lease := Unclaimed(0))], lastToken := 0)
    ensures Claim(db, 0, 1) == Outcome(AfterClaim(), Ok(Some(DeploymentWork(1, 0, None))))
  {
    assert Sweep(db, 0) == db;
    assert FirstAction([], 0) == None;
    assert DeploymentReady(db.deployments, 0, 0);
    assert Backoff(0) == 5 * SECOND;
  }

  lemma AbandonedRun()
    ensures Legal(Empty(0), Abandoned()) && Run(Empty(0), Abandoned()) == AfterClaim()
    ensures Claim(AfterClaim().(deployments := [ClaimedRelease().(lease := Unclaimed(0))], lastToken := 0), 0, 1)
         == Outcome(AfterClaim(), Ok(Some(DeploymentWork(1, 0, None))))
  {
    hide Claim;
    var e := Abandoned();
    var created := Apply(Empty(0), e[0]);
    assert created == AfterClaim().(deployments := [], lastToken := 0);
    var queued := Apply(created, e[1]);
    assert PendingCount(created.deployments, 0) == 0;
    assert queued == AfterClaim().(deployments := [ClaimedRelease().(lease := Unclaimed(0))], lastToken := 0);
    OneQueued(queued);
    assert Apply(queued, e[2]) == AfterClaim();
    RunUnfolds(Empty(0), e);
    RunUnfolds(created, e[1..]);
    RunUnfolds(queued, e[2..]);
    assert e[1..][1..] == e[2..] && e[2..][1..] == [];
    assert Timely(Empty(0), e[0]) && Timely(created, e[1]) && Timely(queued, e[2]);
  }

  /** Ten minutes later to the microsecond a claim fails, and leaves the overdue release as it is. */
  lemma DeadlineAtTheInstant(next: Time)
    requires next > EXECUTION_WINDOW
    ensures Legal(Empty(0), Abandoned())
    ensures var db := Tick(Run(Empty(0), Abandoned()), EXECUTION_WINDOW);
            Claim(db, db.clock, next) == Outcome(db, Err(Conflict))
  {
    hide Run, Legal;
    AbandonedRun();
    var db := Tick(AfterClaim(), EXECUTION_WINDOW);
    assert Sweep(db, db.clock) == db;
    assert FirstAction([], db.clock) == None;
    assert DeploymentReady(db.deployments, 0, db.clock);
    assert FirstDeployment(db.deployments, db.clock) == Some(0);
  }

  /******* A backup of a release whose volume was handed on *******/

  const ONE: VolumeId := Created(0)
  const OTHER: VolumeId := Created(1)

  /** A state and the one after an event, which is in time and takes no volume. */
  lemma OneEvent(db: Db, events: seq<Event>, next: Db)
    requires |events| > 0 && Timely(db, events[0]) && Polite(db, events[0]) && Apply(db, events[0]) == next
    ensures Run(db, events) == Run(next, events[1..])
    ensures Legal(next, events[1..]) ==> Legal(db, events)
    ensures AllPolite(next, events[1..]) ==> AllPolite(db, events)
  {
    hide Apply, Timely, Polite;
  }

  lemma {:induction false} RunsJoin(db: Db, events: seq<Event>, more: seq<Event>)
    ensures Run(db, events + more) == Run(Run(db, events), more)
    ensures Legal(db, events) && Legal(Run(db, events), more) ==> Legal(db, events + more)
    ensures AllPolite(db, events) && AllPolite(Run(db, events), more) ==> AllPolite(db, events + more)
    decreases |events|
  {
    hide Apply, Timely, Polite;
    if |events| == 0 {
      assert events + more == more;
    } else {
      assert (events + more)[1..] == events[1..] + more;
      RunsJoin(Apply(db, events[0]), events[1..], more);
    }
  }

  function Spare(): Spec {
    Spec(Reference("app"), 80, "/")
  }

  function Application(volume: Option<VolumeId>, active: Option<nat>, desired: Desired): Service {
    NewService(Scope(0, "production"), Http, Web, Settings(volume, if volume.Some? then "/d" else "", 80)).(
      activeId := active, desired := desired)
  }

  function Volumes(): map<VolumeId, Volume> {
    map[ONE := Volume(Scope(0, "production"), false), OTHER := Volume(Scope(0, "production"), false)]
  }

  /** A release that mounts the first volume, claimed with this token if it is not 0. */
  function Mounting(s: nat, status: Status, token: nat): Deployment {
    Deployment(s, Settings(Some(ONE), "/d", 80), "", Payload(Spare(), None), status, FirstLease(token), false)
  }

  function FirstLease(token: nat): Lease {
    if token == 0 then Unclaimed(0) else Lease(1, token, Some(EXECUTION_WINDOW), 5 * SECOND)
  }

  /** Two applications and two volumes; the first application mounts the first volume. */
  function Prepared(): Db {
    Db([Application(Some(ONE), None, Running), Application(None, None, Running)], [], [], [], Volumes(),
       map[ONE := Attachment(0, "/d")], 2, 0, 0)
  }

  function Preparation(): seq<Event> {
    [Event(0, DoCreateCompute(Scope(0, "production"), Web)), Event(0, DoCreateCompute(Scope(0, "production"), Web)),
     Event(0, DoCreateVolume(Scope(0, "production"))), Event(0, DoCreateVolume(Scope(0, "production"))),
     Event(0, DoAttach(ONE, 0, "/d", true))]
  }

  lemma Prepare()
    ensures Run(Empty(0), Preparation()) == Prepared()
    ensures Legal(Empty(0), Preparation()) && AllPolite(Empty(0), Preparation())
  {
    hide Run, Legal, AllPolite;
    var e, blank := Preparation(), Application(None, None, Running);
    var s1, s2 := Empty(0).(services := [blank]), Empty(0).(services := [blank, blank]);
    var s3 := s2.(volumes := map[ONE := Volume(Scope(0, "production"), false)], volumesCreated := 1);
    var s4 := s2.(volumes := Volumes(), volumesCreated := 2);
    OneEvent(Empty(0), e, s1);
    OneEvent(s1, e[1..], s2);
    OneEvent(s2, e[1..][1..], s3);
    OneEvent(s3, e[1..][1..][1..], s4);
    OneEvent(s4, e[1..][1..][1..][1..], Prepared());
    Ended(Prepared(), e[1..][1..][1..][1..][1..]);
  }

  lemma Ended(db: Db, events: seq<Event>)
    requires |events| == 0
    ensures Run(db, events) == db && Legal(db, events) && AllPolite(db, events)
  {
  }

  /** Nothing is unfinished. */
  predicate Idle(db: Db) {
    && db.clock == 0 && db.runs == []
    && (forall d :: 0 <= d < |db.deployments| ==> Terminal(db.deployments[d].status))
    && (forall a :: 0 <= a < |db.actions| ==> !Pending(db.actions[a].status))
  }

  lemma {:induction false} NobodyWaits(rows: seq<Deployment>, s: nat)
    requires forall d :: 0 <= d < |rows| ==> Terminal(rows[d].status)
    ensures PendingCount(rows, s) == 0
  {
    if |rows| > 0 {
      NobodyWaits(rows[..|rows| - 1], s);
    }
  }

  lemma SweepIdle(db: Db, s: nat)
    requires Idle(db)
    ensures Sweep(db, 0) == db && FirstAction(db.actions, 0) == None && !HasWork(db, s)
  {
  }

  lemma SweepFresh(db: Db, row: Deployment)
    requires Idle(db) && row.lease == Unclaimed(0)
    ensures var queued := db.(deployments := db.deployments + [row]); Sweep(queued, 0) == queued
  {
    var queued := db.(deployments := db.deployments + [row]);
    assert SweepDeployments(queued.deployments, 0) == queued.deployments;
  }

  lemma NoneReady(rows: seq<Deployment>)
    requires forall d :: 0 <= d < |rows| ==> Terminal(rows[d].status)
    ensures forall d :: 0 <= d < |rows| ==> !DeploymentReady(rows, d, 0)
  {
  }

  /** A deployment of service `s`, from its request to its activation. */
  function Deploying(s: nat, d: nat, token: nat): seq<Event> {
    [Event(0, DoEnqueue(s, Spare(), None, "", true, true)), Event(0, DoClaim(1)), Event(0, DoReport(d, token, Activated))]
  }

  predicate Deployable(db: Db, s: nat) {
    Idle(db) && s < |db.services| && db.services[s] == Application(Some(ONE), None, Running)
  }

  lemma EnqueueIdle(db: Db, s: nat)
    requires Deployable(db, s)
    ensures Enqueue(db, s, Spare(), None, "", true, true, 0)
         == Outcome(db.(deployments := db.deployments + [Mounting(s, Queued, 0)]), Ok(|db.deployments|))
  {
    NobodyWaits(db.deployments, s);
    SweepIdle(db, s);
    assert db.services[s := db.services[s]] == db.services;
  }

  lemma ClaimIdle(db: Db, s: nat)
    requires Deployable(db, s)
    ensures Claim(db.(deployments := db.deployments + [Mounting(s, Queued, 0)]), 0, 1)
         == Outcome(db.(deployments := db.deployments + [Mounting(s, Queued, db.lastToken + 1)], lastToken := db.lastToken + 1),
                    Ok(Some(DeploymentWork(db.lastToken + 1, |db.deployments|, None))))
  {
    hide FirstDeployment, FirstAction, Sweep, Idle;
    var row := Mounting(s, Queued, 0);
    var queued := db.(deployments := db.deployments + [row]);
    SweepFresh(db, row);
    SweepIdle(db, s);
    IdleRows(db, s);
    NoneReady(db.deployments);
    OnlyTheLastIsReady(db.deployments, row, 0);
    assert Backoff(0) == 5 * SECOND;
  }

  lemma IdleRows(db: Db, s: nat)
    requires Idle(db)
    ensures db.clock == 0 && !DeploymentPending(db.deployments, s)
    ensures forall d :: 0 <= d < |db.deployments| ==> Terminal(db.deployments[d].status)
  {
  }

  function Deployed(db: Db, s: nat): Db
    requires Deployable(db, s)
  {
    db.(services := db.services[s := Application(Some(ONE), Some(|db.deployments|), Running)],
        deployments := db.deployments + [Mounting(s, Active, db.lastToken + 1)], lastToken := db.lastToken + 1)
  }

  lemma DeployIdle(db: Db, s: nat)
    requires Deployable(db, s)
    ensures var events := Deploying(s, |db.deployments|, db.lastToken + 1);
            Run(db, events) == Deployed(db, s) && Legal(db, events) && AllPolite(db, events)
  {
    hide Run, Legal, AllPolite, Claim, Enqueue, Mounting;
    var events := Deploying(s, |db.deployments|, db.lastToken + 1);
    var queued := db.(deployments := db.deployments + [Mounting(s, Queued, 0)]);
    var claimed := db.(deployments := db.deployments + [Mounting(s, Queued, db.lastToken + 1)], lastToken := db.lastToken + 1);
    EnqueueIdle(db, s);
    OneEvent(db, events, queued);
    ClaimIdle(db, s);
    OneEvent(queued, events[1..], claimed);
    ActivateIdle(db, s, claimed);
    OneEvent(claimed, events[1..][1..], Deployed(db, s));
    Ended(Deployed(db, s), events[1..][1..][1..]);
  }

  lemma ActivateIdle(db: Db, s: nat, claimed: Db)
    requires Deployable(db, s)
    requires claimed == db.(deployments := db.deployments + [Mounting(s, Queued, db.lastToken + 1)], lastToken := db.lastToken + 1)
    ensures Report(claimed, |db.deployments|, db.lastToken + 1, Activated, 0) == Outcome(Deployed(db, s), Ok(Unit))
  {
  }

  function Stopping(): seq<Event> {
    [Event(0, DoEnqueueAction(0, Stop, false)), Event(0, DoClaim(1)), Event(0, DoReportAction(0, 2, true))]
  }

  /** The first application runs its release. */
  function Launched(): Db {
    Db([Application(Some(ONE), Some(0), Running), Application(None, None, Running)], [Mounting(0, Active, 1)], [], [], Volumes(),
       map[ONE := Attachment(0, "/d")], 2, 1, 0)
  }

  function Halted(): Db {
    Launched().(services := [Application(Some(ONE), Some(0), Stopped), Application(None, None, Running)],
                actions := [Action(0, Stop, Succeeded, FirstLease(2))], lastToken := 2)
  }

  lemma Halt()
    ensures Run(Launched(), Stopping()) == Halted() && Legal(Launched(), Stopping()) && AllPolite(Launched(), Stopping())
  {
    hide Run, Legal, AllPolite, Claim;
    var events := Stopping();
    var asked := Launched().(actions := [Action(0, Stop, Waiting, Unclaimed(0))]);
    var claimed := Launched().(actions := [Action(0, Stop, Executing, FirstLease(2))], lastToken := 2);
    OneEvent(Launched(), events, asked);
    ClaimStop();
    OneEvent(asked, events[1..], claimed);
    OneEvent(claimed, events[1..][1..], Halted());
    Ended(Halted(), events[1..][1..][1..]);
  }

  lemma ClaimStop()
    ensures Claim(Launched().(actions := [Action(0, Stop, Waiting, Unclaimed(0))]), 0, 1)
         == Outcome(Launched().(actions := [Action(0, Stop, Executing, FirstLease(2))], lastToken := 2),
                    Ok(Some(ActionWork(2, 0, 0))))
  {
    var asked := Launched().(actions := [Action(0, Stop, Waiting, Unclaimed(0))]);
    assert Sweep(asked, 0) == asked;
    assert ActionReady(asked.actions, 0, 0);
    assert Backoff(0) == 5 * SECOND;
  }

  /** The first application changes its volume, and the other one takes over the first volume. */
  function HandingOn(): seq<Event> {
    [Event(0, DoDetach(ONE)), Event(0, DoAttach(OTHER, 0, "/d", true)), Event(0, DoAttach(ONE, 1, "/d", true))]
  }

  function HandedOn(): Db {
    Halted().(services := [Application(Some(OTHER), Some(0), Stopped), Application(Some(ONE), None, Running)],
              attachments := map[OTHER := Attachment(0, "/d"), ONE := Attachment(1, "/d")])
  }

  lemma HandOn()
    ensures Run(Halted(), HandingOn()) == HandedOn() && Legal(Halted(), HandingOn()) && AllPolite(Halted(), HandingOn())
  {
    hide Run, Legal, AllPolite;
    var events := HandingOn();
    var free := Halted().(services := [Application(None, Some(0), Stopped), Application(None, None, Running)], attachments := map[]);
    var changed := Halted().(services := [Application(Some(OTHER), Some(0), Stopped), Application(None, None, Running)],
                             attachments := map[OTHER := Attachment(0, "/d")]);
    Detached(free);
    OneEvent(Halted(), events, free);
    OneEvent(free, events[1..], changed);
    OneEvent(changed, events[1..][1..], HandedOn());
    Ended(HandedOn(), events[1..][1..][1..]);
  }

  lemma Detached(free: Db)
    requires free == Halted().(services := [Application(None, Some(0), Stopped), Application(None, None, Running)], attachments := map[])
    ensures DetachVolume(Halted(), ONE) == Outcome(free, Ok(Unit))
  {
    assert map[ONE := Attachment(0, "/d")] - {ONE} == map[];
  }

  lemma LaunchedThen()
    ensures Deployable(Prepared(), 0) && Deployed(Prepared(), 0) == Launched()
    ensures |Prepared().deployments| == 0 && Prepared().lastToken == 0
    ensures Deployable(HandedOn(), 1)
    ensures |HandedOn().deployments| == 1 && HandedOn().lastToken == 2
  {
  }

  function VolumeHandedOn(): seq<Event> {
    Preparation() + (Deploying(0, 0, 1) + (Stopping() + (HandingOn() + Deploying(1, 1, 3))))
  }

  lemma VolumeHandedOnRun()
    ensures Deployable(HandedOn(), 1)
    ensures Run(Empty(0), VolumeHandedOn()) == Deployed(HandedOn(), 1)
    ensures Legal(Empty(0), VolumeHandedOn()) && AllPolite(Empty(0), VolumeHandedOn())
  {
    hide Run, Legal, AllPolite, Preparation, Deploying, Stopping, HandingOn;
    Prepare();
    LaunchedThen();
    Halt();
    HandOn();
    hide Deployable, Deployed, Prepared, Launched, Halted, HandedOn;
    DeployIdle(Prepared(), 0);
    DeployIdle(HandedOn(), 1);
    RunsJoin(Halted(), HandingOn(), Deploying(1, 1, 3));
    RunsJoin(Launched(), Stopping(), HandingOn() + Deploying(1, 1, 3));
    RunsJoin(Prepared(), Deploying(0, 0, 1), Stopping() + (HandingOn() + Deploying(1, 1, 3)));
    RunsJoin(Empty(0), Preparation(), Deploying(0, 0, 1) + (Stopping() + (HandingOn() + Deploying(1, 1, 3))));
  }

  /** In a run in which no settings form takes a volume, the first application is stopped, mounts
      another volume and hands its first one on.  A backup or a restore is then accepted, and works
      on a release whose volume another service's live release mounts. */
  lemma BackupOnSharedVolume(kind: ActionKind)
    requires kind.Backup? || kind.Restore?
    ensures Legal(Empty(0), VolumeHandedOn()) && AllPolite(Empty(0), VolumeHandedOn())
    ensures var db := Run(Empty(0), VolumeHandedOn());
            && EnqueueAction(db, 0, kind, true, db.clock).reply.Ok?
            && |db.services| == 2 && |db.deployments| == 2 && db.services[0].activeId == Some(0)
            && !MountsAsReleased(db, 0) && !NobodyElseOn(db, 0)
  {
    hide Run, Legal, AllPolite, VolumeHandedOn;
    VolumeHandedOnRun();
    var db := Deployed(HandedOn(), 1);
    assert Live(db, 1);
  }
}
