/** A run of the whole loop that shows what the condition on its clean-up is for. */
module LoopExamples {
  import opened Common
  import opened Leases
  import opened StoreModel
  import opened StoreInvariant
  import opened StoreRuns
  import opened StoreExamples
  import opened RunnerModel
  import opened RunnerSafety
  import opened RunnerProduct
  import opened RunnerOutcomes
  import opened Runners
  import opened AgentLoop
  import Reconciliation

  /******* An undisturbed deployment, call by call *******/

  /** The tables with another status of deployment `d`. */
  function WithStatus(db: Db, d: nat, status: Status): Db
    requires d < |db.deployments|
  {
    db.(deployments := db.deployments[d := db.deployments[d].(status := status)])
  }

  lemma ToldStage(job: Job, db: Db, s: nat, stage: Stage, reported: Reported)
    requires Wanted(job, db, s) && reported == Progress(stage)
    ensures Report(db, job.release, job.token, reported, db.clock) == Outcome(WithStatus(db, job.release, Working(stage)), Ok(Unit))
    ensures Wanted(job, WithStatus(db, job.release, Working(stage)), s)
  {
  }

  lemma StatusAgain(db: Db, d: nat, status: Status, again: Status)
    requires d < |db.deployments|
    ensures WithStatus(WithStatus(db, d, status), d, again) == WithStatus(db, d, again)
  {
  }

  /** After `n` calls from `pc` the job is at `pc'`, with `world'` as the latest record. */
  ghost predicate Arrives(job: Job, pc: Pc, world: World, tape: Tape, tick: nat, n: nat, pc': Pc, world': World) {
    && Possible(job, pc) && Possible(job, pc')
    && var records := Execute(job, pc, world, tape, tick);
       && |records| >= n && After(world, records[..n]) == world'
       && records[n..] == Execute(job, pc', world', tape, tick + n)
  }

  lemma OneCall(job: Job, pc: Pc, world: World, tape: Tape, tick: nat, pc': Pc, world': World)
    requires Possible(job, pc) && !pc.Done? && Quiet(tape, 0)
    requires Accepted(job, CallAt(job, pc), world) && Effect(job, CallAt(job, pc), world) == world' && Next(job, pc, true, false) == pc'
    ensures Arrives(job, pc, world, tape, tick, 1, pc', world')
  {
    hide Execute, Accepted, Effect, RecordAt, NextAt;
    QuietLater(tape, tick);
    Unfold(job, pc, world, tape, tick);
    QuietCall(job, pc, world, tape, tick);
  }

  lemma Further(
    job: Job, pc: Pc, world: World, tape: Tape, tick: nat, n: nat, pc1: Pc, world1: World, m: nat, pc2: Pc, world2: World)
    requires Arrives(job, pc, world, tape, tick, n, pc1, world1) && Arrives(job, pc1, world1, tape, tick + n, m, pc2, world2)
    ensures Arrives(job, pc, world, tape, tick, n + m, pc2, world2)
  {
    hide Execute;
    var records, rest := Execute(job, pc, world, tape, tick), Execute(job, pc1, world1, tape, tick + n);
    assert records == records[..n] + rest;
    assert records[..n + m] == records[..n] + rest[..m];
  }

  /** A public deployment without a volume or a command to run before it. */
  predicate Plain(job: Job) {
    job.public && !job.cron && !job.volume && !job.predeploy && job.previous != Some(job.release)
  }

  function Staged(job: Job, world: World, stage: Stage): World
    requires job.release < |world.db.deployments|
  {
    world.(db := WithStatus(world.db, job.release, Working(stage)))
  }

  /** A report of a stage in place of another one. */
  lemma StageCall(job: Job, pc: Pc, world: World, tape: Tape, tick: nat, s: nat, old': Stage, stage: Stage, pc': Pc)
    requires Quiet(tape, 0) && Wanted(job, world.db, s) && job.release < |world.db.deployments|
    requires Possible(job, pc) && !pc.Done? && CallAt(job, pc) == Tell(Progress(stage)) && Next(job, pc, true, false) == pc'
    ensures Arrives(job, pc, Staged(job, world, old'), tape, tick, 1, pc', Staged(job, world, stage))
  {
    hide Arrives, Report;
    TellKeepsWanted(job, world.db, s, old');
    ToldStage(job, Staged(job, world, old').db, s, stage, Progress(stage));
    StatusAgain(world.db, job.release, Working(old'), Working(stage));
    OneCall(job, pc, Staged(job, world, old'), tape, tick, pc', Staged(job, world, stage));
  }

  lemma TellKeepsWanted(job: Job, db: Db, s: nat, stage: Stage)
    requires Wanted(job, db, s)
    ensures Wanted(job, WithStatus(db, job.release, Working(stage)), s)
  {
  }

  lemma QuietPull(job: Job, world: World, tape: Tape, s: nat)
    requires Plain(job) && Quiet(tape, 0) && Wanted(job, world.db, s) && job.release < |world.db.deployments|
    ensures Arrives(job, START, world, tape, 0, 3, Ensuring, Staged(job, world, Starting))
  {
    hide Wanted, Arrives, Report, WithStatus;
    var w := Staged(job, world, Pulling);
    ToldStage(job, world.db, s, Pulling, Progress(Pulling));
    OneCall(job, START, world, tape, 0, PullImage, w);
    OneCall(job, PullImage, w, tape, 1, ReportStarting, w);
    Further(job, START, world, tape, 0, 1, PullImage, w, 1, ReportStarting, w);
    StageCall(job, ReportStarting, world, tape, 2, s, Pulling, Starting, Ensuring);
    Further(job, START, world, tape, 0, 2, ReportStarting, w, 1, Ensuring, Staged(job, world, Starting));
  }

  /** With its candidate running. */
  function Started(job: Job, world: World): World {
    world.(running := world.running + {job.release})
  }

  lemma QuietCheck(job: Job, world: World, tape: Tape, s: nat)
    requires Plain(job) && Quiet(tape, 0) && Wanted(job, world.db, s) && job.release < |world.db.deployments|
    ensures Arrives(job, Ensuring, Staged(job, world, Starting), tape, 3, 4, SwitchRoute, Staged(job, Started(job, world), Routing))
  {
    hide Wanted, Arrives, Report, WithStatus;
    var w3, started := Staged(job, world, Starting), Started(job, world);
    var w4, w5, w7 := Staged(job, started, Starting), Staged(job, started, Checking), Staged(job, started, Routing);
    OneCall(job, Ensuring, w3, tape, 3, ReportChecking, w4);
    StageCall(job, ReportChecking, started, tape, 4, s, Starting, Checking, AwaitReady);
    Further(job, Ensuring, w3, tape, 3, 1, ReportChecking, w4, 1, AwaitReady, w5);
    OneCall(job, AwaitReady, w5, tape, 5, ReportRouting, w5);
    Further(job, Ensuring, w3, tape, 3, 2, AwaitReady, w5, 1, ReportRouting, w5);
    StageCall(job, ReportRouting, started, tape, 6, s, Checking, Routing, SwitchRoute);
    Further(job, Ensuring, w3, tape, 3, 3, ReportRouting, w5, 1, SwitchRoute, w7);
  }

  /** The candidate is routed to, and its activation not yet reported. */
  function RoutedTo(job: Job, world: World): World
    requires job.release < |world.db.deployments|
  {
    Staged(job, Started(job, world), Routing).(route := Some(job.release))
  }

  /** Undisturbed, the eighth call switches the route. */
  lemma QuietSwitch(job: Job, world: World, tape: Tape, s: nat)
    requires Plain(job) && Quiet(tape, 0) && Wanted(job, world.db, s) && job.release < |world.db.deployments|
    ensures Arrives(job, START, world, tape, 0, 8, VerifyRoute, RoutedTo(job, world))
  {
    hide Wanted, Arrives, WithStatus;
    var w7 := Staged(job, Started(job, world), Routing);
    QuietPull(job, world, tape, s);
    QuietCheck(job, world, tape, s);
    Further(job, START, world, tape, 0, 3, Ensuring, Staged(job, world, Starting), 4, SwitchRoute, w7);
    OneCall(job, SwitchRoute, w7, tape, 7, VerifyRoute, RoutedTo(job, world));
    Further(job, START, world, tape, 0, 7, SwitchRoute, w7, 1, VerifyRoute, RoutedTo(job, world));
  }

  lemma QuietVerify(job: Job, world: World, tape: Tape, s: nat)
    requires Plain(job) && Quiet(tape, 0) && Wanted(job, world.db, s) && job.release < |world.db.deployments|
    ensures Arrives(job, START, world, tape, 0, 9, ReportActive, RoutedTo(job, world))
  {
    hide Wanted, Arrives, RoutedTo;
    var routed := RoutedTo(job, world);
    QuietSwitch(job, world, tape, s);
    OneCall(job, VerifyRoute, routed, tape, 8, ReportActive, routed);
    Further(job, START, world, tape, 0, 8, VerifyRoute, routed, 1, ReportActive, routed);
  }

  /** A first deployment then ends with its activation. */
  lemma QuietEnd(job: Job, world: World, tape: Tape, s: nat)
    requires Plain(job) && job.previous.None? && Quiet(tape, 0) && Wanted(job, world.db, s) && job.release < |world.db.deployments|
    requires s < |world.db.services| && world.db.deployments[job.release].service == s
    ensures var routed := RoutedTo(job, world);
            After(world, Execute(job, START, world, tape, 0)) == routed.(db := Activate(routed.db, job.release))
  {
    hide Wanted, Report, Execute, Activate;
    var routed := RoutedTo(job, world);
    var active := routed.(db := Activate(routed.db, job.release));
    QuietVerify(job, world, tape, s);
    TellKeepsWanted(job, world.db, s, Routing);
    ToldActive(job, routed.db, s);
    OneCall(job, ReportActive, routed, tape, 9, Done, active);
    Further(job, START, world, tape, 0, 9, ReportActive, routed, 1, Done, active);
    NoCalls(job, Done, active, tape, 10);
    var records := Execute(job, START, world, tape, 0);
    assert records[..10] == records;
  }

  lemma ToldActive(job: Job, db: Db, s: nat)
    requires Wanted(job, db, s)
    ensures Report(db, job.release, job.token, Activated, db.clock) == Outcome(Activate(db, job.release), Ok(Unit))
  {
  }

  /******* A route that the clean-up takes away *******/

  function Quietly(): Tape {
    (i: nat) => Slot([], Fine)
  }

  function Public(): nat -> bool {
    (s: nat) => true
  }

  /** A public application is created and deployed, undisturbed. */
  function Launch(): seq<Turn> {
    [Users([Event(0, DoCreateCompute(Scope(0, "production"), Web)),
            Event(0, DoEnqueue(0, Spec(Reference("app"), 80, "/"), None, "", true, true))]),
     Work(1, Public(), false, Quietly(), false, 27)]
  }

  /** A second deployment is cut off after it switched the route, and nothing is heard of the agent
      for ten minutes.  The next pass then fails at its first call, and the claim after it finds the
      deployment overdue and nothing else to do. */
  function Relapse(): seq<Turn> {
    [Users([Event(0, DoEnqueue(0, Spec(Reference("app"), 80, "/"), None, "", true, true))]),
     Work(1, Public(), false, Quietly(), false, 8),
     Users([Event(EXECUTION_WINDOW + 1, DoCancel(2))]),
     Pass(Public(), [Reconciliation.Trouble(Reconciliation.Lost(false), Reconciliation.Fine, Reconciliation.Fine)], 1),
     Work(EXECUTION_WINDOW + 2, Public(), false, Quietly(), false, 0)]
  }

  function Bare(): Node {
    Node({}, map[], Empty(0))
  }

  function Waiting0(): Db {
    AfterClaim().(deployments := [ClaimedRelease().(lease := Unclaimed(0))], lastToken := 0)
  }

  /** The first release is active. */
  function Active0(): Db {
    AfterClaim().(services := [Application(None, Some(0), Running)], deployments := [ClaimedRelease().(status := Active)])
  }

  function SecondRelease(status: Status, token: nat): Deployment {
    ClaimedRelease().(status := status, lease := FirstLease(token))
  }

  function With(status: Status, token: nat, clock: Time): Db {
    Active0().(deployments := [ClaimedRelease().(status := Active), SecondRelease(status, token)],
               lastToken := if token == 0 then 1 else token, clock := clock)
  }

  lemma OneMore(node: Node, turns: seq<Turn>, next: Node)
    requires |turns| > 0 && Regular(node, turns[0]) && Turned(node, turns[0]) == next && AllRegular(next, turns[1..])
    ensures AllRegular(node, turns) && AfterTurns(node, turns) == AfterTurns(next, turns[1..])
  {
    hide Regular, Turned;
  }

  lemma UsersDo(db: Db, events: seq<Event>, after: Db)
    requires ByOthers(events) && Legal(db, events) && Run(db, events) == after
    ensures Interfere(db, events) == after
  {
    hide Run, Legal, ByOthers;
  }

  lemma CreateAndRequest()
    ensures Turned(Bare(), Launch()[0]) == Node({}, map[], Waiting0())
  {
    hide Run, Legal;
    var events := Launch()[0].events;
    var created := AfterClaim().(deployments := [], lastToken := 0);
    assert Apply(Empty(0), events[0]) == created;
    assert PendingCount([], 0) == 0;
    assert Apply(created, events[1]) == Waiting0();
    OneEvent(Empty(0), events, created);
    OneEvent(created, events[1..], Waiting0());
    Ended(Waiting0(), events[1..][1..]);
    UsersDo(Empty(0), events, Waiting0());
  }

  const FIRST: Job := Job(1, 0, None, true, false, false, false)
  const SECOND_JOB: Job := Job(2, 1, Some(0), true, false, false, false)

  lemma FirstWork()
    ensures Worked(Node({}, map[], Waiting0()), Launch()[1]) == Node({0}, map[0 := 0], Active0())
  {
    hide Claim, Execute;
    OneQueued(Waiting0());
    var world := World({}, None, AfterClaim());
    var records := Execute(FIRST, START, world, Quietly(), 0);
    QuietEnd(FIRST, world, Quietly(), 0);
    CallsBounded(FIRST, START, world, Quietly(), 0);
    assert Upto(Attempt(FIRST, world, Quietly(), 0, false), 27) == records;
    assert RoutedTo(FIRST, world).(db := Activate(RoutedTo(FIRST, world).db, 0)) == World({0}, Some(0), Active0());
  }

  lemma {:induction false} CallsBounded(job: Job, pc: Pc, world: World, tape: Tape, tick: nat)
    requires Possible(job, pc)
    ensures |Execute(job, pc, world, tape, tick)| <= Rank(pc)
    decreases Rank(pc)
  {
    hide Execute, RecordAt, NextAt;
    if pc.Done? {
      NoCalls(job, pc, world, tape, tick);
    } else {
      Unfold(job, pc, world, tape, tick);
      NextPossible(job, pc, world, tape(tick));
      CallsBounded(job, NextAt(job, pc, world, tape(tick)), RecordAt(job, pc, world, tape(tick)).world, tape, tick + 1);
    }
  }

  lemma Launched0()
    ensures AllRegular(Bare(), Launch()) && AfterTurns(Bare(), Launch()) == Node({0}, map[0 := 0], Active0())
  {
    hide Worked, Active0, Waiting0, AllRegular, AfterTurns, Interfere;
    CreateAndRequest();
    FirstWork();
    ClockOfWaiting();
    var end := Node({0}, map[0 := 0], Active0());
    NoTurns(end, Launch()[1..][1..]);
    OneMore(Node({}, map[], Waiting0()), Launch()[1..], end);
    OneMore(Bare(), Launch(), Node({}, map[], Waiting0()));
  }

  lemma ClockOfWaiting()
    ensures Waiting0().clock == 0 && Active0().clock == 0
  {
  }

  lemma RequestAgain()
    ensures Turned(Node({0}, map[0 := 0], Active0()), Relapse()[0]) == Node({0}, map[0 := 0], With(Queued, 0, 0))
  {
    hide Run, Legal;
    var events := Relapse()[0].events;
    var rows := Active0().deployments;
    assert rows[..1] == rows && rows[..0] == [];
    assert PendingCount(rows[..0], 0) == 0;
    assert PendingCount(rows, 0) == 0;
    assert Apply(Active0(), events[0]).services == Active0().services;
    assert Apply(Active0(), events[0]) == With(Queued, 0, 0);
    OneEvent(Active0(), events, With(Queued, 0, 0));
    Ended(With(Queued, 0, 0), events[1..]);
    UsersDo(Active0(), events, With(Queued, 0, 0));
  }

  lemma ClaimSecond()
    ensures Claim(With(Queued, 0, 0), 0, 1) == Outcome(With(Queued, 2, 0), Ok(Some(DeploymentWork(2, 1, Some(0)))))
  {
    var db := With(Queued, 0, 0);
    assert Sweep(db, 0) == db;
    assert FirstAction([], 0) == None;
    assert !DeploymentReady(db.deployments, 0, 0) && DeploymentReady(db.deployments, 1, 0);
    assert FirstDeployment(db.deployments, 0, 1) == Some(1);
    assert Backoff(0) == 5 * SECOND;
  }

  lemma SecondWork()
    ensures Worked(Node({0}, map[0 := 0], With(Queued, 0, 0)), Relapse()[1])
         == Node({0, 1}, map[0 := 1], With(Working(Routing), 2, 0))
  {
    hide Claim, Execute;
    ClaimSecond();
    var world := World({0}, Some(0), With(Queued, 2, 0));
    var records := Execute(SECOND_JOB, START, world, Quietly(), 0);
    QuietSwitch(SECOND_JOB, world, Quietly(), 0);
    assert Upto(records, 8) == records[..8];
    assert RoutedTo(SECOND_JOB, world) == World({0, 1}, Some(1), With(Working(Routing), 2, 0));
  }

  lemma TimePasses()
    ensures Turned(Node({0, 1}, map[0 := 1], With(Working(Routing), 2, 0)), Relapse()[2])
         == Node({0, 1}, map[0 := 1], With(Working(Routing), 2, EXECUTION_WINDOW + 1))
  {
    hide Run, Legal;
    var events, later := Relapse()[2].events, With(Working(Routing), 2, EXECUTION_WINDOW + 1);
    OneEvent(With(Working(Routing), 2, 0), events, later);
    Ended(later, events[1..]);
    UsersDo(With(Working(Routing), 2, 0), events, later);
  }

  lemma PassFails()
    ensures var node := Node({0, 1}, map[0 := 1], With(Working(Routing), 2, EXECUTION_WINDOW + 1));
            Regular(node, Relapse()[3]) && Passed(node, Relapse()[3]) == node
  {
    var node := Node({0, 1}, map[0 := 1], With(Working(Routing), 2, EXECUTION_WINDOW + 1));
    var state := Reconciliation.State(node.running, node.routes);
    assert Reconciliation.Pass(state, Reconciliation.WorkOf(node.db, Public()), Relapse()[3].troubles, 0) == state;
  }

  lemma ClaimNothing()
    ensures var db := With(Working(Routing), 2, EXECUTION_WINDOW + 1);
            Claim(db, db.clock, EXECUTION_WINDOW + 2) == Outcome(With(Failed, 2, EXECUTION_WINDOW + 1), Ok(None))
  {
    var db, swept := With(Working(Routing), 2, EXECUTION_WINDOW + 1), With(Failed, 2, EXECUTION_WINDOW + 1);
    assert Sweep(db, db.clock) == swept;
    assert FirstAction([], db.clock) == None;
    assert !DeploymentReady(swept.deployments, 0, db.clock) && !DeploymentReady(swept.deployments, 1, db.clock);
    assert FirstDeployment(swept.deployments, db.clock) == None;
  }

  lemma OneCareful(node: Node, turns: seq<Turn>, next: Node, s: nat)
    requires |turns| > 0 && AllRegular(node, turns) && Turned(node, turns[0]) == next
    requires AllRegular(next, turns[1..]) && Careful(node, turns[0], s) && AllCareful(next, turns[1..], s)
    ensures AllCareful(node, turns, s)
  {
    hide Regular, Turned, Careful;
  }

  lemma SecondIsCareful()
    ensures Careful(Node({0}, map[0 := 0], With(Queued, 0, 0)), Relapse()[1], 0)
    ensures Careful(Node({0, 1}, map[0 := 1], With(Working(Routing), 2, EXECUTION_WINDOW + 1)), Relapse()[4], 0)
  {
    hide Claim, Execute;
    ClaimSecond();
    ClaimNothing();
  }

  lemma FirstIsActivated()
    ensures Report(AfterClaim(), 0, 1, Activated, AfterClaim().clock).db == Active0()
  {
  }

  lemma ActiveInv()
    ensures Inv(Active0())
  {
    hide Inv, Run, Legal, Report, Active0, AfterClaim;
    AbandonedRun();
    EmptyInv(0);
    RunKeepsInvariant(Empty(0), Abandoned());
    FirstIsActivated();
    ReportInv(AfterClaim(), 0, 1, Activated);
  }

  lemma ServedAfterLaunch()
    ensures Serves(Node({0}, map[0 := 0], Active0()), 0)
  {
    ActiveInv();
    hide Inv;
  }

  function RelapsedAt(n: nat): Node {
    var clock := EXECUTION_WINDOW + 1;
    if n == 0 then Node({0}, map[0 := 0], Active0())
    else if n == 1 then Node({0}, map[0 := 0], With(Queued, 0, 0))
    else if n == 2 then Node({0, 1}, map[0 := 1], With(Working(Routing), 2, 0))
    else if n < 5 then Node({0, 1}, map[0 := 1], With(Working(Routing), 2, clock))
    else Node({0, 1}, map[0 := 1], With(Failed, 2, clock))
  }

  lemma RelapseTurn(n: nat)
    requires n < 5
    ensures Regular(RelapsedAt(n), Relapse()[n]) && Turned(RelapsedAt(n), Relapse()[n]) == RelapsedAt(n + 1)
    ensures Careful(RelapsedAt(n), Relapse()[n], 0)
  {
    hide Claim, Execute, Interfere, Worked, Passed;
    SecondIsCareful();
    hide Careful, CarefulWork;
    if n == 0 {
      RequestAgain();
      UsersAreCareful(RelapsedAt(0), Relapse()[0]);
    } else if n == 1 {
      SecondWork();
    } else if n == 2 {
      TimePasses();
      UsersAreCareful(RelapsedAt(2), Relapse()[2]);
    } else if n == 3 {
      PassFails();
      PublicIsCareful(RelapsedAt(3));
    } else {
      ClaimNothing();
      EmptyClaim();
    }
  }

  lemma UsersAreCareful(node: Node, turn: Turn)
    requires turn.Users?
    ensures Careful(node, turn, 0)
  {
  }

  lemma PublicIsCareful(node: Node)
    ensures Careful(node, Relapse()[3], 0)
  {
  }

  lemma EmptyClaim()
    ensures Worked(RelapsedAt(4), Relapse()[4]) == RelapsedAt(5)
  {
    hide Claim, Execute;
    ClaimNothing();
  }

  lemma {:induction false} RelapseFrom(n: nat)
    requires n <= 5
    ensures AllRegular(RelapsedAt(n), Relapse()[n..]) && AfterTurns(RelapsedAt(n), Relapse()[n..]) == RelapsedAt(5)
    ensures AllCareful(RelapsedAt(n), Relapse()[n..], 0)
    decreases 5 - n
  {
    hide RelapsedAt, Relapse, Careful, Regular, Turned;
    RelapseLength();
    var turns := Relapse()[n..];
    if n < 5 {
      RelapseTurn(n);
      RelapseFrom(n + 1);
      assert turns[1..] == Relapse()[n + 1..] && turns[0] == Relapse()[n];
      OneMore(RelapsedAt(n), turns, RelapsedAt(n + 1));
      OneCareful(RelapsedAt(n), turns, RelapsedAt(n + 1), 0);
    } else {
      NoTurns(RelapsedAt(5), turns);
    }
  }

  lemma RelapseLength()
    ensures |Relapse()| == 5
  {
  }

  /** From nothing, a public application is deployed and served.  A careful run later it still is,
      but the clean-up may then remove the container that it is routed to. */
  lemma CleanUpTakesRoute() returns (launch: seq<Turn>, relapse: seq<Turn>)
    ensures AllRegular(Bare(), launch) && Serves(AfterTurns(Bare(), launch), 0)
    ensures AllRegular(AfterTurns(Bare(), launch), relapse) && AllCareful(AfterTurns(Bare(), launch), relapse, 0)
    ensures var relapsed := AfterTurns(AfterTurns(Bare(), launch), relapse);
            Serves(relapsed, 0) && !Serves(Turned(relapsed, CleanUp({1})), 0)
  {
    hide AllRegular, AfterTurns, AllCareful, Serves, Launch, Relapse;
    launch, relapse := Launch(), Relapse();
    Launched0();
    ServedAfterLaunch();
    RelapseLength();
    assert relapse[0..] == relapse;
    RelapseFrom(0);
    LoopKeepsServing(RelapsedAt(0), relapse, 0);
    CleanUpExactly(RelapsedAt(5), {1}, 0);
  }

  /******* Two writers on a shared volume *******/

  /** A deployment of a service with a volume that takes over from a running release. */
  predicate TakesOver(job: Job) {
    !job.cron && job.volume && !job.predeploy && job.previous.Some? && job.previous != Some(job.release)
  }

  /** The candidate has the volume. */
  function TakenOver(job: Job, world: World): World
    requires job.release < |world.db.deployments| && job.previous.Some?
  {
    World(world.running - {job.previous.value} + {job.release}, None, WithStatus(world.db, job.release, Working(Starting)))
  }

  /** Undisturbed, the sixth call starts the candidate of such a deployment. */
  lemma QuietTakeOver(job: Job, world: World, tape: Tape, s: nat)
    requires TakesOver(job) && Quiet(tape, 0) && Wanted(job, world.db, s) && job.release < |world.db.deployments|
    ensures Arrives(job, START, world, tape, 0, 6, ReportChecking, TakenOver(job, world))
  {
    hide Wanted, Arrives, Report, WithStatus;
    var w1, w3 := Staged(job, world, Pulling), Staged(job, world, Starting);
    var w4, w6 := w3.(route := None), TakenOver(job, world);
    var w5 := w4.(running := world.running - {job.previous.value});
    ToldStage(job, world.db, s, Pulling, Progress(Pulling));
    OneCall(job, START, world, tape, 0, PullImage, w1);
    OneCall(job, PullImage, w1, tape, 1, ReportStarting, w1);
    Further(job, START, world, tape, 0, 1, PullImage, w1, 1, ReportStarting, w1);
    StageCall(job, ReportStarting, world, tape, 2, s, Pulling, Starting, ClearRoute);
    Further(job, START, world, tape, 0, 2, ReportStarting, w1, 1, ClearRoute, w3);
    OneCall(job, ClearRoute, w3, tape, 3, StopPrevious, w4);
    Further(job, START, world, tape, 0, 3, ClearRoute, w3, 1, StopPrevious, w4);
    OneCall(job, StopPrevious, w4, tape, 4, Ensuring, w5);
    Further(job, START, world, tape, 0, 4, StopPrevious, w4, 1, Ensuring, w5);
    OneCall(job, Ensuring, w5, tape, 5, ReportChecking, w6);
    Further(job, START, world, tape, 0, 5, Ensuring, w5, 1, ReportChecking, w6);
  }

  /** Cut off there, and followed by a pass that succeeds for its service, it leaves both containers
      running on the volume: the promise of one writer ends with the attempt. */
  lemma PassBreaksSingleWriter(node: Node, work: Turn, pass: Turn, s: nat)
    requires Inv(node.db) && work.Work? && work.next > node.db.clock && !work.over && work.cut == 6 && work.tape == Quietly()
    requires Handed(node.db, work.next).Some? && OwnerOf(node.db, work.next) == s
    requires var job := HandedJob(node.db, work.next, work.enabled, work.predeploy);
             TakesOver(job) && Wanted(job, Claim(node.db, node.db.clock, work.next).db, s)
    requires pass.Pass? && Regular(Worked(node, work), pass) && pass.n == |pass.troubles| && s < pass.n
    requires Reconciliation.Settled(Reconciliation.WorkOf(Worked(node, work).db, pass.enabled)[s], pass.troubles[s])
    ensures var job := HandedJob(node.db, work.next, work.enabled, work.predeploy);
            !OneWriter(job, Turned(Worked(node, work), pass).running)
  {
    hide Inv, Execute, Wanted, Claim, Handed, Regular, Turned, Reconciliation.Settled, Reconciliation.WorkOf;
    var claimed := node.(db := Claim(node.db, node.db.clock, work.next).db);
    var job := HandedJob(node.db, work.next, work.enabled, work.predeploy);
    var world := WorldOf(claimed, s);
    HandedMeans(node.db, work.next);
    QuietTakeOver(job, world, work.tape, s);
    var records := Execute(job, START, world, work.tape, 0);
    assert Upto(Attempt(job, world, work.tape, 0, false), 6) == records[..6];
    var after := Worked(node, work);
    assert after.running == TakenOver(job, world).running && after.db == TakenOver(job, world).db;
    KnownAlong(job, START, world, work.tape, 0, s, 5);
    PassAddsWriterExactly(after, pass, s, job.release);
  }
}
