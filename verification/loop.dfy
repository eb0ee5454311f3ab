/** The agent's whole loop (cmd/agent/main.go): passes of reconciliation, claimed work cut off at
    any call, its recovery, and the clean-up, while users go on using the store. */
module AgentLoop {
  import opened Common
  import opened Leases
  import opened StoreModel
  import opened StoreInvariant
  import opened StoreRuns
  import opened StoreHistory
  import opened StorePromises
  import opened RunnerModel
  import opened RunnerSafety
  import opened RunnerProduct
  import opened Runners
  import Reconciliation

  /** The containers that run, the route file of each service, and the store. */
  datatype Node = Node(running: set<nat>, routes: map<nat, nat>, db: Db)

  /** A turn of the loop, or of those who share the store with it.  A turn ends anywhere: a pass
      after `n` services, claimed work after `cut` calls, so that what holds after every turn of
      every run holds after every call. */
  datatype Turn =
    | Users(events: seq<Event>)
    | Pass(enabled: nat -> bool, troubles: seq<Reconciliation.Trouble>, n: nat)
    | Work(next: Time, enabled: nat -> bool, predeploy: bool, tape: Tape, over: bool, cut: nat)
    | Aside(t: nat, report: Step, running: set<nat>, route: Option<nat>)
    | CleanUp(gone: set<nat>)

  function RouteOf(routes: map<nat, nat>, s: nat): Option<nat> {
    if s in routes then Some(routes[s]) else None
  }

  function Rerouted(routes: map<nat, nat>, s: nat, route: Option<nat>): map<nat, nat> {
    if route.Some? then routes[s := route.value] else routes - {s}
  }

  /** What a job of service `t` sees of the node, and the node after it. */
  function WorldOf(node: Node, t: nat): World {
    World(node.running, RouteOf(node.routes, t), node.db)
  }

  function WithWorld(node: Node, t: nat, world: World): Node {
    Node(world.running, Rerouted(node.routes, t, world.route), world.db)
  }

  predicate Own(db: Db, d: nat, s: nat) {
    d < |db.deployments| && db.deployments[d].service == s
  }

  predicate Finished(db: Db, d: nat) {
    d < |db.deployments| && (db.deployments[d].status.Failed? || db.deployments[d].status.Superseded?)
  }

  /** The job that the agent makes of a deployment that the store hands out. */
  function JobFor(db: Db, token: nat, d: nat, previous: Option<nat>, enabled: nat -> bool, predeploy: bool): Job
    requires d < |db.deployments| && db.deployments[d].service < |db.services|
  {
    var row := db.deployments[d];
    var service := db.services[row.service];
    Job(token, d, previous, !IsData(service.kind) && service.workload.Web? && enabled(row.service), service.workload.Cron?,
        row.settings.volume.Some?, predeploy)
  }

  /** The records of a job up to its cut. */
  function Upto(records: seq<Record>, cut: nat): seq<Record> {
    if cut < |records| then records[..cut] else records
  }

  /** The deployment that a claim hands out, if it does. */
  function Handed(db: Db, next: Time): Option<Work> {
    var claimed := Claim(db, db.clock, next);
    if claimed.reply.Ok? && claimed.reply.value.Some? && claimed.reply.value.value.DeploymentWork?
       && claimed.reply.value.value.deployment < |claimed.db.deployments|
       && claimed.db.deployments[claimed.reply.value.value.deployment].service < |claimed.db.services|
    then claimed.reply.value else None
  }

  function HandedJob(db: Db, next: Time, enabled: nat -> bool, predeploy: bool): Job
    requires Handed(db, next).Some?
  {
    var work := Handed(db, next).value;
    JobFor(Claim(db, db.clock, next).db, work.token, work.deployment, work.previous, enabled, predeploy)
  }

  function OwnerOf(db: Db, next: Time): nat
    requires Handed(db, next).Some?
  {
    var claimed := Claim(db, db.clock, next).db;
    claimed.deployments[Handed(db, next).value.deployment].service
  }

  function Worked(node: Node, turn: Turn): Node
    requires turn.Work?
  {
    var claimed := node.(db := Claim(node.db, node.db.clock, turn.next).db);
    if Handed(node.db, turn.next).None? then claimed
    else
      var t, job := OwnerOf(node.db, turn.next), HandedJob(node.db, turn.next, turn.enabled, turn.predeploy);
      var world := WorldOf(claimed, t);
      WithWorld(claimed, t, After(world, Upto(Attempt(job, world, turn.tape, 0, turn.over), turn.cut)))
  }

  function Passed(node: Node, turn: Turn): Node
    requires turn.Pass? && turn.n <= |node.db.services| == |turn.troubles|
  {
    var items := Reconciliation.WorkOf(node.db, turn.enabled);
    var after := Reconciliation.Pass(Reconciliation.State(node.running, node.routes), items, turn.troubles, turn.n);
    node.(running := after.running, routes := after.routes)
  }

  /** What a turn may be: the claim is given an occurrence after now, a pass has one trouble for each
      service, and an action or a cron run of service `t` touches that service's containers and its
      route only, and reports on itself. */
  ghost predicate Regular(node: Node, turn: Turn) {
    match turn
    case Users(_) => true
    case Pass(_, troubles, n) => n <= |node.db.services| == |troubles|
    case Work(next, _, _, _, _, _) => next > node.db.clock
    case Aside(t, report, running, _) =>
      && (forall d :: 0 <= d < |node.db.deployments| && node.db.deployments[d].service != t ==>
                        (d in node.running <==> d in running))
      && (report.DoReportRun? || (report.DoReportAction? && report.a < |node.db.actions| && node.db.actions[report.a].service == t))
    case CleanUp(_) => true
  }

  ghost function Turned(node: Node, turn: Turn): Node
    requires Regular(node, turn)
  {
    match turn
    case Users(events) => node.(db := Interfere(node.db, events))
    case Pass(_, _, _) => Passed(node, turn)
    case Work(_, _, _, _, _, _) => Worked(node, turn)
    case Aside(t, report, running, route) => Node(running, Rerouted(node.routes, t, route), Perform(node.db, report))
    case CleanUp(gone) => node.(running := set d | d in node.running && !(d in gone && Finished(node.db, d)))
  }

  ghost predicate AllRegular(node: Node, turns: seq<Turn>)
    decreases |turns|
  {
    |turns| > 0 ==> Regular(node, turns[0]) && AllRegular(Turned(node, turns[0]), turns[1..])
  }

  ghost function AfterTurns(node: Node, turns: seq<Turn>): Node
    requires AllRegular(node, turns)
    decreases |turns|
  {
    if |turns| == 0 then node else AfterTurns(Turned(node, turns[0]), turns[1..])
  }

  /******* What every turn keeps *******/

  /** An application with web traffic that is released and meant to run. */
  ghost predicate Sound(db: Db, s: nat) {
    && Inv(db)
    && s < |db.services| && Released(db.services[s]) && db.services[s].kind.Http? && db.services[s].workload.Web?
  }

  /** Nobody acts on service `s`. */
  predicate LeavesAlone(turn: Turn, s: nat) {
    turn.Aside? ==> turn.t != s
  }

  predicate Kept(before: Db, after: Db, s: nat) {
    && s < |before.services| && s < |after.services|
    && after.services[s].activeId == before.services[s].activeId && after.services[s].desired == before.services[s].desired
  }

  /** Only reports change whether a service is meant to run. */
  lemma DesiredKept(db: Db, step: Step, s: nat)
    requires !step.DoReport? && s < |db.services|
    requires step.DoReportAction? && step.a < |db.actions| ==> db.actions[step.a].service != s
    ensures Kept(db, Perform(db, step), s)
  {
    hide Prior, PendingCount, HasWork, Holds, Claim;
    PointersKept(db, step);
    if step.DoClaim? {
      ClaimKeepsServices(db, step.after);
    }
  }

  lemma ClaimKeepsServices(db: Db, next: Time)
    ensures var after := Claim(db, db.clock, next).db;
            && |after.services| == |db.services|
            && forall s :: 0 <= s < |db.services| ==> after.services[s].desired == db.services[s].desired
  {
    hide SweepDeployments, SweepActions, SweepRuns, FirstAction, FirstDeployment;
  }

  lemma SoundLater(before: Db, after: Db, s: nat)
    requires Sound(before, s) && Inv(after) && Evolves(before, after) && Kept(before, after, s)
    ensures Sound(after, s)
  {
    hide Inv, Evolves;
    EvolvedService(before, after, s);
  }

  lemma {:induction false} UsersKeep(db: Db, others: seq<Event>, s: nat)
    requires Inv(db) && s < |db.services| && ByOthers(others) && Legal(db, others)
    ensures Kept(db, Run(db, others), s)
    decreases |others|
  {
    hide Inv, Perform, Evolves;
    if |others| > 0 {
      assert !others[0].step.DoReport? && !others[0].step.DoReportAction?;
      ApplyInv(db, others[0]);
      DesiredKept(Tick(db, others[0].now), others[0].step, s);
      UsersKeep(Apply(db, others[0]), others[1..], s);
    }
  }

  /** What users do, in one go. */
  lemma InterferenceMoves(db: Db, others: seq<Event>, s: nat)
    requires Inv(db) && s < |db.services|
    ensures var after := Interfere(db, others); Inv(after) && Evolves(db, after) && Kept(db, after, s)
  {
    hide Inv, Run, Legal, ByOthers, Evolves;
    EvolvesReflexively(db);
    if ByOthers(others) && Legal(db, others) {
      UsersKeep(db, others, s);
      RunKeepsInvariant(db, others);
      RunOnlyMovesForward(db, others);
    }
  }

  lemma ReportMoves(db: Db, d: nat, token: nat, reported: Reported, s: nat)
    requires Inv(db) && s < |db.services| && d < |db.deployments|
    ensures var after := Report(db, d, token, reported, db.clock).db;
            && Inv(after) && Evolves(db, after)
            && (db.deployments[d].service != s ==> Kept(db, after, s))
            && (Sound(db, s) ==> Sound(after, s))
  {
    hide Evolves, Inv, Report;
    ReportInv(db, d, token, reported);
    StepEvolves(db, DoReport(d, token, reported));
    EvolvedService(db, Report(db, d, token, reported, db.clock).db, s);
    ReportOnServices(db, d, token, reported, s);
  }

  /** A report changes no service but its own, and that one only to run a new release. */
  lemma ReportOnServices(db: Db, d: nat, token: nat, reported: Reported, s: nat)
    requires s < |db.services| && d < |db.deployments|
    ensures var after := Report(db, d, token, reported, db.clock).db;
            && s < |after.services|
            && (db.deployments[d].service != s ==> Kept(db, after, s))
            && (Released(db.services[s]) ==> Released(after.services[s]))
  {
    hide Holds, Retire;
  }

  /** What one call of a job moves in the store. */
  lemma CallMoves(job: Job, pc: Pc, world: World, slot: Slot, s: nat)
    requires Possible(job, pc) && !pc.Done? && Inv(world.db) && job.release < |world.db.deployments| && s < |world.db.services|
    ensures var after := RecordAt(job, pc, world, slot).world.db;
            && Inv(after) && Evolves(world.db, after)
            && (world.db.deployments[job.release].service != s ==> Kept(world.db, after, s))
            && (Sound(world.db, s) ==> Sound(after, s))
  {
    hide Inv, Interfere, Report, Evolves, Sound, Kept;
    var met := Interfere(world.db, slot.others);
    InterferenceMoves(world.db, slot.others, s);
    EvolvedRow(world.db, met, job.release);
    if Sound(world.db, s) {
      SoundLater(world.db, met, s);
    }
    var call := CallAt(job, pc);
    if call.Tell? {
      KeptCompose(world.db, met, Report(met, job.release, job.token, call.reported, met.clock).db, s);
      ReportMoves(met, job.release, job.token, call.reported, s);
      EvolvesTransitively(world.db, met, Report(met, job.release, job.token, call.reported, met.clock).db);
    }
  }

  lemma KeptCompose(a: Db, b: Db, c: Db, s: nat)
    ensures Kept(a, b, s) ==> s < |b.services|
    ensures Kept(a, b, s) && Kept(b, c, s) ==> Kept(a, c, s)
  {
  }

  lemma OwnLater(before: Db, after: Db, d: nat, s: nat)
    requires Evolves(before, after) && Own(before, d, s)
    ensures Own(after, d, s)
  {
    hide Evolves;
    EvolvedRow(before, after, d);
  }

  /** A job, whatever its calls do, keeps the tables sound. */
  lemma {:induction false} JobMoves(job: Job, pc: Pc, world: World, tape: Tape, tick: nat, s: nat, k: nat)
    requires Possible(job, pc) && Sound(world.db, s) && job.release < |world.db.deployments|
    requires k < |Execute(job, pc, world, tape, tick)|
    ensures var after := Execute(job, pc, world, tape, tick)[k].world.db;
            Sound(after, s) && Evolves(world.db, after)
    decreases Rank(pc)
  {
    hide RecordAt, NextAt, Execute, Inv, Evolves;
    if pc.Done? {
      NoCalls(job, pc, world, tape, tick);
    } else {
      var record, next := RecordAt(job, pc, world, tape(tick)), NextAt(job, pc, world, tape(tick));
      Unfold(job, pc, world, tape, tick);
      NextPossible(job, pc, world, tape(tick));
      CallMoves(job, pc, world, tape(tick), s);
      EvolvedRow(world.db, record.world.db, job.release);
      if k > 0 {
        JobMoves(job, next, record.world, tape, tick + 1, s, k - 1);
        EvolvesTransitively(world.db, record.world.db, Execute(job, pc, world, tape, tick)[k].world.db);
      }
    }
  }

  /******* The service is served *******/

  /** The container of the active release runs, and so does the one that the route leads to, which
      is a release of this service. */
  ghost predicate Serving(running: set<nat>, route: Option<nat>, db: Db, s: nat) {
    && Sound(db, s)
    && db.services[s].activeId.value in running
    && route.Some? && Own(db, route.value, s) && route.value in running
  }

  ghost predicate Serves(node: Node, s: nat) {
    Serving(node.running, RouteOf(node.routes, s), node.db, s)
  }

  ghost predicate ServedIn(world: World, s: nat) {
    Serving(world.running, world.route, world.db, s)
  }

  /** A job of another service does not touch the two containers. */
  lemma OtherCall(job: Job, pc: Pc, world: World, slot: Slot, t: nat, s: nat, route: Option<nat>)
    requires Possible(job, pc) && !pc.Done? && Own(world.db, job.release, t) && t != s
    requires job.previous.Some? ==> Own(world.db, job.previous.value, t)
    requires Serving(world.running, route, world.db, s)
    ensures var after := RecordAt(job, pc, world, slot).world;
            Serving(after.running, route, after.db, s) && Evolves(world.db, after.db)
  {
    hide Inv, Report, Interfere, Evolves;
    CallMoves(job, pc, world, slot, s);
    var after := RecordAt(job, pc, world, slot).world;
    OwnLater(world.db, after.db, route.value, s);
    ActiveIsOwn(world.db, s);
  }

  lemma ActiveIsOwn(db: Db, s: nat)
    requires Sound(db, s)
    ensures Own(db, db.services[s].activeId.value, s)
  {
    hide Inv;
    PointerIsActive(db, s);
  }

  lemma {:induction false} OtherJob(
    job: Job, pc: Pc, world: World, tape: Tape, tick: nat, t: nat, s: nat, route: Option<nat>, k: nat)
    requires Possible(job, pc) && Own(world.db, job.release, t) && t != s
    requires job.previous.Some? ==> Own(world.db, job.previous.value, t)
    requires Serving(world.running, route, world.db, s)
    requires k < |Execute(job, pc, world, tape, tick)|
    ensures var after := Execute(job, pc, world, tape, tick)[k].world;
            Serving(after.running, route, after.db, s) && Evolves(world.db, after.db)
    decreases Rank(pc)
  {
    hide RecordAt, NextAt, Execute, Serving, Evolves, Own;
    if pc.Done? {
      NoCalls(job, pc, world, tape, tick);
    } else {
      var record, next := RecordAt(job, pc, world, tape(tick)), NextAt(job, pc, world, tape(tick));
      Unfold(job, pc, world, tape, tick);
      NextPossible(job, pc, world, tape(tick));
      OtherCall(job, pc, world, tape(tick), t, s, route);
      OwnLater(world.db, record.world.db, job.release, t);
      if job.previous.Some? {
        OwnLater(world.db, record.world.db, job.previous.value, t);
      }
      if k > 0 {
        OtherJob(job, next, record.world, tape, tick + 1, t, s, route, k - 1);
        EvolvesTransitively(world.db, record.world.db, Execute(job, pc, world, tape, tick)[k].world.db);
      }
    }
  }

  /******* A job of the service itself *******/

  /** What a job may find at `pc` and keeps: everything the promises of the protocol ask for. */
  ghost predicate ReplacingAt(job: Job, pc: Pc, world: World, s: nat) {
    && Replaces(job) && Possible(job, pc)
    && ServedIn(world, s) && PointerAt(job, pc, world.db, s) && AgreesAt(job, pc, world, s) && ServedAt(job, pc, world)
    && Own(world.db, job.release, s) && Own(world.db, job.previous.value, s)
    && (ActiveOf(world.db, s) == job.previous || ActiveOf(world.db, s) == Some(job.release))
  }

  lemma RouteIsOwn(job: Job, pc: Pc, world: World, slot: Slot)
    requires Possible(job, pc) && !pc.Done?
    ensures var after := RecordAt(job, pc, world, slot).world.route;
            after == world.route || after == None || after == Some(job.release) || after == job.previous
  {
    hide Report, Interfere;
  }

  lemma ReplacingCall(job: Job, pc: Pc, world: World, slot: Slot, s: nat)
    requires !pc.Done? && ReplacingAt(job, pc, world, s)
    ensures ReplacingAt(job, NextAt(job, pc, world, slot), RecordAt(job, pc, world, slot).world, s)
  {
    hide Inv, RecordAt, NextAt, PointerAt, AgreesAt, ServedAt, Evolves;
    var after := RecordAt(job, pc, world, slot).world;
    NextPossible(job, pc, world, slot);
    CallMoves(job, pc, world, slot, s);
    PointerStep(job, pc, world, slot, s);
    AgreesStep(job, pc, world, slot, s);
    ServedStep(job, pc, world, slot);
    RoutedStep(job, pc, world, slot);
    RouteIsOwn(job, pc, world, slot);
    OwnLater(world.db, after.db, job.release, s);
    OwnLater(world.db, after.db, job.previous.value, s);
    OwnLater(world.db, after.db, world.route.value, s);
    AgreedMeans(job, NextAt(job, pc, world, slot), after, s);
  }

  lemma AgreedMeans(job: Job, pc: Pc, world: World, s: nat)
    requires AgreesAt(job, pc, world, s) && ServedAt(job, pc, world) && s < |world.db.services|
    ensures world.db.services[s].activeId.Some? ==> world.db.services[s].activeId.value in world.running
    ensures world.route.Some? ==> world.route.value in world.running
  {
  }

  lemma {:induction false} ReplacingJob(job: Job, pc: Pc, world: World, tape: Tape, tick: nat, s: nat, k: nat)
    requires ReplacingAt(job, pc, world, s) && k < |Execute(job, pc, world, tape, tick)|
    ensures var after := Execute(job, pc, world, tape, tick)[k].world;
            && ServedIn(after, s) && Known(after.db, job.release, s)
            && Own(after.db, job.previous.value, s)
            && (ActiveOf(after.db, s) == job.previous || ActiveOf(after.db, s) == Some(job.release))
    decreases Rank(pc)
  {
    hide RecordAt, NextAt, Execute, ReplacingAt, ServedIn, Known, Own, ActiveOf;
    ReplacingMeans(job, pc, world, s);
    if pc.Done? {
      NoCalls(job, pc, world, tape, tick);
    } else {
      var record, next := RecordAt(job, pc, world, tape(tick)), NextAt(job, pc, world, tape(tick));
      Unfold(job, pc, world, tape, tick);
      NextPossible(job, pc, world, tape(tick));
      ReplacingCall(job, pc, world, tape(tick), s);
      ReplacingMeans(job, next, record.world, s);
      if k > 0 {
        ReplacingJob(job, next, record.world, tape, tick + 1, s, k - 1);
      }
    }
  }

  lemma ReplacingMeans(job: Job, pc: Pc, world: World, s: nat)
    requires ReplacingAt(job, pc, world, s)
    ensures Possible(job, pc) && Replaces(job) && ServedIn(world, s) && Known(world.db, job.release, s)
    ensures Own(world.db, job.previous.value, s)
    ensures ActiveOf(world.db, s) == job.previous || ActiveOf(world.db, s) == Some(job.release)
  {
    hide Inv, AgreesAt, ServedAt;
  }

  /** A job may start where the service is served, and a recovery, as long as the activation has
      not taken effect. */
  lemma ReplacingStarts(job: Job, pc: Pc, world: World, s: nat)
    requires Replaces(job) && (pc == START || pc == FailRoute)
    requires ServedIn(world, s) && Known(world.db, job.release, s) && Own(world.db, job.previous.value, s)
    requires ActiveOf(world.db, s) == job.previous
    ensures ReplacingAt(job, pc, world, s)
  {
    hide Inv;
  }

  /** The whole attempt, up to any call: the recovery of a job that is over does no harm unless the
      activation had taken effect when it began. */
  lemma OwnAttempt(job: Job, world: World, tape: Tape, over: bool, cut: nat, s: nat)
    requires ReplacingAt(job, START, world, s) && ActiveOf(world.db, s) == job.previous
    requires var first := Execute(job, START, world, tape, 0);
             over && cut > |first| ==> ActiveOf(After(world, first).db, s) != Some(job.release)
    ensures ServedIn(After(world, Upto(Attempt(job, world, tape, 0, over), cut)), s)
  {
    hide Execute, ReplacingAt, ServedIn, ActiveOf, Known, Own;
    ReplacingMeans(job, START, world, s);
    var first := Execute(job, START, world, tape, 0);
    var after := After(world, first);
    var records := Attempt(job, world, tape, 0, over);
    var n := |Upto(records, cut)|;
    if n > 0 {
      assert After(world, Upto(records, cut)) == records[n - 1].world;
      if n <= |first| {
        ReplacingJob(job, START, world, tape, 0, s, n - 1);
      } else {
        if |first| > 0 {
          ReplacingJob(job, START, world, tape, 0, s, |first| - 1);
        }
        ReplacingStarts(job, FailRoute, after, s);
        ReplacingJob(job, FailRoute, after, tape, |first|, s, n - 1 - |first|);
      }
    }
  }

  lemma OtherAttempt(job: Job, world: World, tape: Tape, over: bool, cut: nat, t: nat, s: nat, route: Option<nat>)
    requires Own(world.db, job.release, t) && t != s
    requires job.previous.Some? ==> Own(world.db, job.previous.value, t)
    requires Serving(world.running, route, world.db, s)
    ensures var after := After(world, Upto(Attempt(job, world, tape, 0, over), cut)); Serving(after.running, route, after.db, s)
  {
    hide Execute, Serving, Own, Evolves;
    var first := Execute(job, START, world, tape, 0);
    var after := After(world, first);
    var records := Attempt(job, world, tape, 0, over);
    var n := |Upto(records, cut)|;
    if n > 0 {
      assert After(world, Upto(records, cut)) == records[n - 1].world;
      if n <= |first| {
        OtherJob(job, START, world, tape, 0, t, s, route, n - 1);
      } else {
        if |first| > 0 {
          OtherJob(job, START, world, tape, 0, t, s, route, |first| - 1);
          OwnLater(world.db, after.db, job.release, t);
          if job.previous.Some? {
            OwnLater(world.db, after.db, job.previous.value, t);
          }
        }
        OtherJob(job, FailFrom(job), after, tape, |first|, t, s, route, n - 1 - |first|);
      }
    }
  }

  lemma AttemptMoves(job: Job, world: World, tape: Tape, over: bool, cut: nat, s: nat)
    requires Sound(world.db, s) && job.release < |world.db.deployments|
    ensures Sound(After(world, Upto(Attempt(job, world, tape, 0, over), cut)).db, s)
  {
    hide Execute, Inv, Evolves;
    var first := Execute(job, START, world, tape, 0);
    var after := After(world, first);
    var records := Attempt(job, world, tape, 0, over);
    var n := |Upto(records, cut)|;
    if n > 0 {
      assert After(world, Upto(records, cut)) == records[n - 1].world;
      if n <= |first| {
        JobMoves(job, START, world, tape, 0, s, n - 1);
      } else {
        if |first| > 0 {
          JobMoves(job, START, world, tape, 0, s, |first| - 1);
          EvolvedRow(world.db, after.db, job.release);
        }
        JobMoves(job, FailFrom(job), after, tape, |first|, s, n - 1 - |first|);
      }
    }
  }

  /******* Claimed work *******/

  /** The claim itself. */
  lemma ClaimMoves(db: Db, next: Time, s: nat)
    requires Inv(db) && next > db.clock && s < |db.services|
    ensures var after := Claim(db, db.clock, next).db; Inv(after) && Evolves(db, after) && Kept(db, after, s)
  {
    hide Inv, Evolves;
    ClaimInv(db, next);
    StepEvolves(db, DoClaim(next));
    DesiredKept(db, DoClaim(next), s);
  }

  lemma HandedMeans(db: Db, next: Time)
    requires Inv(db) && next > db.clock && Handed(db, next).Some?
    ensures var claimed, work, t := Claim(db, db.clock, next).db, Handed(db, next).value, OwnerOf(db, next);
            && work.DeploymentWork? && Known(claimed, work.deployment, t) && t < |db.services|
            && ActiveOf(claimed, t) != Some(work.deployment) && work.previous != Some(work.deployment)
            && work.previous == (if Released(claimed.services[t]) then claimed.services[t].activeId else None)
  {
    hide Inv, Claim;
    var claimed := Claim(db, db.clock, next).db;
    var work := Handed(db, next).value;
    ClaimedDeployment(db, next, work.token, work.deployment, work.previous);
    ClaimStartsThere(db, next, claimed, work.token, work.deployment, work.previous);
  }

  /** Work on the service is done as for a public one without a volume, and a recovery does not begin
      when the activation is in effect. */
  ghost predicate CarefulWork(node: Node, s: nat, turn: Turn)
    requires turn.Work?
  {
    Handed(node.db, turn.next).Some? && OwnerOf(node.db, turn.next) == s ==>
      var claimed := node.(db := Claim(node.db, node.db.clock, turn.next).db);
      var job := HandedJob(node.db, turn.next, turn.enabled, turn.predeploy);
      var first := Execute(job, START, WorldOf(claimed, s), turn.tape, 0);
      && turn.enabled(s) && !job.volume
      && (turn.over && turn.cut > |first| ==> ActiveOf(After(WorldOf(claimed, s), first).db, s) != Some(job.release))
  }

  lemma ServingLater(running: set<nat>, route: Option<nat>, before: Db, after: Db, s: nat)
    requires Serving(running, route, before, s) && Inv(after) && Evolves(before, after) && Kept(before, after, s)
    ensures Serving(running, route, after, s)
  {
    hide Inv, Evolves;
    SoundLater(before, after, s);
    OwnLater(before, after, route.value, s);
  }

  lemma WorkKeeps(node: Node, turn: Turn, s: nat)
    requires turn.Work? && turn.next > node.db.clock && Serves(node, s) && CarefulWork(node, s, turn)
    ensures Serves(Worked(node, turn), s)
  {
    hide Inv, Evolves, Claim, Attempt, Handed, Execute, Sound;
    var claimed := node.(db := Claim(node.db, node.db.clock, turn.next).db);
    SoundMeans(node.db, s);
    ClaimMoves(node.db, turn.next, s);
    ServingLater(node.running, RouteOf(node.routes, s), node.db, claimed.db, s);
    if Handed(node.db, turn.next).Some? {
      HandedMeans(node.db, turn.next);
      var t, job := OwnerOf(node.db, turn.next), HandedJob(node.db, turn.next, turn.enabled, turn.predeploy);
      if t == s {
        SoundMeans(claimed.db, s);
        ActiveIsOwn(claimed.db, s);
        ReplacingStarts(job, START, WorldOf(claimed, s), s);
        OwnAttempt(job, WorldOf(claimed, s), turn.tape, turn.over, turn.cut, s);
      } else {
        if job.previous.Some? {
          PointerIsActive(claimed.db, t);
        }
        OtherAttempt(job, WorldOf(claimed, t), turn.tape, turn.over, turn.cut, t, s, RouteOf(node.routes, s));
      }
    }
  }

  lemma SoundMeans(db: Db, s: nat)
    requires Sound(db, s)
    ensures Inv(db) && s < |db.services| && Released(db.services[s]) && db.services[s].kind.Http? && db.services[s].workload.Web?
  {
    hide Inv;
  }

  /******* Passes, other services' actions, and the clean-up *******/

  lemma SettleKeeps(state: Reconciliation.State, item: Reconciliation.Item, trouble: Reconciliation.Trouble, db: Db, s: nat)
    requires Serving(state.running, RouteOf(state.routes, s), db, s)
    requires item.service == s ==> item.active == db.services[s].activeId && !item.stopped && !item.cron && item.public
    requires item.service != s && item.active.Some? ==> Own(db, item.active.value, item.service)
    ensures var after := Reconciliation.Settle(state, item, trouble);
            Serving(after.running, RouteOf(after.routes, s), db, s)
  {
    ActiveIsOwn(db, s);
    hide Sound;
    SoundMeans(db, s);
    hide Inv;
  }

  lemma {:induction false} PassKeeps(
    state: Reconciliation.State, db: Db, enabled: nat -> bool, troubles: seq<Reconciliation.Trouble>, n: nat, s: nat)
    requires n <= |db.services| == |troubles| && enabled(s)
    requires Serving(state.running, RouteOf(state.routes, s), db, s)
    ensures var after := Reconciliation.Pass(state, Reconciliation.WorkOf(db, enabled), troubles, n);
            Serving(after.running, RouteOf(after.routes, s), db, s)
  {
    hide Inv, Reconciliation.Settle;
    if n > 0 {
      PassKeeps(state, db, enabled, troubles, n - 1, s);
      if db.services[n - 1].activeId.Some? {
        PointerIsActive(db, n - 1);
      }
      SettleKeeps(Reconciliation.Pass(state, Reconciliation.WorkOf(db, enabled), troubles, n - 1),
                  Reconciliation.WorkOf(db, enabled)[n - 1], troubles[n - 1], db, s);
    }
  }

  lemma StepMoves(db: Db, step: Step, s: nat)
    requires Inv(db) && s < |db.services| && (step.DoReportRun? || step.DoReportAction?)
    requires step.DoReportAction? && step.a < |db.actions| ==> db.actions[step.a].service != s
    ensures var after := Perform(db, step); Inv(after) && Evolves(db, after) && Kept(db, after, s)
  {
    hide Inv, Evolves, Perform;
    DesiredKept(db, step, s);
    StepEvolves(db, step);
    SameTime(db);
    ApplyInv(db, Event(db.clock, step));
  }

  lemma SameTime(db: Db)
    ensures Tick(db, db.clock) == db
  {
  }

  lemma AsideKeeps(node: Node, turn: Turn, s: nat)
    requires turn.Aside? && turn.t != s && Regular(node, turn) && Serves(node, s)
    ensures Serves(Turned(node, turn), s)
  {
    hide Inv, Evolves, Perform, Sound;
    SoundMeans(node.db, s);
    ActiveIsOwn(node.db, s);
    StepMoves(node.db, turn.report, s);
    ServingLater(node.running, RouteOf(node.routes, s), node.db, Perform(node.db, turn.report), s);
    KeptMeans(node.db, Perform(node.db, turn.report), s);
  }

  lemma KeptMeans(before: Db, after: Db, s: nat)
    requires Kept(before, after, s)
    ensures s < |before.services| && s < |after.services| && after.services[s].activeId == before.services[s].activeId
  {
  }

  /** The clean-up keeps the service served exactly if it does not remove the routed container. */
  lemma CleanUpExactly(node: Node, gone: set<nat>, s: nat)
    requires Serves(node, s)
    ensures Serves(Turned(node, CleanUp(gone)), s) <==> !(node.routes[s] in gone && Finished(node.db, node.routes[s]))
  {
    SoundMeans(node.db, s);
    PointerIsActive(node.db, s);
    hide Inv;
  }

  /******* Whole runs of the loop *******/

  /** Service `s` stays public and without a volume, nobody acts on it, no recovery of its begins
      when the activation is in effect, and no clean-up removes the container it is routed to. */
  ghost predicate Careful(node: Node, turn: Turn, s: nat) {
    match turn
    case Users(_) => true
    case Pass(enabled, _, _) => enabled(s)
    case Work(_, _, _, _, _, _) => CarefulWork(node, s, turn)
    case Aside(t, _, _, _) => t != s
    case CleanUp(gone) => s in node.routes && node.routes[s] in gone ==> !Finished(node.db, node.routes[s])
  }

  ghost predicate AllCareful(node: Node, turns: seq<Turn>, s: nat)
    requires AllRegular(node, turns)
    decreases |turns|
  {
    |turns| > 0 ==> Careful(node, turns[0], s) && AllCareful(Turned(node, turns[0]), turns[1..], s)
  }

  lemma UsersTurnKeeps(node: Node, events: seq<Event>, s: nat)
    requires Serves(node, s)
    ensures Serves(Turned(node, Users(events)), s)
  {
    hide Inv, Evolves, Sound, Interfere;
    SoundMeans(node.db, s);
    InterferenceMoves(node.db, events, s);
    ServingLater(node.running, RouteOf(node.routes, s), node.db, Interfere(node.db, events), s);
  }

  lemma PassTurnKeeps(node: Node, turn: Turn, s: nat)
    requires turn.Pass? && Regular(node, turn) && turn.enabled(s) && Serves(node, s)
    ensures Serves(Passed(node, turn), s)
  {
    hide Reconciliation.Pass, Reconciliation.WorkOf, Serving;
    PassKeeps(Reconciliation.State(node.running, node.routes), node.db, turn.enabled, turn.troubles, turn.n, s);
  }

  lemma TurnKeeps(node: Node, turn: Turn, s: nat)
    requires Regular(node, turn) && Careful(node, turn, s) && Serves(node, s)
    ensures Serves(Turned(node, turn), s)
  {
    hide Serving, CarefulWork, Worked, Passed, Finished;
    match turn {
      case Users(events) => UsersTurnKeeps(node, events, s);
      case Pass(_, _, _) => PassTurnKeeps(node, turn, s);
      case Work(_, _, _, _, _, _) => WorkKeeps(node, turn, s);
      case Aside(_, _, _, _) => AsideKeeps(node, turn, s);
      case CleanUp(gone) =>
        ServingRoute(node, s);
        CleanUpExactly(node, gone, s);
    }
  }

  lemma ServingRoute(node: Node, s: nat)
    requires Serves(node, s)
    ensures s in node.routes
  {
    hide Sound;
  }

  /** After every call of every such run, the container of the active release runs, and so does the
      one that the route leads to. */
  lemma {:induction false} LoopKeepsServing(node: Node, turns: seq<Turn>, s: nat)
    requires AllRegular(node, turns) && AllCareful(node, turns, s) && Serves(node, s)
    ensures Serves(AfterTurns(node, turns), s)
    decreases |turns|
  {
    hide Serves, Careful, Regular, Turned;
    if |turns| > 0 {
      TurnKeeps(node, turns[0], s);
      LoopKeepsServing(Turned(node, turns[0]), turns[1..], s);
    }
  }

  /******* The exceptions, and what repairs them *******/

  /** A recovery may leave the service without its active or its routed container exactly when the
      activation was in effect as it began. */
  lemma RecoveryHarmsExactly(job: Job, world: World, s: nat)
    requires Replaces(job) && ServedIn(world, s) && Known(world.db, job.release, s) && Own(world.db, job.previous.value, s)
    requires ActiveOf(world.db, s) == job.previous || ActiveOf(world.db, s) == Some(job.release)
    ensures (exists tape: Tape, cut: nat :: Harmed(job, world, tape, cut, s)) <==> ActiveOf(world.db, s) == Some(job.release)
  {
    hide Execute, ServedIn, Known, Own;
    if ActiveOf(world.db, s) == Some(job.release) {
      var tape: Tape := (i: nat) => Slot([], Fine);
      QuietRecoveryRemoves(job, FailFrom(job), world, tape, 0);
      var records := Execute(job, FailFrom(job), world, tape, 0);
      var k :| 0 <= k < |records| && records[k].call == RemoveContainer(job.release)
               && records[k].world.db == world.db && job.release !in records[k].world.running;
      ActiveGone(records[k].world, s);
      assert After(world, Upto(records, k + 1)) == records[k].world;
      assert Harmed(job, world, tape, k + 1, s);
    } else {
      forall tape: Tape, cut: nat ensures !Harmed(job, world, tape, cut, s) {
        ReplacingStarts(job, FailRoute, world, s);
        var records := Execute(job, FailRoute, world, tape, 0);
        var n := |Upto(records, cut)|;
        if n > 0 {
          ReplacingJob(job, FailRoute, world, tape, 0, s, n - 1);
        }
      }
    }
  }

  ghost predicate Harmed(job: Job, world: World, tape: Tape, cut: nat, s: nat) {
    !ServedIn(After(world, Upto(Execute(job, FailFrom(job), world, tape, 0), cut)), s)
  }

  lemma ActiveGone(world: World, s: nat)
    requires ActiveOf(world.db, s).Some? && ActiveOf(world.db, s).value !in world.running
    ensures !ServedIn(world, s)
  {
    hide Inv;
  }

  lemma TurnKeepsSound(node: Node, turn: Turn, s: nat)
    requires Regular(node, turn) && LeavesAlone(turn, s) && Sound(node.db, s)
    ensures Sound(Turned(node, turn).db, s)
  {
    hide Inv, Evolves, Interfere, Perform, Claim, Handed, Attempt, Kept;
    SoundMeans(node.db, s);
    match turn {
      case Users(events) =>
        InterferenceMoves(node.db, events, s);
        SoundLater(node.db, Interfere(node.db, events), s);
      case Pass(_, _, _) =>
      case Work(_, _, _, _, _, _) => WorkKeepsSound(node, turn, s);
      case Aside(_, report, _, _) =>
        StepMoves(node.db, report, s);
        SoundLater(node.db, Perform(node.db, report), s);
      case CleanUp(_) =>
    }
  }

  lemma WorkKeepsSound(node: Node, turn: Turn, s: nat)
    requires turn.Work? && turn.next > node.db.clock && Sound(node.db, s)
    ensures Sound(Worked(node, turn).db, s)
  {
    hide Inv, Evolves, Claim, Handed, Attempt, Kept, Sound;
    var claimed := node.(db := Claim(node.db, node.db.clock, turn.next).db);
    SoundMeans(node.db, s);
    ClaimMoves(node.db, turn.next, s);
    SoundLater(node.db, claimed.db, s);
    if Handed(node.db, turn.next).Some? {
      HandedMeans(node.db, turn.next);
      var t, job := OwnerOf(node.db, turn.next), HandedJob(node.db, turn.next, turn.enabled, turn.predeploy);
      AttemptMoves(job, WorldOf(claimed, t), turn.tape, turn.over, turn.cut, s);
    }
  }

  /** Where the route leads to the active release. */
  ghost predicate AtHome(node: Node, s: nat) {
    Serves(node, s) && node.routes[s] == node.db.services[s].activeId.value
  }

  /** Whatever happened in a run, careful or not, in which nobody acted on the service: the next
      pass in which the calls for it succeed has it served again, by its active release. */
  lemma {:induction false} PassRestores(node: Node, turns: seq<Turn>, s: nat, pass: Turn)
    requires AllRegular(node, turns) && Sound(node.db, s) && (forall i :: 0 <= i < |turns| ==> LeavesAlone(turns[i], s))
    requires pass.Pass? && Regular(AfterTurns(node, turns), pass) && pass.n == |pass.troubles| && s < pass.n
    requires pass.enabled(s)
    requires Reconciliation.Settled(Reconciliation.WorkOf(AfterTurns(node, turns).db, pass.enabled)[s], pass.troubles[s])
    ensures AtHome(Turned(AfterTurns(node, turns), pass), s)
    decreases |turns|
  {
    hide Sound, Regular, Turned, AtHome, Reconciliation.WorkOf, Reconciliation.Settled;
    if |turns| > 0 {
      TurnKeepsSound(node, turns[0], s);
      PassRestores(Turned(node, turns[0]), turns[1..], s, pass);
    } else {
      RestoredAt(node, s, pass);
    }
  }

  lemma RestoredAt(node: Node, s: nat, pass: Turn)
    requires Sound(node.db, s) && pass.Pass? && Regular(node, pass) && pass.n == |pass.troubles| && s < pass.n
    requires pass.enabled(s) && Reconciliation.Settled(Reconciliation.WorkOf(node.db, pass.enabled)[s], pass.troubles[s])
    ensures AtHome(Turned(node, pass), s)
  {
    hide Inv, Reconciliation.Settled, Reconciliation.Pass;
    Reconciliation.PassRepairs(node.db, pass.enabled, Reconciliation.State(node.running, node.routes), pass.troubles, s);
    ActiveIsOwn(node.db, s);
  }

  /** An iteration of the loop that finds nothing to do: a pass, a claim that comes back empty, and
      the clean-up, whatever users do in between.  If the pass succeeds for the service, it is
      served throughout, whatever is removed. */
  lemma IdleIteration(node: Node, s: nat, pass: Turn, between: seq<Event>, claim: Turn, later: seq<Event>, gone: set<nat>)
    requires AllRegular(node, [pass, Users(between), claim, Users(later), CleanUp(gone)])
    requires Sound(node.db, s) && pass.Pass? && pass.n == |pass.troubles| && s < pass.n && pass.enabled(s)
    requires Reconciliation.Settled(Reconciliation.WorkOf(node.db, pass.enabled)[s], pass.troubles[s])
    requires claim.Work? && Handed(Turned(Turned(node, pass), Users(between)).db, claim.next).None?
    ensures AtHome(AfterTurns(node, [pass, Users(between), claim, Users(later), CleanUp(gone)]), s)
  {
    hide AtHome, Sound, Reconciliation.WorkOf, Reconciliation.Settled, Turned, Regular, Handed;
    hide AfterTurns, AllRegular;
    var turns := [pass, Users(between), claim, Users(later), CleanUp(gone)];
    OneTurn(node, turns);
    RestoredAt(node, s, pass);
    var n1 := Turned(node, pass);
    OneTurn(n1, turns[1..]);
    HomeKept(n1, Users(between), s);
    var n2 := Turned(n1, Users(between));
    OneTurn(n2, turns[1..][1..]);
    HomeKept(n2, claim, s);
    var n3 := Turned(n2, claim);
    OneTurn(n3, turns[1..][1..][1..]);
    HomeKept(n3, Users(later), s);
    var n4 := Turned(n3, Users(later));
    OneTurn(n4, turns[1..][1..][1..][1..]);
    HomeKept(n4, CleanUp(gone), s);
    NoTurns(Turned(n4, CleanUp(gone)), turns[1..][1..][1..][1..][1..]);
  }

  lemma NoTurns(node: Node, turns: seq<Turn>)
    requires |turns| == 0
    ensures AllRegular(node, turns) && AfterTurns(node, turns) == node
  {
  }

  lemma OneTurn(node: Node, turns: seq<Turn>)
    requires |turns| > 0 && AllRegular(node, turns)
    ensures Regular(node, turns[0]) && AllRegular(Turned(node, turns[0]), turns[1..])
    ensures AfterTurns(node, turns) == AfterTurns(Turned(node, turns[0]), turns[1..])
  {
    hide Regular, Turned;
  }

  lemma HomeKept(node: Node, turn: Turn, s: nat)
    requires AtHome(node, s) && Regular(node, turn)
    requires turn.Users? || turn.CleanUp? || (turn.Work? && Handed(node.db, turn.next).None?)
    ensures AtHome(Turned(node, turn), s)
  {
    hide Inv, Evolves, Claim, Handed, Interfere;
    SoundMeans(node.db, s);
    match turn {
      case Users(events) =>
        UsersTurnKeeps(node, events, s);
        InterferenceMoves(node.db, events, s);
      case Work(next, _, _, _, _, _) =>
        WorkKeeps(node, turn, s);
        ClaimMoves(node.db, next, s);
      case CleanUp(gone) =>
        PointerIsActive(node.db, s);
        CleanUpExactly(node, gone, s);
    }
  }

  /******* A shared volume *******/

  lemma {:induction false} PassSparesOthers(
    state: Reconciliation.State, db: Db, enabled: nat -> bool, troubles: seq<Reconciliation.Trouble>, n: nat, d: nat)
    requires n <= |db.services| == |troubles|
    requires forall s :: 0 <= s < |db.services| ==> db.services[s].activeId != Some(d)
    ensures d in Reconciliation.Pass(state, Reconciliation.WorkOf(db, enabled), troubles, n).running <==> d in state.running
  {
    if n > 0 {
      PassSparesOthers(state, db, enabled, troubles, n - 1, d);
    }
  }

  lemma NobodysActive(db: Db, d: nat, s: nat)
    requires Inv(db) && Own(db, d, s) && s < |db.services| && db.services[s].activeId != Some(d)
    ensures forall t :: 0 <= t < |db.services| ==> db.services[t].activeId != Some(d)
  {
    hide Inv;
    forall t | 0 <= t < |db.services| ensures db.services[t].activeId != Some(d) {
      if db.services[t].activeId.Some? {
        PointerIsActive(db, t);
      }
    }
  }

  /** A pass that succeeds for a released service starts its active container, with or without a
      volume, and leaves its other ones as they are: two of them run after it exactly if the other
      one ran before it. */
  lemma PassAddsWriterExactly(node: Node, pass: Turn, s: nat, d: nat)
    requires Inv(node.db) && Own(node.db, d, s) && s < |node.db.services|
    requires Released(node.db.services[s]) && !node.db.services[s].workload.Cron? && node.db.services[s].activeId != Some(d)
    requires pass.Pass? && Regular(node, pass) && pass.n == |pass.troubles|
    requires Reconciliation.Settled(Reconciliation.WorkOf(node.db, pass.enabled)[s], pass.troubles[s])
    ensures var after := Turned(node, pass).running;
            node.db.services[s].activeId.value in after && (d in after <==> d in node.running)
  {
    hide Inv, Reconciliation.Settled, Reconciliation.Pass, Reconciliation.WorkOf;
    var state := Reconciliation.State(node.running, node.routes);
    Reconciliation.PassRepairs(node.db, pass.enabled, state, pass.troubles, s);
    NobodysActive(node.db, d, s);
    PassSparesOthers(state, node.db, pass.enabled, pass.troubles, pass.n, d);
  }
}
