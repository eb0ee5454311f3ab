/** The store itself: its tables are fields that the transactions update in place. */
module Stores {
  import opened Common
  import opened Leases
  import opened StoreModel
  import opened StoreInvariant
  import opened StoreRuns

  lemma ApplyDatabase(db: Db, now: Time, scope: Scope, kind: Kind)
    ensures Apply(db, Event(now, DoCreateDatabase(scope, kind))) == CreateDatabase(Tick(db, now), scope, kind, now).db
  {
  }

  lemma ApplyEnqueue(
    db: Db, now: Time, s: nat, spec: Spec, command: Option<string>, key: string, valid: bool, resolved: bool)
    ensures Apply(db, Event(now, DoEnqueue(s, spec, command, key, valid, resolved)))
         == Enqueue(Tick(db, now), s, spec, command, key, valid, resolved, now).db
  {
  }

  lemma RejectedEnqueue(
    db: Db, now: Time, s: nat, spec: Spec, command: Option<string>, key: string, valid: bool, resolved: bool)
    requires Enqueue(Tick(db, now), s, spec, command, key, valid, resolved, now).reply.Err?
    ensures Enqueue(Tick(db, now), s, spec, command, key, valid, resolved, now).db == Tick(db, now)
  {
  }

  lemma ApplySettings(db: Db, now: Time, s: nat, mount: string, valid: bool)
    ensures Apply(db, Event(now, DoSaveSettings(s, mount, valid))) == SaveSettings(Tick(db, now), s, mount, valid).db
  {
  }

  class Store {
    var services: seq<Service>
    var deployments: seq<Deployment>
    var actions: seq<Action>
    var runs: seq<CronRun>
    var volumes: map<VolumeId, Volume>
    var attachments: map<VolumeId, Attachment>
    var volumesCreated: nat
    var lastToken: nat
    var clock: Time

    ghost function Model(): Db
      reads this
    {
      Db(services, deployments, actions, runs, volumes, attachments, volumesCreated, lastToken, clock)
    }

    ghost predicate Valid()
      reads this
    {
      Inv(Model())
    }

    constructor (start: Time)
      ensures Valid() && Model() == Empty(start)
    {
      services, deployments, actions, runs := [], [], [], [];
      volumes, attachments, volumesCreated, lastToken := map[], map[], 0, 0;
      clock := start;
      new;
      hide Inv;
      EmptyInv(start);
    }

    method NewToken() returns (token: nat)
      modifies this`lastToken
      ensures token == lastToken == old(lastToken) + 1
    {
      lastToken := lastToken + 1;
      token := lastToken;
    }

    method CreateCompute(scope: Scope, workload: Workload, now: Time) returns (s: nat)
      requires Valid() && clock <= now
      modifies this
      ensures Valid()
      ensures Model() == Apply(old(Model()), Event(now, DoCreateCompute(scope, workload)))
      ensures s == old(|services|)
    {
      hide Inv;
      ApplyInv(Model(), Event(now, DoCreateCompute(scope, workload)));
      clock := now;
      s := |services|;
      services := services + [NewService(scope, Http, workload, Settings(None, "", 80))];
    }

    method CreateVolume(scope: Scope, now: Time) returns (v: VolumeId)
      requires Valid() && clock <= now
      modifies this
      ensures Valid()
      ensures Model() == Apply(old(Model()), Event(now, DoCreateVolume(scope)))
      ensures v == Created(old(volumesCreated))
    {
      hide Inv;
      ApplyInv(Model(), Event(now, DoCreateVolume(scope)));
      clock := now;
      v := Created(volumesCreated);
      volumes := volumes[v := Volume(scope, false)];
      volumesCreated := volumesCreated + 1;
    }

    /** One transaction makes the service, its volume, the attachment and the first release. */
    method CreateDatabase(scope: Scope, kind: Kind, now: Time) returns (reply: Result<nat, Error>)
      requires Valid() && clock <= now
      modifies this
      ensures Valid()
      ensures Model() == Apply(old(Model()), Event(now, DoCreateDatabase(scope, kind)))
      ensures reply == StoreModel.CreateDatabase(Tick(old(Model()), now), scope, kind, now).reply
    {
      hide Inv, Apply, VolumesOk, StoreModel.Enqueue, TemplateMount, TemplatePort, TemplateSpec;
      ApplyInv(Model(), Event(now, DoCreateDatabase(scope, kind)));
      ghost var ticked := Tick(Model(), now);
      ApplyDatabase(Model(), now, scope, kind);
      TickInv(Model(), now);
      clock := now;
      if !IsData(kind) {
        return Err(Invalid);
      }
      AddDatabaseInv(Model(), scope, kind);
      var services0, volumes0, attachments0 := services, volumes, attachments;
      var s, v := |services|, Derived(|services|);
      services := services + [NewService(scope, kind, Web, Settings(Some(v), TemplateMount(kind), TemplatePort(kind)))];
      volumes := volumes[v := Volume(scope, true)];
      attachments := attachments[v := Attachment(s, TemplateMount(kind))];
      ghost var made := Model();
      ApplyEnqueue(made, now, s, TemplateSpec(kind), None, "database-bootstrap", true, true);
      var queued := Enqueue(s, TemplateSpec(kind), None, "database-bootstrap", true, true, now);
      if queued.Err? {
        RejectedEnqueue(made, now, s, TemplateSpec(kind), None, "database-bootstrap", true, true);
        services, volumes, attachments := services0, volumes0, attachments0;
        return Err(queued.error);
      }
      return Ok(s);
    }

    /** Changes memory, processors and, once, the mount path. */
    method SaveSettings(s: nat, mount: string, valid: bool, now: Time) returns (reply: Result<Unit, Error>)
      requires Valid() && clock <= now
      modifies this
      ensures Valid()
      ensures Model() == Apply(old(Model()), Event(now, DoSaveSettings(s, mount, valid)))
      ensures reply == StoreModel.SaveSettings(Tick(old(Model()), now), s, mount, valid).reply
    {
      hide Inv, Apply;
      ApplySettings(Model(), now, s, mount, valid);
      ApplyInv(Model(), Event(now, DoSaveSettings(s, mount, valid)));
      clock := now;
      if s >= |services| {
        return Err(NotFound);
      }
      var settings := services[s].settings;
      if settings.mount != "" && mount != settings.mount {
        return Err(Immovable);
      }
      settings := settings.(mount := mount);
      if mount != "" {
        settings := settings.(volume := Some(Derived(s)));
      }
      if !valid {
        return Err(Invalid);
      }
      if settings.volume.Some? {
        var v := Derived(s);
        if exists u :: u in attachments && u != v && attachments[u].service == s {
          return Err(Attached);
        }
        if v !in volumes {
          volumes := volumes[v := Volume(services[s].scope, false)];
        }
        attachments := attachments[v := Attachment(s, mount)];
      }
      services := services[s := services[s].(settings := settings)];
      return Ok(Unit);
    }

    method SaveCronSchedule(s: nat, schedule: string, next: Option<Time>, now: Time) returns (reply: Result<Unit, Error>)
      requires Valid() && clock <= now && (next.Some? ==> now < next.value)
      modifies this
      ensures Valid()
      ensures Model() == Apply(old(Model()), Event(now, DoSchedule(s, schedule, next)))
      ensures reply == StoreModel.SaveCronSchedule(Tick(old(Model()), now), s, schedule, next).reply
    {
      hide Inv;
      ApplyInv(Model(), Event(now, DoSchedule(s, schedule, next)));
      clock := now;
      if schedule == "" || next.None? {
        return Err(Invalid);
      }
      if s >= |services| || !services[s].workload.Cron? {
        return Err(NotFound);
      }
      services := services[s := services[s].(schedule := schedule, nextRun := next)];
      return Ok(Unit);
    }

    /** Queues a release: the snapshot of the service's settings, unless the key was seen before. */
    method Enqueue(
      s: nat, spec: Spec, command: Option<string>, key: string, valid: bool, resolved: bool, now: Time)
      returns (reply: Result<nat, Error>)
      requires Valid() && clock <= now
      modifies this
      ensures Valid()
      ensures Model() == Apply(old(Model()), Event(now, DoEnqueue(s, spec, command, key, valid, resolved)))
      ensures reply == StoreModel.Enqueue(Tick(old(Model()), now), s, spec, command, key, valid, resolved, now).reply
    {
      hide Inv;
      ApplyInv(Model(), Event(now, DoEnqueue(s, spec, command, key, valid, resolved)));
      clock := now;
      if s >= |services| {
        return Err(NotFound);
      }
      var service := services[s];
      if command.Some? && !valid {
        return Err(Invalid);
      }
      if service.workload.Cron? && service.schedule == "" {
        return Err(NoSchedule);
      }
      if IsData(service.kind) && spec != TemplateSpec(service.kind) {
        return Err(PinnedRelease);
      }
      if |key| > 128 {
        return Err(Conflict);
      }
      if key != "" {
        var prior := Prior(deployments, s, key);
        if prior.Some? {
          if deployments[prior.value].payload != Payload(spec, command) {
            return Err(Conflict);
          }
          return Ok(prior.value);
        }
      }
      if ActionPending(actions, s) {
        return Err(Busy);
      }
      if PendingCount(deployments, s) >= 10 {
        return Err(QueueFull);
      }
      if !resolved {
        return Err(Unresolved);
      }
      var settings := service.settings.(port := spec.port);
      services := services[s := service.(settings := settings)];
      var d := |deployments|;
      deployments := deployments
        + [Deployment(s, settings, key, Payload(spec, command), Queued, Unclaimed(now), false)];
      return Ok(d);
    }

    method EnqueueAction(s: nat, kind: ActionKind, backupExists: bool, now: Time) returns (reply: Result<nat, Error>)
      requires Valid() && clock <= now
      modifies this
      ensures Valid()
      ensures Model() == Apply(old(Model()), Event(now, DoEnqueueAction(s, kind, backupExists)))
      ensures reply == StoreModel.EnqueueAction(Tick(old(Model()), now), s, kind, backupExists, now).reply
    {
      hide Inv;
      ApplyInv(Model(), Event(now, DoEnqueueAction(s, kind, backupExists)));
      clock := now;
      if s >= |services| {
        return Err(NotFound);
      }
      var active := services[s].activeId;
      if active.None? {
        return Err(NoRelease);
      }
      if active.value >= |deployments| {
        return Err(NotFound);
      }
      if kind.Start? || kind.Restart? {
        var current, release := services[s].settings, deployments[active.value].settings;
        if current.volume != release.volume || current.mount != release.mount {
          return Err(VolumeChanged);
        }
      }
      if (kind.Backup? || kind.Restore?) && !CanBackUp(services[s]) {
        return Err(Invalid);
      }
      if kind.Restore? && !backupExists {
        return Err(NotFound);
      }
      if DeploymentPending(deployments, s) || ActionPending(actions, s) || RunPending(runs, s) {
        return Err(Busy);
      }
      actions := actions + [Action(s, kind, Waiting, Unclaimed(now))];
      return Ok(|actions| - 1);
    }

    method AttachVolume(v: VolumeId, s: nat, mount: string, valid: bool, now: Time) returns (reply: Result<Unit, Error>)
      requires Valid() && clock <= now
      modifies this
      ensures Valid()
      ensures Model() == Apply(old(Model()), Event(now, DoAttach(v, s, mount, valid)))
      ensures reply == StoreModel.AttachVolume(Tick(old(Model()), now), v, s, mount, valid).reply
    {
      hide Inv;
      ApplyInv(Model(), Event(now, DoAttach(v, s, mount, valid)));
      clock := now;
      if v !in volumes {
        return Err(NotFound);
      }
      if volumes[v].managed {
        return Err(Managed);
      }
      if v in attachments {
        return Err(Attached);
      }
      if s >= |services| {
        return Err(NotFound);
      }
      var service := services[s];
      if service.scope != volumes[v].scope || IsData(service.kind) {
        return Err(WrongScope);
      }
      if Released(service) {
        return Err(StillRunning);
      }
      if HasVolume(attachments, s) {
        return Err(Attached);
      }
      if DeploymentPending(deployments, s) || ActionPending(actions, s) || RunPending(runs, s) {
        return Err(Busy);
      }
      if !valid {
        return Err(Invalid);
      }
      attachments := attachments[v := Attachment(s, mount)];
      services := services[s := service.(settings := service.settings.(mount := mount, volume := Some(v)))];
      return Ok(Unit);
    }

    method DetachVolume(v: VolumeId, now: Time) returns (reply: Result<Unit, Error>)
      requires Valid() && clock <= now
      modifies this
      ensures Valid()
      ensures Model() == Apply(old(Model()), Event(now, DoDetach(v)))
      ensures reply == StoreModel.DetachVolume(Tick(old(Model()), now), v).reply
    {
      hide Inv;
      ApplyInv(Model(), Event(now, DoDetach(v)));
      clock := now;
      if v !in volumes || v !in attachments {
        return Err(NotFound);
      }
      if volumes[v].managed {
        return Err(Managed);
      }
      var s := attachments[v].service;
      if s >= |services| {
        return Err(NotFound);
      }
      if Released(services[s]) {
        return Err(StillRunning);
      }
      if DeploymentPending(deployments, s) || ActionPending(actions, s) || RunPending(runs, s) {
        return Err(Busy);
      }
      attachments := attachments - {v};
      services := services[s := services[s].(settings := services[s].settings.(mount := "", volume := None))];
      return Ok(Unit);
    }

    method Cancel(d: nat, now: Time) returns (reply: Result<Unit, Error>)
      requires Valid() && clock <= now
      modifies this
      ensures Valid()
      ensures Model() == Apply(old(Model()), Event(now, DoCancel(d)))
      ensures reply == StoreModel.Cancel(Tick(old(Model()), now), d).reply
    {
      hide Inv;
      ApplyInv(Model(), Event(now, DoCancel(d)));
      clock := now;
      if d >= |deployments| || Terminal(deployments[d].status) {
        return Err(Conflict);
      }
      var row := deployments[d].(cancelRequested := true);
      if row.status.Queued? && row.lease.attempt == 0 {
        row := row.(status := Failed);
      }
      deployments := deployments[d := row];
      return Ok(Unit);
    }

    /** Ends the jobs that ran out of attempts or time, table by table. */
    method ExpireWork(now: Time)
      modifies this`deployments, this`actions, this`runs
      ensures Model() == Sweep(old(Model()), now)
    {
      ghost var before := Model();
      var i := 0;
      while i < |deployments|
        invariant 0 <= i <= |deployments| == |before.deployments|
        invariant deployments[i..] == before.deployments[i..]
        invariant forall j :: 0 <= j < i ==> deployments[j] == ExpireDeployment(before.deployments[j], now)
        invariant actions == before.actions && runs == before.runs
      {
        if !Terminal(deployments[i].status) && Exhausted(deployments[i].lease, now) {
          deployments := deployments[i := deployments[i].(status := Failed)];
        }
        i := i + 1;
      }
      i := 0;
      while i < |actions|
        invariant 0 <= i <= |actions| == |before.actions|
        invariant actions[i..] == before.actions[i..]
        invariant forall j :: 0 <= j < i ==> actions[j] == ExpireAction(before.actions[j], now)
        invariant deployments == SweepDeployments(before.deployments, now) && runs == before.runs
      {
        if Pending(actions[i].status) && Exhausted(actions[i].lease, now) {
          actions := actions[i := actions[i].(status := Broken)];
        }
        i := i + 1;
      }
      i := 0;
      while i < |runs|
        invariant 0 <= i <= |runs| == |before.runs|
        invariant runs[i..] == before.runs[i..]
        invariant forall j :: 0 <= j < i ==> runs[j] == ExpireRun(before.runs[j], now)
        invariant deployments == SweepDeployments(before.deployments, now)
        invariant actions == SweepActions(before.actions, now)
      {
        if Pending(runs[i].status) && Exhausted(runs[i].lease, now) {
          runs := runs[i := runs[i].(status := Broken)];
        }
        i := i + 1;
      }
    }

    /** Hands the next job to the agent.  `next` is the occurrence after now of the schedule of
        the cron service that is due, if one is.  An error rolls the sweep back as well. */
    method Claim(now: Time, next: Time) returns (reply: Result<Option<Work>, Error>)
      requires Valid() && clock <= now < next
      modifies this
      ensures Valid()
      ensures Model() == Apply(old(Model()), Event(now, DoClaim(next)))
      ensures reply == StoreModel.Claim(Tick(old(Model()), now), now, next).reply
    {
      hide Inv, StoreModel.ClaimAction, StoreModel.ClaimDeployment, SweepDeployments, SweepActions, SweepRuns;
      ApplyInv(Model(), Event(now, DoClaim(next)));
      clock := now;
      var deployments0, actions0, runs0 := deployments, actions, runs;
      ghost var start := Model();
      ExpireWork(now);
      var action := FirstAction(actions, now);
      if action.Some? {
        reply := ClaimAction(action.value, now, start);
      } else {
        var deployment := FirstDeployment(deployments, now);
        if deployment.Some? {
          reply := ClaimDeployment(deployment.value, now, start);
        } else {
          reply := ClaimCron(now, next, start);
        }
      }
      if reply.Err? {
        deployments, actions, runs := deployments0, actions0, runs0;
      }
    }

    method ClaimAction(i: nat, now: Time, ghost start: Db) returns (reply: Result<Option<Work>, Error>)
      requires i < |actions|
      modifies this
      ensures reply == StoreModel.ClaimAction(start, old(Model()), i, now).reply
      ensures reply.Ok? ==> Model() == StoreModel.ClaimAction(start, old(Model()), i, now).db
      ensures reply.Err? ==> Model() == old(Model()) && StoreModel.ClaimAction(start, old(Model()), i, now).db == start
    {
      var s := actions[i].service;
      if s >= |services| || services[s].activeId.None? {
        return Err(NotFound);
      }
      if !MayStart(actions[i].lease, now) {
        return Err(Conflict);
      }
      var token := NewToken();
      actions := actions[i := actions[i].(status := Executing, lease := NextAttempt(actions[i].lease, token, now))];
      return Ok(Some(ActionWork(token, i, services[s].activeId.value)));
    }

    method ClaimDeployment(i: nat, now: Time, ghost start: Db) returns (reply: Result<Option<Work>, Error>)
      requires i < |deployments|
      modifies this
      ensures reply == StoreModel.ClaimDeployment(start, old(Model()), i, now).reply
      ensures reply.Ok? ==> Model() == StoreModel.ClaimDeployment(start, old(Model()), i, now).db
      ensures reply.Err? ==> Model() == old(Model()) && StoreModel.ClaimDeployment(start, old(Model()), i, now).db == start
    {
      var s := deployments[i].service;
      if s >= |services| {
        return Err(NotFound);
      }
      if !MayStart(deployments[i].lease, now) {
        return Err(Conflict);
      }
      var token := NewToken();
      deployments := deployments[i := deployments[i].(lease := NextAttempt(deployments[i].lease, token, now))];
      var previous := None;
      if services[s].activeId.Some? && !services[s].desired.Stopped? {
        previous := services[s].activeId;
      }
      return Ok(Some(DeploymentWork(token, i, previous)));
    }

    method ClaimCron(now: Time, next: Time, ghost start: Db) returns (reply: Result<Option<Work>, Error>)
      requires start.services == services && start.lastToken == lastToken
      modifies this
      ensures reply == StoreModel.ClaimCron(start, old(Model()), now, next).reply
      ensures reply.Ok? ==> Model() == StoreModel.ClaimCron(start, old(Model()), now, next).db
      ensures reply.Err? ==>
                && services == old(services) && lastToken == old(lastToken) && clock == old(clock)
                && volumes == old(volumes) && attachments == old(attachments) && volumesCreated == old(volumesCreated)
    {
      var i := 0;
      var services0 := services;
      var run := EarliestRun(runs, now, |runs|);
      if run.Some? {
        i := run.value;
      } else {
        var due := EarliestService(services, runs, now, |services|);
        if due.None? {
          return Ok(None);
        }
        var s := due.value;
        i := |runs|;
        runs := runs + [CronRun(s, services[s].activeId.value, services[s].nextRun.value, Waiting, Unclaimed(now))];
        services := services[s := services[s].(nextRun := Some(next))];
      }
      if runs[i].service >= |services| || runs[i].deployment >= |deployments| {
        services := services0;
        return Err(NotFound);
      }
      if !MayStart(runs[i].lease, now) {
        services := services0;
        return Err(Conflict);
      }
      var token := NewToken();
      runs := runs[i := runs[i].(status := Executing, lease := NextAttempt(runs[i].lease, token, now))];
      return Ok(Some(CronWork(token, i, runs[i].deployment)));
    }

    /** Records what the agent reports of a deployment; `Activated` also moves the pointer. */
    method Report(d: nat, token: nat, reported: Reported, now: Time) returns (reply: Result<Unit, Error>)
      requires Valid() && clock <= now
      modifies this
      ensures Valid()
      ensures Model() == Apply(old(Model()), Event(now, DoReport(d, token, reported)))
      ensures reply == StoreModel.Report(Tick(old(Model()), now), d, token, reported, now).reply
    {
      hide Inv;
      ApplyInv(Model(), Event(now, DoReport(d, token, reported)));
      clock := now;
      if d >= |deployments| {
        return Err(NotFound);
      }
      if reported.LogsOnly? {
        return Ok(Unit);
      }
      var row := deployments[d];
      if !Holds(row.lease, token, now) || (reported.Activated? && row.cancelRequested) {
        return Err(Conflict);
      }
      if Terminal(row.status) {
        if row.status == Target(reported) {
          return Ok(Unit);
        }
        return Err(Finished);
      }
      if reported.Activated? {
        var s := row.service;
        if s >= |services| {
          return Err(NotFound);
        }
        var active := services[s].activeId;
        if active.Some? && active.value < |deployments| && deployments[active.value].status.Active? {
          deployments := deployments[active.value := deployments[active.value].(status := Superseded)];
        }
        services := services[s := services[s].(activeId := Some(d), desired := Running)];
      }
      deployments := deployments[d := row.(status := Target(reported))];
      return Ok(Unit);
    }

    method ReportAction(a: nat, token: nat, done: bool, now: Time) returns (reply: Result<Unit, Error>)
      requires Valid() && clock <= now
      modifies this
      ensures Valid()
      ensures Model() == Apply(old(Model()), Event(now, DoReportAction(a, token, done)))
      ensures reply == StoreModel.ReportAction(Tick(old(Model()), now), a, token, done, now).reply
    {
      hide Inv;
      ApplyInv(Model(), Event(now, DoReportAction(a, token, done)));
      clock := now;
      if a >= |actions| {
        return Err(NotFound);
      }
      var row := actions[a];
      var status := if done then Succeeded else Broken;
      if !Holds(row.lease, token, now) {
        return Err(Conflict);
      }
      if !Pending(row.status) {
        if row.status == status {
          return Ok(Unit);
        }
        return Err(Finished);
      }
      actions := actions[a := row.(status := status)];
      if done && row.service < |services| {
        if row.kind.Stop? {
          services := services[row.service := services[row.service].(desired := Stopped)];
        } else if row.kind.Start? || row.kind.Restart? {
          services := services[row.service := services[row.service].(desired := Running)];
        }
      }
      return Ok(Unit);
    }

    method ReportCronRun(r: nat, token: nat, succeeded: bool, now: Time) returns (reply: Result<Unit, Error>)
      requires Valid() && clock <= now
      modifies this
      ensures Valid()
      ensures Model() == Apply(old(Model()), Event(now, DoReportRun(r, token, succeeded)))
      ensures reply == StoreModel.ReportCronRun(Tick(old(Model()), now), r, token, succeeded, now).reply
    {
      hide Inv;
      ApplyInv(Model(), Event(now, DoReportRun(r, token, succeeded)));
      clock := now;
      if r >= |runs| {
        return Err(NotFound);
      }
      var status := if succeeded then Succeeded else Broken;
      if !Pending(runs[r].status) {
        if runs[r].status == status {
          return Ok(Unit);
        }
        return Err(Conflict);
      }
      if !Holds(runs[r].lease, token, now) {
        return Err(Conflict);
      }
      runs := runs[r := runs[r].(status := status)];
      return Ok(Unit);
    }
  }
}
