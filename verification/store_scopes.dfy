/** Projects and environments, and the volumes of databases, over every run. */
module StoreScopes {
  import opened Common
  import opened Leases
  import opened StoreModel
  import opened StoreInvariant
  import opened StoreRuns
  import opened StoreHistory

  /** A volume and the service that mounts it belong to one project and environment, and it is a
      managed one exactly if the service is a database. */
  predicate MountOk(db: Db, v: VolumeId)
    requires v in db.attachments
  {
    var s := db.attachments[v].service;
    && v in db.volumes && s < |db.services|
    && db.volumes[v].scope == db.services[s].scope && (db.volumes[v].managed <==> !db.services[s].kind.Http?)
  }

  /** A volume that is named after a service belongs where the service does, and is a managed one
      exactly if it is a database. */
  predicate VolumeOk(db: Db, v: VolumeId)
    requires v in db.volumes
  {
    match v
    case Created(n) => n < db.volumesCreated && !db.volumes[v].managed
    case Derived(s) =>
      && s < |db.services| && db.volumes[v].scope == db.services[s].scope
      && (db.volumes[v].managed <==> !db.services[s].kind.Http?)
  }

  /** A database has its own volume, where its engine keeps its data. */
  predicate DataOk(db: Db, s: nat)
    requires s < |db.services| && !db.services[s].kind.Http?
  {
    && Derived(s) in db.volumes && Derived(s) in db.attachments
    && db.attachments[Derived(s)] == Attachment(s, DataPath(db.services[s].kind))
    && db.services[s].settings.volume == Some(Derived(s))
    && db.services[s].settings.mount == DataPath(db.services[s].kind)
  }

  ghost predicate ScopesOk(db: Db) {
    && (forall v :: v in db.attachments ==> MountOk(db, v))
    && (forall v :: v in db.volumes ==> VolumeOk(db, v))
    && (forall s :: 0 <= s < |db.services| && !db.services[s].kind.Http? ==> DataOk(db, s))
  }

  function DataPath(kind: Kind): string
    requires !kind.Http?
  {
    match kind
    case Postgres => "/var/lib/postgresql/data"
    case Redis => "/data"
    case MySql => "/var/lib/mysql"
    case Mongo => "/data/db"
  }

  /** The step touches no volume, attachment or mounted path. */
  ghost predicate SameVolumes(db: Db, after: Db) {
    && after.volumes == db.volumes && after.attachments == db.attachments && after.volumesCreated == db.volumesCreated
    && |db.services| == |after.services|
    && forall s :: 0 <= s < |db.services| ==>
                     && after.services[s].scope == db.services[s].scope && after.services[s].kind == db.services[s].kind
                     && after.services[s].settings.volume == db.services[s].settings.volume
                     && after.services[s].settings.mount == db.services[s].settings.mount
  }

  lemma SameVolumesKeep(db: Db, after: Db)
    requires ScopesOk(db) && SameVolumes(db, after)
    ensures ScopesOk(after)
  {
    forall v | v in after.attachments ensures MountOk(after, v) {
      assert MountOk(db, v);
    }
    forall v | v in after.volumes ensures VolumeOk(after, v) {
      assert VolumeOk(db, v);
    }
    forall s | 0 <= s < |after.services| && !after.services[s].kind.Http? ensures DataOk(after, s) {
      assert DataOk(db, s);
    }
  }

  lemma JobsKeepVolumes(db: Db, step: Step)
    requires step.DoEnqueue? || step.DoEnqueueAction? || step.DoSchedule? || step.DoCancel?
    ensures SameVolumes(db, Perform(db, step))
  {
    hide Prior, PendingCount, HasWork, ActionPending, CanBackUp;
  }

  lemma ReportsKeepVolumes(db: Db, step: Step)
    requires step.DoReport? || step.DoReportAction? || step.DoReportRun?
    ensures SameVolumes(db, Perform(db, step))
  {
    hide Holds, Retire;
  }

  lemma ClaimKeepsVolumes(db: Db, next: Time)
    ensures SameVolumes(db, Claim(db, db.clock, next).db)
  {
    hide SweepDeployments, SweepActions, SweepRuns, FirstAction, FirstDeployment, EarliestRun, MayStart;
  }

  /******* Creation *******/

  lemma AddDatabaseKeeps(db: Db, scope: Scope, kind: Kind)
    requires ScopesOk(db) && IsData(kind)
    ensures ScopesOk(AddDatabase(db, scope, kind))
  {
    var after := AddDatabase(db, scope, kind);
    forall v | v in after.attachments ensures MountOk(after, v) {
      assert v in db.attachments ==> MountOk(db, v);
    }
    forall v | v in after.volumes ensures VolumeOk(after, v) {
      assert v in db.volumes ==> VolumeOk(db, v);
    }
    forall s | 0 <= s < |after.services| && !after.services[s].kind.Http? ensures DataOk(after, s) {
      assert s < |db.services| ==> DataOk(db, s);
    }
  }

  lemma CreateDatabaseKeeps(db: Db, scope: Scope, kind: Kind)
    requires ScopesOk(db)
    ensures ScopesOk(CreateDatabase(db, scope, kind, db.clock).db)
  {
    hide ScopesOk, AddDatabase, Enqueue, TemplateSpec;
    if IsData(kind) {
      AddDatabaseKeeps(db, scope, kind);
      var added := AddDatabase(db, scope, kind);
      var step := DoEnqueue(|db.services|, TemplateSpec(kind), None, "database-bootstrap", true, true);
      JobsKeepVolumes(added, step);
      SameVolumesKeep(added, Perform(added, step));
      AddedClock(db, scope, kind);
    }
  }

  lemma AddedClock(db: Db, scope: Scope, kind: Kind)
    ensures AddDatabase(db, scope, kind).clock == db.clock
  {
  }

  lemma CreationKeeps(db: Db, step: Step)
    requires ScopesOk(db) && (step.DoCreateCompute? || step.DoCreateVolume?)
    ensures ScopesOk(Perform(db, step))
  {
    var after := Perform(db, step);
    forall v | v in after.attachments ensures MountOk(after, v) {
      assert MountOk(db, v);
    }
    forall v | v in after.volumes ensures VolumeOk(after, v) {
      assert v in db.volumes ==> VolumeOk(db, v);
    }
    forall s | 0 <= s < |after.services| && !after.services[s].kind.Http? ensures DataOk(after, s) {
      assert DataOk(db, s);
    }
  }

  /******* Attachments *******/

  /** Service `s` changes its settings and nothing else of it changes. */
  ghost predicate Resettled(db: Db, after: Db, s: nat) {
    && s < |db.services| == |after.services| && after.services == db.services[s := db.services[s].(settings := after.services[s].settings)]
  }

  lemma ResettledKeeps(db: Db, after: Db, s: nat)
    requires Resettled(db, after, s)
    ensures forall t :: 0 <= t < |db.services| ==>
                          after.services[t].scope == db.services[t].scope && after.services[t].kind == db.services[t].kind
    ensures forall t :: 0 <= t < |db.services| && t != s ==> after.services[t] == db.services[t]
  {
  }

  lemma AttachKeeps(db: Db, v: VolumeId, s: nat, mount: string, valid: bool)
    requires ScopesOk(db)
    ensures ScopesOk(AttachVolume(db, v, s, mount, valid).db)
  {
    hide HasWork, HasVolume, ScopesOk;
    var after := AttachVolume(db, v, s, mount, valid);
    if after.reply.Ok? {
      TakenKeeps(db, after.db, v, s, mount);
    }
  }

  /** An application takes a volume of its place that is not managed. */
  lemma TakenKeeps(db: Db, after: Db, v: VolumeId, s: nat, mount: string)
    requires ScopesOk(db) && Resettled(db, after, s) && db.services[s].kind.Http?
    requires v in after.volumes && after.volumes[v].scope == db.services[s].scope && !after.volumes[v].managed
    requires after.volumes == db.volumes || (v == Derived(s) && after.volumes == db.volumes[v := after.volumes[v]])
    requires after.volumesCreated == db.volumesCreated && after.attachments == db.attachments[v := Attachment(s, mount)]
    requires v in db.volumes ==> !db.volumes[v].managed
    ensures ScopesOk(after)
  {
    ResettledKeeps(db, after, s);
    forall w | w in after.attachments ensures MountOk(after, w) {
      assert w != v ==> MountOk(db, w);
    }
    forall w | w in after.volumes ensures VolumeOk(after, w) {
      assert w in db.volumes ==> VolumeOk(db, w);
    }
    forall t | 0 <= t < |after.services| && !after.services[t].kind.Http? ensures DataOk(after, t) {
      assert DataOk(db, t) && VolumeOk(db, Derived(t));
    }
  }

  lemma DetachKeeps(db: Db, v: VolumeId)
    requires ScopesOk(db)
    ensures ScopesOk(DetachVolume(db, v).db)
  {
    hide HasWork;
    var after := DetachVolume(db, v);
    if after.reply.Ok? {
      var s := db.attachments[v].service;
      assert MountOk(db, v);
      ResettledKeeps(db, after.db, s);
      forall w | w in after.db.attachments ensures MountOk(after.db, w) {
        assert MountOk(db, w);
      }
      forall w | w in after.db.volumes ensures VolumeOk(after.db, w) {
        assert VolumeOk(db, w);
      }
      forall t | 0 <= t < |after.db.services| && !after.db.services[t].kind.Http? ensures DataOk(after.db, t) {
        assert DataOk(db, t) && VolumeOk(db, Derived(t));
      }
    }
  }

  lemma FormKeeps(db: Db, s: nat, mount: string, valid: bool)
    requires ScopesOk(db)
    ensures ScopesOk(SaveSettings(db, s, mount, valid).db)
  {
    var after := SaveSettings(db, s, mount, valid);
    if after.reply.Ok? {
      if !db.services[s].kind.Http? {
        DatabaseForm(db, s, mount, valid);
      } else if after.db.attachments == db.attachments && after.db.volumes == db.volumes {
        hide SaveSettings, ScopesOk;
        UntakenKeeps(db, s, mount, valid);
      } else {
        assert Derived(s) in db.volumes ==> VolumeOk(db, Derived(s));
        hide ScopesOk;
        TakenKeeps(db, after.db, Derived(s), s, mount);
      }
    }
  }

  /** A database's form leaves its volume where it is. */
  lemma DatabaseForm(db: Db, s: nat, mount: string, valid: bool)
    requires ScopesOk(db) && SaveSettings(db, s, mount, valid).reply.Ok? && !db.services[s].kind.Http?
    ensures ScopesOk(SaveSettings(db, s, mount, valid).db)
  {
    var after := SaveSettings(db, s, mount, valid).db;
    assert DataOk(db, s) && after.services == db.services && after.attachments == db.attachments && after.volumes == db.volumes;
    hide SaveSettings;
    SameVolumesKeep(db, after);
  }

  lemma UntakenKeeps(db: Db, s: nat, mount: string, valid: bool)
    requires ScopesOk(db) && SaveSettings(db, s, mount, valid).reply.Ok? && db.services[s].kind.Http?
    requires SaveSettings(db, s, mount, valid).db.attachments == db.attachments
    requires SaveSettings(db, s, mount, valid).db.volumes == db.volumes
    ensures ScopesOk(SaveSettings(db, s, mount, valid).db)
  {
    var after := SaveSettings(db, s, mount, valid).db;
    assert Resettled(db, after, s) && after.volumesCreated == db.volumesCreated;
    hide SaveSettings;
    ResettledKeeps(db, after, s);
    forall w | w in after.attachments ensures MountOk(after, w) {
      assert MountOk(db, w);
    }
    forall w | w in after.volumes ensures VolumeOk(after, w) {
      assert VolumeOk(db, w);
    }
    forall t | 0 <= t < |after.services| && !after.services[t].kind.Http? ensures DataOk(after, t) {
      assert DataOk(db, t);
    }
  }

  /******* Runs *******/

  lemma EventKeepsScopes(db: Db, event: Event)
    requires ScopesOk(db)
    ensures ScopesOk(Apply(db, event))
  {
    hide ScopesOk, CreateDatabase, AttachVolume, DetachVolume, SaveSettings;
    var ticked := Tick(db, event.now);
    SameVolumesKeep(db, ticked);
    match event.step
    case DoCreateDatabase(scope, kind) => CreateDatabaseKeeps(ticked, scope, kind);
    case DoAttach(v, s, mount, valid) => AttachKeeps(ticked, v, s, mount, valid);
    case DoDetach(v) => DetachKeeps(ticked, v);
    case DoSaveSettings(s, mount, valid) => FormKeeps(ticked, s, mount, valid);
    case DoCreateCompute(_, _) => CreationKeeps(ticked, event.step);
    case DoCreateVolume(_) => CreationKeeps(ticked, event.step);
    case _ =>
      hide Perform;
      OthersKeepScopes(ticked, event.step);
  }

  lemma OthersKeepScopes(db: Db, step: Step)
    requires ScopesOk(db)
    requires step.DoEnqueue? || step.DoEnqueueAction? || step.DoSchedule? || step.DoCancel? || step.DoReport?
             || step.DoReportAction? || step.DoReportRun? || step.DoClaim?
    ensures ScopesOk(Perform(db, step))
  {
    hide ScopesOk, Perform;
    if step.DoClaim? {
      ClaimKeepsVolumes(db, step.after);
      ClaimIsPerformed(db, step);
    } else if step.DoReport? || step.DoReportAction? || step.DoReportRun? {
      ReportsKeepVolumes(db, step);
    } else {
      JobsKeepVolumes(db, step);
    }
    SameVolumesKeep(db, Perform(db, step));
  }

  lemma ClaimIsPerformed(db: Db, step: Step)
    requires step.DoClaim?
    ensures Perform(db, step) == Claim(db, db.clock, step.after).db
  {
    hide Claim;
  }

  lemma {:induction false} RunKeepsScopes(db: Db, events: seq<Event>)
    requires ScopesOk(db)
    ensures ScopesOk(Run(db, events))
    decreases |events|
  {
    hide ScopesOk, Apply;
    if |events| > 0 {
      EventKeepsScopes(db, events[0]);
      RunKeepsScopes(Apply(db, events[0]), events[1..]);
    }
  }

  /** Over every run, whatever the requests and forms: what a service mounts belongs to its project and
      environment, and a database never loses its own volume. */
  lemma VolumesStayInPlace(clock: Time, events: seq<Event>, s: nat, v: VolumeId)
    ensures var db := Run(Empty(clock), events);
            && (v in db.attachments && db.attachments[v].service == s ==>
                  s < |db.services| && v in db.volumes && db.volumes[v].scope == db.services[s].scope)
            && (s < |db.services| && !db.services[s].kind.Http? ==>
                  && Derived(s) in db.attachments
                  && db.attachments[Derived(s)] == Attachment(s, DataPath(db.services[s].kind))
                  && db.services[s].settings.volume == Some(Derived(s)))
  {
    hide Run;
    RunKeepsScopes(Empty(clock), events);
    var db := Run(Empty(clock), events);
    assert v in db.attachments ==> MountOk(db, v);
    assert s < |db.services| && !db.services[s].kind.Http? ==> DataOk(db, s);
  }
}
