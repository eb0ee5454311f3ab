/** Whose volume a backup or a restore works on, from its request to its end. */
module StoreBackups {
  import opened Common
  import opened Leases
  import opened StoreModel
  import opened StoreInvariant
  import opened StoreRuns
  import opened StoreHistory
  import opened StorePromises

  /** The service still mounts what its active release mounts, if that mounts anything: what is
      compared before a start or a restart, and not before a backup or a restore. */
  predicate MountsAsReleased(db: Db, s: nat)
    requires s < |db.services| && db.services[s].activeId.Some? && db.services[s].activeId.value < |db.deployments|
  {
    var volume := db.deployments[db.services[s].activeId.value].settings.volume;
    volume.Some? ==> db.services[s].settings.volume == volume
  }

  /** A waiting or executing action `a` of service `s`, whose active release is `r`. */
  ghost predicate InHand(db: Db, a: nat, s: nat, r: nat) {
    && a < |db.actions| && db.actions[a].service == s && Pending(db.actions[a].status)
    && s < |db.services| && db.services[s].activeId == Some(r)
    && r < |db.deployments| && db.deployments[r].service == s
  }

  lemma InHandReleased(db: Db, a: nat, s: nat, r: nat)
    requires Inv(db) && a < |db.actions| && db.actions[a].service == s && Pending(db.actions[a].status)
    requires s < |db.services| && db.services[s].activeId == Some(r)
    ensures InHand(db, a, s, r) && HasWork(db, s) && !DeploymentPending(db.deployments, s)
  {
    hide QueueOk, CancelOk, BoundOk, KeysOk, CronOk, LeasesOk;
  }

  predicate AttachedTo(db: Db, v: VolumeId, s: nat) {
    v in db.attachments && db.attachments[v].service == s
  }

  predicate FormOf(step: Step, s: nat) {
    step.DoSaveSettings? && step.s == s
  }

  lemma CreateDatabaseKeeps(db: Db, scope: Scope, kind: Kind, s: nat, v: VolumeId)
    requires AttachmentsOk(db) && s < |db.services|
    ensures AttachedTo(CreateDatabase(db, scope, kind, db.clock).db, v, s) <==> AttachedTo(db, v, s)
  {
    hide Prior, PendingCount, ActionPending;
  }

  lemma AttachKeeps(db: Db, volume: VolumeId, t: nat, mount: string, valid: bool, s: nat, v: VolumeId)
    requires HasWork(db, s)
    ensures AttachedTo(AttachVolume(db, volume, t, mount, valid).db, v, s) <==> AttachedTo(db, v, s)
  {
    hide HasWork, HasVolume;
  }

  lemma DetachKeeps(db: Db, volume: VolumeId, s: nat, v: VolumeId)
    requires HasWork(db, s)
    ensures AttachedTo(DetachVolume(db, volume).db, v, s) <==> AttachedTo(db, v, s)
  {
    hide HasWork;
  }

  lemma SaveSettingsKeeps(db: Db, t: nat, mount: string, valid: bool, s: nat, v: VolumeId)
    requires TakesNothing(db, t, mount, valid) && AttachmentsOk(db)
    ensures AttachedTo(db, v, s) ==> AttachedTo(SaveSettings(db, t, mount, valid).db, v, s)
    ensures AttachedTo(SaveSettings(db, t, mount, valid).db, v, s) && t != s ==> AttachedTo(db, v, s)
  {
  }

  /** A service with work keeps its volumes, and nobody but its own settings form attaches one to it. */
  lemma HoldingKept(db: Db, step: Step, s: nat, v: VolumeId)
    requires AttachmentsOk(db) && s < |db.services| && HasWork(db, s)
    requires step.DoSaveSettings? ==> TakesNothing(db, step.s, step.mount, step.valid)
    ensures AttachedTo(db, v, s) ==> AttachedTo(Perform(db, step), v, s)
    ensures AttachedTo(Perform(db, step), v, s) && !FormOf(step, s) ==> AttachedTo(db, v, s)
  {
    hide AttachmentsOk, HasWork, TakesNothing, CreateDatabase, AttachVolume, DetachVolume, SaveSettings;
    match step
    case DoCreateDatabase(scope, kind) => CreateDatabaseKeeps(db, scope, kind, s, v);
    case DoAttach(volume, t, mount, valid) => AttachKeeps(db, volume, t, mount, valid, s, v);
    case DoDetach(volume) => DetachKeeps(db, volume, s, v);
    case DoSaveSettings(t, mount, valid) => SaveSettingsKeeps(db, t, mount, valid, s, v);
    case _ =>
      hide Perform;
      OthersKeepAttachments(db, step);
  }

  lemma OthersKeepAttachments(db: Db, step: Step)
    requires !step.DoCreateDatabase? && !step.DoAttach? && !step.DoDetach? && !step.DoSaveSettings?
    ensures Perform(db, step).attachments == db.attachments
  {
    hide Prior, PendingCount, HasWork, Holds, Claim;
    if step.DoClaim? {
      ClaimKeepsAttachments(db, step.after);
    }
  }

  lemma ClaimKeepsAttachments(db: Db, next: Time)
    ensures Claim(db, db.clock, next).db.attachments == db.attachments
  {
    hide SweepDeployments, SweepActions, SweepRuns, FirstAction, FirstDeployment;
  }

  /** Nothing is deployed while the action is in hand. */
  lemma ReleaseKept(db: Db, step: Step, a: nat, s: nat, r: nat)
    requires Inv(db) && InHand(db, a, s, r)
    ensures s < |Perform(db, step).services| && Perform(db, step).services[s].activeId == Some(r)
  {
    hide ActiveOk, QueueOk, CancelOk, BoundOk, ActionsOk, KeysOk, CronOk, LeasesOk;
    if !step.DoReport? {
      hide Perform;
      PointersKept(db, step);
    } else {
      InHandReleased(db, a, s, r);
    }
  }

  lemma AttachmentsFact(db: Db)
    requires VolumesOk(db)
    ensures AttachmentsOk(db)
  {
    hide AttachmentsOk, SnapshotsOk;
  }

  /** One event of a run, while the action is in hand before and after it. */
  lemma InHandOneEvent(db: Db, event: Event, a: nat, s: nat, r: nat)
    requires Inv(db) && VolumesOk(db) && Timely(db, event) && Polite(db, event) && InHand(db, a, s, r)
    requires a < |Apply(db, event).actions| && Pending(Apply(db, event).actions[a].status)
    ensures var after := Apply(db, event);
            && InHand(after, a, s, r)
            && (SnapshotHeld(db.deployments, db.attachments, r) ==> SnapshotHeld(after.deployments, after.attachments, r))
            && (SnapshotHeld(after.deployments, after.attachments, r) && !FormOf(event.step, s) ==>
                  SnapshotHeld(db.deployments, db.attachments, r))
  {
    hide Inv, VolumesOk, Perform, HasWork, AttachmentsOk, DeploymentPending, Evolves;
    var ticked, after := Tick(db, event.now), Apply(db, event);
    TickInv(db, event.now);
    ApplyInv(db, event);
    ApplyEvolves(db, event);
    EvolvedRow(db, after, r);
    EvolvedAction(db, after, a);
    InHandReleased(ticked, a, s, r);
    ReleaseKept(ticked, event.step, a, s, r);
    AttachmentsFact(ticked);
    PoliteLater(db, event);
    if db.deployments[r].settings.volume.Some? {
      HoldingKept(ticked, event.step, s, db.deployments[r].settings.volume.value);
    }
  }

  lemma EvolvedAction(before: Db, after: Db, a: nat)
    requires Evolves(before, after) && a < |before.actions|
    ensures a < |after.actions| && ActionEvolves(before.actions[a], after.actions[a])
  {
  }

  /** A settings form of this service comes up in the run. */
  predicate FormIn(events: seq<Event>, s: nat) {
    exists i :: 0 <= i < |events| && FormOf(events[i].step, s)
  }

  /** As long as an action is in hand, its service keeps its release; and the release keeps its
      volume, and gets none back but by a settings form of its service. */
  lemma {:induction false} InHandThroughout(db: Db, events: seq<Event>, a: nat, s: nat, r: nat)
    requires Inv(db) && VolumesOk(db) && Legal(db, events) && AllPolite(db, events) && InHand(db, a, s, r)
    requires a < |Run(db, events).actions| && Pending(Run(db, events).actions[a].status)
    ensures var later := Run(db, events);
            && InHand(later, a, s, r)
            && (SnapshotHeld(db.deployments, db.attachments, r) ==> SnapshotHeld(later.deployments, later.attachments, r))
            && (SnapshotHeld(later.deployments, later.attachments, r) && !FormIn(events, s) ==>
                  SnapshotHeld(db.deployments, db.attachments, r))
    decreases |events|
  {
    hide Inv, VolumesOk, Apply, Evolves, InHand, Polite, Timely, SnapshotHeld, FormOf;
    if |events| > 0 {
      var next := Apply(db, events[0]);
      ApplyInv(db, events[0]);
      ApplyEvolves(db, events[0]);
      RunOnlyMovesForward(next, events[1..]);
      HandIsRow(db, a, s, r);
      EvolvedAction(db, next, a);
      EvolvedAction(next, Run(next, events[1..]), a);
      InHandOneEvent(db, events[0], a, s, r);
      InHandThroughout(next, events[1..], a, s, r);
      if FormIn(events[1..], s) {
        var i :| 0 <= i < |events[1..]| && FormOf(events[1..][i].step, s);
        assert FormOf(events[i + 1].step, s);
      }
      assert FormOf(events[0].step, s) ==> FormIn(events, s);
    }
  }

  lemma HandIsRow(db: Db, a: nat, s: nat, r: nat)
    requires InHand(db, a, s, r)
    ensures a < |db.actions| && r < |db.deployments|
  {
  }

  lemma RequestedAction(db: Db, s: nat, kind: ActionKind, backupExists: bool, asked: Db, a: nat)
    requires Inv(db) && VolumesOk(db)
    requires EnqueueAction(db, s, kind, backupExists, db.clock) == Outcome(asked, Ok(a))
    ensures s < |db.services| && db.services[s].activeId.Some? && db.services[s].activeId.value < |db.deployments|
    ensures asked == db.(actions := asked.actions) && InHand(asked, a, s, db.services[s].activeId.value)
    ensures kind.Start? || kind.Restart? ==> MountsAsReleased(db, s)
  {
    hide HasWork, VolumesOk, RefsOk, QueueOk, CancelOk, BoundOk, KeysOk, CronOk, LeasesOk, ActionsOk;
  }

  /** That the volume is attached is what the comparison finds. */
  lemma HeldIfMounted(db: Db, s: nat)
    requires AttachmentsOk(db) && s < |db.services| && db.services[s].activeId.Some?
    requires db.services[s].activeId.value < |db.deployments| && db.deployments[db.services[s].activeId.value].service == s
    ensures SnapshotHeld(db.deployments, db.attachments, db.services[s].activeId.value) <==> MountsAsReleased(db, s)
  {
  }

  lemma RunningMounts(db: Db, s: nat)
    requires Inv(db) && VolumesOk(db) && s < |db.services| && Released(db.services[s])
    ensures db.services[s].activeId.value < |db.deployments| && MountsAsReleased(db, s)
  {
    hide RefsOk, QueueOk, CancelOk, BoundOk, KeysOk, CronOk, LeasesOk, ActionsOk;
    HeldIfMounted(db, s);
  }

  /** An action works on the release that was active at the request, until it ends.  That release
      holds its volume exactly while the service mounts it, and a running service does.  If the
      service mounted it at the request it does so until the end; if not, only its own settings form
      can make it mount it again.  While it is held no live release of another service mounts it. */
  lemma ActionHoldsExactly(
    db: Db, s: nat, kind: ActionKind, backupExists: bool, asked: Db, a: nat, events: seq<Event>, later: Db)
    requires Inv(db) && VolumesOk(db)
    requires EnqueueAction(db, s, kind, backupExists, db.clock) == Outcome(asked, Ok(a))
    requires Legal(asked, events) && AllPolite(asked, events) && later == Run(asked, events)
    requires a < |later.actions| && Pending(later.actions[a].status)
    ensures s < |db.services| && db.services[s].activeId.Some? && db.services[s].activeId.value < |db.deployments|
    ensures kind.Start? || kind.Restart? || db.services[s].desired.Running? ==> MountsAsReleased(db, s)
    ensures var r := db.services[s].activeId.value;
            && s < |later.services| && later.services[s].activeId == Some(r)
            && r < |later.deployments| && later.deployments[r].settings == db.deployments[r].settings
            && (SnapshotHeld(later.deployments, later.attachments, r) <==> MountsAsReleased(later, s))
            && (MountsAsReleased(db, s) ==> MountsAsReleased(later, s))
            && (MountsAsReleased(later, s) ==> MountsAsReleased(db, s) || FormIn(events, s))
            && (SnapshotHeld(later.deployments, later.attachments, r) ==> NobodyElseOn(later, r))
  {
    hide Inv, VolumesOk, Run, Legal, AllPolite, MountsAsReleased, EnqueueAction, Evolves;
    RequestedAction(db, s, kind, backupExists, asked, a);
    RequestKeeps(db, s, kind, backupExists);
    var r := db.services[s].activeId.value;
    InHandThroughout(asked, events, a, s, r);
    AttachmentsFact(db);
    HeldIfMounted(db, s);
    if db.services[s].desired.Running? {
      RunningMounts(db, s);
    }
    RunOnlyMovesForward(asked, events);
    EvolvedRow(asked, later, r);
    RunKeepsInvariant(asked, events);
    RunKeepsVolumes(asked, events);
    AttachmentsFact(later);
    HeldIfMounted(later, s);
    if SnapshotHeld(later.deployments, later.attachments, r) {
      HeldAlone(later, r);
    }
  }

  lemma RequestKeeps(db: Db, s: nat, kind: ActionKind, backupExists: bool)
    requires Inv(db) && VolumesOk(db)
    ensures var asked := EnqueueAction(db, s, kind, backupExists, db.clock).db; Inv(asked) && VolumesOk(asked)
  {
    hide Inv, VolumesOk, EnqueueAction;
    EnqueueActionInv(db, s, kind, backupExists, db.clock);
  }

  /** No live release of another service mounts the volume of release `r`. */
  ghost predicate NobodyElseOn(db: Db, r: nat)
    requires r < |db.deployments|
  {
    forall e: nat :: e < |db.deployments| && Live(db, e) && db.deployments[e].service != db.deployments[r].service
                     && db.deployments[r].settings.volume.Some? ==>
                       db.deployments[e].settings.volume != db.deployments[r].settings.volume
  }

  lemma HeldAlone(db: Db, r: nat)
    requires Inv(db) && VolumesOk(db) && r < |db.deployments| && SnapshotHeld(db.deployments, db.attachments, r)
    ensures NobodyElseOn(db, r)
  {
    hide Inv, VolumesOk, Live;
    forall e: nat | e < |db.deployments| && Live(db, e) && db.deployments[e].service != db.deployments[r].service
                    && db.deployments[r].settings.volume.Some?
      ensures db.deployments[e].settings.volume != db.deployments[r].settings.volume
    {
      LiveHolds(db, e);
    }
  }
}
