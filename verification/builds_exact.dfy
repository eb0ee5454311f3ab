/** When a build is queued, and what a hand-over asks for, told from the rows. */
module BuildExactly {
  import opened Common
  import opened Leases
  import opened BuildModel
  import opened BuildRuns
  import opened BuildAttempts
  import StoreModel
  import StoreRuns

  /** The open builds of a service. */
  function OpenBuilds(builds: seq<Build>, s: nat): set<nat> {
    set i | 0 <= i < |builds| && builds[i].service == s && Underway(builds[i].status)
  }

  lemma {:induction false} OpenCountIsCardinality(builds: seq<Build>, s: nat)
    ensures OpenCount(builds, s) == |OpenBuilds(builds, s)|
  {
    if |builds| > 0 {
      var n := |builds| - 1;
      OpenCountIsCardinality(builds[..n], s);
      var before := OpenBuilds(builds[..n], s);
      if builds[n].service == s && Underway(builds[n].status) {
        assert OpenBuilds(builds, s) == before + {n};
      } else {
        assert OpenBuilds(builds, s) == before;
      }
    }
  }

  predicate KeyTaken(builds: seq<Build>, s: nat, key: string) {
    exists i :: 0 <= i < |builds| && builds[i].service == s && builds[i].key == key
  }

  /** A source is saved exactly if it is well formed and the service is there; it then replaces the
      service's source and nothing else. */
  lemma SaveSourceExactly(yard: Yard, s: nat, config: Config, valid: bool)
    ensures var after := SaveSource(yard, s, config, valid);
            && (after.reply.Ok? <==> valid && s < |yard.db.services|)
            && (after.reply.Err? ==> after.yard == yard)
            && (after.reply.Ok? ==>
                  && after.yard == yard.(sources := after.yard.sources)
                  && s in after.yard.sources && after.yard.sources[s] == config
                  && forall t :: t != s ==>
                                   && (t in after.yard.sources <==> t in yard.sources)
                                   && (t in yard.sources ==> after.yard.sources[t] == yard.sources[t]))
  {
  }

  /** The build under this key, which asks for the same. */
  predicate Same(build: Build, s: nat, commit: string, key: string, config: Config) {
    key != "" && build.service == s && build.key == key && build.commit == commit && build.config == config
  }

  /** A build is queued exactly if its commit is well formed, its key short and new, the service there
      and fewer than ten of its builds are open.  Under a key that is taken the request gets that
      build exactly if it is well formed and asks for the same, and changes nothing. */
  lemma EnqueueExactly(yard: Yard, s: nat, commit: string, validCommit: bool, key: string, config: Config, now: Time)
    requires KeysOk(yard.builds)
    ensures var after := Enqueue(yard, s, commit, validCommit, key, config, now);
            && (after.reply == Ok(|yard.builds|) <==>
                  && validCommit && |key| <= 150 && s < |yard.db.services| && (key == "" || !KeyTaken(yard.builds, s, key))
                  && |OpenBuilds(yard.builds, s)| < 10)
            && (after.reply == Ok(|yard.builds|) ==>
                  after.yard == yard.(builds := yard.builds + [Build(
                    s, commit, config, key, Queued, "", None, Lease(0, 0, None, now), false)]))
            && (after.reply != Ok(|yard.builds|) ==> after.yard == yard)
            && forall i: nat :: i < |yard.builds| ==>
                                  (after.reply == Ok(i) <==>
                                   && validCommit && |key| <= 150 && s < |yard.db.services|
                                   && Same(yard.builds[i], s, commit, key, config))
  {
    hide OpenCount, OpenBuilds;
    OpenCountIsCardinality(yard.builds, s);
  }

  /** A build can be asked to stop exactly while it is open; one that waits ends at once. */
  lemma CancelExactly(yard: Yard, i: nat)
    ensures var after := Cancel(yard, i);
            && (after.reply.Ok? <==> i < |yard.builds| && Underway(yard.builds[i].status))
            && (after.reply.Err? ==> after.yard == yard)
            && (after.reply.Ok? ==>
                  after.yard == yard.(builds := yard.builds[i := yard.builds[i].(
                    cancelRequested := true, status := if yard.builds[i].status.Queued? then Cancelled else Building)]))
  {
  }

  /** The service's source is that branch of that repository, under that installation, and deploys by
      itself. */
  predicate Follows(sources: map<nat, Config>, s: nat, repository: string, branch: string, installation: nat) {
    s in sources && sources[s].autoDeploy && sources[s].installation == installation
    && sources[s].repository == repository && sources[s].branch == branch
  }

  /** A build that a push of this commit queues for service `s`. */
  predicate Pushed(build: Build, s: nat, delivery: string, commit: string, sources: map<nat, Config>, now: Time) {
    && s in sources
    && build == Build(s, commit, sources[s], "webhook:" + delivery, Queued, "", None, Lease(0, 0, None, now), false)
  }

  lemma {:induction false} PushToQueues(
    yard: Yard, delivery: string, repository: string, branch: string, installation: nat, commit: string, validCommit: bool,
    now: Time, n: nat)
    ensures var after := PushTo(yard, delivery, repository, branch, installation, commit, validCommit, now, n).yard;
            && yard.builds <= after.builds && after == yard.(builds := after.builds)
            && forall i :: |yard.builds| <= i < |after.builds| ==>
                             var s := after.builds[i].service;
                             s < n && Follows(yard.sources, s, repository, branch, installation)
                             && Pushed(after.builds[i], s, delivery, commit, yard.sources, now)
  {
    hide Requested, OpenCount;
    if n > 0 {
      PushToQueues(yard, delivery, repository, branch, installation, commit, validCommit, now, n - 1);
    }
  }

  /** A delivery queues builds of the pushed commit for services that follow the branch and for no
      others, notes that it came, and changes nothing else; one that fails or comes again does nothing. */
  lemma PushExactly(
    yard: Yard, delivery: string, repository: string, branch: string, installation: nat, commit: string, validCommit: bool,
    now: Time)
    ensures var after := Push(yard, delivery, repository, branch, installation, commit, validCommit, now);
            && (delivery in yard.deliveries || after.reply.Err? ==> after.yard == yard)
            && (delivery in yard.deliveries ==> after.reply.Ok?)
            && (delivery !in yard.deliveries && after.reply.Ok? ==>
                  && yard.builds <= after.yard.builds
                  && after.yard == yard.(builds := after.yard.builds, deliveries := yard.deliveries + {delivery})
                  && forall i :: |yard.builds| <= i < |after.yard.builds| ==>
                                   var s := after.yard.builds[i].service;
                                   Follows(yard.sources, s, repository, branch, installation)
                                   && Pushed(after.yard.builds[i], s, delivery, commit, yard.sources, now))
  {
    hide PushTo, Pushed, Follows;
    var noted := yard.(deliveries := yard.deliveries + {delivery});
    PushToQueues(noted, delivery, repository, branch, installation, commit, validCommit, now, |yard.db.services|);
  }

  /** The builds before `i` that succeeded and have no deployment recorded. */
  function OlderWaiting(builds: seq<Build>, i: nat): set<nat> {
    set j | 0 <= j < i && j < |builds| && builds[j].status == Succeeded && builds[j].deployment == None
  }

  lemma {:induction false} WaitingIsCardinality(builds: seq<Build>, n: nat)
    requires n <= |builds|
    ensures Waiting(builds, n) == |OlderWaiting(builds, n)|
  {
    if n > 0 {
      WaitingIsCardinality(builds, n - 1);
      var before := OlderWaiting(builds, n - 1);
      if Unrecorded(builds[n - 1]) {
        assert OlderWaiting(builds, n) == before + {n - 1};
      } else {
        assert OlderWaiting(builds, n) == before;
      }
    }
  }

  /** A flush takes a build exactly if it waits for its deployment and fewer than ten older ones do. */
  lemma ChosenExactly(builds: seq<Build>, i: nat)
    ensures Chosen(builds, i) <==>
              && i < |builds| && builds[i].status == Succeeded && builds[i].deployment == None
              && |OlderWaiting(builds, i)| < 10
  {
    if i < |builds| {
      WaitingIsCardinality(builds, i);
    }
  }

  /** The deployment that a hand-over makes: of the image that was read, with the port, health path and
      start command of the build, for its service. */
  lemma HandOverExactly(yard: Yard, i: nat, image: string, valid: bool, resolved: bool, now: Time, d: nat)
    requires HandOver(yard, i, image, valid, resolved, now).reply == Ok(d)
    ensures var after := HandOver(yard, i, image, valid, resolved, now).yard;
            && i < |yard.builds| && yard.builds[i].status.Succeeded? && after.builds == yard.builds
            && d < |after.db.deployments| && after.replies == yard.replies + {(i, d)}
            && after.db.deployments[d].service == yard.builds[i].service
            && after.db.deployments[d].payload.command == Some(yard.builds[i].config.startCommand)
            && after.db.deployments[d].payload.spec.image == StoreModel.Reference(image)
            && after.db.deployments[d].payload.spec.port == yard.builds[i].config.port
            && after.db.deployments[d].payload.spec.healthPath == yard.builds[i].config.healthPath
  {
    hide StoreModel.Prior, StoreModel.PendingCount, StoreModel.ActionPending, BuildKey;
    BuildKeyNotEmpty(i);
  }
}
