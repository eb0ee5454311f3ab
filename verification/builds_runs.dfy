/** Whole runs of builds, deliveries and hand-overs, with crashes anywhere in between. */
module BuildRuns {
  import opened Common
  import opened Leases
  import opened BuildModel
  import StoreModel
  import StoreInvariant
  import StoreRuns
  import StoreHistory
  import StorePromises

  /******* The keys of hand-overs *******/

  lemma {:induction false} DigitsInjective(m: nat, n: nat)
    requires Digits(m) == Digits(n)
    ensures m == n
  {
    var a, b := Digits(m), Digits(n);
    assert a[|a| - 1] == ('0' as int + m % 10) as char && b[|b| - 1] == ('0' as int + n % 10) as char;
    if m >= 10 && n >= 10 {
      assert a[..|a| - 1] == Digits(m / 10) && b[..|b| - 1] == Digits(n / 10);
      DigitsInjective(m / 10, n / 10);
    } else if m >= 10 {
      DigitsNotEmpty(m / 10);
    } else if n >= 10 {
      DigitsNotEmpty(n / 10);
    }
  }

  lemma DigitsNotEmpty(n: nat)
    ensures |Digits(n)| > 0
  {
  }

  lemma BuildKeyInjective(i: nat, j: nat)
    requires BuildKey(i) == BuildKey(j)
    ensures i == j
  {
    assert BuildKey(i)[6..] == Digits(i) && BuildKey(j)[6..] == Digits(j);
    DigitsInjective(i, j);
  }

  lemma BuildKeyNotEmpty(i: nat)
    ensures BuildKey(i) != ""
  {
  }

  /******* Steps *******/

  datatype Step =
    | Elsewhere(event: StoreRuns.Event)
    | DoSaveSource(s: nat, config: Config, valid: bool)
    | DoRequest(s: nat, commit: string, validCommit: bool, key: string, config: Config, now: Time)
    | DoPush(delivery: string, repository: string, branch: string, installation: nat, commit: string, validCommit: bool, now: Time)
    | DoClaim(now: Time)
    | DoReport(i: nat, token: nat, status: BuildStatus, image: string, valid: bool, now: Time)
    | DoCancel(i: nat)
    | DoHandOver(i: nat, image: string, valid: bool, resolved: bool, now: Time)
    | DoRecord(i: nat, d: nat)

  function Perform(yard: Yard, step: Step): Yard {
    match step
    case Elsewhere(event) => yard.(db := StoreRuns.Apply(yard.db, event))
    case DoSaveSource(s, config, valid) => SaveSource(yard, s, config, valid).yard
    case DoRequest(s, commit, validCommit, key, config, now) => Enqueue(yard, s, commit, validCommit, key, config, now).yard
    case DoPush(delivery, repository, branch, installation, commit, validCommit, now) =>
      Push(yard, delivery, repository, branch, installation, commit, validCommit, now).yard
    case DoClaim(now) => Claim(yard, now).yard
    case DoReport(i, token, status, image, valid, now) => Report(yard, i, token, status, image, valid, now).yard
    case DoCancel(i) => Cancel(yard, i).yard
    case DoHandOver(i, image, valid, resolved, now) => HandOver(yard, i, image, valid, resolved, now).yard
    case DoRecord(i, d) => Record(yard, i, d)
  }

  /** Only a deployment that was returned for the build is recorded for it. */
  predicate Legal(yard: Yard, step: Step) {
    && (step.Elsewhere? ==> StoreRuns.Timely(yard.db, step.event))
    && (step.DoHandOver? ==> yard.db.clock <= step.now)
    && (step.DoRecord? ==> (step.i, step.d) in yard.replies)
  }

  /******* The invariant *******/

  predicate SameService(builds: seq<Build>, i: nat, j: nat)
    requires i < |builds| && j < |builds|
  {
    builds[i].service == builds[j].service
  }

  /** The request keys of a service are distinct. */
  ghost predicate KeysOk(builds: seq<Build>) {
    forall i, j :: 0 <= i < j < |builds| && SameService(builds, i, j) && builds[i].key != "" ==> builds[i].key != builds[j].key
  }

  predicate BuildOk(build: Build, lastToken: nat) {
    && LeaseOk(build.lease, lastToken)
    && (build.status.Queued? ==> build.lease.attempt == 0)
    && (build.cancelRequested ==> build.status.Building? || build.status.Cancelled?)
    && (build.deployment.Some? ==> build.status.Succeeded?)
  }

  ghost predicate BuildsOk(builds: seq<Build>, lastToken: nat) {
    forall i :: 0 <= i < |builds| ==> BuildOk(builds[i], lastToken)
  }

  ghost predicate BoundOk(builds: seq<Build>) {
    forall s: nat :: OpenCount(builds, s) <= MAX_OPEN
  }

  /** Deployment `d` was made for build `i`. */
  predicate MadeFor(builds: seq<Build>, deployments: seq<StoreModel.Deployment>, i: nat, d: nat) {
    && i < |builds| && d < |deployments|
    && deployments[d].service == builds[i].service && deployments[d].key == BuildKey(i)
  }

  ghost predicate HandedOver(builds: seq<Build>, replies: set<(nat, nat)>, deployments: seq<StoreModel.Deployment>) {
    && (forall r :: r in replies ==> MadeFor(builds, deployments, r.0, r.1) && builds[r.0].status.Succeeded?)
    && (forall i :: 0 <= i < |builds| && builds[i].deployment.Some? ==> MadeFor(builds, deployments, i, builds[i].deployment.value))
  }

  ghost predicate YardInv(yard: Yard) {
    && StoreInvariant.Inv(yard.db)
    && KeysOk(yard.builds)
    && BuildsOk(yard.builds, yard.lastToken)
    && BoundOk(yard.builds)
    && HandedOver(yard.builds, yard.replies, yard.db.deployments)
  }

  lemma IdleInv(clock: Time)
    ensures YardInv(Idle(StoreModel.Empty(clock)))
  {
    StoreInvariant.EmptyInv(clock);
  }

  /******* How builds change *******/

  /** A build keeps what it is about; a finished one stays finished as it is, and a recorded
      deployment stays recorded. */
  predicate BuildEvolves(before: Build, after: Build) {
    && after.service == before.service && after.commit == before.commit && after.config == before.config && after.key == before.key
    && (!Open(before.status) ==> after.status == before.status)
    && (before.deployment.Some? ==> after.deployment == before.deployment)
    && (before.cancelRequested ==> after.cancelRequested)
    && before.lease.attempt <= after.lease.attempt && before.lease.token <= after.lease.token
  }

  ghost predicate BuildsEvolve(before: seq<Build>, after: seq<Build>) {
    |before| <= |after| && forall i :: 0 <= i < |before| ==> BuildEvolves(before[i], after[i])
  }

  ghost predicate YardEvolves(before: Yard, after: Yard) {
    && BuildsEvolve(before.builds, after.builds)
    && before.deliveries <= after.deliveries && before.replies <= after.replies
    && StoreHistory.Evolves(before.db, after.db)
  }

  lemma EvolvesAfter(a: Yard, b: Yard, c: Yard)
    requires YardEvolves(a, b) && YardEvolves(b, c)
    ensures YardEvolves(a, c)
  {
    hide StoreHistory.Evolves;
    StoreHistory.EvolvesTransitively(a.db, b.db, c.db);
    forall i | 0 <= i < |a.builds| ensures BuildEvolves(a.builds[i], c.builds[i]) {
      assert BuildEvolves(a.builds[i], b.builds[i]) && BuildEvolves(b.builds[i], c.builds[i]);
    }
  }

  lemma SameStore(before: Yard, after: Yard)
    requires after.db == before.db && BuildsEvolve(before.builds, after.builds)
    requires before.deliveries <= after.deliveries && before.replies <= after.replies
    ensures YardEvolves(before, after)
  {
    hide StoreHistory.Evolves;
    StoreHistory.EvolvesReflexively(before.db);
  }

  /** Builds that only evolve keep the hand-overs and the keys. */
  lemma EvolvingKeeps(before: seq<Build>, after: seq<Build>, replies: set<(nat, nat)>, deployments: seq<StoreModel.Deployment>)
    requires BuildsEvolve(before, after) && |before| == |after|
    requires KeysOk(before) && HandedOver(before, replies, deployments)
    requires forall i :: 0 <= i < |after| ==> after[i].deployment == before[i].deployment
    ensures KeysOk(after) && HandedOver(after, replies, deployments)
  {
    hide BuildKey;
    forall i, j | 0 <= i < j < |after| && SameService(after, i, j) && after[i].key != "" ensures after[i].key != after[j].key {
      assert BuildEvolves(before[i], after[i]) && BuildEvolves(before[j], after[j]);
      assert SameService(before, i, j);
    }
    forall r | r in replies ensures MadeFor(after, deployments, r.0, r.1) && after[r.0].status.Succeeded? {
      assert MadeFor(before, deployments, r.0, r.1);
      assert BuildEvolves(before[r.0], after[r.0]);
    }
    forall i | 0 <= i < |after| && after[i].deployment.Some? ensures MadeFor(after, deployments, i, after[i].deployment.value) {
      assert BuildEvolves(before[i], after[i]);
      assert MadeFor(before, deployments, i, before[i].deployment.value);
    }
  }

  /******* Counting open builds *******/

  lemma {:induction false} CountShrinks(before: seq<Build>, after: seq<Build>, s: nat)
    requires |before| == |after|
    requires forall i :: 0 <= i < |before| ==> after[i].service == before[i].service && (Open(after[i].status) ==> Open(before[i].status))
    ensures OpenCount(after, s) <= OpenCount(before, s)
  {
    if |before| > 0 {
      CountShrinks(before[..|before| - 1], after[..|after| - 1], s);
    }
  }

  lemma BoundKept(before: seq<Build>, after: seq<Build>)
    requires BoundOk(before) && |before| == |after|
    requires forall i :: 0 <= i < |before| ==> after[i].service == before[i].service && (Open(after[i].status) ==> Open(before[i].status))
    ensures BoundOk(after)
  {
    forall s: nat ensures OpenCount(after, s) <= MAX_OPEN {
      CountShrinks(before, after, s);
    }
  }

  lemma BoundGrows(builds: seq<Build>, build: Build)
    requires BoundOk(builds) && OpenCount(builds, build.service) < MAX_OPEN
    ensures BoundOk(builds + [build])
  {
    var more := builds + [build];
    assert more[..|more| - 1] == builds;
    forall s: nat ensures OpenCount(more, s) <= MAX_OPEN {
      assert OpenCount(builds, s) <= MAX_OPEN;
    }
  }

  /** One build is changed in place. */
  lemma ChangeOne(yard: Yard, i: nat, build: Build, lastToken: nat)
    requires YardInv(yard) && i < |yard.builds| && yard.lastToken <= lastToken
    requires BuildEvolves(yard.builds[i], build) && BuildOk(build, lastToken) && build.deployment == yard.builds[i].deployment
    requires Open(build.status) ==> Open(yard.builds[i].status)
    ensures YardInv(yard.(builds := yard.builds[i := build], lastToken := lastToken))
    ensures YardEvolves(yard, yard.(builds := yard.builds[i := build], lastToken := lastToken))
  {
    hide StoreInvariant.Inv, HandedOver, KeysOk, BoundOk, StoreHistory.Evolves;
    var after := yard.builds[i := build];
    EvolvingKeeps(yard.builds, after, yard.replies, yard.db.deployments);
    BoundKept(yard.builds, after);
    SameStore(yard, yard.(builds := after, lastToken := lastToken));
  }

  /******* Each step *******/

  lemma RequestInv(yard: Yard, s: nat, commit: string, validCommit: bool, key: string, config: Config, now: Time)
    requires YardInv(yard)
    ensures var after := Enqueue(yard, s, commit, validCommit, key, config, now).yard; YardInv(after) && YardEvolves(yard, after)
  {
    hide StoreInvariant.Inv, HandedOver, KeysOk, BoundOk, StoreHistory.Evolves;
    var after := Enqueue(yard, s, commit, validCommit, key, config, now).yard;
    SameStore(yard, after);
    if after != yard {
      var build := Build(s, commit, config, key, Queued, "", None, Unclaimed(now), false);
      BoundGrows(yard.builds, build);
      NewKey(yard.builds, build);
      HandedOverGrows(yard.builds, build, yard.replies, yard.db.deployments);
    }
  }

  lemma NewKey(builds: seq<Build>, build: Build)
    requires KeysOk(builds) && (build.key == "" || Requested(builds, build.service, build.key).None?)
    ensures KeysOk(builds + [build])
  {
    var more := builds + [build];
    forall i, j | 0 <= i < j < |more| && SameService(more, i, j) && more[i].key != "" ensures more[i].key != more[j].key {
      assert j < |builds| ==> SameService(builds, i, j);
    }
  }

  lemma HandedOverGrows(builds: seq<Build>, build: Build, replies: set<(nat, nat)>, deployments: seq<StoreModel.Deployment>)
    requires HandedOver(builds, replies, deployments) && build.deployment.None?
    ensures HandedOver(builds + [build], replies, deployments)
  {
    hide BuildKey;
    var more := builds + [build];
    forall r | r in replies ensures MadeFor(more, deployments, r.0, r.1) && more[r.0].status.Succeeded? {
      assert MadeFor(builds, deployments, r.0, r.1);
    }
    forall i | 0 <= i < |more| && more[i].deployment.Some? ensures MadeFor(more, deployments, i, more[i].deployment.value) {
      assert i < |builds| ==> MadeFor(builds, deployments, i, builds[i].deployment.value);
    }
  }

  lemma {:induction false} PushToInv(
    yard: Yard, delivery: string, repository: string, branch: string, installation: nat, commit: string, validCommit: bool,
    now: Time, n: nat)
    requires YardInv(yard)
    ensures var after := PushTo(yard, delivery, repository, branch, installation, commit, validCommit, now, n).yard;
            YardInv(after) && YardEvolves(yard, after)
  {
    hide YardInv, YardEvolves, Enqueue;
    if n == 0 {
      YardStays(yard);
    } else {
      var earlier := PushTo(yard, delivery, repository, branch, installation, commit, validCommit, now, n - 1);
      PushToInv(yard, delivery, repository, branch, installation, commit, validCommit, now, n - 1);
      if earlier.reply.Ok? && Wants(yard.sources, n - 1, repository, branch, installation) {
        RequestInv(earlier.yard, n - 1, commit, validCommit, "webhook:" + delivery, yard.sources[n - 1], now);
        EvolvesAfter(yard, earlier.yard,
                     Enqueue(earlier.yard, n - 1, commit, validCommit, "webhook:" + delivery, yard.sources[n - 1], now).yard);
      }
    }
  }

  lemma YardStays(yard: Yard)
    ensures YardEvolves(yard, yard)
  {
    hide StoreHistory.Evolves;
    SameStore(yard, yard);
  }

  lemma PushInv(
    yard: Yard, delivery: string, repository: string, branch: string, installation: nat, commit: string, validCommit: bool, now: Time)
    requires YardInv(yard)
    ensures var after := Push(yard, delivery, repository, branch, installation, commit, validCommit, now).yard;
            YardInv(after) && YardEvolves(yard, after)
  {
    hide PushTo, StoreInvariant.Inv, HandedOver, KeysOk, BoundOk, BuildsOk, StoreHistory.Evolves;
    YardStays(yard);
    var noted := yard.(deliveries := yard.deliveries + {delivery});
    SameStore(yard, noted);
    PushToInv(noted, delivery, repository, branch, installation, commit, validCommit, now, |yard.db.services|);
    EvolvesAfter(yard, noted,
                 PushTo(noted, delivery, repository, branch, installation, commit, validCommit, now, |yard.db.services|).yard);
  }

  lemma SweepInv(yard: Yard, now: Time)
    requires YardInv(yard)
    ensures var after := yard.(builds := Sweep(yard.builds, now)); YardInv(after) && YardEvolves(yard, after)
  {
    hide StoreInvariant.Inv, HandedOver, KeysOk, BoundOk, StoreHistory.Evolves;
    var after := Sweep(yard.builds, now);
    EvolvingKeeps(yard.builds, after, yard.replies, yard.db.deployments);
    BoundKept(yard.builds, after);
    SameStore(yard, yard.(builds := after));
  }

  lemma ClaimInv(yard: Yard, now: Time)
    requires YardInv(yard)
    ensures YardInv(Claim(yard, now).yard) && YardEvolves(yard, Claim(yard, now).yard)
  {
    hide StoreInvariant.Inv, HandedOver, KeysOk, BoundOk, YardEvolves, Sweep, Backoff;
    SweepInv(yard, now);
    var swept := yard.(builds := Sweep(yard.builds, now));
    var i := FirstReady(swept.builds, now);
    if i.Some? {
      SweptSurvivor(yard.builds, now, i.value);
      var build := swept.builds[i.value];
      var claimed := build.(status := Building, lease := NextBuildAttempt(build.lease, yard.lastToken + 1, now));
      ChangeOne(swept, i.value, claimed, yard.lastToken + 1);
      EvolvesAfter(yard, swept, Claim(yard, now).yard);
    }
  }

  /** A build that is still open after the sweep has attempts left. */
  lemma SweptSurvivor(builds: seq<Build>, now: Time, i: nat)
    requires i < |builds| && Ready(Sweep(builds, now)[i], now)
    ensures Sweep(builds, now)[i].lease.attempt < MAX_ATTEMPTS
  {
  }

  lemma ReportInv(yard: Yard, i: nat, token: nat, status: BuildStatus, image: string, valid: bool, now: Time)
    requires YardInv(yard)
    ensures var after := Report(yard, i, token, status, image, valid, now).yard; YardInv(after) && YardEvolves(yard, after)
  {
    hide StoreInvariant.Inv, HandedOver, KeysOk, BoundOk, YardEvolves;
    var after := Report(yard, i, token, status, image, valid, now);
    YardStays(yard);
    if after.reply.Ok? {
      ChangeOne(yard, i, after.yard.builds[i], yard.lastToken);
    }
  }

  lemma CancelInv(yard: Yard, i: nat)
    requires YardInv(yard)
    ensures YardInv(Cancel(yard, i).yard) && YardEvolves(yard, Cancel(yard, i).yard)
  {
    hide StoreInvariant.Inv, HandedOver, KeysOk, BoundOk, YardEvolves;
    var after := Cancel(yard, i);
    YardStays(yard);
    if after.reply.Ok? {
      ChangeOne(yard, i, after.yard.builds[i], yard.lastToken);
    }
  }

  /** The store moves on by itself. */
  lemma StoreMoves(yard: Yard, event: StoreRuns.Event)
    requires YardInv(yard) && StoreRuns.Timely(yard.db, event)
    ensures var after := yard.(db := StoreRuns.Apply(yard.db, event)); YardInv(after) && YardEvolves(yard, after)
  {
    hide StoreInvariant.Inv, KeysOk, BoundOk, BuildsOk, StoreRuns.Apply;
    StoreRuns.ApplyInv(yard.db, event);
    StoreHistory.ApplyEvolves(yard.db, event);
    DeploymentsKeep(yard, StoreRuns.Apply(yard.db, event));
  }

  lemma DeploymentsKeep(yard: Yard, db: StoreModel.Db)
    requires HandedOver(yard.builds, yard.replies, yard.db.deployments) && StoreHistory.Evolves(yard.db, db)
    ensures HandedOver(yard.builds, yard.replies, db.deployments)
  {
    hide BuildKey, StoreHistory.ActionsEvolve, StoreHistory.RunsEvolve, StoreHistory.ServicesEvolve;
    forall i: nat, d: nat | MadeFor(yard.builds, yard.db.deployments, i, d) ensures MadeFor(yard.builds, db.deployments, i, d) {
      assert StoreHistory.RowEvolves(yard.db.deployments[d], db.deployments[d]);
    }
  }

  lemma HandOverInv(yard: Yard, i: nat, image: string, valid: bool, resolved: bool, now: Time)
    requires YardInv(yard) && yard.db.clock <= now
    ensures var after := HandOver(yard, i, image, valid, resolved, now).yard; YardInv(after) && YardEvolves(yard, after)
  {
    hide StoreInvariant.Inv, KeysOk, BoundOk, BuildsOk, StoreModel.Enqueue, BuildKey, StoreHistory.Evolves;
    YardStays(yard);
    if i < |yard.builds| && yard.builds[i].status.Succeeded? {
      var event := HandOverEvent(yard.builds[i], i, image, valid, resolved, now);
      StoreMoves(yard, event);
      HandOverReply(yard, i, image, valid, resolved, now);
    }
  }

  lemma HandOverReply(yard: Yard, i: nat, image: string, valid: bool, resolved: bool, now: Time)
    requires i < |yard.builds| && yard.builds[i].status.Succeeded?
    ensures var after := HandOver(yard, i, image, valid, resolved, now);
            && after.yard.db == StoreRuns.Apply(yard.db, HandOverEvent(yard.builds[i], i, image, valid, resolved, now))
            && (after.reply.Ok? ==> MadeFor(yard.builds, after.yard.db.deployments, i, after.reply.value))
  {
    hide StoreModel.Prior, BuildKey;
    BuildKeyNotEmpty(i);
  }

  lemma RecordInv(yard: Yard, i: nat, d: nat)
    requires YardInv(yard) && (i, d) in yard.replies
    ensures YardInv(Record(yard, i, d)) && YardEvolves(yard, Record(yard, i, d))
  {
    hide StoreInvariant.Inv, BoundOk, StoreHistory.Evolves, BuildKey;
    assert MadeFor(yard.builds, yard.db.deployments, i, d) && yard.builds[i].status.Succeeded?;
    var after := Record(yard, i, d);
    SameStore(yard, after);
    BoundKept(yard.builds, after.builds);
    forall j, k | 0 <= j < k < |after.builds| && SameService(after.builds, j, k) && after.builds[j].key != ""
      ensures after.builds[j].key != after.builds[k].key
    {
      assert SameService(yard.builds, j, k);
    }
  }

  lemma SaveSourceInv(yard: Yard, s: nat, config: Config, valid: bool)
    requires YardInv(yard)
    ensures YardInv(SaveSource(yard, s, config, valid).yard) && YardEvolves(yard, SaveSource(yard, s, config, valid).yard)
  {
    hide StoreInvariant.Inv, KeysOk, BoundOk, BuildsOk, HandedOver, StoreHistory.Evolves;
    SameStore(yard, SaveSource(yard, s, config, valid).yard);
  }

  lemma StepInv(yard: Yard, step: Step)
    requires YardInv(yard) && Legal(yard, step)
    ensures YardInv(Perform(yard, step)) && YardEvolves(yard, Perform(yard, step))
  {
    hide YardInv, YardEvolves;
    match step
    case Elsewhere(event) => StoreMoves(yard, event);
    case DoSaveSource(s, config, valid) => SaveSourceInv(yard, s, config, valid);
    case DoRequest(s, commit, validCommit, key, config, now) => RequestInv(yard, s, commit, validCommit, key, config, now);
    case DoPush(delivery, repository, branch, installation, commit, validCommit, now) =>
      PushInv(yard, delivery, repository, branch, installation, commit, validCommit, now);
    case DoClaim(now) => ClaimInv(yard, now);
    case DoReport(i, token, status, image, valid, now) => ReportInv(yard, i, token, status, image, valid, now);
    case DoCancel(i) => CancelInv(yard, i);
    case DoHandOver(i, image, valid, resolved, now) => HandOverInv(yard, i, image, valid, resolved, now);
    case DoRecord(i, d) => RecordInv(yard, i, d);
  }

  /******* Runs *******/

  function Run(yard: Yard, steps: seq<Step>): Yard
    decreases |steps|
  {
    if |steps| == 0 then yard else Run(Perform(yard, steps[0]), steps[1..])
  }

  predicate LegalRun(yard: Yard, steps: seq<Step>)
    decreases |steps|
  {
    |steps| > 0 ==> Legal(yard, steps[0]) && LegalRun(Perform(yard, steps[0]), steps[1..])
  }

  lemma {:induction false} RunInv(yard: Yard, steps: seq<Step>)
    requires YardInv(yard) && LegalRun(yard, steps)
    ensures YardInv(Run(yard, steps)) && YardEvolves(yard, Run(yard, steps))
    decreases |steps|
  {
    hide YardInv, YardEvolves, Perform;
    if |steps| == 0 {
      YardStays(yard);
    } else {
      StepInv(yard, steps[0]);
      RunInv(Perform(yard, steps[0]), steps[1..]);
      EvolvesAfter(yard, Perform(yard, steps[0]), Run(yard, steps));
    }
  }

  /******* The promises *******/

  /** However flushes interleave and crash: at most one deployment was made for a build, and a
      recorded one is that one. */
  lemma OneDeploymentPerBuild(clock: Time, steps: seq<Step>, i: nat, d: nat, e: nat)
    requires LegalRun(Idle(StoreModel.Empty(clock)), steps)
    requires var yard := Run(Idle(StoreModel.Empty(clock)), steps);
             && MadeFor(yard.builds, yard.db.deployments, i, d)
             && (MadeFor(yard.builds, yard.db.deployments, i, e) || (i < |yard.builds| && yard.builds[i].deployment == Some(e)))
    ensures d == e
  {
    hide Run, LegalRun, StoreInvariant.Inv, MadeFor;
    IdleInv(clock);
    RunInv(Idle(StoreModel.Empty(clock)), steps);
    var yard := Run(Idle(StoreModel.Empty(clock)), steps);
    assert MadeFor(yard.builds, yard.db.deployments, i, e);
    MadeOnce(yard, i, d, e);
  }

  lemma MadeOnce(yard: Yard, i: nat, d: nat, e: nat)
    requires YardInv(yard) && MadeFor(yard.builds, yard.db.deployments, i, d) && MadeFor(yard.builds, yard.db.deployments, i, e)
    ensures d == e
  {
    hide StoreInvariant.Inv, BuildKey, KeysOk, BoundOk, BuildsOk, HandedOver;
    BuildKeyNotEmpty(i);
    StorePromises.DistinctKeys(yard.db);
    assert d < e ==> StoreInvariant.SameQueue(yard.db.deployments, d, e);
    assert e < d ==> StoreInvariant.SameQueue(yard.db.deployments, e, d);
  }

  /** No deployment is made for two builds. */
  lemma OneBuildPerDeployment(yard: Yard, i: nat, j: nat, d: nat)
    requires MadeFor(yard.builds, yard.db.deployments, i, d) && MadeFor(yard.builds, yard.db.deployments, j, d)
    ensures i == j
  {
    hide BuildKey;
    BuildKeyInjective(i, j);
  }

  /** A build that was asked to stop never succeeds, is never deployed from then on, and its queue
      and its attempts stay bounded. */
  lemma CancelledNeverSucceeds(yard: Yard, steps: seq<Step>, i: nat)
    requires YardInv(yard) && LegalRun(yard, steps) && i < |yard.builds| && yard.builds[i].cancelRequested
    ensures var later := Run(yard, steps);
            && i < |later.builds| && !later.builds[i].status.Succeeded? && later.builds[i].deployment.None?
            && forall d: nat :: (i, d) !in later.replies
  {
    hide Run, LegalRun, StoreInvariant.Inv, StoreHistory.Evolves;
    RunInv(yard, steps);
    var later := Run(yard, steps);
    assert BuildEvolves(yard.builds[i], later.builds[i]) && BuildOk(later.builds[i], later.lastToken);
  }

  /** A cancellation is accepted exactly for an open build and then prevails. */
  lemma CancelPrevails(yard: Yard, i: nat, steps: seq<Step>)
    requires YardInv(yard) && LegalRun(Cancel(yard, i).yard, steps)
    ensures Cancel(yard, i).reply.Ok? <==> i < |yard.builds| && Open(yard.builds[i].status)
    ensures Cancel(yard, i).reply.Ok? ==>
              var later := Run(Cancel(yard, i).yard, steps);
              && i < |later.builds| && !later.builds[i].status.Succeeded? && later.builds[i].deployment.None?
              && forall d: nat :: (i, d) !in later.replies
  {
    hide Run, LegalRun, YardInv, YardEvolves;
    CancelInv(yard, i);
    if Cancel(yard, i).reply.Ok? {
      CancelledNeverSucceeds(Cancel(yard, i).yard, steps, i);
    }
  }

  lemma BoundedBuilds(clock: Time, steps: seq<Step>)
    requires LegalRun(Idle(StoreModel.Empty(clock)), steps)
    ensures var yard := Run(Idle(StoreModel.Empty(clock)), steps);
            && (forall s: nat :: OpenCount(yard.builds, s) <= MAX_OPEN)
            && (forall i :: 0 <= i < |yard.builds| ==> yard.builds[i].lease.attempt <= MAX_ATTEMPTS)
  {
    hide Run, LegalRun, StoreInvariant.Inv, HandedOver, KeysOk;
    IdleInv(clock);
    RunInv(Idle(StoreModel.Empty(clock)), steps);
    var yard := Run(Idle(StoreModel.Empty(clock)), steps);
    forall i | 0 <= i < |yard.builds| ensures yard.builds[i].lease.attempt <= MAX_ATTEMPTS {
      assert BuildOk(yard.builds[i], yard.lastToken);
    }
  }

  /** A delivery that was accepted once adds nothing ever again. */
  lemma RepeatedDelivery(
    yard: Yard, delivery: string, repository: string, branch: string, installation: nat, commit: string, validCommit: bool,
    now: Time, steps: seq<Step>,
    repository': string, branch': string, installation': nat, commit': string, validCommit': bool, now': Time)
    requires YardInv(yard)
    requires Push(yard, delivery, repository, branch, installation, commit, validCommit, now).reply.Ok?
    requires LegalRun(Push(yard, delivery, repository, branch, installation, commit, validCommit, now).yard, steps)
    ensures var later := Run(Push(yard, delivery, repository, branch, installation, commit, validCommit, now).yard, steps);
            Push(later, delivery, repository', branch', installation', commit', validCommit', now') == Outcome(later, Ok(Unit))
  {
    hide Run, LegalRun, YardInv, PushTo, StoreHistory.Evolves;
    var pushed := Push(yard, delivery, repository, branch, installation, commit, validCommit, now).yard;
    PushInv(yard, delivery, repository, branch, installation, commit, validCommit, now);
    RunInv(pushed, steps);
    DeliveryNoted(yard, delivery, repository, branch, installation, commit, validCommit, now);
  }

  lemma DeliveryNoted(
    yard: Yard, delivery: string, repository: string, branch: string, installation: nat, commit: string, validCommit: bool, now: Time)
    requires YardInv(yard)
    requires Push(yard, delivery, repository, branch, installation, commit, validCommit, now).reply.Ok?
    ensures delivery in Push(yard, delivery, repository, branch, installation, commit, validCommit, now).yard.deliveries
  {
    hide PushTo, StoreHistory.Evolves, StoreInvariant.Inv, HandedOver, KeysOk, BoundOk, BuildsOk;
    var noted := yard.(deliveries := yard.deliveries + {delivery});
    PushToInv(noted, delivery, repository, branch, installation, commit, validCommit, now, |yard.db.services|);
  }

  /** The build was requested for the service under this key. */
  predicate From(build: Build, s: nat, key: string) {
    build.service == s && build.key == key
  }

  /** There is a build of this commit for the service under the delivery's key. */
  ghost predicate BuiltFor(builds: seq<Build>, s: nat, key: string, commit: string, config: Config) {
    exists i :: 0 <= i < |builds| && builds[i].service == s && builds[i].key == key && builds[i].commit == commit
                && builds[i].config == config
  }

  lemma StillBuiltFor(before: Yard, after: Yard, s: nat, key: string, commit: string, config: Config)
    requires YardEvolves(before, after) && BuiltFor(before.builds, s, key, commit, config)
    ensures BuiltFor(after.builds, s, key, commit, config)
  {
    hide StoreHistory.Evolves;
    var i :| 0 <= i < |before.builds| && before.builds[i].service == s && before.builds[i].key == key
             && before.builds[i].commit == commit && before.builds[i].config == config;
    assert BuildEvolves(before.builds[i], after.builds[i]);
  }

  lemma RequestedIsBuilt(yard: Yard, s: nat, commit: string, validCommit: bool, key: string, config: Config, now: Time)
    requires key != "" && Enqueue(yard, s, commit, validCommit, key, config, now).reply.Ok?
    ensures BuiltFor(Enqueue(yard, s, commit, validCommit, key, config, now).yard.builds, s, key, commit, config)
  {
    hide OpenCount;
    var after := Enqueue(yard, s, commit, validCommit, key, config, now);
    var build := after.yard.builds[after.reply.value];
    assert build.service == s && build.key == key && build.commit == commit && build.config == config;
  }

  lemma {:induction false} PushedTo(
    yard: Yard, delivery: string, repository: string, branch: string, installation: nat, commit: string, validCommit: bool,
    now: Time, n: nat, s: nat)
    requires YardInv(yard) && s < n && Wants(yard.sources, s, repository, branch, installation)
    requires PushTo(yard, delivery, repository, branch, installation, commit, validCommit, now, n).reply.Ok?
    ensures BuiltFor(PushTo(yard, delivery, repository, branch, installation, commit, validCommit, now, n).yard.builds,
                     s, "webhook:" + delivery, commit, yard.sources[s])
  {
    hide YardInv, YardEvolves, Enqueue, BuiltFor;
    var earlier := PushTo(yard, delivery, repository, branch, installation, commit, validCommit, now, n - 1);
    PushToInv(yard, delivery, repository, branch, installation, commit, validCommit, now, n - 1);
    SourcesStay(yard, delivery, repository, branch, installation, commit, validCommit, now, n - 1);
    if s == n - 1 {
      RequestedIsBuilt(earlier.yard, s, commit, validCommit, "webhook:" + delivery, yard.sources[s], now);
    } else {
      PushedTo(yard, delivery, repository, branch, installation, commit, validCommit, now, n - 1, s);
      if Wants(yard.sources, n - 1, repository, branch, installation) {
        RequestInv(earlier.yard, n - 1, commit, validCommit, "webhook:" + delivery, yard.sources[n - 1], now);
        StillBuiltFor(earlier.yard,
                      Enqueue(earlier.yard, n - 1, commit, validCommit, "webhook:" + delivery, yard.sources[n - 1], now).yard,
                      s, "webhook:" + delivery, commit, yard.sources[s]);
      }
    }
  }

  lemma {:induction false} SourcesStay(
    yard: Yard, delivery: string, repository: string, branch: string, installation: nat, commit: string, validCommit: bool,
    now: Time, n: nat)
    ensures PushTo(yard, delivery, repository, branch, installation, commit, validCommit, now, n).yard.sources == yard.sources
  {
    if n > 0 {
      SourcesStay(yard, delivery, repository, branch, installation, commit, validCommit, now, n - 1);
    }
  }

  /** An accepted new delivery leaves every service that follows the branch with a build of the
      pushed commit: exactly one, as the keys of a service are distinct. */
  lemma PushReachesEveryFollower(
    yard: Yard, delivery: string, repository: string, branch: string, installation: nat, commit: string, validCommit: bool,
    now: Time, s: nat)
    requires YardInv(yard) && delivery !in yard.deliveries
    requires s < |yard.db.services| && Wants(yard.sources, s, repository, branch, installation)
    requires Push(yard, delivery, repository, branch, installation, commit, validCommit, now).reply.Ok?
    ensures var after := Push(yard, delivery, repository, branch, installation, commit, validCommit, now).yard;
            && BuiltFor(after.builds, s, "webhook:" + delivery, commit, yard.sources[s])
            && forall i, j :: 0 <= i < j < |after.builds| ==>
                                !(From(after.builds[i], s, "webhook:" + delivery) && From(after.builds[j], s, "webhook:" + delivery))
  {
    hide StoreInvariant.Inv, BoundOk, BuildsOk, HandedOver, PushTo, YardEvolves, BuiltFor;
    var noted := yard.(deliveries := yard.deliveries + {delivery});
    PushedTo(noted, delivery, repository, branch, installation, commit, validCommit, now, |yard.db.services|, s);
    PushInv(yard, delivery, repository, branch, installation, commit, validCommit, now);
    var after := Push(yard, delivery, repository, branch, installation, commit, validCommit, now).yard;
    forall i, j | 0 <= i < j < |after.builds|
      ensures !(From(after.builds[i], s, "webhook:" + delivery) && From(after.builds[j], s, "webhook:" + delivery))
    {
      assert SameService(after.builds, i, j) <==> after.builds[i].service == after.builds[j].service;
    }
  }

  /** A crash between the two commits is made good by any later flush: asked again for the same
      image, the store returns the same deployment and adds none, unless the start command is no
      longer valid.  Asked for another image, as a flush does when the build's image was reported
      anew in between, it refuses. */
  lemma HandOverRecovers(
    yard: Yard, i: nat, image: string, valid: bool, resolved: bool, now: Time, d: nat, steps: seq<Step>,
    again: string, valid': bool, resolved': bool, now': Time)
    requires YardInv(yard) && yard.db.clock <= now
    requires HandOver(yard, i, image, valid, resolved, now).reply == Ok(d)
    requires LegalRun(HandOver(yard, i, image, valid, resolved, now).yard, steps)
    requires Run(HandOver(yard, i, image, valid, resolved, now).yard, steps).db.clock <= now'
    ensures var later := Run(HandOver(yard, i, image, valid, resolved, now).yard, steps);
            var retry := HandOver(later, i, again, valid', resolved', now');
            && retry.yard.db.deployments == later.db.deployments
            && (retry.reply == Ok(d) <==> again == image && valid')
            && (retry.reply.Ok? <==> again == image && valid')
  {
    hide Run, LegalRun, YardInv, YardEvolves, HandOver, StoreModel.Enqueue;
    var first := HandOver(yard, i, image, valid, resolved, now);
    HandOverInv(yard, i, image, valid, resolved, now);
    RunInv(first.yard, steps);
    var later := Run(first.yard, steps);
    Accepted(yard, i, image, valid, resolved, now, d);
    StillThere(first.yard, later, i, d);
    AskedAgain(later, i, again, valid', resolved', now', d, image);
  }

  /** What an accepted hand-over says of the build and of the deployment. */
  lemma Accepted(yard: Yard, i: nat, image: string, valid: bool, resolved: bool, now: Time, d: nat)
    requires HandOver(yard, i, image, valid, resolved, now).reply == Ok(d)
    ensures i < |yard.builds| && yard.builds[i].status.Succeeded? && i < |HandOver(yard, i, image, valid, resolved, now).yard.builds|
    ensures HandOver(yard, i, image, valid, resolved, now).yard.builds == yard.builds
    ensures Deployable(HandOver(yard, i, image, valid, resolved, now).yard, i, image, d)
  {
    hide StoreModel.Enqueue, BuildKey;
    var build := yard.builds[i];
    BuildKeyNotEmpty(i);
    var step := HandOverEvent(build, i, image, valid, resolved, now).step;
    StorePromises.EnqueuedRow(
      StoreRuns.Tick(yard.db, now), build.service, step.spec, step.command, step.key, valid, resolved,
      HandOver(yard, i, image, valid, resolved, now).yard.db, d);
  }

  /** The deployment of the build's image is there, and the service takes deployments of builds. */
  predicate Deployable(yard: Yard, i: nat, image: string, d: nat) {
    && i < |yard.builds| && yard.builds[i].status.Succeeded?
    && MadeFor(yard.builds, yard.db.deployments, i, d)
    && var build := yard.builds[i];
       && build.service < |yard.db.services|
       && (yard.db.services[build.service].workload.Cron? ==> yard.db.services[build.service].schedule != "")
       && !StoreModel.IsData(yard.db.services[build.service].kind)
       && |BuildKey(i)| <= 128
       && yard.db.deployments[d].payload == StoreModel.Payload(
            StoreModel.Spec(StoreModel.Reference(image), build.config.port, build.config.healthPath), Some(build.config.startCommand))
  }

  lemma StillThere(yard: Yard, later: Yard, i: nat, d: nat)
    requires YardEvolves(yard, later)
    ensures forall image :: Deployable(yard, i, image, d) ==> Deployable(later, i, image, d)
  {
    hide BuildKey, StoreHistory.ActionsEvolve, StoreHistory.RunsEvolve;
    forall image | Deployable(yard, i, image, d) ensures Deployable(later, i, image, d) {
      assert BuildEvolves(yard.builds[i], later.builds[i]);
      assert StoreHistory.RowEvolves(yard.db.deployments[d], later.db.deployments[d]);
      assert StoreHistory.ServiceEvolves(yard.db.services[yard.builds[i].service], later.db.services[yard.builds[i].service]);
    }
  }

  lemma AskedAgain(later: Yard, i: nat, again: string, valid: bool, resolved: bool, now: Time, d: nat, image: string)
    requires YardInv(later) && Deployable(later, i, image, d)
    ensures var retry := HandOver(later, i, again, valid, resolved, now);
            && retry.yard.db.deployments == later.db.deployments
            && (retry.reply == Ok(d) <==> again == image && valid)
            && (retry.reply.Ok? <==> again == image && valid)
  {
    hide StoreInvariant.Inv, BuildKey, KeysOk, BoundOk, BuildsOk, HandedOver;
    BuildKeyNotEmpty(i);
    StorePromises.DistinctKeys(later.db);
    StorePromises.PriorIsFirst(later.db.deployments, later.builds[i].service, BuildKey(i), d);
  }
}
