/** A concrete run in which a build's deployment can no longer be recorded. */
module BuildExamples {
  import opened Common
  import opened Leases
  import opened BuildModel
  import opened BuildRuns
  import StoreModel
  import StoreRuns

  function Source(): Config {
    Config("owner/app", 1, "main", "run", 80, "/", true)
  }

  function Made(status: BuildStatus, image: string): Build {
    Build(0, "c", Source(), "", status, image, None, Lease(1, 1, Some(BUILD_WINDOW), 5 * SECOND), false)
  }

  function Service(): StoreModel.Service {
    StoreModel.NewService(StoreModel.Scope(0, "production"), StoreModel.Http, StoreModel.Web, StoreModel.Settings(None, "", 80))
  }

  function OneService(): StoreModel.Db {
    StoreModel.Empty(0).(services := [Service()])
  }

  /** The build is claimed, reported as succeeded with image "a", and its deployment requested. */
  function UpToTheCrash(): seq<Step> {
    [Elsewhere(StoreRuns.Event(0, StoreRuns.DoCreateCompute(StoreModel.Scope(0, "production"), StoreModel.Web)))]
    + ([DoRequest(0, "c", true, "", Source(), 0)] + ([DoClaim(0)] + ([DoReport(0, 1, Succeeded, "a", true, 0)]
    + ([DoHandOver(0, "a", true, true, 0)] + []))))
  }

  lemma AfterOne(yard: Yard, step: Step, rest: seq<Step>)
    ensures Run(yard, [step] + rest) == Run(Perform(yard, step), rest)
    ensures LegalRun(yard, [step] + rest) <==> Legal(yard, step) && LegalRun(Perform(yard, step), rest)
  {
    hide Perform, Legal;
    assert ([step] + rest)[1..] == rest;
  }

  function Succeeding(): Yard {
    Idle(OneService()).(builds := [Made(Succeeded, "a")], lastToken := 1)
  }

  lemma UpToSuccess(rest: seq<Step>)
    ensures var yard := Idle(StoreModel.Empty(0));
            var steps := [Elsewhere(StoreRuns.Event(0, StoreRuns.DoCreateCompute(StoreModel.Scope(0, "production"), StoreModel.Web)))]
                         + ([DoRequest(0, "c", true, "", Source(), 0)] + ([DoClaim(0)]
                         + ([DoReport(0, 1, Succeeded, "a", true, 0)] + rest)));
            Run(yard, steps) == Run(Succeeding(), rest) && (LegalRun(yard, steps) <==> LegalRun(Succeeding(), rest))
  {
    hide Run, LegalRun;
    var create := Elsewhere(StoreRuns.Event(0, StoreRuns.DoCreateCompute(StoreModel.Scope(0, "production"), StoreModel.Web)));
    var request, report := DoRequest(0, "c", true, "", Source(), 0), DoReport(0, 1, Succeeded, "a", true, 0);
    var started := Idle(StoreModel.Empty(0));
    AfterOne(started, create, [request] + ([DoClaim(0)] + ([report] + rest)));
    assert Perform(started, create) == Idle(OneService());
    AfterOne(Idle(OneService()), request, [DoClaim(0)] + ([report] + rest));
    RequestOne();
    var waiting := Build(0, "c", Source(), "", Queued, "", None, Unclaimed(0), false);
    AfterOne(Idle(OneService()).(builds := [waiting]), DoClaim(0), [report] + rest);
    ClaimOne();
    var running := Idle(OneService()).(builds := [Made(Building, "")], lastToken := 1);
    AfterOne(running, report, rest);
    assert Perform(running, report) == Succeeding();
    assert Legal(started, create);
  }

  lemma NoSteps(yard: Yard)
    ensures Run(yard, []) == yard && LegalRun(yard, [])
  {
  }

  lemma RequestOne()
    ensures Enqueue(Idle(OneService()), 0, "c", true, "", Source(), 0).yard
         == Idle(OneService()).(builds := [Build(0, "c", Source(), "", Queued, "", None, Unclaimed(0), false)])
  {
    assert OpenCount([], 0) == 0;
  }

  lemma ClaimOne()
    ensures Claim(Idle(OneService()).(builds := [Build(0, "c", Source(), "", Queued, "", None, Unclaimed(0), false)]), 0).yard
         == Idle(OneService()).(builds := [Made(Building, "")], lastToken := 1)
  {
    var builds := [Build(0, "c", Source(), "", Queued, "", None, Unclaimed(0), false)];
    assert Sweep(builds, 0) == builds;
    assert FirstReady(builds, 0) == Some(0);
    assert Backoff(0) == 5 * SECOND;
  }

  lemma FirstHandOver()
    ensures HandOver(Succeeding(), 0, "a", true, true, 0).reply == Ok(0)
    ensures HandOver(Succeeding(), 0, "a", true, true, 0).yard.builds == [Made(Succeeded, "a")]
    ensures HandOver(Succeeding(), 0, "a", true, true, 0).yard.db.clock == 0
  {
    KeyIsShort();
    BuildKeyNotEmpty(0);
    assert StoreModel.PendingCount([], 0) == 0;
    assert StoreModel.Prior([], 0, BuildKey(0)) == None;
  }

  lemma KeyIsShort()
    ensures |BuildKey(0)| <= 128
  {
    assert |Digits(0)| == 1;
  }

  /** The flush crashes before it records the deployment, the build is reported again with image
      "b", and from then on every flush is refused. */
  lemma ReportedAnew()
    ensures var yard := Run(Idle(StoreModel.Empty(0)), UpToTheCrash());
            var anew := Report(yard, 0, 1, Succeeded, "b", true, 0);
            && LegalRun(Idle(StoreModel.Empty(0)), UpToTheCrash()) && anew.reply.Ok?
            && anew.yard.builds == [Made(Succeeded, "b")]
            && HandOver(anew.yard, 0, "b", true, true, 0).reply.Err?
  {
    hide Run, LegalRun, HandOver, UpToTheCrash, YardInv;
    var first := HandOver(Succeeding(), 0, "a", true, true, 0).yard;
    TheRun();
    FirstHandOver();
    var report := DoReport(0, 1, Succeeded, "b", true, 0);
    AfterOne(first, report, []);
    NoSteps(Report(first, 0, 1, Succeeded, "b", true, 0).yard);
    HandOverRecovers(Succeeding(), 0, "a", true, true, 0, 0, [report] + [], "b", true, true, 0);
  }

  lemma TheRun()
    ensures YardInv(Succeeding())
    ensures LegalRun(Idle(StoreModel.Empty(0)), UpToTheCrash())
    ensures Run(Idle(StoreModel.Empty(0)), UpToTheCrash()) == HandOver(Succeeding(), 0, "a", true, true, 0).yard
  {
    hide YardInv, HandOver;
    var hand := DoHandOver(0, "a", true, true, 0);
    UpToSuccess([]);
    IdleInv(0);
    RunInv(Idle(StoreModel.Empty(0)),
           [Elsewhere(StoreRuns.Event(0, StoreRuns.DoCreateCompute(StoreModel.Scope(0, "production"), StoreModel.Web)))]
           + ([DoRequest(0, "c", true, "", Source(), 0)] + ([DoClaim(0)] + ([DoReport(0, 1, Succeeded, "a", true, 0)] + []))));
    UpToSuccess([hand] + []);
    AfterOne(Succeeding(), hand, []);
  }
}
