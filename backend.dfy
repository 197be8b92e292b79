/** The API server's own logic: the two R² classifiers, the loop of
    `/api/predict-all` over the shared prediction service, and the loop and
    summary of `/api/evaluate-all`. */
module Backend {
  import opened Wrappers
  import opened Errors
  import opened Calendar
  import opened Config
  import opened Predictor
  import Evaluation
  import opened Features

  /** `performance_level`: "poor", "fair", "good" or "excellent". */
  datatype PerformanceLevel = Poor | Fair | Good | Excellent

  /** calculate_performance_level, branch for branch. */
  function CalculatePerformanceLevel(r2: real): (level: PerformanceLevel)
    ensures level == Poor <==> r2 < 0.3
    ensures level == Fair <==> 0.3 <= r2 < 0.5
    ensures level == Good <==> 0.5 <= r2 < 0.7
    ensures level == Excellent <==> r2 >= 0.7
  {
    if r2 < 0.0 then Poor
    else if r2 < 0.3 then Poor
    else if r2 < 0.5 then Fair
    else if r2 < 0.7 then Good
    else if r2 < 0.9 then Excellent
    else Excellent
  }

  function Rank(level: PerformanceLevel): nat {
    match level
    case Poor => 0
    case Fair => 1
    case Good => 2
    case Excellent => 3
  }

  /** A higher R² never gets a lower level. */
  lemma PerformanceLevelMonotone(a: real, b: real)
    requires a <= b
    ensures Rank(CalculatePerformanceLevel(a)) <= Rank(CalculatePerformanceLevel(b))
  {
  }

  /** `overfitting_risk`: "low", "medium" or "high". */
  datatype OverfittingRisk = LowRisk | MediumRisk | HighRisk

  /** calculate_overfitting_risk. */
  function CalculateOverfittingRisk(trainR2: real, testR2: real): (risk: OverfittingRisk)
    ensures risk == HighRisk <==> Evaluation.Abs(trainR2 - testR2) > 0.2
    ensures risk == MediumRisk <==> 0.1 < Evaluation.Abs(trainR2 - testR2) <= 0.2
    ensures risk == LowRisk <==> Evaluation.Abs(trainR2 - testR2) <= 0.1
  {
    var diff := Evaluation.Abs(trainR2 - testR2);
    if diff > 0.2 then HighRisk
    else if diff > 0.1 then MediumRisk
    else LowRisk
  }

  /** Only the size of the gap matters, not which side is higher. */
  lemma OverfittingRiskSymmetric(trainR2: real, testR2: real)
    ensures CalculateOverfittingRisk(trainR2, testR2) == CalculateOverfittingRisk(testR2, trainR2)
  {
    assert Evaluation.Abs(trainR2 - testR2) == Evaluation.Abs(testR2 - trainR2);
  }

  /** One entry of `errors` in `/api/predict-all`. */
  datatype SiteError = SiteError(site: string, code: string, error: Error)

  /** The outcomes of predicting `codes` in order on one service whose
      caches start as `(scalers, pipelines)`, and the caches afterwards. */
  function Run(codes: seq<string>, scalers: Option<map<string, Scaler>>, pipelines: map<string, Pipeline>, env: Environment)
    : (r: (seq<Result<map<string, Prediction>, Error>>, Option<map<string, Scaler>>, map<string, Pipeline>))
    requires ValidTimestamp(env.now)
    ensures |r.0| == |codes|
  {
    if codes == [] then ([], scalers, pipelines)
    else
      var (outcomes, scalers', pipelines') := Run(codes[..|codes| - 1], scalers, pipelines, env);
      var (outcome, scalers'', pipelines'') := PredictStep(scalers', pipelines', codes[|codes| - 1], env);
      (outcomes + [outcome], scalers'', pipelines'')
  }

  /** Every successful outcome is keyed by its own site's display name in
      the catalogue `sites`. */
  ghost predicate KeyedBy(sites: map<string, Site>, codes: seq<string>, outcomes: seq<Result<map<string, Prediction>, Error>>)
    requires |outcomes| == |codes|
  {
    forall k :: 0 <= k < |codes| && outcomes[k].Success? ==>
      codes[k] in sites && outcomes[k].value.Keys == {sites[codes[k]].koreanName}
  }

  /** One more outcome keyed by its own site keeps the outcomes keyed. */
  lemma KeyedByAppend(sites: map<string, Site>, codes: seq<string>, outcomes: seq<Result<map<string, Prediction>, Error>>,
                      code: string, outcome: Result<map<string, Prediction>, Error>)
    requires |outcomes| == |codes| && KeyedBy(sites, codes, outcomes)
    requires outcome.Success? ==> code in sites && outcome.value.Keys == {sites[code].koreanName}
    ensures KeyedBy(sites, codes + [code], outcomes + [outcome])
  {
    var all := outcomes + [outcome];
    var cs := codes + [code];
    forall k | 0 <= k < |cs| && all[k].Success?
      ensures cs[k] in sites && all[k].value.Keys == {sites[cs[k]].koreanName}
    {
      if k < |codes| {
        assert cs[k] == codes[k] && all[k] == outcomes[k];
      }
    }
  }

  /** No two sites of the catalogue share a display name. */
  ghost predicate NamesDistinct(sites: map<string, Site>) {
    forall c, d :: c in sites && d in sites && c != d ==> sites[c].koreanName != sites[d].koreanName
  }

  /** Each prediction the service makes is keyed by its site's name. */
  lemma {:induction false} RunOutcomesKeyed(codes: seq<string>, scalers: Option<map<string, Scaler>>,
                                            pipelines: map<string, Pipeline>, env: Environment)
    requires ValidTimestamp(env.now)
    ensures KeyedBy(TouristSites, codes, Run(codes, scalers, pipelines, env).0)
  {
    if codes != [] {
      var init := codes[..|codes| - 1];
      var code := codes[|codes| - 1];
      RunOutcomesKeyed(init, scalers, pipelines, env);
      var (outcomes, scalers', pipelines') := Run(init, scalers, pipelines, env);
      var outcome := PredictStep(scalers', pipelines', code, env).0;
      assert Run(codes, scalers, pipelines, env).0 == outcomes + [outcome];
      if outcome.Success? {
        PredictionKey(scalers', pipelines', code, env);
      }
      assert codes == init + [code];
      KeyedByAppend(TouristSites, init, outcomes, code, outcome);
    }
  }

  /** `results` and `errors` after the outcomes `outcomes` of `codes`, with
      error entries named from the catalogue `sites`. */
  function Collect(sites: map<string, Site>, codes: seq<string>, outcomes: seq<Result<map<string, Prediction>, Error>>)
    : (map<string, Prediction>, seq<SiteError>)
    requires |outcomes| == |codes|
    requires forall c :: c in codes ==> c in sites
  {
    if codes == [] then (map[], [])
    else
      var (results, errors) := Collect(sites, codes[..|codes| - 1], outcomes[..|outcomes| - 1]);
      var code := codes[|codes| - 1];
      match outcomes[|outcomes| - 1]
      case Success(r) => (results + r, errors)
      case Failure(e) => (results, errors + [SiteError(sites[code].koreanName, code, e)])
  }

  /** The codes of the sites whose outcome failed, in visiting order. */
  function FailingCodes(codes: seq<string>, outcomes: seq<Result<map<string, Prediction>, Error>>): (r: seq<string>)
    requires |outcomes| == |codes|
    ensures forall c :: c in r <==> exists k :: 0 <= k < |codes| && codes[k] == c && outcomes[k].Failure?
  {
    if codes == [] then []
    else
      var init := FailingCodes(codes[..|codes| - 1], outcomes[..|outcomes| - 1]);
      assert forall k :: 0 <= k < |codes| - 1 ==> codes[..|codes| - 1][k] == codes[k] && outcomes[..|outcomes| - 1][k] == outcomes[k];
      init + (if outcomes[|outcomes| - 1].Failure? then [codes[|codes| - 1]] else [])
  }

  function ErrorCodes(errors: seq<SiteError>): (r: seq<string>)
    ensures |r| == |errors| && forall k :: 0 <= k < |errors| ==> r[k] == errors[k].code
  {
    seq(|errors|, k requires 0 <= k < |errors| => errors[k].code)
  }

  /** The error entries name the failing sites, in visiting order. */
  lemma {:induction false} CollectErrors(sites: map<string, Site>, codes: seq<string>,
                                         outcomes: seq<Result<map<string, Prediction>, Error>>)
    requires |outcomes| == |codes|
    requires forall c :: c in codes ==> c in sites
    ensures ErrorCodes(Collect(sites, codes, outcomes).1) == FailingCodes(codes, outcomes)
  {
    if codes != [] {
      var init := codes[..|codes| - 1];
      var oinit := outcomes[..|outcomes| - 1];
      CollectErrors(sites, init, oinit);
      var errors := Collect(sites, init, oinit).1;
      var errors' := Collect(sites, codes, outcomes).1;
      if outcomes[|outcomes| - 1].Failure? {
        assert ErrorCodes(errors') == ErrorCodes(errors) + [codes[|codes| - 1]];
      } else {
        assert errors' == errors;
      }
    }
  }

  /** The display names of the sites whose outcome succeeded. */
  ghost function SuccessNames(sites: map<string, Site>, codes: seq<string>,
                              outcomes: seq<Result<map<string, Prediction>, Error>>): set<string>
    requires |outcomes| == |codes|
    requires forall c :: c in codes ==> c in sites
  {
    if codes == [] then {}
    else SuccessNames(sites, codes[..|codes| - 1], outcomes[..|outcomes| - 1])
         + (if outcomes[|outcomes| - 1].Success? then {sites[codes[|codes| - 1]].koreanName} else {})
  }

  lemma {:induction false} SuccessNamesMembers(sites: map<string, Site>, codes: seq<string>,
                                               outcomes: seq<Result<map<string, Prediction>, Error>>)
    requires |outcomes| == |codes|
    requires forall c :: c in codes ==> c in sites
    ensures forall n :: n in SuccessNames(sites, codes, outcomes) <==>
      exists k :: 0 <= k < |codes| && outcomes[k].Success? && sites[codes[k]].koreanName == n
  {
    if codes != [] {
      var init := codes[..|codes| - 1];
      var oinit := outcomes[..|outcomes| - 1];
      SuccessNamesMembers(sites, init, oinit);
      forall n ensures n in SuccessNames(sites, codes, outcomes) <==>
        exists k :: 0 <= k < |codes| && outcomes[k].Success? && sites[codes[k]].koreanName == n
      {
        if exists k :: 0 <= k < |codes| && outcomes[k].Success? && sites[codes[k]].koreanName == n {
          var k :| 0 <= k < |codes| && outcomes[k].Success? && sites[codes[k]].koreanName == n;
          if k < |init| {
            assert init[k] == codes[k] && oinit[k] == outcomes[k];
          }
        }
        if n in SuccessNames(sites, init, oinit) {
          var k :| 0 <= k < |init| && oinit[k].Success? && sites[init[k]].koreanName == n;
          assert init[k] == codes[k] && oinit[k] == outcomes[k];
        }
      }
    }
  }

  /** With each success keyed by its own site's name, `results` holds
      exactly the names of the sites whose outcome succeeded. */
  lemma {:induction false} CollectKeys(sites: map<string, Site>, codes: seq<string>,
                                       outcomes: seq<Result<map<string, Prediction>, Error>>)
    requires |outcomes| == |codes|
    requires forall c :: c in codes ==> c in sites
    requires KeyedBy(sites, codes, outcomes)
    ensures Collect(sites, codes, outcomes).0.Keys == SuccessNames(sites, codes, outcomes)
  {
    if codes != [] {
      var init := codes[..|codes| - 1];
      var oinit := outcomes[..|outcomes| - 1];
      assert KeyedBy(sites, init, oinit) by {
        forall k | 0 <= k < |init| ensures init[k] == codes[k] && oinit[k] == outcomes[k] {
        }
      }
      CollectKeys(sites, init, oinit);
    }
  }

  /** With distinct sites and names, each success's prediction survives the
      merging under its own name. */
  lemma {:induction false} CollectValues(sites: map<string, Site>, codes: seq<string>,
                                         outcomes: seq<Result<map<string, Prediction>, Error>>)
    requires |outcomes| == |codes|
    requires forall c :: c in codes ==> c in sites
    requires forall i, j :: 0 <= i < j < |codes| ==> codes[i] != codes[j]
    requires NamesDistinct(sites) && KeyedBy(sites, codes, outcomes)
    ensures forall k :: 0 <= k < |codes| && outcomes[k].Success? ==>
      (sites[codes[k]].koreanName in Collect(sites, codes, outcomes).0
       && Collect(sites, codes, outcomes).0[sites[codes[k]].koreanName] == outcomes[k].value[sites[codes[k]].koreanName])
  {
    if codes != [] {
      var init := codes[..|codes| - 1];
      var oinit := outcomes[..|outcomes| - 1];
      var code := codes[|codes| - 1];
      var last := outcomes[|outcomes| - 1];
      assert forall k :: 0 <= k < |init| ==> init[k] == codes[k] && oinit[k] == outcomes[k];
      CollectValues(sites, init, oinit);
      var results := Collect(sites, init, oinit).0;
      var results' := Collect(sites, codes, outcomes).0;
      assert last.Success? ==> results' == results + last.value;
      assert last.Failure? ==> results' == results;
      forall k | 0 <= k < |codes| && outcomes[k].Success?
        ensures sites[codes[k]].koreanName in results'
        ensures results'[sites[codes[k]].koreanName] == outcomes[k].value[sites[codes[k]].koreanName]
      {
        if k < |init| {
          assert codes[k] != code;
          assert sites[codes[k]].koreanName != sites[code].koreanName;
          assert oinit[k].Success?;
        }
      }
    }
  }

  /** One more site runs on the caches the earlier ones left. */
  lemma RunNext(codes: seq<string>, i: nat, scalers: Option<map<string, Scaler>>,
                pipelines: map<string, Pipeline>, env: Environment)
    requires ValidTimestamp(env.now) && i < |codes|
    ensures var (outcomes, scalers', pipelines') := Run(codes[..i], scalers, pipelines, env);
      var (outcome, scalers'', pipelines'') := PredictStep(scalers', pipelines', codes[i], env);
      Run(codes[..i + 1], scalers, pipelines, env) == (outcomes + [outcome], scalers'', pipelines'')
  {
    assert codes[..i + 1][..i] == codes[..i];
  }

  /** One more outcome is merged or appended after the earlier ones. */
  lemma CollectNext(sites: map<string, Site>, codes: seq<string>, outcomes: seq<Result<map<string, Prediction>, Error>>,
                    i: nat, outcome: Result<map<string, Prediction>, Error>)
    requires i < |codes| && |outcomes| == i && forall c :: c in codes ==> c in sites
    ensures var (results, errors) := Collect(sites, codes[..i], outcomes);
      Collect(sites, codes[..i + 1], outcomes + [outcome]) ==
        if outcome.Success? then (results + outcome.value, errors)
        else (results, errors + [SiteError(sites[codes[i]].koreanName, codes[i], outcome.error)])
  {
    assert codes[..i + 1][..i] == codes[..i];
    assert (outcomes + [outcome])[..i] == outcomes;
  }

  /** `/api/predict-all`'s loop over the shared service. */
  method PredictAll(service: PredictionService, env: Environment) returns (results: map<string, Prediction>, errors: seq<SiteError>)
    requires ValidTimestamp(env.now)
    modifies service
    ensures var (outcomes, scalers, pipelines) := Run(SiteCodes, old(service.scalersCache), old(service.pipelinesCache), env);
      && (results, errors) == Collect(TouristSites, SiteCodes, outcomes)
      && service.scalersCache == scalers && service.pipelinesCache == pipelines
  {
    SiteCatalogue();
    results := map[];
    errors := [];
    ghost var outcomes: seq<Result<map<string, Prediction>, Error>> := [];
    for i := 0 to |SiteCodes|
      invariant var (o, s, p) := Run(SiteCodes[..i], old(service.scalersCache), old(service.pipelinesCache), env);
        && outcomes == o && service.scalersCache == s && service.pipelinesCache == p
        && (results, errors) == Collect(TouristSites, SiteCodes[..i], outcomes)
    {
      RunNext(SiteCodes, i, old(service.scalersCache), old(service.pipelinesCache), env);
      var code := SiteCodes[i];
      var result := service.Predict(code, env);
      CollectNext(TouristSites, SiteCodes, outcomes, i, result);
      outcomes := outcomes + [result];
      if result.Success? {
        results := results + result.value;
      } else {
        errors := errors + [SiteError(TouristSites[code].koreanName, code, result.error)];
      }
    }
    assert SiteCodes[..|SiteCodes|] == SiteCodes;
  }

  /** Every site ends up exactly once: under its display name in `results`,
      with its own prediction, when its prediction succeeded, otherwise as an
      error entry; `results` holds nothing else, and the errors follow the
      catalogue order. */
  lemma PredictAllExactlyOnce(scalers: Option<map<string, Scaler>>, pipelines: map<string, Pipeline>, env: Environment)
    requires ValidTimestamp(env.now)
    ensures var outcomes := Run(SiteCodes, scalers, pipelines, env).0;
      ExactlyOnce(TouristSites, SiteCodes, outcomes)
  {
    SiteCatalogue();
    DisplayNamesDistinct();
    RunOutcomesKeyed(SiteCodes, scalers, pipelines, env);
    SitesExactlyOnce(TouristSites, SiteCodes, Run(SiteCodes, scalers, pipelines, env).0);
  }

  /** Every success is keyed by its own site's name; that name is in
      `results`, with the site's own prediction, exactly when
      it is not among the error codes; `results` holds nothing else, and the
      error codes are the failing sites in visiting order. */
  ghost predicate ExactlyOnce(sites: map<string, Site>, codes: seq<string>,
                              outcomes: seq<Result<map<string, Prediction>, Error>>)
    requires |outcomes| == |codes|
    requires forall c :: c in codes ==> c in sites
  {
    var (results, errors) := Collect(sites, codes, outcomes);
    && KeyedBy(sites, codes, outcomes)
    && ErrorCodes(errors) == FailingCodes(codes, outcomes)
    && (forall k :: 0 <= k < |codes| ==>
          (sites[codes[k]].koreanName in results <==> codes[k] !in ErrorCodes(errors)))
    && (forall k :: 0 <= k < |codes| && outcomes[k].Success? ==>
          sites[codes[k]].koreanName in results
          && results[sites[codes[k]].koreanName] == outcomes[k].value[sites[codes[k]].koreanName])
    && (forall n :: n in results ==> exists k :: 0 <= k < |codes| && sites[codes[k]].koreanName == n)
  }

  /** The same, for any catalogue with distinct names and any outcomes keyed
      by it. */
  lemma SitesExactlyOnce(sites: map<string, Site>, codes: seq<string>,
                         outcomes: seq<Result<map<string, Prediction>, Error>>)
    requires |outcomes| == |codes|
    requires forall c :: c in codes ==> c in sites
    requires forall i, j :: 0 <= i < j < |codes| ==> codes[i] != codes[j]
    requires NamesDistinct(sites) && KeyedBy(sites, codes, outcomes)
    ensures ExactlyOnce(sites, codes, outcomes)
  {
    CollectErrors(sites, codes, outcomes);
    CollectKeys(sites, codes, outcomes);
    SuccessNamesMembers(sites, codes, outcomes);
    CollectValues(sites, codes, outcomes);
    var (results, errors) := Collect(sites, codes, outcomes);
    forall k | 0 <= k < |codes|
      ensures sites[codes[k]].koreanName in results <==> codes[k] !in ErrorCodes(errors)
    {
      if codes[k] in FailingCodes(codes, outcomes) {
        var j :| 0 <= j < |codes| && codes[j] == codes[k] && outcomes[j].Failure?;
        assert j == k;
      }
    }
  }

  /** A scored model with the two classifications attached. */
  datatype Annotated = Annotated(scored: Evaluation.Scored, performanceLevel: PerformanceLevel, overfittingRisk: OverfittingRisk)

  /** One success with `performance_level` from its test R² and
      `overfitting_risk` from its train and test R². */
  function AnnotateOne(s: Evaluation.Scored): Annotated {
    Annotated(s, CalculatePerformanceLevel(s.test.r2), CalculateOverfittingRisk(s.train.r2, s.test.r2))
  }

  function Annotate(s: seq<Evaluation.Scored>): (r: seq<Annotated>)
    ensures |r| == |s|
    ensures forall k :: 0 <= k < |s| ==> r[k] == AnnotateOne(s[k])
  {
    seq(|s|, k requires 0 <= k < |s| => AnnotateOne(s[k]))
  }

  lemma AnnotateAppend(s: seq<Evaluation.Scored>, x: Evaluation.Scored)
    ensures Annotate(s + [x]) == Annotate(s) + [AnnotateOne(x)]
  {
    assert forall k :: 0 <= k < |s| ==> (s + [x])[k] == s[k];
  }

  /** `/api/evaluate-all`'s loop: the same partition as the evaluation
      script's, with every success annotated. */
  method EvaluateAll(sc: Evaluation.Scoring) returns (results: seq<Annotated>, errors: seq<Evaluation.Failed>)
    requires Evaluation.Shuffles(sc.shuffle)
    ensures var (ok, failed) := Evaluation.Partition(SiteCodes, Evaluation.Results(SiteCodes, sc));
      results == Annotate(ok) && errors == failed
  {
    SiteCatalogue();
    results := [];
    errors := [];
    ghost var ok: seq<Evaluation.Scored> := [];
    for i := 0 to |SiteCodes|
      invariant (ok, errors) == Evaluation.Partition(SiteCodes[..i], Evaluation.Results(SiteCodes[..i], sc))
      invariant results == Annotate(ok)
    {
      Evaluation.PartitionNext(SiteCodes, i, sc);
      var code := SiteCodes[i];
      var result := Evaluation.EvaluateModel(code, sc);
      match result
      case Failure(e) => {
        errors := errors + [Evaluation.Failed(code, TouristSites[code].koreanName, Evaluation.Raised(e))];
      }
      case Success(ModelMissing(c, name, file)) => {
        errors := errors + [Evaluation.Failed(c, name, Evaluation.NoModelFile(file))];
      }
      case Success(Evaluated(s)) => {
        var level := CalculatePerformanceLevel(s.test.r2);
        var risk := CalculateOverfittingRisk(s.train.r2, s.test.r2);
        AnnotateAppend(ok, s);
        results := results + [Annotated(s, level, risk)];
        ok := ok + [s];
      }
    }
    assert SiteCodes[..|SiteCodes|] == SiteCodes;
  }

  /** The `summary` of `/api/evaluate-all`. */
  datatype Summary = Summary(
    totalModels: nat,
    averageR2: real, averageMae: real, averageRmse: real, averageMape: real,
    performanceDistribution: map<PerformanceLevel, nat>,
    overfittingDistribution: map<OverfittingRisk, nat>)

  function LevelCount(results: seq<Annotated>, level: PerformanceLevel): (n: nat)
    ensures n <= |results|
  {
    if results == [] then 0
    else LevelCount(results[..|results| - 1], level) + (if results[|results| - 1].performanceLevel == level then 1 else 0)
  }

  function RiskCount(results: seq<Annotated>, risk: OverfittingRisk): (n: nat)
    ensures n <= |results|
  {
    if results == [] then 0
    else RiskCount(results[..|results| - 1], risk) + (if results[|results| - 1].overfittingRisk == risk then 1 else 0)
  }

  function R2(m: Evaluation.Metrics): real { m.r2 }
  function Mae(m: Evaluation.Metrics): real { m.mae }
  function Rmse(m: Evaluation.Metrics): real { m.rmse }
  function Mape(m: Evaluation.Metrics): real { m.mape }

  /** The sum of one test metric over the results. */
  function MetricSum(results: seq<Annotated>, pick: Evaluation.Metrics -> real): real {
    if results == [] then 0.0 else MetricSum(results[..|results| - 1], pick) + pick(results[|results| - 1].scored.test)
  }

  function Mean(results: seq<Annotated>, pick: Evaluation.Metrics -> real): real
    requires results != []
  {
    MetricSum(results, pick) / |results| as real
  }

  function Summarize(results: seq<Annotated>): Summary {
    if results == [] then Summary(0, 0.0, 0.0, 0.0, 0.0, map[], map[])
    else Summary(|results|,
                 Mean(results, R2),
                 Mean(results, Mae), Mean(results, Rmse), Mean(results, Mape),
                 map[Excellent := LevelCount(results, Excellent), Good := LevelCount(results, Good),
                     Fair := LevelCount(results, Fair), Poor := LevelCount(results, Poor)],
                 map[LowRisk := RiskCount(results, LowRisk), MediumRisk := RiskCount(results, MediumRisk),
                     HighRisk := RiskCount(results, HighRisk)])
  }

  /** Every result has one of the four levels and one of the three risks. */
  lemma {:induction false} CountsAddUp(results: seq<Annotated>)
    ensures LevelCount(results, Excellent) + LevelCount(results, Good) + LevelCount(results, Fair) + LevelCount(results, Poor) == |results|
    ensures RiskCount(results, LowRisk) + RiskCount(results, MediumRisk) + RiskCount(results, HighRisk) == |results|
  {
    if results != [] {
      CountsAddUp(results[..|results| - 1]);
    }
  }

  /** With successes, the total is their number and both distributions
      cover every level or risk and add up to it. Without, everything is zero
      and both distributions are empty. */
  lemma SummaryShape(results: seq<Annotated>)
    ensures results == [] ==> Summarize(results) == Summary(0, 0.0, 0.0, 0.0, 0.0, map[], map[])
    ensures results != [] ==>
      var s := Summarize(results);
      && s.totalModels == |results|
      && s.performanceDistribution.Keys == {Excellent, Good, Fair, Poor}
      && s.overfittingDistribution.Keys == {LowRisk, MediumRisk, HighRisk}
      && s.performanceDistribution[Excellent] + s.performanceDistribution[Good]
         + s.performanceDistribution[Fair] + s.performanceDistribution[Poor] == s.totalModels
      && s.overfittingDistribution[LowRisk] + s.overfittingDistribution[MediumRisk]
         + s.overfittingDistribution[HighRisk] == s.totalModels
  {
    CountsAddUp(results);
  }

  /** An average lies between the smallest and the largest value. */
  lemma {:induction false} MetricSumBounds(results: seq<Annotated>, pick: Evaluation.Metrics -> real, lo: real, hi: real)
    requires forall k :: 0 <= k < |results| ==> lo <= pick(results[k].scored.test) <= hi
    ensures lo * |results| as real <= MetricSum(results, pick) <= hi * |results| as real
  {
    if results != [] {
      var init := results[..|results| - 1];
      assert forall k :: 0 <= k < |init| ==> init[k] == results[k];
      MetricSumBounds(init, pick, lo, hi);
    }
  }

  /** The average test R² lies between the lowest and the highest. */
  lemma AverageR2Bounds(results: seq<Annotated>, lo: real, hi: real)
    requires results != []
    requires forall k :: 0 <= k < |results| ==> lo <= results[k].scored.test.r2 <= hi
    ensures lo <= Summarize(results).averageR2 <= hi
  {
    MetricSumBounds(results, R2, lo, hi);
    QuotientBounds(MetricSum(results, R2), |results| as real, lo, hi);
  }

  lemma QuotientBounds(total: real, n: real, lo: real, hi: real)
    requires n > 0.0 && lo * n <= total <= hi * n
    ensures lo <= total / n <= hi
  {
    var q := total / n;
    assert q * n == total;
  }
}
