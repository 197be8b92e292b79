/** The offline evaluation script: scoring one site's saved model on its
    historical table, the report's classification branches, and the batch
    over every site with its summary order. */
module Evaluation {
  import opened Wrappers
  import opened Errors
  import opened Frames
  import opened Config
  import opened DataLoader
  import opened Sorting
  import Predictor

  /** The script's own split settings (its MODEL_CONFIG), not the service's. */
  const TestSize: real := 0.2
  const SplitSeed: int := 42

  /** The five scores of one prediction set. */
  datatype Metrics = Metrics(mae: real, mse: real, rmse: real, r2: real, mape: real)

  /** The `stats` entries this model keeps: the two partition sizes and the
      number of feature columns. */
  datatype Stats = Stats(trainSize: nat, testSize: nat, featureCount: nat)

  /** A scored model: the success dict of evaluate_model. */
  datatype Scored = Scored(code: string, koreanName: string, train: Metrics, test: Metrics, stats: Stats,
                           actual: seq<Cell>, predicted: seq<real>)

  /** What evaluate_model returns: a score, or the error dict it builds when
      the model file is absent. */
  datatype Evaluation = Evaluated(scored: Scored) | ModelMissing(code: string, koreanName: string, file: string)

  /** What evaluate_model reads from outside: the saved models (file name to
      pipeline), the database, the seeded shuffle `train_test_split` draws
      (sample count and seed to a list of sample positions) and the metric
      functions (None when a label is not numeric). */
  datatype Scoring = Scoring(
    modelDir: map<string, Predictor.Pipeline>,
    db: Option<Database>,
    shuffle: (nat, int) -> seq<nat>,
    metrics: (seq<Cell>, seq<real>) -> Option<Metrics>)

  /** A shuffle gives, for `n` samples, `n` positions below `n`. */
  ghost predicate Shuffles(shuffle: (nat, int) -> seq<nat>) {
    forall n: nat, seed: int :: |shuffle(n, seed)| == n && forall k :: 0 <= k < n ==> shuffle(n, seed)[k] < n
  }

  /** `X.fillna(0)`: every missing cell becomes 0, every other cell stays. */
  function FillNa(x: Frame): (r: Frame)
    ensures |r| == |x| && Names(r) == Names(x)
    ensures forall j :: 0 <= j < |x| ==> |r[j].cells| == |x[j].cells|
    ensures forall j, i :: 0 <= j < |x| && 0 <= i < |x[j].cells| ==>
      r[j].cells[i] == if x[j].cells[i] == Null then Num(0.0) else x[j].cells[i]
  {
    seq(|x|, j requires 0 <= j < |x| =>
      Column(x[j].name, seq(|x[j].cells|, i requires 0 <= i < |x[j].cells| =>
        if x[j].cells[i] == Null then Num(0.0) else x[j].cells[i])))
  }

  /** `mask = ~y.isnull()`, as the positions it keeps. */
  function KeptRows(y: seq<Cell>): (keep: seq<nat>)
    ensures forall k :: 0 <= k < |keep| ==> keep[k] < |y| && y[keep[k]] != Null
  {
    if y == [] then []
    else KeptRows(y[..|y| - 1]) + (if y[|y| - 1] != Null then [|y| - 1] else [])
  }

  /** The kept positions are exactly those with a label, in table order. */
  lemma {:induction false} KeptRowsExact(y: seq<Cell>)
    ensures forall i :: 0 <= i < |y| && y[i] != Null ==> i in KeptRows(y)
    ensures forall a, b :: 0 <= a < b < |KeptRows(y)| ==> KeptRows(y)[a] < KeptRows(y)[b]
  {
    if y != [] {
      var init := y[..|y| - 1];
      KeptRowsExact(init);
      forall i | 0 <= i < |init| && init[i] != Null ensures i in KeptRows(y) {
        assert y[i] == init[i];
        assert i in KeptRows(init);
      }
    }
  }

  /** One cell; a rectangular frame is never read past its row count, where
      this gives a missing value. */
  function CellAt(cells: seq<Cell>, i: nat): Cell {
    if i < |cells| then cells[i] else Null
  }

  /** Row `i` of `x`, as the record a pipeline consumes. */
  function RowAt(x: Frame, i: nat): (row: Row)
    ensures |row| == |x|
    ensures forall j :: 0 <= j < |x| ==> row[j] == (x[j].name, CellAt(x[j].cells, i))
  {
    seq(|x|, j requires 0 <= j < |x| => (x[j].name, CellAt(x[j].cells, i)))
  }

  /** The elements of `s` at the positions `positions`, in that order. */
  function Pick<T>(s: seq<T>, positions: seq<nat>): (r: seq<T>)
    requires forall k :: 0 <= k < |positions| ==> positions[k] < |s|
    ensures |r| == |positions|
    ensures forall k :: 0 <= k < |positions| ==> r[k] == s[positions[k]]
  {
    seq(|positions|, k requires 0 <= k < |positions| => s[positions[k]])
  }

  /** `X[mask]` and `y[mask]`: the feature rows and the labels at the same
      kept positions, so row k and label k come from the same table row. */
  function Masked(x: Frame, y: seq<Cell>): (r: (seq<Row>, seq<Cell>))
    ensures |r.0| == |KeptRows(y)| && |r.1| == |KeptRows(y)|
    ensures forall k :: 0 <= k < |KeptRows(y)| ==>
      r.0[k] == RowAt(x, KeptRows(y)[k]) && r.1[k] == y[KeptRows(y)[k]] && r.1[k] != Null
  {
    var keep := KeptRows(y);
    (seq(|keep|, k requires 0 <= k < |keep| => RowAt(x, keep[k])), Pick(y, keep))
  }

  /** `ceil(test_size * n_samples)`, the test partition's size. */
  function TestCount(n: nat): nat {
    var t := TestSize * n as real;
    if t == t.Floor as real then t.Floor else t.Floor + 1
  }

  /** The test partition holds a fifth of the samples rounded up, so the
      training partition is empty, and the split refused, exactly when there
      are fewer than two samples. */
  lemma TestCountClosedForm(n: nat)
    ensures TestCount(n) == (n + 4) / 5
    ensures TestCount(n) < n <==> n >= 2
  {
    var t := TestSize * n as real;
    var q := n / 5;
    var r := n % 5;
    assert n == 5 * q + r;
    assert t == q as real + r as real / 5.0;
    if r == 0 {
      assert t.Floor == q;
    } else {
      assert q as real < t < q as real + 1.0;
      assert t.Floor == q;
    }
  }

  /** The pipeline's prediction for each row. */
  function PredictRows(p: Predictor.Pipeline, rows: seq<Row>): (r: seq<real>)
    ensures |r| == |rows| && forall k :: 0 <= k < |rows| ==> r[k] == p.predict(rows[k])
  {
    seq(|rows|, k requires 0 <= k < |rows| => p.predict(rows[k]))
  }

  /** The scoring half of evaluate_model, from X (missing cells already 0)
      and y on. */
  function Score(code: string, name: string, pipeline: Predictor.Pipeline, x: Frame, y: seq<Cell>, sc: Scoring)
    : (r: Result<Evaluation, Error>)
    requires Shuffles(sc.shuffle)
    ensures r.Success? ==> r.value.Evaluated?
    ensures r.Success? ==>
      var s := r.value.scored;
      && s.code == code && s.koreanName == name
      && s.stats.testSize == TestCount(|KeptRows(y)|)
      && s.stats.trainSize + s.stats.testSize == |KeptRows(y)|
      && s.stats.trainSize >= 1
      && s.stats.featureCount == |x|
      && |s.actual| == s.stats.testSize && |s.predicted| == s.stats.testSize
      && (forall k :: 0 <= k < |s.actual| ==> s.actual[k] != Null)
    ensures TestCount(|KeptRows(y)|) >= |KeptRows(y)| <==> r == Failure(SplitFailed(|KeptRows(y)|))
  {
    var (rows, labels) := Masked(x, y);
    var n := |labels|;
    var nTest := TestCount(n);
    if nTest >= n then Failure(SplitFailed(n))
    else
      var perm := sc.shuffle(n, SplitSeed);
      var testPositions := perm[..nTest];
      var trainPositions := perm[nTest..];
      var trainPredicted := PredictRows(pipeline, Pick(rows, trainPositions));
      var testPredicted := PredictRows(pipeline, Pick(rows, testPositions));
      var trainLabels := Pick(labels, trainPositions);
      var testLabels := Pick(labels, testPositions);
      match sc.metrics(trainLabels, trainPredicted)
      case None => Failure(NonNumericLabel)
      case Some(train) =>
        match sc.metrics(testLabels, testPredicted)
        case None => Failure(NonNumericLabel)
        case Some(test) =>
          Success(Evaluated(Scored(code, name, train, test, Stats(|trainPositions|, |testPositions|, |x|),
                                   testLabels, testPredicted)))
  }

  /** evaluate_model. */
  function EvaluateModel(code: string, sc: Scoring): Result<Evaluation, Error>
    requires Shuffles(sc.shuffle)
  {
    if code !in TouristSites then Failure(UnknownSite(code))
    else
      ModelFileKeys();
      var name := TouristSites[code].koreanName;
      var file := ModelFiles[code];
      if file !in sc.modelDir then Success(ModelMissing(code, name, file))
      else
        match TouristData(sc.db, name)
        case Failure(e) => Failure(e)
        case Success((x, y)) => Score(code, name, sc.modelDir[file], FillNa(x), y, sc)
  }

  /** An unknown code raises; a missing model file gives the error dict with
      the site's code and name and reads no data, so the database does not
      matter; otherwise the outcome is the scoring of the loaded data, or the
      loader's exception. */
  lemma EvaluateModelPaths(code: string, sc: Scoring)
    requires Shuffles(sc.shuffle)
    ensures code !in TouristSites ==> EvaluateModel(code, sc) == Failure(UnknownSite(code))
    ensures code in TouristSites && ModelFiles[code] !in sc.modelDir ==>
      && EvaluateModel(code, sc) == Success(ModelMissing(code, TouristSites[code].koreanName, ModelFiles[code]))
      && EvaluateModel(code, sc.(db := None)) == EvaluateModel(code, sc)
    ensures code in TouristSites && ModelFiles[code] in sc.modelDir ==>
      && (TouristData(sc.db, TouristSites[code].koreanName).Failure? ==>
            EvaluateModel(code, sc) == Failure(TouristData(sc.db, TouristSites[code].koreanName).error))
      && (EvaluateModel(code, sc).Success? ==> EvaluateModel(code, sc).value.Evaluated?)
  {
    ModelFileKeys();
  }

  /** A scored result carries the site, partition sizes that add up to the
      labelled rows with a test share of a fifth rounded up, the feature
      count of X, and one actual label and one prediction per test row. */
  lemma EvaluatedStats(code: string, sc: Scoring)
    requires Shuffles(sc.shuffle)
    requires EvaluateModel(code, sc).Success? && EvaluateModel(code, sc).value.Evaluated?
    ensures code in TouristSites
    ensures TouristData(sc.db, TouristSites[code].koreanName).Success?
    ensures var (x, y) := TouristData(sc.db, TouristSites[code].koreanName).value;
      var s := EvaluateModel(code, sc).value.scored;
      && s.code == code && s.koreanName == TouristSites[code].koreanName
      && s.stats.trainSize + s.stats.testSize == |KeptRows(y)|
      && s.stats.testSize == (|KeptRows(y)| + 4) / 5
      && s.stats.trainSize >= 1
      && s.stats.featureCount == |x|
      && |s.actual| == s.stats.testSize && |s.predicted| == s.stats.testSize
  {
    ModelFileKeys();
    var (x, y) := TouristData(sc.db, TouristSites[code].koreanName).value;
    TestCountClosedForm(|KeptRows(y)|);
  }

  /** The split reads only the script's seed: two shuffles that agree on seed
      42 give the same evaluation. */
  lemma SeedOnly(code: string, modelDir: map<string, Predictor.Pipeline>, db: Option<Database>,
                 metrics: (seq<Cell>, seq<real>) -> Option<Metrics>,
                 s1: (nat, int) -> seq<nat>, s2: (nat, int) -> seq<nat>)
    requires Shuffles(s1) && Shuffles(s2)
    requires forall n: nat :: s1(n, SplitSeed) == s2(n, SplitSeed)
    ensures EvaluateModel(code, Scoring(modelDir, db, s1, metrics)) == EvaluateModel(code, Scoring(modelDir, db, s2, metrics))
  {
  }

  /** The test-R² bands of print_evaluation_report. */
  datatype Band = Excellent | Adequate | Fair | Low

  function ReportBand(testR2: real): (b: Band)
    ensures b == Excellent <==> testR2 >= 0.9
    ensures b == Adequate <==> 0.7 <= testR2 < 0.9
    ensures b == Fair <==> 0.5 <= testR2 < 0.7
    ensures b == Low <==> testR2 < 0.5
  {
    if testR2 >= 0.9 then Excellent
    else if testR2 >= 0.7 then Adequate
    else if testR2 >= 0.5 then Fair
    else Low
  }

  /** The generalisation verdicts of print_evaluation_report. */
  datatype Overfit = Likely | Slight | Generalizes

  function Abs(x: real): real {
    if x < 0.0 then -x else x
  }

  function OverfitVerdict(trainR2: real, testR2: real): (v: Overfit)
    ensures v == Likely <==> Abs(trainR2 - testR2) > 0.2
    ensures v == Slight <==> Abs(trainR2 - testR2) <= 0.2 && trainR2 > testR2
    ensures v == Generalizes <==> trainR2 <= testR2 && testR2 - trainR2 <= 0.2
  {
    if Abs(trainR2 - testR2) > 0.2 then Likely
    else if trainR2 > testR2 then Slight
    else Generalizes
  }

  /** A failed site in the batch: the error dict's file, or the exception. */
  datatype Cause = NoModelFile(file: string) | Raised(error: Error)
  datatype Failed = Failed(code: string, koreanName: string, cause: Cause)

  /** A returned dict names the site it was asked for. */
  ghost predicate NamesOwnSite(code: string, r: Result<Evaluation, Error>) {
    && (r.Success? && r.value.ModelMissing? ==> r.value.code == code)
    && (r.Success? && r.value.Evaluated? ==> r.value.scored.code == code)
  }

  lemma EvaluateNamesOwnSite(code: string, sc: Scoring)
    requires Shuffles(sc.shuffle)
    ensures NamesOwnSite(code, EvaluateModel(code, sc))
  {
    EvaluateModelPaths(code, sc);
  }

  /** Where one site's outcome goes in evaluate_all_models. */
  function Place(ok: seq<Scored>, failed: seq<Failed>, code: string, r: Result<Evaluation, Error>)
    : (seq<Scored>, seq<Failed>)
    requires code in TouristSites
  {
    match r
    case Failure(e) => (ok, failed + [Failed(code, TouristSites[code].koreanName, Raised(e))])
    case Success(ModelMissing(c, name, file)) => (ok, failed + [Failed(c, name, NoModelFile(file))])
    case Success(Evaluated(s)) => (ok + [s], failed)
  }

  /** evaluate_all_models' two lists after visiting `codes`, whose
      evaluations are `results`. */
  function Partition(codes: seq<string>, results: seq<Result<Evaluation, Error>>): (seq<Scored>, seq<Failed>)
    requires |results| == |codes|
    requires forall c :: c in codes ==> c in TouristSites
  {
    if codes == [] then ([], [])
    else
      var (ok, failed) := Partition(codes[..|codes| - 1], results[..|results| - 1]);
      Place(ok, failed, codes[|codes| - 1], results[|results| - 1])
  }

  /** Every site's evaluation, in visiting order. */
  function Results(codes: seq<string>, sc: Scoring): (r: seq<Result<Evaluation, Error>>)
    requires Shuffles(sc.shuffle)
    ensures |r| == |codes| && forall k :: 0 <= k < |codes| ==> r[k] == EvaluateModel(codes[k], sc)
  {
    seq(|codes|, k requires 0 <= k < |codes| => EvaluateModel(codes[k], sc))
  }

  function ScoredCodes(s: seq<Scored>): (r: seq<string>)
    ensures |r| == |s| && forall k :: 0 <= k < |s| ==> r[k] == s[k].code
  {
    seq(|s|, k requires 0 <= k < |s| => s[k].code)
  }

  function FailedCodes(f: seq<Failed>): (r: seq<string>)
    ensures |r| == |f| && forall k :: 0 <= k < |f| ==> r[k] == f[k].code
  {
    seq(|f|, k requires 0 <= k < |f| => f[k].code)
  }

  /** One more site adds its code to exactly one of the two lists. */
  lemma PlaceCodes(ok: seq<Scored>, failed: seq<Failed>, code: string, r: Result<Evaluation, Error>)
    requires code in TouristSites && NamesOwnSite(code, r)
    ensures var (ok', failed') := Place(ok, failed, code, r);
      && multiset(ScoredCodes(ok')) + multiset(FailedCodes(failed')) == multiset(ScoredCodes(ok)) + multiset(FailedCodes(failed)) + multiset{code}
      && (forall k :: 0 <= k < |ok'| ==> ok'[k] in ok || r == Success(Evaluated(ok'[k])))
  {
    var (ok', failed') := Place(ok, failed, code, r);
    if r.Success? && r.value.Evaluated? {
      assert ok' == ok + [r.value.scored] && failed' == failed;
      assert ScoredCodes(ok') == ScoredCodes(ok) + [code];
    } else {
      assert ok' == ok && |failed'| == |failed| + 1 && failed'[..|failed|] == failed && failed'[|failed|].code == code;
      assert FailedCodes(failed') == FailedCodes(failed) + [code];
    }
  }

  /** Every visited site lands exactly once in one of the two lists: the
      sites of both lists together are the visited sites, and each scored
      entry is one of the evaluations. */
  lemma {:induction false} PartitionExactlyOnce(codes: seq<string>, results: seq<Result<Evaluation, Error>>)
    requires |results| == |codes|
    requires forall c :: c in codes ==> c in TouristSites
    requires forall k :: 0 <= k < |codes| ==> NamesOwnSite(codes[k], results[k])
    ensures var (ok, failed) := Partition(codes, results);
      && multiset(ScoredCodes(ok)) + multiset(FailedCodes(failed)) == multiset(codes)
      && (forall k :: 0 <= k < |ok| ==> Success(Evaluated(ok[k])) in results)
  {
    if codes != [] {
      var init := codes[..|codes| - 1];
      var code := codes[|codes| - 1];
      var rinit := results[..|results| - 1];
      var r := results[|results| - 1];
      assert codes == init + [code];
      assert results == rinit + [r];
      assert forall k :: 0 <= k < |init| ==> init[k] == codes[k] && rinit[k] == results[k];
      PartitionExactlyOnce(init, rinit);
      var (ok, failed) := Partition(init, rinit);
      PlaceCodes(ok, failed, code, r);
    }
  }

  /** One more visited site places its evaluation after the others. */
  lemma PartitionNext(codes: seq<string>, i: nat, sc: Scoring)
    requires Shuffles(sc.shuffle)
    requires i < |codes| && forall c :: c in codes ==> c in TouristSites
    ensures var (ok, failed) := Partition(codes[..i], Results(codes[..i], sc));
      Partition(codes[..i + 1], Results(codes[..i + 1], sc)) == Place(ok, failed, codes[i], EvaluateModel(codes[i], sc))
  {
    assert codes[..i + 1][..i] == codes[..i];
    assert Results(codes[..i + 1], sc)[..i] == Results(codes[..i], sc);
  }

  /** evaluate_all_models' loop. */
  method EvaluateAllModels(sc: Scoring) returns (ok: seq<Scored>, failed: seq<Failed>)
    requires Shuffles(sc.shuffle)
    ensures (ok, failed) == Partition(SiteCodes, Results(SiteCodes, sc))
  {
    SiteCatalogue();
    ok := [];
    failed := [];
    for i := 0 to |SiteCodes|
      invariant (ok, failed) == Partition(SiteCodes[..i], Results(SiteCodes[..i], sc))
    {
      PartitionNext(SiteCodes, i, sc);
      var code := SiteCodes[i];
      var result := EvaluateModel(code, sc);
      match result
      case Failure(e) => {
        failed := failed + [Failed(code, TouristSites[code].koreanName, Raised(e))];
      }
      case Success(ModelMissing(c, name, file)) => {
        failed := failed + [Failed(c, name, NoModelFile(file))];
      }
      case Success(Evaluated(s)) => {
        ok := ok + [s];
      }
    }
    assert SiteCodes[..|SiteCodes|] == SiteCodes;
  }

  /** Each of the seven sites lands exactly once in one of the two lists. */
  lemma EveryModelAccountedFor(sc: Scoring)
    requires Shuffles(sc.shuffle)
    ensures var (ok, failed) := Partition(SiteCodes, Results(SiteCodes, sc));
      && |ok| + |failed| == 7
      && forall c :: c in SiteCodes ==> multiset(ScoredCodes(ok))[c] + multiset(FailedCodes(failed))[c] == 1
  {
    SiteCatalogue();
    var results := Results(SiteCodes, sc);
    forall k | 0 <= k < |SiteCodes| ensures NamesOwnSite(SiteCodes[k], results[k]) {
      EvaluateNamesOwnSite(SiteCodes[k], sc);
    }
    PartitionExactlyOnce(SiteCodes, results);
    var (ok, failed) := Partition(SiteCodes, results);
    assert |multiset(SiteCodes)| == 7;
    assert |multiset(ScoredCodes(ok))| == |ok| && |multiset(FailedCodes(failed))| == |failed|;
    forall c | c in SiteCodes
      ensures multiset(SiteCodes)[c] == 1
    {
      DistinctCount(SiteCodes, c);
    }
  }

  /** In a sequence without repeats an element occurs once. */
  lemma {:induction false} DistinctCount(s: seq<string>, c: string)
    requires forall i, j :: 0 <= i < j < |s| ==> s[i] != s[j]
    requires c in s
    ensures multiset(s)[c] == 1
  {
    var init := s[..|s| - 1];
    assert s == init + [s[|s| - 1]];
    if c == s[|s| - 1] {
      assert c !in init;
    } else {
      DistinctCount(init, c);
    }
  }

  /** "May come first" in the summary table: a test R² at least as high. */
  function HigherTestR2(a: Scored, b: Scored): bool {
    a.test.r2 >= b.test.r2
  }

  /** The summary table's rows. */
  function SummaryTable(ok: seq<Scored>): seq<Scored> {
    Sort(ok, HigherTestR2)
  }

  /** The summary table lists every success once, by non-increasing test R². */
  lemma SummaryTableOrdered(ok: seq<Scored>)
    ensures multiset(SummaryTable(ok)) == multiset(ok)
    ensures forall i, j :: 0 <= i < j < |SummaryTable(ok)| ==> SummaryTable(ok)[i].test.r2 >= SummaryTable(ok)[j].test.r2
  {
    assert Total(HigherTestR2) && Transitive(HigherTestR2);
    SortSorted(ok, HigherTestR2);
  }
}
