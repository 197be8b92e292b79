/** PredictionService: the two lazy artifact caches and `predict`, which
    chains pipeline loading, the training column order, the live readings,
    feature preparation and the congestion formula. */
module Predictor {
  import opened Wrappers
  import opened Errors
  import opened Calendar
  import opened Frames
  import opened Config
  import opened DataLoader
  import opened AirQuality
  import opened Weather
  import opened Acquisition
  import opened Features
  import opened Numerics

  /** A fitted pipeline, reduced to what `predict` does to one input record. */
  datatype Pipeline = Pipeline(predict: Row -> real)

  /** The per-site prediction: `predicted_visitors` and `congestion_level`. */
  datatype Prediction = Prediction(predictedVisitors: int, congestionLevel: real)

  /** Everything `predict` reads from outside the process: the clock, the two
      artifact directories (file name to loaded object; a file exists exactly
      when it is a key), the SQLite database and the two web services. */
  datatype Environment = Environment(
    now: Timestamp,
    scalerDir: map<string, Scaler>,
    modelDir: map<string, Pipeline>,
    db: Option<Database>,
    airApi: string -> AirResponse,
    weatherApi: WeatherRequest -> WeatherResponse)

  /** The scalers the loop over `files` collects: each key whose file exists. */
  function LoadedScalers(dir: map<string, Scaler>, files: seq<(string, string)>): map<string, Scaler> {
    if files == [] then map[]
    else
      var m := LoadedScalers(dir, files[..|files| - 1]);
      var (key, file) := files[|files| - 1];
      if file in dir then m[key := dir[file]] else m
  }

  /** The loop caches exactly the keys whose file exists, each with the
      object loaded from its own file, when the keys are distinct. */
  lemma {:induction false} LoadedScalersContents(dir: map<string, Scaler>, files: seq<(string, string)>, i: nat)
    requires forall a, b :: 0 <= a < b < |files| ==> files[a].0 != files[b].0
    requires i < |files|
    ensures files[i].0 in LoadedScalers(dir, files) <==> files[i].1 in dir
    ensures files[i].1 in dir ==> LoadedScalers(dir, files)[files[i].0] == dir[files[i].1]
  {
    var init := files[..|files| - 1];
    if i < |files| - 1 {
      assert forall a :: 0 <= a < |init| ==> init[a] == files[a];
      assert files[i].0 != files[|files| - 1].0;
      LoadedScalersContents(dir, init, i);
    } else {
      assert forall a :: 0 <= a < |init| ==> init[a].0 != files[i].0;
      LoadedScalersAbsent(dir, init, files[i].0);
    }
  }

  /** A key no entry names is never cached. */
  lemma {:induction false} LoadedScalersAbsent(dir: map<string, Scaler>, files: seq<(string, string)>, k: string)
    requires forall i :: 0 <= i < |files| ==> files[i].0 != k
    ensures k !in LoadedScalers(dir, files)
  {
    if files != [] {
      LoadedScalersAbsent(dir, files[..|files| - 1], k);
    }
  }

  /** Nothing but scaler keys is ever cached. */
  lemma {:induction false} LoadedScalersKeys(dir: map<string, Scaler>, files: seq<(string, string)>, k: string)
    requires k in LoadedScalers(dir, files)
    ensures exists i :: 0 <= i < |files| && files[i].0 == k
  {
    var init := files[..|files| - 1];
    if k != files[|files| - 1].0 {
      LoadedScalersKeys(dir, init, k);
      var i :| 0 <= i < |init| && init[i].0 == k;
      assert files[i].0 == k;
    }
  }

  /** load_scalers on cache state `cache`: the map returned and the new cache. */
  function ScalerCacheStep(cache: Option<map<string, Scaler>>, dir: map<string, Scaler>)
    : (map<string, Scaler>, Option<map<string, Scaler>>)
  {
    if cache.Some? then (cache.value, cache)
    else (LoadedScalers(dir, ScalerFiles), Some(LoadedScalers(dir, ScalerFiles)))
  }

  /** load_pipeline on cache state `cache`: the outcome and the new cache. */
  function PipelineStep(cache: map<string, Pipeline>, code: string, dir: map<string, Pipeline>)
    : (Result<Pipeline, Error>, map<string, Pipeline>)
  {
    if code in cache then (Success(cache[code]), cache)
    else if code !in ModelFiles then (Failure(UnknownSite(code)), cache)
    else if ModelFiles[code] !in dir then (Failure(ModelFileMissing(ModelFiles[code])), cache)
    else (Success(dir[ModelFiles[code]]), cache[code := dir[ModelFiles[code]]])
  }

  /** The scaler cache is filled once: a filled cache is returned as it is
      whatever the directory now holds, and an empty one is filled with what
      the directory held the first time. */
  lemma ScalerCacheRules(cache: Option<map<string, Scaler>>, dir: map<string, Scaler>, later: map<string, Scaler>)
    ensures ScalerCacheStep(cache, dir).1 == Some(ScalerCacheStep(cache, dir).0)
    ensures cache.Some? ==> ScalerCacheStep(cache, dir) == (cache.value, cache)
    ensures ScalerCacheStep(ScalerCacheStep(cache, dir).1, later).0 == ScalerCacheStep(cache, dir).0
    ensures cache.None? ==> forall k :: k in ScalerCacheStep(cache, dir).0 ==> k in ScalerKeys()
  {
    if cache.None? {
      forall k | k in ScalerCacheStep(cache, dir).0 ensures k in ScalerKeys() {
        LoadedScalersKeys(dir, ScalerFiles, k);
        var i :| 0 <= i < |ScalerFiles| && ScalerFiles[i].0 == k;
        assert ScalerKeys()[i] == k;
      }
    }
  }

  /** The pipeline cache: a hit skips both checks; an unknown code is
      reported before a missing file; a failure leaves the cache unchanged; a
      load adds exactly the one entry. */
  lemma PipelineCacheRules(cache: map<string, Pipeline>, code: string, dir: map<string, Pipeline>, later: map<string, Pipeline>)
    ensures code in cache ==> PipelineStep(cache, code, dir) == (Success(cache[code]), cache)
    ensures code !in cache && code !in TouristSites ==> PipelineStep(cache, code, dir) == (Failure(UnknownSite(code)), cache)
    ensures PipelineStep(cache, code, dir).0.Failure? ==> PipelineStep(cache, code, dir).1 == cache
    ensures PipelineStep(cache, code, dir).0.Success? ==>
      PipelineStep(cache, code, dir).1 == cache[code := PipelineStep(cache, code, dir).0.value]
    ensures PipelineStep(cache, code, dir).0.Success? ==>
      PipelineStep(PipelineStep(cache, code, dir).1, code, later).0 == PipelineStep(cache, code, dir).0
  {
    ModelFileKeys();
  }

  /** The training columns for a site: the columns of its loaded X. */
  function FeatureColumns(code: string, db: Option<Database>): Result<seq<string>, Error>
    requires code in TouristSites
  {
    match TouristData(db, TouristSites[code].koreanName)
    case Failure(e) => Failure(e)
    case Success((x, _)) => Success(Names(x))
  }

  /** The congestion level of `visitors` at a site of capacity `capacity`:
      the percentage of capacity, rounded to two decimals. */
  function CongestionLevel(visitors: int, capacity: int): (level: real)
    requires capacity > 0
    ensures visitors >= 0 ==> level >= 0.0
    ensures visitors as real * 100.0 / capacity as real - 0.005 <= level <= visitors as real * 100.0 / capacity as real + 0.005
    ensures (level * 100.0).Floor as real == level * 100.0
  {
    var exact := visitors as real / capacity as real * 100.0;
    assert exact == visitors as real * 100.0 / capacity as real;
    Round2(exact)
  }

  /** The inference half of `predict`: the feature record, reordered to the
      training columns, through the pipeline, truncated, and the congestion
      percentage under the site's display name. */
  function Inference(pipeline: Pipeline, site: Site, columns: seq<string>, w: WeatherData, scalers: map<string, Scaler>)
    : (r: Result<map<string, Prediction>, Error>)
    requires ValidTimestamp(w.measured) && site.maxCapacity > 0
    ensures r.Failure? <==> PrepareFeatures(w, scalers).Failure? || SelectColumns(PrepareFeatures(w, scalers).value, columns).Failure?
    ensures r.Success? ==> (r.value.Keys == {site.koreanName}
      && var p := r.value[site.koreanName];
      && var raw := pipeline.predict(SelectColumns(PrepareFeatures(w, scalers).value, columns).value);
      && (0.0 <= raw ==> 0 <= p.predictedVisitors && p.predictedVisitors as real <= raw < p.predictedVisitors as real + 1.0)
      && (raw < 0.0 ==> p.predictedVisitors <= 0 && p.predictedVisitors as real - 1.0 < raw <= p.predictedVisitors as real)
      && p.congestionLevel == CongestionLevel(p.predictedVisitors, site.maxCapacity))
  {
    match PrepareFeatures(w, scalers)
    case Failure(e) => Failure(e)
    case Success(record) =>
      match SelectColumns(record, columns)
      case Failure(e) => Failure(e)
      case Success(input) =>
        var visitors := Trunc(pipeline.predict(input));
        Success(map[site.koreanName := Prediction(visitors, CongestionLevel(visitors, site.maxCapacity))])
  }

  /** What `predict` returns or raises, and the two caches afterwards. */
  function PredictStep(scalers: Option<map<string, Scaler>>, pipelines: map<string, Pipeline>, code: string, env: Environment)
    : (Result<map<string, Prediction>, Error>, Option<map<string, Scaler>>, map<string, Pipeline>)
    requires ValidTimestamp(env.now)
  {
    if code !in TouristSites then (Failure(UnknownSite(code)), scalers, pipelines)
    else
      var site := TouristSites[code];
      var (pipeline, pipelines') := PipelineStep(pipelines, code, env.modelDir);
      if pipeline.Failure? then (Failure(pipeline.error), scalers, pipelines')
      else match FeatureColumns(code, env.db)
      case Failure(e) => (Failure(e), scalers, pipelines')
      case Success(columns) =>
        match Combined(env.airApi(site.districtCode), env.weatherApi, site.nx, site.ny, env.now)
        case Failure(e) => (Failure(e), scalers, pipelines')
        case Success(w) =>
          var (loaded, scalers') := ScalerCacheStep(scalers, env.scalerDir);
          MeasuredIsValid(env.airApi(site.districtCode), env.weatherApi, site.nx, site.ny, env.now);
          CapacitiesPositive();
          (Inference(pipeline.value, site, columns, w, loaded), scalers', pipelines')
  }

  /** An unknown code is rejected before anything is loaded. */
  lemma PredictUnknownSite(scalers: Option<map<string, Scaler>>, pipelines: map<string, Pipeline>, code: string, env: Environment)
    requires ValidTimestamp(env.now) && code !in TouristSites
    ensures PredictStep(scalers, pipelines, code, env) == (Failure(UnknownSite(code)), scalers, pipelines)
  {
  }

  /** The caches only grow: a cached pipeline stays cached with the same
      object, only the requested code can be added, and a filled scaler
      cache stays as it is. */
  lemma PredictCachesGrow(scalers: Option<map<string, Scaler>>, pipelines: map<string, Pipeline>, code: string, env: Environment)
    requires ValidTimestamp(env.now)
    ensures var (_, scalers', pipelines') := PredictStep(scalers, pipelines, code, env);
      && (forall c :: c in pipelines ==> c in pipelines' && pipelines'[c] == pipelines[c])
      && pipelines'.Keys <= pipelines.Keys + {code}
      && (scalers.Some? ==> scalers' == scalers)
  {
    if code in TouristSites {
      PredictStepCaches(scalers, pipelines, code, env);
      PipelineCacheRules(pipelines, code, env.modelDir, env.modelDir);
      ScalerCacheRules(scalers, env.scalerDir, env.scalerDir);
    }
  }

  /** For a known site the pipeline cache is what the pipeline step left,
      and the scaler cache is either untouched or what the scaler step left. */
  lemma PredictStepCaches(scalers: Option<map<string, Scaler>>, pipelines: map<string, Pipeline>, code: string, env: Environment)
    requires ValidTimestamp(env.now) && code in TouristSites
    ensures PredictStep(scalers, pipelines, code, env).2 == PipelineStep(pipelines, code, env.modelDir).1
    ensures PredictStep(scalers, pipelines, code, env).1 == scalers
      || PredictStep(scalers, pipelines, code, env).1 == ScalerCacheStep(scalers, env.scalerDir).1
  {
    var site := TouristSites[code];
    var pipeline := PipelineStep(pipelines, code, env.modelDir).0;
    if pipeline.Success? && FeatureColumns(code, env.db).Success? {
      var combined := Combined(env.airApi(site.districtCode), env.weatherApi, site.nx, site.ny, env.now);
      if combined.Success? {
        assert PredictStep(scalers, pipelines, code, env).1 == ScalerCacheStep(scalers, env.scalerDir).1;
      }
    }
  }

  /** A successful prediction is the inference half run on the pipeline the
      cache step returned, the site's training columns, the combined
      readings and the scalers the scaler cache step returned. */
  lemma PredictStepSuccess(scalers: Option<map<string, Scaler>>, pipelines: map<string, Pipeline>, code: string, env: Environment)
    requires ValidTimestamp(env.now)
    requires PredictStep(scalers, pipelines, code, env).0.Success?
    ensures code in TouristSites && TouristSites[code].maxCapacity > 0
    ensures PipelineStep(pipelines, code, env.modelDir).0.Success?
    ensures FeatureColumns(code, env.db).Success?
    ensures var site := TouristSites[code];
      && Combined(env.airApi(site.districtCode), env.weatherApi, site.nx, site.ny, env.now).Success?
      && var w := Combined(env.airApi(site.districtCode), env.weatherApi, site.nx, site.ny, env.now).value;
      && ValidTimestamp(w.measured)
      && PredictStep(scalers, pipelines, code, env).0
        == Inference(PipelineStep(pipelines, code, env.modelDir).0.value, site, FeatureColumns(code, env.db).value,
                     w, ScalerCacheStep(scalers, env.scalerDir).0)
  {
    CapacitiesPositive();
    var site := TouristSites[code];
    MeasuredIsValid(env.airApi(site.districtCode), env.weatherApi, site.nx, site.ny, env.now);
  }

  /** A prediction is keyed by the site's display name and by nothing else. */
  lemma PredictionKey(scalers: Option<map<string, Scaler>>, pipelines: map<string, Pipeline>, code: string, env: Environment)
    requires ValidTimestamp(env.now)
    requires PredictStep(scalers, pipelines, code, env).0.Success?
    ensures code in TouristSites
    ensures PredictStep(scalers, pipelines, code, env).0.value.Keys == {TouristSites[code].koreanName}
  {
    PredictStepSuccess(scalers, pipelines, code, env);
  }

  class PredictionService {
    /** `_scalers_cache`: None until load_scalers first runs. */
    var scalersCache: Option<map<string, Scaler>>
    /** `_pipelines_cache`: site code to loaded pipeline. */
    var pipelinesCache: map<string, Pipeline>

    /** The state right after the key check. */
    constructor ()
      ensures scalersCache == None && pipelinesCache == map[]
    {
      scalersCache := None;
      pipelinesCache := map[];
    }

    /** `PredictionService()`: validate the two API keys, then start with
        empty caches. */
    static method Create(airQualityKey: Option<string>, kmaKey: Option<string>) returns (r: Result<PredictionService, Error>)
      ensures Validate(airQualityKey, kmaKey).Some? ==> r == Failure(Validate(airQualityKey, kmaKey).value)
      ensures Validate(airQualityKey, kmaKey).None? ==>
        r.Success? && fresh(r.value) && r.value.scalersCache == None && r.value.pipelinesCache == map[]
    {
      var problem := Validate(airQualityKey, kmaKey);
      if problem.Some? {
        return Failure(problem.value);
      }
      var service := new PredictionService();
      r := Success(service);
    }

    /** load_scalers, with the loop over SCALER_FILES. */
    method LoadScalers(dir: map<string, Scaler>) returns (scalers: map<string, Scaler>)
      modifies this
      ensures (scalers, scalersCache) == ScalerCacheStep(old(scalersCache), dir)
      ensures pipelinesCache == old(pipelinesCache)
    {
      if scalersCache.None? {
        var loaded := map[];
        for i := 0 to |ScalerFiles|
          invariant loaded == LoadedScalers(dir, ScalerFiles[..i])
        {
          assert ScalerFiles[..i + 1][..i] == ScalerFiles[..i];
          var (key, file) := ScalerFiles[i];
          if file in dir {
            loaded := loaded[key := dir[file]];
          }
        }
        assert ScalerFiles[..|ScalerFiles|] == ScalerFiles;
        scalersCache := Some(loaded);
      }
      scalers := scalersCache.value;
    }

    /** load_pipeline. */
    method LoadPipeline(code: string, dir: map<string, Pipeline>) returns (r: Result<Pipeline, Error>)
      modifies this
      ensures (r, pipelinesCache) == PipelineStep(old(pipelinesCache), code, dir)
      ensures scalersCache == old(scalersCache)
    {
      if code !in pipelinesCache {
        if code !in ModelFiles {
          return Failure(UnknownSite(code));
        }
        var file := ModelFiles[code];
        if file !in dir {
          return Failure(ModelFileMissing(file));
        }
        pipelinesCache := pipelinesCache[code := dir[file]];
      }
      r := Success(pipelinesCache[code]);
    }

    /** get_feature_columns: the columns of the site's training X, in order. */
    method GetFeatureColumns(code: string, db: Option<Database>) returns (r: Result<seq<string>, Error>)
      requires code in TouristSites
      ensures r == FeatureColumns(code, db)
    {
      var data := LoadTouristData(db, TouristSites[code].koreanName);
      if data.Failure? {
        return Failure(data.error);
      }
      r := Success(Names(data.value.0));
    }

    /** predict. */
    method Predict(code: string, env: Environment) returns (r: Result<map<string, Prediction>, Error>)
      requires ValidTimestamp(env.now)
      modifies this
      ensures (r, scalersCache, pipelinesCache) == PredictStep(old(scalersCache), old(pipelinesCache), code, env)
    {
      if code !in TouristSites {
        return Failure(UnknownSite(code));
      }
      var site := TouristSites[code];
      var pipeline := LoadPipeline(code, env.modelDir);
      if pipeline.Failure? {
        return Failure(pipeline.error);
      }
      var columns := GetFeatureColumns(code, env.db);
      if columns.Failure? {
        return Failure(columns.error);
      }
      var weather := FetchWeatherData(env.airApi, env.weatherApi, site.districtCode, site.nx, site.ny, env.now);
      if weather.Failure? {
        return Failure(weather.error);
      }
      var scalers := LoadScalers(env.scalerDir);
      MeasuredIsValid(env.airApi(site.districtCode), env.weatherApi, site.nx, site.ny, env.now);
      var record := PrepareFeatures(weather.value, scalers);
      if record.Failure? {
        return Failure(record.error);
      }
      var input := SelectColumns(record.value, columns.value);
      if input.Failure? {
        return Failure(input.error);
      }
      CapacitiesPositive();
      var visitors := Trunc(pipeline.value.predict(input.value));
      var level := CongestionLevel(visitors, site.maxCapacity);
      r := Success(map[site.koreanName := Prediction(visitors, level)]);
    }
  }

  /** The module-level `predict`: a fresh service, then one prediction. */
  method PredictOnce(airQualityKey: Option<string>, kmaKey: Option<string>, code: string, env: Environment)
    returns (r: Result<map<string, Prediction>, Error>)
    requires ValidTimestamp(env.now)
    ensures Validate(airQualityKey, kmaKey).Some? ==> r == Failure(Validate(airQualityKey, kmaKey).value)
    ensures Validate(airQualityKey, kmaKey).None? ==> r == PredictStep(None, map[], code, env).0
  {
    var service := PredictionService.Create(airQualityKey, kmaKey);
    if service.Failure? {
      return Failure(service.error);
    }
    r := service.value.Predict(code, env);
  }
}
