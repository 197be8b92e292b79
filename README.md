# Seoul tourist congestion predictor, modelled in Dafny

This project models the decision logic of a service that predicts visitor
congestion at seven Seoul tourist sites (palaces, a shrine, an arts centre and
a park) from live air-quality and weather readings. It also models how the
trained per-site models are scored offline. The model covers:

- **the prediction service** (`Predictor`, `Features`, `Acquisition`,
  `AirQuality`, `Weather`). This is the `PredictionService` class with its two
  lazy artifact caches, and `predict`. `predict` chains pipeline loading, the
  training column order, the two upstream fetches with their envelope checks
  and fallbacks, feature preparation with its one-hot blocks, and the
  congestion formula;
- **the configuration and data loading** (`Config`, `DataLoader`, `Frames`).
  This is the site catalogue and artifact tables, the API-key check, and the
  read of one site's historical table: split off the label, drop the stale
  columns, coerce the calendar indicator columns;
- **the model factory** (`ModelFactory`). This is the registry of model
  backends as a class with the name list and the name-to-factory map, the
  optional backends, and the merge of defaults with a caller's configuration;
- **the evaluation script** (`Evaluation`). This covers the error-dict and
  exception paths of scoring one model, the row filtering and the split sizes,
  the report's classification branches, and the batch over all sites with its
  summary order;
- **the API server's own logic** (`Backend`). This is the two R² classifiers,
  the loop of `/api/predict-all` over the one shared service, and the loop
  and summary of `/api/evaluate-all`;
- **three dashboard computations** (`Frontend`, `Sorting`). These are the
  recommended spot, the comparison chart's ordering, and the per-level counts
  and visitor total of the overview.

Supporting modules:

- `Calendar`: Python's proleptic Gregorian date arithmetic — the ordinal,
  the weekday, and the previous day.
- `Text`: `str(n)`, zero padding, `float(text)` on decimal notation, and
  ASCII `lower`.
- `Json`: a decoded JSON scalar and `float`/`str` on it.
- `Numerics`: `int(x)` and `round(x, 2)`.
- `Errors`: one constructor per exception the core raises.
- `Wrappers`: `Option` and `Result`.

Everything outside the process is a parameter:

- the clock is a `Timestamp`;
- the two web services are functions from a request to an already decoded
  response, which can also be a transport failure;
- the saved scalers and pipelines are maps from file name to an object,
  where a file exists exactly when it is a key;
- the SQLite database is a map from table name to a frame;
- a fitted scaler or pipeline is its `transform`/`predict` function;
- the seeded shuffle of `train_test_split` and the metric functions are
  parameters of the evaluation.

Where the source updates state step by step, the model does as well:

- `PredictionService` and `ModelRegistry` are classes whose methods modify
  their fields;
- the loops in `load_scalers`, the category loop, the indicator coercion and
  the three batch loops are `while`/`for` loops.

Each such method is proved equal to a function of its inputs
and old state, and the properties are proved as lemmas about those functions.

A missing scaler file is not fatal when loaded: `load_scalers` warns and skips
it. The prediction then fails: `prepare_features` raises `KeyError` for the
first scaler it cannot find, which `Features.PrepareFeaturesOutcome` states
as `ScalerMissing`.

Because every value in the model is immutable, two source promises hold by
construction:
- sorting a copy (`[...spots].sort`, or `.map` followed by `.sort`) leaves the
  caller's list as it was;
- each `get_default_config` returns a fresh dict, so a merge cannot alter
  later defaults.

`ModelRegistry.CreateModel` and `GetDefaultConfig` have no `modifies` clause, so
they leave the registry unchanged.

## Model

| member | source | states |
|---|---|---|
| Config.ScalerKeys | ml_service/config.py:98-104 | the scaler keys are those of SCALER_FILES, in declaration order |
| Config.SiteCatalogue | ml_service/config.py:30-80 | there are exactly seven site codes, all distinct, and the catalogue holds exactly them |
| Config.ModelFileKeys | ml_service/config.py:107-115 | MODEL_FILES has exactly the catalogue's codes as keys (each entry is "model_" + code + ".pkl" by definition) |
| Config.CapacitiesPositive | ml_service/config.py:30-80 | every site's max_capacity is positive, so the congestion division is defined |
| Config.DisplayNamesDistinct | ml_service/config.py:30-80 | no two sites share a korean_name |
| Config.ScalerKeySet | ml_service/config.py:98-104 | the scaler keys are humidity, rainfall, temperature, tinydust, windspeed — the keys feature preparation reads |
| Config.ModelType | ml_service/config.py:119 | unset gives "xgboost"; a set value comes out as the environment value lower-cased, character by character |
| Config.ModelTypeStable | ml_service/config.py:119 | setting MODEL_TYPE to the value it resolved to gives the same model type |
| Config.Validate | ml_service/config.py:132-145 | no error exactly when both keys are set and non-empty; a missing or empty air-quality key is reported first, and otherwise the KMA key is reported |
| DataLoader.AsInt | ml_service/data_loader.py:53 | `astype(int)` converts exactly booleans, numbers and integer text (an optional sign and digits). Booleans become 1 or 0; numbers are truncated toward zero; text is read as `int(text)` reads it; every result is a whole number |
| DataLoader.AsIntOfIntegerText | ml_service/data_loader.py:53 | a cell holding the text `str(n)` converts to the integer n |
| DataLoader.AsIntCells | ml_service/data_loader.py:53 | a column converts exactly when each of its cells does, cell by cell |
| DataLoader.CoerceColumn | ml_service/data_loader.py:52-53 | on success: same column names; other columns untouched; the named column converted cell by cell. It fails exactly when the named column has an unconvertible cell, naming that column |
| DataLoader.CoerceAll | ml_service/data_loader.py:51-53 | the coercion loop keeps the number of columns |
| DataLoader.IndexOfName | ml_service/data_loader.py:40 | the label is the first column with the table's name |
| DataLoader.TouristData | ml_service/data_loader.py:11-55 | load_tourist_data: missing database, missing table, empty table and missing label column fail in that order; otherwise y is the label column and X is the table without the label and the stale columns, with the indicator columns coerced, or the coercion's error |
| DataLoader.CoerceAllFrom | ml_service/data_loader.py:51-53 | the loop from step i is coercing column i, then continuing from i + 1, or stopping at its error |
| DataLoader.LoadTouristData | ml_service/data_loader.py:11-55 | the method, indicator loop included, returns exactly the loader's outcome function |
| DataLoader.LoadErrors | ml_service/data_loader.py:21-36 | the checks run in order: database file, then table, then emptiness. A success implies all three passed and the label column exists |
| DataLoader.CoerceAllShape | ml_service/data_loader.py:51-53 | coercion keeps every column name, and every column it does not name stays as it was |
| DataLoader.LoadedColumns | ml_service/data_loader.py:39-44 | X's names are the table's without the label and the stale columns, in the original order. Neither the label nor any stale column is in X. y is the label column |
| DataLoader.OtherColumnsUntouched | ml_service/data_loader.py:47-53 | a column that is not a calendar indicator reaches X unchanged |
| DataLoader.CoerceAllConverts | ml_service/data_loader.py:51-53 | with distinct names, every listed column present is converted cell by cell |
| DataLoader.IndicatorColumnsDistinct | ml_service/data_loader.py:47-49 | the eleven indicator names are distinct |
| DataLoader.IndicatorColumnsConverted | ml_service/data_loader.py:47-53 | in the loaded X every present indicator column holds its cells converted to integers |
| Frames.FilterOut | ml_service/data_loader.py:44 | the result holds exactly the names not dropped, and is no longer than the input |
| Frames.DropColumns | ml_service/data_loader.py:44 | `drop(columns=…)` with absent names ignored keeps exactly the columns not named |
| Frames.DropColumnsNames | ml_service/data_loader.py:39-44 | the surviving names are the input names without the dropped ones, in their original relative order |
| Frames.DropColumnsWellFormed | ml_service/data_loader.py:39-44 | dropping keeps a table rectangular with distinct names, and keeps its row count |
| Calendar.Weekday | ml_service/predictor.py:226 | `date.weekday()` lies in 0..6 |
| Calendar.Ordinal | ml_service/predictor.py:226 | `date.toordinal()`: days in the years before, plus days in the months before, plus the day of the month |
| Calendar.PrevDay | ml_service/predictor.py:99 | the calendar day before: the previous day of the month, else the last day of the previous month, else 31 December of the previous year |
| Calendar.PrevDayIsOneDayEarlier | ml_service/predictor.py:99 | `now - timedelta(days=1)` is a valid date whose ordinal is one less |
| Calendar.PrevDayWeekday | ml_service/predictor.py:99 | the day before has the previous weekday |
| Calendar.WeekdayExample | ml_service/predictor.py:226 | 1 January 2024 has weekday 0 (Monday), as in Python |
| Text.NatToString | ml_service/predictor.py:245-255 | `str(n)` is digits without a leading zero: one digit exactly when n < 10 |
| Text.NatToStringRoundTrip | ml_service/predictor.py:245-255 | the digits `str(n)` prints denote n |
| Text.Pad2 | ml_service/predictor.py:95 | `f"{h:02d}"` is two digits for h < 100 and denotes h |
| Text.FixedDigits | ml_service/predictor.py:96 | a fixed-width field has exactly w digits |
| Text.FixedDigitsValue | ml_service/predictor.py:96 | a w-digit field denotes n modulo 10^w |
| Text.FixedDigitsOfValue | ml_service/predictor.py:77 | reprinting a digit string's value at its own width gives the string back |
| Text.ParseFloat | ml_service/predictor.py:142 | `float(text)` accepts nothing on the empty text |
| Text.ParseUnsigned | ml_service/predictor.py:142 | an unsigned decimal reads as a non-negative number |
| Text.ParseFloatOfIntToString | ml_service/predictor.py:140-142 | `float(str(n))` is n for every integer |
| Text.ParseInt | ml_service/data_loader.py:53 | `int(text)` succeeds exactly on an optional sign followed by at least one digit |
| Text.ParseIntOfIntToString | ml_service/data_loader.py:53 | `int(str(n))` is n for every integer |
| Text.ParseIntAgreesWithFloat | ml_service/data_loader.py:53 | on integer text `int` and `float` read the same number |
| Text.Lower | ml_service/config.py:119 | lower-casing keeps the length and maps each character on its own |
| Text.LowerIdempotent | ml_service/config.py:119 | lower-casing twice equals lower-casing once |
| Json.FloatOf | ml_service/predictor.py:83 | `float(v)`: null fails; a boolean is 1.0/0.0; an int or float keeps its value; text is read as a decimal |
| Json.StrOf | ml_service/predictor.py:75 | `str(v)` keeps text as it is, and prints null as "None" |
| Json.FloatOfStrOfInt | ml_service/predictor.py:140-142 | an integer observation printed by `str` reads back with `float` as the same number |
| Numerics.Trunc | ml_service/predictor.py:295 | `int(x)` truncates toward zero: at most x and within 1 of it for x ≥ 0, symmetrically below 0 |
| Numerics.RoundHalfEven | ml_service/predictor.py:301 | the nearest integer, within one half |
| Numerics.Round2 | ml_service/predictor.py:301 | `round(x, 2)` is a whole number of hundredths, within half a hundredth of x |
| Numerics.CongestionExample | backend/main.py:172-175 | 7394 visitors at capacity 119765 give congestion 6.17, as in the API's response example |
| AirQuality.Slices | ml_service/predictor.py:77 | the measurement text is cut into five fixed slices |
| AirQuality.ParseMeasured | ml_service/predictor.py:75-80 | with fewer than 14 characters the time is now. Otherwise a success requires twelve digits naming a real minute in pandas' range. Every failure is BadValue |
| AirQuality.MeasurementText | ml_service/predictor.py:75-77 | the service's measurement text for a moment is 14 characters long |
| AirQuality.FetchAirQuality | ml_service/predictor.py:51-89 | a transport failure and a missing service key each give their own error; a success always comes from a document carrying the service key |
| AirQuality.EnvelopeAccepted | ml_service/predictor.py:56-73 | the air-quality envelope is accepted exactly when the service key is present, its RESULT code (if any) is INFO-000, and `row` is present and not an empty list |
| AirQuality.AirQualityOutcome | ml_service/predictor.py:56-85 | a rejected envelope fails; a RESULT code other than INFO-000 is reported with that code; a missing `row` is NoData. A success needs an accepted envelope, a readable time and a readable PM, and carries both from the first reading |
| AirQuality.MissingFieldsDefault | ml_service/predictor.py:75-83 | a reading with neither PM nor MSRMT_YMD gives pm10 0.0, stamped now |
| AirQuality.OnlyFirstRowRead | ml_service/predictor.py:70-73 | a list of readings is read through its first element only |
| AirQuality.SecondsIgnored | ml_service/predictor.py:76-77 | only the first twelve characters of a long measurement text matter |
| AirQuality.MeasurementRoundTrip | ml_service/predictor.py:75-78 | the service's text for any representable moment is read back as that moment |
| AirQuality.MeasurementSlices | ml_service/predictor.py:77 | the five slices of a measurement text are digits naming its moment |
| AirQuality.MeasurementTextRecovered | ml_service/predictor.py:76-78 | an accepted long text is, up to the seconds, the service's text for the moment it was read as |
| AirQuality.PandasYears | ml_service/predictor.py:78 | every moment pandas can represent lies in the years 1677 to 2262 |
| Weather.BaseSlot | ml_service/predictor.py:93-100 | the slot fails exactly at midnight of 0001-01-01 (the timedelta overflow). Otherwise it is a valid date with a four-digit time |
| Weather.DateText | ml_service/predictor.py:96 | `strftime("%Y%m%d")` is eight digits |
| Weather.BaseSlotRule | ml_service/predictor.py:93-100 | at hour h ≠ 0: today at h:00. At hour 0: the previous calendar day (ordinal one less, previous weekday) at 23:00 |
| Weather.BaseSlotBeforeNow | ml_service/predictor.py:93-100 | the requested slot never lies after now, and starts within the current hour (within two hours at hour 0) |
| Weather.ItemValue | ml_service/predictor.py:140-144 | an item's value is `float(obsrValue)` (default "0"), or 0.0 when that fails |
| Weather.Categories | ml_service/predictor.py:137-144 | the category map: each item sets its category to its value, so later items overwrite earlier ones |
| Weather.CollectCategories | ml_service/predictor.py:137-144 | the category loop builds exactly the category map of its items |
| Weather.LastWins | ml_service/predictor.py:137-144 | a category is present exactly when some item names it, with the value of the last item naming it |
| Weather.ReadObservation | ml_service/predictor.py:114-152 | a transport failure and a missing `response` each give their own error; a success is stamped now |
| Weather.EnvelopeAccepted | ml_service/predictor.py:119-136 | the weather envelope is accepted exactly when `response` is present, its resultCode (if any) is '00', and body, items and a non-empty item list are present |
| Weather.WeatherOutcome | ml_service/predictor.py:119-150 | success exactly for an accepted envelope; a resultCode other than '00' is reported with that code. T1H/REH/WSD/RN1 are read, or default to 20.0/60.0/2.0/0.0 |
| Weather.UnreadableValueIsZero | ml_service/predictor.py:141-144 | an item whose value does not parse is recorded as 0.0 |
| Weather.FetchWeatherApi | ml_service/predictor.py:91-156 | the fetch (base slot, request, envelope checks, category loop) returns exactly the fetcher's outcome function |
| Weather.WeatherApiResult | ml_service/predictor.py:91-156 | the base slot's error, or the observation read from the service's answer to the request for that base date and time |
| Acquisition.FetchWeatherData | ml_service/predictor.py:158-181 | the method, with its caught weather failure, returns exactly the merge function's outcome |
| Acquisition.Combined | ml_service/predictor.py:160-181 | fetch_weather_data: an air-quality failure fails; otherwise PM10 from the air reading and the other four readings from the weather observation, or 2.0/20.0/60.0/0.0 stamped with the air-quality time when the weather fetch fails |
| Acquisition.FallbackRule | ml_service/predictor.py:160-181 | an air-quality failure is fatal. A weather failure gives 2.0/20.0/60.0/0.0 stamped with the air-quality time. A weather success gives its readings stamped now. pm10 always comes from the air-quality reading |
| Acquisition.MeasuredIsValid | ml_service/predictor.py:171-180 | the merged record is always stamped with a valid moment |
| Features.MonthToSeason | ml_service/predictor.py:36-45 | a season in 0..3, and 3 for any integer outside 1..12 |
| Features.SeasonBlocks | ml_service/predictor.py:36-45 | for months 1..12 the season is ((m + 9) / 3) mod 4: 0 for 3-5, 1 for 6-8, 2 for 9-11, 3 for 12, 1 and 2 |
| Features.SeasonChanges | ml_service/predictor.py:36-45 | the season changes between consecutive months exactly after months 2, 5, 8 and 11 |
| Features.HumidityEffect | ml_service/predictor.py:31-33 | (on exact reals) more humidity raises the discomfort index exactly when 0.99 t > 14.3, and leaves it unchanged exactly when they are equal |
| Features.DiscomfortIndex | ml_service/predictor.py:31-33 | the discomfort index 0.81 t + 0.01 h (0.99 t − 14.3) + 46.3 |
| Features.OneHot | ml_service/predictor.py:245-255 | a one-hot block has `count` columns named prefix + index, 1 at the given index and 0 elsewhere |
| Features.FirstMissing | ml_service/predictor.py:230-234 | no key is reported exactly when every key is present; a reported key is a listed key that is absent |
| Features.PrepareFeatures | ml_service/predictor.py:225-258 | prepare_features: KeyError for the first scaler missing in lookup order; otherwise the scaled PM10, 0.01 × the discomfort index of the scaled temperature and humidity, the scaled windspeed and rainfall, then the weekday and season one-hot blocks |
| Features.FeatureRecordShape | ml_service/predictor.py:240-256 | the record has 15 columns: the PM10, discomfort-index, windspeed and rainfall columns, then the weekday block set at the date's weekday, then the season block set at its month's season |
| Features.OneHotCount | ml_service/predictor.py:245-255 | a one-hot block holds exactly one 1 when its index is in range, none otherwise |
| Features.ExactlyOneIndicator | ml_service/predictor.py:225-256 | exactly one weekday column and exactly one season column are 1 |
| Features.PrepareFeaturesOutcome | ml_service/predictor.py:230-234 | the record is built exactly when all five scalers are loaded; otherwise KeyError names the first missing one in lookup order |
| Features.ScaledReadings | ml_service/predictor.py:230-242 | each reading passes through its own scaler; the discomfort column is 0.01 × the index of the scaled temperature and humidity |
| Features.Lookup | ml_service/predictor.py:292 | a column is found exactly when the record has it, with that column's value |
| Features.MissingColumns | ml_service/predictor.py:292 | the missing names are exactly the requested names the record lacks |
| Features.SelectColumns | ml_service/predictor.py:292 | `features_df[feature_columns]` fails exactly when a requested column is missing, with KeyError listing them. Otherwise it gives the requested columns in the requested order |
| Predictor.LoadedScalersContents | ml_service/predictor.py:185-193 | with distinct keys, a key is cached exactly when its file exists, with the object loaded from that file |
| Predictor.LoadedScalers | ml_service/predictor.py:187-192 | the load_scalers loop: each SCALER_FILES entry whose file exists is loaded under its key; a missing file is skipped |
| Predictor.LoadedScalersAbsent | ml_service/predictor.py:187-192 | a key no SCALER_FILES entry names is never cached |
| Predictor.LoadedScalersKeys | ml_service/predictor.py:187-192 | only SCALER_FILES keys are ever cached |
| Predictor.ScalerCacheStep | ml_service/predictor.py:183-194 | load_scalers: a filled cache is returned as it is; an empty one is filled with the loaded scalers, which are returned |
| Predictor.PipelineStep | ml_service/predictor.py:196-213 | load_pipeline: a cached pipeline is returned; otherwise an unknown code, then a missing file, raises with the cache unchanged; otherwise the loaded pipeline is returned and cached |
| Predictor.ScalerCacheRules | ml_service/predictor.py:183-194 | the first call fills the cache with what it returns (scaler keys only); a filled cache is returned as it is; a later call returns the same map whatever the directory now holds |
| Predictor.PipelineCacheRules | ml_service/predictor.py:196-213 | a hit skips both checks. An unknown code is reported before a missing file. A failure leaves the cache unchanged. A load adds exactly the one entry, and a later call returns the same object |
| Predictor.CongestionLevel | ml_service/predictor.py:296-301 | the level is within half a hundredth of visitors × 100 / capacity, a whole number of hundredths, and not negative for non-negative visitors |
| Predictor.FeatureColumns | ml_service/predictor.py:215-221 | get_feature_columns: the column names of the site's loaded X, or the loader's error |
| Predictor.Inference | ml_service/predictor.py:289-303 | fails exactly when feature preparation or column selection fails. On success: the single key is the site's korean_name; predicted_visitors is the pipeline output truncated toward zero; congestion_level is its rounded percentage of capacity |
| Predictor.PredictStep | ml_service/predictor.py:260-303 | predict: unknown site, pipeline, training columns, weather data and scalers are handled in that order. Each failure stops the prediction with the caches as far as they got; otherwise the inference on them |
| Predictor.PredictUnknownSite | ml_service/predictor.py:270-271 | an unknown code raises before anything is loaded, leaving both caches as they were |
| Predictor.PredictCachesGrow | ml_service/predictor.py:260-303 | a prediction never evicts or replaces a cached pipeline and adds at most the requested code; a filled scaler cache stays as it is |
| Predictor.PredictStepCaches | ml_service/predictor.py:281-289 | for a known site the pipeline cache is what load_pipeline left; the scaler cache is untouched or what load_scalers left |
| Predictor.PredictStepSuccess | ml_service/predictor.py:270-303 | a successful prediction is the inference on the loaded pipeline, the site's training columns, the merged readings and the loaded scalers |
| Predictor.PredictionKey | ml_service/predictor.py:298-303 | a prediction's only key is its site's korean_name |
| Predictor.PredictionService.constructor | ml_service/predictor.py:27-28 | both caches start empty |
| Predictor.PredictionService.Create | ml_service/predictor.py:24-28 | an invalid key configuration raises the validation error; otherwise a fresh service with empty caches |
| Predictor.PredictionService.LoadScalers | ml_service/predictor.py:183-194 | the loop over SCALER_FILES returns and caches exactly what the scaler cache rules say; the pipeline cache is untouched |
| Predictor.PredictionService.LoadPipeline | ml_service/predictor.py:196-213 | returns and caches exactly what the pipeline cache rules say; the scaler cache is untouched |
| Predictor.PredictionService.GetFeatureColumns | ml_service/predictor.py:215-221 | the site's training columns are the column names of its loaded X |
| Predictor.PredictionService.Predict | ml_service/predictor.py:260-303 | the outcome and both new caches are exactly those of the prediction function on the old caches |
| Predictor.PredictOnce | ml_service/predictor.py:307-314 | the module-level predict is a validation error, or the prediction made with empty caches |
| ModelFactory.FallbacksAreDefaults | ml_service/model_factory.py:46-156 | the fallbacks in each built-in `create_model` equal that factory's `get_default_config`, key for key and value for value |
| ModelFactory.DefaultConfig | ml_service/model_factory.py:55-156 | each backend's get_default_config: the XGBoost, RandomForest, LightGBM and CatBoost parameter dicts, or a custom factory's own defaults |
| ModelFactory.Fallbacks | ml_service/model_factory.py:46-146 | the fallback of each `config.get` in the built-in `create_model`s |
| ModelFactory.Effective | ml_service/model_factory.py:222-228 | with no config: the defaults. With one: the keys of both; the caller's values win; omitted defaults are kept; extra caller keys are added |
| ModelFactory.Build | ml_service/model_factory.py:46-156 | a factory's create_model: a custom factory builds itself; a missing library fails; a non-dict extra_params fails; an extra_params key repeating a named argument fails; otherwise the estimator class with the named arguments (config value or fallback) plus extra_params |
| ModelFactory.BuildFromDefaults | ml_service/model_factory.py:46-156 | a built-in backend given its defaults builds its estimator class with exactly those arguments |
| ModelFactory.BuildFromMerged | ml_service/model_factory.py:225-230 | with a caller config and no extra_params, a built-in backend gets one argument per name it reads: the caller's value where given, else the default |
| ModelFactory.NoExtraParamsByDefault | ml_service/model_factory.py:55-156 | no built-in default configuration carries extra_params |
| ModelFactory.MergedNamed | ml_service/model_factory.py:225-230 | the named arguments read from updated defaults are the caller's where given, else the default ones |
| ModelFactory.ExtraParamsClash | ml_service/model_factory.py:46-53 | an extra_params key that repeats a named argument makes the call fail with that key |
| ModelFactory.OptionalNeverOverwrites | ml_service/model_factory.py:169-185 | every registered entry survives unchanged; only lightgbm/catboost can be added, only when importable; an importable one is registered afterwards |
| ModelFactory.AddOptional | ml_service/model_factory.py:169-185 | _register_optional_factories: lightgbm, then catboost, is appended and registered when importable and not yet registered |
| ModelFactory.AddOptionalRegistered | ml_service/model_factory.py:169-185 | the name list stays duplicate-free and in step with the map |
| ModelFactory.CreateOutcome | ml_service/model_factory.py:213-218 | an unregistered type raises the error listing the registered names |
| ModelFactory.CreateWithoutConfig | ml_service/model_factory.py:222-223 | `create_model(t)` on a built-in backend builds from exactly its default config |
| ModelFactory.ModelRegistry.constructor | ml_service/model_factory.py:163-166 | the registry starts with exactly xgboost and random_forest, in that order |
| ModelFactory.ModelRegistry.RegisterOptionalFactories | ml_service/model_factory.py:169-185 | the registry after the optional step is AddOptional of the old one, still consistent |
| ModelFactory.ModelRegistry.RegisterFactory | ml_service/model_factory.py:188-196 | the one entry is set and nothing else changes; a new name goes last, an existing name keeps its place |
| ModelFactory.ModelRegistry.CreateModel | ml_service/model_factory.py:199-230 | the result is exactly the creation outcome on the unchanged registry |
| ModelFactory.ModelRegistry.GetAvailableModels | ml_service/model_factory.py:233-240 | the registered names in registration order, each exactly once |
| ModelFactory.ModelRegistry.GetDefaultConfig | ml_service/model_factory.py:243-263 | an unregistered type raises the error listing the names; a registered one gives its factory's defaults |
| ModelFactory.InitialRegistry | ml_service/model_factory.py:267 | the registry after import is the declared pair, extended by the importable optional backends |
| Evaluation.FillNa | scripts/evaluate_models.py:75 | `fillna(0)` replaces every missing cell by 0 and keeps every other cell and the shape |
| Evaluation.KeptRows | scripts/evaluate_models.py:76 | every kept position has a label |
| Evaluation.KeptRowsExact | scripts/evaluate_models.py:76-78 | every labelled position is kept, in increasing order |
| Evaluation.Masked | scripts/evaluate_models.py:76-78 | X and y are filtered by the same mask, so row k and label k come from the same table row, and no kept label is missing |
| Evaluation.TestCountClosedForm | scripts/evaluate_models.py:81-85 | the test partition is ⌈n/5⌉; the training partition is non-empty exactly when n ≥ 2 |
| Evaluation.TestCount | scripts/evaluate_models.py:81-85 | the test partition size ⌈0.2 n⌉ |
| Evaluation.PredictRows | scripts/evaluate_models.py:91-92 | one prediction per row |
| Evaluation.Score | scripts/evaluate_models.py:81-136 | the split is refused exactly when it would leave no training row. On success: partition sizes add up to the labelled rows, with a test share of a fifth rounded up; feature_count is X's column count; one actual label and one prediction per test row |
| Evaluation.EvaluateModelPaths | scripts/evaluate_models.py:54-72 | an unknown code raises. A missing model file gives the error dict with the site's code and name, independent of the database. Otherwise it is the loader's exception or a score |
| Evaluation.EvaluateModel | scripts/evaluate_models.py:44-136 | evaluate_model: an unknown code raises; a missing model file gives the error dict; otherwise the loader's error, or the score of the loaded model on X with missing cells set to 0, and y |
| Evaluation.EvaluatedStats | scripts/evaluate_models.py:112-115 | train_size and test_size are the partition lengths, summing to the labelled rows; test_size is ⌈n/5⌉; feature_count is X's column count |
| Evaluation.SeedOnly | scripts/evaluate_models.py:81-85 | the evaluation depends on the shuffle only through the script's seed 42 |
| Evaluation.ReportBand | scripts/evaluate_models.py:173-180 | the four bands: ≥ 0.9, [0.7, 0.9), [0.5, 0.7), < 0.5 |
| Evaluation.OverfitVerdict | scripts/evaluate_models.py:182-187 | likely when the gap exceeds 0.2; slight when otherwise train > test; good otherwise |
| Evaluation.EvaluateNamesOwnSite | scripts/evaluate_models.py:54-136 | every returned dict names the site it was asked for |
| Evaluation.Results | scripts/evaluate_models.py:199-201 | one evaluation per visited site, in order |
| Evaluation.Place | scripts/evaluate_models.py:201-214 | one loop step: a scored model is appended to all_results; an error dict or a raised exception is appended to failed with the site's code and name |
| Evaluation.Partition | scripts/evaluate_models.py:199-215 | the loop's two lists: the evaluations placed one after another in site order |
| Evaluation.PlaceCodes | scripts/evaluate_models.py:201-214 | one more site adds its code to exactly one of the two lists |
| Evaluation.PartitionExactlyOnce | scripts/evaluate_models.py:199-215 | the codes of both lists together are the visited codes, and every success is one of the evaluations |
| Evaluation.PartitionNext | scripts/evaluate_models.py:199-215 | visiting one more site places its evaluation after the earlier ones |
| Evaluation.EvaluateAllModels | scripts/evaluate_models.py:190-246 | the loop returns exactly the partition of the seven sites' evaluations |
| Evaluation.EveryModelAccountedFor | scripts/evaluate_models.py:199-215 | each of the seven sites lands exactly once in all_results or failed |
| Evaluation.SummaryTableOrdered | scripts/evaluate_models.py:227 | the summary table lists every success once, by non-increasing test R² |
| Evaluation.SummaryTable | scripts/evaluate_models.py:227 | the successes sorted by test R², highest first |
| Backend.CalculatePerformanceLevel | backend/main.py:23-36 | poor exactly below 0.3 (negatives included); fair on [0.3, 0.5); good on [0.5, 0.7); excellent from 0.7 |
| Backend.PerformanceLevelMonotone | backend/main.py:23-36 | a higher R² never gets a lower level |
| Backend.CalculateOverfittingRisk | backend/main.py:39-47 | high exactly when the gap exceeds 0.2, medium on (0.1, 0.2], low otherwise |
| Backend.OverfittingRiskSymmetric | backend/main.py:39-47 | swapping train and test R² does not change the risk |
| Backend.Run | backend/main.py:244-246 | predicting in order on one service gives one outcome per site |
| Backend.RunOutcomesKeyed | backend/main.py:244-247 | every successful outcome is keyed by its own site's korean_name |
| Backend.FailingCodes | backend/main.py:248-254 | a code is listed exactly when its prediction failed |
| Backend.CollectErrors | backend/main.py:248-254 | the error entries are the failing sites, in catalogue order |
| Backend.SuccessNamesMembers | backend/main.py:246-247 | a name is among the successes exactly when some site with that name succeeded |
| Backend.CollectKeys | backend/main.py:246-247 | `results` holds exactly the names of the sites that succeeded |
| Backend.CollectValues | backend/main.py:247 | each success's prediction survives the merge, under its own name |
| Backend.RunNext | backend/main.py:244-246 | one more site is predicted on the caches the earlier ones left |
| Backend.CollectNext | backend/main.py:244-254 | one more outcome is merged into results, or appended to errors as {site, code, error} |
| Backend.Collect | backend/main.py:244-254 | the loop's results and errors: each success is merged into results, and each failure appended to errors as {site, code, error} |
| Backend.PredictAll | backend/main.py:241-254 | the loop's results, errors and the service's new caches are exactly those of predicting the seven sites in order |
| Backend.PredictAllExactlyOnce | backend/main.py:241-254 | each site appears exactly once: under its name in results with its own prediction, or in errors. results holds nothing else, and errors follow catalogue order |
| Backend.SitesExactlyOnce | backend/main.py:241-254 | the same, for any catalogue with distinct codes and names |
| Backend.Annotate | backend/main.py:356-361 | each success gets performance_level from test R² and overfitting_risk from train and test R² |
| Backend.AnnotateAppend | backend/main.py:359-361 | annotating one more success appends its annotation |
| Backend.EvaluateAll | backend/main.py:343-368 | exactly the evaluation script's partition, with every success annotated |
| Backend.LevelCount | backend/main.py:377-382 | a level count never exceeds the number of results |
| Backend.RiskCount | backend/main.py:383-387 | a risk count never exceeds the number of results |
| Backend.Mean | backend/main.py:373-376 | a metric's average: its sum over the results divided by their number |
| Backend.Summarize | backend/main.py:370-398 | the summary: zeros and empty distributions without results; otherwise the count, the four metric averages, and the level and risk distributions |
| Backend.CountsAddUp | backend/main.py:377-387 | the four level counts, and the three risk counts, each sum to the number of results |
| Backend.SummaryShape | backend/main.py:370-398 | with successes: total_models is their number and both distributions cover every label and sum to it. Without: zero totals and averages, and empty distributions |
| Backend.MetricSumBounds | backend/main.py:373-376 | a metric's sum lies between n × the lowest and n × the highest value |
| Backend.AverageR2Bounds | backend/main.py:373 | average_r2 lies between the lowest and the highest test R² |
| Sorting.Insert | frontend/src/pages/Index.tsx:31 | inserting adds exactly the one element |
| Sorting.Sort | frontend/src/pages/Index.tsx:31 | sorting is a permutation |
| Sorting.InsertSorted | frontend/src/pages/Index.tsx:31 | for a total preorder, inserting into a sorted sequence keeps it sorted |
| Sorting.SortSorted | frontend/src/components/ComparisonChart.tsx:16 | for a total preorder, the result is sorted |
| Sorting.SortFirstIsLeast | frontend/src/pages/Index.tsx:37 | the first of a sorted non-empty sequence is one of its elements and precedes all of them |
| Frontend.Priority | frontend/src/pages/Index.tsx:30 | priorities are 0..3, 0 exactly for low and 3 exactly for veryHigh |
| Frontend.CalmerFirstIsPreorder | frontend/src/pages/Index.tsx:31-35 | the comparator orders spots totally and transitively |
| Frontend.Recommended | frontend/src/pages/Index.tsx:27-38 | recommendedSpot: null for missing or empty spots, otherwise the first spot of a copy sorted by congestion priority, then expected visitors |
| Frontend.RecommendedIsCalmest | frontend/src/pages/Index.tsx:27-38 | null exactly for missing or empty spots; otherwise one of the spots, with no spot at a lower priority, and fewest visitors among spots at its level |
| Frontend.BusierFirstIsPreorder | frontend/src/components/ComparisonChart.tsx:16 | the chart comparator orders rows totally and transitively |
| Frontend.Bars | frontend/src/components/ComparisonChart.tsx:10-15 | one row per spot, carrying its name, expected visitors and level |
| Frontend.ComparisonData | frontend/src/components/ComparisonChart.tsx:10-16 | the chart rows sorted by visitors, highest first |
| Frontend.ComparisonDataOrdered | frontend/src/components/ComparisonChart.tsx:10-16 | the chart data is a permutation of the mapped spots, ordered by non-increasing visitors |
| Frontend.CountAt | src/components/CongestionOverview.tsx:17 | a level count never exceeds the number of spots |
| Frontend.Counts | src/components/CongestionOverview.tsx:15-18 | four entries in the order low, normal, high, veryHigh, each with its level's count |
| Frontend.CountsCoverAll | src/components/CongestionOverview.tsx:15-18 | the four counts sum to the number of spots |
| Frontend.CountAtIsCardinality | src/components/CongestionOverview.tsx:17 | a count is exactly the number of positions holding that level |
| Frontend.TotalVisitors | src/components/CongestionOverview.tsx:20 | totalVisitors: the sum of expected visitors, 0 for no spots |
| Frontend.TotalVisitorsSplit | src/components/CongestionOverview.tsx:20 | the total adds across any split of the list (0 for the empty list) |
| Frontend.TotalVisitorsBound | src/components/CongestionOverview.tsx:20 | without negative expectations the total is at least any one spot's |
| Frontend.TotalVisitorsNonNegative | src/components/CongestionOverview.tsx:20 | without negative expectations the total is not negative |

## Left out

- HTTP calls, timeouts, status checks and `json.loads`: an upstream response enters already decoded. The transport failure stands for all of these.
- Decoded JSON of a shape the code does not expect (a `RESULT` that is not a dict, a `row` list holding a non-object, `items` that is not a dict): the response datatypes admit only the shapes the code reads.
- The wall clock: `datetime.now()` and `pd.Timestamp.now()` are one `now` parameter, read once per prediction.
- Foreign calls are opaque functions or values: joblib loading, scaler `transform`, `pipeline.predict`, `train_test_split`'s shuffle, the sklearn metrics, and the estimator constructors.
- Floating point: all arithmetic is on exact reals. IEEE rounding, NaN and infinities are out. In particular, a NaN R² falls through every comparison to "excellent" in the source, and this is not represented.
- Evaluation.TestCount: `ceil(0.2 × n)` on exact reals, not on the double product.
- Json.StrOf: the printed form of a float is carried with it, not derived from the binary value.
- DataLoader.AsInt: `int(text)` also accepts surrounding whitespace and underscores between digits; such text is refused here.
- Text.ParseFloat: plain decimal notation only; exponents, inf/nan, surrounding whitespace and underscores are not accepted.
- AirQuality.ParseMeasured: `pd.to_datetime`'s leniency on non-digit text is not modelled; anything but twelve digits naming a real minute is rejected.
- Text.Lower: ASCII letters only; other Unicode case mappings are not modelled.
- Weather.Categories: category keys are compared as decoded JSON scalars. Python's numeric key collisions (`1 == 1.0 == True`) are not modelled.
- Weather.DateText: `strftime("%Y")` for years below 1000 is written with four digits. Platform padding differences are not modelled.
- The statistics `actual_mean`, `actual_std`, `predicted_mean`, `predicted_std`, and the minima and maxima in `stats`: they are float reductions over library arrays.
- Backend.Mean: `np.mean` is the exact quotient of the sum by the count.
- Sorting.Sort: any stable sort yields the same result for a total preorder, so the model uses one insertion sort. The engines' own algorithms are not modelled.
- `MODEL_CONFIG` (config.py:123-129): it is read only by the training script, which is not part of this model.
- Library keyword validation: each built-in estimator accepts the keywords it is given, except for a clash with `extra_params`.
- `int()` of NaN or infinity, and the JavaScript comparator's NaN subtraction: both are out together with floating point.
- Evaluation.CellAt: the value past a column's end is a defensive default; rectangular tables never reach it.
- The FastAPI layer: routes, CORS, pydantic models, `HTTPException` status mapping, `evaluate_single`, the root and health endpoints, and the tourist-site listing. This is transport around the modelled functions.
- The `timestamp` field of the batch responses: another clock reading.
- `train_models.py` and `backup_db.py`: fitting, saving and copying files.
- SQLite itself: the connection, the query and `close`. A database is a map from table name to columns.
- Console output of the evaluation script, apart from its classification branches.
- The React markup and formatting of the dashboard.
- Concurrency: the caches are modelled as used by one caller at a time.
