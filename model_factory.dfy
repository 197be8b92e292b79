/** ModelFactory: the registry of model backends, each factory's default
    hyperparameters and fallbacks, and the default/caller configuration merge. */
module ModelFactory {
  import opened Wrappers
  import opened Errors

  /** A hyperparameter value as it appears in a config dict. */
  datatype Value = VInt(i: int) | VReal(x: real) | VText(s: string) | VBool(b: bool) | VNone | VDict(entries: map<string, Value>)

  type Config = map<string, Value>

  /** An unfitted estimator: the library class and the keyword arguments it
      was constructed with. */
  datatype Estimator = Estimator(estimatorClass: string, arguments: Config)

  /** The four built-in factories, and a factory registered by a caller with
      its own defaults and its own construction. */
  datatype Factory =
    | XGBoost
    | RandomForest
    | LightGBM
    | CatBoost
    | Custom(defaults: Config, make: Config -> Result<Estimator, Error>)

  /** The module each built-in factory imports. */
  function Library(f: Factory): string
    requires !f.Custom?
  {
    match f
    case XGBoost => "xgboost"
    case RandomForest => "sklearn"
    case LightGBM => "lightgbm"
    case CatBoost => "catboost"
  }

  /** The estimator class each built-in factory constructs. */
  function EstimatorClass(f: Factory): string
    requires !f.Custom?
  {
    match f
    case XGBoost => "XGBRegressor"
    case RandomForest => "RandomForestRegressor"
    case LightGBM => "LGBMRegressor"
    case CatBoost => "CatBoostRegressor"
  }

  /** Each factory's `get_default_config`: a fresh dict every call. */
  function DefaultConfig(f: Factory): Config {
    match f
    case XGBoost => map["objective" := VText("reg:squarederror"), "n_estimators" := VInt(48),
                        "learning_rate" := VReal(0.1), "max_depth" := VInt(5), "random_state" := VInt(42)]
    case RandomForest => map["n_estimators" := VInt(100), "max_depth" := VInt(10), "min_samples_split" := VInt(2),
                             "min_samples_leaf" := VInt(1), "random_state" := VInt(42)]
    case LightGBM => map["objective" := VText("regression"), "n_estimators" := VInt(100),
                         "learning_rate" := VReal(0.1), "max_depth" := VInt(5), "random_state" := VInt(42)]
    case CatBoost => map["iterations" := VInt(100), "learning_rate" := VReal(0.1), "depth" := VInt(5),
                         "random_state" := VInt(42), "verbose" := VBool(false)]
    case Custom(defaults, _) => defaults
  }

  /** The keyword arguments each built-in `create_model` reads with
      `config.get(name, fallback)`, with their fallbacks. */
  function Fallbacks(f: Factory): Config
    requires !f.Custom?
  {
    match f
    case XGBoost => map["objective" := VText("reg:squarederror"), "n_estimators" := VInt(48),
                        "learning_rate" := VReal(0.1), "max_depth" := VInt(5), "random_state" := VInt(42)]
    case RandomForest => map["n_estimators" := VInt(100), "max_depth" := VInt(10), "min_samples_split" := VInt(2),
                             "min_samples_leaf" := VInt(1), "random_state" := VInt(42)]
    case LightGBM => map["objective" := VText("regression"), "n_estimators" := VInt(100),
                         "learning_rate" := VReal(0.1), "max_depth" := VInt(5), "random_state" := VInt(42)]
    case CatBoost => map["iterations" := VInt(100), "learning_rate" := VReal(0.1), "depth" := VInt(5),
                         "random_state" := VInt(42), "verbose" := VBool(false)]
  }

  /** The fallbacks written into each `create_model` are that factory's
      defaults, key for key and value for value. */
  lemma FallbacksAreDefaults(f: Factory)
    requires !f.Custom?
    ensures Fallbacks(f) == DefaultConfig(f)
  {
  }

  /** A factory's `create_model(config)` with the libraries in `installed`
      importable: the import, the named arguments read with their fallbacks,
      then the `extra_params` expansion. */
  function Build(f: Factory, config: Config, installed: set<string>): Result<Estimator, Error> {
    if f.Custom? then f.make(config)
    else if Library(f) !in installed then Failure(BackendNotInstalled(Library(f)))
    else
      var named := map k | k in Fallbacks(f) :: if k in config then config[k] else Fallbacks(f)[k];
      var extra := if "extra_params" in config then config["extra_params"] else VDict(map[]);
      if !extra.VDict? then Failure(ExtraParamsNotMapping)
      else if named.Keys * extra.entries.Keys != {} then Failure(BadModelArguments(named.Keys * extra.entries.Keys))
      else Success(Estimator(EstimatorClass(f), named + extra.entries))
  }

  /** The configuration `create_model` hands to the factory: the defaults
      when the caller gives none, else the defaults updated by the caller's. */
  function Effective(f: Factory, config: Option<Config>): (c: Config)
    ensures config.None? ==> c == DefaultConfig(f)
    ensures config.Some? ==> c.Keys == DefaultConfig(f).Keys + config.value.Keys
    ensures config.Some? ==> forall k :: k in config.value ==> c[k] == config.value[k]
    ensures config.Some? ==> forall k :: k in DefaultConfig(f) && k !in config.value ==> c[k] == DefaultConfig(f)[k]
  {
    if config.None? then DefaultConfig(f) else DefaultConfig(f) + config.value
  }

  /** A built-in backend given its own defaults builds the estimator with
      exactly those arguments. */
  lemma BuildFromDefaults(f: Factory, installed: set<string>)
    requires !f.Custom? && Library(f) in installed
    ensures Build(f, DefaultConfig(f), installed) == Success(Estimator(EstimatorClass(f), DefaultConfig(f)))
  {
    var config := DefaultConfig(f);
    var named := map k | k in Fallbacks(f) :: if k in config then config[k] else Fallbacks(f)[k];
    FallbacksAreDefaults(f);
    assert named == config;
    assert named + map[] == named;
  }

  /** With a caller config and no `extra_params`, a built-in backend gets
      one argument per name it reads: the caller's value where given, else
      the default; any other caller key is dropped. */
  lemma BuildFromMerged(f: Factory, config: Config, installed: set<string>)
    requires !f.Custom? && Library(f) in installed && "extra_params" !in config
    ensures Build(f, Effective(f, Some(config)), installed).Success?
    ensures var args := Build(f, Effective(f, Some(config)), installed).value.arguments;
      && args.Keys == DefaultConfig(f).Keys
      && (forall k :: k in args && k in config ==> args[k] == config[k])
      && (forall k :: k in args && k !in config ==> args[k] == DefaultConfig(f)[k])
  {
    FallbacksAreDefaults(f);
    NoExtraParamsByDefault(f);
    var c := Effective(f, Some(config));
    assert c == DefaultConfig(f) + config;
    MergedNamed(Fallbacks(f), DefaultConfig(f), config);
  }

  /** No backend's defaults carry `extra_params`. */
  lemma NoExtraParamsByDefault(f: Factory)
    requires !f.Custom?
    ensures "extra_params" !in DefaultConfig(f)
  {
  }

  /** The named arguments read from defaults updated by a caller's
      configuration: the caller's value where given, else the default. */
  lemma MergedNamed(fallbacks: Config, defaults: Config, config: Config)
    ensures var c := defaults + config;
      var named := map k | k in fallbacks :: if k in c then c[k] else fallbacks[k];
      && named.Keys == fallbacks.Keys
      && (forall k :: k in named && k in config ==> named[k] == config[k])
      && (forall k :: k in named && k !in config && k in defaults ==> named[k] == defaults[k])
  {
  }

  /** A name clash between a named argument and `extra_params` is refused by
      the call, whatever the values. */
  lemma ExtraParamsClash(f: Factory, config: Config, installed: set<string>, k: string)
    requires !f.Custom? && Library(f) in installed
    requires "extra_params" in config && config["extra_params"].VDict?
    requires k in Fallbacks(f) && k in config["extra_params"].entries
    ensures Build(f, config, installed).Failure?
    ensures Build(f, config, installed).error.BadModelArguments? && k in Build(f, config, installed).error.keys
  {
    var named := map k | k in Fallbacks(f) :: if k in config then config[k] else Fallbacks(f)[k];
    assert k in named.Keys * config["extra_params"].entries.Keys;
  }

  /** The registry the class body declares. */
  const BaseNames: seq<string> := ["xgboost", "random_forest"]

  /** `_register_optional_factories` on registry `(names, factories)` with the
      modules in `installed` importable. */
  function AddOptional(names: seq<string>, factories: map<string, Factory>, installed: set<string>)
    : (seq<string>, map<string, Factory>)
  {
    var (n1, f1) := if "lightgbm" in installed && "lightgbm" !in factories
      then (names + ["lightgbm"], factories["lightgbm" := LightGBM]) else (names, factories);
    if "catboost" in installed && "catboost" !in f1
    then (n1 + ["catboost"], f1["catboost" := CatBoost]) else (n1, f1)
  }

  /** The optional backends never overwrite: every registered entry keeps
      its factory, and an optional name is added exactly when its module
      imports and the name was free. */
  lemma OptionalNeverOverwrites(names: seq<string>, factories: map<string, Factory>, installed: set<string>)
    ensures var (_, fs) := AddOptional(names, factories, installed);
      && (forall t :: t in factories ==> t in fs && fs[t] == factories[t])
      && (forall t :: t in fs && t !in factories ==> (t == "lightgbm" || t == "catboost") && t in installed)
      && ("lightgbm" in installed ==> "lightgbm" in fs)
      && ("catboost" in installed ==> "catboost" in fs)
  {
  }

  /** The name list and the map agree: the names are distinct and are
      exactly the registered keys, in registration order. */
  ghost predicate Registered(names: seq<string>, factories: map<string, Factory>) {
    && (forall i, j :: 0 <= i < j < |names| ==> names[i] != names[j])
    && (forall t :: t in factories <==> t in names)
  }

  lemma {:induction false} AddOptionalRegistered(names: seq<string>, factories: map<string, Factory>, installed: set<string>)
    requires Registered(names, factories)
    ensures Registered(AddOptional(names, factories, installed).0, AddOptional(names, factories, installed).1)
  {
    var (n1, f1) := if "lightgbm" in installed && "lightgbm" !in factories
      then (names + ["lightgbm"], factories["lightgbm" := LightGBM]) else (names, factories);
    assert Registered(n1, f1);
  }

  /** `create_model(model_type, config)` on the registry `(names, factories)`. */
  function CreateOutcome(names: seq<string>, factories: map<string, Factory>, modelType: string,
                         config: Option<Config>, installed: set<string>): (r: Result<Estimator, Error>)
    ensures modelType !in factories ==> r == Failure(UnsupportedBackend(modelType, names))
  {
    if modelType !in factories then Failure(UnsupportedBackend(modelType, names))
    else Build(factories[modelType], Effective(factories[modelType], config), installed)
  }

  /** `create_model(t)` on a built-in backend builds its default estimator. */
  lemma CreateWithoutConfig(names: seq<string>, factories: map<string, Factory>, modelType: string, installed: set<string>)
    requires modelType in factories && !factories[modelType].Custom? && Library(factories[modelType]) in installed
    ensures CreateOutcome(names, factories, modelType, None, installed)
      == Success(Estimator(EstimatorClass(factories[modelType]), DefaultConfig(factories[modelType])))
  {
    BuildFromDefaults(factories[modelType], installed);
  }

  /** `ModelFactory`: the class-level `_factories` dict, with its key order. */
  class ModelRegistry {
    var names: seq<string>
    var factories: map<string, Factory>

    ghost predicate Valid()
      reads this
    {
      Registered(names, factories)
    }

    /** The dict the class body declares. */
    constructor ()
      ensures Valid()
      ensures names == BaseNames
      ensures factories == map["xgboost" := XGBoost, "random_forest" := RandomForest]
    {
      names := BaseNames;
      factories := map["xgboost" := XGBoost, "random_forest" := RandomForest];
    }

    method RegisterOptionalFactories(installed: set<string>)
      requires Valid()
      modifies this
      ensures Valid()
      ensures (names, factories) == AddOptional(old(names), old(factories), installed)
    {
      if "lightgbm" in installed && "lightgbm" !in factories {
        factories := factories["lightgbm" := LightGBM];
        names := names + ["lightgbm"];
      }
      if "catboost" in installed && "catboost" !in factories {
        factories := factories["catboost" := CatBoost];
        names := names + ["catboost"];
      }
      AddOptionalRegistered(old(names), old(factories), installed);
    }

    /** `register_factory`: the one entry is set, a new name goes last, an
        existing name keeps its place, and nothing else changes. */
    method RegisterFactory(modelType: string, factory: Factory)
      requires Valid()
      modifies this
      ensures Valid()
      ensures factories == old(factories)[modelType := factory]
      ensures names == if modelType in old(factories) then old(names) else old(names) + [modelType]
    {
      if modelType !in factories {
        names := names + [modelType];
      }
      factories := factories[modelType := factory];
    }

    /** `create_model`; the registry is only read. */
    method CreateModel(modelType: string, config: Option<Config>, installed: set<string>) returns (r: Result<Estimator, Error>)
      requires Valid()
      ensures r == CreateOutcome(names, factories, modelType, config, installed)
    {
      if modelType !in factories {
        return Failure(UnsupportedBackend(modelType, names));
      }
      var factory := factories[modelType];
      var effective: Config;
      if config.None? {
        effective := DefaultConfig(factory);
      } else {
        var defaults := DefaultConfig(factory);
        effective := defaults + config.value;
      }
      r := Build(factory, effective, installed);
    }

    /** `get_available_models`: every registered name once, in order. */
    method GetAvailableModels() returns (r: seq<string>)
      requires Valid()
      ensures r == names
      ensures forall t :: t in r <==> t in factories
      ensures forall i, j :: 0 <= i < j < |r| ==> r[i] != r[j]
    {
      r := names;
    }

    /** `get_default_config`, or ValueError listing the registered names. */
    method GetDefaultConfig(modelType: string) returns (r: Result<Config, Error>)
      requires Valid()
      ensures modelType !in factories ==> r == Failure(UnsupportedBackend(modelType, names))
      ensures modelType in factories ==> r == Success(DefaultConfig(factories[modelType]))
    {
      if modelType !in factories {
        return Failure(UnsupportedBackend(modelType, names));
      }
      r := Success(DefaultConfig(factories[modelType]));
    }
  }

  /** The registry once the module is imported: the declared dict, then the
      optional backends whose modules import. */
  method InitialRegistry(installed: set<string>) returns (registry: ModelRegistry)
    ensures fresh(registry) && registry.Valid()
    ensures (registry.names, registry.factories)
      == AddOptional(BaseNames, map["xgboost" := XGBoost, "random_forest" := RandomForest], installed)
  {
    registry := new ModelRegistry();
    registry.RegisterOptionalFactories(installed);
  }
}
