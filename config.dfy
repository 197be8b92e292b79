/** MLConfig: the static site catalogue, the artifact file tables, the model
    type taken from the environment, and the API-key check. */
module Config {
  import opened Wrappers
  import opened Errors
  import Text

  /** One tourist site: display name, rated capacity, air-quality district
      code and weather-grid coordinates. */
  datatype Site = Site(koreanName: string, maxCapacity: int, districtCode: string, nx: int, ny: int)

  /** The keys of TOURIST_SITES in declaration order, which is the order
      every batch loop visits them in. */
  const SiteCodes: seq<string> := [
    "changdeok_palace", "changgyeong_palace", "deoksugung_palace", "gyeongbok_palace",
    "jongmyo_shrine", "seoul_arts_center", "seoul_grand_park"]

  const TouristSites: map<string, Site> := map[
    "changdeok_palace" := Site("창덕궁", 119765, "111123", 60, 127),
    "changgyeong_palace" := Site("창경궁", 47126, "111123", 60, 127),
    "deoksugung_palace" := Site("덕수궁", 20401, "111121", 60, 127),
    "gyeongbok_palace" := Site("경복궁", 94070, "111123", 60, 127),
    "jongmyo_shrine" := Site("종묘", 40652, "111123", 60, 127),
    "seoul_arts_center" := Site("예술의전당", 50734, "111262", 60, 125),
    "seoul_grand_park" := Site("서울대공원", 1984065, "111262", 61, 124)]

  /** SCALER_FILES in declaration order: feature key and file name. */
  const ScalerFiles: seq<(string, string)> := [
    ("humidity", "scaler_Humidity.pkl"),
    ("rainfall", "scaler_Rainfall.pkl"),
    ("temperature", "scaler_Temperature.pkl"),
    ("tinydust", "scaler_Tinydust.pkl"),
    ("windspeed", "scaler_Windspeed.pkl")]

  /** MODEL_FILES: the source spells out seven entries, each site code
      mapped to "model_<code>.pkl"; this is that table, written as its rule. */
  const ModelFiles: map<string, string> := map c | c in SiteCodes :: ModelFileName(c)

  /** The file name a site's model is saved under. */
  function ModelFileName(code: string): string {
    "model_" + code + ".pkl"
  }

  const AirQualityKeyVariable := "SEOUL_AIR_QUALITY_API_KEY"
  const KmaKeyVariable := "KMA_API_KEY"
  const DefaultModelType := "xgboost"

  /** The scaler keys, in SCALER_FILES order. */
  function ScalerKeys(): (keys: seq<string>)
    ensures |keys| == |ScalerFiles|
    ensures forall i :: 0 <= i < |keys| ==> keys[i] == ScalerFiles[i].0
  {
    seq(|ScalerFiles|, i requires 0 <= i < |ScalerFiles| => ScalerFiles[i].0)
  }

  /** The catalogue lists seven distinct codes, each with its descriptor. */
  lemma SiteCatalogue()
    ensures |SiteCodes| == 7
    ensures forall i, j :: 0 <= i < j < |SiteCodes| ==> SiteCodes[i] != SiteCodes[j]
    ensures forall c :: c in TouristSites <==> c in SiteCodes
  {
  }

  /** Every site has a model file and nothing else has one. */
  lemma ModelFileKeys()
    ensures ModelFiles.Keys == TouristSites.Keys
  {
  }

  /** Every capacity is positive, so the congestion ratio is defined. */
  lemma CapacitiesPositive()
    ensures forall c :: c in TouristSites ==> TouristSites[c].maxCapacity > 0
  {
  }

  /** No two sites share a display name, so merging per-site results keyed by
      display name loses nothing. */
  lemma DisplayNamesDistinct()
    ensures forall c, d :: c in TouristSites && d in TouristSites && c != d ==>
      TouristSites[c].koreanName != TouristSites[d].koreanName
  {
  }

  /** The five scaler keys are exactly the ones feature preparation reads. */
  lemma ScalerKeySet()
    ensures ScalerKeys() == ["humidity", "rainfall", "temperature", "tinydust", "windspeed"]
  {
  }

  /** MODEL_TYPE: the environment's value lower-cased, "xgboost" when unset. */
  function ModelType(env: Option<string>): (t: string)
    ensures env.None? ==> t == DefaultModelType
    ensures env.Some? ==> |t| == |env.value| && Text.Lower(t) == t
    ensures env.Some? ==> forall i :: 0 <= i < |t| ==> t[i] == Text.LowerChar(env.value[i])
  {
    Text.LowerIdempotent(env.GetOr(DefaultModelType));
    Text.Lower(env.GetOr(DefaultModelType))
  }

  /** Setting MODEL_TYPE to the value it already resolved to changes nothing. */
  lemma ModelTypeStable(env: Option<string>)
    ensures ModelType(Some(ModelType(env))) == ModelType(env)
  {
    Text.LowerIdempotent(env.GetOr(DefaultModelType));
  }

  /** MLConfig.validate: None when both keys are set and non-empty, else the
      error for the first missing one, the air-quality key checked first. */
  function Validate(airQualityKey: Option<string>, kmaKey: Option<string>): (r: Option<Error>)
    ensures r.None? <==> airQualityKey.Some? && airQualityKey.value != "" && kmaKey.Some? && kmaKey.value != ""
    ensures (airQualityKey.None? || airQualityKey.value == "") ==> r == Some(MissingApiKey(AirQualityKeyVariable))
    ensures r.Some? && airQualityKey.Some? && airQualityKey.value != "" ==> r == Some(MissingApiKey(KmaKeyVariable))
  {
    if airQualityKey.None? || airQualityKey.value == "" then Some(MissingApiKey(AirQualityKeyVariable))
    else if kmaKey.None? || kmaKey.value == "" then Some(MissingApiKey(KmaKeyVariable))
    else None
  }
}
