/** prepare_features: the model input built from one weather record — five
    scaled readings, the discomfort index, and the weekday and season one-hot
    columns — and the reordering to the training columns. */
module Features {
  import opened Wrappers
  import opened Errors
  import opened Frames
  import opened Calendar
  import opened Acquisition
  import Text

  /** A fitted scaler, reduced to what `transform` does to one value. */
  datatype Scaler = Scaler(transform: real -> real)

  /** 0 spring (3-5), 1 summer (6-8), 2 autumn (9-11), 3 for any other integer. */
  function MonthToSeason(month: int): (season: int)
    ensures 0 <= season <= 3
    ensures (month < 1 || month > 12) ==> season == 3
  {
    if month == 3 || month == 4 || month == 5 then 0
    else if month == 6 || month == 7 || month == 8 then 1
    else if month == 9 || month == 10 || month == 11 then 2
    else 3
  }

  /** The seasons are the three-month blocks starting in March: for a
      calendar month m the season is ((m + 9) / 3) mod 4. */
  lemma SeasonBlocks(month: int)
    requires 1 <= month <= 12
    ensures MonthToSeason(month) == ((month + 9) / 3) % 4
  {
  }

  /** Consecutive months share a season except across the block boundaries
      between February/March, May/June, August/September and November/December. */
  lemma SeasonChanges(month: int)
    requires 1 <= month < 12
    ensures MonthToSeason(month + 1) != MonthToSeason(month) <==> month in {2, 5, 8, 11}
  {
  }

  /** The discomfort index formula, on exact reals. */
  function DiscomfortIndex(temperature: real, humidity: real): real {
    0.81 * temperature + 0.01 * humidity * (0.99 * temperature - 14.3) + 46.3
  }

  /** Higher humidity raises the index exactly when 0.99 t exceeds 14.3, and
      leaves it unchanged when they are equal. */
  lemma HumidityEffect(t: real, h1: real, h2: real)
    requires h1 < h2
    ensures DiscomfortIndex(t, h1) < DiscomfortIndex(t, h2) <==> 0.99 * t > 14.3
    ensures DiscomfortIndex(t, h1) == DiscomfortIndex(t, h2) <==> 0.99 * t == 14.3
  {
    var d := h2 - h1;
    var k := 0.99 * t - 14.3;
    assert DiscomfortIndex(t, h2) - DiscomfortIndex(t, h1) == 0.01 * d * k;
    if k > 0.0 {
      assert d * k > 0.0;
    } else if k < 0.0 {
      assert d * (-k) > 0.0;
    }
  }

  /** Columns `prefix0` .. `prefix(count-1)`, 1 at `index` and 0 elsewhere. */
  function OneHot(prefix: string, count: nat, index: int): (row: Row)
    ensures |row| == count
    ensures forall i :: 0 <= i < count ==> row[i].0 == prefix + Text.NatToString(i)
    ensures forall i :: 0 <= i < count ==> row[i].1 == Num(if i == index then 1.0 else 0.0)
  {
    seq(count, i requires 0 <= i < count => (prefix + Text.NatToString(i), Num(if i == index then 1.0 else 0.0)))
  }

  /** The order in which prepare_features looks the scalers up. */
  const ScalerLookupOrder: seq<string> := ["tinydust", "windspeed", "temperature", "humidity", "rainfall"]

  /** The first scaler key in `keys` that `scalers` lacks, if any. */
  function FirstMissing(keys: seq<string>, scalers: map<string, Scaler>): (r: Option<string>)
    ensures r.None? <==> forall k :: k in keys ==> k in scalers
    ensures r.Some? ==> r.value in keys && r.value !in scalers
  {
    if keys == [] then None
    else if keys[0] !in scalers then Some(keys[0])
    else FirstMissing(keys[1..], scalers)
  }

  const PmColumn := "미세먼지(PM10)"
  const DiscomfortColumn := "불쾌지수"
  const WindColumn := "Windspeed(m/s)"
  const RainColumn := "Rainfall(mm)"

  /** The one-row frame prepare_features builds, as a record of columns; a
      missing scaler raises KeyError. */
  function PrepareFeatures(w: WeatherData, scalers: map<string, Scaler>): Result<Row, Error>
    requires ValidTimestamp(w.measured)
  {
    match FirstMissing(ScalerLookupOrder, scalers)
    case Some(key) => Failure(ScalerMissing(key))
    case None =>
      var pm := scalers["tinydust"].transform(w.pm10);
      var wind := scalers["windspeed"].transform(w.windspeed);
      var temperature := scalers["temperature"].transform(w.temperature);
      var humidity := scalers["humidity"].transform(w.humidity);
      var rain := scalers["rainfall"].transform(w.rainfall);
      var discomfort := 0.01 * DiscomfortIndex(temperature, humidity);
      Success([(PmColumn, Num(pm)), (DiscomfortColumn, Num(discomfort)), (WindColumn, Num(wind)), (RainColumn, Num(rain))]
        + OneHot("weekday_", 7, Weekday(w.measured.date))
        + OneHot("season_", 4, MonthToSeason(w.measured.date.month)))
  }

  /** The record has the 15 columns in this order: the four readings, the
      weekday columns one-hot at the record's weekday, and the season columns
      one-hot at its month's season. */
  lemma FeatureRecordShape(w: WeatherData, scalers: map<string, Scaler>)
    requires ValidTimestamp(w.measured) && PrepareFeatures(w, scalers).Success?
    ensures var row := PrepareFeatures(w, scalers).value;
      && |row| == 15
      && row[0].0 == PmColumn && row[1].0 == DiscomfortColumn && row[2].0 == WindColumn && row[3].0 == RainColumn
      && row[4..11] == OneHot("weekday_", 7, Weekday(w.measured.date))
      && row[11..] == OneHot("season_", 4, MonthToSeason(w.measured.date.month))
  {
    var row := PrepareFeatures(w, scalers).value;
    var week := OneHot("weekday_", 7, Weekday(w.measured.date));
    var season := OneHot("season_", 4, MonthToSeason(w.measured.date.month));
    assert row == row[..4] + week + season;
    assert row[4..11] == week;
    assert row[11..] == season;
  }

  /** How many cells of a record hold 1. */
  function CountOnes(row: Row): nat {
    if row == [] then 0 else CountOnes(row[..|row| - 1]) + (if row[|row| - 1].1 == Num(1.0) then 1 else 0)
  }

  /** A one-hot block holds exactly one 1 when its index is in range, and
      none otherwise. */
  lemma {:induction false} OneHotCount(prefix: string, count: nat, index: int)
    ensures CountOnes(OneHot(prefix, count, index)) == if 0 <= index < count then 1 else 0
  {
    if count > 0 {
      var row := OneHot(prefix, count, index);
      assert row[..count - 1] == OneHot(prefix, count - 1, index);
      OneHotCount(prefix, count - 1, index);
    }
  }

  /** So in every record exactly one weekday column and exactly one season
      column are 1. */
  lemma ExactlyOneIndicator(w: WeatherData, scalers: map<string, Scaler>)
    requires ValidTimestamp(w.measured) && PrepareFeatures(w, scalers).Success?
    ensures CountOnes(PrepareFeatures(w, scalers).value[4..11]) == 1
    ensures CountOnes(PrepareFeatures(w, scalers).value[11..]) == 1
  {
    FeatureRecordShape(w, scalers);
    OneHotCount("weekday_", 7, Weekday(w.measured.date));
    OneHotCount("season_", 4, MonthToSeason(w.measured.date.month));
  }

  /** The record is built exactly when every scaler is there; otherwise
      the error names the first missing one in lookup order. */
  lemma PrepareFeaturesOutcome(w: WeatherData, scalers: map<string, Scaler>)
    requires ValidTimestamp(w.measured)
    ensures PrepareFeatures(w, scalers).Success? <==> forall k :: k in ScalerLookupOrder ==> k in scalers
    ensures PrepareFeatures(w, scalers).Failure? ==>
      && PrepareFeatures(w, scalers).error == ScalerMissing(FirstMissing(ScalerLookupOrder, scalers).value)
      && PrepareFeatures(w, scalers).error.key !in scalers
  {
  }

  /** The readings reach the record through their own scalers. */
  lemma ScaledReadings(w: WeatherData, scalers: map<string, Scaler>)
    requires ValidTimestamp(w.measured) && PrepareFeatures(w, scalers).Success?
    ensures |PrepareFeatures(w, scalers).value| == 15
    ensures var row := PrepareFeatures(w, scalers).value;
      && row[0].1 == Num(scalers["tinydust"].transform(w.pm10))
      && row[2].1 == Num(scalers["windspeed"].transform(w.windspeed))
      && row[3].1 == Num(scalers["rainfall"].transform(w.rainfall))
      && row[1].1 == Num(0.01 * DiscomfortIndex(scalers["temperature"].transform(w.temperature),
                                                 scalers["humidity"].transform(w.humidity)))
  {
    FeatureRecordShape(w, scalers);
  }

  /** The value of the first column named `name`. */
  function Lookup(row: Row, name: string): (c: Option<Cell>)
    ensures c.Some? <==> exists i :: 0 <= i < |row| && row[i].0 == name
    ensures c.Some? ==> exists i :: 0 <= i < |row| && row[i] == (name, c.value)
  {
    if row == [] then None
    else if row[0].0 == name then Some(row[0].1)
    else
      var rest := Lookup(row[1..], name);
      assert forall i :: 1 <= i < |row| ==> row[i] == row[1..][i - 1];
      rest
  }

  /** The requested names the record lacks, in request order. */
  function MissingColumns(row: Row, columns: seq<string>): (missing: seq<string>)
    ensures forall c :: c in missing <==> c in columns && Lookup(row, c).None?
  {
    if columns == [] then []
    else (if Lookup(row, columns[0]).None? then [columns[0]] else []) + MissingColumns(row, columns[1..])
  }

  /** `features_df[feature_columns]`: the requested columns in the requested
      order, or KeyError naming the missing ones. */
  function SelectColumns(row: Row, columns: seq<string>): (r: Result<Row, Error>)
    ensures r.Failure? <==> exists c :: c in columns && Lookup(row, c).None?
    ensures r.Failure? ==> r == Failure(ColumnsMissing(MissingColumns(row, columns)))
    ensures r.Success? ==> (|r.value| == |columns|
      && forall i :: 0 <= i < |columns| ==> r.value[i] == (columns[i], Lookup(row, columns[i]).value))
  {
    if MissingColumns(row, columns) != [] then
      assert MissingColumns(row, columns)[0] in MissingColumns(row, columns);
      Failure(ColumnsMissing(MissingColumns(row, columns)))
    else
      Success(seq(|columns|, i requires 0 <= i < |columns| => (columns[i], Lookup(row, columns[i]).value)))
  }
}
