/** fetch_air_quality_data after the HTTP call: check the decoded envelope of
    the Seoul district air-quality service, take the first reading, and read
    its PM10 value and its measurement time. */
module AirQuality {
  import opened Wrappers
  import opened Errors
  import opened Json
  import opened Calendar
  import Text

  /** One reading of the service: the optional `MSRMT_YMD` and `PM` fields. */
  datatype AirRow = AirRow(msrmtYmd: Option<Scalar>, pm: Option<Scalar>)

  /** `row` is either a list of readings or a single reading. */
  datatype RowField = RowList(rows: seq<AirRow>) | RowRecord(record: AirRow)

  /** The `RESULT` block and its optional `CODE`. */
  datatype ResultBlock = ResultBlock(code: Option<Scalar>)

  /** The value under `ListAirQualityByDistrictService`. */
  datatype Service = Service(result: Option<ResultBlock>, row: Option<RowField>)

  /** What the HTTP call and `json.loads` produced: a transport failure
      (connection error, timeout, HTTP error status, undecodable body), or a
      document that may or may not carry the service key. */
  datatype AirResponse = AirTransportFailed | AirDocument(service: Option<Service>)

  /** The dict the fetcher returns: `pm10` and `datetime`. */
  datatype AirReading = AirReading(pm10: real, measured: Timestamp)

  const SuccessCode := "INFO-000"

  /** Minutes since the start of the calendar, to compare moments. */
  function MinuteKey(t: Timestamp): int
    requires ValidDate(t.date)
  {
    (Ordinal(t.date) * 24 + t.hour) * 60 + t.minute
  }

  /** The first and last whole minutes a pandas Timestamp can hold
      (its range is 1677-09-21 00:12:43.15 to 2262-04-11 23:47:16.85). */
  const PandasFirstMinute := Timestamp(Date(1677, 9, 21), 0, 13)
  const PandasLastMinute := Timestamp(Date(2262, 4, 11), 23, 47)

  predicate InPandasRange(t: Timestamp)
    requires ValidDate(t.date)
  {
    MinuteKey(PandasFirstMinute) <= MinuteKey(t) <= MinuteKey(PandasLastMinute)
  }

  /** The five fixed slices [0:4], [4:6], [6:8], [8:10] and [10:12]. */
  function Slices(s: string): (parts: seq<string>)
    requires |s| >= 12
    ensures |parts| == 5
  {
    [s[0..4], s[4..6], s[6..8], s[8..10], s[10..12]]
  }

  /** The moment the digits of the five slices name, before any range check. */
  function SliceTimestamp(s: string): Timestamp
    requires |s| >= 12 && Text.AllDigits(s[..12])
  {
    assert forall k :: 0 <= k <= 12 ==> Text.AllDigits(s[..k]);
    Timestamp(Date(Text.DigitsValue(s[0..4]), Text.DigitsValue(s[4..6]), Text.DigitsValue(s[6..8])),
              Text.DigitsValue(s[8..10]), Text.DigitsValue(s[10..12]))
  }

  /** The measurement time: with at least 14 characters, `pd.to_datetime` of
      "YYYY-MM-DD HH:MM" built from the slices, which fails unless they name a
      real minute pandas can represent; with fewer, the current time. */
  function ParseMeasured(s: string, now: Timestamp): (r: Result<Timestamp, Upstream>)
    ensures |s| < 14 ==> r == Success(now)
    ensures |s| >= 14 && r.Success? ==>
      Text.AllDigits(s[..12]) && ValidTimestamp(r.value) && InPandasRange(r.value)
    ensures r.Failure? ==> r.error == BadValue
  {
    if |s| < 14 then Success(now)
    else if !Text.AllDigits(s[..12]) then Failure(BadValue)
    else
      var t := SliceTimestamp(s);
      if ValidTimestamp(t) && InPandasRange(t) then Success(t) else Failure(BadValue)
  }

  /** The measurement text the service sends for moment `t`:
      "YYYYMMDDHHMM" followed by two seconds digits. */
  function MeasurementText(t: Timestamp, seconds: nat): (s: string)
    requires ValidTimestamp(t)
    ensures |s| == 14
  {
    Text.FixedDigits(t.date.year, 4) + Text.FixedDigits(t.date.month, 2) + Text.FixedDigits(t.date.day, 2)
      + Text.FixedDigits(t.hour, 2) + Text.FixedDigits(t.minute, 2) + Text.FixedDigits(seconds, 2)
  }

  /** fetch_air_quality_data on a decoded response, `now` standing for
      `pd.Timestamp.now()`. */
  function FetchAirQuality(response: AirResponse, now: Timestamp): (r: Result<AirReading, Upstream>)
    ensures response.AirTransportFailed? ==> r == Failure(TransportError)
    ensures response == AirDocument(None) ==> r == Failure(MalformedEnvelope)
    ensures r.Success? ==> response.AirDocument? && response.service.Some?
  {
    match response
    case AirTransportFailed => Failure(TransportError)
    case AirDocument(service) =>
      if service.None? then Failure(MalformedEnvelope)
      else
        var api := service.value;
        if api.result.Some? && api.result.value.code != Some(SText(SuccessCode)) then
          Failure(ResultCode(api.result.value.code.GetOr(SText(""))))
        else if api.row.None? then Failure(NoData)
        else if api.row.value.RowList? && api.row.value.rows == [] then Failure(NoRows)
        else
          var row := if api.row.value.RowList? then api.row.value.rows[0] else api.row.value.record;
          var ymd := StrOf(row.msrmtYmd.GetOr(SText("")));
          match ParseMeasured(ymd, now)
          case Failure(e) => Failure(e)
          case Success(t) =>
            match FloatOf(row.pm.GetOr(SInt(0)))
            case None => Failure(BadValue)
            case Some(pm) => Success(AirReading(pm, t))
  }

  /** The envelope is accepted exactly when the service key is present, any
      RESULT block reports INFO-000, and there is at least one reading. */
  predicate EnvelopeAccepted(response: AirResponse) {
    && response.AirDocument?
    && response.service.Some?
    && (response.service.value.result.Some? ==> response.service.value.result.value.code == Some(SText(SuccessCode)))
    && response.service.value.row.Some?
    && (response.service.value.row.value.RowList? ==> response.service.value.row.value.rows != [])
  }

  /** The reading the fetcher looks at: the first of a list, or the single one. */
  function FirstReading(response: AirResponse): AirRow
    requires EnvelopeAccepted(response)
  {
    var field := response.service.value.row.value;
    if field.RowList? then field.rows[0] else field.record
  }

  /** Each rejection of the envelope, and what a success is made of: the PM10
      value of the first reading (0 when it has none) and its measurement time. */
  lemma AirQualityOutcome(response: AirResponse, now: Timestamp)
    ensures !EnvelopeAccepted(response) ==> FetchAirQuality(response, now).Failure?
    ensures (response.AirDocument? && response.service.Some? && response.service.value.result.Some?
      && response.service.value.result.value.code != Some(SText(SuccessCode))) ==>
      FetchAirQuality(response, now) == Failure(ResultCode(response.service.value.result.value.code.GetOr(SText(""))))
    ensures (response.AirDocument? && response.service.Some? && response.service.value.row.None?
      && (response.service.value.result.Some? ==> response.service.value.result.value.code == Some(SText(SuccessCode)))) ==>
      FetchAirQuality(response, now) == Failure(NoData)
    ensures FetchAirQuality(response, now).Success? <==>
      && EnvelopeAccepted(response)
      && ParseMeasured(StrOf(FirstReading(response).msrmtYmd.GetOr(SText(""))), now).Success?
      && FloatOf(FirstReading(response).pm.GetOr(SInt(0))).Some?
    ensures FetchAirQuality(response, now).Success? ==>
      var row := FirstReading(response);
      && FetchAirQuality(response, now).value.pm10 == FloatOf(row.pm.GetOr(SInt(0))).value
      && FetchAirQuality(response, now).value.measured == ParseMeasured(StrOf(row.msrmtYmd.GetOr(SText(""))), now).value
  {
  }

  /** A reading without PM reports 0.0; one without MSRMT_YMD is stamped now. */
  lemma MissingFieldsDefault(result: Option<ResultBlock>, now: Timestamp)
    requires result.Some? ==> result.value.code == Some(SText(SuccessCode))
    ensures FetchAirQuality(AirDocument(Some(Service(result, Some(RowRecord(AirRow(None, None)))))), now)
         == Success(AirReading(0.0, now))
  {
  }

  /** Only the first reading of a list matters. */
  lemma OnlyFirstRowRead(result: Option<ResultBlock>, first: AirRow, rest: seq<AirRow>, now: Timestamp)
    ensures FetchAirQuality(AirDocument(Some(Service(result, Some(RowList([first] + rest))))), now)
         == FetchAirQuality(AirDocument(Some(Service(result, Some(RowRecord(first))))), now)
  {
  }

  /** Only the first twelve characters of a long measurement text matter:
      the seconds and anything after them are ignored. */
  lemma SecondsIgnored(s: string, tail: string, now: Timestamp)
    requires |s| >= 12 && |tail| >= 2
    ensures ParseMeasured(s[..12] + tail, now) == ParseMeasured(if |s| >= 14 then s else s[..12] + tail, now)
  {
    var u := s[..12] + tail;
    assert u[..12] == s[..12];
    assert forall k :: 0 <= k <= 12 ==> u[..12][..k] == s[..12][..k];
    if |s| >= 14 {
      assert u[0..4] == s[0..4] && u[4..6] == s[4..6] && u[6..8] == s[6..8];
      assert u[8..10] == s[8..10] && u[10..12] == s[10..12];
    }
  }

  /** Reading the service's measurement text for a representable moment gives
      that moment back. */
  lemma MeasurementRoundTrip(t: Timestamp, seconds: nat, now: Timestamp)
    requires ValidTimestamp(t) && InPandasRange(t) && seconds < 60
    ensures ParseMeasured(MeasurementText(t, seconds), now) == Success(t)
  {
    PandasYears(t);
    MeasurementSlices(t, seconds);
  }

  /** The slices of a measurement text are digits naming its moment. */
  lemma MeasurementSlices(t: Timestamp, seconds: nat)
    requires ValidTimestamp(t) && t.date.year < 10000
    ensures Text.AllDigits(MeasurementText(t, seconds)[..12])
    ensures SliceTimestamp(MeasurementText(t, seconds)) == t
  {
    var y, mo, d, h, mi := Text.FixedDigits(t.date.year, 4), Text.FixedDigits(t.date.month, 2),
      Text.FixedDigits(t.date.day, 2), Text.FixedDigits(t.hour, 2), Text.FixedDigits(t.minute, 2);
    var s := MeasurementText(t, seconds);
    assert s == y + mo + d + h + mi + Text.FixedDigits(seconds, 2);
    SixFields(y, mo, d, h, mi, Text.FixedDigits(seconds, 2));
    FieldValue(t.date.year, 4);
    FieldValue(t.date.month, 2);
    FieldValue(t.date.day, 2);
    FieldValue(t.hour, 2);
    FieldValue(t.minute, 2);
  }

  lemma FieldValue(n: nat, w: nat)
    requires w == 2 || w == 4
    requires n < Text.Pow10(w)
    ensures Text.DigitsValue(Text.FixedDigits(n, w)) == n
  {
    Text.FixedDigitsValue(n, w);
  }

  /** Where the six fields of a measurement text sit. */
  lemma SixFields(a: string, b: string, c: string, d: string, e: string, f: string)
    requires |a| == 4 && |b| == 2 && |c| == 2 && |d| == 2 && |e| == 2 && |f| == 2
    ensures var s := a + b + c + d + e + f;
      |s| == 14 && s[0..4] == a && s[4..6] == b && s[6..8] == c && s[8..10] == d && s[10..12] == e
      && s[..12] == a + b + c + d + e
  {
    var s := a + b + c + d + e + f;
    assert s[0..4] == a;
    assert s[4..6] == b;
    assert s[6..8] == c;
    assert s[8..10] == d;
    assert s[10..12] == e;
  }

  /** Conversely, an accepted long measurement text is the service's text for
      the moment it was read as, up to the seconds. */
  lemma MeasurementTextRecovered(s: string, now: Timestamp)
    requires |s| >= 14 && ParseMeasured(s, now).Success?
    ensures MeasurementText(ParseMeasured(s, now).value, 0)[..12] == s[..12]
  {
    var t := ParseMeasured(s, now).value;
    var parts := Slices(s);
    assert s[..12] == parts[0] + parts[1] + parts[2] + parts[3] + parts[4];
    assert forall k :: 0 <= k < 5 ==> Text.AllDigits(parts[k]);
    Text.FixedDigitsOfValue(parts[0]);
    Text.FixedDigitsOfValue(parts[1]);
    Text.FixedDigitsOfValue(parts[2]);
    Text.FixedDigitsOfValue(parts[3]);
    Text.FixedDigitsOfValue(parts[4]);
    SixFields(parts[0], parts[1], parts[2], parts[3], parts[4], Text.FixedDigits(0, 2));
  }

  /** Every representable moment falls in the years 1677 to 2262. */
  lemma PandasYears(t: Timestamp)
    requires ValidTimestamp(t) && InPandasRange(t)
    ensures 1677 <= t.date.year <= 2262
  {
  }
}
