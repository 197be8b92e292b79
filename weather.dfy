/** fetch_weather_api_data around the HTTP call: the base date and time of
    the ultra-short-term observation request, the checks on the decoded
    envelope, and the category loop that fills `data_dict`. */
module Weather {
  import opened Wrappers
  import opened Errors
  import opened Json
  import opened Calendar
  import Text

  /** One item of the observation list: optional `category` and `obsrValue`. */
  datatype Item = Item(category: Option<Scalar>, obsrValue: Option<Scalar>)

  /** `items`, holding the optional `item` list. */
  datatype Items = Items(item: Option<seq<Item>>)

  /** `body`, holding the optional `items`. */
  datatype Body = Body(items: Option<Items>)

  /** `header`, holding the optional `resultCode`. */
  datatype Header = Header(resultCode: Option<Scalar>)

  /** The value under `response`. */
  datatype Envelope = Envelope(header: Option<Header>, body: Option<Body>)

  /** What the HTTP call and `json.loads` produced. */
  datatype WeatherResponse = WeatherTransportFailed | WeatherDocument(response: Option<Envelope>)

  /** The query parameters that vary between calls. */
  datatype WeatherRequest = WeatherRequest(baseDate: string, baseTime: string, nx: int, ny: int)

  /** The dict the fetcher returns. */
  datatype Observation = Observation(temperature: real, humidity: real, windspeed: real, rainfall: real, observed: Timestamp)

  const SuccessCode := "00"
  const DefaultTemperature := 20.0
  const DefaultHumidity := 60.0
  const DefaultWindspeed := 2.0
  const DefaultRainfall := 0.0

  /** The hourly slot to ask for: the current hour on today's date, except at
      hour 0, where it is 23:00 of the previous day. Computing the previous
      day of 0001-01-01 overflows. */
  function BaseSlot(now: Timestamp): (r: Result<(Date, string), Upstream>)
    requires ValidTimestamp(now)
    ensures r.Failure? <==> now.hour == 0 && now.date == MinDate
    ensures r.Failure? ==> r.error == BaseDateOutOfRange
    ensures r.Success? ==> ValidDate(r.value.0) && |r.value.1| == 4 && Text.AllDigits(r.value.1)
  {
    if now.hour != 0 then Success((now.date, Text.Pad2(now.hour) + "00"))
    else if now.date == MinDate then Failure(BaseDateOutOfRange)
    else
      PrevDayIsOneDayEarlier(now.date);
      Success((PrevDay(now.date), "2300"))
  }

  /** `strftime("%Y%m%d")`. */
  function DateText(d: Date): (s: string)
    requires ValidDate(d)
    ensures |s| == 8 && Text.AllDigits(s)
  {
    Text.FixedDigits(d.year, 4) + Text.FixedDigits(d.month, 2) + Text.FixedDigits(d.day, 2)
  }

  /** The moment a slot names. */
  function SlotMinute(d: Date, time: string): int
    requires ValidDate(d) && |time| == 4 && Text.AllDigits(time)
  {
    assert Text.AllDigits(time[..2]) && Text.AllDigits(time[2..]);
    (Ordinal(d) * 24 + Text.DigitsValue(time[..2])) * 60 + Text.DigitsValue(time[2..])
  }

  /** For hour h other than 0 the slot is today at h:00; at hour 0 it is the
      previous calendar day at 23:00. */
  lemma BaseSlotRule(now: Timestamp)
    requires ValidTimestamp(now) && BaseSlot(now).Success?
    ensures var (d, time) := BaseSlot(now).value;
      && Text.DigitsValue(time[..2]) == (if now.hour == 0 then 23 else now.hour)
      && time[2..] == "00"
      && (now.hour != 0 ==> d == now.date)
      && (now.hour == 0 ==> Ordinal(d) == Ordinal(now.date) - 1 && Weekday(d) == (Weekday(now.date) + 6) % 7)
  {
    var (d, time) := BaseSlot(now).value;
    if now.hour == 0 {
      PrevDayIsOneDayEarlier(now.date);
      PrevDayWeekday(now.date);
      assert time[..2] == "23";
      assert Text.DigitsValue("23"[..1]) == 2;
    } else {
      assert time[..2] == Text.Pad2(now.hour);
    }
  }

  /** So the slot never lies after now: it starts within the current hour, or
      (at hour 0) one hour before it. */
  lemma BaseSlotBeforeNow(now: Timestamp)
    requires ValidTimestamp(now) && BaseSlot(now).Success?
    ensures var (d, time) := BaseSlot(now).value;
      var current := (Ordinal(now.date) * 24 + now.hour) * 60 + now.minute;
      SlotMinute(d, time) <= current < SlotMinute(d, time) + (if now.hour == 0 then 120 else 60)
  {
    BaseSlotRule(now);
    var (d, time) := BaseSlot(now).value;
    assert Text.DigitsValue(time[2..]) == 0 by {
      assert time[2..] == "00";
      assert Text.DigitsValue("00"[..1]) == 0;
    }
  }

  /** The category an item is filed under (`item.get('category', '')`). */
  function ItemKey(item: Item): Scalar {
    item.category.GetOr(SText(""))
  }

  /** The value an item contributes: `float(item.get('obsrValue', '0'))`,
      or 0.0 when that raises. */
  function ItemValue(item: Item): (x: real)
    ensures FloatOf(item.obsrValue.GetOr(SText("0"))).Some? ==> x == FloatOf(item.obsrValue.GetOr(SText("0"))).value
    ensures FloatOf(item.obsrValue.GetOr(SText("0"))).None? ==> x == 0.0
  {
    match FloatOf(item.obsrValue.GetOr(SText("0")))
    case None => 0.0
    case Some(x) => x
  }

  /** `data_dict` after the loop has seen every item of `items`. */
  function Categories(items: seq<Item>): map<Scalar, real>
  {
    if items == [] then map[]
    else Categories(items[..|items| - 1])[ItemKey(items[|items| - 1]) := ItemValue(items[|items| - 1])]
  }

  /** The category loop as written. */
  method CollectCategories(items: seq<Item>) returns (dataDict: map<Scalar, real>)
    ensures dataDict == Categories(items)
  {
    dataDict := map[];
    var i := 0;
    while i < |items|
      invariant 0 <= i <= |items|
      invariant dataDict == Categories(items[..i])
    {
      assert items[..i + 1][..i] == items[..i];
      dataDict := dataDict[ItemKey(items[i]) := ItemValue(items[i])];
      i := i + 1;
    }
    assert items[..i] == items;
  }

  /** A category is present exactly when some item names it, and its value is
      the one of the last item naming it. */
  lemma {:induction false} LastWins(items: seq<Item>, k: Scalar)
    ensures k in Categories(items) <==> exists i :: 0 <= i < |items| && ItemKey(items[i]) == k
    ensures forall i :: (0 <= i < |items| && ItemKey(items[i]) == k
      && (forall j :: i < j < |items| ==> ItemKey(items[j]) != k)) ==>
      k in Categories(items) && Categories(items)[k] == ItemValue(items[i])
  {
    if items != [] {
      var init := items[..|items| - 1];
      LastWins(init, k);
      assert forall i :: 0 <= i < |init| ==> init[i] == items[i];
    }
  }

  /** What `data_dict.get(key, default)` reads for a string key. */
  function Read(dataDict: map<Scalar, real>, key: string, default: real): real {
    if SText(key) in dataDict then dataDict[SText(key)] else default
  }

  /** The observation the fetcher returns for a decoded response, `now`
      standing for `pd.Timestamp.now()`. */
  function ReadObservation(response: WeatherResponse, now: Timestamp): (r: Result<Observation, Upstream>)
    ensures response.WeatherTransportFailed? ==> r == Failure(TransportError)
    ensures response == WeatherDocument(None) ==> r == Failure(MalformedEnvelope)
    ensures r.Success? ==> r.value.observed == now
  {
    match response
    case WeatherTransportFailed => Failure(TransportError)
    case WeatherDocument(data) =>
      if data.None? then Failure(MalformedEnvelope)
      else if data.value.header.Some? && data.value.header.value.resultCode != Some(SText(SuccessCode)) then
        Failure(ResultCode(data.value.header.value.resultCode.GetOr(SText(""))))
      else if data.value.body.None? || data.value.body.value.items.None? then Failure(NoData)
      else if data.value.body.value.items.value.item.None? || data.value.body.value.items.value.item.value == [] then
        Failure(NoItems)
      else
        var items := data.value.body.value.items.value.item.value;
        ObservationOf(Categories(items), now)
  }

  /** The returned dict: the four categories with their defaults. */
  function ObservationOf(dataDict: map<Scalar, real>, now: Timestamp): Result<Observation, Upstream> {
    Success(Observation(
      Read(dataDict, "T1H", DefaultTemperature),
      Read(dataDict, "REH", DefaultHumidity),
      Read(dataDict, "WSD", DefaultWindspeed),
      Read(dataDict, "RN1", DefaultRainfall),
      now))
  }

  /** The items of an accepted envelope. */
  predicate EnvelopeAccepted(response: WeatherResponse) {
    && response.WeatherDocument?
    && response.response.Some?
    && (response.response.value.header.Some? ==> response.response.value.header.value.resultCode == Some(SText(SuccessCode)))
    && response.response.value.body.Some?
    && response.response.value.body.value.items.Some?
    && response.response.value.body.value.items.value.item.Some?
    && response.response.value.body.value.items.value.item.value != []
  }

  function AcceptedItems(response: WeatherResponse): seq<Item>
    requires EnvelopeAccepted(response)
  {
    response.response.value.body.value.items.value.item.value
  }

  /** The envelope checks: success exactly for an accepted envelope, a
      rejecting result code reported as such, and otherwise the four readings
      taken from the categories or their defaults. */
  lemma WeatherOutcome(response: WeatherResponse, now: Timestamp)
    ensures ReadObservation(response, now).Success? <==> EnvelopeAccepted(response)
    ensures (response.WeatherDocument? && response.response.Some? && response.response.value.header.Some?
      && response.response.value.header.value.resultCode != Some(SText(SuccessCode))) ==>
      ReadObservation(response, now) == Failure(ResultCode(response.response.value.header.value.resultCode.GetOr(SText(""))))
    ensures EnvelopeAccepted(response) ==>
      var d := Categories(AcceptedItems(response));
      var o := ReadObservation(response, now).value;
      && (SText("T1H") in d ==> o.temperature == d[SText("T1H")])
      && (SText("T1H") !in d ==> o.temperature == 20.0)
      && (SText("REH") in d ==> o.humidity == d[SText("REH")])
      && (SText("REH") !in d ==> o.humidity == 60.0)
      && (SText("WSD") in d ==> o.windspeed == d[SText("WSD")])
      && (SText("WSD") !in d ==> o.windspeed == 2.0)
      && (SText("RN1") in d ==> o.rainfall == d[SText("RN1")])
      && (SText("RN1") !in d ==> o.rainfall == 0.0)
  {
  }

  /** An observation item that cannot be read as a number counts as 0.0. */
  lemma UnreadableValueIsZero(category: string, value: string, now: Timestamp)
    requires Text.ParseFloat(value).None?
    ensures Categories([Item(Some(SText(category)), Some(SText(value)))]) == map[SText(category) := 0.0]
  {
  }

  /** The fetch: base slot, request, decoded response. */
  method FetchWeatherApi(api: WeatherRequest -> WeatherResponse, nx: int, ny: int, now: Timestamp)
    returns (r: Result<Observation, Upstream>)
    requires ValidTimestamp(now)
    ensures r == WeatherApiResult(api, nx, ny, now)
  {
    var slot := BaseSlot(now);
    if slot.Failure? {
      return Failure(slot.error);
    }
    var (baseDate, baseTime) := slot.value;
    var response := api(WeatherRequest(DateText(baseDate), baseTime, nx, ny));
    if !EnvelopeAccepted(response) {
      return ReadObservation(response, now);
    }
    var dataDict := CollectCategories(AcceptedItems(response));
    r := ObservationOf(dataDict, now);
  }

  /** What fetch_weather_api_data returns or raises. */
  function WeatherApiResult(api: WeatherRequest -> WeatherResponse, nx: int, ny: int, now: Timestamp): Result<Observation, Upstream>
    requires ValidTimestamp(now)
  {
    match BaseSlot(now)
    case Failure(e) => Failure(e)
    case Success((baseDate, baseTime)) => ReadObservation(api(WeatherRequest(DateText(baseDate), baseTime, nx, ny)), now)
  }
}
