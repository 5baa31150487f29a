/**
 * `OpenWeatherMapClient`: the configuration of the group request (API key,
 * city ids, units, language), the table `weathers` of per-city records, the
 * update of that table from one response of the weather service, and the
 * accessors that read it.
 *
 * The network exchange and the JSON parser are not modelled: `UpdateWeather`
 * receives a `Response` that says how far the exchange got and, when the
 * body was parsed, the parsed object.
 */
module OpenWeatherMap {
  import opened ArduinoString
  import opened CityIds
  import opened CityNames
  import opened WeatherIcons

  /** One record of the table; every field is text except the batch flag `cached`. */
  datatype Weather = Weather(
    lat: string, lon: string, dt: string, city: string, country: string,
    temp: string, humidity: string, condition: string, cloudiness: string,
    wind: string, weatherId: string, description: string, icon: string,
    cached: bool, error: string)

  /** A record before any update: empty strings, flag clear. */
  const EmptyWeather: Weather :=
    Weather("", "", "", "", "", "", "", "", "", "", "", "", "", false, "")

  /** The fields of one element of the response's `list` that the client reads, as text. */
  datatype ListEntry = ListEntry(
    lat: string, lon: string, dt: string, name: string, country: string,
    temp: string, humidity: string, main: string, cloudsAll: string,
    windSpeed: string, id: string, description: string, icon: string)

  /** What an element the `list` does not have reads as: every field empty. */
  const MissingEntry: ListEntry := ListEntry("", "", "", "", "", "", "", "", "", "", "", "", "")

  /**
   * The parsed response object: its serialized length (`measureLength()`), its
   * `message` and `cnt` members (empty and 0 when absent) and its `list`.
   */
  datatype JsonRoot = JsonRoot(measureLength: nat, message: string, cnt: int, list: seq<ListEntry>)

  datatype Body = ParseFailed | Parsed(root: JsonRoot)

  /**
   * How far one exchange with the server got: no connection, or a connection
   * with the status line read up to its `'\r'`, whether the blank line ending
   * the headers was found, and the outcome of parsing the rest.
   */
  datatype Response =
    | ConnectFailed
    | Connected(status: string, headersEnd: bool, body: Body)

  /** Which exit of `updateWeather` a response takes. */
  datatype FetchOutcome =
    | ConnectionFailed
    | UnexpectedResponse(status: string)
    | InvalidResponse
    | ParsingFailed
    | NoData(message: string)
    | Updated(copied: nat, dropped: nat)

  const ExpectedStatus: string := "HTTP/1.1 200 OK"
  const ParseFailedMessage: string := "Weather Data Parsing failed!"
  /** A parsed object no longer than this is an error report, not weather data. */
  const MinPayloadLength: nat := 150

  /** The stored language: the given code, or `"en"` when it is empty. */
  function Language(language: string): (lang: string)
    ensures lang != ""
    ensures language != "" ==> lang == language
  {
    if language == "" then "en" else language
  }

  /** The stored unit system for the metric flag. */
  function Units(isMetric: bool): (units: string)
    ensures units == "metric" || units == "imperial"
  {
    if isMetric then "metric" else "imperial"
  }

  /** Element `k` of the response's `list`, or `MissingEntry` when there is none. */
  function EntryAt(list: seq<ListEntry>, k: int): ListEntry
  {
    if 0 <= k < |list| then list[k] else MissingEntry
  }

  /** The thirteen assignments of the copy loop: `cached` and `error` are not among them. */
  function CopyEntry(w: Weather, e: ListEntry): Weather
  {
    w.(lat := e.lat, lon := e.lon, dt := e.dt, city := e.name, country := e.country,
       temp := e.temp, humidity := e.humidity, condition := e.main,
       cloudiness := e.cloudsAll, wind := e.windSpeed, weatherId := e.id,
       description := e.description, icon := e.icon)
  }

  /** `w` shows the data of `e`. */
  predicate Shows(w: Weather, e: ListEntry)
  {
    w.lat == e.lat && w.lon == e.lon && w.dt == e.dt && w.city == e.name &&
    w.country == e.country && w.temp == e.temp && w.humidity == e.humidity &&
    w.condition == e.main && w.cloudiness == e.cloudsAll && w.wind == e.windSpeed &&
    w.weatherId == e.id && w.description == e.description && w.icon == e.icon
  }

  /** `a` and `b` carry the same data; their `cached` and `error` may differ. */
  predicate SameData(a: Weather, b: Weather)
  {
    a.(cached := b.cached, error := b.error) == b
  }

  /** The number of records the copy loop fills in a table of `capacity` records. */
  function CopyCount(cnt: int, capacity: nat): (n: nat)
    ensures n <= capacity
    ensures cnt <= capacity ==> n == if cnt <= 0 then 0 else cnt
  {
    if cnt <= 0 then 0 else if cnt < capacity then cnt else capacity
  }

  /** `response` gets past the status and header checks. */
  predicate ReachesParser(response: Response)
  {
    response.Connected? && response.status == ExpectedStatus && response.headersEnd
  }

  /** The exit `updateWeather` takes on `response` with a table of `capacity` records. */
  function Outcome(response: Response, capacity: nat): FetchOutcome
  {
    match response
    case ConnectFailed => ConnectionFailed
    case Connected(status, headersEnd, body) =>
      if status != ExpectedStatus then UnexpectedResponse(status)
      else if !headersEnd then InvalidResponse
      else
        match body
        case ParseFailed => ParsingFailed
        case Parsed(root) =>
          if root.measureLength <= MinPayloadLength then NoData(root.message)
          else
            var n := CopyCount(root.cnt, capacity);
            Updated(n, if root.cnt > n then root.cnt - n else 0)
  }

  /** Records `0..n` of `ws` after the copy loop has filled them from `list`. */
  function CopyList(ws: seq<Weather>, list: seq<ListEntry>, n: nat): (r: seq<Weather>)
    requires n <= |ws|
    ensures |r| == |ws|
  {
    seq(|ws|, k requires 0 <= k < |ws| => if k < n then CopyEntry(ws[k], EntryAt(list, k)) else ws[k])
  }

  /** The table `ws` after `updateWeather` handles `response`. */
  function AfterUpdate(ws: seq<Weather>, response: Response): (r: seq<Weather>)
    requires |ws| >= 1
    ensures |r| == |ws|
  {
    if !ReachesParser(response) then ws
    else
      var reset := ws[0 := ws[0].(cached := false, error := "")];
      match response.body
      case ParseFailed => reset[0 := reset[0].(error := ParseFailedMessage)]
      case Parsed(root) =>
        if root.measureLength <= MinPayloadLength then
          reset[0 := reset[0].(cached := true, error := root.message)]
        else
          CopyList(reset, root.list, CopyCount(root.cnt, |ws|))
  }

  /**
   * The indices the copy loop writes as written, in order: `0, 1, ...,
   * cnt - 1`, with no regard to the size of the table.
   */
  function CopyIndicesAsWritten(cnt: int): seq<int>
  {
    seq(if cnt <= 0 then 0 else cnt, k => k)
  }

  /** The three exits that reach the parser are exactly the ones that touch the table. */
  lemma OutcomeReachesParser(response: Response, capacity: nat)
    ensures ReachesParser(response) <==>
      (Outcome(response, capacity).ParsingFailed? || Outcome(response, capacity).NoData? ||
       Outcome(response, capacity).Updated?)
  {
  }

  /**
   * No connection, a status line other than `HTTP/1.1 200 OK`, or no blank
   * line after the headers: every record is left as it was, including the
   * `cached` flag and the `error` of record 0.
   */
  lemma UpdateEarlyExit(ws: seq<Weather>, response: Response)
    requires |ws| >= 1 && !ReachesParser(response)
    ensures AfterUpdate(ws, response) == ws
  {
  }

  /**
   * A body that does not parse: record 0 reports the failure with its flag
   * clear; no data field of any record changes.
   */
  lemma UpdateParseFailure(ws: seq<Weather>, response: Response)
    requires |ws| >= 1 && ReachesParser(response) && response.body.ParseFailed?
    ensures var r := AfterUpdate(ws, response);
      !r[0].cached && r[0].error == ParseFailedMessage && SameData(r[0], ws[0]) &&
      forall k :: 1 <= k < |ws| ==> r[k] == ws[k]
  {
  }

  /**
   * A parsed object of at most 150 characters is the service's error report:
   * record 0 is flagged `cached` and carries its `message`; no data field of
   * any record changes.
   */
  lemma UpdateNoData(ws: seq<Weather>, response: Response)
    requires |ws| >= 1 && ReachesParser(response) && response.body.Parsed?
    requires response.body.root.measureLength <= MinPayloadLength
    ensures var r := AfterUpdate(ws, response);
      r[0].cached && r[0].error == response.body.root.message && SameData(r[0], ws[0]) &&
      forall k :: 1 <= k < |ws| ==> r[k] == ws[k]
  {
  }

  /**
   * A full payload: the first `cnt` records (as many as the table holds) show
   * the corresponding `list` elements, the others keep their content, only
   * record 0's `cached` and `error` are reset, and the others' are kept.
   */
  lemma UpdateCopies(ws: seq<Weather>, response: Response)
    requires |ws| >= 1 && ReachesParser(response) && response.body.Parsed?
    requires response.body.root.measureLength > MinPayloadLength
    ensures var root := response.body.root;
      var n := CopyCount(root.cnt, |ws|);
      var r := AfterUpdate(ws, response);
      (forall k :: 0 <= k < n ==> Shows(r[k], EntryAt(root.list, k))) &&
      (forall k :: n <= k < |ws| && k != 0 ==> r[k] == ws[k]) &&
      (n == 0 ==> SameData(r[0], ws[0])) &&
      !r[0].cached && r[0].error == "" &&
      (forall k :: 1 <= k < |ws| ==> r[k].cached == ws[k].cached && r[k].error == ws[k].error)
  {
    var root := response.body.root;
    var n := CopyCount(root.cnt, |ws|);
    var r := AfterUpdate(ws, response);
    var reset := ws[0 := ws[0].(cached := false, error := "")];
    assert r == CopyList(reset, root.list, n);
    forall k | 0 <= k < n ensures Shows(r[k], EntryAt(root.list, k)) {
      assert r[k] == CopyEntry(reset[k], EntryAt(root.list, k));
    }
  }

  /**
   * What `getCached()` and `getError()` report after an update: the outcome
   * of the batch, or what they reported before when the exchange failed
   * before the parser.
   */
  lemma BatchStatus(ws: seq<Weather>, response: Response)
    requires |ws| >= 1
    ensures var r := AfterUpdate(ws, response);
      match Outcome(response, |ws|)
      case ParsingFailed => !r[0].cached && r[0].error == ParseFailedMessage
      case NoData(message) => r[0].cached && r[0].error == message
      case Updated(_, _) => !r[0].cached && r[0].error == ""
      case _ => r[0] == ws[0]
  {
    if ReachesParser(response) && response.body.Parsed? &&
       response.body.root.measureLength > MinPayloadLength {
      UpdateCopies(ws, response);
    }
  }

  /**
   * The records are a snapshot of the last response: handling the same
   * response again leaves the table as it is.
   */
  lemma UpdateIdempotent(ws: seq<Weather>, response: Response)
    requires |ws| >= 1
    ensures AfterUpdate(AfterUpdate(ws, response), response) == AfterUpdate(ws, response)
  {
    if ReachesParser(response) && response.body.Parsed? &&
       response.body.root.measureLength > MinPayloadLength {
      var root := response.body.root;
      var n := CopyCount(root.cnt, |ws|);
      var once := AfterUpdate(ws, response);
      var twice := AfterUpdate(once, response);
      var reset1 := once[0 := once[0].(cached := false, error := "")];
      assert twice == CopyList(reset1, root.list, n);
      forall k | 0 <= k < |ws| ensures twice[k] == once[k] {
      }
    }
  }

  /**
   * The copy count: never more than the table holds, and the elements of
   * `cnt` that do not fit are reported as dropped rather than written.
   */
  lemma CopyStaysInTable(response: Response, capacity: nat)
    requires Outcome(response, capacity).Updated?
    ensures var o := Outcome(response, capacity);
      var cnt := response.body.root.cnt;
      o.copied <= capacity &&
      (cnt >= 0 ==> o.copied + o.dropped == cnt) &&
      (o.dropped > 0 <==> cnt > capacity)
  {
  }

  /**
   * As written, the loop's last write for `cnt` elements in a table of
   * `capacity` records is to index `cnt - 1`, past the table whenever `cnt`
   * exceeds `capacity`: a response with `cnt == capacity + 1` writes
   * `weathers[capacity]`.
   */
  lemma CopyLoopOverrunsTable(capacity: nat, cnt: int)
    requires cnt > capacity
    ensures var ix := CopyIndicesAsWritten(cnt);
      capacity in ix && ix[|ix| - 1] >= capacity
  {
    var ix := CopyIndicesAsWritten(cnt);
    assert ix[capacity] == capacity;
  }

  class OpenWeatherMapClient {
    var myApiKey: string
    var myCityIDs: string
    var units: string
    var lang: string
    /** The raw response text; `updateWeather` only ever clears it. */
    var result: string
    /** The table of records; its size is fixed when the client is built. */
    const weathers: array<Weather>
    /** The ids the city list was last built from. */
    ghost var cityIds: seq<int>

    ghost predicate Valid()
      reads this
    {
      weathers.Length >= 1 &&
      result == "" &&
      myCityIDs == CityIdList(cityIds) &&
      lang != "" &&
      (units == "metric" || units == "imperial")
    }

    /** Builds the city list, normalizes the language, stores the key and the unit system. */
    constructor (apiKey: string, cityIDs: seq<int>, cityCount: int, isMetric: bool, language: string,
                 capacity: nat)
      requires cityCount <= |cityIDs|
      requires capacity >= 1
      ensures Valid() && fresh(weathers)
      ensures cityIds == Prefix(cityIDs, cityCount)
      ensures lang == Language(language) && myApiKey == apiKey && units == Units(isMetric)
      ensures result == ""
      ensures weathers.Length == capacity
      ensures forall k :: 0 <= k < capacity ==> weathers[k] == EmptyWeather
    {
      weathers := new Weather[capacity](_ => EmptyWeather);
      result := "";
      new;
      UpdateCityIdList(cityIDs, cityCount);
      UpdateLanguage(language);
      myApiKey := apiKey;
      SetMetric(isMetric);
    }

    method UpdateWeatherApiKey(apiKey: string)
      modifies this`myApiKey
      ensures myApiKey == apiKey
    {
      myApiKey := apiKey;
    }

    method UpdateLanguage(language: string)
      modifies this`lang
      ensures lang == Language(language)
    {
      lang := language;
      if lang == "" {
        lang := "en";
      }
    }

    method SetMetric(isMetric: bool)
      modifies this`units
      ensures units == Units(isMetric)
    {
      if isMetric {
        units := "metric";
      } else {
        units := "imperial";
      }
    }

    /**
     * Rebuilds `myCityIDs` from the first `cityCount` ids: the positive ones,
     * in order, in decimal, separated by commas.
     */
    method UpdateCityIdList(cityIDs: seq<int>, cityCount: int)
      requires cityCount <= |cityIDs|
      modifies this`myCityIDs, this`cityIds
      ensures cityIds == Prefix(cityIDs, cityCount)
      ensures myCityIDs == CityIdList(cityIds)
    {
      myCityIDs := "";
      var inx := 0;
      while inx < cityCount
        invariant 0 <= inx <= |cityIDs|
        invariant inx == 0 || inx <= cityCount
        invariant myCityIDs == CityIdList(cityIDs[..inx])
      {
        var id := cityIDs[inx];
        assert cityIDs[..inx + 1][..inx] == cityIDs[..inx];
        if id > 0 {
          if myCityIDs != "" {
            myCityIDs := myCityIDs + ",";
          }
          myCityIDs := myCityIDs + Decimal(id);
        }
        inx := inx + 1;
      }
      cityIds := Prefix(cityIDs, cityCount);
    }

    /**
     * One fetch: clears `result`, then handles `response` as `AfterUpdate`
     * says, and reports which exit it took.
     */
    method UpdateWeather(response: Response) returns (outcome: FetchOutcome)
      requires Valid()
      modifies this`result, weathers
      ensures Valid()
      ensures result == ""
      ensures weathers[..] == AfterUpdate(old(weathers[..]), response)
      ensures outcome == Outcome(response, weathers.Length)
    {
      result := "";
      if response.ConnectFailed? {
        return ConnectionFailed;
      }
      if response.status != ExpectedStatus {
        return UnexpectedResponse(response.status);
      }
      if !response.headersEnd {
        return InvalidResponse;
      }
      ghost var before := weathers[..];
      weathers[0] := weathers[0].(cached := false);
      weathers[0] := weathers[0].(error := "");
      ghost var reset := weathers[..];
      assert reset == before[0 := before[0].(cached := false, error := "")];
      if response.body.ParseFailed? {
        weathers[0] := weathers[0].(error := ParseFailedMessage);
        return ParsingFailed;
      }
      var root := response.body.root;
      if root.measureLength <= MinPayloadLength {
        weathers[0] := weathers[0].(cached := true);
        weathers[0] := weathers[0].(error := root.message);
        return NoData(root.message);
      }
      var count := root.cnt;
      var copied := CopyRecords(root.list, count);
      outcome := Updated(copied, if count > copied then count - copied else 0);
    }

    /**
     * The copy loop of `updateWeather`: records `0..cnt` take the data of the
     * matching `list` elements, stopping at the end of the table.
     */
    method CopyRecords(list: seq<ListEntry>, count: int) returns (copied: nat)
      modifies weathers
      ensures copied == CopyCount(count, weathers.Length)
      ensures weathers[..] == CopyList(old(weathers[..]), list, copied)
    {
      var inx := 0;
      while inx < count && inx < weathers.Length
        invariant 0 <= inx <= weathers.Length
        invariant inx == 0 || inx <= count
        invariant forall k :: 0 <= k < inx ==> weathers[k] == CopyEntry(old(weathers[k]), EntryAt(list, k))
        invariant forall k :: inx <= k < weathers.Length ==> weathers[k] == old(weathers[k])
      {
        weathers[inx] := CopyEntry(weathers[inx], EntryAt(list, inx));
        inx := inx + 1;
      }
      copied := inx;
    }

    /** Transliterates the stored city name in place and returns it. */
    method GetCity(index: int) returns (city: string)
      requires 0 <= index < weathers.Length
      modifies weathers
      ensures city == Transliterate(old(weathers[index].city))
      ensures weathers[index] == old(weathers[index]).(city := city)
      ensures forall k :: 0 <= k < weathers.Length && k != index ==> weathers[k] == old(weathers[k])
    {
      weathers[index] := weathers[index].(city := Replace(weathers[index].city, "oe", Umlaut));
      city := weathers[index].city;
    }

    /** The glyph for the stored condition code of record `index` at hour `hours`. */
    method GetWeatherIcon(index: int, hours: int) returns (icon: string)
      requires 0 <= index < weathers.Length
      ensures icon == WeatherIcon(ToInt(weathers[index].weatherId), hours)
      ensures |icon| == 1
      ensures (hours <= 6 || hours >= 20) ==> icon == DefaultGlyph
    {
      var id := ToInt(weathers[index].weatherId);
      icon := WeatherIcon(id, hours);
    }

    /** The batch flag, kept in record 0. */
    method GetCached() returns (cached: bool)
      requires Valid()
      ensures cached == weathers[0].cached
    {
      cached := weathers[0].cached;
    }

    /** The batch error message, kept in record 0. */
    method GetError() returns (error: string)
      requires Valid()
      ensures error == weathers[0].error
    {
      error := weathers[0].error;
    }

    /** The `id=` parameter the next request sends. */
    method GetMyCityIDs() returns (ids: string)
      requires Valid()
      ensures ids == CityIdList(cityIds)
    {
      ids := myCityIDs;
    }

    /** The raw response text, which `updateWeather` never fills: always empty. */
    method GetWeatherResults() returns (text: string)
      requires Valid()
      ensures text == result
      ensures text == ""
    {
      text := result;
    }
  }
}
