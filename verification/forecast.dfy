/**
 * `get_weather_forecast`: the error ladder around the noon selector. The HTTP
 * request, the clock and the date parser are parameters: `fetch` is the reply,
 * `today` is the day number of `datetime.now()`, `parse` stands for
 * `dateutil.parser.parse(day).date()` (None when it raises), and `showDate`
 * renders a day number as `str(date)` does.
 */
module Forecast {
  import opened Wrappers
  import opened Text
  import opened Results
  import opened NoonSelector

  /**
   * The JSON body: decoded with its optional `list` of entries; decoded but of a
   * shape whose `list` cannot be read or iterated (a JSON array, `"list": null`),
   * which raises only when the loop starts; or not decodable at all.
   */
  datatype ForecastPayload =
    | Decoded(list: Option<seq<Entry>>)
    | Unlistable(detail: string)
    | Undecodable(detail: string)

  /** The temperature unit symbol: Fahrenheit for exactly the string "imperial", Celsius otherwise. */
  function UnitSymbol(units: string): (s: string)
    ensures s == "°F" <==> units == "imperial"
    ensures s == "°F" || s == "°C"
  {
    if units == "imperial" then "°F" else "°C"
  }

  /**
   * The target date: "today" and "tomorrow" in any casing are the current date
   * and the next one; any other string is handed to the parser.
   */
  function ResolveDay(day: string, today: int, parse: string -> Option<int>): (r: Option<int>)
    ensures SpellsWord(day, "today") ==> r == Some(today)
    ensures SpellsWord(day, "tomorrow") ==> r == Some(today + 1)
    ensures !SpellsWord(day, "today") && !SpellsWord(day, "tomorrow") ==> r == parse(day)
  {
    LowerMatches(day, "today");
    LowerMatches(day, "tomorrow");
    if Lower(day) == "today" then Some(today)
    else if Lower(day) == "tomorrow" then Some(today + 1)
    else parse(day)
  }

  function UnparseableDayMessage(day: string): string
  {
    "Could not parse day: " + day
  }

  function NoForecastMessage(city: string, dateText: string): string
  {
    "No forecast available for " + city + " on " + dateText + "."
  }

  /**
   * The forecast tool. The checks run in order: API key, request, HTTP status,
   * JSON decoding, target date, selection, reading of the chosen entry.
   */
  function GetWeatherForecast(
    city: string, day: string, units: string, key: Option<string>,
    today: int, parse: string -> Option<int>, showDate: int -> string,
    fetch: Fetch<ForecastPayload>): (r: ToolResult)
    ensures !HasApiKey(key) ==> r == Error(MissingApiKeyMessage)
    ensures HasApiKey(key) && fetch.Reply? && fetch.status != 200 ==> r.Error? && Contains(r.message, fetch.body)
    ensures r.Success? ==>
      && HasApiKey(key) && fetch.Reply? && fetch.status == 200 && fetch.payload.Decoded?
      && r.report.Forecasted?
      && ResolveDay(day, today, parse) == Some(r.report.date)
      && r.report.city == city
      && (r.report.unit == "°F" <==> units == "imperial")
      && exists k :: 0 <= k < |fetch.payload.list.GetOr([])| &&
           var e := fetch.payload.list.GetOr([])[k];
           Matches(e, r.report.date) && e.reading == Readable(r.report.description, r.report.temp)
  {
    if !HasApiKey(key) then Error(MissingApiKeyMessage)
    else match fetch
      case TransportError(detail) => Error(ExceptionMessage(detail))
      case Reply(status, body, payload) =>
        if status != 200 then
          ContainsMiddle("Failed to fetch forecast data: ", body, "");
          assert "Failed to fetch forecast data: " + body + "" == "Failed to fetch forecast data: " + body;
          Error("Failed to fetch forecast data: " + body)
        else match payload
          case Undecodable(detail) => Error(ExceptionMessage(detail))
          case Unlistable(detail) =>
            if ResolveDay(day, today, parse).None? then Error(UnparseableDayMessage(day))
            else Error(ExceptionMessage(detail))
          case Decoded(list) =>
            match ResolveDay(day, today, parse)
            case None => Error(UnparseableDayMessage(day))
            case Some(target) =>
              var es := list.GetOr([]);
              match SelectNoon(es, target)
              case Raised(detail) => Error(ExceptionMessage(detail))
              case Ok(None) => Error(NoForecastMessage(city, showDate(target)))
              case Ok(Some(k)) =>
                match es[k].reading
                case Unreadable(detail) => Error(ExceptionMessage(detail))
                case Readable(description, temp) =>
                  Success(Forecasted(city, target, description, temp, UnitSymbol(units)))
  }

  /** The default `day` argument. */
  const DefaultDay: string := "tomorrow"

  /** The default `units` argument. */
  const DefaultUnits: string := "imperial"

  /**
   * The tool called with its default arguments: a successful report is for the
   * day after the current one, in Fahrenheit.
   */
  function GetWeatherForecastByDefault(
    city: string, key: Option<string>, today: int, parse: string -> Option<int>,
    showDate: int -> string, fetch: Fetch<ForecastPayload>): (r: ToolResult)
    ensures r.Success? ==> r.report.Forecasted? && r.report.date == today + 1 && r.report.unit == "°F"
    ensures !HasApiKey(key) ==> r == Error(MissingApiKeyMessage)
  {
    assert SpellsWord(DefaultDay, "tomorrow");
    assert !SpellsWord(DefaultDay, "today");
    GetWeatherForecast(city, DefaultDay, DefaultUnits, key, today, parse, showDate, fetch)
  }

  /** Without a key nothing else is consulted: not the reply, the day, the clock or the parser. */
  lemma ForecastKeyCheckFirst(
    city: string, day: string, units: string, key: Option<string>,
    today: int, parse: string -> Option<int>, showDate: int -> string,
    fetch: Fetch<ForecastPayload>, day': string, today': int, fetch': Fetch<ForecastPayload>)
    requires !HasApiKey(key)
    ensures GetWeatherForecast(city, day, units, key, today, parse, showDate, fetch)
         == GetWeatherForecast(city, day', units, key, today', parse, showDate, fetch')
  {
  }

  /** A failed request is reported with its body before the day is looked at, so a bad day never masks it. */
  lemma ForecastStatusBeforeDay(
    city: string, day: string, units: string, key: Option<string>,
    today: int, parse: string -> Option<int>, showDate: int -> string,
    fetch: Fetch<ForecastPayload>)
    requires HasApiKey(key) && fetch.Reply? && fetch.status != 200
    ensures GetWeatherForecast(city, day, units, key, today, parse, showDate, fetch)
         == Error("Failed to fetch forecast data: " + fetch.body)
  {
  }

  /**
   * A day that is neither "today" nor "tomorrow" and that the parser rejects is
   * reported verbatim, even when the body's `list` could not be read: the day is
   * checked first.
   */
  lemma ForecastUnparseableDay(
    city: string, day: string, units: string, key: Option<string>,
    today: int, parse: string -> Option<int>, showDate: int -> string,
    fetch: Fetch<ForecastPayload>)
    requires HasApiKey(key) && fetch.Reply? && fetch.status == 200 && !fetch.payload.Undecodable?
    requires !SpellsWord(day, "today") && !SpellsWord(day, "tomorrow") && parse(day).None?
    ensures GetWeatherForecast(city, day, units, key, today, parse, showDate, fetch)
         == Error(UnparseableDayMessage(day))
  {
  }

  /** A body whose `list` cannot be iterated raises once the day has resolved. */
  lemma ForecastUnlistableAfterDay(
    city: string, day: string, units: string, key: Option<string>,
    today: int, parse: string -> Option<int>, showDate: int -> string,
    fetch: Fetch<ForecastPayload>)
    requires HasApiKey(key) && fetch.Reply? && fetch.status == 200 && fetch.payload.Unlistable?
    requires ResolveDay(day, today, parse).Some?
    ensures GetWeatherForecast(city, day, units, key, today, parse, showDate, fetch)
         == Error(ExceptionMessage(fetch.payload.detail))
  {
  }

  /**
   * With no entry on the target date, a missing `list` included, the result is
   * the "No forecast available" error naming the city and the date.
   */
  lemma ForecastNoEntryOnDate(
    city: string, day: string, units: string, key: Option<string>,
    today: int, parse: string -> Option<int>, showDate: int -> string,
    fetch: Fetch<ForecastPayload>, target: int)
    requires HasApiKey(key) && fetch.Reply? && fetch.status == 200 && fetch.payload.Decoded?
    requires ResolveDay(day, today, parse) == Some(target)
    requires NoGarbled(fetch.payload.list.GetOr([])) && !HasMatch(fetch.payload.list.GetOr([]), target)
    ensures GetWeatherForecast(city, day, units, key, today, parse, showDate, fetch)
         == Error(NoForecastMessage(city, showDate(target)))
  {
  }

  /**
   * With an entry on the target date, the report is read from the first entry
   * at hour 12 of that date, or failing that from the last entry on that date.
   */
  lemma ForecastReportsFirstNoonElseLast(
    city: string, day: string, units: string, key: Option<string>,
    today: int, parse: string -> Option<int>, showDate: int -> string,
    fetch: Fetch<ForecastPayload>, target: int, k: nat)
    requires HasApiKey(key) && fetch.Reply? && fetch.status == 200 && fetch.payload.Decoded?
    requires ResolveDay(day, today, parse) == Some(target)
    requires NoGarbled(fetch.payload.list.GetOr([]))
    requires var es := fetch.payload.list.GetOr([]);
      if HasNoon(es, target) then IsFirstNoon(es, target, k) else IsLastMatch(es, target, k)
    requires fetch.payload.list.GetOr([])[k].reading.Readable?
    ensures var rd := fetch.payload.list.GetOr([])[k].reading;
      GetWeatherForecast(city, day, units, key, today, parse, showDate, fetch)
      == Success(Forecasted(city, target, rd.description, rd.temp, UnitSymbol(units)))
  {
    var es := fetch.payload.list.GetOr([]);
    if !HasNoon(es, target) {
      assert HasMatch(es, target);
    }
  }

  /** The day words are matched in any casing; other strings, even near misses, go to the parser. */
  lemma DayWordsInAnyCasing(today: int, parse: string -> Option<int>)
    ensures ResolveDay("TODAY", today, parse) == Some(today)
    ensures ResolveDay("Tomorrow", today, parse) == Some(today + 1)
    ensures ResolveDay("to day", today, parse) == parse("to day")
  {
    assert SpellsWord("TODAY", "today");
    assert SpellsWord("Tomorrow", "tomorrow");
  }

  /** The unit comparison is case-sensitive: "Imperial" reports Celsius. */
  lemma UnitSymbolCaseSensitive()
    ensures UnitSymbol("imperial") == "°F"
    ensures UnitSymbol("Imperial") == "°C"
    ensures UnitSymbol("metric") == "°C"
  {
  }
}
