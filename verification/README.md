# Weather bot tools, modelled in Dafny

A model of the tool functions of the weather agent in
`google-adk-agents/weather-bot/agent.py`. The tools are:

- `get_weather`, a mock lookup;
- `get_current_time`, a city-to-time-zone lookup followed by a clock reading;
- `get_live_weather`, current conditions from OpenWeatherMap;
- `get_weather_forecast`, a forecast for a day.

Each tool returns a `status`/`report`/`error_message` dictionary. Here that is
`Results.ToolResult`. Error messages are exact strings. Success reports are a
`Report` datatype, because the source fills them with float-formatted
temperatures, clock readings and dates.

The outside world comes in as parameters:

- the API key is `Option<string>`; an empty string counts as missing, as in Python;
- the HTTP reply is `Fetch`: a transport exception, or a status, body and decoded payload;
- `datetime.now()` is the day number `today`;
- `dateutil`'s parse of the day string is a partial function `parse`;
- the printing of a date is `showDate`.

Each forecast entry's `dt_txt` is one of three things: missing, unparseable
(parsing raises), or a day number with an hour and a minute.

Modules:

- `Text`: Python's `str.lower()` as a comparison with an ASCII literal sees it, and substring containment.
- `Temperature`: the Celsius-to-Fahrenheit map over exact reals.
- `CityLookup`: `get_weather` and `get_current_time`.
- `LiveWeather`: `get_live_weather`.
- `NoonSelector`: the loop that picks one forecast entry for the target date.
- `Forecast`: `get_weather_forecast`.

The comment at agent.py:122 says the loop finds the forecast closest to noon.
The noon selector keeps the loop's literal comparison instead. `min_time_diff` starts at
two days, is reset to `timedelta(hours=d)`, and is compared by `total_seconds()`
against the raw hour distance `d`. The model proves what this amounts to:

- the first entry at hour 12 of the target date is chosen, and no later entry replaces it;
- with no such entry, the last entry on the target date is chosen;
- only the hour counts; minutes are ignored.

So the loop is not a closest-to-noon search with first-wins ties.
`NoonSelector.SelectNoonDivergesFromClosest` shows two cases: of 09:00 and 15:00
it keeps 15:00, and of 11:00 and 21:00 it keeps 21:00. It agrees with
closest-to-noon whenever an entry at hour 12 exists
(`NoonSelector.SelectNoonIsClosestWhenNoonPresent`).

`Text.LowerChar` lower-cases `A`–`Z`, plus U+212A KELVIN SIGN to `k`. Those are
the only characters Python lower-cases to an ASCII letter. U+0130 lower-cases to
`i` followed by a combining dot, which never equals an ASCII word. So for the
tests against "new york", "today" and "tomorrow", the result is the one Python gives.

Some plain facts about the code that the model keeps:

- The lookups neither strip spaces from the city nor change its case in messages. The error message quotes the city as given.
- Both live tools treat any status other than 200 as a failed request.
- `get_current_time` never returns a time. Line 8 rebinds the name `datetime` from the module to the class. So `datetime.datetime.now(tz)` at line 56 raises `AttributeError` for every spelling of New York, and nothing catches it. See "## Findings".

## Model

| member | source | states |
|---|---|---|
| Text.Lower | google-adk-agents/weather-bot/agent.py:20 | the model's `Lower` maps each character in place (so it agrees with Python's `lower()` in every comparison against an ASCII word, though Python lengthens U+0130) |
| NoonSelector.Scan | google-adk-agents/weather-bot/agent.py:125-135 | the loop as written, with the literal seconds-versus-hours comparison: the kept entry is the incoming one or a later entry on the target date |
| Text.LowerMatches | google-adk-agents/weather-bot/agent.py:20 | `s.lower()` equals a lower-case word exactly when `s` spells that word letter by letter in any casing |
| CityLookup.GetWeather | google-adk-agents/weather-bot/agent.py:20-32 | success (the fixed New York report) exactly when the city lower-cases to "new york"; otherwise an error whose message contains the city verbatim |
| CityLookup.GetCurrentTime | google-adk-agents/weather-bot/agent.py:45-60 | raises the uncaught `AttributeError` of line 56 exactly when the city lower-cases to "new york"; every other city returns an error whose message contains the city |
| CityLookup.NoTimeZoneError | google-adk-agents/weather-bot/agent.py:47-53 | the error for a city outside the time-zone table contains the city verbatim |
| CityLookup.CurrentTimeIntended | google-adk-agents/weather-bot/agent.py:45-60 | corrected tool: New York succeeds with its zone America/New_York and the city as given; every other city gets the same error the tool returns |
| CityLookup.CurrentTimeRaisesForNewYork | google-adk-agents/weather-bot/agent.py:56 | the tool raises exactly where the corrected one succeeds, e.g. for "New York" |
| CityLookup.TitleCaseReachesTable | google-adk-agents/weather-bot/agent.py:45 | "New York" reaches the table |
| CityLookup.IsNewYorkInAnyCasing | google-adk-agents/weather-bot/agent.py:45 | the table key matches exactly the 8-character spellings of "new york" in any casing |
| CityLookup.UpperCaseReachesTable | google-adk-agents/weather-bot/agent.py:20 | "NEW YORK" reaches the table |
| CityLookup.KelvinSignReachesTable | google-adk-agents/weather-bot/agent.py:20 | "New Yor" followed by the Kelvin sign reaches the table, as Python lower-cases that sign to `k` |
| CityLookup.NewYorkSpellingsRejected | google-adk-agents/weather-bot/agent.py:20 | "NewYork" and spellings with a leading or trailing space miss the table |
| CityLookup.NewYorkReportTemperaturesAgree | google-adk-agents/weather-bot/agent.py:24-25 | the fixed report contains "25 degrees Celsius" and "77 degrees Fahrenheit", and 25 °C is 77 °F under the conversion |
| Temperature.CelsiusToFahrenheit | google-adk-agents/weather-bot/agent.py:82 | `c * 9/5 + 32` is undone by `(f - 32) * 5/9` |
| Temperature.CelsiusToFahrenheitInvertsBack | google-adk-agents/weather-bot/agent.py:82 | the conversion applied after its inverse gives back the Fahrenheit reading |
| Temperature.CelsiusToFahrenheitStrictlyIncreasing | google-adk-agents/weather-bot/agent.py:82 | a warmer Celsius reading gives a warmer Fahrenheit reading |
| Temperature.CelsiusToFahrenheitFixedPoints | google-adk-agents/weather-bot/agent.py:82 | 0 goes to 32, 100 to 212, -40 to -40 |
| LiveWeather.GetLiveWeather | google-adk-agents/weather-bot/agent.py:65-86 | a missing key gives the key error; a status other than 200 gives an error containing the body; success exactly when key, status and payload are all good, reporting the city, the description, the Celsius reading and its Fahrenheit conversion |
| LiveWeather.LiveKeyCheckBeforeFetch | google-adk-agents/weather-bot/agent.py:65-70 | without a key the reply has no influence on the result |
| NoonSelector.HourDistance | google-adk-agents/weather-bot/agent.py:132 | the distance of an hour from noon is at most 12 and is 0 exactly at hour 12 |
| NoonSelector.SelectNoon | google-adk-agents/weather-bot/agent.py:123-136 | raises exactly when some `dt_txt` does not parse, with the error of the first such entry; otherwise picks the first hour-12 entry of the target date, else the last entry on that date, else none; any pick lies on the target date |
| NoonSelector.ScanRaisesOnFirstGarbled | google-adk-agents/weather-bot/agent.py:126-130 | the loop raises exactly when a remaining entry's timestamp does not parse, with the error of the first such entry |
| NoonSelector.ScanStep | google-adk-agents/weather-bot/agent.py:131-135 | one iteration of the literal `hours < seconds` comparison keeps the loop invariant |
| NoonSelector.ScanEndsWithFirstNoonElseLast | google-adk-agents/weather-bot/agent.py:125-135 | from any state meeting the invariant, the loop ends with the first noon entry, else the last match |
| NoonSelector.ScanIgnoresMinutes | google-adk-agents/weather-bot/agent.py:130-133 | the loop gives the same outcome on two lists whose timestamps differ only in minutes |
| NoonSelector.SelectNoonIgnoresMinutes | google-adk-agents/weather-bot/agent.py:132 | the choice uses `entry_dt.hour` only, so minutes never change it |
| NoonSelector.SelectNoonIsClosestWhenNoonPresent | google-adk-agents/weather-bot/agent.py:122-135 | when an hour-12 entry exists, the pick is closest to noon and first among equals |
| NoonSelector.FirstGarbledErrorWins | google-adk-agents/weather-bot/agent.py:126-130 | of two entries with unparseable timestamps, the earlier one's error is raised |
| NoonSelector.NoonBeatsNeighbours | google-adk-agents/weather-bot/agent.py:125-135 | of entries at 09:00, 12:00 and 15:00 the 12:00 one is picked |
| NoonSelector.SelectNoonDivergesFromClosest | google-adk-agents/weather-bot/agent.py:133-134 | without a noon entry the later of 09:00/15:00 and the farther 21:00 over 11:00 are picked, unlike closest-first |
| Forecast.UnitSymbol | google-adk-agents/weather-bot/agent.py:140 | "°F" exactly for the string "imperial", "°C" for everything else |
| Forecast.UnitSymbolCaseSensitive | google-adk-agents/weather-bot/agent.py:140 | "Imperial" gets "°C" |
| Forecast.ResolveDay | google-adk-agents/weather-bot/agent.py:113-121 | any-casing "today" is the current date, "tomorrow" the next date, any other string the parser's answer |
| Forecast.DayWordsInAnyCasing | google-adk-agents/weather-bot/agent.py:113-116 | "TODAY" and "Tomorrow" resolve without the parser; "to day" goes to the parser |
| Forecast.GetWeatherForecast | google-adk-agents/weather-bot/agent.py:96-144 | a missing key gives the key error; a status other than 200 gives an error containing the body; a success comes from an entry on the resolved date, for the requested city, with °F exactly for "imperial" |
| Forecast.GetWeatherForecastByDefault | google-adk-agents/weather-bot/agent.py:94 | with the default arguments `day="tomorrow"` and `units="imperial"`, a success reports the day after the current one in °F |
| Forecast.ForecastKeyCheckFirst | google-adk-agents/weather-bot/agent.py:96-101 | without a key the reply, the day and the clock have no influence |
| Forecast.ForecastStatusBeforeDay | google-adk-agents/weather-bot/agent.py:104-109 | a status other than 200 gives "Failed to fetch forecast data: " plus the body, whatever the day |
| Forecast.ForecastUnparseableDay | google-adk-agents/weather-bot/agent.py:117-121 | a day the parser rejects gives "Could not parse day: " plus the day, even when the body's `list` cannot be iterated |
| Forecast.ForecastUnlistableAfterDay | google-adk-agents/weather-bot/agent.py:123-126 | a body whose `list` cannot be iterated raises once the day has resolved |
| Forecast.ForecastNoEntryOnDate | google-adk-agents/weather-bot/agent.py:123-137 | when every `dt_txt` parses and no entry lies on the target date, including a missing `list`, the error names the city and the date |
| Forecast.ForecastReportsFirstNoonElseLast | google-adk-agents/weather-bot/agent.py:122-144 | when every `dt_txt` parses, the report carries the description and temperature of the first hour-12 entry on the date, else of the last entry on the date |

## Findings

| source | as written | input that shows it | evidently intended | confidence | as-written member | corrected member |
|---|---|---|---|---|---|---|
| google-adk-agents/weather-bot/agent.py:56 | `datetime.datetime.now(tz)`, after line 8 rebound `datetime` to the class, raises `AttributeError`, which is not caught | city = "New York" | return the current time in America/New_York, as the docstring at lines 36-43 says | high, not executed | CityLookup.GetCurrentTime (with CityLookup.CurrentTimeRaisesForNewYork) | CityLookup.CurrentTimeIntended |

## Left out

- The HTTP requests, their URLs and 10-second timeouts (agent.py:71-73, 102-104) are external I/O. The reply is an input, `Fetch`.
- `response.json()` and the body-level indexing (agent.py:79-81, 110, 123, 126) are reduced to three payload cases. A decoded payload has an optional `list`. `Unlistable` is a decoded body whose `list` cannot be read or iterated; it raises after the day check, as agent.py:123-126 do. `Undecodable` raises before the day check. The forecast's per-entry indexing (agent.py:138-139) is the entry's `Reading`, `Readable` or `Unreadable`, and only the chosen entry's reading is looked at. Each exception text is an input string.
- `dateutil` parsing (agent.py:119, 130) is an abstract partial function for the day. For `dt_txt` it is the three-way `Stamp`. Dates are integer day numbers.
- `datetime.now()` (agent.py:112) depends on the clock. The current day is the parameter `today`.
- `ZoneInfo("America/New_York")` (agent.py:55) is reached and assumed to succeed; a machine without time-zone data would raise `ZoneInfoNotFoundError` there instead. `strftime` (agent.py:57-58) is never reached, because line 56 raises. The corrected `CityLookup.CurrentTimeIntended` keeps only the city and the zone name, not the formatted time.
- The `.1f` formatting, `str.capitalize()` and `str(date)` (agent.py:80, 84, 137-138, 142) are float and text formatting. Reports are a datatype, and the date text is the parameter `showDate`.
- The forecast temperature is whatever the endpoint returned for the `units` sent. What the endpoint does with a value other than "imperial" or "metric" is outside the model.
- The `root_agent` configuration (agent.py:152-162) only wires the external agent runtime.
- `run_weather_bot.py` is an async command-line loop over an external runner. It imports names that `agent.py` does not define.
- `test_mock_weather.py` exercises `get_weather_stateful`. That function, the session-state unit preference and the guardrail callbacks are not part of this model: no source for them exists among the files modelled.
