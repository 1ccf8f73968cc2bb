/** The two table lookups: the mock weather report and the city-to-time-zone map. */
module CityLookup {
  import opened Wrappers
  import opened Text
  import opened Results
  import Temperature

  const NewYorkCelsius: string := "25 degrees Celsius"
  const NewYorkFahrenheit: string := "77 degrees Fahrenheit"

  /** The fixed mock report for New York. */
  const NewYorkReport: string :=
    "The weather in New York is sunny with a temperature of " + NewYorkCelsius + " (" + NewYorkFahrenheit + ")."

  const NewYorkZone: string := "America/New_York"

  /** `city.lower() == "new york"`, the only key of both tables. */
  predicate IsNewYork(city: string)
  {
    Lower(city) == "new york"
  }

  /** The mock weather report: fixed for New York, an error naming the city for every other one. */
  function GetWeather(city: string): (r: ToolResult)
    ensures r.Success? <==> IsNewYork(city)
    ensures r.Success? ==> r.report == Fixed(NewYorkReport)
    ensures r.Error? ==> Contains(r.message, city)
  {
    if IsNewYork(city) then Success(Fixed(NewYorkReport))
    else
      ContainsMiddle("Weather information for '", city, "' is not available.");
      Error("Weather information for '" + city + "' is not available.")
  }

  /**
   * The exception `get_current_time` raises for New York. The module imports
   * `datetime` and then `from datetime import datetime`, which rebinds the name
   * to the class, so `datetime.datetime.now(tz)` looks up an attribute the class
   * does not have.
   */
  const NowAttributeError: string :=
    "AttributeError: type object 'datetime.datetime' has no attribute 'datetime'"

  /**
   * The time tool as written. Every city other than New York gets an error naming
   * it. New York resolves to its zone, and the call to `now` then raises; nothing
   * catches it, so the exception reaches the caller instead of a result. The
   * model assumes that `ZoneInfo("America/New_York")`, which runs before `now`,
   * succeeds: without time-zone data on the machine it would raise first.
   */
  function GetCurrentTime(city: string): (r: Attempt<ToolResult>)
    ensures r.Raised? <==> IsNewYork(city)
    ensures r.Raised? ==> r.detail == NowAttributeError
    ensures r.Ok? ==> r.value.Error? && Contains(r.value.message, city)
  {
    if IsNewYork(city) then Raised(NowAttributeError)
    else Ok(NoTimeZoneError(city))
  }

  /** The error for a city outside the time-zone table. */
  function NoTimeZoneError(city: string): (r: ToolResult)
    ensures r.Error? && Contains(r.message, city)
  {
    ContainsMiddle("Sorry, I don't have timezone information for ", city, ".");
    Error("Sorry, I don't have timezone information for " + city + ".")
  }

  /**
   * The time tool as its docstring describes it: New York resolves to its IANA
   * zone and the report names the city as the caller spelt it; every other city
   * is the same error as before.
   */
  function CurrentTimeIntended(city: string): (r: ToolResult)
    ensures r.Success? <==> IsNewYork(city)
    ensures r.Success? ==> r.report == LocalTime(city, NewYorkZone)
    ensures r.Error? ==> Contains(r.message, city)
    ensures !IsNewYork(city) ==> GetCurrentTime(city) == Ok(r)
  {
    if IsNewYork(city) then Success(LocalTime(city, NewYorkZone)) else NoTimeZoneError(city)
  }

  /**
   * The two differ on New York and only there: the tool raises where the
   * intended one reports the time in America/New_York.
   */
  lemma CurrentTimeRaisesForNewYork(city: string)
    ensures GetCurrentTime(city).Raised? <==> CurrentTimeIntended(city).Success?
    ensures GetCurrentTime("New York") == Raised(NowAttributeError)
    ensures CurrentTimeIntended("New York") == Success(LocalTime("New York", NewYorkZone))
  {
    TitleCaseReachesTable();
  }

  /** The city is New York exactly when it spells "new york" letter by letter in any casing, with no extra spaces. */
  lemma IsNewYorkInAnyCasing(city: string)
    ensures IsNewYork(city) <==> SpellsWord(city, "new york")
  {
    LowerMatches(city, "new york");
  }

  /** Shouting the city still reaches the table. */
  lemma UpperCaseReachesTable()
    ensures IsNewYork("NEW YORK")
  {
    var s := "NEW YORK";
    forall i | 0 <= i < 8
      ensures Lower(s)[i] == "new york"[i]
    {
    }
  }

  /** The city as usually written reaches the table. */
  lemma TitleCaseReachesTable()
    ensures IsNewYork("New York")
  {
    var s := "New York";
    forall i | 0 <= i < 8
      ensures Lower(s)[i] == "new york"[i]
    {
    }
  }

  /** The Kelvin sign spells the `k`, because Python lower-cases it to an ASCII `k`. */
  lemma KelvinSignReachesTable()
    ensures IsNewYork("New Yor" + [KelvinSign])
  {
    var s := "New Yor" + [KelvinSign];
    forall i | 0 <= i < 8
      ensures Lower(s)[i] == "new york"[i]
    {
    }
  }

  /** Spellings that miss the table: the source neither trims the city nor ignores its spaces. */
  lemma NewYorkSpellingsRejected()
    ensures !IsNewYork("NewYork") && !IsNewYork(" new york") && !IsNewYork("new york ")
  {
  }

  /** The fixed report's two temperatures, 25 degrees Celsius and 77 Fahrenheit, agree with the conversion the live tool uses. */
  lemma NewYorkReportTemperaturesAgree()
    ensures Contains(NewYorkReport, "25 degrees Celsius")
    ensures Contains(NewYorkReport, "77 degrees Fahrenheit")
    ensures Temperature.CelsiusToFahrenheit(25.0) == 77.0
  {
    var before := "The weather in New York is sunny with a temperature of ";
    ContainsMiddle(before, NewYorkCelsius, " (" + NewYorkFahrenheit + ").");
    assert before + NewYorkCelsius + (" (" + NewYorkFahrenheit + ").") == NewYorkReport;
    ContainsMiddle(before + NewYorkCelsius + " (", NewYorkFahrenheit, ").");
  }
}
