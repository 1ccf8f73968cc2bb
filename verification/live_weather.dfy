/** `get_live_weather`: current conditions from the remote weather endpoint. */
module LiveWeather {
  import opened Wrappers
  import opened Text
  import opened Results
  import opened Temperature

  /** The fields the tool reads from the JSON body: `weather[0].description` and `main.temp`. */
  datatype Observation = Observation(description: string, celsius: real)

  /** The decoded body, or the exception decoding or indexing it raised. */
  datatype LivePayload = Decoded(observation: Observation) | Undecodable(detail: string)

  /**
   * The key check, then the request, then the status check, then decoding; on
   * success the report carries the Celsius reading and its Fahrenheit conversion.
   */
  function GetLiveWeather(city: string, key: Option<string>, fetch: Fetch<LivePayload>): (r: ToolResult)
    ensures !HasApiKey(key) ==> r == Error(MissingApiKeyMessage)
    ensures r.Success? <==> HasApiKey(key) && fetch.Reply? && fetch.status == 200 && fetch.payload.Decoded?
    ensures r.Success? ==>
      && r.report.Live?
      && r.report.city == city
      && r.report.description == fetch.payload.observation.description
      && r.report.celsius == fetch.payload.observation.celsius
      && FahrenheitToCelsius(r.report.fahrenheit) == r.report.celsius
    ensures HasApiKey(key) && fetch.Reply? && fetch.status != 200 ==> r.Error? && Contains(r.message, fetch.body)
  {
    if !HasApiKey(key) then Error(MissingApiKeyMessage)
    else match fetch
      case TransportError(detail) => Error(ExceptionMessage(detail))
      case Reply(status, body, payload) =>
        if status != 200 then
          ContainsMiddle("Failed to fetch weather data: ", body, "");
          assert "Failed to fetch weather data: " + body + "" == "Failed to fetch weather data: " + body;
          Error("Failed to fetch weather data: " + body)
        else match payload
          case Undecodable(detail) => Error(ExceptionMessage(detail))
          case Decoded(obs) =>
            Success(Live(city, obs.description, obs.celsius, CelsiusToFahrenheit(obs.celsius)))
  }

  /** Without a key the tool answers before the request: the reply cannot influence the result. */
  lemma LiveKeyCheckBeforeFetch(city: string, key: Option<string>, f1: Fetch<LivePayload>, f2: Fetch<LivePayload>)
    requires !HasApiKey(key)
    ensures GetLiveWeather(city, key, f1) == GetLiveWeather(city, key, f2)
  {
  }
}
