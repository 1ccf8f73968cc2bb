/**
 * What every weather tool returns, and the pieces of the outside world the live
 * tools consult: the API key from the environment and the reply of one HTTP request.
 */
module Results {
  import opened Wrappers

  /**
   * The text of a successful report, kept abstract where the source formats
   * floats, dates or clock readings into it.
   */
  datatype Report =
    | Fixed(text: string)
    | LocalTime(city: string, zone: string)
    | Live(city: string, description: string, celsius: real, fahrenheit: real)
    | Forecasted(city: string, date: int, description: string, temp: real, unit: string)

  /** The `{"status": ..., ...}` dictionary: a report on success, an error message otherwise. */
  datatype ToolResult = Success(report: Report) | Error(message: string)

  /** The reply of one `requests.get`: the exception it raised, or a status, body and decoded JSON. */
  datatype Fetch<P> = TransportError(detail: string) | Reply(status: int, body: string, payload: P)

  /** `os.getenv("OPENWEATHER_API_KEY")` is truthy: set and not empty. */
  predicate HasApiKey(key: Option<string>)
  {
    key.Some? && key.value != ""
  }

  const MissingApiKeyMessage: string :=
    "OpenWeatherMap API key not found in environment variable OPENWEATHER_API_KEY."

  /** The message of the `except Exception as e` handler. */
  function ExceptionMessage(detail: string): string
  {
    "Exception occurred: " + detail
  }
}
