/** The configuration values the sync engine reads, and how they are resolved. */
module Settings {
  import opened Common

  /** Seconds a request may take when the configuration says nothing usable. */
  const REQUEST_TIMEOUT: real := 300.0

  /** Default width of a date window, in days. */
  const DATE_WINDOW_SIZE: int := 1

  const SECONDS_PER_DAY: int := 86400

  /** A configuration value as read from the configuration file: a number or a text. */
  datatype Setting = Number(x: real) | Text(s: string)

  /**
   * The configuration the engine consults: `start_date` (as a timestamp in
   * seconds), `date_window_size` (converted to seconds) and `request_timeout`.
   * `None` stands for a key that is absent.
   */
  datatype Config = Config(startDate: int, dateWindowSeconds: Option<int>, requestTimeout: Option<Setting>)

  /** The width of one date window in seconds: the configured one, else one day. */
  function WindowSize(c: Config): (w: int)
    ensures c.dateWindowSeconds.None? ==> w == SECONDS_PER_DAY
    ensures c.dateWindowSeconds.Some? ==> w == c.dateWindowSeconds.value
  {
    c.dateWindowSeconds.GetOr(DATE_WINDOW_SIZE * SECONDS_PER_DAY)
  }

  datatype ConfigError = NotANumber(text: string)

  /**
   * `get_request_timeout`: the configured value converted with `float` when it
   * is truthy and converts to a non-zero number, otherwise the default.
   * `parseFloat` is Python's `float` on a text: `None` where it raises.
   */
  function RequestTimeout(setting: Option<Setting>, parseFloat: string -> Option<real>): (r: Result<real, ConfigError>)
    ensures r.Ok? ==> r.value != 0.0
    ensures r.Err? <==> setting.Some? && setting.value.Text? && setting.value.s != "" && parseFloat(setting.value.s).None?
  {
    match setting
    case None => Ok(REQUEST_TIMEOUT)
    case Some(Number(x)) => if x != 0.0 then Ok(x) else Ok(REQUEST_TIMEOUT)
    case Some(Text(s)) =>
      if s == "" then Ok(REQUEST_TIMEOUT)
      else match parseFloat(s)
        case None => Err(NotANumber(s))
        case Some(x) => if x != 0.0 then Ok(x) else Ok(REQUEST_TIMEOUT)
  }

  /** The default is used exactly when the setting is absent, empty, or converts to zero. */
  lemma RequestTimeoutFallback(setting: Option<Setting>, parseFloat: string -> Option<real>)
    requires RequestTimeout(setting, parseFloat).Ok?
    ensures var r := RequestTimeout(setting, parseFloat).value;
      match setting
      case None => r == REQUEST_TIMEOUT
      case Some(Number(x)) => r == if x == 0.0 then REQUEST_TIMEOUT else x
      case Some(Text(s)) =>
        r == if s == "" || parseFloat(s) == Some(0.0) then REQUEST_TIMEOUT else parseFloat(s).value
  {
  }
}
