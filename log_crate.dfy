/**
 * The two level types of the `log` crate that the default callback targets:
 * `log::Level` and `log::LevelFilter`, each ordered from least to most verbose.
 */
module LogCrate {
  import opened Wrappers

  /** `log::Level`. */
  datatype LogLevel = Error | Warn | Info | Debug | Trace {

    /** `Level::to_level_filter`: the filter of the same name. */
    function ToLevelFilter(): (f: LevelFilter)
      ensures f != LevelFilter.Off
    {
      match this
      case Error => LevelFilter.Error
      case Warn => LevelFilter.Warn
      case Info => LevelFilter.Info
      case Debug => LevelFilter.Debug
      case Trace => LevelFilter.Trace
    }
  }

  /** `log::LevelFilter`: `Off`, then one filter per `log::Level`. */
  datatype LevelFilter = Off | Error | Warn | Info | Debug | Trace {

    /** `LevelFilter::to_level`: the level this filter admits up to, `None` for `Off`. */
    function ToLevel(): (r: Option<LogLevel>)
      ensures r.None? <==> this == Off
      ensures r.Some? ==> r.value.ToLevelFilter() == this
    {
      match this
      case Off => None
      case Error => Some(LogLevel.Error)
      case Warn => Some(LogLevel.Warn)
      case Info => Some(LogLevel.Info)
      case Debug => Some(LogLevel.Debug)
      case Trace => Some(LogLevel.Trace)
    }
  }

  /** The `log` crate's order on filters: `Off < Error < Warn < Info < Debug < Trace`. */
  function Verbosity(f: LevelFilter): nat {
    match f
    case Off => 0
    case Error => 1
    case Warn => 2
    case Info => 3
    case Debug => 4
    case Trace => 5
  }
}
