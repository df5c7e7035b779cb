/**
 * The logging entry points of src/util/log/mod.rs: FFmpeg's global log state
 * (its level and the installed raw callback) with the accessors that write and
 * read it, and the decision logic of `default_callback`, the raw callback that
 * forwards FFmpeg's messages to the `log` crate.
 */
module NativeLog {
  import opened Wrappers
  import opened AvLevel
  import LogCrate
  import RustStr

  /**
   * The raw callbacks FFmpeg can have installed: its own default output
   * (`av_log_default_callback`, which `default_unsafe_callback` calls), the
   * `log`-crate adapter `default_callback` (installed by
   * `set_raw_callback(default_callback)`), the bridge's `context_callback`,
   * or some other C function identified by an opaque token.
   */
  datatype RawCallback = FfmpegDefault | LogCrateAdapter | ContextDispatcher | Foreign(id: nat)

  /** FFmpeg's process-wide log state, reached through `av_log_set_level`, `av_log_get_level` and `av_log_set_callback`. */
  class AvLog {
    var level: CInt
    var callback: RawCallback

    /** The state at process start: FFmpeg's own output routine is installed. */
    constructor (initialLevel: CInt)
      ensures level == initialLevel && callback == FfmpegDefault
    {
      level := initialLevel;
      callback := FfmpegDefault;
    }

    /** `set_level`: stores the native integer of `value`, so that `get_level` then yields `value`. */
    method SetLevel(value: Level)
      modifies this`level
      ensures level == ToNative(value)
      ensures FromNative(level) == Ok(value)
    {
      level := ToNative(value);
    }

    /** `get_level`: decodes the stored native integer; an integer that is no level is an error. */
    method GetLevel() returns (r: Result<Level, string>)
      ensures r.Ok? <==> level in NATIVE_LEVELS
      ensures r.Ok? ==> ToNative(r.value) == level
      ensures r.Err? ==> r.error == ILLEGAL_LOG_LEVEL
    {
      r := FromNative(level);
    }

    /** `set_raw_callback`: installs `cb` as FFmpeg's log callback. */
    method SetRawCallback(cb: RawCallback)
      modifies this`callback
      ensures callback == cb
    {
      callback := cb;
    }

    /** `set_default_callback`: installs FFmpeg's own output routine again. */
    method SetDefaultCallback()
      modifies this`callback
      ensures callback == FfmpegDefault
    {
      callback := FfmpegDefault;
    }
  }

  /**
   * The `match` of `default_callback` from FFmpeg's level to the `log`
   * crate's filter, described by the native level's band: errors and worse
   * (native 0 to 16) become `Error`, the verbose and debug band (40 to 48)
   * becomes `Debug`, and `Quiet` alone becomes `Off`.
   */
  function ToFilter(l: Level): (f: LogCrate.LevelFilter)
    ensures f == LogCrate.LevelFilter.Off <==> l == Quiet
    ensures l != Quiet ==> (f == LogCrate.LevelFilter.Error <==> ToNative(l) <= AV_LOG_ERROR)
    ensures f == LogCrate.LevelFilter.Warn <==> ToNative(l) == AV_LOG_WARNING
    ensures f == LogCrate.LevelFilter.Info <==> ToNative(l) == AV_LOG_INFO
    ensures f == LogCrate.LevelFilter.Debug <==> AV_LOG_VERBOSE <= ToNative(l) <= AV_LOG_DEBUG
    ensures f == LogCrate.LevelFilter.Trace <==> ToNative(l) == AV_LOG_TRACE
  {
    match l
    case Quiet => LogCrate.LevelFilter.Off
    case Trace => LogCrate.LevelFilter.Trace
    case Debug => LogCrate.LevelFilter.Debug
    case Verbose => LogCrate.LevelFilter.Debug
    case Info => LogCrate.LevelFilter.Info
    case Warning => LogCrate.LevelFilter.Warn
    case Error => LogCrate.LevelFilter.Error
    case Fatal => LogCrate.LevelFilter.Error
    case Panic => LogCrate.LevelFilter.Error
  }

  /**
   * Among levels other than `Quiet`, a more severe FFmpeg level never maps
   * to a more verbose `log` filter.
   */
  lemma ToFilterReversesSeverity(a: Level, b: Level)
    requires a != Quiet && (a == b || Less(a, b))
    ensures LogCrate.Verbosity(ToFilter(b)) <= LogCrate.Verbosity(ToFilter(a))
  {
  }

  /**
   * The threshold test under `respect-ffmpeg-log-level`: the event is dropped
   * when `get_level()` succeeds with a level the event's level is below in
   * declaration order. In FFmpeg's numeric terms: the configured integer is a
   * level other than `AV_LOG_QUIET`, and the event is `Quiet` or has a larger
   * native integer.
   */
  function BelowConfiguredLevel(configured: CInt, level: Level): (drop: bool)
    ensures drop <==> configured in NATIVE_LEVELS && configured != AV_LOG_QUIET
                      && (level == Quiet || ToNative(level) > configured)
  {
    match FromNative(configured)
    case Ok(enabled) => Less(level, enabled)
    case Err(_) => false
  }

  /** A configured `Quiet` level drops nothing: it is the least level in declaration order. */
  lemma QuietConfiguredDropsNothing(level: Level)
    ensures !BelowConfiguredLevel(AV_LOG_QUIET, level)
  {
  }

  /** What `default_callback` does with one event. */
  datatype Emission =
    | Silent                                   // returns without logging
    | Emitted(level: LogCrate.LogLevel, text: string)  // `log::log!(level, "{}", text)`
    | FormatPanic                              // `vsprintf` failed and `expect` panics

  /**
   * `default_callback`. `respectLevel` is the `respect-ffmpeg-log-level`
   * feature, `configured` the integer `av_log_get_level` returns,
   * `enabled` the `log` levels for which `log_enabled!` holds, and
   * `formatted` the result of `vsprintf(fmt, args)` (`None` when it fails).
   */
  function DefaultCallback(respectLevel: bool, configured: CInt, rawLevel: CInt,
                           enabled: set<LogCrate.LogLevel>, formatted: Option<string>): (e: Emission)
    ensures e.Emitted? ==>
      && !(respectLevel && BelowConfiguredLevel(configured, DecodeOrInfo(rawLevel)))
      && ToFilter(DecodeOrInfo(rawLevel)).ToLevel() == Some(e.level)
      && e.level in enabled
      && formatted.Some? && e.text == RustStr.Trim(formatted.value)
    ensures e != Silent <==>
      && !(respectLevel && BelowConfiguredLevel(configured, DecodeOrInfo(rawLevel)))
      && ToFilter(DecodeOrInfo(rawLevel)).ToLevel().Some?
      && ToFilter(DecodeOrInfo(rawLevel)).ToLevel().value in enabled
    ensures e.FormatPanic? <==> e != Silent && formatted.None?
    ensures DecodeOrInfo(rawLevel) == Quiet ==> e == Silent
  {
    var level := DecodeOrInfo(rawLevel);
    if respectLevel && BelowConfiguredLevel(configured, level) then Silent
    else
      match ToFilter(level).ToLevel()
      case None => Silent
      case Some(logLevel) =>
        if logLevel !in enabled then Silent
        else
          match formatted
          case None => FormatPanic
          case Some(text) => Emitted(logLevel, RustStr.Trim(text))
  }

  /** An unrecognised raw level is handled exactly as `AV_LOG_INFO`. */
  lemma UnknownLevelActsAsInfo(respectLevel: bool, configured: CInt, rawLevel: CInt,
                               enabled: set<LogCrate.LogLevel>, formatted: Option<string>)
    requires rawLevel !in NATIVE_LEVELS
    ensures DefaultCallback(respectLevel, configured, rawLevel, enabled, formatted)
         == DefaultCallback(respectLevel, configured, AV_LOG_INFO, enabled, formatted)
  {
  }
}
