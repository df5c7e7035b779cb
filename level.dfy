/**
 * The FFmpeg log-level scale (src/util/log/level.rs): the nine-variant
 * `Level` enum, its derived order by declaration, and the conversions to and
 * from the native `c_int` level.
 */
module AvLevel {
  import opened Wrappers

  /** The C ABI's `c_int`: a 32-bit two's-complement integer. */
  newtype CInt = x: int | -0x8000_0000 <= x < 0x8000_0000

  // The AV_LOG_* constants of FFmpeg's libavutil/log.h.
  const AV_LOG_QUIET: CInt := -8
  const AV_LOG_PANIC: CInt := 0
  const AV_LOG_FATAL: CInt := 8
  const AV_LOG_ERROR: CInt := 16
  const AV_LOG_WARNING: CInt := 24
  const AV_LOG_INFO: CInt := 32
  const AV_LOG_VERBOSE: CInt := 40
  const AV_LOG_DEBUG: CInt := 48
  const AV_LOG_TRACE: CInt := 56

  /** The error text of a rejected native level. */
  const ILLEGAL_LOG_LEVEL: string := "illegal log level"

  /** The nine native levels FFmpeg defines. */
  const NATIVE_LEVELS: set<CInt> :=
    {AV_LOG_QUIET, AV_LOG_PANIC, AV_LOG_FATAL, AV_LOG_ERROR, AV_LOG_WARNING,
     AV_LOG_INFO, AV_LOG_VERBOSE, AV_LOG_DEBUG, AV_LOG_TRACE}

  datatype Level = Quiet | Trace | Debug | Verbose | Info | Warning | Error | Fatal | Panic

  /** Position of a variant in the declaration, which is what the derived `Ord` compares. */
  function Rank(l: Level): nat {
    match l
    case Quiet => 0
    case Trace => 1
    case Debug => 2
    case Verbose => 3
    case Info => 4
    case Warning => 5
    case Error => 6
    case Fatal => 7
    case Panic => 8
  }

  /** The derived `<` on `Level`: nothing is below `Quiet` and nothing above `Panic`. */
  predicate Less(a: Level, b: Level)
    ensures Less(a, b) ==> b != Quiet && a != Panic
  {
    Rank(a) < Rank(b)
  }

  /** `Into<c_int> for Level`. */
  function ToNative(l: Level): (n: CInt)
    ensures n in NATIVE_LEVELS
    ensures FromNative(n) == Ok(l)
  {
    match l
    case Quiet => AV_LOG_QUIET
    case Panic => AV_LOG_PANIC
    case Fatal => AV_LOG_FATAL
    case Error => AV_LOG_ERROR
    case Warning => AV_LOG_WARNING
    case Info => AV_LOG_INFO
    case Verbose => AV_LOG_VERBOSE
    case Debug => AV_LOG_DEBUG
    case Trace => AV_LOG_TRACE
  }

  /** `TryFrom<c_int> for Level`. */
  function FromNative(n: CInt): (r: Result<Level, string>)
    ensures r.Ok? <==> n in NATIVE_LEVELS
    ensures r.Err? ==> r.error == ILLEGAL_LOG_LEVEL
  {
    if n == AV_LOG_QUIET then Ok(Quiet)
    else if n == AV_LOG_PANIC then Ok(Panic)
    else if n == AV_LOG_FATAL then Ok(Fatal)
    else if n == AV_LOG_ERROR then Ok(Error)
    else if n == AV_LOG_WARNING then Ok(Warning)
    else if n == AV_LOG_INFO then Ok(Info)
    else if n == AV_LOG_VERBOSE then Ok(Verbose)
    else if n == AV_LOG_DEBUG then Ok(Debug)
    else if n == AV_LOG_TRACE then Ok(Trace)
    else Err(ILLEGAL_LOG_LEVEL)
  }

  /** `Level::try_from(n).unwrap_or(Level::Info)`: decoding with the `Info` fallback. */
  function DecodeOrInfo(n: CInt): (l: Level)
    ensures n in NATIVE_LEVELS ==> ToNative(l) == n
    ensures n !in NATIVE_LEVELS ==> l == Info
  {
    FromNative(n).UnwrapOr(Info)
  }

  /** A level accepted by `try_from` converts back to the same integer. */
  lemma FromNativeInverse(n: CInt, l: Level)
    requires FromNative(n) == Ok(l)
    ensures ToNative(l) == n
  {
  }

  /** Distinct levels have distinct native integers. */
  lemma ToNativeInjective(a: Level, b: Level)
    requires ToNative(a) == ToNative(b)
    ensures a == b
  {
  }

  /** The derived order is a strict total order. */
  lemma DeclarationOrderIsStrictTotal(a: Level, b: Level, c: Level)
    ensures !Less(a, a)
    ensures Less(a, b) && Less(b, c) ==> Less(a, c)
    ensures a == b || Less(a, b) || Less(b, a)
  {
  }

  /** `Quiet` is the least level, `Panic` the greatest, and `Debug < Verbose < Info`. */
  lemma DeclarationOrderExtremes(l: Level)
    ensures l != Quiet ==> Less(Quiet, l)
    ensures l != Panic ==> Less(l, Panic)
    ensures Less(Debug, Verbose) && Less(Verbose, Info)
  {
  }

  /**
   * Apart from `Quiet`, the declaration order is the reverse of the native
   * numeric order: a more severe level has a smaller native integer.
   */
  lemma DeclarationOrderReversesNative(a: Level, b: Level)
    requires a != Quiet && b != Quiet
    ensures Less(a, b) <==> ToNative(a) > ToNative(b)
  {
  }
}
