# FFmpeg log bridge — Dafny model

This project models the logging core of the Rust FFmpeg bindings (`src/util/log`):

- **Level scale** (`level.dfy`, module `AvLevel`): the nine-variant `Level` enum with its derived
  order by declaration (`Quiet < Trace < Debug < Verbose < Info < Warning < Error < Fatal < Panic`),
  the total conversion to FFmpeg's native `c_int` level and the partial conversion back, which
  rejects unknown integers with `"illegal log level"`. The constants are FFmpeg's
  `AV_LOG_QUIET` -8, `PANIC` 0, `FATAL` 8, `ERROR` 16, `WARNING` 24, `INFO` 32, `VERBOSE` 40,
  `DEBUG` 48, `TRACE` 56 (libavutil/log.h); `c_int` is a 32-bit newtype.
- **Native accessors and the `log`-crate adapter** (`native_log.dfy`, module `NativeLog`): FFmpeg's
  global log state as class `AvLog` (the stored level integer and the installed raw callback) with
  `set_level`/`get_level`/`set_raw_callback`/`set_default_callback`, and the decision logic of
  `default_callback` as the pure function `DefaultCallback`: decode the level with the `Info`
  fallback, optionally drop events below FFmpeg's configured level, map the level to a
  `log::LevelFilter`, and emit the trimmed rendered text when that filter has a level and the
  level is enabled.
- **Callback bridge** (`callback.dfy`, module `Callback`): the `CALLBACK_CONTEXT` slot and the
  installed raw callback as class `CallbackContext`, whose methods are proved against the pure
  transitions `Install`, `Uninstall` and `Dispatch`; `Run` replays any sequence of registrations,
  owner drops and FFmpeg events, and the lemmas about it state who receives which event.
- Support: `rust_str.dfy` (Rust's `str::trim` with `char::is_whitespace`), `log_crate.dfy`
  (`log::Level`, `log::LevelFilter` and `to_level`), `wrappers.dfy` (`Option`, `Result`).

Inputs the code takes from outside are parameters: the `respect-ffmpeg-log-level` feature is
`respectLevel`, `av_log_get_level()` is `configured`, `log::log_enabled!` is the set `enabled`,
and the result of `vsprintf(fmt, args)` is `formatted` (`None` when formatting fails). The event
context and the `va_list` are opaque tokens; the format string is the already decoded text.
A registered `Arc<dyn LogCallback>` is a `Capability` known by its identity, and the ghost field
`CallbackContext.calls` records every `log` call the bridge makes.

Points where the code's behaviour is easy to misread, as the model has it:

- `default_callback` trims whitespace at both ends (`str::trim`), not only at the end.
- A formatting failure is not skipped: `expect` panics; the model returns `FormatPanic`.
- The level→filter map is not monotonic under the `log` crate's order
  (`Off < Error < … < Trace`): apart from `Quiet`, a more severe level maps to a filter that is
  no more verbose (`ToFilterReversesSeverity`).
- The threshold test compares in declaration order, which agrees with FFmpeg's numeric rule
  ("drop when the event's integer exceeds the configured one") except in two cases, both because
  `Quiet` is the least variant: a configured `Quiet` drops nothing, and a `Quiet` event (native -8)
  is dropped under every other configured level although -8 exceeds none of them
  (`BelowConfiguredLevel`, `QuietConfiguredDropsNothing`).
- `callback.rs` imports `set_default_callback` from `mod.rs`, which defines no such function;
  it is modelled as installing FFmpeg's own output routine, what `default_unsafe_callback` calls.

## Model

| member | source | states |
|---|---|---|
| `AvLevel.ToNative` | src/util/log/level.rs:40-53 | every level maps to one of the nine native constants, and `try_from` of that integer gives the level back |
| `AvLevel.FromNative` | src/util/log/level.rs:21-38 | an integer is accepted exactly when it is one of the nine constants; any other integer yields `Err("illegal log level")` |
| `AvLevel.FromNativeInverse` | src/util/log/level.rs:24-53 | a level accepted by `try_from(n)` converts back to `n` |
| `AvLevel.ToNativeInjective` | src/util/log/level.rs:40-53 | distinct levels have distinct native integers |
| `AvLevel.Less` | src/util/log/level.rs:6-17 | the derived `<`, compared by declaration position (used at src/util/log/mod.rs:60): no level is below `Quiet` and none above `Panic` |
| `AvLevel.DeclarationOrderIsStrictTotal` | src/util/log/level.rs:6-17 | the derived order is irreflexive, transitive and total |
| `AvLevel.DeclarationOrderExtremes` | src/util/log/level.rs:6-17 | `Quiet` is the least level, `Panic` the greatest, and `Debug < Verbose < Info` |
| `AvLevel.DeclarationOrderReversesNative` | src/util/log/level.rs:6-53 | apart from `Quiet`, one level is below another in declaration order exactly when its native integer is larger |
| `AvLevel.DecodeOrInfo` | src/util/log/callback.rs:22 | a known integer decodes to the level whose native integer it is; any other integer decodes to `Info` |
| `RustStr.Trim` | src/util/log/mod.rs:77 | the result is no longer than the input and starts and ends with a non-whitespace character |
| `RustStr.TrimSplit` | src/util/log/mod.rs:77 | the input is a whitespace prefix, then the trimmed text, then a whitespace suffix |
| `RustStr.TrimPadded` | src/util/log/mod.rs:77 | trimming already-trimmed text padded with whitespace on both sides returns that text |
| `RustStr.TrimIdempotent` | src/util/log/mod.rs:77 | trimming twice equals trimming once |
| `RustStr.TrimEmptyIffAllWhitespace` | src/util/log/mod.rs:77 | the trimmed text is empty exactly when the input is all whitespace |
| `LogCrate.LevelFilter.ToLevel` | src/util/log/mod.rs:74 | a filter has no level exactly when it is `Off`; otherwise the level is the one whose own filter is this filter (the equivalent level) |
| `NativeLog.AvLog.SetLevel` | src/util/log/mod.rs:12-14 | stores the level's native integer, so that decoding the stored integer gives the level back |
| `NativeLog.AvLog.GetLevel` | src/util/log/mod.rs:16-18 | succeeds exactly when the stored integer is one of the nine constants, with the level whose integer it is; otherwise `Err("illegal log level")` |
| `NativeLog.AvLog.SetRawCallback` | src/util/log/mod.rs:43-47 | the given raw callback is installed |
| `NativeLog.AvLog.SetDefaultCallback` | src/util/log/mod.rs:50-52 | FFmpeg's own output routine is installed |
| `NativeLog.ToFilter` | src/util/log/mod.rs:65-72 | `Off` exactly for `Quiet`; `Error` for native 0 to 16, `Warn` for 24, `Info` for 32, `Debug` for 40 to 48, `Trace` for 56 |
| `NativeLog.ToFilterReversesSeverity` | src/util/log/mod.rs:65-72 | apart from `Quiet`, a more severe level never maps to a more verbose filter |
| `NativeLog.BelowConfiguredLevel` | src/util/log/mod.rs:58-63 | an event is dropped exactly when the configured integer is a level other than `AV_LOG_QUIET` and the event is `Quiet` or has a larger native integer; an unknown configured integer drops nothing |
| `NativeLog.QuietConfiguredDropsNothing` | src/util/log/mod.rs:59-61 | with FFmpeg's level set to `AV_LOG_QUIET` the threshold drops no event |
| `NativeLog.DefaultCallback` | src/util/log/mod.rs:56-80 | text is emitted only when the event passes the threshold, its filter has a level, that level is enabled and formatting succeeded, and the text is the trimmed rendering; the outcome is not `Silent` exactly when the event passes the threshold, its filter has a level and that level is enabled; it panics exactly in that case when formatting fails, so a dropped or disabled event is never formatted; a `Quiet` event is never emitted |
| `NativeLog.UnknownLevelActsAsInfo` | src/util/log/mod.rs:57 | an unrecognised raw level behaves exactly as `AV_LOG_INFO` |
| `Callback.CallWith` | src/util/log/callback.rs:19-25 | context, format text and arguments reach the closure unchanged; the level is the decoded one, `Info` for an unknown integer |
| `Callback.Dispatch` | src/util/log/callback.rs:35-39 | an empty slot calls nothing; a filled slot calls its callback exactly once, with `call_with`'s arguments |
| `Callback.Install` | src/util/log/callback.rs:41-44 | after `set_context(cb)` the slot holds exactly `cb` and the dispatcher is installed |
| `Callback.Uninstall` | src/util/log/callback.rs:46-49 | after `clear_context` the slot is empty and FFmpeg's default is installed |
| `Callback.Run` | src/util/log/callback.rs:41-62 | from a state where the slot is filled exactly when the dispatcher is installed, every sequence of registrations, drops and events keeps that agreement |
| `Callback.RegisteredCallbackGetsEveryEvent` | src/util/log/callback.rs:35-44 | while `cb` is registered, each FFmpeg event reaches `cb` exactly once, in order, with the decoded arguments |
| `Callback.ReplacedCallbackUnreachable` | src/util/log/callback.rs:41-44 | after registering B over A, every later event produces exactly one invocation, of B, and none reaches A |
| `Callback.NothingReachedWhenUninstalled` | src/util/log/callback.rs:46-49 | while the dispatcher is not installed, FFmpeg events reach no capability and change nothing |
| `Callback.DropSilencesAllCallbacks` | src/util/log/callback.rs:53-56 | after an owner is dropped, no previously registered capability receives an event |
| `Callback.UninstallIdempotent` | src/util/log/callback.rs:46-56 | dropping twice leaves the same state as dropping once |
| `Callback.DropClearsLaterRegistration` | src/util/log/callback.rs:53-56 | dropping any owner clears the slot, even one filled by a later registration |
| `Callback.CallbackContext.constructor` | src/util/log/callback.rs:31-33 | the slot starts empty, while FFmpeg's own output is installed, so slot and installed callback agree; no callback has been called |
| `Callback.CallbackContext.ContextCallback` | src/util/log/callback.rs:35-39 | appends to the call record exactly what `Dispatch` gives for the current slot |
| `Callback.CallbackContext.SetContext` | src/util/log/callback.rs:41-44 | the new state is `Install` of the old one; slot and installed callback agree |
| `Callback.CallbackContext.ClearContext` | src/util/log/callback.rs:46-49 | the new state is `Uninstall` of the old one; slot and installed callback agree |
| `Callback.CallbackContext.SetCallback` | src/util/log/callback.rs:59-62 | registers `cb` as `set_context` does and returns the owner handle |
| `Callback.CallbackContext.DropOwner` | src/util/log/callback.rs:53-56 | empties the slot and installs FFmpeg's default, whoever registered last |

## Left out

- Concurrency: the `RwLock`, `Arc` and `lazy_static` around the slot are not modelled; the slot is one sequential field, so lock poisoning (`unwrap` on a poisoned lock) and reference counting are out of scope.
- Raw pointers: `CStr::from_ptr` and `from_utf8_unchecked` are not modelled; the format string is the decoded text, and the context and `va_list` are opaque tokens.
- `set_flags` and `get_flags`: `Flags` lives in `src/util/log/flag.rs`, which is not part of this model.
- `vsprintf` formatting is a foreign routine; its result is a parameter of `DefaultCallback`.
- The `log` crate's `log_enabled!` and `log!` macros: enablement is a set parameter and emission is the returned `Emitted` value.
- The behaviour of a registered `LogCallback::log` implementation is not modelled; only who is called with what is recorded.
- Direct raw-callback installs: the agreement between slot and installed callback (`Callback.Run`) is stated for the bridge's own operations; a direct `set_raw_callback` call by the program can install another raw callback while the slot is filled, and the model does not restrict that.
