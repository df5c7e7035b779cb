/**
 * The callback bridge of src/util/log/callback.rs: a process-wide slot holding
 * at most one registered `LogCallback`, the dispatcher `context_callback` that
 * FFmpeg calls and that forwards each event to the slot's callback, and the
 * registration handle `CallbackOwner` whose drop clears the slot.
 */
module Callback {
  import opened Wrappers
  import opened AvLevel
  import opened NativeLog

  /** The opaque `*mut c_void` context of an event. */
  datatype Context = Context(address: nat)

  /** The opaque `va_list` of an event; only a formatter may look inside. */
  datatype Args = Args(handle: nat)

  /** A registered `Arc<dyn LogCallback>`, told apart by its identity. */
  datatype Capability = Capability(id: nat)

  /** One call of FFmpeg's raw callback: context, native level, format text and arguments. */
  datatype RawEvent = RawEvent(context: Context, level: CInt, fmt: string, args: Args)

  /** The arguments `call_with` hands to its closure. */
  datatype LogArgs = LogArgs(context: Context, level: Level, fmt: string, args: Args)

  /** `callback.log(context, level, fmt, args)` was called on `callee`. */
  datatype Invocation = Invocation(callee: Capability, call: LogArgs)

  /** The handle `set_callback` returns; it holds nothing. */
  datatype CallbackOwner = CallbackOwner

  /**
   * `call_with`: what the closure receives. Context, format text and
   * arguments pass through unchanged; the level is decoded, with `Info`
   * standing in for an integer that is no level.
   */
  function CallWith(ev: RawEvent): (a: LogArgs)
    ensures a.context == ev.context && a.fmt == ev.fmt && a.args == ev.args
    ensures ev.level in NATIVE_LEVELS ==> ToNative(a.level) == ev.level
    ensures ev.level !in NATIVE_LEVELS ==> a.level == Info
  {
    LogArgs(ev.context, DecodeOrInfo(ev.level), ev.fmt, ev.args)
  }

  /** The bridge's view of the global state: the slot and the raw callback FFmpeg has installed. */
  datatype Bridge = Bridge(slot: Option<Capability>, installed: RawCallback)

  /** The slot is filled exactly when the dispatcher is installed. */
  predicate Consistent(b: Bridge) {
    b.slot.Some? <==> b.installed == ContextDispatcher
  }

  /**
   * `context_callback` on a slot: with an empty slot nothing is called;
   * otherwise the slot's callback is called once, with `call_with`'s arguments.
   */
  function Dispatch(slot: Option<Capability>, ev: RawEvent): (calls: seq<Invocation>)
    ensures |calls| <= 1
    ensures calls != [] <==> slot.Some?
    ensures forall i :: 0 <= i < |calls| ==> calls[i] == Invocation(slot.value, CallWith(ev))
  {
    match slot
    case None => []
    case Some(cb) => [Invocation(cb, CallWith(ev))]
  }

  /** `set_context`: the slot holds `cb` and the dispatcher is installed, whatever came before. */
  function Install(b: Bridge, cb: Capability): (b': Bridge)
    ensures Consistent(b')
    ensures b'.slot == Some(cb)
  {
    Bridge(Some(cb), ContextDispatcher)
  }

  /** `clear_context`: the slot is empty and FFmpeg's own output is installed, whatever came before. */
  function Uninstall(b: Bridge): (b': Bridge)
    ensures Consistent(b')
    ensures b'.slot == None && b'.installed == FfmpegDefault
  {
    Bridge(None, FfmpegDefault)
  }

  /**
   * What an FFmpeg log event reaches: the dispatcher when it is installed,
   * otherwise a raw callback that calls no registered capability.
   */
  function Deliver(b: Bridge, ev: RawEvent): seq<Invocation> {
    if b.installed == ContextDispatcher then Dispatch(b.slot, ev) else []
  }

  /** One step of a program using the bridge. */
  datatype Op =
    | SetCallback(cb: Capability)   // `set_callback(cb)`
    | DropOwner                     // some `CallbackOwner` goes out of scope
    | NativeEvent(ev: RawEvent)     // FFmpeg logs `ev`

  function Step(b: Bridge, op: Op): (Bridge, seq<Invocation>) {
    match op
    case SetCallback(cb) => (Install(b, cb), [])
    case DropOwner => (Uninstall(b), [])
    case NativeEvent(ev) => (b, Deliver(b, ev))
  }

  /**
   * A sequence of steps from state `b`: the final state and every callback
   * invocation in order. Every step keeps the slot and the installed raw
   * callback in agreement.
   */
  function Run(b: Bridge, ops: seq<Op>): (r: (Bridge, seq<Invocation>))
    ensures Consistent(b) ==> Consistent(r.0)
    decreases |ops|
  {
    if ops == [] then (b, [])
    else
      var (b1, c1) := Step(b, ops[0]);
      var (b2, c2) := Run(b1, ops[1..]);
      (b2, c1 + c2)
  }

  predicate OnlyEvents(ops: seq<Op>) {
    forall i :: 0 <= i < |ops| ==> ops[i].NativeEvent?
  }

  /**
   * While `cb` is registered, each FFmpeg event reaches `cb` exactly once,
   * in order, with the decoded arguments, and no other capability.
   */
  lemma {:induction false} RegisteredCallbackGetsEveryEvent(b: Bridge, cb: Capability, ops: seq<Op>)
    requires b.slot == Some(cb) && b.installed == ContextDispatcher
    requires OnlyEvents(ops)
    ensures Run(b, ops).0 == b
    ensures |Run(b, ops).1| == |ops|
    ensures forall i :: 0 <= i < |ops| ==> Run(b, ops).1[i] == Invocation(cb, CallWith(ops[i].ev))
    decreases |ops|
  {
    if ops != [] {
      assert OnlyEvents(ops[1..]) by {
        forall i | 0 <= i < |ops| - 1 ensures ops[1..][i].NativeEvent? {
          assert ops[1..][i] == ops[i + 1];
        }
      }
      RegisteredCallbackGetsEveryEvent(b, cb, ops[1..]);
      var rest := Run(b, ops[1..]).1;
      assert Run(b, ops).1 == [Invocation(cb, CallWith(ops[0].ev))] + rest;
      forall i | 0 < i < |ops|
        ensures Run(b, ops).1[i] == Invocation(cb, CallWith(ops[i].ev))
      {
        assert ops[1..][i - 1] == ops[i];
      }
    }
  }

  /** Registering B after A: later events reach B only, never A. */
  lemma ReplacedCallbackUnreachable(b: Bridge, a: Capability, c: Capability, ops: seq<Op>)
    requires a != c && OnlyEvents(ops)
    ensures |Run(Install(Install(b, a), c), ops).1| == |ops|
    ensures forall inv :: inv in Run(Install(Install(b, a), c), ops).1 ==> inv.callee == c && inv.callee != a
  {
    RegisteredCallbackGetsEveryEvent(Install(Install(b, a), c), c, ops);
  }

  /**
   * Once the slot is empty and FFmpeg's own output is installed, FFmpeg
   * events reach no capability.
   */
  lemma {:induction false} NothingReachedWhenUninstalled(b: Bridge, ops: seq<Op>)
    requires b.installed != ContextDispatcher
    requires OnlyEvents(ops)
    ensures Run(b, ops) == (b, [])
    decreases |ops|
  {
    if ops != [] {
      assert OnlyEvents(ops[1..]) by {
        forall i | 0 <= i < |ops| - 1 ensures ops[1..][i].NativeEvent? {
          assert ops[1..][i] == ops[i + 1];
        }
      }
      NothingReachedWhenUninstalled(b, ops[1..]);
      assert Step(b, ops[0]) == (b, []);
      assert Run(b, ops).1 == [] && Run(b, ops).0 == b;
    }
  }

  /** After dropping an owner, no earlier registration is reachable. */
  lemma DropSilencesAllCallbacks(b: Bridge, ops: seq<Op>)
    requires OnlyEvents(ops)
    ensures Run(Uninstall(b), ops).1 == []
  {
    NothingReachedWhenUninstalled(Uninstall(b), ops);
  }

  /** Dropping twice leaves the same state as dropping once. */
  lemma UninstallIdempotent(b: Bridge)
    ensures Uninstall(Uninstall(b)) == Uninstall(b)
  {
  }

  /** Dropping any owner clears the slot, also one filled by a later registration. */
  lemma DropClearsLaterRegistration(b: Bridge, a: Capability, c: Capability)
    ensures Uninstall(Install(Install(b, a), c)).slot == None
  {
  }

  /**
   * The global `CALLBACK_CONTEXT` slot together with FFmpeg's log state.
   * `calls` records every `LogCallback::log` call made through the bridge.
   */
  class CallbackContext {
    var slot: Option<Capability>
    const native: AvLog
    ghost var calls: seq<Invocation>

    /** The slot is empty at process start, while FFmpeg's own output is installed. */
    constructor (native: AvLog)
      requires native.callback == FfmpegDefault
      ensures this.native == native && slot == None && calls == []
      ensures Consistent(State())
    {
      this.native := native;
      slot := None;
      calls := [];
    }

    function State(): Bridge
      reads this, native
    {
      Bridge(slot, native.callback)
    }

    /** `context_callback`: forwards the event to the slot's callback, if any. */
    method ContextCallback(ev: RawEvent)
      modifies this`calls
      ensures calls == old(calls) + Dispatch(slot, ev)
    {
      var args := CallWith(ev);
      match slot
      case Some(cb) =>
        calls := calls + [Invocation(cb, args)];
      case None =>
    }

    /** `set_context`: fills the slot, then installs the dispatcher. */
    method SetContext(cb: Capability)
      modifies this`slot, native`callback
      ensures State() == Install(old(State()), cb)
      ensures Consistent(State())
    {
      slot := Some(cb);
      native.SetRawCallback(ContextDispatcher);
    }

    /** `clear_context`: empties the slot, then installs FFmpeg's own output. */
    method ClearContext()
      modifies this`slot, native`callback
      ensures State() == Uninstall(old(State()))
      ensures Consistent(State())
    {
      slot := None;
      native.SetDefaultCallback();
    }

    /** `set_callback`: registers `cb` and returns the handle that unregisters it. */
    method SetCallback(cb: Capability) returns (owner: CallbackOwner)
      modifies this`slot, native`callback
      ensures State() == Install(old(State()), cb)
      ensures Consistent(State())
    {
      SetContext(cb);
      owner := CallbackOwner;
    }

    /** `CallbackOwner::drop`: clears the slot, whoever filled it. */
    method DropOwner(owner: CallbackOwner)
      modifies this`slot, native`callback
      ensures State() == Uninstall(old(State()))
      ensures slot == None && native.callback == FfmpegDefault
    {
      ClearContext();
    }
  }
}
