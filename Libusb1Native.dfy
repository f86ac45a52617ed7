/**
 * The native libusb binding, reduced to the state the services provider
 * touches: a process-wide trace flag, the devices the native layer
 * currently reports, and per handle an open bit and a debug level. The
 * ghost `calls` log records, in order, every native call the provider
 * issues, so that the number and order of those calls can be stated.
 */
module Libusb1Native {
  import opened Wrappers

  /** An attached device as the native layer hands it out; only its identity matters here. */
  datatype DeviceRef = DeviceRef(id: nat)

  /** A native call issued by the provider. */
  datatype NativeCall = Create | SetTraceCalls(on: bool) | SetDebug(level: int) | Close

  datatype CallKind = CreateKind | TraceKind | DebugKind | CloseKind

  function KindOf(c: NativeCall): CallKind {
    match c
    case Create => CreateKind
    case SetTraceCalls(_) => TraceKind
    case SetDebug(_) => DebugKind
    case Close => CloseKind
  }

  /** How many calls of kind `k` the log `cs` holds. */
  function CountKind(cs: seq<NativeCall>, k: CallKind): nat {
    if cs == [] then 0
    else (if KindOf(cs[0]) == k then 1 else 0) + CountKind(cs[1..], k)
  }

  lemma CountKindSingle(c: NativeCall, k: CallKind)
    ensures CountKind([c], k) == if KindOf(c) == k then 1 else 0
  {
  }

  lemma {:induction false} CountKindAppend(a: seq<NativeCall>, b: seq<NativeCall>, k: CallKind)
    ensures CountKind(a + b, k) == CountKind(a, k) + CountKind(b, k)
  {
    if a == [] {
      assert a + b == b;
    } else {
      assert (a + b)[1..] == a[1..] + b;
      CountKindAppend(a[1..], b, k);
    }
  }

  /** The process-wide part of libusb: what every handle shares. */
  class NativeLayer {
    /** The global flag `libusb1.set_trace_calls` sets; the last call wins for every handle. */
    var traceCalls: bool
    /** The devices the native layer reports right now; the hardware changes this, not the provider. */
    var attached: seq<DeviceRef>
    ghost var calls: seq<NativeCall>

    /** `libusb1.set_trace_calls(on)`, a static method: it sets the one global flag. */
    method SetTraceCalls(on: bool)
      modifies this`traceCalls, this`calls
      ensures traceCalls == on
      ensures calls == old(calls) + [NativeCall.SetTraceCalls(on)]
    {
      traceCalls := on;
      calls := calls + [NativeCall.SetTraceCalls(on)];
    }
  }

  /** One `libusb1` instance, the native handle a services provider owns. */
  class Libusb1 {
    const native: NativeLayer
    var open: bool
    /** The level `set_debug` gave this handle; `None` is the native default. */
    var debugLevel: Option<int>

    /** `libusb1.create()`: a new, open handle at the default debug level. */
    constructor Create(native: NativeLayer)
      modifies native`calls
      ensures this.native == native && open && debugLevel == None
      ensures native.calls == old(native.calls) + [NativeCall.Create]
    {
      this.native := native;
      open := true;
      debugLevel := None;
      new;
      native.calls := native.calls + [NativeCall.Create];
    }

    /** `set_debug(level)`: changes this handle only. */
    method SetDebug(level: int)
      requires open
      modifies this`debugLevel, native`calls
      ensures debugLevel == Some(level)
      ensures native.calls == old(native.calls) + [NativeCall.SetDebug(level)]
    {
      debugLevel := Some(level);
      native.calls := native.calls + [NativeCall.SetDebug(level)];
    }

    /** `get_devices()`: the devices attached at the moment of the call, in the native layer's order. */
    method GetDevices() returns (devices: seq<DeviceRef>)
      requires open
      ensures devices == native.attached
    {
      devices := native.attached;
    }

    /** `close()`: releases the handle. */
    method Close()
      requires open
      modifies this`open, native`calls
      ensures !open
      ensures native.calls == old(native.calls) + [NativeCall.Close]
    {
      open := false;
      native.calls := native.calls + [NativeCall.Close];
    }
  }
}
