/**
 * The javax.usb services provider backed by libusb: its construction
 * (create the native handle, then resolve and apply the configuration),
 * its identity strings, the virtual root hub it hands out on request, and
 * the release of the native handle, made explicit as `Close`.
 */
module Libusb1Services {
  import opened Wrappers
  import opened JavaLang
  import opened Configuration
  import opened Libusb1Native

  newtype uint8 = x: int | 0 <= x < 0x100
  newtype uint16 = x: int | 0 <= x < 0x1_0000

  /** The standard USB device descriptor (section 9.6.1 of the USB 2.0 specification). */
  datatype UsbDeviceDescriptor = UsbDeviceDescriptor(
    bcdUSB: uint16,
    bDeviceClass: uint8,
    bDeviceSubClass: uint8,
    bDeviceProtocol: uint8,
    bMaxPacketSize0: uint8,
    idVendor: uint16,
    idProduct: uint16,
    bcdDevice: uint16,
    iManufacturer: uint8,
    iProduct: uint8,
    iSerialNumber: uint8,
    bNumConfigurations: uint8)

  /** The USB class code of a hub (base class 09h). */
  const HubClassCode: uint8 := 0x09

  /**
   * The hand-written descriptor of the virtual root hub: USB 2.0, hub class,
   * subclass 0, protocol 2, control packets of 8 bytes, the "experimental"
   * vendor id 0x6666, product 0, release 1.0, no strings, one configuration.
   * It is a constant and never read from hardware.
   */
  const RootDescriptor: UsbDeviceDescriptor :=
    UsbDeviceDescriptor(0x0200, HubClassCode, 0, 2, 8, 0x6666, 0, 0x0100, 0, 0, 0, 1)

  /** The root descriptor declares a USB 2.0 hub of the experimental vendor with a single configuration. */
  lemma RootDescriptorIsSyntheticHub()
    ensures RootDescriptor.bcdUSB == 0x0200 && RootDescriptor.bcdDevice == 0x0100
    ensures RootDescriptor.bDeviceClass == HubClassCode == 0x09
    ensures RootDescriptor.bDeviceSubClass == 0 && RootDescriptor.bDeviceProtocol == 2
    ensures RootDescriptor.bMaxPacketSize0 == 8
    ensures RootDescriptor.idVendor == 0x6666 && RootDescriptor.idProduct == 0
    ensures RootDescriptor.iManufacturer == 0 && RootDescriptor.iProduct == 0 && RootDescriptor.iSerialNumber == 0
    ensures RootDescriptor.bNumConfigurations == 1
  {
  }

  const RootHubName: string := "Virtual Root"
  const ApiVersion: string := "1.0.1"
  const ImplDescription: string := "Usb for Java"
  const ImplVersion: string := "1.0-SNAPSHOT"

  /** A port of a hub, the place a device is plugged into. */
  datatype PortRef = PortRef(hub: DeviceRef, number: nat)

  /**
   * The virtual root hub: every device the native layer reported is
   * attached to it directly. All of its fields are constants, so the
   * device list a hub holds is the one it was built with.
   */
  class RootUsbHub {
    const name: string
    const parent: Option<DeviceRef>
    const port: Option<PortRef>
    const descriptor: UsbDeviceDescriptor
    const usbDevices: seq<DeviceRef>

    constructor (usbDevices: seq<DeviceRef>)
      ensures name == RootHubName && parent == None && port == None
      ensures descriptor == RootDescriptor
      ensures this.usbDevices == usbDevices
    {
      name := RootHubName;
      parent := None;
      port := None;
      descriptor := RootDescriptor;
      this.usbDevices := usbDevices;
    }

    /** The devices attached to the hub: the list it was built with, which no later request changes. */
    function GetAttachedUsbDevices(): (devices: seq<DeviceRef>)
      ensures devices == usbDevices
    {
      usbDevices
    }

    /** A device is a hub when its descriptor carries the hub class code. */
    predicate IsUsbHub() {
      descriptor.bDeviceClass == HubClassCode
    }

    predicate IsRoot() {
      parent == None
    }
  }

  /** `Ready` until the native handle is released, `Released` after. */
  datatype Lifecycle = Ready | Released

  /** The services provider: it owns one native handle. */
  class UsbServices {
    const libusb: Libusb1
    var state: Lifecycle

    /** The provider is ready exactly while its native handle is open. */
    ghost predicate Valid()
      reads this, libusb
    {
      state == Ready <==> libusb.open
    }

    constructor (libusb: Libusb1)
      requires libusb.open
      ensures this.libusb == libusb && state == Ready && Valid()
    {
      this.libusb := libusb;
      state := Ready;
    }

    function GetApiVersion(): string {
      ApiVersion
    }

    function GetImplDescription(): string {
      ImplDescription
    }

    function GetImplVersion(): string {
      ImplVersion
    }

    /**
     * A new root hub on every call, holding the devices attached at the
     * moment of the call in the native layer's order, under the constant
     * root descriptor.
     */
    method GetRootUsbHub() returns (hub: RootUsbHub)
      requires Valid() && state == Ready
      ensures fresh(hub)
      ensures hub.GetAttachedUsbDevices() == libusb.native.attached
      ensures hub.descriptor == RootDescriptor && hub.IsUsbHub()
      ensures hub.IsRoot() && hub.port == None && hub.name == RootHubName
    {
      var devices := libusb.GetDevices();
      hub := new RootUsbHub(devices);
    }

    /**
     * Releases the native handle, what the provider's finalizer does. The
     * JVM finalizes an object at most once, so a second `Close` issues no
     * native call.
     */
    method Close()
      requires Valid()
      modifies this`state, libusb`open, libusb.native`calls
      ensures Valid() && state == Released
      ensures libusb.native.calls ==
        old(libusb.native.calls) + (if old(state) == Ready then [NativeCall.Close] else [])
    {
      if state == Ready {
        libusb.Close();
        state := Released;
      }
    }
  }

  /** The native calls a successful construction issues after `create`, in order. */
  function AppliedCalls(st: Settings): seq<NativeCall> {
    [NativeCall.SetTraceCalls(st.trace)] +
    (if st.debugLevel.Some? then [NativeCall.SetDebug(st.debugLevel.value)] else [])
  }

  /** The native calls construction issues: `create` always, then the settings if they resolve. */
  function ConstructionCalls(file: ConfigFile, sys: Properties): seq<NativeCall> {
    [NativeCall.Create] +
    (match Resolve(file, sys)
     case Err(_) => []
     case Ok(st) => AppliedCalls(st))
  }

  /**
   * The try block of the constructor: the file's trace flag and debug
   * level, or the exception reading it throws. A failure to close the
   * stream afterwards is ignored.
   */
  method ReadFile(file: ConfigFile) returns (r: Result<Settings, ConstructionError>)
    ensures r == FileSettings(file)
  {
    var trace := false;
    var debugLevel: Option<int> := None;
    match file {
      case Missing =>
      case Present(load, _) =>
        match load {
          case LoadFailed =>
            return Err(UsbException(ReadErrorMessage));
          case Loaded(props) =>
            trace := ParseBoolean(Some(GetPropertyOr(props, TraceProperty, "false")));
            var s := GetProperty(props, DebugProperty);
            if s.Some? {
              var n := ParseInt(s.value);
              if n.None? {
                return Err(NumberFormatException(s.value));
              }
              debugLevel := n;
            }
        }
    }
    r := Ok(Settings(trace, debugLevel));
  }

  /**
   * The constructor of the provider. The handle is created first; the file
   * is then read (its stream closed whatever happens), the system
   * properties applied on top, the trace flag set globally, and the debug
   * level set on the handle only when there is one. On a failure the
   * handle has been created and nothing has been applied.
   */
  method Open(native: NativeLayer, file: ConfigFile, sys: Properties) returns (r: Result<UsbServices, ConstructionError>)
    modifies native`traceCalls, native`calls
    ensures native.calls == old(native.calls) + ConstructionCalls(file, sys)
    ensures r.Ok? <==> Resolve(file, sys).Ok?
    ensures r.Err? ==> r.error == Resolve(file, sys).error && native.traceCalls == old(native.traceCalls)
    ensures r.Ok? ==>
      fresh(r.value) && fresh(r.value.libusb) && r.value.libusb.native == native &&
      r.value.Valid() && r.value.state == Ready &&
      native.traceCalls == Resolve(file, sys).value.trace &&
      r.value.libusb.debugLevel == Resolve(file, sys).value.debugLevel
  {
    var libusb := new Libusb1.Create(native);

    var fromFile := ReadFile(file);
    if fromFile.Err? {
      return Err(fromFile.error);
    }
    var trace := fromFile.value.trace;
    var debugLevel := fromFile.value.debugLevel;

    trace := GetBoolean(sys, TraceProperty) || trace;
    native.SetTraceCalls(trace);

    debugLevel := GetInteger(sys, DebugProperty, debugLevel);
    assert Resolve(file, sys) == Ok(Settings(trace, debugLevel));

    if debugLevel.Some? {
      libusb.SetDebug(debugLevel.value);
    }

    var services := new UsbServices(libusb);
    r := Ok(services);
  }

  /**
   * Construction creates exactly one handle, first, and releases none. It
   * calls `set_trace_calls` exactly once, with the resolved flag, when the
   * configuration resolves and never when it does not; it calls
   * `set_debug` exactly once, with the resolved level and after the trace
   * call, when there is a level, and never otherwise.
   */
  lemma ConstructionCallCounts(file: ConfigFile, sys: Properties)
    ensures ConstructionCalls(file, sys)[0] == NativeCall.Create
    ensures CountKind(ConstructionCalls(file, sys), CreateKind) == 1
    ensures CountKind(ConstructionCalls(file, sys), CloseKind) == 0
    ensures CountKind(ConstructionCalls(file, sys), TraceKind) == if Resolve(file, sys).Ok? then 1 else 0
    ensures Resolve(file, sys).Ok? ==>
      ConstructionCalls(file, sys)[1] == NativeCall.SetTraceCalls(Resolve(file, sys).value.trace)
    ensures CountKind(ConstructionCalls(file, sys), DebugKind) ==
      if Resolve(file, sys).Ok? && Resolve(file, sys).value.debugLevel.Some? then 1 else 0
    ensures Resolve(file, sys).Ok? && Resolve(file, sys).value.debugLevel.Some? ==>
      ConstructionCalls(file, sys)[2] == NativeCall.SetDebug(Resolve(file, sys).value.debugLevel.value)
  {
    ConstructionCallCount(file, sys, CreateKind);
    ConstructionCallCount(file, sys, TraceKind);
    ConstructionCallCount(file, sys, DebugKind);
    ConstructionCallCount(file, sys, CloseKind);
  }

  /** How many calls of one kind construction issues. */
  lemma ConstructionCallCount(file: ConfigFile, sys: Properties, k: CallKind)
    ensures CountKind(ConstructionCalls(file, sys), k) ==
      (if k == CreateKind then 1 else 0) +
      (if Resolve(file, sys).Ok? && k == TraceKind then 1 else 0) +
      (if Resolve(file, sys).Ok? && Resolve(file, sys).value.debugLevel.Some? && k == DebugKind then 1 else 0)
  {
    var tail := match Resolve(file, sys) case Err(_) => [] case Ok(st) => AppliedCalls(st);
    assert ConstructionCalls(file, sys) == [NativeCall.Create] + tail;
    CountKindAppend([NativeCall.Create], tail, k);
    CountKindSingle(NativeCall.Create, k);
    if Resolve(file, sys).Ok? {
      var st := Resolve(file, sys).value;
      var debug := if st.debugLevel.Some? then [NativeCall.SetDebug(st.debugLevel.value)] else [];
      assert tail == [NativeCall.SetTraceCalls(st.trace)] + debug;
      CountKindAppend([NativeCall.SetTraceCalls(st.trace)], debug, k);
      CountKindSingle(NativeCall.SetTraceCalls(st.trace), k);
      if st.debugLevel.Some? {
        CountKindSingle(NativeCall.SetDebug(st.debugLevel.value), k);
      }
    }
  }

  /** With no file and no system properties, tracing is switched off and `set_debug` is never called. */
  lemma NoConfigurationCalls()
    ensures ConstructionCalls(Missing, map[]) == [NativeCall.Create, NativeCall.SetTraceCalls(false)]
  {
  }

  /** The identity strings are constants. */
  lemma IdentityStrings(services: UsbServices)
    ensures services.GetApiVersion() == "1.0.1"
    ensures services.GetImplDescription() == "Usb for Java"
    ensures services.GetImplVersion() == "1.0-SNAPSHOT"
  {
  }

  /** Two requests in a row give two distinct hubs holding equal device lists. */
  method TwoRootHubs(services: UsbServices) returns (first: RootUsbHub, second: RootUsbHub)
    requires services.Valid() && services.state == Ready
    ensures first != second
    ensures first.GetAttachedUsbDevices() == second.GetAttachedUsbDevices() == services.libusb.native.attached
  {
    first := services.GetRootUsbHub();
    second := services.GetRootUsbHub();
  }

  /**
   * A hub keeps the devices it was built with: after the hardware changes,
   * the earlier hub still lists the old devices and only a new request
   * sees the new ones.
   */
  method SnapshotSurvivesReplug(services: UsbServices, attachedLater: seq<DeviceRef>)
    returns (before: RootUsbHub, after: RootUsbHub)
    requires services.Valid() && services.state == Ready
    modifies services.libusb.native`attached
    ensures before.GetAttachedUsbDevices() == old(services.libusb.native.attached)
    ensures after.GetAttachedUsbDevices() == attachedLater
  {
    before := services.GetRootUsbHub();
    services.libusb.native.attached := attachedLater;
    after := services.GetRootUsbHub();
  }

  /**
   * The trace flag is process-wide: of two providers built one after the
   * other, the second one's trace setting is the one in force, while each
   * keeps the debug level set on its own handle.
   */
  method TwoProviders(native: NativeLayer, file1: ConfigFile, sys1: Properties, file2: ConfigFile, sys2: Properties)
    returns (r1: Result<UsbServices, ConstructionError>, r2: Result<UsbServices, ConstructionError>)
    modifies native`traceCalls, native`calls
    ensures r1.Ok? <==> Resolve(file1, sys1).Ok?
    ensures r2.Ok? <==> Resolve(file2, sys2).Ok?
    ensures r2.Ok? ==> native.traceCalls == Resolve(file2, sys2).value.trace
    ensures r1.Ok? && r2.Err? ==> native.traceCalls == Resolve(file1, sys1).value.trace
    ensures r1.Ok? ==> r1.value.libusb.debugLevel == Resolve(file1, sys1).value.debugLevel
    ensures r2.Ok? ==> r2.value.libusb.debugLevel == Resolve(file2, sys2).value.debugLevel
  {
    r1 := Open(native, file1, sys1);
    r2 := Open(native, file2, sys2);
  }
}
