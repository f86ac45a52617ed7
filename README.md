# Libusb1UsbServices: configuration, lifecycle and root hub of the javax.usb provider for libusb

This project models the javax.usb services provider `Libusb1UsbServices`, the
class that bridges the javax.usb API to the native libusb binding. It covers
the following parts:

- **Construction.** The native `libusb1` handle is created first. Then the
  trace flag and the debug level are resolved from two sources: the
  javax.usb properties file and the JVM system properties. The trace flag
  is applied process-wide with `set_trace_calls`. The debug level is applied
  to the handle with `set_debug`, and only when there is one.
- **Parsing rules.** The Java library routines that decide what the
  configuration text means: `Boolean.parseBoolean` and `Boolean.getBoolean`,
  `Integer.parseInt`, and `Integer.decode` through `Integer.getInteger`.
- **Identity strings.** The three fixed strings the provider reports.
- **Root hub.** A new virtual root hub on every request. It holds the device
  list the native layer reports at that moment and carries a constant
  synthetic hub descriptor.
- **Release.** The native handle is released by the finalizer. Here that is
  an explicit `Close`.

Modules:

- `Wrappers`: `Option` (Java's `null`) and `Result` (a thrown exception).
- `JavaLang`: the JDK parsing semantics, checked against `Integer.toString`
  (`ToDecimal`) as a reference.
- `Configuration`: the pure `Resolve` function and the lemmas about how the
  two sources combine.
- `Libusb1Native`: the abstract native layer. `NativeLayer` holds the global
  trace flag, the attached devices and a ghost log of native calls.
  `Libusb1` is one native handle with an open bit and a debug level.
- `Libusb1Services`: the descriptor constant, the `RootUsbHub` class (all
  fields constant), the `UsbServices` class, and `Open`, the constructor as
  an imperative method, with its try block as `ReadFile`. `Open` is proved against `Resolve` and against
  `ConstructionCalls`, the sequence of native calls it must issue.

### Behaviour of the code worth knowing

- An undecodable debug level among the system properties does not fail
  construction. `Integer.getInteger` falls back silently to the file's
  value (`UndecodableOverrideIgnored`).
- An unparsable debug level in the file makes construction fail.
  `Integer.parseInt` throws a `NumberFormatException` and nothing catches it
  (`Resolve`, `DebugTextReadDifferently`).
- The two sources parse the debug level differently. The file is read
  with `parseInt`, which only takes decimal. The system property is read
  with `decode`, which also takes hexadecimal and octal. So "010" means 10
  in the file and 8 as a system property, and "0x10" makes construction
  fail from the file but means 16 as a system property
  (`DebugTextReadDifferently`).
- Any Java `int` is passed on as the debug level, negative values included.
- A failed construction has already created the native handle
  (`ConstructionCallCounts`). The constructor does not release it.
- `GetRootUsbHub` requires the provider to be `Ready`. The handle is
  released only by the finalizer, which runs once no caller can reach the
  provider any more, so no call can follow it.

## Model

| member | source | states |
|---|---|---|
| `JavaLang.ParseBoolean` | javalibusb1/src/main/java/javalibusb1/Libusb1UsbServices.java:51 | `parseBoolean` is true exactly for a non-null string equal to "true" when case is ignored; `null` gives false |
| `JavaLang.EqualsTrueIgnoringCase` | javalibusb1/src/main/java/javalibusb1/Libusb1UsbServices.java:51 | `equalsIgnoreCase(s, "true")` holds iff each of the four characters is the upper- or lower-case letter of "true" |
| `JavaLang.RegionMatchesPointwise` | javalibusb1/src/main/java/javalibusb1/Libusb1UsbServices.java:51 | the case-insensitive region scan succeeds iff every pair of characters at the same index matches ignoring case |
| `JavaLang.Magnitude` | javalibusb1/src/main/java/javalibusb1/Libusb1UsbServices.java:55 | a run of digits is accepted iff it is non-empty and every character is a digit of the radix, and then its value is the most-significant-first positional value `DigitsValue` |
| `JavaLang.ParseInt` | javalibusb1/src/main/java/javalibusb1/Libusb1UsbServices.java:55 | `parseInt` accepts exactly an optional sign followed by decimal digits whose signed value fits in an `int`, and returns that value; overflowing text is refused |
| `JavaLang.ParseIntNonCanonical` | javalibusb1/src/main/java/javalibusb1/Libusb1UsbServices.java:55 | `parseInt` accepts a '+' sign and leading zeros: "+7" and "007" are 7, "-007" is -7 |
| `JavaLang.ParseIntRefusesOverflow` | javalibusb1/src/main/java/javalibusb1/Libusb1UsbServices.java:55 | the decimal text of any value outside the `int` range is refused, not wrapped around |
| `JavaLang.Decode` | javalibusb1/src/main/java/javalibusb1/Libusb1UsbServices.java:73 | `Integer.decode` (used by `getInteger`) accepts exactly an optional sign followed by "0x", "0X" or "#" and hexadecimal digits, by "0" and octal digits, or by decimal digits without a leading zero (or a lone "0"), whose signed value fits in an `int`; it then returns that value, and refuses everything else (a sign after the prefix, no digits, overflow) |
| `JavaLang.DecodeHex` | javalibusb1/src/main/java/javalibusb1/Libusb1UsbServices.java:73 | after an optional sign, "0x", "0X" or "#" followed by hex digits gives their signed hexadecimal value when it fits in an `int`, else nothing |
| `JavaLang.DecodeOctal` | javalibusb1/src/main/java/javalibusb1/Libusb1UsbServices.java:73 | after an optional sign, a '0' followed by octal digits gives their signed octal value when it fits, else nothing |
| `JavaLang.DecodeDecimal` | javalibusb1/src/main/java/javalibusb1/Libusb1UsbServices.java:73 | after an optional sign, decimal digits without a leading zero (or a lone "0") give their signed decimal value when it fits, else nothing |
| `JavaLang.DecodeSignAfterPrefix` | javalibusb1/src/main/java/javalibusb1/Libusb1UsbServices.java:73 | a sign after the radix prefix is refused |
| `JavaLang.DecodeHexMin` | javalibusb1/src/main/java/javalibusb1/Libusb1UsbServices.java:73 | "-0x80000000" decodes to the least `int` |
| `JavaLang.DecodeHexOverflow` | javalibusb1/src/main/java/javalibusb1/Libusb1UsbServices.java:73 | "0x80000000" is refused |
| `JavaLang.DecodeHexMax` | javalibusb1/src/main/java/javalibusb1/Libusb1UsbServices.java:73 | "0x7fffffff" decodes to the largest `int` |
| `JavaLang.ParseIntRoundTrip` | javalibusb1/src/main/java/javalibusb1/Libusb1UsbServices.java:55 | `parseInt` reads back every `int` that `Integer.toString` writes |
| `JavaLang.DecodeRoundTrip` | javalibusb1/src/main/java/javalibusb1/Libusb1UsbServices.java:73 | `decode` reads back every `int` that `Integer.toString` writes, because that text has no leading zero or radix prefix |
| `JavaLang.DecimalLeadingZero` | javalibusb1/src/main/java/javalibusb1/Libusb1UsbServices.java:73 | decimal text of a natural number starts with '0' iff the number is zero, so `decode` never reads it as octal |
| `JavaLang.DecodeDiffersFromParseInt` | javalibusb1/src/main/java/javalibusb1/Libusb1UsbServices.java:53-73 | "010" is 10 to `parseInt` and 8 to `decode`; "0x10" is refused by `parseInt` and is 16 to `decode` |
| `Configuration.GetBoolean` | javalibusb1/src/main/java/javalibusb1/Libusb1UsbServices.java:70 | `Boolean.getBoolean` is true exactly when the system property is set and spells "true" ignoring case; an absent property gives false |
| `Configuration.GetInteger` | javalibusb1/src/main/java/javalibusb1/Libusb1UsbServices.java:73 | `Integer.getInteger` gives the value of a set system property that is decodable text of an `int`, and the default otherwise, without throwing |
| `Configuration.GetIntegerCases` | javalibusb1/src/main/java/javalibusb1/Libusb1UsbServices.java:73 | a set property that `decode` accepts gives the decoded value whatever the default; an absent property or one `decode` refuses gives the default |
| `Configuration.Resolve` | javalibusb1/src/main/java/javalibusb1/Libusb1UsbServices.java:40-73 | construction fails iff the file cannot be loaded (UsbException with the fixed message) or its debug value is not a decimal int (NumberFormatException with that text); otherwise trace is on iff the file or the system property says "true" ignoring case, and the debug level is the decodable system property, else the file's parsed value, else none, always an `int` |
| `Configuration.NoConfiguration` | javalibusb1/src/main/java/javalibusb1/Libusb1UsbServices.java:40-73 | with no file and no system properties the result is trace off and no debug level |
| `Configuration.FileTraceCannotBeOverridden` | javalibusb1/src/main/java/javalibusb1/Libusb1UsbServices.java:70 | a file that turns tracing on cannot be overridden by any system property value |
| `Configuration.SystemPropertiesNeverFail` | javalibusb1/src/main/java/javalibusb1/Libusb1UsbServices.java:70-73 | whether construction fails, and with which error, does not depend on the system properties |
| `Configuration.UndecodableOverrideIgnored` | javalibusb1/src/main/java/javalibusb1/Libusb1UsbServices.java:73 | an undecodable debug system property gives the same result as an absent one |
| `Configuration.CloseFailureIgnored` | javalibusb1/src/main/java/javalibusb1/Libusb1UsbServices.java:60-68 | a failure to close the file's stream does not change the result |
| `Configuration.DebugTextReadDifferently` | javalibusb1/src/main/java/javalibusb1/Libusb1UsbServices.java:53-73 | "010" gives level 10 from the file and 8 from the system property; "0x10" fails construction from the file and gives 16 from the system property |
| `Configuration.WrittenLevelReadsBack` | javalibusb1/src/main/java/javalibusb1/Libusb1UsbServices.java:53-73 | any `int` written in decimal is read back as that level from either source |
| `Libusb1Native.NativeLayer.SetTraceCalls` | javalibusb1/src/main/java/javalibusb1/Libusb1UsbServices.java:71 | `set_trace_calls` sets the one process-wide flag and is logged |
| `Libusb1Native.Libusb1.Create` | javalibusb1/src/main/java/javalibusb1/Libusb1UsbServices.java:38 | `create` yields an open handle at the native default debug level and is logged |
| `Libusb1Native.Libusb1.SetDebug` | javalibusb1/src/main/java/javalibusb1/Libusb1UsbServices.java:76 | `set_debug` changes this handle's level only and is logged |
| `Libusb1Native.Libusb1.GetDevices` | javalibusb1/src/main/java/javalibusb1/Libusb1UsbServices.java:99 | `get_devices` returns the devices attached at the moment of the call |
| `Libusb1Native.Libusb1.Close` | javalibusb1/src/main/java/javalibusb1/Libusb1UsbServices.java:82 | `close` leaves the handle released and is logged |
| `Libusb1Services.ReadFile` | javalibusb1/src/main/java/javalibusb1/Libusb1UsbServices.java:40-68 | the try block yields exactly `FileSettings`: no file gives trace off and no level; an unreadable file gives the UsbException; otherwise the file's trace flag and its `parseInt` debug level, or the NumberFormatException; a failed close is ignored |
| `Libusb1Services.Open` | javalibusb1/src/main/java/javalibusb1/Libusb1UsbServices.java:37-78 | the native calls issued are exactly `ConstructionCalls`; success iff `Resolve` succeeds, with the same error otherwise and the trace flag untouched; on success a fresh, ready provider owns a fresh handle whose debug level, and the global trace flag, are the resolved settings |
| `Libusb1Services.ConstructionCallCounts` | javalibusb1/src/main/java/javalibusb1/Libusb1UsbServices.java:38-77 | construction creates exactly one handle, first, and releases none; calls `set_trace_calls` once with the resolved flag iff configuration resolves; calls `set_debug` once, after it and with the resolved level, iff there is a level |
| `Libusb1Services.ConstructionCallCount` | javalibusb1/src/main/java/javalibusb1/Libusb1UsbServices.java:38-77 | the number of native calls of each kind during construction |
| `Libusb1Services.NoConfigurationCalls` | javalibusb1/src/main/java/javalibusb1/Libusb1UsbServices.java:40-77 | with no configuration the calls are `create` and `set_trace_calls(false)`, and never `set_debug` |
| `Libusb1Services.UsbServices.constructor` | javalibusb1/src/main/java/javalibusb1/Libusb1UsbServices.java:35-38 | the provider owns the handle it was given and is ready |
| `Libusb1Services.IdentityStrings` | javalibusb1/src/main/java/javalibusb1/Libusb1UsbServices.java:85-96 | the API version, description and implementation version are the constants "1.0.1", "Usb for Java" and "1.0-SNAPSHOT" |
| `Libusb1Services.RootDescriptorIsSyntheticHub` | javalibusb1/src/main/java/javalibusb1/Libusb1UsbServices.java:21-33 | the root descriptor is the fixed USB 2.0 hub descriptor: class 09h, subclass 0, protocol 2, max packet 8, vendor 0x6666, product 0, release 0x0100, no strings, one configuration |
| `Libusb1Services.UsbServices.GetRootUsbHub` | javalibusb1/src/main/java/javalibusb1/Libusb1UsbServices.java:98-102 | every call returns a fresh hub whose attached devices are the native list at call time, in order, under the constant root descriptor (hub class), with no parent and no port |
| `Libusb1Services.RootUsbHub.GetAttachedUsbDevices` | javalibusb1/src/main/java/javalibusb1/Libusb1UsbServices.java:113-115 | the attached devices are the list the hub was built with, held in a constant field |
| `Libusb1Services.RootUsbHub.constructor` | javalibusb1/src/main/java/javalibusb1/Libusb1UsbServices.java:104-111 | the hub is named "Virtual Root", has no parent or port, carries the root descriptor and keeps the device list it was given in a constant field |
| `Libusb1Services.UsbServices.Close` | javalibusb1/src/main/java/javalibusb1/Libusb1UsbServices.java:80-83 | releasing moves the provider to `Released` and closes the handle; the native `close` is issued only on the first release |
| `Libusb1Services.TwoRootHubs` | javalibusb1/src/main/java/javalibusb1/Libusb1UsbServices.java:98-102 | two requests in a row give distinct hubs with equal device lists |
| `Libusb1Services.SnapshotSurvivesReplug` | javalibusb1/src/main/java/javalibusb1/Libusb1UsbServices.java:98-115 | a hub keeps the devices it was built with after the hardware changes; only a new request sees the new list |
| `Libusb1Services.TwoProviders` | javalibusb1/src/main/java/javalibusb1/Libusb1UsbServices.java:71-76 | the trace flag is process-wide (the last provider built sets it), while each handle keeps its own debug level |

## Left out

- The native libusb binding (JNI) is reduced to the abstract state above. Failures inside `create`, `get_devices`, `set_debug` and `close` are not modelled, because the source gives them no error path.
- Finding the file through the class loader, and the text format `Properties.load` reads, are I/O and JDK internals. The file is a map of key-value pairs or a failed load. An `IllegalArgumentException` that `load` throws on a malformed `\u` escape is not modelled. It would escape construction uncaught.
- `JavaLang.ParseBoolean`, `JavaLang.ParseInt` and `JavaLang.Decode` treat characters as ASCII. The JDK also accepts non-ASCII digits (`Character.digit`) and has Unicode case mapping, which is not modelled.
- A `SecurityException` from reading a system property is not modelled. `Boolean.getBoolean` and `Integer.getInteger` would both let it escape.
- Finalization timing is not modelled. Release is the explicit `Libusb1Services.UsbServices.Close`, and the JVM's at-most-once finalization is modelled by making it idempotent. The finalizer of a provider whose constructor failed would also close its handle, and this is not modelled.
- Thread safety and concurrent providers are not modelled. Only the sharing of the global trace flag is shown, sequentially, in `TwoProviders`.
- `Libusb1Services.RootUsbHub.constructor`: the call `super("Virtual Root", null, null, descriptor)` at javalibusb1/src/main/java/javalibusb1/Libusb1UsbServices.java:108 is read as name, parent and port. The constructor of `AbstractRootUsbHub` is not part of this model, so that reading of its parameters is an assumption.
- Of the javax.usb superclasses `AbstractRootUsbHub` and `DefaultUsbDeviceDescriptor`, only the fields this class sets are kept. Devices are identities (`DeviceRef`).
