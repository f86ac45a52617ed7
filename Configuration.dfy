/**
 * How the services provider's constructor turns its two configuration
 * sources, the javax.usb properties file and the JVM system properties,
 * into the trace flag and the optional debug level it hands to libusb.
 * The file is taken as already located and loaded: its key-value pairs,
 * or the IOException that loading it threw.
 */
module Configuration {
  import opened Wrappers
  import opened JavaLang

  /** Key of the trace flag, in the file and among the system properties. */
  const TraceProperty: string := "javax.usb.libusb.trace"
  /** Key of the debug level, in the file and among the system properties. */
  const DebugProperty: string := "javax.usb.libusb.debug"
  /** Message of the UsbException thrown when the file cannot be read. */
  const ReadErrorMessage: string := "Error while reading configuration file."

  type Properties = map<string, string>

  /** Result of `Properties.load` on the file's stream. */
  datatype LoadOutcome = Loaded(props: Properties) | LoadFailed

  /**
   * The configuration file: missing (the class loader gave no stream) or
   * present, in which case it is loaded and its stream is closed; a
   * failure to close is recorded in `closeFails`.
   */
  datatype ConfigFile = Missing | Present(load: LoadOutcome, closeFails: bool)

  /** The settings the constructor applies to libusb. `None` leaves libusb's default debug level. */
  datatype Settings = Settings(trace: bool, debugLevel: Option<int>)

  /** The two exceptions that can escape the constructor while it reads the configuration. */
  datatype ConstructionError =
    | UsbException(message: string)        // the file's stream could not be read
    | NumberFormatException(input: string) // the file's debug level is not a decimal int

  /** `props.getProperty(key)`. */
  function GetProperty(props: Properties, key: string): Option<string> {
    if key in props then Some(props[key]) else None
  }

  /** `props.getProperty(key, default)`. */
  function GetPropertyOr(props: Properties, key: string, default: string): string {
    if key in props then props[key] else default
  }

  /**
   * `Boolean.getBoolean(name)`: true exactly when the system property is
   * set and spells "true" in some mix of cases; an absent property is false.
   */
  function GetBoolean(sys: Properties, name: string): (r: bool)
    ensures r <==> name in sys && IsTrueIgnoringCase(sys[name])
  {
    ParseBoolean(GetProperty(sys, name))
  }

  /**
   * `Integer.getInteger(name, default)`: the value of the system property
   * when it is set and is decodable text of an `int`; otherwise `default`,
   * without an exception.
   */
  function GetInteger(sys: Properties, name: string, default: Option<int>): (r: Option<int>)
    ensures name in sys && IsDecodableText(sys[name]) && InIntRange(DecodableTextValue(sys[name])) ==>
      r == Some(DecodableTextValue(sys[name]))
    ensures !(name in sys && IsDecodableText(sys[name]) && InIntRange(DecodableTextValue(sys[name]))) ==>
      r == default
  {
    match GetProperty(sys, name)
    case None => default
    case Some(v) => if Decode(v).Some? then Decode(v) else default
  }

  /**
   * The two outcomes of `getInteger`: a set property that `decode` accepts
   * gives its value whatever the default; an absent property, or one that
   * `decode` refuses, gives the default.
   */
  lemma GetIntegerCases(sys: Properties, name: string, d1: Option<int>, d2: Option<int>)
    ensures name in sys && Decode(sys[name]).Some? ==>
      GetInteger(sys, name, d1) == Decode(sys[name]) && GetInteger(sys, name, d2) == Decode(sys[name])
    ensures name !in sys || Decode(sys[name]).None? ==> GetInteger(sys, name, d1) == d1
  {
  }

  /** The value the file gives `key`: none when the file is missing, unreadable or lacks the key. */
  function FileValue(file: ConfigFile, key: string): Option<string> {
    if file.Present? && file.load.Loaded? then GetProperty(file.load.props, key) else None
  }

  /** What the file alone yields, the try block of the constructor. */
  function FileSettings(file: ConfigFile): Result<Settings, ConstructionError> {
    match file
    case Missing => Ok(Settings(false, None))
    case Present(LoadFailed, _) => Err(UsbException(ReadErrorMessage))
    case Present(Loaded(props), _) =>
      var trace := ParseBoolean(Some(GetPropertyOr(props, TraceProperty, "false")));
      match GetProperty(props, DebugProperty)
      case None => Ok(Settings(trace, None))
      case Some(s) =>
        match ParseInt(s)
        case None => Err(NumberFormatException(s))
        case Some(n) => Ok(Settings(trace, Some(n)))
  }

  /**
   * The settings the constructor applies, or the exception it throws.
   * Trace is on when either source says "true" in any case; the debug
   * level is the system property's when that decodes, else the file's.
   * Construction fails only because of the file: it cannot be read, or
   * its debug level is not a decimal int.
   */
  function Resolve(file: ConfigFile, sys: Properties): (r: Result<Settings, ConstructionError>)
    ensures r.Err? <==>
      (file.Present? && file.load.LoadFailed?) ||
      (FileValue(file, DebugProperty).Some? && ParseInt(FileValue(file, DebugProperty).value).None?)
    ensures r.Err? && file.Present? && file.load.LoadFailed? ==> r.error == UsbException(ReadErrorMessage)
    ensures r.Err? && !(file.Present? && file.load.LoadFailed?) ==>
      r.error == NumberFormatException(FileValue(file, DebugProperty).value)
    ensures r.Ok? ==>
      (r.value.trace <==> ParseBoolean(FileValue(file, TraceProperty)) || GetBoolean(sys, TraceProperty))
    ensures r.Ok? && GetInteger(sys, DebugProperty, None).Some? ==> r.value.debugLevel == GetInteger(sys, DebugProperty, None)
    ensures r.Ok? && GetInteger(sys, DebugProperty, None).None? ==>
      r.value.debugLevel == (if FileValue(file, DebugProperty).Some? then ParseInt(FileValue(file, DebugProperty).value) else None)
    ensures r.Ok? && r.value.debugLevel.Some? ==> InIntRange(r.value.debugLevel.value)
  {
    match FileSettings(file)
    case Err(e) => Err(e)
    case Ok(fromFile) =>
      Ok(Settings(GetBoolean(sys, TraceProperty) || fromFile.trace,
                  GetInteger(sys, DebugProperty, fromFile.debugLevel)))
  }

  /** Neither source present: tracing off and libusb's debug level left alone. */
  lemma NoConfiguration()
    ensures Resolve(Missing, map[]) == Ok(Settings(false, None))
  {
  }

  /** The OR rule: once the file turns tracing on, no system property value can turn it off. */
  lemma FileTraceCannotBeOverridden(file: ConfigFile, sys: Properties)
    requires ParseBoolean(FileValue(file, TraceProperty))
    requires Resolve(file, sys).Ok?
    ensures Resolve(file, sys).value.trace
  {
  }

  /** The system properties never make construction fail, whatever their values. */
  lemma SystemPropertiesNeverFail(file: ConfigFile, sys1: Properties, sys2: Properties)
    ensures Resolve(file, sys1).Ok? <==> Resolve(file, sys2).Ok?
    ensures Resolve(file, sys1).Err? ==> Resolve(file, sys1) == Resolve(file, sys2)
  {
  }

  /** An undecodable debug system property is ignored silently: the result is as if it were absent. */
  lemma UndecodableOverrideIgnored(file: ConfigFile, sys: Properties, v: string)
    requires Decode(v).None?
    ensures Resolve(file, sys[DebugProperty := v]) == Resolve(file, sys - {DebugProperty})
  {
  }

  /** A failure to close the file's stream changes nothing. */
  lemma CloseFailureIgnored(load: LoadOutcome, sys: Properties)
    ensures Resolve(Present(load, true), sys) == Resolve(Present(load, false), sys)
  {
  }

  /**
   * The two sources read the same debug text differently: "010" in the file
   * gives level 10, in the system property level 8; "0x10" in the file
   * aborts construction, in the system property it gives level 16.
   */
  lemma DebugTextReadDifferently(sys: Properties)
    requires DebugProperty !in sys
    ensures LevelFrom(Present(Loaded(map[DebugProperty := "010"]), false), sys) == Some(10)
    ensures LevelFrom(Missing, sys[DebugProperty := "010"]) == Some(8)
    ensures Resolve(Present(Loaded(map[DebugProperty := "0x10"]), false), sys) == Err(NumberFormatException("0x10"))
    ensures LevelFrom(Missing, sys[DebugProperty := "0x10"]) == Some(16)
  {
    DecodeDiffersFromParseInt();
  }

  /** The debug level construction applies, `None` also when it fails. */
  function LevelFrom(file: ConfigFile, sys: Properties): Option<int> {
    match Resolve(file, sys)
    case Ok(st) => st.debugLevel
    case Err(_) => None
  }

  /** A level written by Integer.toString reads back the same from either source. */
  lemma WrittenLevelReadsBack(n: int, sys: Properties)
    requires InIntRange(n)
    requires DebugProperty !in sys
    ensures Resolve(Present(Loaded(map[DebugProperty := ToDecimal(n)]), false), sys).Ok?
    ensures LevelFrom(Present(Loaded(map[DebugProperty := ToDecimal(n)]), false), sys) == Some(n)
    ensures Resolve(Missing, sys[DebugProperty := ToDecimal(n)]).Ok?
    ensures LevelFrom(Missing, sys[DebugProperty := ToDecimal(n)]) == Some(n)
  {
    ParseIntRoundTrip(n);
    DecodeRoundTrip(n);
  }
}
