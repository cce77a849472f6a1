/** QRScanner/utility/CommonDefs.cs: the event types sent on registration,
    the opcode constants requests are built from, and the status catalog. */
module CommonDefs {
  import opened Wrappers
  import opened Text

  // ---------------------------------------------------------------- EventType

  /** The SDK's event classes. */
  datatype EventType = Barcode | Image | Video | Rmd | Pnp | Other
  {
    /** The integer the SDK knows the event class by. */
    function Value(): int
    {
      match this
      case Barcode => 1
      case Image => 2
      case Video => 4
      case Rmd => 8
      case Pnp => 16
      case Other => 32
    }
  }

  /** Every event class, in declaration order. */
  const AllEventTypes: seq<EventType> := [Barcode, Image, Video, Rmd, Pnp, Other]

  function Pow2(n: nat): (r: nat)
    ensures r >= 1
  {
    if n == 0 then 1 else 2 * Pow2(n - 1)
  }

  /** The i-th event class is the power of two 2^i, so the six values are
      distinct, and every event class is listed. */
  lemma EventTypesArePowersOfTwo()
    ensures |AllEventTypes| == 6
    ensures forall i :: 0 <= i < 6 ==> AllEventTypes[i].Value() == Pow2(i)
    ensures forall i, j :: 0 <= i < j < 6 ==> AllEventTypes[i].Value() < AllEventTypes[j].Value()
    ensures forall e: EventType :: e in AllEventTypes
  {
    assert Pow2(0) == 1 && Pow2(1) == 2 && Pow2(2) == 4 && Pow2(3) == 8;
    assert Pow2(4) == 16 && Pow2(5) == 32;
    forall e: EventType ensures e in AllEventTypes {
      match e
      case Barcode => assert AllEventTypes[0] == e;
      case Image => assert AllEventTypes[1] == e;
      case Video => assert AllEventTypes[2] == e;
      case Rmd => assert AllEventTypes[3] == e;
      case Pnp => assert AllEventTypes[4] == e;
      case Other => assert AllEventTypes[5] == e;
    }
  }

  // ---------------------------------------------------------------- OpcodesHandler

  // Scanner SDK commands
  const GET_VERSION: int := 1000
  const REGISTER_FOR_EVENTS: int := 1001
  const UNREGISTER_FOR_EVENTS: int := 1002
  // Scanner access control commands
  const CLAIM_DEVICE: int := 1500
  const RELEASE_DEVICE: int := 1501
  // Scanner common commands
  const ABORT_MACROPDF: int := 2000
  const ABORT_UPDATE_FIRMWARE: int := 2001
  const AIM_OFF: int := 2002
  const AIM_ON: int := 2003
  const FLUSH_MACROPDF: int := 2005
  const DEVICE_PULL_TRIGGER: int := 2011
  const DEVICE_RELEASE_TRIGGER: int := 2012
  const SCAN_DISABLE: int := 2013
  const SCAN_ENABLE: int := 2014
  const SET_PARAMETER_DEFAULTS: int := 2015
  const DEVICE_SET_PARAMETERS: int := 2016
  const SET_PARAMETER_PERSISTANCE: int := 2017
  const REBOOT_SCANNER: int := 2019
  // Scanner operation mode commands
  const DEVICE_CAPTURE_IMAGE: int := 3000
  const DEVICE_CAPTURE_BARCODE: int := 3500
  const DEVICE_CAPTURE_VIDEO: int := 4000
  // Scanner management commands
  const ATTR_GETALL: int := 5000
  const ATTR_GET: int := 5001
  const ATTR_GETNEXT: int := 5002
  const ATTR_SET: int := 5004
  const ATTR_STORE: int := 5005
  const GET_DEVICE_TOPOLOGY: int := 5006
  const START_NEW_FIRMWARE: int := 5014
  const UPDATE_FIRMWARE: int := 5016
  const UPDATE_FIRMWARE_FROM_PLUGIN: int := 5017
  const UPDATE_DECODE_TONE: int := 5050
  const ERASE_DECODE_TONE: int := 5051
  // Real-time alert configuration commands
  const GET_SUPPORTED_RTA_EVENTS: int := 5500
  const REGISTER_RTA_EVENTS: int := 5501
  const UNREGISTER_RTA_EVENTS: int := 5502
  const GET_RTA_ALERT_STATUS: int := 5503
  const SET_RTA_ALERT_STATUS: int := 5504
  const RTA_SUSPEND: int := 5505
  const RTA_STATE: int := 5506
  // Scanner action commands
  const SET_ACTION: int := 6000
  // Serial scanner commands
  const DEVICE_SET_SERIAL_PORT_SETTINGS: int := 6101
  // Other commands
  const DEVICE_SWITCH_HOST_MODE: int := 6200
  // Keyboard emulator commands
  const KEYBOARD_EMULATOR_ENABLE: int := 6300
  const KEYBOARD_EMULATOR_SET_LOCALE: int := 6301
  const KEYBOARD_EMULATOR_GET_CONFIG: int := 6302
  // Scale commands
  const SCALE_READ_WEIGHT: int := 7000
  const SCALE_ZERO_SCALE: int := 7002
  const SCALE_SYSTEM_RESET: int := 7015

  /** The opcode constants of each comment group, in declaration order. */
  const SdkCommands: seq<int> := [GET_VERSION, REGISTER_FOR_EVENTS, UNREGISTER_FOR_EVENTS]
  const AccessControlCommands: seq<int> := [CLAIM_DEVICE, RELEASE_DEVICE]
  const CommonCommands: seq<int> := [
    ABORT_MACROPDF, ABORT_UPDATE_FIRMWARE, AIM_OFF, AIM_ON, FLUSH_MACROPDF,
    DEVICE_PULL_TRIGGER, DEVICE_RELEASE_TRIGGER, SCAN_DISABLE, SCAN_ENABLE,
    SET_PARAMETER_DEFAULTS, DEVICE_SET_PARAMETERS, SET_PARAMETER_PERSISTANCE, REBOOT_SCANNER]
  const OperationModeCommands: seq<int> := [DEVICE_CAPTURE_IMAGE, DEVICE_CAPTURE_BARCODE, DEVICE_CAPTURE_VIDEO]
  const ManagementCommands: seq<int> := [
    ATTR_GETALL, ATTR_GET, ATTR_GETNEXT, ATTR_SET, ATTR_STORE, GET_DEVICE_TOPOLOGY,
    START_NEW_FIRMWARE, UPDATE_FIRMWARE, UPDATE_FIRMWARE_FROM_PLUGIN,
    UPDATE_DECODE_TONE, ERASE_DECODE_TONE]
  const RtaCommands: seq<int> := [
    GET_SUPPORTED_RTA_EVENTS, REGISTER_RTA_EVENTS, UNREGISTER_RTA_EVENTS,
    GET_RTA_ALERT_STATUS, SET_RTA_ALERT_STATUS, RTA_SUSPEND, RTA_STATE]
  const ActionSerialAndOtherCommands: seq<int> := [SET_ACTION, DEVICE_SET_SERIAL_PORT_SETTINGS, DEVICE_SWITCH_HOST_MODE]
  const KeyboardEmulatorCommands: seq<int> := [
    KEYBOARD_EMULATOR_ENABLE, KEYBOARD_EMULATOR_SET_LOCALE, KEYBOARD_EMULATOR_GET_CONFIG]
  const ScaleCommands: seq<int> := [SCALE_READ_WEIGHT, SCALE_ZERO_SCALE, SCALE_SYSTEM_RESET]

  /** Every opcode constant, in declaration order. */
  const AllOpcodes: seq<int> :=
    SdkCommands + AccessControlCommands + CommonCommands + OperationModeCommands
    + ManagementCommands + RtaCommands + ActionSerialAndOtherCommands
    + KeyboardEmulatorCommands + ScaleCommands

  predicate StrictlyIncreasing(s: seq<int>)
  {
    forall i :: 0 < i < |s| ==> s[i - 1] < s[i]
  }

  predicate Distinct(s: seq<int>)
  {
    forall i, j :: 0 <= i < j < |s| ==> s[i] != s[j]
  }

  lemma {:induction false} IncreasingIsOrdered(s: seq<int>)
    requires StrictlyIncreasing(s)
    ensures forall i, j :: 0 <= i < j < |s| ==> s[i] < s[j]
    decreases |s|
  {
    if |s| > 1 {
      var t := s[..|s| - 1];
      assert StrictlyIncreasing(t);
      IncreasingIsOrdered(t);
      forall i | 0 <= i < |s| - 1 ensures s[i] < s[|s| - 1] {
        assert s[i] == t[i];
        if i < |s| - 2 { assert t[i] < t[|s| - 2]; }
      }
    }
  }

  /** Two increasing runs, the first ending below where the second starts,
      make one increasing run. */
  lemma {:induction false} AppendIncreasing(a: seq<int>, b: seq<int>)
    requires StrictlyIncreasing(a) && StrictlyIncreasing(b)
    requires a != [] && b != [] ==> a[|a| - 1] < b[0]
    ensures StrictlyIncreasing(a + b)
  {
    var ab := a + b;
    forall i | 0 < i < |ab| ensures ab[i - 1] < ab[i] {
      if i < |a| {
        assert ab[i - 1] == a[i - 1] && ab[i] == a[i];
      } else if i == |a| {
        assert ab[i - 1] == a[|a| - 1] && ab[i] == b[0];
      } else {
        assert ab[i - 1] == b[i - 1 - |a|] && ab[i] == b[i - |a|];
      }
    }
  }

  /** The opcode constants are pairwise distinct: the declaration order is
      strictly increasing, within each comment group and across groups. In
      particular register/unregister, claim/release and enable/disable never
      pick the same opcode. */
  lemma OpcodesDistinct()
    ensures |AllOpcodes| == 48
    ensures Distinct(AllOpcodes)
    ensures REGISTER_FOR_EVENTS != UNREGISTER_FOR_EVENTS
    ensures CLAIM_DEVICE != RELEASE_DEVICE && SCAN_ENABLE != SCAN_DISABLE
  {
    var run := SdkCommands;
    assert StrictlyIncreasing(run);
    assert StrictlyIncreasing(AccessControlCommands);
    AppendIncreasing(run, AccessControlCommands);
    run := run + AccessControlCommands;
    assert StrictlyIncreasing(CommonCommands);
    AppendIncreasing(run, CommonCommands);
    run := run + CommonCommands;
    assert StrictlyIncreasing(OperationModeCommands);
    AppendIncreasing(run, OperationModeCommands);
    run := run + OperationModeCommands;
    assert StrictlyIncreasing(ManagementCommands);
    AppendIncreasing(run, ManagementCommands);
    run := run + ManagementCommands;
    assert StrictlyIncreasing(RtaCommands);
    AppendIncreasing(run, RtaCommands);
    run := run + RtaCommands;
    assert StrictlyIncreasing(ActionSerialAndOtherCommands);
    AppendIncreasing(run, ActionSerialAndOtherCommands);
    run := run + ActionSerialAndOtherCommands;
    assert StrictlyIncreasing(KeyboardEmulatorCommands);
    AppendIncreasing(run, KeyboardEmulatorCommands);
    run := run + KeyboardEmulatorCommands;
    assert StrictlyIncreasing(ScaleCommands);
    AppendIncreasing(run, ScaleCommands);
    run := run + ScaleCommands;
    assert run == AllOpcodes;
    IncreasingIsOrdered(AllOpcodes);
  }

  // ---------------------------------------------------------------- StatusHandler

  /** The catalog's keys come in runs of consecutive codes; each run is the
      list of descriptions for its codes in increasing order. */
  const Run100: seq<string> := [
    "Invalid application handle. Reserved parameter. Value is zero.",
    "Required Comm Lib is unavailable to support the requested Type.",
    "Null buffer pointer.",
    "Invalid buffer pointer.",
    "Incorrect buffer size.",
    "Requested Type IDs are duplicated.",
    "Incorrect value for number of Types.",
    "Invalid argument.",
    "Invalid scanner ID.",
    "Incorrect value for number of Event IDs.",
    "Event IDs are duplicated.",
    "Invalid value for Event ID.",
    "Required device is unavailable.",
    "Opcode is invalid.",
    "Invalid value for Type.",
    "Opcode does not support asynchronous method.",
    "Device does not support the Opcode.",
    "Operation failed in device.",
    "Request failed in CoreScanner.",
    "Operation not supported for auxiliary scanners.",
    "Device busy. Applications should retry command."]
  const Run200: seq<string> := [
    "CoreScanner is already opened.",
    "CoreScanner is already closed.",
    "CoreScanner is closed."]
  const Run300: seq<string> := [
    "Malformed inXML.",
    "XML Reader could not be instantiated.",
    "Input for XML Reader could not be set.",
    "XML Reader property could not be set.",
    "XML Writer could not be instantiated.",
    "Output for XML Writer could not be set.",
    "XML Writer property could not be set.",
    "Cannot read element from XML input.",
    "Arguments in inXML are not valid.",
    "Write to XML output string failed.",
    "InXML exceed length.",
    "Buffer length for type exceeded."]
  const Run400: seq<string> := [
    "Null pointer.",
    "Cannot add a duplicate client."]
  const Run500: seq<string> := [
    "Invalid firmware file.",
    "Firmware Update failed in scanner.",
    "Failed to read DAT file.",
    "Firmware Update is in progress.",
    "Firmware update is already aborted.",
    "Firmware Update aborted.",
    "Scanner is disconnected while updating firmware."]

  /** StatusHandler.StatusMessages.TryGetValue: the description the catalog
      holds for a code, or None for a code it does not hold. */
  function StatusMessages(code: int): Option<string>
  {
    if code == 0 then Some("Generic success.")
    else if code == 10 then Some("Device is locked by another application.")
    else if 100 <= code < 100 + |Run100| then Some(Run100[code - 100])
    else if 200 <= code < 200 + |Run200| then Some(Run200[code - 200])
    else if 300 <= code < 300 + |Run300| then Some(Run300[code - 300])
    else if 400 <= code < 400 + |Run400| then Some(Run400[code - 400])
    else if 500 <= code < 500 + |Run500| then Some(Run500[code - 500])
    else if code == 600 then Some("The software component is already resident in the scanner.")
    else None
  }

  /** The codes the catalog knows, by range. */
  predicate IsCatalogued(code: int)
  {
    code == 0 || code == 10 || 100 <= code <= 120 || 200 <= code <= 202
    || 300 <= code <= 311 || code == 400 || code == 401 || 500 <= code <= 506 || code == 600
  }

  /** The catalog holds exactly the codes 0, 10, 100-120, 200-202, 300-311,
      400, 401, 500-506 and 600 (48 entries), and 0 is the generic success. */
  lemma StatusCatalogKeys()
    ensures forall code :: StatusMessages(code).Some? <==> IsCatalogued(code)
    ensures StatusMessages(0) == Some("Generic success.")
    ensures StatusMessages(108) == Some("Invalid scanner ID.")
  {
  }

  const KnownPrefix: string := "Status "
  const UnknownPrefix: string := "Unknown status code: "

  /** StatusHandler.HandleStatus: "Status {code}: {description}" for a
      catalogued code, "Unknown status code: {code}" for any other; it never
      fails and never returns the empty string. */
  function HandleStatus(status: int): (r: string)
    ensures |r| > 0
  {
    FormatStatus(status, StatusMessages(status))
  }

  /** The message for a code and its catalog description, if any. */
  function FormatStatus(status: int, description: Option<string>): string
  {
    match description
    case Some(message) => KnownPrefix + IntToDecimal(status) + ": " + message
    case None => UnknownPrefix + IntToDecimal(status)
  }

  /** Reads a status message back: the code it reports, and the catalog
      description when the message says the code is known. */
  function ReadStatusMessage(msg: string): Option<(int, Option<string>)>
  {
    if StartsWith(msg, UnknownPrefix) then
      match ParseDecimal(msg[|UnknownPrefix|..])
      case Some(code) => Some((code, None))
      case None => None
    else if StartsWith(msg, KnownPrefix) then
      var rest := msg[|KnownPrefix|..];
      var colon := IndexOf(rest, ':');
      if colon + 2 <= |rest| && rest[colon..colon + 2] == ": " then
        match ParseDecimal(rest[..colon])
        case Some(code) => Some((code, Some(rest[colon + 2..])))
        case None => None
      else None
    else None
  }

  /** HandleStatus loses nothing: the message gives back the status code, and
      it carries the catalog description exactly when the code is catalogued. */
  lemma HandleStatusRoundTrip(status: int)
    ensures ReadStatusMessage(HandleStatus(status)) ==
      Some((status, StatusMessages(status)))
  {
    FormatStatusRoundTrip(status, StatusMessages(status));
  }

  lemma {:induction false} FormatStatusRoundTrip(status: int, description: Option<string>)
    ensures ReadStatusMessage(FormatStatus(status, description)) == Some((status, description))
  {
    DecimalRoundTrip(status);
    if description.Some? {
      KnownStatusRoundTrip(status, IntToDecimal(status), description.value);
    } else {
      var msg := FormatStatus(status, description);
      assert StartsWith(msg, UnknownPrefix);
      assert msg[|UnknownPrefix|..] == IntToDecimal(status);
    }
  }

  /** The message of a catalogued code reads back as that code and its
      description. */
  lemma {:induction false} KnownStatusRoundTrip(status: int, digits: string, message: string)
    requires digits == IntToDecimal(status) && ParseDecimal(digits) == Some(status)
    ensures ReadStatusMessage(KnownPrefix + digits + ": " + message) == Some((status, Some(message)))
  {
    var msg := KnownPrefix + digits + ": " + message;
    assert msg[0] == 'S';
    assert !StartsWith(msg, UnknownPrefix) by { assert UnknownPrefix[0] == 'U'; }
    assert StartsWith(msg, KnownPrefix);
    var rest := msg[|KnownPrefix|..];
    assert rest == digits + ": " + message;
    assert ':' !in digits;
    assert rest[|digits|] == ':';
    assert IndexOf(rest, ':') == |digits|;
    assert rest[..|digits|] == digits;
    assert rest[|digits|..|digits| + 2] == ": ";
    assert rest[|digits| + 2..] == message;
  }

  /** Distinct status codes give distinct messages, so a message identifies
      the code it was made from. */
  lemma HandleStatusInjective(a: int, b: int)
    requires HandleStatus(a) == HandleStatus(b)
    ensures a == b
  {
    HandleStatusRoundTrip(a);
    HandleStatusRoundTrip(b);
  }

  /** Status 0 is reported as the generic success. */
  lemma SuccessStatusMessage()
    ensures HandleStatus(0) == "Status 0: Generic success."
  {
    assert StatusMessages(0) == Some("Generic success.");
    assert IntToDecimal(0) == "0";
  }
}
