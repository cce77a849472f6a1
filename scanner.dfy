/** QRScanner/model/Scanner.cs: an immutable record of one scanner's
    properties, normalised on construction, and its multi-line description. */
module ScannerModel {
  import opened Wrappers
  import opened Text

  /** What the constructor stores for a property given as null or blank. */
  const Unknown: string := "Unknown"

  datatype Scanner = Scanner(
    scannerType: string,
    scannerId: Int32,
    serialNumber: string,
    guid: string,
    vid: string,
    pid: string,
    modelNumber: string,
    dom: string,
    firmware: string)
  {
    /** The text properties, in declaration order. */
    function TextFields(): seq<string>
    {
      [scannerType, serialNumber, guid, vid, pid, modelNumber, dom, firmware]
    }

    /** What every constructed scanner satisfies: no text property is null
        or blank and the ID is not negative. */
    predicate Valid()
    {
      scannerId >= 0 && forall f :: f in TextFields() ==> !IsBlank(f)
    }
  }

  /** The constructor's rule for a text property: null or blank becomes
      "Unknown", anything else is kept as given (untrimmed). */
  function NormalizeField(s: Option<string>): (r: string)
    ensures !IsBlank(r)
    ensures r == Unknown || (s.Some? && r == s.value)
  {
    assert Unknown[0] == 'U';
    if IsNullOrWhiteSpace(s) then Unknown else s.value
  }

  /** The constructor's rule for the ID: a non-positive ID becomes 0. */
  function NormalizeId(id: Int32): (r: Int32)
    ensures r >= 0
    ensures r == id || r == 0
  {
    if id > 0 then id else 0
  }

  /** Scanner(scannerType, scannerID, serialNumber, ...). */
  function NewScanner(
    scannerType: Option<string>, scannerId: Int32, serialNumber: Option<string>,
    guid: Option<string>, vid: Option<string>, pid: Option<string>,
    modelNumber: Option<string>, dom: Option<string>, firmware: Option<string>): (r: Scanner)
    ensures r.Valid()
    ensures r.scannerId == if scannerId > 0 then scannerId else 0
  {
    Scanner(
      NormalizeField(scannerType), NormalizeId(scannerId), NormalizeField(serialNumber),
      NormalizeField(guid), NormalizeField(vid), NormalizeField(pid),
      NormalizeField(modelNumber), NormalizeField(dom), NormalizeField(firmware))
  }

  /** A property is stored as given exactly when it is neither null nor
      blank; otherwise "Unknown" is stored. */
  lemma NormalizeFieldCases(s: Option<string>)
    ensures NormalizeField(s) == Unknown <==> (IsNullOrWhiteSpace(s) || s == Some(Unknown))
    ensures !IsNullOrWhiteSpace(s) <==> (s.Some? && NormalizeField(s) == s.value)
  {
    assert !IsBlank(Unknown) by { assert !IsWhiteSpace(Unknown[0]); }
  }

  /** Constructing a scanner from the properties of a valid scanner gives
      that scanner back: normalisation changes nothing it already did. */
  lemma {:induction false} NewScannerIdempotent(s: Scanner)
    requires s.Valid()
    ensures NewScanner(Some(s.scannerType), s.scannerId, Some(s.serialNumber),
      Some(s.guid), Some(s.vid), Some(s.pid), Some(s.modelNumber), Some(s.dom),
      Some(s.firmware)) == s
  {
    assert s.scannerType in s.TextFields() && s.serialNumber in s.TextFields();
    assert s.guid in s.TextFields() && s.vid in s.TextFields() && s.pid in s.TextFields();
    assert s.modelNumber in s.TextFields() && s.dom in s.TextFields();
    assert s.firmware in s.TextFields();
  }

  // ---------------------------------------------------------------- GetScannerDetails

  /** The caption of each line GetScannerDetails writes; the first line is empty. */
  const DetailLabels: seq<string> := [
    "", "- Type: ", "- ID: ", "- Serial Number: ", "- GUID: ",
    "- Vendor ID (VID): ", "- Product ID (PID): ", "- Model Number: ",
    "- Date of Manufacture (DOM): ", "- Firmware Version: "]

  /** What follows each caption: nothing, the type, the ID in decimal, then
      the remaining properties in declaration order. */
  function DetailValues(s: Scanner): seq<string>
  {
    ["", s.scannerType, IntToDecimal(s.scannerId), s.serialNumber, s.guid,
     s.vid, s.pid, s.modelNumber, s.dom, s.firmware]
  }

  /** The text of one AppendLine per caption, each caption followed by its value. */
  function Labelled(labels: seq<string>, values: seq<string>): string
    requires |labels| == |values|
  {
    if labels == [] then "" else Line(labels[0] + values[0]) + Labelled(labels[1..], values[1..])
  }

  /** Scanner.GetScannerDetails: an empty line and then one line per
      property, every line ended by Environment.NewLine (the firmware line's
      Append and the closing AppendLine("") make one line). */
  function GetScannerDetails(s: Scanner): (r: string)
    ensures |r| >= 2 && r[..2] == NewLine
  {
    Labelled(DetailLabels, DetailValues(s))
  }

  /** Reads one line that starts with `caption`: its value up to the first
      carriage return, and the text after the line's NewLine. */
  function ReadLine(text: string, caption: string): Option<(string, string)>
  {
    if StartsWith(text, caption) then
      var rest := text[|caption|..];
      var i := IndexOf(rest, '\r');
      if i + 2 <= |rest| && rest[i..i + 2] == NewLine then Some((rest[..i], rest[i + 2..]))
      else None
    else None
  }

  /** Reads the lines `labels` describe, in order, up to the end of the text. */
  function ReadLabelled(text: string, labels: seq<string>): Option<seq<string>>
    decreases |labels|
  {
    if labels == [] then (if text == [] then Some([]) else None)
    else
      match ReadLine(text, labels[0])
      case None => None
      case Some((value, rest)) =>
        match ReadLabelled(rest, labels[1..])
        case None => None
        case Some(values) => Some([value] + values)
  }

  /** Reads a scanner back from the text GetScannerDetails writes. */
  function ReadScannerDetails(text: string): Option<Scanner>
  {
    match ReadLabelled(text, DetailLabels)
    case None => None
    case Some(v) =>
      if |v| == 10 && v[0] == "" then
        match ParseDecimal(v[2])
        case Some(id) =>
          if InInt32(id) then Some(Scanner(v[1], id as Int32, v[3], v[4], v[5], v[6], v[7], v[8], v[9]))
          else None
        case None => None
      else None
  }

  lemma {:induction false} ReadLineOfLine(caption: string, value: string, rest: string)
    requires '\r' !in value
    ensures ReadLine(Line(caption + value) + rest, caption) == Some((value, rest))
  {
    var text := Line(caption + value) + rest;
    assert text == caption + (value + NewLine + rest);
    assert StartsWith(text, caption);
    var r := text[|caption|..];
    assert r == value + NewLine + rest;
    assert r[|value|] == '\r';
    assert IndexOf(r, '\r') == |value|;
    assert r[|value|..|value| + 2] == NewLine;
    assert r[..|value|] == value;
    assert r[|value| + 2..] == rest;
  }

  lemma {:induction false} ReadLabelledRoundTrip(labels: seq<string>, values: seq<string>)
    requires |labels| == |values|
    requires forall i :: 0 <= i < |values| ==> '\r' !in values[i]
    ensures ReadLabelled(Labelled(labels, values), labels) == Some(values)
    decreases |labels|
  {
    if labels != [] {
      var rest := Labelled(labels[1..], values[1..]);
      ReadLineOfLine(labels[0], values[0], rest);
      ReadLabelledRoundTrip(labels[1..], values[1..]);
      assert [values[0]] + values[1..] == values;
    }
  }

  /** No text property holds a carriage return, so each stays on its line. */
  predicate SingleLineFields(s: Scanner)
  {
    forall f :: f in s.TextFields() ==> '\r' !in f
  }

  /** GetScannerDetails loses nothing: every property, the ID included, can
      be read back from the description of a scanner whose properties are
      single lines. */
  lemma {:induction false} ScannerDetailsRoundTrip(s: Scanner)
    requires SingleLineFields(s)
    ensures ReadScannerDetails(GetScannerDetails(s)) == Some(s)
  {
    var v := DetailValues(s);
    forall i | 0 <= i < |v| ensures '\r' !in v[i] {
      if i == 2 {
        assert forall j :: 0 <= j < |v[2]| ==> v[2][j] == '-' || IsDigit(v[2][j]);
      } else {
        assert v[i] == "" || v[i] in s.TextFields();
      }
    }
    ReadLabelledRoundTrip(DetailLabels, v);
    DecimalRoundTrip(s.scannerId);
  }
}
