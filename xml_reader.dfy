/** QRScanner/utility/XMLReader.cs: turns the SDK's scanner listing into
    Scanner records. Every query first rejects a null or blank text, then
    loads the document and selects `/scanners/scanner` elements. */
module XmlReader {
  import opened Wrappers
  import opened Text
  import opened Errors
  import opened XmlDom
  import opened ScannerModel

  /** ValidateXmlInput: null or blank XML is an ArgumentException. */
  function ValidateXmlInput(outXml: Option<OutXml>): (r: Outcome<Error>)
    ensures r.Pass? <==> outXml.Some? && !IsBlank(outXml.value.text)
    ensures r.Fail? ==> r.error == XmlContentMissing
  {
    if outXml.None? || IsBlank(outXml.value.text) then Fail(XmlContentMissing) else Pass
  }

  /** ParseNodeToInt: int.TryParse of the trimmed inner text, 0 when the
      child is missing or its text is not an Int32. */
  function ParseNodeToInt(text: Option<string>): (r: Int32)
    ensures text.None? ==> r == 0
    ensures text.Some? && ParseInt32(Trim(text.value)).Some? ==> r == ParseInt32(Trim(text.value)).value
    ensures text.Some? && ParseInt32(Trim(text.value)).None? ==> r == 0
  {
    if text.None? then 0
    else match ParseInt32(Trim(text.value))
      case Some(v) => v
      case None => 0
  }

  /** ParseNodeToString: the trimmed inner text, "Unknown" when the child is
      missing. */
  function ParseNodeToString(text: Option<string>): (r: string)
    ensures text.None? ==> r == Unknown
    ensures text.Some? ==> r == Trim(text.value)
  {
    if text.None? then Unknown else Trim(text.value)
  }

  /** An element whose text is the decimal form of an Int32, with any white
      space around it, reads back as that number. */
  lemma ParseNodeToIntReadsDecimal(lead: string, n: Int32, trail: string)
    requires IsBlank(lead) && IsBlank(trail)
    ensures ParseNodeToInt(Some(lead + IntToDecimal(n) + trail)) == n
  {
    TrimPadded(lead, IntToDecimal(n), trail);
    Int32RoundTrip(n);
  }

  /** An element whose text is `value` padded with white space reads back
      as `value`, when `value` neither starts nor ends with white space. */
  lemma ParseNodeToStringReadsText(lead: string, value: string, trail: string)
    requires IsBlank(lead) && IsBlank(trail)
    requires value == [] || (!IsWhiteSpace(value[0]) && !IsWhiteSpace(value[|value| - 1]))
    ensures ParseNodeToString(Some(lead + value + trail)) == value
  {
    TrimPadded(lead, value, trail);
  }

  /** The first element of a list, if any. */
  function First(s: seq<string>): Option<string>
  {
    if s == [] then None else Some(s[0])
  }

  /** ParseScannerNode: the trimmed `type` attribute or "Unknown", the first
      `scannerID` child as an integer, the other children as strings, all
      passed through the Scanner constructor. */
  function ParseScannerNode(node: ScannerNode): (r: Scanner)
    ensures r.Valid()
  {
    NewScanner(
      Some(if node.typeAttribute.Some? then Trim(node.typeAttribute.value) else Unknown),
      ParseNodeToInt(First(node.scannerIdTexts)),
      Some(ParseNodeToString(node.serialNumber)),
      Some(ParseNodeToString(node.guid)),
      Some(ParseNodeToString(node.vid)),
      Some(ParseNodeToString(node.pid)),
      Some(ParseNodeToString(node.modelNumber)),
      Some(ParseNodeToString(node.dom)),
      Some(ParseNodeToString(node.firmware)))
  }

  /** The property rule a parsed field follows: a missing child, or one whose
      trimmed text is empty, gives "Unknown"; otherwise the trimmed text. */
  function ParsedField(text: Option<string>): string
  {
    if text.None? || Trim(text.value) == "" then Unknown else Trim(text.value)
  }

  lemma ParsedFieldIsNormalized(text: Option<string>)
    ensures NormalizeField(Some(ParseNodeToString(text))) == ParsedField(text)
  {
    if text.Some? {
      TrimEmptyIffBlank(text.value);
      TrimIdempotent(text.value);
      TrimEmptyIffBlank(Trim(text.value));
    } else {
      NormalizeFieldCases(Some(Unknown));
    }
  }

  /** What each property of a parsed scanner is: the trimmed texts, with
      "Unknown" for what is missing or blank, and the ID 0 when the first
      `scannerID` child is missing, not an Int32, or not positive. */
  lemma {:induction false} ParseScannerNodeFields(node: ScannerNode)
    ensures ParseScannerNode(node).scannerType == ParsedField(node.typeAttribute)
    ensures ParseScannerNode(node).serialNumber == ParsedField(node.serialNumber)
    ensures ParseScannerNode(node).guid == ParsedField(node.guid)
    ensures ParseScannerNode(node).vid == ParsedField(node.vid)
    ensures ParseScannerNode(node).pid == ParsedField(node.pid)
    ensures ParseScannerNode(node).modelNumber == ParsedField(node.modelNumber)
    ensures ParseScannerNode(node).dom == ParsedField(node.dom)
    ensures ParseScannerNode(node).firmware == ParsedField(node.firmware)
    ensures ParseScannerNode(node).scannerId ==
      (match First(node.scannerIdTexts)
       case None => 0
       case Some(t) =>
         match ParseInt32(Trim(t))
         case Some(v) => if v > 0 then v else 0
         case None => 0)
  {
    ParsedFieldIsNormalized(node.typeAttribute);
    ParsedFieldIsNormalized(node.serialNumber);
    ParsedFieldIsNormalized(node.guid);
    ParsedFieldIsNormalized(node.vid);
    ParsedFieldIsNormalized(node.pid);
    ParsedFieldIsNormalized(node.modelNumber);
    ParsedFieldIsNormalized(node.dom);
    ParsedFieldIsNormalized(node.firmware);
  }

  // ---------------------------------------------------------------- GetAllScannersFromXml

  /** What GetAllScannersFromXml returns: one scanner per `/scanners/scanner`
      element, in document order, or the exception it throws. */
  function AllScanners(outXml: Option<OutXml>): (r: Result<seq<Scanner>, Error>)
    ensures r.Ok? ==> |r.value| > 0
  {
    if ValidateXmlInput(outXml).Fail? then Err(XmlContentMissing)
    else match outXml.value.scanners
      case None => Err(MalformedXml)
      case Some(nodes) =>
        if nodes == [] then Err(NoScannersFound)
        else Ok(ParseAll(nodes))
  }

  /** Every node parsed, in order. */
  function ParseAll(nodes: seq<ScannerNode>): (ss: seq<Scanner>)
    ensures |ss| == |nodes|
    ensures forall i :: 0 <= i < |nodes| ==> ss[i] == ParseScannerNode(nodes[i])
  {
    if nodes == [] then []
    else ParseAll(nodes[..|nodes| - 1]) + [ParseScannerNode(nodes[|nodes| - 1])]
  }

  /** XMLReader.GetAllScannersFromXml, with its foreach/Add loop. */
  method GetAllScannersFromXml(outXml: Option<OutXml>) returns (r: Result<seq<Scanner>, Error>)
    ensures r == AllScanners(outXml)
  {
    if ValidateXmlInput(outXml).Fail? {
      return Err(XmlContentMissing);
    }
    if outXml.value.scanners.None? {
      return Err(MalformedXml);
    }
    var nodes := outXml.value.scanners.value;
    if |nodes| == 0 {
      return Err(NoScannersFound);
    }
    var scanners: seq<Scanner> := [];
    var i := 0;
    while i < |nodes|
      invariant 0 <= i <= |nodes|
      invariant scanners == ParseAll(nodes[..i])
    {
      assert nodes[..i + 1][..i] == nodes[..i];
      scanners := scanners + [ParseScannerNode(nodes[i])];
      i := i + 1;
    }
    assert nodes[..i] == nodes;
    return Ok(scanners);
  }

  /** The listing's errors, in the order they are checked, and on success
      exactly one valid scanner per element, in document order. */
  lemma AllScannersSpec(outXml: Option<OutXml>)
    ensures outXml.None? || IsBlank(outXml.value.text) ==> AllScanners(outXml) == Err(XmlContentMissing)
    ensures outXml.Some? && !IsBlank(outXml.value.text) && outXml.value.scanners.None? ==>
      AllScanners(outXml) == Err(MalformedXml)
    ensures outXml.Some? && !IsBlank(outXml.value.text) && outXml.value.scanners == Some([]) ==>
      AllScanners(outXml) == Err(NoScannersFound)
    ensures AllScanners(outXml).Ok? ==>
      var nodes := outXml.value.scanners.value;
      var ss := AllScanners(outXml).value;
      |ss| == |nodes| > 0 &&
      forall i :: 0 <= i < |ss| ==> ss[i] == ParseScannerNode(nodes[i]) && ss[i].Valid()
  {
  }

  // ---------------------------------------------------------------- GetFirstScannerDetectedFromXml

  /** XMLReader.GetFirstScannerDetectedFromXml: the first element, parsed;
      ParseScannerNode rejects the null node SelectSingleNode gives for a
      listing without elements. */
  function GetFirstScannerDetectedFromXml(outXml: Option<OutXml>): (r: Result<Scanner, Error>)
    ensures r.Ok? ==> r.value.Valid()
  {
    if ValidateXmlInput(outXml).Fail? then Err(XmlContentMissing)
    else match outXml.value.scanners
      case None => Err(MalformedXml)
      case Some(nodes) =>
        if nodes == [] then Err(ScannerNodeMissing) else Ok(ParseScannerNode(nodes[0]))
  }

  /** The first scanner is the head of the full listing, and the two
      queries fail together: only the empty listing gets a different error. */
  lemma {:induction false} FirstIsHeadOfAll(outXml: Option<OutXml>)
    ensures AllScanners(outXml).Ok? <==> GetFirstScannerDetectedFromXml(outXml).Ok?
    ensures AllScanners(outXml).Ok? ==>
      GetFirstScannerDetectedFromXml(outXml).value == AllScanners(outXml).value[0]
    ensures AllScanners(outXml) == Err(NoScannersFound) <==>
      GetFirstScannerDetectedFromXml(outXml) == Err(ScannerNodeMissing)
    ensures AllScanners(outXml).Err? && AllScanners(outXml) != Err(NoScannersFound) ==>
      GetFirstScannerDetectedFromXml(outXml) == Err(AllScanners(outXml).error)
  {
  }

  // ---------------------------------------------------------------- GetScannerByIdFromXml

  /** The XPath predicate `[scannerID='{id}']`: some `scannerID` child's text
      is exactly the decimal ID, with no trimming. */
  predicate MatchesId(node: ScannerNode, id: Int32)
  {
    IntToDecimal(id) in node.scannerIdTexts
  }

  /** The index of the first matching element, or |nodes|. */
  function FirstMatch(nodes: seq<ScannerNode>, id: Int32): (i: nat)
    ensures i <= |nodes|
    ensures i < |nodes| ==> MatchesId(nodes[i], id)
    ensures forall j :: 0 <= j < i ==> !MatchesId(nodes[j], id)
  {
    if nodes == [] then 0
    else if MatchesId(nodes[0], id) then 0
    else 1 + FirstMatch(nodes[1..], id)
  }

  /** XMLReader.GetScannerByIdFromXml. */
  function GetScannerByIdFromXml(outXml: Option<OutXml>, scannerId: Int32): (r: Result<Scanner, Error>)
    ensures r.Ok? ==> r.value.Valid()
  {
    if ValidateXmlInput(outXml).Fail? then Err(XmlContentMissing)
    else match outXml.value.scanners
      case None => Err(MalformedXml)
      case Some(nodes) =>
        var i := FirstMatch(nodes, scannerId);
        if i == |nodes| then Err(ScannerNotFound(scannerId)) else Ok(ParseScannerNode(nodes[i]))
  }

  /** A valid listing gives ScannerNotFound exactly when no element carries
      the ID; otherwise the first element that does, parsed. When that
      element has a single `scannerID` child, the scanner's ID is the one
      asked for (0 for a non-positive one, which the constructor resets). */
  lemma {:induction false} GetScannerByIdSpec(outXml: Option<OutXml>, scannerId: Int32)
    requires outXml.Some? && !IsBlank(outXml.value.text) && outXml.value.scanners.Some?
    ensures var nodes := outXml.value.scanners.value;
      var r := GetScannerByIdFromXml(outXml, scannerId);
      (r == Err(ScannerNotFound(scannerId)) <==> forall j :: 0 <= j < |nodes| ==> !MatchesId(nodes[j], scannerId))
      && (r.Ok? ==>
            var i := FirstMatch(nodes, scannerId);
            i < |nodes| && r.value == ParseScannerNode(nodes[i])
            && (|nodes[i].scannerIdTexts| == 1 ==> r.value.scannerId == NormalizeId(scannerId)))
  {
    var nodes := outXml.value.scanners.value;
    var i := FirstMatch(nodes, scannerId);
    if i < |nodes| {
      MatchedNodeId(nodes[i], scannerId);
    }
  }

  /** An element whose only `scannerID` child is the decimal ID parses to a
      scanner with that ID, reset to 0 when it is not positive. */
  lemma {:induction false} MatchedNodeId(node: ScannerNode, scannerId: Int32)
    requires MatchesId(node, scannerId)
    ensures |node.scannerIdTexts| == 1 ==> ParseScannerNode(node).scannerId == NormalizeId(scannerId)
  {
    if |node.scannerIdTexts| == 1 {
      assert node.scannerIdTexts[0] == IntToDecimal(scannerId);
      TrimDecimal(scannerId);
      Int32RoundTrip(scannerId);
    }
  }
}
