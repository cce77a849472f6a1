/** QRScanner/model/CommandResult.cs: the outcome of one SDK call (its
    name, status, output XML and scanner count), the message derived from
    the status, and the text report of it. */
module CommandResultModel {
  import opened Wrappers
  import opened Text
  import opened Errors
  import opened CommonDefs
  import opened XmlDom
  import opened ScannerModel
  import opened XmlReader

  /** NumberOfScanners when no constructor sets it. */
  const NoCount: int := -1

  datatype CommandResult = CommandResult(
    commandName: string,
    status: int,
    outXml: Option<OutXml>,
    statusMessage: string,
    numberOfScanners: int)
  {
    /** IsSuccessful. */
    predicate IsSuccessful()
    {
      status == 0
    }

    /** What every non-default constructor establishes: the message is the
        status's catalog message. */
    predicate MessageMatchesStatus()
    {
      statusMessage == HandleStatus(status)
    }

    /** GetAllScanners: the reader's full listing of this result's XML. */
    method GetAllScanners() returns (r: Result<seq<Scanner>, Error>)
      ensures r == AllScanners(outXml)
    {
      r := GetAllScannersFromXml(outXml);
    }

    /** GetFirstScannerDetected: the reader's first scanner of this result's XML. */
    function GetFirstScannerDetected(): (r: Result<Scanner, Error>)
      ensures r.Ok? ==> AllScanners(outXml).Ok? && r.value == AllScanners(outXml).value[0]
    {
      FirstIsHeadOfAll(outXml);
      GetFirstScannerDetectedFromXml(outXml)
    }

    /** GetScannerById: the reader's lookup by ID in this result's XML. */
    function GetScannerById(scannerId: Int32): (r: Result<Scanner, Error>)
      ensures r.Ok? ==> r.value.Valid()
    {
      GetScannerByIdFromXml(outXml, scannerId)
    }
  }

  /** The parameterless constructor: status -1, empty name, message and
      OutXml (an empty text, which the XML loader would reject). */
  function Default(): (r: CommandResult)
    ensures r.status == -1 && !r.IsSuccessful()
    ensures r.commandName == "" && r.statusMessage == ""
    ensures r.outXml.Some? && r.outXml.value.text == "" && r.numberOfScanners == NoCount
  {
    CommandResult("", -1, Some(OutXml("", None)), "", NoCount)
  }

  /** CommandResult(commandName, status): OutXml stays null. */
  function FromStatus(commandName: string, status: int): (r: CommandResult)
    ensures r.MessageMatchesStatus() && r.outXml.None? && r.numberOfScanners == NoCount
    ensures r.commandName == commandName && r.status == status
  {
    CommandResult(commandName, status, None, HandleStatus(status), NoCount)
  }

  /** CommandResult(commandName, status, outXml). */
  function FromReply(commandName: string, status: int, outXml: Option<OutXml>): (r: CommandResult)
    ensures r.MessageMatchesStatus() && r.numberOfScanners == NoCount
    ensures r.commandName == commandName && r.status == status && r.outXml == outXml
  {
    CommandResult(commandName, status, outXml, HandleStatus(status), NoCount)
  }

  /** CommandResult(commandName, status, outXml, numberOfScanners). */
  function FromDetection(commandName: string, status: int, outXml: Option<OutXml>, numberOfScanners: int): (r: CommandResult)
    ensures r.MessageMatchesStatus()
    ensures r.commandName == commandName && r.status == status && r.outXml == outXml
    ensures r.numberOfScanners == numberOfScanners
  {
    CommandResult(commandName, status, outXml, HandleStatus(status), numberOfScanners)
  }

  /** The success message: what HandleStatus gives for status 0. */
  const SuccessMessage: string := "Status 0: Generic success."

  /** For a constructed result, success can be read off the message alone:
      it is successful exactly when its message is the generic success. The
      default result is never successful. */
  lemma {:induction false} SuccessIffSuccessMessage(r: CommandResult)
    requires r.MessageMatchesStatus()
    ensures r.IsSuccessful() <==> r.statusMessage == SuccessMessage
  {
    SuccessStatusMessage();
    if r.statusMessage == SuccessMessage {
      HandleStatusInjective(r.status, 0);
    }
  }

  // ---------------------------------------------------------------- GetCommandResultDetails

  const CountCaption: string := "- Number of scanners detected: "
  const XmlCaption: string := "- Output XML: "
  const NoXmlOutput: string := "No XML output."

  /** The text of the output-XML line: the XML, or a placeholder when it is
      null or blank. */
  function XmlText(outXml: Option<OutXml>): string
  {
    if outXml.None? || IsBlank(outXml.value.text) then NoXmlOutput else outXml.value.text
  }

  /** The lines GetCommandResultDetails appends, in order. */
  function DetailLines(r: CommandResult): seq<string>
  {
    ["Command result details:", "- Command: " + r.commandName, "- " + r.statusMessage]
    + (if r.numberOfScanners != NoCount then [CountCaption + IntToDecimal(r.numberOfScanners)] else [])
    + [XmlCaption + XmlText(r.outXml)]
  }

  /** CommandResult.GetCommandResultDetails. */
  function GetCommandResultDetails(r: CommandResult): (d: string)
    ensures |d| > 0
  {
    LinesNonEmpty(DetailLines(r));
    Lines(DetailLines(r))
  }

  lemma {:induction false} LinesNonEmpty(ls: seq<string>)
    requires ls != []
    ensures |Lines(ls)| > 0
  {
  }

  /** The count line is there exactly when a count was set: no other line
      of a constructed result starts like it, because its status message
      starts with "Status " or "Unknown ". The XML line comes last and
      carries the XML verbatim unless the XML is null or blank. */
  lemma DetailLinesSpec(r: CommandResult)
    requires r.MessageMatchesStatus()
    ensures (exists i :: 0 <= i < |DetailLines(r)| && StartsWith(DetailLines(r)[i], CountCaption))
      <==> r.numberOfScanners != NoCount
    ensures r.numberOfScanners != NoCount ==>
      DetailLines(r)[3] == CountCaption + IntToDecimal(r.numberOfScanners)
    ensures var ls := DetailLines(r);
      (r.outXml.None? || IsBlank(r.outXml.value.text) ==> ls[|ls| - 1] == XmlCaption + NoXmlOutput)
      && (r.outXml.Some? && !IsBlank(r.outXml.value.text) ==> ls[|ls| - 1] == XmlCaption + r.outXml.value.text)
  {
    HandleStatusHead(r.status);
    DetailLinesShape(r);
  }

  /** DetailLinesSpec for any message that starts with 'S' or 'U'. */
  lemma {:induction false} DetailLinesShape(r: CommandResult)
    requires |r.statusMessage| > 0 && (r.statusMessage[0] == 'S' || r.statusMessage[0] == 'U')
    ensures (exists i :: 0 <= i < |DetailLines(r)| && StartsWith(DetailLines(r)[i], CountCaption))
      <==> r.numberOfScanners != NoCount
    ensures r.numberOfScanners != NoCount ==>
      DetailLines(r)[3] == CountCaption + IntToDecimal(r.numberOfScanners)
    ensures var ls := DetailLines(r);
      (r.outXml.None? || IsBlank(r.outXml.value.text) ==> ls[|ls| - 1] == XmlCaption + NoXmlOutput)
      && (r.outXml.Some? && !IsBlank(r.outXml.value.text) ==> ls[|ls| - 1] == XmlCaption + r.outXml.value.text)
  {
    var ls := DetailLines(r);
    if r.numberOfScanners != NoCount {
      assert StartsWith(ls[3], CountCaption);
    } else {
      forall i | 0 <= i < |ls| ensures !StartsWith(ls[i], CountCaption) {
        if i == 0 {
          assert ls[0][0] != CountCaption[0];
        } else if i == 1 {
          assert ls[1][2] != CountCaption[2];
        } else if i == 2 {
          assert ls[2][2] == r.statusMessage[0];
        } else {
          assert ls[3][2] != CountCaption[2];
        }
      }
    }
  }

  /** Every status message starts with 'S' ("Status ") or 'U' ("Unknown"). */
  lemma HandleStatusHead(status: int)
    ensures HandleStatus(status)[0] == 'S' || HandleStatus(status)[0] == 'U'
  {
    FormatStatusHead(status, StatusMessages(status));
  }

  lemma FormatStatusHead(status: int, description: Option<string>)
    ensures |FormatStatus(status, description)| > 0
    ensures FormatStatus(status, description)[0] == 'S' || FormatStatus(status, description)[0] == 'U'
  {
    if description.Some? {
      assert FormatStatus(status, description)[0] == KnownPrefix[0];
    } else {
      assert FormatStatus(status, description)[0] == UnknownPrefix[0];
    }
  }
}
