/** QRScanner/model/DiagnosticsResult.cs: the outcome of a diagnostics run
    and the text report written about it. */
module DiagnosticsResultModel {
  import opened Wrappers
  import opened Text
  import opened Errors
  import opened ScannerModel
  import opened CommandResultModel

  /** A DiagnosticsResult. A null list or scanner is None. */
  datatype DiagnosticsResult = DiagnosticsResult(
    success: bool,
    message: string,
    detectedScanners: Option<seq<Scanner>>,
    selectedScanner: Option<Scanner>,
    commandResults: Option<seq<CommandResult>>)
  {
    /** GetDiagnosticsResultDetails: the report appended line by line to a
        StringBuilder, held here as the lines appended so far; the loop over
        a null CommandResults list throws. */
    method GetDiagnosticsResultDetails() returns (r: Result<string, Error>)
      ensures r == Report(this)
    {
      var details: seq<string> := [];
      details := details + ["Diagnostics result details:"];
      details := details + ["- Success: " + BoolText(success)];
      details := details + ["- Message: " + message];
      assert details == HeaderLines(this);
      details := AppendDetected(details, detectedScanners);
      details := AppendSelected(details, selectedScanner);
      details := details + ["Executed commands:"];
      if commandResults.None? {
        return Err(NullReference);
      }
      details := AppendCommands(details, commandResults.value);
      assert details == HeaderLines(this) + DetectedLines(detectedScanners) + SelectedLines(selectedScanner)
        + ["Executed commands:"] + CommandLines(commandResults.value);
      return Ok(Lines(details));
    }
  }

  /** The detected-scanner section: a numbered block per scanner, or "None"
      for a null or empty list. */
  method AppendDetected(details: seq<string>, detected: Option<seq<Scanner>>) returns (details': seq<string>)
    ensures details' == details + DetectedLines(detected)
  {
    if detected.Some? && |detected.value| > 0 {
      var scanners := detected.value;
      details' := details + ["- Detected scanners:", Separator];
      ghost var start := details';
      for i := 0 to |scanners|
        invariant details' == start + ScannerBlocks(scanners[..i])
      {
        var block := ScannerBlock(i + 1, scanners[i]);
        ScannerBlocksStep(scanners, i);
        Associative(start, ScannerBlocks(scanners[..i]), block);
        details' := details' + block;
      }
      assert scanners[..|scanners|] == scanners;
    } else {
      details' := details + ["- Detected scanners: None"];
    }
  }

  /** The selected-scanner section. */
  method AppendSelected(details: seq<string>, selected: Option<Scanner>) returns (details': seq<string>)
    ensures details' == details + SelectedLines(selected)
  {
    if selected.Some? {
      details' := details + ["- Selected scanner:"];
      details' := details' + [GetScannerDetails(selected.value)];
    } else {
      details' := details + ["- Selected scanner: Null."];
    }
  }

  /** The foreach over the command results. */
  method AppendCommands(details: seq<string>, results: seq<CommandResult>) returns (details': seq<string>)
    ensures details' == details + CommandLines(results)
  {
    details' := details;
    for i := 0 to |results|
      invariant details' == details + CommandLines(results[..i])
    {
      assert results[..i + 1][..i] == results[..i];
      details' := details' + [GetCommandResultDetails(results[i])];
    }
    assert results[..|results|] == results;
  }

  // ---------------------------------------------------------------- constructors

  /** The parameterless constructor: a success with an empty message, an
      empty scanner list, no selection and an empty command list. */
  function Default(): (d: DiagnosticsResult)
    ensures d.success && d.message == ""
    ensures d.detectedScanners == Some([]) && d.selectedScanner.None?
    ensures d.commandResults == Some([])
  {
    DiagnosticsResult(true, "", Some([]), None, Some([]))
  }

  /** The four-argument constructor: the arguments are stored and the
      command list keeps its initial, empty value. */
  function WithoutCommands(success: bool, message: string, detectedScanners: Option<seq<Scanner>>, selectedScanner: Option<Scanner>): (d: DiagnosticsResult)
    ensures d.success == success && d.message == message
    ensures d.detectedScanners == detectedScanners && d.selectedScanner == selectedScanner
    ensures d.commandResults == Some([])
  {
    DiagnosticsResult(success, message, detectedScanners, selectedScanner, Some([]))
  }

  /** The five-argument constructor: every argument is stored, a null
      command list included. */
  function WithCommands(success: bool, message: string, detectedScanners: Option<seq<Scanner>>, selectedScanner: Option<Scanner>, commandResults: Option<seq<CommandResult>>): (d: DiagnosticsResult)
    ensures d.success == success && d.message == message
    ensures d.detectedScanners == detectedScanners && d.selectedScanner == selectedScanner
    ensures d.commandResults == commandResults
  {
    DiagnosticsResult(success, message, detectedScanners, selectedScanner, commandResults)
  }

  // ---------------------------------------------------------------- the report

  /** bool.ToString(). */
  function BoolText(b: bool): string
  {
    if b then "True" else "False"
  }

  /** new string('-', 50). */
  const Separator: string := "--------------------------------------------------"

  function HeaderLines(d: DiagnosticsResult): seq<string>
  {
    ["Diagnostics result details:", "- Success: " + BoolText(d.success), "- Message: " + d.message]
  }

  /** The three lines appended about the n-th detected scanner, counting
      from 1: its number, its details and a separator. */
  function ScannerBlock(n: int, s: Scanner): seq<string>
  {
    ["Scanner " + IntToDecimal(n) + ":", GetScannerDetails(s), Separator]
  }

  /** The numbered blocks of a list of scanners. */
  function ScannerBlocks(scanners: seq<Scanner>): seq<string>
  {
    if scanners == [] then []
    else ScannerBlocks(scanners[..|scanners| - 1]) + ScannerBlock(|scanners|, scanners[|scanners| - 1])
  }

  lemma Associative(a: seq<string>, b: seq<string>, c: seq<string>)
    ensures a + b + c == a + (b + c)
  {
  }

  lemma ScannerBlocksStep(scanners: seq<Scanner>, i: nat)
    requires i < |scanners|
    ensures ScannerBlocks(scanners[..i + 1]) == ScannerBlocks(scanners[..i]) + ScannerBlock(i + 1, scanners[i])
  {
    assert scanners[..i + 1][..i] == scanners[..i];
  }

  function DetectedLines(detected: Option<seq<Scanner>>): seq<string>
  {
    if detected.Some? && |detected.value| > 0 then ["- Detected scanners:", Separator] + ScannerBlocks(detected.value)
    else ["- Detected scanners: None"]
  }

  function SelectedLines(selected: Option<Scanner>): seq<string>
  {
    if selected.Some? then ["- Selected scanner:", GetScannerDetails(selected.value)]
    else ["- Selected scanner: Null."]
  }

  /** One block per command result, in list order. */
  function CommandLines(results: seq<CommandResult>): seq<string>
  {
    if results == [] then []
    else CommandLines(results[..|results| - 1]) + [GetCommandResultDetails(results[|results| - 1])]
  }

  lemma {:induction false} CommandLinesSpec(results: seq<CommandResult>)
    ensures |CommandLines(results)| == |results|
    ensures forall i :: 0 <= i < |results| ==> CommandLines(results)[i] == GetCommandResultDetails(results[i])
  {
    if results != [] {
      var front := results[..|results| - 1];
      CommandLinesSpec(front);
      forall i | 0 <= i < |results| - 1
        ensures CommandLines(results)[i] == GetCommandResultDetails(results[i])
      {
        assert front[i] == results[i];
      }
    }
  }

  /** The lines of the report, or the error its loop over a null command
      list raises. */
  function ReportLines(d: DiagnosticsResult): Result<seq<string>, Error>
  {
    if d.commandResults.None? then Err(NullReference)
    else Ok(HeaderLines(d) + DetectedLines(d.detectedScanners) + SelectedLines(d.selectedScanner)
            + ["Executed commands:"] + CommandLines(d.commandResults.value))
  }

  /** The text of the report: each line ends with a line break. */
  function Report(d: DiagnosticsResult): Result<string, Error>
  {
    if d.commandResults.None? then Err(NullReference) else Ok(Lines(ReportLines(d).value))
  }

  // ---------------------------------------------------------------- properties

  /** The report fails exactly when the command list is null. */
  lemma ReportFailsOnNullCommands(d: DiagnosticsResult)
    ensures Report(d).Err? <==> d.commandResults.None?
    ensures Report(d).Err? ==> Report(d).error == NullReference
    ensures ReportLines(d).Ok? <==> Report(d).Ok?
  {
  }

  /** The report of a default result. */
  lemma DefaultReport()
    ensures Report(Default()) == Ok(Lines([
      "Diagnostics result details:", "- Success: True", "- Message: ",
      "- Detected scanners: None", "- Selected scanner: Null.", "Executed commands:"]))
  {
    var d := Default();
    assert "- Success: " + BoolText(true) == "- Success: True";
    assert "- Message: " + "" == "- Message: ";
    ReportParts(d);
    var ls := ReportLines(d).value;
    assert |ls| == 6;
    assert ls == ["Diagnostics result details:", "- Success: True", "- Message: ",
      "- Detected scanners: None", "- Selected scanner: Null.", "Executed commands:"] by {
      assert ls[3 + 0] == "- Detected scanners: None";
      assert ls[4 + 0] == "- Selected scanner: Null.";
    }
  }

  /** Where each of five consecutive parts sits in their concatenation. */
  lemma {:induction false} Parts(all: seq<string>, a: seq<string>, b: seq<string>, c: seq<string>, d: seq<string>, e: seq<string>)
    requires all == a + b + c + d + e
    ensures |all| == |a| + |b| + |c| + |d| + |e|
    ensures forall k :: 0 <= k < |a| ==> all[k] == a[k]
    ensures forall k :: 0 <= k < |b| ==> all[|a| + k] == b[k]
    ensures forall k :: 0 <= k < |c| ==> all[|a| + |b| + k] == c[k]
    ensures forall k :: 0 <= k < |d| ==> all[|a| + |b| + |c| + k] == d[k]
    ensures forall k :: 0 <= k < |e| ==> all[|a| + |b| + |c| + |d| + k] == e[k]
  {
    var ab := a + b;
    var abc := ab + c;
    var abcd := abc + d;
    forall k | 0 <= k < |b| ensures all[|a| + k] == b[k] {
      assert all[|a| + k] == abcd[|a| + k] == abc[|a| + k] == ab[|a| + k];
    }
    forall k | 0 <= k < |c| ensures all[|a| + |b| + k] == c[k] {
      assert all[|a| + |b| + k] == abcd[|a| + |b| + k] == abc[|a| + |b| + k];
    }
    forall k | 0 <= k < |d| ensures all[|a| + |b| + |c| + k] == d[k] {
      assert all[|a| + |b| + |c| + k] == abcd[|a| + |b| + |c| + k];
    }
  }

  /** The sections of the report, one after the other. */
  lemma ReportParts(d: DiagnosticsResult)
    requires d.commandResults.Some?
    ensures var ls := ReportLines(d).value;
      var det := DetectedLines(d.detectedScanners);
      var sel := SelectedLines(d.selectedScanner);
      var cmd := CommandLines(d.commandResults.value);
      |ls| == 3 + |det| + |sel| + 1 + |cmd|
      && ls[0] == "Diagnostics result details:" && ls[1] == "- Success: " + BoolText(d.success)
      && ls[2] == "- Message: " + d.message
      && (forall k :: 0 <= k < |det| ==> ls[3 + k] == det[k])
      && (forall k :: 0 <= k < |sel| ==> ls[3 + |det| + k] == sel[k])
      && ls[3 + |det| + |sel|] == "Executed commands:"
      && (forall k :: 0 <= k < |cmd| ==> ls[3 + |det| + |sel| + 1 + k] == cmd[k])
  {
    Parts(ReportLines(d).value, HeaderLines(d), DetectedLines(d.detectedScanners), SelectedLines(d.selectedScanner),
      ["Executed commands:"], CommandLines(d.commandResults.value));
  }

  /** Three lines per scanner: its number from 1, its details and a
      separator, in list order. */
  lemma {:induction false} ScannerBlocksSpec(scanners: seq<Scanner>)
    ensures |ScannerBlocks(scanners)| == 3 * |scanners|
    ensures forall i :: 0 <= i < |scanners| ==>
      ScannerBlocks(scanners)[3 * i..3 * i + 3] == ["Scanner " + IntToDecimal(i + 1) + ":", GetScannerDetails(scanners[i]), Separator]
  {
    if scanners != [] {
      var n := |scanners|;
      var front := scanners[..n - 1];
      ScannerBlocksSpec(front);
      var a := ScannerBlocks(front);
      var b := ScannerBlock(n, scanners[n - 1]);
      assert ScannerBlocks(scanners) == a + b;
      forall i | 0 <= i < n
        ensures (a + b)[3 * i..3 * i + 3] == ["Scanner " + IntToDecimal(i + 1) + ":", GetScannerDetails(scanners[i]), Separator]
      {
        if i < n - 1 {
          assert (a + b)[3 * i..3 * i + 3] == a[3 * i..3 * i + 3];
          assert front[i] == scanners[i];
        } else {
          assert (a + b)[3 * i..3 * i + 3] == b;
        }
      }
    }
  }

  /** The fourth line says "None" exactly when the scanner list is null or
      empty. */
  lemma DetectedNone(d: DiagnosticsResult)
    requires d.commandResults.Some?
    ensures |ReportLines(d).value| > 3
    ensures ReportLines(d).value[3] == "- Detected scanners: None"
      <==> d.detectedScanners.None? || d.detectedScanners.value == []
  {
    ReportParts(d);
    var det := DetectedLines(d.detectedScanners);
    assert ReportLines(d).value[3] == det[0];
    if d.detectedScanners.Some? && d.detectedScanners.value != [] {
      assert |det[0]| != |"- Detected scanners: None"|;
    }
  }

  /** With scanners detected, a heading and a separator come first and then
      the numbered block of each scanner. */
  lemma DetectedBlocks(d: DiagnosticsResult)
    requires d.commandResults.Some? && d.detectedScanners.Some? && d.detectedScanners.value != []
    ensures var ls := ReportLines(d).value;
      var blocks := ScannerBlocks(d.detectedScanners.value);
      5 + |blocks| <= |ls| && ls[3] == "- Detected scanners:" && ls[4] == Separator
      && forall k :: 0 <= k < |blocks| ==> ls[5 + k] == blocks[k]
  {
    ReportParts(d);
    Shifted(ReportLines(d).value, DetectedLines(d.detectedScanners), "- Detected scanners:", Separator,
      ScannerBlocks(d.detectedScanners.value));
  }

  /** Lines copied from position 3 on, where the copied list starts with
      two given lines. */
  lemma {:induction false} Shifted(ls: seq<string>, det: seq<string>, heading: string, separator: string, blocks: seq<string>)
    requires det == [heading, separator] + blocks
    requires 3 + |det| <= |ls| && forall k :: 0 <= k < |det| ==> ls[3 + k] == det[k]
    ensures 5 + |blocks| <= |ls| && ls[3] == heading && ls[4] == separator
    ensures forall k :: 0 <= k < |blocks| ==> ls[5 + k] == blocks[k]
  {
    assert ls[3 + 0] == det[0] && ls[3 + 1] == det[1];
    forall k | 0 <= k < |blocks| ensures ls[5 + k] == blocks[k] {
      assert ls[3 + (k + 2)] == det[k + 2];
    }
  }

  /** Where the selected-scanner section starts. */
  function SelectedAt(d: DiagnosticsResult): nat
  {
    3 + |DetectedLines(d.detectedScanners)|
  }

  /** The selected-scanner line says "Null." exactly when nothing is
      selected; otherwise the selected scanner's details follow it. */
  lemma SelectedSection(d: DiagnosticsResult)
    requires d.commandResults.Some?
    ensures var ls := ReportLines(d).value;
      var k := SelectedAt(d);
      k + 1 < |ls|
      && (ls[k] == "- Selected scanner: Null." <==> d.selectedScanner.None?)
      && (d.selectedScanner.Some? ==> ls[k] == "- Selected scanner:" && ls[k + 1] == GetScannerDetails(d.selectedScanner.value))
  {
    ReportParts(d);
    var ls := ReportLines(d).value;
    var sel := SelectedLines(d.selectedScanner);
    var k := SelectedAt(d);
    assert ls[k + 0] == sel[0];
    if d.selectedScanner.Some? {
      assert ls[k + 1] == sel[1];
      assert |sel[0]| != |"- Selected scanner: Null."|;
    }
  }

  /** The report ends with the heading of the command section followed by
      one block per command result, in list order. */
  lemma CommandSection(d: DiagnosticsResult)
    requires d.commandResults.Some?
    ensures var ls := ReportLines(d).value;
      var results := d.commandResults.value;
      |ls| > |results|
      && ls[|ls| - |results| - 1] == "Executed commands:"
      && forall i :: 0 <= i < |results| ==> ls[|ls| - |results| + i] == GetCommandResultDetails(results[i])
  {
    var results := d.commandResults.value;
    var front := HeaderLines(d) + DetectedLines(d.detectedScanners) + SelectedLines(d.selectedScanner) + ["Executed commands:"];
    CommandLinesSpec(results);
    Tail(ReportLines(d).value, front, CommandLines(results));
  }

  /** Where the last part of a concatenation sits. */
  lemma Tail(all: seq<string>, front: seq<string>, e: seq<string>)
    requires all == front + e && |front| > 0
    ensures |all| == |front| + |e| && all[|front| - 1] == front[|front| - 1]
    ensures forall i :: 0 <= i < |e| ==> all[|front| + i] == e[i]
  {
  }

  /** Where the first of five parts sits. */
  lemma LeadingPart(all: seq<string>, a: seq<string>, b: seq<string>, c: seq<string>, d: seq<string>, e: seq<string>)
    requires all == a + b + c + d + e
    ensures |all| >= |a| && all[..|a|] == a
  {
    assert all == a + (b + c + d + e);
  }

  /** The success line reads True exactly for a successful result. */
  lemma SuccessLine(success: bool)
    ensures "- Success: " + BoolText(success) == "- Success: True" <==> success
  {
    if !success {
      assert |"- Success: " + BoolText(success)| != |"- Success: True"|;
    }
  }

  /** The first three lines: the title, the success flag and the message. */
  lemma HeaderSection(d: DiagnosticsResult)
    requires d.commandResults.Some?
    ensures var ls := ReportLines(d).value;
      |ls| > 3
      && ls[0] == "Diagnostics result details:"
      && (ls[1] == "- Success: True" <==> d.success)
      && ls[2] == "- Message: " + d.message
  {
    var ls := ReportLines(d).value;
    var h := HeaderLines(d);
    LeadingPart(ls, h, DetectedLines(d.detectedScanners), SelectedLines(d.selectedScanner), ["Executed commands:"],
      CommandLines(d.commandResults.value));
    assert ls[0] == ls[..3][0] && ls[1] == ls[..3][1] && ls[2] == ls[..3][2];
    SuccessLine(d.success);
  }
}
