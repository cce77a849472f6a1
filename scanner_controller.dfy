/** QRScanner/controller/ScannerController.cs: the connection to the SDK,
    the detected and selected scanners, the commands sent to the selected
    scanner, and the barcode events passed on to listeners. */
module ScannerControllerModel {
  import opened Wrappers
  import opened Text
  import opened Errors
  import opened CommonDefs
  import opened XmlDom
  import opened ScannerModel
  import opened XmlReader
  import opened CommandResultModel
  import opened BarcodeEvent
  import opened CoreScannerSdk

  const OpenCommandName: string := "Open CoreScanner."
  const CloseCommandName: string := "Close CoreScanner."
  const GetScannersCommandName: string := "Get Scanners."

  /** The application handle and scanner types passed to Open: 1 is all types. */
  const AppHandle: int := 0
  const AllScannerTypes: seq<int> := [1]

  // ---------------------------------------------------------------- request payloads

  const IdPrefix: string := "<inArgs><scannerID>"
  const IdSuffix: string := "</scannerID>"
  const InArgsOpen: string := "<inArgs>"
  const InArgsClose: string := "</inArgs>"

  /** A payload addressed to one scanner: the opening tags, the decimal ID,
      and what follows it. */
  function Addressed(scannerId: Int32, tail: string): string
  {
    IdPrefix + IntToDecimal(scannerId) + tail
  }

  /** The payload of Claim, Release, EnableScan and each disable: the
      scanner ID alone. */
  function ScannerPayload(scannerId: Int32): string
  {
    Addressed(scannerId, IdSuffix + InArgsClose)
  }

  /** The payload of SET_ACTION (TurnLED, BeepScanner): the scanner ID and
      one integer argument, written as given. */
  function ActionPayload(scannerId: Int32, actionValue: string): string
  {
    Addressed(scannerId, IdSuffix + "<cmdArgs><arg-int>" + actionValue + "</arg-int></cmdArgs>" + InArgsClose)
  }

  /** The payload RebootScanner builds as written: the closing `</inArgs>`
      is missing. */
  function RebootPayloadAsWritten(scannerId: Int32): string
  {
    Addressed(scannerId, IdSuffix)
  }

  /** The payload RebootScanner evidently means, the same as every other
      single-scanner command. */
  function RebootPayload(scannerId: Int32): string
  {
    ScannerPayload(scannerId)
  }

  /** The event registration payload: six events, the ids 1, 2, 4, 8, 16, 32. */
  const RegisterPayload: string :=
    InArgsOpen + "<cmdArgs><arg-int>" + "6" + "</arg-int><arg-int>" + "1,2,4,8,16,32" + "</arg-int></cmdArgs>" + InArgsClose

  /** The LED action: 43 turns the green LED on, 42 off. */
  function LedAction(on: bool): string
  {
    if on then "43" else "42"
  }

  /** The scanner a payload addresses: the integer between the leading
      `<inArgs><scannerID>` and the next '<'. */
  function TargetId(inXml: string): Option<Int32>
  {
    if !StartsWith(inXml, IdPrefix) then None
    else
      var rest := inXml[|IdPrefix|..];
      ParseInt32(rest[..IndexOf(rest, '<')])
  }

  /** A payload that opens `<inArgs>` and closes it at the end. */
  predicate ClosesInArgs(inXml: string)
  {
    StartsWith(inXml, InArgsOpen) && |inXml| >= |InArgsClose| && inXml[|inXml| - |InArgsClose|..] == InArgsClose
  }

  lemma {:induction false} TargetOfAddressed(scannerId: Int32, tail: string)
    requires |tail| > 0 && tail[0] == '<'
    ensures TargetId(Addressed(scannerId, tail)) == Some(scannerId)
  {
    var d := IntToDecimal(scannerId);
    var s := Addressed(scannerId, tail);
    assert s[..|IdPrefix|] == IdPrefix;
    var rest := s[|IdPrefix|..];
    assert rest == d + tail;
    assert rest[|d|] == '<';
    assert forall j :: 0 <= j < |d| ==> rest[j] == d[j] && d[j] != '<';
    assert IndexOf(rest, '<') == |d|;
    assert rest[..|d|] == d;
    Int32RoundTrip(scannerId);
  }

  /** Every single-scanner payload addresses the scanner whose ID it was
      built from, whatever the action value. */
  lemma PayloadsTargetScanner(scannerId: Int32, actionValue: string)
    ensures TargetId(ScannerPayload(scannerId)) == Some(scannerId)
    ensures TargetId(ActionPayload(scannerId, actionValue)) == Some(scannerId)
    ensures TargetId(RebootPayloadAsWritten(scannerId)) == Some(scannerId)
    ensures TargetId(RebootPayload(scannerId)) == Some(scannerId)
  {
    TargetOfAddressed(scannerId, IdSuffix + InArgsClose);
    TargetOfAddressed(scannerId, IdSuffix + "<cmdArgs><arg-int>" + actionValue + "</arg-int></cmdArgs>" + InArgsClose);
    TargetOfAddressed(scannerId, IdSuffix);
  }

  lemma {:induction false} ClosedByInArgs(scannerId: Int32, tail: string)
    ensures ClosesInArgs(Addressed(scannerId, tail + InArgsClose))
  {
    var d := IntToDecimal(scannerId);
    assert IdPrefix == InArgsOpen + "<scannerID>";
    Regroup(InArgsOpen, "<scannerID>", d, tail, InArgsClose);
    Bracketed(InArgsOpen, "<scannerID>" + d + tail, InArgsClose);
  }

  /** Moving the parentheses of a five-part text. */
  lemma Regroup(opening: string, tag: string, d: string, tail: string, closing: string)
    ensures (opening + tag) + d + (tail + closing) == opening + (tag + d + tail) + closing
  {
  }

  /** A text made of an opening, a middle and a closing starts with the
      opening and ends with the closing. */
  lemma Bracketed(opening: string, middle: string, closing: string)
    ensures var s := opening + middle + closing;
      StartsWith(s, opening) && |s| >= |closing| && s[|s| - |closing|..] == closing
  {
    var s := opening + middle + closing;
    assert s[..|opening|] == opening;
    assert s[|s| - |closing|..] == closing;
  }

  /** Every payload the controller sends closes `<inArgs>`, the corrected
      reboot payload included. */
  lemma PayloadsAreClosed(scannerId: Int32, actionValue: string)
    ensures ClosesInArgs(ScannerPayload(scannerId))
    ensures ClosesInArgs(ActionPayload(scannerId, actionValue))
    ensures ClosesInArgs(RebootPayload(scannerId))
    ensures ClosesInArgs(RegisterPayload)
  {
    ClosedByInArgs(scannerId, IdSuffix);
    ClosedByInArgs(scannerId, IdSuffix + "<cmdArgs><arg-int>" + actionValue + "</arg-int></cmdArgs>");
    assert RegisterPayload[..|InArgsOpen|] == InArgsOpen;
    assert RegisterPayload[|RegisterPayload| - |InArgsClose|..] == InArgsClose;
  }

  /** The reboot payload as written never closes `<inArgs>`: it ends with
      `</scannerID>`. */
  lemma RebootPayloadAsWrittenIsUnclosed(scannerId: Int32)
    ensures !ClosesInArgs(RebootPayloadAsWritten(scannerId))
  {
    var s := RebootPayloadAsWritten(scannerId);
    assert s[|s| - |InArgsClose|] == IdSuffix[|IdSuffix| - |InArgsClose|] == 'c';
  }

  /** The registration payload sends the number of event types and their
      values, in order, separated by commas. */
  lemma RegisterPayloadListsEventTypes()
    ensures RegisterPayload ==
      InArgsOpen + "<cmdArgs><arg-int>" + IntToDecimal(|AllEventTypes|) + "</arg-int><arg-int>"
      + Join(EventIdTexts(), ",") + "</arg-int></cmdArgs>" + InArgsClose
  {
    assert IntToDecimal(6) == "6";
    EventIdTextsValues();
    JoinEventIds(EventIdTexts());
  }

  /** The event ids in decimal. */
  lemma EventIdTextsValues()
    ensures EventIdTexts() == ["1", "2", "4", "8", "16", "32"]
  {
    EventTypesArePowersOfTwo();
    assert IntToDecimal(1) == "1" && IntToDecimal(2) == "2" && IntToDecimal(4) == "4";
    assert IntToDecimal(8) == "8" && IntToDecimal(16) == "16" && IntToDecimal(32) == "32";
  }

  /** The event ids joined with commas. */
  lemma JoinEventIds(ids: seq<string>)
    requires ids == ["1", "2", "4", "8", "16", "32"]
    ensures Join(ids, ",") == "1,2,4,8,16,32"
  {
    assert Join(ids[5..], ",") == "32";
    assert Join(ids[4..], ",") == "16,32" by { assert ids[4..][1..] == ids[5..]; }
    assert Join(ids[3..], ",") == "8,16,32" by { assert ids[3..][1..] == ids[4..]; }
    assert Join(ids[2..], ",") == "4,8,16,32" by { assert ids[2..][1..] == ids[3..]; }
    assert Join(ids[1..], ",") == "2,4,8,16,32" by { assert ids[1..][1..] == ids[2..]; }
  }

  /** The decimal value of each event type, in declaration order. */
  function EventIdTexts(): (ids: seq<string>)
    ensures |ids| == |AllEventTypes|
  {
    seq(|AllEventTypes|, i requires 0 <= i < |AllEventTypes| => IntToDecimal(AllEventTypes[i].Value()))
  }

  // ---------------------------------------------------------------- commands

  /** ValidateScanner: a null scanner is SelectedScannerIsNullException. */
  function ValidateScanner(scanner: Option<Scanner>): (r: Outcome<Error>)
    ensures r.Fail? <==> scanner.None?
    ensures r.Fail? ==> r.error == SelectedScannerIsNull
  {
    if scanner.None? then Fail(SelectedScannerIsNull) else Pass
  }

  /** What ExecuteCommand makes of the SDK's reply: a result named after
      the opcode, thrown as CommandExecutionFailedException unless its
      status is 0. */
  function ExecResult(opcodeName: int -> string, opcode: int, inXml: string, reply: SdkReply): Result<CommandResult, Error>
  {
    var result := FromReply(opcodeName(opcode), reply.status, reply.outXml);
    if result.status != 0 then Err(CommandExecutionFailed(opcode, inXml, result.statusMessage))
    else Ok(result)
  }

  /** A command fails exactly when the SDK's status is not 0, and the
      failure carries the opcode, the payload and the status's message; a
      command that succeeds carries the generic success message and the
      SDK's output XML. */
  lemma {:induction false} ExecResultSpec(opcodeName: int -> string, opcode: int, inXml: string, reply: SdkReply)
    ensures ExecResult(opcodeName, opcode, inXml, reply).Err? <==> reply.status != 0
    ensures reply.status != 0 ==>
      ExecResult(opcodeName, opcode, inXml, reply) == Err(CommandExecutionFailed(opcode, inXml, HandleStatus(reply.status)))
    ensures reply.status == 0 ==>
      var r := ExecResult(opcodeName, opcode, inXml, reply).value;
      r.IsSuccessful() && r.statusMessage == SuccessMessage && r.outXml == reply.outXml
      && r.commandName == opcodeName(opcode)
  {
    SuccessStatusMessage();
  }

  /** The result of the i-th call of a history, read as a command. */
  function CallOutcome(opcodeName: int -> string, respond: seq<SdkCall> -> SdkReply, calls: seq<SdkCall>, i: nat)
    : Result<CommandResult, Error>
    requires i < |calls| && calls[i].ExecCommand?
  {
    ExecResult(opcodeName, calls[i].opcode, calls[i].inXml, respond(calls[..i + 1]))
  }

  /** Later calls do not change the result of an earlier one. */
  lemma CallOutcomeOfPrefix(opcodeName: int -> string, respond: seq<SdkCall> -> SdkReply,
                            calls: seq<SdkCall>, more: seq<SdkCall>, i: nat)
    requires i < |calls| && calls[i].ExecCommand?
    ensures CallOutcome(opcodeName, respond, calls + more, i) == CallOutcome(opcodeName, respond, calls, i)
  {
    assert (calls + more)[..i + 1] == calls[..i + 1];
  }

  /** The SDK call that disables one scanner. */
  function DisableCall(scanner: Scanner): SdkCall
  {
    ExecCommand(SCAN_DISABLE, ScannerPayload(scanner.scannerId))
  }

  /** One call per scanner, in list order. */
  function CallsFor(call: Scanner -> SdkCall, scanners: seq<Scanner>): (cs: seq<SdkCall>)
    ensures |cs| == |scanners|
    ensures forall k :: 0 <= k < |scanners| ==> cs[k] == call(scanners[k])
  {
    seq(|scanners|, k requires 0 <= k < |scanners| => call(scanners[k]))
  }

  /** What one disable call makes of the SDK's reply for one scanner. */
  function DisableStep(opcodeName: int -> string): (Scanner, SdkReply) -> Result<CommandResult, Error>
  {
    (scanner: Scanner, reply: SdkReply) => ExecResult(opcodeName, SCAN_DISABLE, ScannerPayload(scanner.scannerId), reply)
  }

  /** What DisableScanForAllScanners does from a history of calls, for any
      call `call` made per scanner and any reading `step` of its reply: one
      call per scanner in list order, each result appended to `results`,
      stopping at the first command that fails. Returns the history after
      the calls and the outcome. */
  function DisableRun(step: (Scanner, SdkReply) -> Result<CommandResult, Error>, call: Scanner -> SdkCall,
                      respond: seq<SdkCall> -> SdkReply,
                      calls: seq<SdkCall>, scanners: seq<Scanner>, results: seq<CommandResult>)
    : (seq<SdkCall>, Result<seq<CommandResult>, Error>)
    decreases |scanners|
  {
    if scanners == [] then (calls, Ok(results))
    else
      var next := calls + [call(scanners[0])];
      match step(scanners[0], respond(next))
      case Err(e) => (next, Err(e))
      case Ok(result) => DisableRun(step, call, respond, next, scanners[1..], results + [result])
  }

  /** The history after the first m + 1 calls is the history after the
      first one followed by the next m. */
  lemma CallsForCons(call: Scanner -> SdkCall, calls: seq<SdkCall>, scanners: seq<Scanner>, m: nat)
    requires m < |scanners|
    ensures calls + CallsFor(call, scanners[..m + 1])
         == (calls + [call(scanners[0])]) + CallsFor(call, scanners[1..][..m])
  {
    assert CallsFor(call, scanners[..m + 1]) == [call(scanners[0])] + CallsFor(call, scanners[1..][..m]);
  }

  /** The calls a disable run makes: the calls of a prefix of the scanners,
      all of them when it succeeds, and at least one when it fails. */
  lemma {:induction false} DisableRunCalls(step: (Scanner, SdkReply) -> Result<CommandResult, Error>,
                                           call: Scanner -> SdkCall, respond: seq<SdkCall> -> SdkReply,
                                           calls: seq<SdkCall>, scanners: seq<Scanner>, results: seq<CommandResult>)
    ensures var (after, r) := DisableRun(step, call, respond, calls, scanners, results);
      var n := |after| - |calls|;
      0 <= n <= |scanners| && after == calls + CallsFor(call, scanners[..n])
      && (r.Ok? ==> n == |scanners|)
      && (r.Err? ==> n > 0)
    decreases |scanners|
  {
    if scanners != [] {
      var next := calls + [call(scanners[0])];
      var first := step(scanners[0], respond(next));
      if first.Ok? {
        DisableRunCalls(step, call, respond, next, scanners[1..], results + [first.value]);
        var (after, r) := DisableRun(step, call, respond, next, scanners[1..], results + [first.value]);
        CallsForCons(call, calls, scanners, |after| - |next|);
      } else {
        assert CallsFor(call, scanners[..1]) == [call(scanners[0])];
      }
    }
  }

  /** How `step` reads the reply to the call for scanners[j], made after
      `calls` and the calls for the scanners before it. */
  function Answer(step: (Scanner, SdkReply) -> Result<CommandResult, Error>, call: Scanner -> SdkCall,
                  respond: seq<SdkCall> -> SdkReply,
                  calls: seq<SdkCall>, scanners: seq<Scanner>, j: nat): Result<CommandResult, Error>
    requires j < |scanners|
  {
    step(scanners[j], respond(calls + CallsFor(call, scanners[..j + 1])))
  }

  /** The answer for scanners[j] is the answer for the (j - 1)-th of the
      rest, once the first call is part of the history. */
  lemma AnswerOfRest(step: (Scanner, SdkReply) -> Result<CommandResult, Error>, call: Scanner -> SdkCall,
                     respond: seq<SdkCall> -> SdkReply, calls: seq<SdkCall>, scanners: seq<Scanner>, j: nat)
    requires 0 < j < |scanners|
    ensures Answer(step, call, respond, calls, scanners, j)
         == Answer(step, call, respond, calls + [call(scanners[0])], scanners[1..], j - 1)
  {
    CallsForCons(call, calls, scanners, j);
    assert scanners[j] == scanners[1..][j - 1];
    assert scanners[1..][..j] == scanners[1..][..j - 1 + 1];
  }

  /** The first answer is the reading of the first call's reply. */
  lemma AnswerOfFirst(step: (Scanner, SdkReply) -> Result<CommandResult, Error>, call: Scanner -> SdkCall,
                      respond: seq<SdkCall> -> SdkReply, calls: seq<SdkCall>, scanners: seq<Scanner>)
    requires 0 < |scanners|
    ensures Answer(step, call, respond, calls, scanners, 0) == step(scanners[0], respond(calls + [call(scanners[0])]))
  {
    assert CallsFor(call, scanners[..1]) == [call(scanners[0])];
  }

  /** The results of a successful disable run: the earlier results
      followed by what each scanner's call returned, in order. */
  lemma {:induction false} DisableRunOk(step: (Scanner, SdkReply) -> Result<CommandResult, Error>,
                                        call: Scanner -> SdkCall, respond: seq<SdkCall> -> SdkReply,
                                        calls: seq<SdkCall>, scanners: seq<Scanner>, results: seq<CommandResult>)
    ensures var r := DisableRun(step, call, respond, calls, scanners, results).1;
      r.Ok? ==>
        |r.value| == |results| + |scanners| && r.value[..|results|] == results
        && forall j :: 0 <= j < |scanners| ==> Answer(step, call, respond, calls, scanners, j) == Ok(r.value[|results| + j])
    decreases |scanners|
  {
    if scanners != [] {
      var next := calls + [call(scanners[0])];
      var first := step(scanners[0], respond(next));
      if first.Ok? {
        var more := results + [first.value];
        DisableRunOk(step, call, respond, next, scanners[1..], more);
        var r := DisableRun(step, call, respond, next, scanners[1..], more).1;
        if r.Ok? {
          AnswerOfFirst(step, call, respond, calls, scanners);
          forall j | 1 <= j < |scanners|
            ensures Answer(step, call, respond, calls, scanners, j) == Ok(r.value[|results| + j])
          {
            AnswerOfRest(step, call, respond, calls, scanners, j);
            assert |results| + j == |more| + (j - 1);
          }
          assert r.value[..|results|] == results by {
            assert r.value[..|results|] == r.value[..|more|][..|results|];
          }
          assert r.value[|results|] == first.value by {
            assert r.value[|results|] == r.value[..|more|][|results|];
          }
        }
      }
    }
  }

  /** A failed disable run: the calls before the last succeeded and the
      error is what the last call returned. */
  lemma {:induction false} DisableRunErr(step: (Scanner, SdkReply) -> Result<CommandResult, Error>,
                                         call: Scanner -> SdkCall, respond: seq<SdkCall> -> SdkReply,
                                         calls: seq<SdkCall>, scanners: seq<Scanner>, results: seq<CommandResult>)
    ensures var (after, r) := DisableRun(step, call, respond, calls, scanners, results);
      var n := |after| - |calls|;
      r.Err? ==>
        0 < n <= |scanners| && Answer(step, call, respond, calls, scanners, n - 1) == Err(r.error)
        && forall j :: 0 <= j < n - 1 ==> Answer(step, call, respond, calls, scanners, j).Ok?
    decreases |scanners|
  {
    DisableRunCalls(step, call, respond, calls, scanners, results);
    if scanners != [] {
      var next := calls + [call(scanners[0])];
      var first := step(scanners[0], respond(next));
      AnswerOfFirst(step, call, respond, calls, scanners);
      if first.Ok? {
        var more := results + [first.value];
        DisableRunErr(step, call, respond, next, scanners[1..], more);
        var (after, r) := DisableRun(step, call, respond, next, scanners[1..], more);
        var n := |after| - |next|;
        if r.Err? {
          forall j | 1 <= j < n
            ensures Answer(step, call, respond, calls, scanners, j).Ok?
          {
            AnswerOfRest(step, call, respond, calls, scanners, j);
          }
          AnswerOfRest(step, call, respond, calls, scanners, n);
        }
      }
    }
  }

  /** One step of a disable run from the i-th scanner, given how `step`
      read the reply to its call. */
  lemma DisableRunUnfold(step: (Scanner, SdkReply) -> Result<CommandResult, Error>, call: Scanner -> SdkCall,
                         respond: seq<SdkCall> -> SdkReply,
                         calls: seq<SdkCall>, scanners: seq<Scanner>, i: nat, results: seq<CommandResult>,
                         result: Result<CommandResult, Error>)
    requires i < |scanners|
    requires result == step(scanners[i], respond(calls + [call(scanners[i])]))
    ensures result.Err? ==>
      DisableRun(step, call, respond, calls, scanners[i..], results) == (calls + [call(scanners[i])], Err(result.error))
    ensures result.Ok? ==>
      DisableRun(step, call, respond, calls, scanners[i..], results)
      == DisableRun(step, call, respond, calls + [call(scanners[i])], scanners[i + 1..], results + [result.value])
  {
    assert scanners[i..][0] == scanners[i];
    assert scanners[i..][1..] == scanners[i + 1..];
  }

  /** Reading a disable call's reply with DisableStep gives that call's
      command outcome. */
  lemma DisableStepOutcome(opcodeName: int -> string, respond: seq<SdkCall> -> SdkReply,
                           calls: seq<SdkCall>, scanner: Scanner)
    ensures var next := calls + [DisableCall(scanner)];
      DisableStep(opcodeName)(scanner, respond(next)) == CallOutcome(opcodeName, respond, next, |calls|)
  {
    var next := calls + [DisableCall(scanner)];
    assert next[..|calls| + 1] == next;
  }

  /** One pass of DisableScanForAllScanners' loop: the call it made and
      the outcome it read are the next step of the disable run. */
  lemma DisableStepTaken(opcodeName: int -> string, respond: seq<SdkCall> -> SdkReply,
                         before: seq<SdkCall>, calls: seq<SdkCall>, scanners: seq<Scanner>, i: nat,
                         results: seq<CommandResult>, result: Result<CommandResult, Error>)
    requires i < |scanners|
    requires calls == before + [ExecCommand(SCAN_DISABLE, ScannerPayload(scanners[i].scannerId))]
    requires result == CallOutcome(opcodeName, respond, calls, |before|)
    ensures result.Err? ==>
      DisableRun(DisableStep(opcodeName), DisableCall, respond, before, scanners[i..], results) == (calls, Err(result.error))
    ensures result.Ok? ==>
      DisableRun(DisableStep(opcodeName), DisableCall, respond, before, scanners[i..], results)
      == DisableRun(DisableStep(opcodeName), DisableCall, respond, calls, scanners[i + 1..], results + [result.value])
  {
    DisableStepOutcome(opcodeName, respond, before, scanners[i]);
    DisableRunUnfold(DisableStep(opcodeName), DisableCall, respond, before, scanners, i, results, result);
  }

  /** What DetectScannersAndSelection makes of the GetScanners reply, from
      the detected and selected scanners before the call: the result, and
      the detected and selected scanners after it. A failed status or an
      unreadable listing is an error; the listing replaces the detected
      scanners, and the first scanner is selected when none is. */
  function Detection(reply: SdkReply, detected: seq<Scanner>, selected: Option<Scanner>)
    : (Result<CommandResult, Error>, seq<Scanner>, Option<Scanner>)
  {
    var result := FromDetection(GetScannersCommandName, reply.status, reply.outXml, reply.numberOfScanners);
    if result.status != 0 then (Err(ScannersDetectionFailed(reply.status)), detected, selected)
    else match AllScanners(result.outXml)
      case Err(e) => (Err(e), detected, selected)
      case Ok(all) =>
        if selected.Some? then (Ok(result), all, selected)
        else match result.GetFirstScannerDetected()
          case Err(e) => (Err(e), all, selected)
          case Ok(first) => (Ok(result), all, Some(first))
  }

  /** Detection fails exactly when the status is not 0 or the listing is
      unreadable or empty, and then it changes nothing; when it succeeds the
      detected scanners are the whole non-empty listing, the selection is
      kept when there is one and is the first listed scanner otherwise, and
      the result carries the SDK's status, output and count. */
  lemma DetectionSpec(reply: SdkReply, detected: seq<Scanner>, selected: Option<Scanner>)
    ensures var (r, detected', selected') := Detection(reply, detected, selected);
      var listing := AllScanners(reply.outXml);
      (reply.status != 0 ==> r == Err(ScannersDetectionFailed(reply.status)))
      && (reply.status == 0 && listing.Err? ==> r == Err(listing.error))
      && (r.Ok? <==> reply.status == 0 && listing.Ok?)
      && (r.Err? ==> detected' == detected && selected' == selected)
      && (r.Ok? ==>
            r.value == FromDetection(GetScannersCommandName, 0, reply.outXml, reply.numberOfScanners)
            && detected' == listing.value && |detected'| > 0
            && selected' == (if selected.Some? then selected else Some(listing.value[0])))
  {
    FirstIsHeadOfAll(reply.outXml);
  }

  /** The index of the first scanner with the given ID, or |scanners|. */
  function IndexOfScanner(scanners: seq<Scanner>, scannerId: Int32): (i: nat)
    ensures i <= |scanners|
    ensures i < |scanners| ==> scanners[i].scannerId == scannerId
    ensures forall j :: 0 <= j < i ==> scanners[j].scannerId != scannerId
  {
    if scanners == [] then 0
    else if scanners[0].scannerId == scannerId then 0
    else 1 + IndexOfScanner(scanners[1..], scannerId)
  }

  // ---------------------------------------------------------------- barcode events

  /** What BarcodeEventHandler reads from a notification before building
      the event: the first `datatype` as an integer (int.Parse) and the
      first `datalabel`. An unparsable notification, a missing element or a
      non-integer data type is an exception. */
  function BarcodeEventData(barcodeData: BarcodeXml): Result<(Int32, string), Error>
  {
    match barcodeData.fields
    case None => Err(MalformedXml)
    case Some(fields) =>
      if fields.dataType.None? then Err(MalformedBarcodeEvent)
      else match ParseInt32(fields.dataType.value)
        case None => Err(MalformedBarcodeEvent)
        case Some(dataType) =>
          if fields.dataLabel.None? then Err(MalformedBarcodeEvent)
          else Ok((dataType, fields.dataLabel.value))
  }

  /** A notification raises an event exactly when it reads and its label
      decodes. */
  predicate RaisesEvent(barcodeData: BarcodeXml)
  {
    BarcodeEventData(barcodeData).Ok? && DecodeLabel(Some(BarcodeEventData(barcodeData).value.1)).Ok?
  }

  /** A notification whose label is blank or has a doubled space never
      raises an event. */
  lemma BadLabelRaisesNothing(barcodeData: BarcodeXml, k: nat)
    requires BarcodeEventData(barcodeData).Ok?
    requires var text := BarcodeEventData(barcodeData).value.1;
      IsBlank(text) || (k + 1 < |text| && text[k] == ' ' && text[k + 1] == ' ')
    ensures !RaisesEvent(barcodeData)
  {
    var text := BarcodeEventData(barcodeData).value.1;
    if !IsBlank(text) {
      DoubledSpaceFails(text, k);
    }
  }

  class ScannerController {
    /** The SDK instance the controller owns. */
    const sdk: CoreScanner
    /** OpcodesHandler.HandleOpcode, the name of each opcode. */
    const opcodeName: int -> string
    var IsOpen: bool
    var DetectedScanners: seq<Scanner>
    var SelectedScanner: Option<Scanner>
    /** The BarcodeScanned events raised, in order. */
    var raisedEvents: seq<BarcodeScannedEventArgs>

    /** The handler is attached to the SDK's BarcodeEvent exactly while the
        connection is open. */
    predicate Valid()
      reads this, sdk
    {
      sdk.barcodeHandlers == if IsOpen then 1 else 0
    }

    constructor (respond: seq<SdkCall> -> SdkReply, opcodeName: int -> string)
      ensures fresh(sdk) && sdk.respond == respond && sdk.calls == []
      ensures this.opcodeName == opcodeName
      ensures !IsOpen && DetectedScanners == [] && SelectedScanner.None? && raisedEvents == []
      ensures Valid()
    {
      sdk := new CoreScanner(respond);
      this.opcodeName := opcodeName;
      IsOpen := false;
      DetectedScanners := [];
      SelectedScanner := None;
      raisedEvents := [];
    }

    /** The result of the i-th SDK call, read as a command. */
    function CommandOutcome(i: nat): Result<CommandResult, Error>
      requires i < |sdk.calls| && sdk.calls[i].ExecCommand?
      reads this, sdk
    {
      CallOutcome(opcodeName, sdk.respond, sdk.calls, i)
    }

    /** OpenCoreScannerAPI: nothing to do when already open; otherwise one
        Open call, and the connection is open exactly when its status is 0. */
    method OpenCoreScannerAPI() returns (r: Result<CommandResult, Error>)
      requires Valid()
      modifies this, sdk
      ensures Valid()
      ensures DetectedScanners == old(DetectedScanners) && SelectedScanner == old(SelectedScanner)
      ensures raisedEvents == old(raisedEvents)
      ensures old(IsOpen) ==> IsOpen && sdk.calls == old(sdk.calls) && r == Ok(FromStatus(OpenCommandName, 0))
      ensures !old(IsOpen) ==>
        sdk.calls == old(sdk.calls) + [Open(AppHandle, AllScannerTypes)]
        && var status := sdk.Reply(|sdk.calls| - 1).status;
        (IsOpen <==> status == 0)
        && (status == 0 ==> r == Ok(FromStatus(OpenCommandName, 0)))
        && (status != 0 ==> r == Err(FailedToOpenCoreScannerAPI(status)))
    {
      if IsOpen {
        return Ok(FromStatus(OpenCommandName, 0));
      }
      var reply := sdk.Call(Open(AppHandle, AllScannerTypes));
      var result := FromStatus(OpenCommandName, reply.status);
      if result.status != 0 {
        return Err(FailedToOpenCoreScannerAPI(reply.status));
      }
      IsOpen := true;
      sdk.AddBarcodeHandler();
      return Ok(result);
    }

    /** CloseCoreScannerAPI: an error without an SDK call when not open;
        otherwise one Close call, and the connection stays open unless its
        status is 0. */
    method CloseCoreScannerAPI() returns (r: Result<CommandResult, Error>)
      requires Valid()
      modifies this, sdk
      ensures Valid()
      ensures DetectedScanners == old(DetectedScanners) && SelectedScanner == old(SelectedScanner)
      ensures raisedEvents == old(raisedEvents)
      ensures !old(IsOpen) ==> !IsOpen && sdk.calls == old(sdk.calls) && r == Err(FailedToCloseCoreScannerAPI(None))
      ensures old(IsOpen) ==>
        sdk.calls == old(sdk.calls) + [Close(AppHandle)]
        && var status := sdk.Reply(|sdk.calls| - 1).status;
        (IsOpen <==> status != 0)
        && (status == 0 ==> r == Ok(FromStatus(CloseCommandName, 0)))
        && (status != 0 ==> r == Err(FailedToCloseCoreScannerAPI(Some(status))))
    {
      if !IsOpen {
        return Err(FailedToCloseCoreScannerAPI(None));
      }
      var reply := sdk.Call(Close(AppHandle));
      var result := FromStatus(CloseCommandName, reply.status);
      if result.status != 0 {
        return Err(FailedToCloseCoreScannerAPI(Some(reply.status)));
      }
      IsOpen := false;
      sdk.RemoveBarcodeHandler();
      return Ok(result);
    }

    /** DetectScannersAndSelection: one GetScanners call, whose reply
        Detection reads. */
    method DetectScannersAndSelection() returns (r: Result<CommandResult, Error>)
      requires Valid()
      modifies this, sdk
      ensures Valid() && IsOpen == old(IsOpen) && raisedEvents == old(raisedEvents)
      ensures sdk.calls == old(sdk.calls) + [GetScanners]
      ensures (r, DetectedScanners, SelectedScanner)
           == Detection(sdk.Reply(|sdk.calls| - 1), old(DetectedScanners), old(SelectedScanner))
    {
      var reply := sdk.Call(GetScanners);
      var result := FromDetection(GetScannersCommandName, reply.status, reply.outXml, reply.numberOfScanners);
      if result.status != 0 {
        return Err(ScannersDetectionFailed(reply.status));
      }
      var all := result.GetAllScanners();
      if all.Err? {
        return Err(all.error);
      }
      DetectedScanners := all.value;
      if SelectedScanner.None? {
        var first := result.GetFirstScannerDetected();
        if first.Err? {
          return Err(first.error);
        }
        SelectedScanner := Some(first.value);
      }
      return Ok(result);
    }

    /** RegisterForAllEvents: one REGISTER_FOR_EVENTS (or
        UNREGISTER_FOR_EVENTS) command with every event type. */
    method RegisterForAllEvents(register: bool) returns (r: Result<CommandResult, Error>)
      requires Valid()
      modifies sdk
      ensures Valid()
      ensures sdk.calls == old(sdk.calls) +
        [ExecCommand(if register then REGISTER_FOR_EVENTS else UNREGISTER_FOR_EVENTS, RegisterPayload)]
      ensures r == CommandOutcome(|sdk.calls| - 1)
    {
      var opcode := if register then REGISTER_FOR_EVENTS else UNREGISTER_FOR_EVENTS;
      r := ExecuteCommand(opcode, RegisterPayload);
    }

    /** SelectScannerById: with nothing selected the ID cannot be compared
        (a NullReferenceException); the selected ID is refused; otherwise the
        first detected scanner with that ID is selected, if there is one. */
    method SelectScannerById(scannerId: Int32) returns (outcome: Outcome<Error>)
      modifies this
      ensures IsOpen == old(IsOpen) && DetectedScanners == old(DetectedScanners)
      ensures raisedEvents == old(raisedEvents)
      ensures old(SelectedScanner).None? ==> outcome == Fail(NullReference)
      ensures old(SelectedScanner).Some? && old(SelectedScanner).value.scannerId == scannerId ==>
        outcome == Fail(ScannerAlreadySelected(scannerId))
      ensures old(SelectedScanner).Some? && old(SelectedScanner).value.scannerId != scannerId ==>
        var i := IndexOfScanner(DetectedScanners, scannerId);
        (i == |DetectedScanners| ==> outcome == Fail(ScannerNotFound(scannerId)))
        && (i < |DetectedScanners| ==> outcome == Pass && SelectedScanner == Some(DetectedScanners[i]))
      ensures outcome.Fail? ==> SelectedScanner == old(SelectedScanner)
    {
      if SelectedScanner.None? {
        return Fail(NullReference);
      }
      if SelectedScanner.value.scannerId == scannerId {
        return Fail(ScannerAlreadySelected(scannerId));
      }
      var i := IndexOfScanner(DetectedScanners, scannerId);
      if i == |DetectedScanners| {
        return Fail(ScannerNotFound(scannerId));
      }
      SelectedScanner := Some(DetectedScanners[i]);
      return Pass;
    }

    /** RebootScanner, sending the corrected payload. */
    method RebootScanner() returns (r: Result<CommandResult, Error>)
      requires Valid()
      modifies sdk
      ensures Valid()
      ensures SelectedScanner.None? ==> r == Err(SelectedScannerIsNull) && sdk.calls == old(sdk.calls)
      ensures SelectedScanner.Some? ==>
        sdk.calls == old(sdk.calls) + [ExecCommand(REBOOT_SCANNER, RebootPayload(SelectedScanner.value.scannerId))]
        && r == CommandOutcome(|sdk.calls| - 1)
    {
      var valid := ValidateScanner(SelectedScanner);
      if valid.Fail? {
        return Err(valid.error);
      }
      r := ExecuteCommand(REBOOT_SCANNER, RebootPayload(SelectedScanner.value.scannerId));
    }

    /** ClaimScanner: CLAIM_DEVICE or RELEASE_DEVICE for the selected scanner. */
    method ClaimScanner(claim: bool) returns (r: Result<CommandResult, Error>)
      requires Valid()
      modifies sdk
      ensures Valid()
      ensures SelectedScanner.None? ==> r == Err(SelectedScannerIsNull) && sdk.calls == old(sdk.calls)
      ensures SelectedScanner.Some? ==>
        sdk.calls == old(sdk.calls) +
          [ExecCommand(if claim then CLAIM_DEVICE else RELEASE_DEVICE, ScannerPayload(SelectedScanner.value.scannerId))]
        && r == CommandOutcome(|sdk.calls| - 1)
    {
      var valid := ValidateScanner(SelectedScanner);
      if valid.Fail? {
        return Err(valid.error);
      }
      var opcode := if claim then CLAIM_DEVICE else RELEASE_DEVICE;
      r := ExecuteCommand(opcode, ScannerPayload(SelectedScanner.value.scannerId));
    }

    /** EnableScan: SCAN_ENABLE or SCAN_DISABLE for the selected scanner. */
    method EnableScan(enable: bool) returns (r: Result<CommandResult, Error>)
      requires Valid()
      modifies sdk
      ensures Valid()
      ensures SelectedScanner.None? ==> r == Err(SelectedScannerIsNull) && sdk.calls == old(sdk.calls)
      ensures SelectedScanner.Some? ==>
        sdk.calls == old(sdk.calls) +
          [ExecCommand(if enable then SCAN_ENABLE else SCAN_DISABLE, ScannerPayload(SelectedScanner.value.scannerId))]
        && r == CommandOutcome(|sdk.calls| - 1)
    {
      var valid := ValidateScanner(SelectedScanner);
      if valid.Fail? {
        return Err(valid.error);
      }
      var opcode := if enable then SCAN_ENABLE else SCAN_DISABLE;
      r := ExecuteCommand(opcode, ScannerPayload(SelectedScanner.value.scannerId));
    }

    /** DisableScanForAllScanners: an error when nothing is detected;
        otherwise the disable run over the detected scanners. */
    method DisableScanForAllScanners() returns (r: Result<seq<CommandResult>, Error>)
      requires Valid()
      modifies sdk
      ensures Valid()
      ensures DetectedScanners == [] ==> r == Err(NoScannersFound) && sdk.calls == old(sdk.calls)
      ensures DetectedScanners != [] ==>
        (sdk.calls, r) == DisableRun(DisableStep(opcodeName), DisableCall, sdk.respond, old(sdk.calls), DetectedScanners, [])
    {
      var scanners := DetectedScanners;
      if |scanners| == 0 {
        return Err(NoScannersFound);
      }
      var results: seq<CommandResult> := [];
      ghost var run := DisableRun(DisableStep(opcodeName), DisableCall, sdk.respond, sdk.calls, scanners, []);
      for i := 0 to |scanners|
        invariant Valid()
        invariant run == DisableRun(DisableStep(opcodeName), DisableCall, sdk.respond, sdk.calls, scanners[i..], results)
      {
        ghost var before := sdk.calls;
        var result := ExecuteCommand(SCAN_DISABLE, ScannerPayload(scanners[i].scannerId));
        DisableStepTaken(opcodeName, sdk.respond, before, sdk.calls, scanners, i, results, result);
        if result.Err? {
          return Err(result.error);
        }
        results := results + [result.value];
      }
      return Ok(results);
    }

    /** TurnLED: SET_ACTION with the green LED's on or off action. */
    method TurnLED(on: bool) returns (r: Result<CommandResult, Error>)
      requires Valid()
      modifies sdk
      ensures Valid()
      ensures SelectedScanner.None? ==> r == Err(SelectedScannerIsNull) && sdk.calls == old(sdk.calls)
      ensures SelectedScanner.Some? ==>
        sdk.calls == old(sdk.calls) + [ExecCommand(SET_ACTION, ActionPayload(SelectedScanner.value.scannerId, LedAction(on)))]
        && r == CommandOutcome(|sdk.calls| - 1)
    {
      var valid := ValidateScanner(SelectedScanner);
      if valid.Fail? {
        return Err(valid.error);
      }
      r := ExecuteCommand(SET_ACTION, ActionPayload(SelectedScanner.value.scannerId, LedAction(on)));
    }

    /** BeepScanner: SET_ACTION with the given action value, unchecked. */
    method BeepScanner(actionValue: string) returns (r: Result<CommandResult, Error>)
      requires Valid()
      modifies sdk
      ensures Valid()
      ensures SelectedScanner.None? ==> r == Err(SelectedScannerIsNull) && sdk.calls == old(sdk.calls)
      ensures SelectedScanner.Some? ==>
        sdk.calls == old(sdk.calls) + [ExecCommand(SET_ACTION, ActionPayload(SelectedScanner.value.scannerId, actionValue))]
        && r == CommandOutcome(|sdk.calls| - 1)
    {
      var valid := ValidateScanner(SelectedScanner);
      if valid.Fail? {
        return Err(valid.error);
      }
      r := ExecuteCommand(SET_ACTION, ActionPayload(SelectedScanner.value.scannerId, actionValue));
    }

    /** ExecuteCommand: one ExecCommand call, its reply read as a command. */
    method ExecuteCommand(opcode: int, inXml: string) returns (r: Result<CommandResult, Error>)
      requires Valid()
      modifies sdk
      ensures Valid()
      ensures sdk.calls == old(sdk.calls) + [ExecCommand(opcode, inXml)]
      ensures r == CallOutcome(opcodeName, sdk.respond, sdk.calls, |old(sdk.calls)|)
    {
      var reply := sdk.Call(ExecCommand(opcode, inXml));
      var result := FromReply(opcodeName(opcode), reply.status, reply.outXml);
      if result.status != 0 {
        return Err(CommandExecutionFailed(opcode, inXml, result.statusMessage));
      }
      return Ok(result);
    }

    /** BarcodeEventHandler: reads the notification, builds the event
        arguments and raises BarcodeScanned; every exception on the way is
        swallowed, and then nothing is raised. */
    method BarcodeEventHandler(eventType: int, barcodeData: BarcodeXml)
      modifies this
      ensures IsOpen == old(IsOpen) && DetectedScanners == old(DetectedScanners)
      ensures SelectedScanner == old(SelectedScanner)
      ensures !RaisesEvent(barcodeData) ==> raisedEvents == old(raisedEvents)
      ensures RaisesEvent(barcodeData) ==>
        var data := BarcodeEventData(barcodeData).value;
        |raisedEvents| == |old(raisedEvents)| + 1 && raisedEvents[..|old(raisedEvents)|] == old(raisedEvents)
        && fresh(raisedEvents[|old(raisedEvents)|])
        && raisedEvents[|old(raisedEvents)|].DataType == data.0
        && raisedEvents[|old(raisedEvents)|].DataLabel == Some(data.1)
        && raisedEvents[|old(raisedEvents)|].RawXml == barcodeData.text
        && raisedEvents[|old(raisedEvents)|].DecodedDataLabel == Some(DecodeLabel(Some(data.1)).value)
    {
      var data := BarcodeEventData(barcodeData);
      if data.Err? {
        return;
      }
      var args := BarcodeScannedEventArgs.Create(data.value.0, Some(data.value.1), barcodeData.text);
      if args.Err? {
        return;
      }
      raisedEvents := raisedEvents + [args.value];
    }
  }
}
