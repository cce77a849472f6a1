/** QRScanner/service/QRScannerService.cs: the service an application uses
    to run diagnostics on the scanner and to start and stop scanning. */
module ScannerServiceModel {
  import opened Wrappers
  import opened Text
  import opened Errors
  import opened CommonDefs
  import opened ScannerModel
  import opened XmlReader
  import opened CommandResultModel
  import opened CoreScannerSdk
  import opened ScannerControllerModel
  import opened DiagnosticsResultModel

  /** The state of the task ScanLoopAsync returns. An exception thrown
      before its first await faults the task; awaiting it rethrows. */
  datatype ScanTask = Running | Faulted | Completed

  const CompletedMessage: string := "Diagnostics completed successfully."
  /** The message of the result returned when a step throws. */
  const UnsuccessfulMessage: string := "Diagnostics unsuccessful."

  function UnableMessage(maxAttempts: int): string
  {
    "Unable to detect scanners after " + IntToDecimal(maxAttempts) + " attempts."
  }

  /** The opcodes of the ExecCommand calls in a history, in order. */
  function Opcodes(calls: seq<SdkCall>): seq<int>
  {
    if calls == [] then []
    else Opcodes(calls[..|calls| - 1]) + (if calls[|calls| - 1].ExecCommand? then [calls[|calls| - 1].opcode] else [])
  }

  /** The commands a successful diagnostics run sends, in order. */
  const DiagnosticOpcodes: seq<int> := [REGISTER_FOR_EVENTS, CLAIM_DEVICE, SCAN_DISABLE, SET_ACTION]

  // ---------------------------------------------------------------- detection with retries

  /** What a run of detection attempts leaves: the calls made, the state,
      the number of delays waited and whether a detection succeeded. */
  datatype Retry<S> = Retry(calls: seq<SdkCall>, state: S, delays: nat, found: bool)

  /** Up to k attempts of `call`: the first reply that `succeeds` ends the
      run and updates the state; a failed attempt changes nothing and is
      followed by a delay unless it was the last. */
  function Attempts<S>(succeeds: SdkReply -> bool, update: (SdkReply, S) -> S, respond: seq<SdkCall> -> SdkReply,
                       call: SdkCall, calls: seq<SdkCall>, state: S, k: int): Retry<S>
    decreases k
  {
    if k <= 0 then Retry(calls, state, 0, false)
    else
      var next := calls + [call];
      var reply := respond(next);
      if succeeds(reply) then Retry(next, update(reply, state), 0, true)
      else if k == 1 then Retry(next, state, 0, false)
      else
        var rest := Attempts(succeeds, update, respond, call, next, state, k - 1);
        Retry(rest.calls, rest.state, rest.delays + 1, rest.found)
  }

  /** A run of attempts makes between one and k calls (none when k < 1),
      waits once between two consecutive calls, and stops at the first
      success: every earlier reply failed. Without a success it makes all k
      calls and leaves the state as it was. */
  lemma {:induction false} AttemptsSpec<S>(succeeds: SdkReply -> bool, update: (SdkReply, S) -> S,
                                           respond: seq<SdkCall> -> SdkReply, call: SdkCall,
                                           calls: seq<SdkCall>, state: S, k: int)
    ensures var r := Attempts(succeeds, update, respond, call, calls, state, k);
      |calls| <= |r.calls| && r.calls[..|calls|] == calls
      && (forall j :: |calls| <= j < |r.calls| ==> r.calls[j] == call)
      && (k <= 0 ==> r == Retry(calls, state, 0, false))
      && (k >= 1 ==> 1 <= |r.calls| - |calls| <= k && r.delays == |r.calls| - |calls| - 1)
      && (forall j :: |calls| < j < |r.calls| ==> !succeeds(respond(r.calls[..j])))
      && (r.found <==> |r.calls| > |calls| && succeeds(respond(r.calls)))
      && (!r.found ==> |r.calls| - |calls| == (if k <= 0 then 0 else k) && r.state == state)
      && (r.found ==> r.state == update(respond(r.calls), state))
    decreases k
  {
    var r := Attempts(succeeds, update, respond, call, calls, state, k);
    if k >= 1 {
      var next := calls + [call];
      if !succeeds(respond(next)) && k > 1 {
        AttemptsSpec(succeeds, update, respond, call, next, state, k - 1);
        var rest := Attempts(succeeds, update, respond, call, next, state, k - 1);
        assert r.calls == rest.calls;
        assert r.calls[..|calls|] == rest.calls[..|next|][..|calls|];
        forall j | |calls| < j < |r.calls|
          ensures !succeeds(respond(r.calls[..j]))
        {
          if j == |next| {
            assert r.calls[..j] == rest.calls[..|next|] == next;
          }
        }
      } else {
        assert r.calls == next && next[..|calls|] == calls;
      }
    }
  }

  /** n copies of the same call. */
  function Repeat(call: SdkCall, n: nat): seq<SdkCall>
  {
    seq(n, _ => call)
  }

  /** With every attempt failing, k >= 1 attempts make k calls, wait k - 1
      times, report no scanner and leave the state as it was. */
  lemma {:induction false} AllAttemptsFail<S>(succeeds: SdkReply -> bool, update: (SdkReply, S) -> S,
                                              respond: seq<SdkCall> -> SdkReply, call: SdkCall,
                                              calls: seq<SdkCall>, state: S, k: int)
    requires k >= 1
    requires forall j :: 1 <= j <= k ==> !succeeds(respond(calls + Repeat(call, j)))
    ensures var r := Attempts(succeeds, update, respond, call, calls, state, k);
      !r.found && |r.calls| == |calls| + k && r.delays == k - 1 && r.state == state
    decreases k
  {
    var next := calls + [call];
    assert next == calls + Repeat(call, 1);
    if k > 1 {
      forall j | 1 <= j <= k - 1
        ensures !succeeds(respond(next + Repeat(call, j)))
      {
        assert next + Repeat(call, j) == calls + Repeat(call, j + 1);
      }
      AllAttemptsFail(succeeds, update, respond, call, next, state, k - 1);
    }
  }

  /** When attempt j is the first whose reply succeeds (1 <= j <= k), the
      run makes exactly j calls, waits j - 1 times and reports a scanner. */
  lemma {:induction false} FirstSuccessAt<S>(succeeds: SdkReply -> bool, update: (SdkReply, S) -> S,
                                             respond: seq<SdkCall> -> SdkReply, call: SdkCall,
                                             calls: seq<SdkCall>, state: S, k: int, j: int)
    requires 1 <= j <= k
    requires forall i :: 1 <= i < j ==> !succeeds(respond(calls + Repeat(call, i)))
    requires succeeds(respond(calls + Repeat(call, j)))
    ensures var r := Attempts(succeeds, update, respond, call, calls, state, k);
      r.found && |r.calls| == |calls| + j && r.delays == j - 1
    decreases k
  {
    var next := calls + [call];
    assert next == calls + Repeat(call, 1);
    if j > 1 {
      forall i | 1 <= i < j - 1
        ensures !succeeds(respond(next + Repeat(call, i)))
      {
        assert next + Repeat(call, i) == calls + Repeat(call, i + 1);
      }
      assert next + Repeat(call, j - 1) == calls + Repeat(call, j);
      FirstSuccessAt(succeeds, update, respond, call, next, state, k - 1, j - 1);
    }
  }

  /** What one attempt of the unfolded run does. */
  lemma AttemptsStep<S>(succeeds: SdkReply -> bool, update: (SdkReply, S) -> S, respond: seq<SdkCall> -> SdkReply,
                        call: SdkCall, calls: seq<SdkCall>, state: S, k: int)
    requires k >= 1
    ensures var next := calls + [call];
      var reply := respond(next);
      var r := Attempts(succeeds, update, respond, call, calls, state, k);
      (succeeds(reply) ==> r == Retry(next, update(reply, state), 0, true))
      && (!succeeds(reply) && k == 1 ==> r == Retry(next, state, 0, false))
      && (!succeeds(reply) && k > 1 ==>
            var rest := Attempts(succeeds, update, respond, call, next, state, k - 1);
            r == Retry(rest.calls, rest.state, rest.delays + 1, rest.found))
  {
  }

  /** A GetScanners reply DetectScannersAndSelection accepts. */
  predicate DetectionSucceeds(reply: SdkReply)
  {
    reply.status == 0 && AllScanners(reply.outXml).Ok?
  }

  /** The detected and selected scanners after a reply: an accepted listing
      replaces the detected scanners and, when none is selected, selects the
      first of them; any other reply changes nothing. */
  function DetectionUpdate(reply: SdkReply, scanners: (seq<Scanner>, Option<Scanner>)): (seq<Scanner>, Option<Scanner>)
  {
    if !DetectionSucceeds(reply) then scanners
    else
      var listing := AllScanners(reply.outXml).value;
      (listing, if scanners.1.Some? || |listing| == 0 then scanners.1 else Some(listing[0]))
  }

  /** A detection succeeds exactly on an accepted reply, and only then
      changes the scanners. */
  lemma DetectionAttempt(reply: SdkReply, detected: seq<Scanner>, selected: Option<Scanner>)
    ensures var (r, detected', selected') := Detection(reply, detected, selected);
      (r.Ok? <==> DetectionSucceeds(reply))
      && (r.Err? ==> detected' == detected && selected' == selected)
      && (r.Ok? ==> (detected', selected') == DetectionUpdate(reply, (detected, selected)) && selected'.Some?)
  {
    DetectionSpec(reply, detected, selected);
  }

  // ---------------------------------------------------------------- ScanLoopAsync before its first await

  datatype SetupRun = SetupRun(calls: seq<SdkCall>, task: ScanTask)

  /** The beep ("1") and the scan enabling ScanLoopAsync sends to the
      selected scanner before its loop, and the state of the task: a command
      whose status is not 0 throws, which faults the task and skips what
      follows. */
  function LoopSetup(respond: seq<SdkCall> -> SdkReply, selected: Option<Scanner>, calls: seq<SdkCall>): SetupRun
  {
    if selected.None? then SetupRun(calls, Faulted)
    else
      var id := selected.value.scannerId;
      var beep := calls + [ExecCommand(SET_ACTION, ActionPayload(id, "1"))];
      if respond(beep).status != 0 then SetupRun(beep, Faulted)
      else
        var enable := beep + [ExecCommand(SCAN_ENABLE, ScannerPayload(id))];
        if respond(enable).status != 0 then SetupRun(enable, Faulted)
        else SetupRun(enable, Running)
  }

  /** The commands ScanLoopAsync sends, in order. */
  function SetupCommands(id: Int32): seq<SdkCall>
  {
    [ExecCommand(SET_ACTION, ActionPayload(id, "1")), ExecCommand(SCAN_ENABLE, ScannerPayload(id))]
  }

  /** The setup sends a prefix of the beep and the enabling, the enabling
      only after a successful beep; the loop runs exactly when both were sent
      and succeeded, and is faulted otherwise. */
  lemma LoopSetupSpec(respond: seq<SdkCall> -> SdkReply, selected: Option<Scanner>, calls: seq<SdkCall>)
    ensures var run := LoopSetup(respond, selected, calls);
      run.task != Completed
      && (selected.None? ==> run == SetupRun(calls, Faulted))
      && (selected.Some? ==>
            var full := calls + SetupCommands(selected.value.scannerId);
            (run.calls == full[..|calls| + 1] || run.calls == full)
            && (run.calls == full ==> respond(full[..|calls| + 1]).status == 0)
            && (run.task == Running <==> run.calls == full && respond(full).status == 0))
  {
    if selected.Some? {
      var id := selected.value.scannerId;
      var full := calls + SetupCommands(id);
      assert full[..|calls| + 1] == calls + [ExecCommand(SET_ACTION, ActionPayload(id, "1"))];
      assert full == full[..|calls| + 1] + [ExecCommand(SCAN_ENABLE, ScannerPayload(id))];
    }
  }

  // ---------------------------------------------------------------- StopScanningAsync after the await

  datatype StopRun = StopRun(calls: seq<SdkCall>, stopped: bool, isOpen: bool)

  /** The commands StopScanningAsync sends once the loop has ended: disable
      scanning, beep ("6"), then close the connection. A command whose
      status is not 0 throws, which skips what follows and makes the stop
      report false; closing a connection that is not open throws too. */
  function StopSteps(respond: seq<SdkCall> -> SdkReply, selected: Option<Scanner>, wasOpen: bool, calls: seq<SdkCall>): StopRun
  {
    if selected.None? then StopRun(calls, false, wasOpen)
    else
      var id := selected.value.scannerId;
      var disable := calls + [ExecCommand(SCAN_DISABLE, ScannerPayload(id))];
      if respond(disable).status != 0 then StopRun(disable, false, wasOpen)
      else
        var beep := disable + [ExecCommand(SET_ACTION, ActionPayload(id, "6"))];
        if respond(beep).status != 0 then StopRun(beep, false, wasOpen)
        else if !wasOpen then StopRun(beep, false, false)
        else
          var close := beep + [Close(AppHandle)];
          var status := respond(close).status;
          StopRun(close, status == 0, status != 0)
  }

  function StopCommands(id: Int32): seq<SdkCall>
  {
    [ExecCommand(SCAN_DISABLE, ScannerPayload(id)), ExecCommand(SET_ACTION, ActionPayload(id, "6")), Close(AppHandle)]
  }

  /** The stop sends a prefix of disable, beep and close, each only after
      the one before it succeeded, and succeeds exactly when all three were
      sent and the close succeeded, which leaves the connection closed; a
      failed stop leaves the connection as it was. */
  lemma StopStepsSpec(respond: seq<SdkCall> -> SdkReply, selected: Option<Scanner>, wasOpen: bool, calls: seq<SdkCall>)
    ensures var run := StopSteps(respond, selected, wasOpen, calls);
      (selected.None? ==> run == StopRun(calls, false, wasOpen))
      && (selected.Some? ==>
            var full := calls + StopCommands(selected.value.scannerId);
            |calls| < |run.calls| <= |full| && run.calls == full[..|run.calls|]
            && (|run.calls| > |calls| + 1 ==> respond(full[..|calls| + 1]).status == 0)
            && (|run.calls| > |calls| + 2 ==> respond(full[..|calls| + 2]).status == 0 && wasOpen)
            && (run.stopped <==> run.calls == full && respond(full).status == 0)
            && (run.stopped ==> !run.isOpen)
            && (!run.stopped ==> run.isOpen == wasOpen))
  {
    if selected.Some? {
      var id := selected.value.scannerId;
      var disable := calls + [ExecCommand(SCAN_DISABLE, ScannerPayload(id))];
      var beep := disable + [ExecCommand(SET_ACTION, ActionPayload(id, "6"))];
      var full := calls + StopCommands(id);
      assert full == beep + [Close(AppHandle)];
      assert full[..|calls| + 1] == disable && full[..|calls| + 2] == beep && full[..|full|] == full;
    }
  }

  /** A command the controller reports for the last call of a history fails
      exactly when the SDK's status for that call is not 0. */
  lemma CommandStatus(opcodeName: int -> string, respond: seq<SdkCall> -> SdkReply, calls: seq<SdkCall>,
                      r: Result<CommandResult, Error>)
    requires |calls| > 0 && calls[|calls| - 1].ExecCommand?
    requires r == CallOutcome(opcodeName, respond, calls, |calls| - 1)
    ensures r.Ok? <==> respond(calls).status == 0
  {
    assert calls[..|calls|] == calls;
    var last := calls[|calls| - 1];
    ExecResultSpec(opcodeName, last.opcode, last.inXml, respond(calls));
  }

  // ---------------------------------------------------------------- opcodes of a history

  lemma {:induction false} OpcodesAppend(a: seq<SdkCall>, b: seq<SdkCall>)
    ensures Opcodes(a + b) == Opcodes(a) + Opcodes(b)
    decreases |b|
  {
    if b != [] {
      var b' := b[..|b| - 1];
      var last := b[|b| - 1];
      var tail := if last.ExecCommand? then [last.opcode] else [];
      assert (a + b)[..|a + b| - 1] == a + b';
      assert (a + b)[|a + b| - 1] == last;
      assert Opcodes(a + b) == Opcodes(a + b') + tail;
      assert Opcodes(b) == Opcodes(b') + tail;
      OpcodesAppend(a, b');
      assert Opcodes(a) + Opcodes(b') + tail == Opcodes(a) + (Opcodes(b') + tail);
    } else {
      assert a + b == a;
    }
  }

  /** A history without ExecCommand calls has no opcodes. */
  lemma {:induction false} NoOpcodes(calls: seq<SdkCall>)
    requires forall j :: 0 <= j < |calls| ==> !calls[j].ExecCommand?
    ensures Opcodes(calls) == []
  {
    if calls != [] {
      NoOpcodes(calls[..|calls| - 1]);
    }
  }

  lemma OpcodesStep(made: seq<SdkCall>, opcode: int, inXml: string)
    ensures Opcodes(made + [ExecCommand(opcode, inXml)]) == Opcodes(made) + [opcode]
  {
    assert (made + [ExecCommand(opcode, inXml)])[..|made|] == made;
  }

  /** Only the calls after `mid` contribute opcodes when those between
      `start` and `mid` contribute none. */
  lemma OpcodesOfPhases(start: seq<SdkCall>, mid: seq<SdkCall>, end: seq<SdkCall>)
    requires |start| <= |mid| <= |end| && end[..|mid|] == mid
    requires Opcodes(mid[|start|..]) == []
    ensures Opcodes(end[|start|..]) == Opcodes(end[|mid|..])
  {
    assert end[|start|..] == mid[|start|..] + end[|mid|..];
    OpcodesAppend(mid[|start|..], end[|mid|..]);
  }

  /** A prefix of a prefix is a prefix, and the calls between the two
      shorter histories keep their places. */
  lemma Prefixes(start: seq<SdkCall>, mid: seq<SdkCall>, end: seq<SdkCall>)
    requires |start| <= |mid| <= |end| && mid[..|start|] == start && end[..|mid|] == mid
    ensures end[..|start|] == start
    ensures |start| < |mid| ==> end[|start|] == mid[|start|]
  {
    assert end[..|start|] == end[..|mid|][..|start|];
    if |start| < |mid| {
      assert end[|start|] == end[..|mid|][|start|];
    }
  }

  // ---------------------------------------------------------------- the commands of RunDiagnostics

  /** The commands RunDiagnostics sends once a scanner is selected, in order:
      register for events, claim it, disable its scanning, beep ("20"). */
  function DiagnosticCommandCalls(id: Int32): seq<SdkCall>
  {
    [ExecCommand(REGISTER_FOR_EVENTS, RegisterPayload), ExecCommand(CLAIM_DEVICE, ScannerPayload(id)),
     ExecCommand(SCAN_DISABLE, ScannerPayload(id)), ExecCommand(SET_ACTION, ActionPayload(id, "20"))]
  }

  /** The history after the commands and how many of them succeeded. */
  datatype DiagnosticRun = DiagnosticRun(calls: seq<SdkCall>, succeeded: nat)

  /** Four commands sent in order; a status that is not 0 throws and skips
      the rest. */
  function FourSteps(respond: seq<SdkCall> -> SdkReply, cmds: seq<SdkCall>, calls: seq<SdkCall>): DiagnosticRun
    requires |cmds| == 4
  {
    var c1 := calls + [cmds[0]];
    if respond(c1).status != 0 then DiagnosticRun(c1, 0)
    else
      var c2 := c1 + [cmds[1]];
      if respond(c2).status != 0 then DiagnosticRun(c2, 1)
      else
        var c3 := c2 + [cmds[2]];
        if respond(c3).status != 0 then DiagnosticRun(c3, 2)
        else
          var c4 := c3 + [cmds[3]];
          if respond(c4).status != 0 then DiagnosticRun(c4, 3)
          else DiagnosticRun(c4, 4)
  }

  /** The commands RunDiagnostics sends once a scanner is selected. */
  function DiagnosticSteps(respond: seq<SdkCall> -> SdkReply, id: Int32, calls: seq<SdkCall>): DiagnosticRun
  {
    FourSteps(respond, DiagnosticCommandCalls(id), calls)
  }

  /** The commands go out in order, each after the one before succeeded:
      the run sends the first n + 1 of them when the (n + 1)-th fails and
      all four when none does. */
  lemma FourStepsSpec(respond: seq<SdkCall> -> SdkReply, cmds: seq<SdkCall>, calls: seq<SdkCall>)
    requires |cmds| == 4
    ensures var run := FourSteps(respond, cmds, calls);
      var sent := |run.calls| - |calls|;
      run.succeeded <= 4 && sent == (if run.succeeded == 4 then 4 else run.succeeded + 1)
      && run.calls == calls + cmds[..sent]
      && (forall j :: |calls| < j <= |calls| + run.succeeded ==> respond(run.calls[..j]).status == 0)
      && (run.succeeded < 4 ==> respond(run.calls).status != 0)
  {
    var run := FourSteps(respond, cmds, calls);
    var full := calls + cmds;
    var c1 := full[..|calls| + 1];
    var c2 := full[..|calls| + 2];
    var c3 := full[..|calls| + 3];
    assert c1 == calls + [cmds[0]] && c2 == c1 + [cmds[1]] && c3 == c2 + [cmds[2]] && full == c3 + [cmds[3]];
    var sent: nat;
    if respond(c1).status != 0 {
      sent := 1;
    } else if respond(c2).status != 0 {
      sent := 2;
    } else if respond(c3).status != 0 {
      sent := 3;
    } else {
      sent := 4;
      assert full[..|calls| + 4] == full;
    }
    assert run.calls == full[..|calls| + sent];
    forall j | |calls| < j <= |calls| + run.succeeded
      ensures respond(run.calls[..j]).status == 0
    {
      assert run.calls[..j] == full[..j];
    }
    assert run.calls == calls + cmds[..sent];
  }

  /** Commands that are ExecCommand calls with the given opcodes carry
      those opcodes, prefix by prefix. */
  lemma {:induction false} OpcodesOfCommands(cmds: seq<SdkCall>, ops: seq<int>, m: nat)
    requires m <= |cmds| == |ops|
    requires forall i :: 0 <= i < |cmds| ==> cmds[i].ExecCommand? && cmds[i].opcode == ops[i]
    ensures Opcodes(cmds[..m]) == ops[..m]
  {
    if m > 0 {
      var last := cmds[m - 1];
      assert last.ExecCommand? && last.opcode == ops[m - 1];
      OpcodesOfCommands(cmds, ops, m - 1);
      assert cmds[..m] == cmds[..m - 1] + [ExecCommand(last.opcode, last.inXml)];
      OpcodesStep(cmds[..m - 1], last.opcode, last.inXml);
      assert ops[..m] == ops[..m - 1] + [ops[m - 1]];
    }
  }

  /** The diagnostic commands go out in that order, each after the one
      before succeeded, so the opcodes sent are always a prefix of the
      diagnostic opcodes. */
  lemma DiagnosticStepsSpec(respond: seq<SdkCall> -> SdkReply, id: Int32, calls: seq<SdkCall>)
    ensures var run := DiagnosticSteps(respond, id, calls);
      var sent := |run.calls| - |calls|;
      run.succeeded <= 4 && sent == (if run.succeeded == 4 then 4 else run.succeeded + 1)
      && run.calls == calls + DiagnosticCommandCalls(id)[..sent]
      && (forall j :: |calls| < j <= |calls| + run.succeeded ==> respond(run.calls[..j]).status == 0)
      && (run.succeeded < 4 ==> respond(run.calls).status != 0)
      && Opcodes(run.calls[|calls|..]) == DiagnosticOpcodes[..sent]
  {
    var run := DiagnosticSteps(respond, id, calls);
    var cmds := DiagnosticCommandCalls(id);
    FourStepsSpec(respond, cmds, calls);
    var sent := |run.calls| - |calls|;
    assert run.calls[|calls|..] == cmds[..sent];
    OpcodesOfCommands(cmds, DiagnosticOpcodes, sent);
  }

  /** The history of a diagnostics run that reached the commands: what was
      there before is kept, and the opcodes sent are the diagnostic ones up
      to the first failure, all of them when at most the final beep
      failed. */
  lemma DiagnosticHistory(start: seq<SdkCall>, afterDetect: seq<SdkCall>, respond: seq<SdkCall> -> SdkReply,
                          id: Int32, end: seq<SdkCall>, succeeded: nat)
    requires |start| <= |afterDetect| && afterDetect[..|start|] == start
    requires Opcodes(afterDetect[|start|..]) == []
    requires DiagnosticRun(end, succeeded) == DiagnosticSteps(respond, id, afterDetect)
    ensures |start| <= |end| && end[..|start|] == start
    ensures |start| < |afterDetect| ==> end[|start|] == afterDetect[|start|]
    ensures Opcodes(end[|start|..]) <= DiagnosticOpcodes
    ensures succeeded < 3 ==> |Opcodes(end[|start|..])| < |DiagnosticOpcodes|
    ensures succeeded >= 3 ==> Opcodes(end[|start|..]) == DiagnosticOpcodes
    ensures succeeded <= 4 && (succeeded == 4 <==> respond(end).status == 0)
  {
    DiagnosticStepsSpec(respond, id, afterDetect);
    assert end[..|afterDetect|] == afterDetect;
    Prefixes(start, afterDetect, end);
    OpcodesOfPhases(start, afterDetect, end);
    if succeeded == 4 {
      assert end[..|end|] == end;
    }
  }

  datatype Connection = Connection(calls: seq<SdkCall>, connected: bool)

  /** Step 1 of RunDiagnostics, OpenCoreScannerAPI: no call when the
      connection is already open, otherwise one Open call whose status 0
      opens it (any other status throws). */
  function OpenStep(respond: seq<SdkCall> -> SdkReply, wasOpen: bool, calls: seq<SdkCall>): Connection
  {
    if wasOpen then Connection(calls, true)
    else
      var next := calls + [Open(AppHandle, AllScannerTypes)];
      Connection(next, respond(next).status == 0)
  }

  /** Step 2 of RunDiagnostics, TryDetectScannersAsync: up to maxAttempts
      GetScanners attempts, each updating the detected and selected
      scanners as DetectScannersAndSelection does. */
  function Detections(respond: seq<SdkCall> -> SdkReply, calls: seq<SdkCall>,
                      scanners: (seq<Scanner>, Option<Scanner>), maxAttempts: int): Retry<(seq<Scanner>, Option<Scanner>)>
  {
    Attempts(DetectionSucceeds, DetectionUpdate, respond, GetScanners, calls, scanners, maxAttempts)
  }

  /** The three messages RunDiagnostics can return are distinct. */
  lemma MessagesDiffer(maxAttempts: int)
    ensures UnableMessage(maxAttempts) != CompletedMessage && UnableMessage(maxAttempts) != UnsuccessfulMessage
    ensures CompletedMessage != UnsuccessfulMessage
  {
    assert UnableMessage(maxAttempts)[0] == 'U' && CompletedMessage[0] == 'D' && UnsuccessfulMessage[0] == 'D';
    assert CompletedMessage[12] == 'c' && UnsuccessfulMessage[12] == 'u';
  }

  // ---------------------------------------------------------------- the service

  class QRScannerService {
    const controller: ScannerController
    /** _scannerTask: None while no loop was ever started. */
    var scannerTask: Option<ScanTask>
    /** _cancellationTokenSource: None for null, otherwise whether
        cancellation was requested. */
    var tokenSource: Option<bool>
    var requiredDiagnosis: bool
    /** How many times HandleBarcodeScanned is attached to the controller's
        BarcodeScanned event. */
    var subscriptions: nat
    /** How many delays TryDetectScannersAsync has waited. */
    var retryDelays: nat

    predicate Valid()
      reads this, controller, controller.sdk
    {
      controller.Valid()
    }

    /** A fresh service over a fresh controller: no loop, no token, and a
        diagnosis required before scanning can start. */
    constructor (respond: seq<SdkCall> -> SdkReply, opcodeName: int -> string)
      ensures fresh(controller) && fresh(controller.sdk)
      ensures controller.sdk.respond == respond && controller.sdk.calls == [] && controller.opcodeName == opcodeName
      ensures !controller.IsOpen && controller.DetectedScanners == [] && controller.SelectedScanner.None?
      ensures requiredDiagnosis && scannerTask.None? && tokenSource.None? && subscriptions == 0 && retryDelays == 0
      ensures Valid()
    {
      controller := new ScannerController(respond, opcodeName);
      scannerTask := None;
      tokenSource := None;
      requiredDiagnosis := true;
      subscriptions := 0;
      retryDelays := 0;
    }

    /** StartScanning: refused while a loop runs or while a diagnosis is
        required; otherwise a new token and a loop whose setup runs at once. */
    method StartScanning() returns (started: bool)
      requires Valid()
      modifies this, controller.sdk
      ensures Valid()
      ensures old(scannerTask) == Some(Running) || old(requiredDiagnosis) ==>
        !started && unchanged(this) && controller.sdk.calls == old(controller.sdk.calls)
      ensures old(scannerTask) != Some(Running) && !old(requiredDiagnosis) ==>
        var run := LoopSetup(controller.sdk.respond, controller.SelectedScanner, old(controller.sdk.calls));
        started && tokenSource == Some(false) && !requiredDiagnosis
        && subscriptions == old(subscriptions) + 1 && retryDelays == old(retryDelays)
        && controller.sdk.calls == run.calls && scannerTask == Some(run.task)
    {
      if scannerTask == Some(Running) {
        return false;
      }
      if requiredDiagnosis {
        return false;
      }
      tokenSource := Some(false);
      var task := ScanLoopSetup();
      scannerTask := Some(task);
      return true;
    }

    /** ScanLoopAsync up to its first await: subscribe, beep, enable. */
    method ScanLoopSetup() returns (task: ScanTask)
      requires Valid()
      modifies this, controller.sdk
      ensures Valid()
      ensures scannerTask == old(scannerTask) && tokenSource == old(tokenSource)
      ensures requiredDiagnosis == old(requiredDiagnosis) && retryDelays == old(retryDelays)
      ensures subscriptions == old(subscriptions) + 1
      ensures (controller.sdk.calls, task)
        == (LoopSetup(controller.sdk.respond, controller.SelectedScanner, old(controller.sdk.calls)).calls,
            LoopSetup(controller.sdk.respond, controller.SelectedScanner, old(controller.sdk.calls)).task)
    {
      Subscribe();
      var beep := controller.BeepScanner("1");
      if controller.SelectedScanner.Some? {
        CommandStatus(controller.opcodeName, controller.sdk.respond, controller.sdk.calls, beep);
      }
      if beep.Err? {
        return Faulted;
      }
      var enable := controller.EnableScan(true);
      CommandStatus(controller.opcodeName, controller.sdk.respond, controller.sdk.calls, enable);
      if enable.Err? {
        return Faulted;
      }
      return Running;
    }

    /** StopScanningAsync: refused without a token; otherwise cancel, wait
        for the loop (rethrowing the exception of a faulted one), then the
        stop steps. Whatever happens after the guard, a new diagnosis is
        required and the handler is detached. */
    method StopScanning() returns (stopped: bool)
      requires Valid()
      modifies this, controller, controller.sdk
      ensures Valid()
      ensures controller.raisedEvents == old(controller.raisedEvents)
      ensures controller.DetectedScanners == old(controller.DetectedScanners)
      ensures controller.SelectedScanner == old(controller.SelectedScanner)
      ensures old(tokenSource).None? ==>
        !stopped && unchanged(this) && controller.sdk.calls == old(controller.sdk.calls)
        && controller.IsOpen == old(controller.IsOpen)
      ensures old(tokenSource).Some? ==>
        requiredDiagnosis && retryDelays == old(retryDelays)
        && subscriptions == (if old(subscriptions) > 0 then old(subscriptions) - 1 else 0)
      ensures old(tokenSource).Some? && old(scannerTask).Some? && old(scannerTask).value.Faulted? ==>
        !stopped && tokenSource == Some(true) && scannerTask == old(scannerTask)
        && controller.sdk.calls == old(controller.sdk.calls) && controller.IsOpen == old(controller.IsOpen)
      ensures old(tokenSource).Some? && !(old(scannerTask).Some? && old(scannerTask).value.Faulted?) ==>
        var run := StopSteps(controller.sdk.respond, controller.SelectedScanner,
                             old(controller.IsOpen), old(controller.sdk.calls));
        tokenSource.None? && scannerTask == (if old(scannerTask).None? then None else Some(Completed))
        && controller.sdk.calls == run.calls && stopped == run.stopped && controller.IsOpen == run.isOpen
    {
      if tokenSource.None? {
        return false;
      }
      tokenSource := Some(true);
      stopped := StopAfterCancel();
      requiredDiagnosis := true;
      Unsubscribe();
    }

    /** The try block of StopScanningAsync after the cancellation: a faulted
        loop rethrows when awaited; otherwise the loop ends and the token is
        dropped before the device steps. */
    method StopAfterCancel() returns (stopped: bool)
      requires Valid()
      modifies this, controller, controller.sdk
      ensures Valid()
      ensures controller.raisedEvents == old(controller.raisedEvents)
      ensures controller.DetectedScanners == old(controller.DetectedScanners)
      ensures controller.SelectedScanner == old(controller.SelectedScanner)
      ensures requiredDiagnosis == old(requiredDiagnosis) && retryDelays == old(retryDelays)
      ensures subscriptions == old(subscriptions)
      ensures old(scannerTask).Some? && old(scannerTask).value.Faulted? ==>
        !stopped && tokenSource == old(tokenSource) && scannerTask == old(scannerTask)
        && controller.sdk.calls == old(controller.sdk.calls) && controller.IsOpen == old(controller.IsOpen)
      ensures !(old(scannerTask).Some? && old(scannerTask).value.Faulted?) ==>
        var run := StopSteps(controller.sdk.respond, controller.SelectedScanner,
                             old(controller.IsOpen), old(controller.sdk.calls));
        tokenSource.None? && scannerTask == (if old(scannerTask).None? then None else Some(Completed))
        && controller.sdk.calls == run.calls && stopped == run.stopped && controller.IsOpen == run.isOpen
    {
      if scannerTask.Some? {
        if scannerTask.value.Faulted? {
          return false;
        }
        scannerTask := Some(Completed);
      }
      tokenSource := None;
      stopped := StopDevice();
    }

    /** Disable scanning, beep ("6"), close the connection. */
    method StopDevice() returns (stopped: bool)
      requires Valid()
      modifies controller, controller.sdk
      ensures Valid()
      ensures controller.raisedEvents == old(controller.raisedEvents)
      ensures controller.DetectedScanners == old(controller.DetectedScanners)
      ensures controller.SelectedScanner == old(controller.SelectedScanner)
      ensures StopRun(controller.sdk.calls, stopped, controller.IsOpen)
        == StopSteps(controller.sdk.respond, controller.SelectedScanner,
                     old(controller.IsOpen), old(controller.sdk.calls))
    {
      var disable := controller.EnableScan(false);
      if controller.SelectedScanner.Some? {
        CommandStatus(controller.opcodeName, controller.sdk.respond, controller.sdk.calls, disable);
      }
      if disable.Err? {
        return false;
      }
      var beep := controller.BeepScanner("6");
      CommandStatus(controller.opcodeName, controller.sdk.respond, controller.sdk.calls, beep);
      if beep.Err? {
        return false;
      }
      var close := controller.CloseCoreScannerAPI();
      assert controller.sdk.calls[..|controller.sdk.calls|] == controller.sdk.calls;
      if close.Err? {
        return false;
      }
      return true;
    }

    /** RunDiagnostics: open, detect with retries, then the diagnostic
        commands. The catch block returns whatever `result` holds: the
        success result once it was built (a failed final beep), and a
        failure result for a step that throws before that. Only a run whose
        every step succeeds clears the diagnosis requirement; a failed
        detection leaves it as it was; a step that throws sets it. */
    method RunDiagnostics(maxAttempts: int) returns (r: DiagnosticsResult)
      requires Valid()
      modifies this, controller, controller.sdk
      ensures Valid()
      ensures controller.raisedEvents == old(controller.raisedEvents)
      ensures scannerTask == old(scannerTask) && tokenSource == old(tokenSource)
      ensures subscriptions == old(subscriptions)
      ensures |old(controller.sdk.calls)| <= |controller.sdk.calls|
      ensures controller.sdk.calls[..|old(controller.sdk.calls)|] == old(controller.sdk.calls)
      ensures r.detectedScanners == Some(controller.DetectedScanners) && r.selectedScanner == controller.SelectedScanner
      ensures r.commandResults == Some([])
      ensures r.message == CompletedMessage || r.message == UnableMessage(maxAttempts) || r.message == UnsuccessfulMessage
      ensures r.success <==> r.message == CompletedMessage
      ensures var added := controller.sdk.calls[|old(controller.sdk.calls)|..];
        Opcodes(added) <= DiagnosticOpcodes
        && (!old(controller.IsOpen) ==> |added| > 0 && added[0] == Open(AppHandle, AllScannerTypes))
        && (r.success ==>
              Opcodes(added) == DiagnosticOpcodes && controller.SelectedScanner.Some?
              && (requiredDiagnosis <==> controller.sdk.respond(controller.sdk.calls).status != 0))
        && (r.message == UnableMessage(maxAttempts) ==> requiredDiagnosis == old(requiredDiagnosis) && Opcodes(added) == [])
        && (r.message == UnsuccessfulMessage ==> requiredDiagnosis && |Opcodes(added)| < |DiagnosticOpcodes|)
      ensures var c := OpenStep(controller.sdk.respond, old(controller.IsOpen), old(controller.sdk.calls));
        var run := Detections(controller.sdk.respond, c.calls,
                              (old(controller.DetectedScanners), old(controller.SelectedScanner)), maxAttempts);
        controller.IsOpen == c.connected
        && (!c.connected ==>
              r.message == UnsuccessfulMessage && requiredDiagnosis
              && controller.sdk.calls == c.calls && retryDelays == old(retryDelays)
              && controller.DetectedScanners == old(controller.DetectedScanners)
              && controller.SelectedScanner == old(controller.SelectedScanner))
        && (c.connected ==>
              (controller.DetectedScanners, controller.SelectedScanner) == run.state
              && retryDelays == old(retryDelays) + run.delays)
        && (c.connected && !run.found ==> r.message == UnableMessage(maxAttempts) && controller.sdk.calls == run.calls)
        && (c.connected && run.found ==>
              run.state.1.Some?
              && var steps := DiagnosticSteps(controller.sdk.respond, run.state.1.value.scannerId, run.calls);
              controller.sdk.calls == steps.calls
              && (r.success <==> steps.succeeded >= 3)
              && (!r.success ==> r.message == UnsuccessfulMessage && requiredDiagnosis)
              && (r.success ==> (requiredDiagnosis <==> steps.succeeded < 4)))
    {
      MessagesDiffer(maxAttempts);
      ghost var start := controller.sdk.calls;
      var connected, found := OpenAndDetect(maxAttempts);
      ghost var afterDetect := controller.sdk.calls;
      if !connected {
        requiredDiagnosis := true;
        return WithoutCommands(false, UnsuccessfulMessage, Some(controller.DetectedScanners), controller.SelectedScanner);
      }
      if !found {
        return WithoutCommands(false, UnableMessage(maxAttempts), Some(controller.DetectedScanners), controller.SelectedScanner);
      }
      var succeeded := DiagnosticCommands();
      DiagnosticHistory(start, afterDetect, controller.sdk.respond, controller.SelectedScanner.value.scannerId,
                        controller.sdk.calls, succeeded);
      if succeeded < 3 {
        requiredDiagnosis := true;
        return WithoutCommands(false, UnsuccessfulMessage, Some(controller.DetectedScanners), controller.SelectedScanner);
      }
      r := WithoutCommands(true, CompletedMessage, Some(controller.DetectedScanners), controller.SelectedScanner);
      requiredDiagnosis := succeeded < 4;
    }

    /** Steps 1 and 2 of RunDiagnostics: open the connection, then detect
        scanners with retries; a failed open throws and skips the
        detection. No command is sent. */
    method OpenAndDetect(maxAttempts: int) returns (connected: bool, found: bool)
      requires Valid()
      modifies this, controller, controller.sdk
      ensures Valid()
      ensures controller.raisedEvents == old(controller.raisedEvents)
      ensures scannerTask == old(scannerTask) && tokenSource == old(tokenSource)
      ensures requiredDiagnosis == old(requiredDiagnosis) && subscriptions == old(subscriptions)
      ensures |old(controller.sdk.calls)| <= |controller.sdk.calls|
      ensures controller.sdk.calls[..|old(controller.sdk.calls)|] == old(controller.sdk.calls)
      ensures Opcodes(controller.sdk.calls[|old(controller.sdk.calls)|..]) == []
      ensures !old(controller.IsOpen) ==>
        |controller.sdk.calls| > |old(controller.sdk.calls)|
        && controller.sdk.calls[|old(controller.sdk.calls)|] == Open(AppHandle, AllScannerTypes)
      ensures found ==> connected && controller.SelectedScanner.Some?
      ensures var c := OpenStep(controller.sdk.respond, old(controller.IsOpen), old(controller.sdk.calls));
        connected == c.connected && controller.IsOpen == c.connected
        && (!c.connected ==>
              !found && controller.sdk.calls == c.calls && retryDelays == old(retryDelays)
              && controller.DetectedScanners == old(controller.DetectedScanners)
              && controller.SelectedScanner == old(controller.SelectedScanner))
        && (c.connected ==>
              var run := Detections(controller.sdk.respond, c.calls,
                                    (old(controller.DetectedScanners), old(controller.SelectedScanner)), maxAttempts);
              controller.sdk.calls == run.calls && (controller.DetectedScanners, controller.SelectedScanner) == run.state
              && retryDelays == old(retryDelays) + run.delays && found == run.found)
    {
      ghost var start := controller.sdk.calls;
      var open := controller.OpenCoreScannerAPI();
      ghost var afterOpen := controller.sdk.calls;
      assert afterOpen[..|start|] == start && afterOpen[..|afterOpen|] == afterOpen;
      if open.Err? {
        NoOpcodes(afterOpen[|start|..]);
        return false, false;
      }
      connected := true;
      found := TryDetectScanners(maxAttempts);
      ghost var afterDetect := controller.sdk.calls;
      Prefixes(start, afterOpen, afterDetect);
      forall j | 0 <= j < |afterDetect| - |start|
        ensures !afterDetect[|start|..][j].ExecCommand?
      {
        if |start| + j < |afterOpen| {
          assert afterDetect[|start| + j] == afterDetect[..|afterOpen|][|start| + j];
        }
      }
      NoOpcodes(afterDetect[|start|..]);
    }

    /** Steps 3 to 5 of RunDiagnostics and its final beep. */
    method DiagnosticCommands() returns (succeeded: nat)
      requires Valid() && controller.SelectedScanner.Some?
      modifies controller.sdk
      ensures Valid()
      ensures DiagnosticRun(controller.sdk.calls, succeeded)
        == DiagnosticSteps(controller.sdk.respond, controller.SelectedScanner.value.scannerId, old(controller.sdk.calls))
    {
      var register := controller.RegisterForAllEvents(true);
      CommandStatus(controller.opcodeName, controller.sdk.respond, controller.sdk.calls, register);
      if register.Err? {
        return 0;
      }
      var claim := controller.ClaimScanner(true);
      CommandStatus(controller.opcodeName, controller.sdk.respond, controller.sdk.calls, claim);
      if claim.Err? {
        return 1;
      }
      var disable := controller.EnableScan(false);
      CommandStatus(controller.opcodeName, controller.sdk.respond, controller.sdk.calls, disable);
      if disable.Err? {
        return 2;
      }
      var beep := controller.BeepScanner("20");
      CommandStatus(controller.opcodeName, controller.sdk.respond, controller.sdk.calls, beep);
      if beep.Err? {
        return 3;
      }
      return 4;
    }

    /** TryDetectScannersAsync: attempts 1 to maxAttempts, waiting between a
        failed attempt and the next; the waits are counted in retryDelays. */
    method TryDetectScanners(maxAttempts: int) returns (found: bool)
      requires Valid()
      modifies this, controller, controller.sdk
      ensures Valid()
      ensures controller.raisedEvents == old(controller.raisedEvents)
      ensures scannerTask == old(scannerTask) && tokenSource == old(tokenSource)
      ensures requiredDiagnosis == old(requiredDiagnosis) && subscriptions == old(subscriptions)
      ensures controller.IsOpen == old(controller.IsOpen)
      ensures var run := Attempts(DetectionSucceeds, DetectionUpdate, controller.sdk.respond, GetScanners,
                                  old(controller.sdk.calls), (old(controller.DetectedScanners), old(controller.SelectedScanner)),
                                  maxAttempts);
        controller.sdk.calls == run.calls && (controller.DetectedScanners, controller.SelectedScanner) == run.state
        && retryDelays == old(retryDelays) + run.delays && found == run.found
      ensures |old(controller.sdk.calls)| <= |controller.sdk.calls|
      ensures controller.sdk.calls[..|old(controller.sdk.calls)|] == old(controller.sdk.calls)
      ensures forall j :: |old(controller.sdk.calls)| <= j < |controller.sdk.calls| ==> controller.sdk.calls[j] == GetScanners
      ensures found ==> controller.SelectedScanner.Some?
    {
      AttemptsSpec(DetectionSucceeds, DetectionUpdate, controller.sdk.respond, GetScanners,
                   controller.sdk.calls, (controller.DetectedScanners, controller.SelectedScanner), maxAttempts);
      var delays;
      found, delays := DetectWithRetries(maxAttempts);
      retryDelays := retryDelays + delays;
    }

    /** The loop of TryDetectScannersAsync, returning how many delays it
        waited. */
    method DetectWithRetries(maxAttempts: int) returns (found: bool, delays: nat)
      requires Valid()
      modifies controller, controller.sdk
      ensures Valid()
      ensures controller.raisedEvents == old(controller.raisedEvents)
      ensures controller.IsOpen == old(controller.IsOpen)
      ensures Retry(controller.sdk.calls, (controller.DetectedScanners, controller.SelectedScanner), delays, found)
        == Attempts(DetectionSucceeds, DetectionUpdate, controller.sdk.respond, GetScanners,
                    old(controller.sdk.calls), (old(controller.DetectedScanners), old(controller.SelectedScanner)), maxAttempts)
      ensures found ==> controller.SelectedScanner.Some?
    {
      ghost var run := Attempts(DetectionSucceeds, DetectionUpdate, controller.sdk.respond, GetScanners,
                                controller.sdk.calls, (controller.DetectedScanners, controller.SelectedScanner), maxAttempts);
      var attempt := 1;
      delays := 0;
      while attempt <= maxAttempts
        invariant Valid() && 1 <= attempt
        invariant controller.IsOpen == old(controller.IsOpen)
        invariant controller.raisedEvents == old(controller.raisedEvents)
        invariant var rest := Attempts(DetectionSucceeds, DetectionUpdate, controller.sdk.respond, GetScanners,
                                       controller.sdk.calls, (controller.DetectedScanners, controller.SelectedScanner),
                                       maxAttempts - attempt + 1);
          run == Retry(rest.calls, rest.state, rest.delays + delays, rest.found)
        decreases maxAttempts - attempt
      {
        var ok := AttemptOnce(maxAttempts - attempt + 1);
        if ok {
          return true, delays;
        }
        if attempt < maxAttempts {
          delays := delays + 1;
        }
        attempt := attempt + 1;
      }
      return false, delays;
    }

    /** One attempt, as one step of Attempts with k attempts left. */
    method AttemptOnce(k: int) returns (ok: bool)
      requires Valid() && k >= 1
      modifies controller, controller.sdk
      ensures Valid()
      ensures controller.raisedEvents == old(controller.raisedEvents)
      ensures controller.IsOpen == old(controller.IsOpen)
      ensures ok ==> controller.SelectedScanner.Some?
      ensures var before := Attempts(DetectionSucceeds, DetectionUpdate, controller.sdk.respond, GetScanners,
                                     old(controller.sdk.calls), (old(controller.DetectedScanners), old(controller.SelectedScanner)), k);
        var rest := Attempts(DetectionSucceeds, DetectionUpdate, controller.sdk.respond, GetScanners,
                             controller.sdk.calls, (controller.DetectedScanners, controller.SelectedScanner), k - 1);
        (ok ==> before == Retry(controller.sdk.calls, (controller.DetectedScanners, controller.SelectedScanner), 0, true))
        && (!ok ==> before == Retry(rest.calls, rest.state, rest.delays + (if k > 1 then 1 else 0), rest.found))
    {
      AttemptsStep(DetectionSucceeds, DetectionUpdate, controller.sdk.respond, GetScanners,
                   controller.sdk.calls, (controller.DetectedScanners, controller.SelectedScanner), k);
      ok := DetectOnce();
    }

    /** One attempt of TryDetectScannersAsync: DetectScannersAndSelection,
        whose exception the attempt catches. */
    method DetectOnce() returns (ok: bool)
      requires Valid()
      modifies controller, controller.sdk
      ensures Valid()
      ensures controller.raisedEvents == old(controller.raisedEvents)
      ensures controller.IsOpen == old(controller.IsOpen)
      ensures controller.sdk.calls == old(controller.sdk.calls) + [GetScanners]
      ensures var reply := controller.sdk.respond(controller.sdk.calls);
        (ok <==> DetectionSucceeds(reply))
        && (!ok ==> controller.DetectedScanners == old(controller.DetectedScanners)
                    && controller.SelectedScanner == old(controller.SelectedScanner))
        && (ok ==> (controller.DetectedScanners, controller.SelectedScanner)
                    == DetectionUpdate(reply, (old(controller.DetectedScanners), old(controller.SelectedScanner)))
                   && controller.SelectedScanner.Some?)
    {
      var result := controller.DetectScannersAndSelection();
      assert controller.sdk.calls[..|controller.sdk.calls|] == controller.sdk.calls;
      DetectionAttempt(controller.sdk.respond(controller.sdk.calls), old(controller.DetectedScanners), old(controller.SelectedScanner));
      ok := result.Ok?;
    }

    /** SubscribeToBarcodeScannedEvent. */
    method Subscribe()
      modifies this
      ensures subscriptions == old(subscriptions) + 1
      ensures scannerTask == old(scannerTask) && tokenSource == old(tokenSource)
      ensures requiredDiagnosis == old(requiredDiagnosis) && retryDelays == old(retryDelays)
    {
      subscriptions := subscriptions + 1;
    }

    /** UnsubscribeToBarcodeScannedEvent: detaching a handler that is not
        attached does nothing. */
    method Unsubscribe()
      modifies this
      ensures subscriptions == if old(subscriptions) > 0 then old(subscriptions) - 1 else 0
      ensures scannerTask == old(scannerTask) && tokenSource == old(tokenSource)
      ensures requiredDiagnosis == old(requiredDiagnosis) && retryDelays == old(retryDelays)
    {
      if subscriptions > 0 {
        subscriptions := subscriptions - 1;
      }
    }
  }
}
