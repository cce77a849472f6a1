# QRScanner — a Dafny model

QRScanner is a C# Windows service built on Zebra's CoreScanner SDK. It opens the SDK, detects the attached scanners (retrying a bounded number of times), and selects the first one. It then registers for barcode events, claims the device and disables scanning, and reports the outcome as a diagnostics result. After a successful diagnosis it can start a scanning loop that enables the scanner. Each barcode event's hexadecimal data label is decoded into text. Stopping disables the scanner, beeps it and closes the SDK.

This project models that core in Dafny, one module per source file:

| module | file | models |
|---|---|---|
| `CommonDefs` | `common_defs.dfy` | event types, opcodes, the status catalogue and `StatusHandler.HandleStatus` |
| `ScannerModel` | `scanner.dfy` | the `Scanner` record, its field normalisation and its details text |
| `XmlReader` | `xml_reader.dfy` | reading scanners out of the SDK's `outXml` |
| `CommandResultModel` | `command_result.dfy` | `CommandResult`, its constructors, details text and XML delegation |
| `BarcodeEvent` | `barcode_event.dfy` | `BarcodeScannedEventArgs` and its data-label decoder |
| `ScannerControllerModel` | `scanner_controller.dfy` | `ScannerController`: open/close, detection, selection, every device command, the barcode handler |
| `DiagnosticsResultModel` | `diagnostics_result.dfy` | `DiagnosticsResult` and its report text |
| `ScannerServiceModel` | `scanner_service.dfy` | `QRScannerService`: start, stop, scan-loop setup, diagnostics, detection retries |

Four support modules hold the shared vocabulary:
- `Wrappers`: `Option`, `Result` and `Outcome`.
- `Text`: the .NET string operations the source relies on, such as `IsNullOrWhiteSpace`, `Trim`, `int.TryParse`, `Convert.ToInt32(s, 16)`, `Split`, `Join` and `Replace`.
- `Errors`: the exceptions the source throws, as values.
- `CoreScannerSdk`: the vendor SDK stand-in.

## How the model is built

- **The SDK.** The vendor SDK is a class `CoreScanner` that logs every call (`Open`, `Close`, `GetScanners`, `ExecCommand`). Its reply is an arbitrary fixed function `respond` of the call history so far. Every statement about a method's effect on the device is therefore a statement about the exact sequence of SDK calls it makes. It holds whatever the SDK answers.
- **Exceptions.** A C# exception is an `Err`/`Fail` value carrying the exception kind from `Errors`. The `try`/`catch` blocks in the service are written out as branches on those values.
- **Null.** A C# reference that can be null is an `Option`.
- **Integers.** An `int` that the source parses is an `Int32` (a subset of `int` with the 32-bit range), and overflow of `int.TryParse` is modelled.
- **XML.** XML is a value holding the raw text together with what the XML library yields for it (the scanner nodes, or `None` when `LoadXml` would throw). Text-level XML parsing is not modelled.
- **Async code.** `StartScanning`, `StopScanningAsync` and `RunDiagnostics` are modelled as sequential methods on the `QRScannerService` class. The scan task's state is a `ScanTask` value (`Running`, `Faulted`, `Completed`), and the cancellation token is an `Option<bool>` (`Some(cancelled)`). The retry delays are counted in `retryDelays`.

## Model

| member | source | states |
|---|---|---|
| CommonDefs.EventTypesArePowersOfTwo | QRScanner/utility/CommonDefs.cs:61-92 | the six event types are 1, 2, 4, 8, 16, 32, i.e. the powers of two in increasing order, and every event type is among them |
| CommonDefs.OpcodesDistinct | QRScanner/utility/CommonDefs.cs:818-888 | the 48 opcode constants are pairwise distinct (strictly increasing), so no two commands share an opcode; register/unregister, claim/release and enable/disable differ |
| CommonDefs.StatusCatalogKeys | QRScanner/utility/CommonDefs.cs:903-953 | the status dictionary has an entry exactly for the listed codes; code 0 is "Generic success." and 108 "Invalid scanner ID." |
| CommonDefs.HandleStatus | QRScanner/utility/CommonDefs.cs:960-972 | the message for any status code is never empty |
| CommonDefs.HandleStatusRoundTrip | QRScanner/utility/CommonDefs.cs:960-972 | the status code and its catalogue description (or its absence) can be read back from the message: "Status n: msg" for a known code, "Unknown status code: n" otherwise |
| CommonDefs.FormatStatusRoundTrip | QRScanner/utility/CommonDefs.cs:962-971 | both message formats are decodable to the code and the optional description they were built from |
| CommonDefs.KnownStatusRoundTrip | QRScanner/utility/CommonDefs.cs:962-966 | a "Status n: msg" message reads back to its code and catalogue description |
| CommonDefs.HandleStatusInjective | QRScanner/utility/CommonDefs.cs:960-972 | two different status codes never produce the same message |
| CommonDefs.SuccessStatusMessage | QRScanner/utility/CommonDefs.cs:905 | the message for status 0 is "Status 0: Generic success." |
| Text.TrimByIsSlice | QRScanner/utility/XMLReader.cs:128-135 | `Trim` yields the contiguous slice of the input that starts and ends with non-white-space characters, with only white space cut on either side |
| Text.TrimEmptyIffBlank | QRScanner/model/Scanner.cs:55-63 | trimming gives the empty string exactly when the text is blank (the `IsNullOrWhiteSpace` test) |
| Text.TrimIdempotent | QRScanner/utility/XMLReader.cs:135 | trimming twice is trimming once |
| Text.DecimalRoundTrip | QRScanner/utility/CommonDefs.cs:964 | the decimal text interpolated for an integer parses back to that integer |
| Text.Int32RoundTrip | QRScanner/utility/XMLReader.cs:126-131 | `int.TryParse` accepts the decimal text of every 32-bit integer and returns that integer |
| Text.ParseHex32 | QRScanner/events/BarcodeScannedEventArgs.cs:69 | a token `Convert.ToInt32(s, 16)` accepts is read as a 32-bit pattern, below 2^32 |
| Text.SplitJoin | QRScanner/events/BarcodeScannedEventArgs.cs:59 | splitting a join of pieces that contain no separator gives back the pieces |
| ScannerModel.NormalizeField | QRScanner/model/Scanner.cs:55-63 | a stored text field is never blank, and it is either "Unknown" or the given text |
| ScannerModel.NormalizeId | QRScanner/model/Scanner.cs:56 | a stored scanner ID is never negative: positive IDs are kept, anything else becomes 0 |
| ScannerModel.NewScanner | QRScanner/model/Scanner.cs:43-64 | a constructed scanner satisfies the record invariant (no blank field, ID >= 0) and keeps exactly the positive IDs |
| ScannerModel.NormalizeFieldCases | QRScanner/model/Scanner.cs:55-63 | a field becomes "Unknown" exactly when it was null, blank or "Unknown"; it keeps the given text exactly when that text is not blank |
| ScannerModel.NewScannerIdempotent | QRScanner/model/Scanner.cs:43-64 | rebuilding a scanner from its own properties gives the same scanner |
| ScannerModel.GetScannerDetails | QRScanner/model/Scanner.cs:85-102 | the details text starts with an empty line |
| ScannerModel.ScannerDetailsRoundTrip | QRScanner/model/Scanner.cs:85-102 | the details text determines the scanner: every field can be read back from its labelled line when no field contains a carriage return |
| ScannerModel.ReadLabelledRoundTrip | QRScanner/model/Scanner.cs:89-99 | a sequence of "caption value" lines reads back to the values in order |
| XmlReader.ParseNodeToIntReadsDecimal | QRScanner/utility/XMLReader.cs:126-131 | a node holding the decimal text of any Int32, padded on either side with white space, reads back as that number |
| XmlReader.ParseNodeToStringReadsText | QRScanner/utility/XMLReader.cs:133-136 | a node holding any text without white space at its ends, padded on either side with white space, reads back as exactly that text |
| Text.TrimPadded | QRScanner/utility/XMLReader.cs:128-135 | trimming removes exactly the white-space padding around a value whose own ends are not white space |
| XmlReader.ParseScannerNode | QRScanner/utility/XMLReader.cs:85-103 | the scanner built from any node satisfies the record invariant |
| XmlReader.ParseScannerNodeFields | QRScanner/utility/XMLReader.cs:92-102 | each field is the trimmed node text normalised to "Unknown" when missing or blank; the ID is the first `scannerID` child's parsed value when positive, else 0 |
| XmlReader.ParseAll | QRScanner/utility/XMLReader.cs:72-76 | one scanner per node, in document order |
| XmlReader.AllScanners | QRScanner/utility/XMLReader.cs:60-79 | a successful listing is never empty |
| XmlReader.GetAllScannersFromXml | QRScanner/utility/XMLReader.cs:60-79 | the loop over the scanner nodes returns the listing `AllScanners` defines |
| XmlReader.AllScannersSpec | QRScanner/utility/XMLReader.cs:60-79 | blank or missing XML fails as missing content; XML that does not load fails as malformed; no scanner node fails as no scanners found; otherwise one valid scanner per node, in order |
| XmlReader.FirstIsHeadOfAll | QRScanner/utility/XMLReader.cs:39-45 | the first-scanner lookup succeeds exactly when the full listing does, returns its first element, and fails with the same error except that "no scanners" becomes "no scanner node" |
| XmlReader.GetFirstScannerDetectedFromXml | QRScanner/utility/XMLReader.cs:39-45 | the first scanner found satisfies the record invariant |
| XmlReader.FirstMatch | QRScanner/utility/XMLReader.cs:50 | the index returned is the first node whose `scannerID` text matches the ID, or the number of nodes when none does |
| XmlReader.GetScannerByIdFromXml | QRScanner/utility/XMLReader.cs:47-58 | a scanner found by ID satisfies the record invariant |
| XmlReader.GetScannerByIdSpec | QRScanner/utility/XMLReader.cs:47-58 | lookup fails with scanner-not-found exactly when no node matches, and otherwise returns the first matching node's scanner, whose ID is the requested one (normalised) |
| CommandResultModel.Default | QRScanner/model/CommandResult.cs:38-44 | the default result has status -1 (not successful), empty name and message, and empty XML |
| CommandResultModel.FromStatus | QRScanner/model/CommandResult.cs:46-51 | keeps name and status, has no XML, and its message is the status message of its status |
| CommandResultModel.FromReply | QRScanner/model/CommandResult.cs:53-59 | keeps name, status and XML, and its message is the status message of its status |
| CommandResultModel.FromDetection | QRScanner/model/CommandResult.cs:61-68 | keeps name, status, XML and scanner count, and its message is the status message of its status |
| CommandResultModel.SuccessIffSuccessMessage | QRScanner/model/CommandResult.cs:74-77 | a result built from a status is successful exactly when its message is "Status 0: Generic success." |
| CommandResultModel.GetCommandResultDetails | QRScanner/model/CommandResult.cs:79-91 | the details text is never empty |
| CommandResultModel.DetailLinesSpec | QRScanner/model/CommandResult.cs:79-91 | a "Number of scanners detected" line appears exactly when the count is set, as the fourth line; the last line shows the XML, or "No XML output." when it is missing or blank |
| CommandResultModel.CommandResult.GetAllScanners | QRScanner/model/CommandResult.cs:107-110 | delegates to the XML reader's full listing of the result's XML |
| CommandResultModel.CommandResult.GetFirstScannerDetected | QRScanner/model/CommandResult.cs:97-100 | a scanner returned is the first of the result's full listing |
| CommandResultModel.CommandResult.GetScannerById | QRScanner/model/CommandResult.cs:102-105 | a scanner returned satisfies the record invariant |
| BarcodeEvent.BarcodeScannedEventArgs.Init | QRScanner/events/BarcodeScannedEventArgs.cs:36-42 | the event arguments keep the data type, label and raw XML they are given |
| BarcodeEvent.BarcodeScannedEventArgs.DecodeDataLabel | QRScanner/events/BarcodeScannedEventArgs.cs:53-77 | on a decodable label the decoded text is set to the label's decoding; otherwise the error is returned and the decoded text is left as it was |
| BarcodeEvent.BarcodeScannedEventArgs.Create | QRScanner/events/BarcodeScannedEventArgs.cs:36-42 | construction succeeds exactly when the label decodes, and then holds the given type, label, raw XML and the decoded label; otherwise it fails with the decoder's error |
| BarcodeEvent.DecodeTokensSpec | QRScanner/events/BarcodeScannedEventArgs.cs:65-73 | when every token is a hexadecimal byte the result is their values in order; otherwise decoding stops with the error of the first bad token |
| BarcodeEvent.DecodeErrorIsFinal | QRScanner/events/BarcodeScannedEventArgs.cs:65-73 | once a token fails, the tokens after it cannot change the outcome |
| BarcodeEvent.EmptyTokenFails | QRScanner/events/BarcodeScannedEventArgs.cs:68-69 | an empty token is rejected |
| BarcodeEvent.DoubledSpaceFails | QRScanner/events/BarcodeScannedEventArgs.cs:59-69 | a label with two consecutive spaces cannot be decoded (the split yields an empty token) |
| BarcodeEvent.DecodeEncodedLabel | QRScanner/events/BarcodeScannedEventArgs.cs:53-77 | decoding the space-separated "0xHH" encoding of any non-empty byte sequence gives those bytes back |
| BarcodeEvent.DecodeExample | QRScanner/events/BarcodeScannedEventArgs.cs:58 | the label "0x30 0x31 0x32" decodes to exactly the values 0x30, 0x31, 0x32, the three code units of the characters of "012" |
| CoreScannerSdk.CoreScanner.Call | QRScanner/controller/ScannerController.cs:39 | each SDK call is appended to the call log, and its reply is the SDK's answer to the history ending with it |
| CoreScannerSdk.CoreScanner.AddBarcodeHandler | QRScanner/controller/ScannerController.cs:225-228 | subscribing adds one barcode handler and makes no SDK call |
| CoreScannerSdk.CoreScanner.RemoveBarcodeHandler | QRScanner/controller/ScannerController.cs:230-233 | unsubscribing removes one handler (none when there is none) and makes no SDK call |
| ScannerControllerModel.ScannerController.constructor | QRScanner/controller/ScannerController.cs:24-28 | a new controller is closed, has no detected or selected scanner and has made no SDK call |
| ScannerControllerModel.ScannerController.OpenCoreScannerAPI | QRScanner/controller/ScannerController.cs:32-50 | when already open: success without an SDK call; otherwise exactly one `Open` call, the controller is open exactly when it returned status 0, and a non-zero status is the open-failed error carrying that status |
| ScannerControllerModel.ScannerController.CloseCoreScannerAPI | QRScanner/controller/ScannerController.cs:52-68 | when not open: the close-failed error and no SDK call; otherwise exactly one `Close` call, the controller stays open exactly when it returned a non-zero status, which is then reported |
| ScannerControllerModel.ScannerController.DetectScannersAndSelection | QRScanner/controller/ScannerController.cs:70-95 | exactly one `GetScanners` call; the result, detected list and selection are those `Detection` gives for its reply |
| ScannerControllerModel.DetectionSpec | QRScanner/controller/ScannerController.cs:70-95 | a non-zero status fails as detection failed and a bad listing fails with the listing's error, both leaving the state unchanged; on success the detected list is the non-empty listing and an existing selection is kept, otherwise the first scanner is selected |
| ScannerControllerModel.ScannerController.RegisterForAllEvents | QRScanner/controller/ScannerController.cs:97-112 | exactly one register (or unregister) command with the all-events payload; the result is that command's outcome |
| ScannerControllerModel.RegisterPayloadListsEventTypes | QRScanner/controller/ScannerController.cs:100-105 | the registration payload lists the number of event types and their values "1,2,4,8,16,32" |
| ScannerControllerModel.ScannerController.SelectScannerById | QRScanner/controller/ScannerController.cs:118-126 | no selection: null-reference error; same ID: already-selected error; otherwise the first detected scanner with the ID is selected, or not-found when there is none; a failure keeps the selection |
| ScannerControllerModel.IndexOfScanner | QRScanner/controller/ScannerController.cs:123 | the index returned is the first detected scanner with the ID, or the list length when none has it |
| ScannerControllerModel.ScannerController.RebootScanner | QRScanner/controller/ScannerController.cs:128-136 | no selection: the null-scanner error and no SDK call; otherwise exactly one reboot command addressed to the selected scanner, carrying the corrected (closed) payload |
| ScannerControllerModel.ScannerController.ClaimScanner | QRScanner/controller/ScannerController.cs:138-146 | no selection: the null-scanner error and no SDK call; otherwise exactly one claim (or release) command addressed to the selected scanner |
| ScannerControllerModel.ScannerController.EnableScan | QRScanner/controller/ScannerController.cs:148-156 | no selection: the null-scanner error and no SDK call; otherwise exactly one scan-enable (or scan-disable) command addressed to the selected scanner |
| ScannerControllerModel.ScannerController.DisableScanForAllScanners | QRScanner/controller/ScannerController.cs:158-177 | no detected scanner: no-scanners error and no SDK call; otherwise the calls and result of `DisableRun` over the detected list |
| ScannerControllerModel.DisableRunCalls | QRScanner/controller/ScannerController.cs:166-174 | the loop sends scan-disable commands to a prefix of the detected scanners, in order, and to all of them when it succeeds |
| ScannerControllerModel.DisableRunOk | QRScanner/controller/ScannerController.cs:163-176 | on success there is one result per scanner, in order, each the outcome of that scanner's command |
| ScannerControllerModel.DisableRunErr | QRScanner/controller/ScannerController.cs:166-174 | on failure the last command sent failed with the returned error and every earlier one succeeded |
| ScannerControllerModel.ScannerController.TurnLED | QRScanner/controller/ScannerController.cs:179-188 | no selection: the null-scanner error and no SDK call; otherwise exactly one set-action command with LED code 43 (on) or 42 (off) for the selected scanner |
| ScannerControllerModel.ScannerController.BeepScanner | QRScanner/controller/ScannerController.cs:190-198 | no selection: the null-scanner error and no SDK call; otherwise exactly one set-action command with the given beep code for the selected scanner |
| ScannerControllerModel.ScannerController.ExecuteCommand | QRScanner/controller/ScannerController.cs:210-219 | exactly one `ExecCommand` call with the opcode and payload; the result is that call's outcome |
| ScannerControllerModel.ExecResultSpec | QRScanner/controller/ScannerController.cs:212-218 | a command fails exactly when its status is non-zero, with the command-failed error carrying opcode, payload and status message; on status 0 the result is successful and carries the opcode's name and the reply's XML |
| ScannerControllerModel.PayloadsTargetScanner | QRScanner/controller/ScannerController.cs:132-194 | every command payload names the scanner it is built for |
| ScannerControllerModel.PayloadsAreClosed | QRScanner/controller/ScannerController.cs:142-194 | the claim/enable/disable, LED/beep, corrected reboot and registration payloads are well-formed `<inArgs>` elements |
| ScannerControllerModel.RebootPayloadAsWrittenIsUnclosed | QRScanner/controller/ScannerController.cs:132 | the reboot payload as written lacks its closing `</inArgs>` |
| ScannerControllerModel.ScannerController.BarcodeEventHandler | QRScanner/controller/ScannerController.cs:235-255 | a barcode whose XML yields a data type and a decodable label raises exactly one new event carrying the type, label, raw XML and decoded text; any failure raises none and changes nothing |
| ScannerControllerModel.BadLabelRaisesNothing | QRScanner/controller/ScannerController.cs:243-250 | a blank label, or one with a doubled space, raises no event |
| DiagnosticsResultModel.Default | QRScanner/model/DiagnosticsResult.cs:43-48 | the default result is successful with an empty message, an empty detected list, no selection and no commands |
| DiagnosticsResultModel.WithoutCommands | QRScanner/model/DiagnosticsResult.cs:50-56 | keeps the given outcome, message, scanners and selection, with the empty command list from the field initialiser |
| DiagnosticsResultModel.WithCommands | QRScanner/model/DiagnosticsResult.cs:58-65 | keeps every given field, including a possibly null command list |
| DiagnosticsResultModel.DiagnosticsResult.GetDiagnosticsResultDetails | QRScanner/model/DiagnosticsResult.cs:71-113 | the StringBuilder method returns the report `Report` defines |
| DiagnosticsResultModel.AppendDetected | QRScanner/model/DiagnosticsResult.cs:80-93 | the detected-scanners loop appends exactly the detected section |
| DiagnosticsResultModel.AppendSelected | QRScanner/model/DiagnosticsResult.cs:97-103 | appends exactly the selected-scanner section |
| DiagnosticsResultModel.AppendCommands | QRScanner/model/DiagnosticsResult.cs:107-110 | the commands loop appends exactly one details text per command |
| DiagnosticsResultModel.ReportFailsOnNullCommands | QRScanner/model/DiagnosticsResult.cs:107 | the report fails (null reference) exactly when the command list is null |
| DiagnosticsResultModel.HeaderSection | QRScanner/model/DiagnosticsResult.cs:75-77 | the report opens with its title, a success line reading "True" exactly when the result is successful, and the message |
| DiagnosticsResultModel.DetectedNone | QRScanner/model/DiagnosticsResult.cs:80-93 | the fourth line is "- Detected scanners: None" exactly when the list is null or empty |
| DiagnosticsResultModel.DetectedBlocks | QRScanner/model/DiagnosticsResult.cs:80-91 | a non-empty detected list is reported as heading, separator, then one block per scanner |
| DiagnosticsResultModel.ScannerBlocksSpec | QRScanner/model/DiagnosticsResult.cs:85-90 | block i is "Scanner i+1:", that scanner's details and a separator |
| DiagnosticsResultModel.SelectedSection | QRScanner/model/DiagnosticsResult.cs:97-103 | the selected line reads "Null." exactly when there is no selection, and otherwise is followed by the selected scanner's details |
| DiagnosticsResultModel.CommandSection | QRScanner/model/DiagnosticsResult.cs:106-110 | the report ends with "Executed commands:" and the details of every command in order |
| DiagnosticsResultModel.DefaultReport | QRScanner/model/DiagnosticsResult.cs:43-113 | the default result's report is exactly its six lines |
| ScannerServiceModel.QRScannerService.constructor | QRScanner/service/QRScannerService.cs:14-29 | a new service requires a diagnosis, has no task and no token, no subscription, and owns a fresh closed controller |
| ScannerServiceModel.QRScannerService.StartScanning | QRScanner/service/QRScannerService.cs:33-62 | a running task or a required diagnosis refuses and changes nothing; otherwise a new token, one more subscription, and the scan loop's setup calls and task state |
| ScannerServiceModel.QRScannerService.ScanLoopSetup | QRScanner/service/QRScannerService.cs:126-130 | subscribes once and makes exactly the setup calls `LoopSetup` gives |
| ScannerServiceModel.LoopSetupSpec | QRScanner/service/QRScannerService.cs:126-148 | the loop never completes by itself; with no selection it faults at once; otherwise it beeps "1", enables scanning only after a successful beep, and runs exactly when both commands succeeded |
| ScannerServiceModel.QRScannerService.StopScanning | QRScanner/service/QRScannerService.cs:64-124 | no token: refuses and changes nothing; otherwise a diagnosis is required again and one subscription is dropped; a faulted task returns false with the token kept and no SDK call; otherwise the token is cleared and the stop sequence runs; the barcode events already raised are kept |
| ScannerServiceModel.QRScannerService.StopAfterCancel | QRScanner/service/QRScannerService.cs:75-118 | the body after cancellation: a faulted task fails without SDK calls; otherwise the token is cleared, the task completes and the result is the stop sequence's; the barcode events already raised are kept |
| ScannerServiceModel.QRScannerService.StopDevice | QRScanner/service/QRScannerService.cs:84-102 | the device calls, the outcome and the open flag are those `StopSteps` gives; the barcode events already raised are kept |
| ScannerServiceModel.StopStepsSpec | QRScanner/service/QRScannerService.cs:84-118 | the stop sequence is scan-disable, beep "6", close; each step is sent only after the previous one succeeded and close only when the SDK is open; stopping succeeds exactly when all three were sent and close returned 0, which leaves the SDK closed |
| ScannerServiceModel.QRScannerService.RunDiagnostics | QRScanner/service/QRScannerService.cs:154-203 | extends the call history; the result carries the controller's scanners and one of three messages, and succeeds exactly with "Diagnostics completed successfully."; the device commands sent are a prefix of register, claim, scan-disable, beep; success means all four were sent with a scanner selected, and a diagnosis stays required exactly when the final beep failed; the "Unable to detect" result sends none and leaves the flag alone; "Diagnostics unsuccessful." sets it and sent fewer than four. The whole outcome is fixed by the open step, the detection attempts and the diagnostic steps: a failed open gives "Diagnostics unsuccessful." with nothing else changed; "Unable to detect" exactly when connected and every attempt failed; success exactly when connected, a scanner was found and at least the first three device commands succeeded; the barcode events already raised are kept |
| ScannerServiceModel.QRScannerService.OpenAndDetect | QRScanner/service/QRScannerService.cs:162-174 | opens the SDK first when closed; connected exactly when it was open or the open call returned 0; when connected, the calls, the scanners, the retry delays and whether a scanner was found are exactly those of the bounded detection attempts after the open; when not connected, nothing is detected and the scanners and delays are unchanged; a scanner found means one is selected; the barcode events already raised are kept |
| ScannerServiceModel.QRScannerService.DiagnosticCommands | QRScanner/service/QRScannerService.cs:177-191 | the register/claim/disable/beep sequence makes the calls and reaches the step `DiagnosticSteps` gives |
| ScannerServiceModel.DiagnosticStepsSpec | QRScanner/service/QRScannerService.cs:177-191 | each command is sent only after all earlier ones succeeded; the commands sent are a prefix of register, claim, scan-disable, beep "20"; the count of successes is exact, and a short count means the last one sent failed |
| ScannerServiceModel.DiagnosticHistory | QRScanner/service/QRScannerService.cs:163-191 | over the whole diagnosis the device opcodes sent are a prefix of the four diagnostic opcodes, all four once the success result is built, and success of the beep is status 0 of the last call |
| ScannerServiceModel.MessagesDiffer | QRScanner/service/QRScannerService.cs:171-197 | the three diagnosis messages are pairwise different, so the message identifies the outcome |
| ScannerServiceModel.QRScannerService.TryDetectScanners | QRScanner/service/QRScannerService.cs:205-232 | makes only `GetScanners` calls; the calls, scanners, delays and outcome are those of `Attempts` with up to `maxAttempts` tries; success means a scanner is selected; the barcode events already raised are kept |
| ScannerServiceModel.QRScannerService.DetectWithRetries | QRScanner/service/QRScannerService.cs:207-229 | the retry loop ends in the state `Attempts` gives for the whole run; the barcode events already raised are kept |
| ScannerServiceModel.QRScannerService.AttemptOnce | QRScanner/service/QRScannerService.cs:209-228 | one attempt: a success ends the run found; a failure leaves the rest of the run to the remaining attempts, with one delay before the next attempt when one remains; the barcode events already raised are kept |
| ScannerServiceModel.AttemptsSpec | QRScanner/service/QRScannerService.cs:205-232 | no attempt when `maxAttempts` <= 0; otherwise 1 to `maxAttempts` identical calls, one delay between consecutive attempts, every attempt but the last failed; success exactly when the last succeeded, which updates the state; failure made every attempt and changed nothing |
| ScannerServiceModel.AllAttemptsFail | QRScanner/service/QRScannerService.cs:207-231 | if every one of k attempts fails, all k are made, with k-1 delays, and the result is false |
| ScannerServiceModel.FirstSuccessAt | QRScanner/service/QRScannerService.cs:207-217 | if attempt j is the first to succeed, exactly j attempts are made, with j-1 delays, and the result is true |
| ScannerServiceModel.DetectionAttempt | QRScanner/service/QRScannerService.cs:213 | a detection attempt succeeds exactly when `GetScanners` returns 0 with a readable listing, and then leaves a scanner selected; a failed attempt leaves the state unchanged |
| ScannerServiceModel.QRScannerService.DetectOnce | QRScanner/service/QRScannerService.cs:213 | one `GetScanners` call; success and the new scanners as the detection step defines them; the barcode events already raised are kept |
| ScannerServiceModel.QRScannerService.Subscribe | QRScanner/service/QRScannerService.cs:238-241 | adds one subscription and changes nothing else |
| ScannerServiceModel.QRScannerService.Unsubscribe | QRScanner/service/QRScannerService.cs:243-246 | removes one subscription (none when there is none) and changes nothing else |

## Left out

- The CoreScanner SDK and COM interop: the SDK is an arbitrary deterministic function of the call history. The `connectedScannerIDList`, the scanner-type array and the application handle are fixed arguments.
- XML parsing as text: `LoadXml`, `SelectNodes`, `SelectSingleNode` and `XDocument.Parse` are replaced by the nodes they would return.
- Threading, `async`/`await`, `Task.Delay` timing and `CancellationTokenSource`: the delays are only counted in `retryDelays`, and the scan loop's waiting (`QRScannerService.cs:132-147`) is not modelled.
- Logging and `Console.WriteLine` output.
- `HandleBarcodeScanned` forwarding to `QRCodeDecoded`: only the subscription count is modelled. There is no subscriber to deliver to.
- The singleton `Lazy` instance and the private constructor: the model has an ordinary constructor that takes the SDK and the opcode-name function.
- `OpcodesHandler.HandleOpcode` is called by the controller but not defined in the sources. It is a constructor parameter `opcodeName`.
- `ref inXml` in `ExecuteCommand`: the SDK is assumed to leave the payload unchanged.
- The catch in `StartScanning` and the `OperationCanceledException` catch in `StopScanningAsync` cannot be reached: the scan loop catches its own cancellation.
- The `DetectedScanners.Count <= 0` and second `SelectedScanner == null` checks in `DetectScannersAndSelection` cannot fire. `DetectionSpec` shows that the listing is non-empty and a scanner is selected.
- A null element inside a list (a null `Scanner` in `DetectedScanners` or a null `CommandResult` in `CommandResults`) is not modelled. A null list is.
- A faulted scan task does not carry its exception; only the fact that it faulted is kept.
- RebootScanner: sends the corrected payload `RebootPayload`, closed with `</inArgs>`, while `ScannerController.cs:132` sends the unclosed string; the as-written string is `RebootPayloadAsWritten` and the discrepancy is recorded under Findings.
- The diagnosis paths deviate from the source in three places:
  - `RunDiagnostics` reads `result.ErrorMessage` at `QRScannerService.cs:172`, a member `DiagnosticsResult` does not have. The model logs nothing there and returns the "Unable to detect" result.
  - The catch in `RunDiagnostics` returns `result`, which C# reports as possibly unassigned. The model returns the "Diagnostics unsuccessful." failure result there. A failure of the final beep happens after the success result is built, so that result is returned and a diagnosis is required again.
  - The service calls `ScannerController.DetectScanners()`, which the controller does not define. It is bound to `DetectScannersAndSelection`.
- The WinForms front end and the other files of the repository (`ScannerMonitor`, the logger, the exception classes beyond their kinds) are not part of this model.

## Findings

| source | as written | input that shows it | evidently intended | confidence | as-written member | corrected member |
|---|---|---|---|---|---|---|
| QRScanner/controller/ScannerController.cs:132 | the reboot payload is `<inArgs><scannerID>n</scannerID>` with no closing `</inArgs>` | any selected scanner, e.g. ID 1: the SDK receives `<inArgs><scannerID>1</scannerID>` | `<inArgs><scannerID>n</scannerID></inArgs>`, like every other payload in the controller | high (not executed) | ScannerControllerModel.RebootPayloadAsWritten (RebootPayloadAsWrittenIsUnclosed) | ScannerControllerModel.RebootPayload (PayloadsAreClosed) |
