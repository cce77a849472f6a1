/** The vendor's CoreScanner SDK (the CCoreScanner COM object), which the
    core calls but which is not part of it. Its behaviour is left open: each
    call's reply is some fixed function of every call made so far, so a model
    of the core holds for every SDK that behaves that way. */
module CoreScannerSdk {
  import opened Wrappers
  import opened XmlDom

  /** The calls the core makes. */
  datatype SdkCall =
    | Open(appHandle: int, scannerTypes: seq<int>)
    | Close(appHandle: int)
    | GetScanners
    | ExecCommand(opcode: int, inXml: string)

  /** What a call hands back through its out parameters: the status, the
      outXml string (None for null) and, for GetScanners, the scanner count. */
  datatype SdkReply = SdkReply(status: int, outXml: Option<OutXml>, numberOfScanners: int)

  class CoreScanner {
    /** The reply to the last call of a history of calls. */
    const respond: seq<SdkCall> -> SdkReply
    /** Every call made, in order. */
    var calls: seq<SdkCall>
    /** How many handlers are attached to the BarcodeEvent. */
    var barcodeHandlers: nat

    constructor (respond: seq<SdkCall> -> SdkReply)
      ensures this.respond == respond && calls == [] && barcodeHandlers == 0
    {
      this.respond := respond;
      calls := [];
      barcodeHandlers := 0;
    }

    /** The reply to the i-th call. */
    function Reply(i: nat): SdkReply
      requires i < |calls|
      reads this
    {
      respond(calls[..i + 1])
    }

    /** Makes one call and returns its reply. */
    method Call(call: SdkCall) returns (reply: SdkReply)
      modifies this
      ensures calls == old(calls) + [call]
      ensures reply == Reply(|calls| - 1)
      ensures barcodeHandlers == old(barcodeHandlers)
    {
      calls := calls + [call];
      reply := respond(calls);
      assert calls[..|calls|] == calls;
    }

    /** BarcodeEvent += handler. */
    method AddBarcodeHandler()
      modifies this
      ensures barcodeHandlers == old(barcodeHandlers) + 1 && calls == old(calls)
    {
      barcodeHandlers := barcodeHandlers + 1;
    }

    /** BarcodeEvent -= handler: removing a handler that is not attached
        does nothing. */
    method RemoveBarcodeHandler()
      modifies this
      ensures barcodeHandlers == if old(barcodeHandlers) > 0 then old(barcodeHandlers) - 1 else 0
      ensures calls == old(calls)
    {
      if barcodeHandlers > 0 {
        barcodeHandlers := barcodeHandlers - 1;
      }
    }
  }
}
