/** The exceptions the core throws, as error values. Each exception of the
    QRScanner.Exceptions namespace keeps its kind and the data that tells two
    occurrences apart (a scanner id, a status code, an opcode); the message
    texts are not modelled. Exceptions raised by .NET itself appear as the
    last five kinds. */
module Errors {
  import opened Wrappers

  datatype Error =
    | NoScannersFound
    | ScannerNotFound(scannerId: int)
    | SelectedScannerIsNull
    | ScannerAlreadySelected(scannerId: int)
      /** FailedToOpenCoreScannerAPIException with the status of the failed Open. */
    | FailedToOpenCoreScannerAPI(status: int)
      /** FailedToCloseCoreScannerAPIException: None when the API was not open,
          otherwise the status of the failed Close. */
    | FailedToCloseCoreScannerAPI(closeStatus: Option<int>)
    | ScannersDetectionFailed(status: int)
      /** CommandExecutionFailedException: the opcode, the request sent and the
          resolved status message. */
    | CommandExecutionFailed(opcode: int, inXml: string, statusMessage: string)
    | DataLabelNotFound
      /** ArgumentException: the XML given to the reader is null or blank. */
    | XmlContentMissing
      /** XmlException: the XML text is not well formed. */
    | MalformedXml
      /** ArgumentNullException: the document holds no scanner node. */
    | ScannerNodeMissing
      /** FormatException, OverflowException or ArgumentException from
          Convert.ToInt32(token, 16). */
    | InvalidHexToken(token: string)
      /** NullReferenceException. */
    | NullReference
      /** Any failure while reading a barcode notification (parse, missing
          element, bad number). */
    | MalformedBarcodeEvent
}
