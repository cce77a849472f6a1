/** What System.Xml and System.Xml.Linq give the core when they read the XML
    texts the SDK returns. Parsing itself is not modelled: a document is its
    text together with the nodes the core's queries select from it. */
module XmlDom {
  import opened Wrappers

  /** One `/scanners/scanner` element. `typeAttribute` is the value of its
      `type` attribute; `scannerIdTexts` are the inner texts of all its
      `scannerID` children in document order; every other field is the inner
      text of the first child with that name. None: no such attribute or
      child. */
  datatype ScannerNode = ScannerNode(
    typeAttribute: Option<string>,
    scannerIdTexts: seq<string>,
    serialNumber: Option<string>,
    guid: Option<string>,
    vid: Option<string>,
    pid: Option<string>,
    modelNumber: Option<string>,
    dom: Option<string>,
    firmware: Option<string>)

  /** An outXml string the SDK returned. `scanners` is None when
      XmlDocument.LoadXml rejects the text, otherwise the elements
      `/scanners/scanner` selects, in document order. */
  datatype OutXml = OutXml(text: string, scanners: Option<seq<ScannerNode>>)

  /** The string-values of the first `datatype` and the first `datalabel`
      descendants of a barcode notification; None where there is none. */
  datatype BarcodeFields = BarcodeFields(dataType: Option<string>, dataLabel: Option<string>)

  /** A barcode notification. `fields` is None when XDocument.Parse rejects
      the text. */
  datatype BarcodeXml = BarcodeXml(text: string, fields: Option<BarcodeFields>)
}
