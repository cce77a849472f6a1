/** QRScanner/events/BarcodeScannedEventArgs.cs: the data of one scanned
    barcode and the decoder that turns its label, a space-separated list of
    "0xHH" tokens, into text. */
module BarcodeEvent {
  import opened Wrappers
  import opened Text
  import opened Errors

  /** One token: every "0x" removed, the rest read by Convert.ToInt32(_, 16),
      and the value cast to a UTF-16 code unit (its low 16 bits). */
  function DecodeToken(token: string): Result<uint16, Error>
  {
    match ParseHex32(RemoveAll(token, "0x"))
    case Some(v) => Ok((v % 0x1_0000) as uint16)
    case None => Err(InvalidHexToken(token))
  }

  /** The tokens decoded left to right by `decode`; the first token that
      fails stops the decoding. */
  function DecodeEach(decode: string -> Result<uint16, Error>, tokens: seq<string>): Result<seq<uint16>, Error>
  {
    if tokens == [] then Ok([])
    else
      match DecodeEach(decode, tokens[..|tokens| - 1])
      case Err(e) => Err(e)
      case Ok(prefix) =>
        match decode(tokens[|tokens| - 1])
        case Err(e) => Err(e)
        case Ok(c) => Ok(prefix + [c])
  }

  /** The label's tokens, each decoded as DecodeDataLabel does. */
  function DecodeTokens(tokens: seq<string>): Result<seq<uint16>, Error>
  {
    DecodeEach(DecodeToken, tokens)
  }

  /** What DecodeDataLabel computes: a null or blank label is
      DataLabelNotFoundException, otherwise the label split at every single
      space, each piece decoded. */
  function DecodeLabel(dataLabel: Option<string>): Result<seq<uint16>, Error>
  {
    if IsNullOrWhiteSpace(dataLabel) then Err(DataLabelNotFound)
    else DecodeTokens(Split(dataLabel.value, ' '))
  }

  class BarcodeScannedEventArgs {
    const DataType: Int32
    const DataLabel: Option<string>
    const RawXml: string
    /** The decoded label; None until DecodeDataLabel sets it. */
    var DecodedDataLabel: Option<seq<uint16>>

    /** The field initialisation part of the C# constructor. */
    constructor Init(dataType: Int32, dataLabel: Option<string>, rawXml: string)
      ensures DataType == dataType && DataLabel == dataLabel && RawXml == rawXml
      ensures DecodedDataLabel.None?
    {
      DataType := dataType;
      DataLabel := dataLabel;
      RawXml := rawXml;
      DecodedDataLabel := None;
    }

    /** DecodeDataLabel: on success DecodedDataLabel holds the decoded
        label; on failure it is left as it was and the exception is
        returned. */
    method DecodeDataLabel(dataLabel: Option<string>) returns (outcome: Outcome<Error>)
      modifies this
      ensures DecodeLabel(dataLabel).Ok? ==>
        outcome == Pass && DecodedDataLabel == Some(DecodeLabel(dataLabel).value)
      ensures DecodeLabel(dataLabel).Err? ==>
        outcome == Fail(DecodeLabel(dataLabel).error) && DecodedDataLabel == old(DecodedDataLabel)
    {
      if IsNullOrWhiteSpace(dataLabel) {
        return Fail(DataLabelNotFound);
      }
      var hexValues := Split(dataLabel.value, ' ');
      assert DecodeLabel(dataLabel) == DecodeEach(DecodeToken, hexValues);
      var decoded: seq<uint16> := [];
      for i := 0 to |hexValues|
        invariant DecodeEach(DecodeToken, hexValues[..i]) == Ok(decoded)
        invariant DecodedDataLabel == old(DecodedDataLabel)
      {
        var value := DecodeToken(hexValues[i]);
        DecodeEachStep(DecodeToken, hexValues, i, decoded);
        if value.Err? {
          return Fail(value.error);
        }
        decoded := decoded + [value.value];
      }
      assert hexValues[..|hexValues|] == hexValues;
      DecodedDataLabel := Some(decoded);
      return Pass;
    }

    /** BarcodeScannedEventArgs(dataType, dataLabel, rawXml): the three
        arguments stored as given and the label decoded, or the exception
        the decoding throws. */
    static method Create(dataType: Int32, dataLabel: Option<string>, rawXml: string)
      returns (r: Result<BarcodeScannedEventArgs, Error>)
      ensures r.Ok? <==> DecodeLabel(dataLabel).Ok?
      ensures r.Err? ==> r.error == DecodeLabel(dataLabel).error
      ensures r.Ok? ==> fresh(r.value)
      ensures r.Ok? ==> r.value.DataType == dataType && r.value.DataLabel == dataLabel
      ensures r.Ok? ==> r.value.RawXml == rawXml
      ensures r.Ok? ==> r.value.DecodedDataLabel == Some(DecodeLabel(dataLabel).value)
    {
      var args := new BarcodeScannedEventArgs.Init(dataType, dataLabel, rawXml);
      var outcome := args.DecodeDataLabel(dataLabel);
      if outcome.Fail? {
        return Err(outcome.error);
      }
      return Ok(args);
    }
  }

  /** Once a prefix of the tokens fails, the whole list fails the same way. */
  lemma {:induction false} DecodeErrorIsFinal(decode: string -> Result<uint16, Error>, tokens: seq<string>, i: nat)
    requires i <= |tokens|
    requires DecodeEach(decode, tokens[..i]).Err?
    ensures DecodeEach(decode, tokens) == DecodeEach(decode, tokens[..i])
    decreases |tokens| - i
  {
    if i < |tokens| {
      assert tokens[..i + 1][..i] == tokens[..i];
      DecodeErrorIsFinal(decode, tokens, i + 1);
    } else {
      assert tokens[..i] == tokens;
    }
  }

  /** Decoding one more token: the prefix's result extended by the token's
      value, or the token's error as the result of the whole sequence. */
  lemma DecodeEachStep(decode: string -> Result<uint16, Error>, tokens: seq<string>, i: nat, prefix: seq<uint16>)
    requires i < |tokens| && DecodeEach(decode, tokens[..i]) == Ok(prefix)
    ensures decode(tokens[i]).Ok? ==> DecodeEach(decode, tokens[..i + 1]) == Ok(prefix + [decode(tokens[i]).value])
    ensures decode(tokens[i]).Err? ==> DecodeEach(decode, tokens) == Err(decode(tokens[i]).error)
  {
    assert tokens[..i + 1][..i] == tokens[..i];
    if decode(tokens[i]).Err? {
      DecodeErrorIsFinal(decode, tokens, i + 1);
    }
  }

  /** The index of the first token `decode` rejects, or |tokens|. */
  function FirstBad(decode: string -> Result<uint16, Error>, tokens: seq<string>): (i: nat)
    ensures i <= |tokens|
    ensures forall j :: 0 <= j < i ==> decode(tokens[j]).Ok?
    ensures i < |tokens| ==> decode(tokens[i]).Err?
  {
    if tokens == [] then 0
    else
      var init := tokens[..|tokens| - 1];
      var i := FirstBad(decode, init);
      assert forall j :: 0 <= j < |init| ==> init[j] == tokens[j];
      if i < |init| then i
      else if decode(tokens[|tokens| - 1]).Err? then |init|
      else |tokens|
  }

  /** The index of the first token of a label that does not decode, or
      |tokens|. */
  function FirstBadToken(tokens: seq<string>): nat
  {
    FirstBad(DecodeToken, tokens)
  }

  /** Tokens that all decode give one code unit each, in order. */
  lemma {:induction false} DecodeGoodTokens(decode: string -> Result<uint16, Error>, tokens: seq<string>)
    requires forall j :: 0 <= j < |tokens| ==> decode(tokens[j]).Ok?
    ensures DecodeEach(decode, tokens).Ok? && |DecodeEach(decode, tokens).value| == |tokens|
    ensures forall k :: 0 <= k < |tokens| ==> DecodeEach(decode, tokens).value[k] == decode(tokens[k]).value
    decreases |tokens|
  {
    if tokens != [] {
      var init := tokens[..|tokens| - 1];
      DecodeGoodTokens(decode, init);
      var prefix := DecodeEach(decode, init).value;
      var c := decode(tokens[|tokens| - 1]).value;
      assert DecodeEach(decode, tokens) == Ok(prefix + [c]);
      forall k | 0 <= k < |tokens|
        ensures DecodeEach(decode, tokens).value[k] == decode(tokens[k]).value
      {
        if k < |init| {
          assert tokens[k] == init[k];
        }
      }
    }
  }

  /** When every token decodes, the result has one code unit per token, the
      k-th being the k-th token's value; otherwise the decoding fails with
      the error of the first token that does not decode. */
  lemma DecodeTokensSpec(tokens: seq<string>)
    ensures FirstBadToken(tokens) == |tokens| ==>
      DecodeTokens(tokens).Ok? && |DecodeTokens(tokens).value| == |tokens|
      && forall k :: 0 <= k < |tokens| ==> DecodeTokens(tokens).value[k] == DecodeToken(tokens[k]).value
    ensures FirstBadToken(tokens) < |tokens| ==>
      DecodeTokens(tokens) == Err(DecodeToken(tokens[FirstBadToken(tokens)]).error)
  {
    var i := FirstBad(DecodeToken, tokens);
    if i == |tokens| {
      DecodeGoodTokens(DecodeToken, tokens);
    } else {
      DecodeGoodTokens(DecodeToken, tokens[..i]);
      assert tokens[..i + 1][..i] == tokens[..i];
      DecodeErrorIsFinal(DecodeToken, tokens, i + 1);
    }
  }

  /** An empty token is never valid hex. */
  lemma EmptyTokenFails()
    ensures DecodeToken("") == Err(InvalidHexToken(""))
  {
  }

  /** Two adjacent separators leave an empty piece after the first one. */
  lemma {:induction false} SplitDoubledSeparator(s: string, sep: char, k: nat)
    requires k + 1 < |s| && s[k] == sep && s[k + 1] == sep
    ensures "" in Split(s, sep)[1..]
    decreases k
  {
    var rest := Split(s[1..], sep);
    if k == 0 {
      assert s[1..][0] == sep;
      assert rest[0] == "";
    } else {
      SplitDoubledSeparator(s[1..], sep, k - 1);
    }
  }

  /** A label with a doubled space never decodes: the empty token between
      the two spaces is rejected (and a blank label is rejected before). */
  lemma {:induction false} DoubledSpaceFails(text: string, k: nat)
    requires k + 1 < |text| && text[k] == ' ' && text[k + 1] == ' '
    ensures DecodeLabel(Some(text)).Err?
  {
    if !IsBlank(text) {
      var tokens := Split(text, ' ');
      SplitDoubledSeparator(text, ' ', k);
      var i :| 0 <= i < |tokens| - 1 && tokens[1..][i] == "";
      EmptyTokenFails();
      DecodeTokensSpec(tokens);
      assert DecodeToken(tokens[i + 1]).Err?;
      assert FirstBadToken(tokens) <= i + 1;
    }
  }

  // ---------------------------------------------------------------- round trip

  /** A byte as the scanner writes it in a label: "0x" and two hex digits. */
  function ByteToken(b: nat): (t: string)
    requires b < 256
    ensures |t| == 4 && ' ' !in t && 'x' !in t[2..]
  {
    var t := "0x" + ByteToHexDigits(b);
    assert t[2..] == ByteToHexDigits(b);
    assert forall i :: 0 <= i < |t[2..]| ==> HexDigitValue(t[2..][i]).Some?;
    t
  }

  predicate AreBytes(bytes: seq<nat>)
  {
    forall i :: 0 <= i < |bytes| ==> bytes[i] < 256
  }

  /** The token of each byte, in order. */
  function ByteTokens(bytes: seq<nat>): (tokens: seq<string>)
    requires AreBytes(bytes)
    ensures |tokens| == |bytes|
    ensures forall i :: 0 <= i < |bytes| ==> tokens[i] == ByteToken(bytes[i])
  {
    seq(|bytes|, i requires 0 <= i < |bytes| => ByteToken(bytes[i]))
  }

  /** A label made of byte tokens joined by single spaces. */
  function EncodeLabel(bytes: seq<nat>): string
    requires AreBytes(bytes)
  {
    Join(ByteTokens(bytes), " ")
  }

  lemma ByteTokenDecodes(b: nat)
    requires b < 256
    ensures DecodeToken(ByteToken(b)) == Ok(b as uint16)
  {
    var t := ByteToken(b);
    assert t[..2] == "0x";
    assert RemoveAll(t, "0x") == RemoveAll(t[2..], "0x");
    RemoveAllWithoutX(t[2..]);
    assert t[2..] == ByteToHexDigits(b);
    assert t[2..][0] != '+';
    assert t[2..][1] != 'x' && t[2..][1] != 'X';
  }

  lemma {:induction false} JoinStartsWithFirst(pieces: seq<string>, sep: string)
    requires |pieces| > 0 && |pieces[0]| > 0
    ensures |Join(pieces, sep)| > 0 && Join(pieces, sep)[0] == pieces[0][0]
  {
  }

  lemma {:induction false} EncodedLabelSplits(bytes: seq<nat>)
    requires |bytes| > 0 && AreBytes(bytes)
    ensures !IsBlank(EncodeLabel(bytes))
    ensures Split(EncodeLabel(bytes), ' ') == ByteTokens(bytes)
  {
    var tokens := ByteTokens(bytes);
    JoinStartsWithFirst(tokens, " ");
    assert EncodeLabel(bytes)[0] == '0';
    assert forall i :: 0 <= i < |tokens| ==> ' ' !in tokens[i];
    SplitJoin(tokens, ' ');
    assert [' '] == " ";
  }

  lemma {:induction false} ByteTokensDecode(bytes: seq<nat>)
    requires AreBytes(bytes)
    ensures DecodeTokens(ByteTokens(bytes)) == Ok(seq(|bytes|, i requires 0 <= i < |bytes| => bytes[i] as uint16))
  {
    var tokens := ByteTokens(bytes);
    forall i | 0 <= i < |tokens| ensures DecodeToken(tokens[i]) == Ok(bytes[i] as uint16) {
      ByteTokenDecodes(bytes[i]);
    }
    DecodeTokensSpec(tokens);
    assert FirstBadToken(tokens) == |tokens|;
    var expected := seq(|bytes|, i requires 0 <= i < |bytes| => bytes[i] as uint16);
    var decoded := DecodeTokens(tokens).value;
    assert |decoded| == |expected|;
    forall k | 0 <= k < |decoded| ensures decoded[k] == expected[k] {
      assert decoded[k] == DecodeToken(tokens[k]).value;
    }
    assert decoded == expected;
  }

  /** Bytes written as "0xHH" tokens joined by single spaces decode back to
      the same values, one code unit per byte, in order. */
  lemma {:induction false} DecodeEncodedLabel(bytes: seq<nat>)
    requires |bytes| > 0 && AreBytes(bytes)
    ensures DecodeLabel(Some(EncodeLabel(bytes))) ==
      Ok(seq(|bytes|, i requires 0 <= i < |bytes| => bytes[i] as uint16))
  {
    EncodedLabelSplits(bytes);
    ByteTokensDecode(bytes);
  }

  /** The bytes of "012" as label tokens. */
  lemma ExampleTokens()
    ensures ByteToken(0x30) == "0x30" && ByteToken(0x31) == "0x31" && ByteToken(0x32) == "0x32"
  {
    assert ByteToHexDigits(0x30) == "30";
    assert ByteToHexDigits(0x31) == "31";
    assert ByteToHexDigits(0x32) == "32";
  }

  /** The label of the example in the class documentation is the encoding
      of the bytes of "012". */
  lemma ExampleEncoding(bytes: seq<nat>)
    requires bytes == [0x30, 0x31, 0x32]
    ensures AreBytes(bytes) && EncodeLabel(bytes) == "0x30 0x31 0x32"
  {
    ExampleTokens();
    var tokens := ByteTokens(bytes);
    assert tokens == ["0x30", "0x31", "0x32"];
    assert Join(["0x32"], " ") == "0x32";
    assert Join(["0x31", "0x32"], " ") == "0x31 0x32" by {
      assert ["0x31", "0x32"][1..] == ["0x32"];
    }
    assert Join(tokens, " ") == "0x30 0x31 0x32" by {
      assert tokens[1..] == ["0x31", "0x32"];
    }
  }

  /** The label "0x30 0x31 0x32" decodes to the three code units of "012". */
  lemma DecodeExample(dataLabel: string)
    requires dataLabel == "0x30 0x31 0x32"
    ensures DecodeLabel(Some(dataLabel)) == Ok([0x30, 0x31, 0x32])
    ensures var d := DecodeLabel(Some(dataLabel)).value;
      |d| == 3 && forall i :: 0 <= i < 3 ==> d[i] as int == "012"[i] as int
  {
    DecodeExampleValues(dataLabel, [0x30, 0x31, 0x32]);
    var text := "012";
    assert text[0] as int == 0x30 && text[1] as int == 0x31 && text[2] as int == 0x32;
  }

  /** The example label is the "0xHH" encoding of the bytes 0x30, 0x31,
      0x32, so DecodeEncodedLabel gives its values. The bytes are a
      parameter: as a literal in the body they make the proof far costlier. */
  lemma DecodeExampleValues(dataLabel: string, bytes: seq<nat>)
    requires dataLabel == "0x30 0x31 0x32" && bytes == [0x30, 0x31, 0x32]
    ensures DecodeLabel(Some(dataLabel)) == Ok([0x30, 0x31, 0x32])
  {
    ExampleEncoding(bytes);
    DecodeEncodedLabel(bytes);
    assert seq(|bytes|, i requires 0 <= i < |bytes| => bytes[i] as uint16) == [0x30, 0x31, 0x32];
  }
}
