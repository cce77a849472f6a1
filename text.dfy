/** The .NET string and number operations the core relies on: white space,
    Trim, decimal formatting and parsing, hexadecimal parsing, Split, Join and
    Replace. Each is stated with the semantics .NET gives it. */
module Text {
  import opened Wrappers

  /** A C# `int`. */
  type Int32 = x: int | -0x8000_0000 <= x < 0x8000_0000

  /** A UTF-16 code unit, what a C# `char` holds. */
  newtype uint16 = x: int | 0 <= x < 0x1_0000

  /** Environment.NewLine on Windows, where the service runs. */
  const NewLine: string := "\r\n"

  /** StringBuilder.AppendLine(s). */
  function Line(s: string): string { s + NewLine }

  /** The text a sequence of AppendLine calls builds. */
  function Lines(ls: seq<string>): string
  {
    if ls == [] then "" else Lines(ls[..|ls| - 1]) + Line(ls[|ls| - 1])
  }

  lemma {:induction false} LinesAppend(a: seq<string>, b: seq<string>)
    ensures Lines(a + b) == Lines(a) + Lines(b)
    decreases |b|
  {
    if b == [] {
      assert a + b == a;
    } else {
      var b' := b[..|b| - 1];
      assert (a + b)[..|a + b| - 1] == a + b';
      LinesAppend(a, b');
    }
  }

  // ---------------------------------------------------------------- white space

  /** char.IsWhiteSpace: the Unicode space separators, U+2028, U+2029,
      U+0009 to U+000D and U+0085. */
  predicate IsWhiteSpace(c: char)
  {
    var n := c as int;
    n == 0x20 || (0x09 <= n <= 0x0D) || n == 0x85 || n == 0xA0 || n == 0x1680
    || (0x2000 <= n <= 0x200A) || n == 0x2028 || n == 0x2029 || n == 0x202F
    || n == 0x205F || n == 0x3000
  }

  /** The white space that NumberStyles.Integer lets a number be padded with:
      U+0009 to U+000D and U+0020. */
  predicate IsNumberWhite(c: char)
  {
    c == ' ' || ('\t' <= c <= '\r')
  }

  /** Every character of `s` is white space (the empty string included). */
  predicate IsBlank(s: string)
  {
    forall i :: 0 <= i < |s| ==> IsWhiteSpace(s[i])
  }

  /** string.IsNullOrWhiteSpace, with None standing for null. */
  predicate IsNullOrWhiteSpace(s: Option<string>)
  {
    s.None? || IsBlank(s.value)
  }

  /** `s` without the characters `white` holds of at its start. */
  function TrimStartBy(s: string, white: char -> bool): (r: string)
    ensures |r| <= |s| && r == s[|s| - |r|..]
    ensures r == [] || !white(r[0])
    ensures forall i :: 0 <= i < |s| - |r| ==> white(s[i])
    decreases |s|
  {
    if s != [] && white(s[0]) then TrimStartBy(s[1..], white) else s
  }

  /** `s` without the characters `white` holds of at its end. */
  function TrimEndBy(s: string, white: char -> bool): (r: string)
    ensures |r| <= |s| && r == s[..|r|]
    ensures r == [] || !white(r[|r| - 1])
    ensures forall i :: |r| <= i < |s| ==> white(s[i])
    decreases |s|
  {
    if s != [] && white(s[|s| - 1]) then TrimEndBy(s[..|s| - 1], white) else s
  }

  function TrimBy(s: string, white: char -> bool): string
  {
    TrimEndBy(TrimStartBy(s, white), white)
  }

  /** string.Trim(). */
  function Trim(s: string): string
  {
    TrimBy(s, IsWhiteSpace)
  }

  /** How many characters trimming cuts from the start of `s`. */
  function TrimStartCount(s: string, white: char -> bool): nat
  {
    |s| - |TrimStartBy(s, white)|
  }

  /** Trimming removes white space at both ends and nothing else: the result
      is the slice of `s` from TrimStartCount on, it neither starts nor ends
      with white space, and everything cut away is white space. */
  lemma {:induction false} TrimByIsSlice(s: string, white: char -> bool)
    ensures var r, k := TrimBy(s, white), TrimStartCount(s, white);
      && (r == [] || (!white(r[0]) && !white(r[|r| - 1])))
      && k + |r| <= |s| && r == s[k..k + |r|]
      && (forall i :: 0 <= i < k ==> white(s[i]))
      && (forall i :: k + |r| <= i < |s| ==> white(s[i]))
  {
    var t := TrimStartBy(s, white);
    var r := TrimEndBy(t, white);
    assert TrimBy(s, white) == r && TrimStartCount(s, white) == |s| - |t|;
    TrimmedBothEnds(s, t, r, white);
  }

  /** A start-trimmed `t` of `s`, end-trimmed to `r`, is a slice of `s`
      with white space cut on both sides. */
  lemma {:induction false} TrimmedBothEnds(s: string, t: string, r: string, white: char -> bool)
    requires |t| <= |s| && t == s[|s| - |t|..]
    requires t == [] || !white(t[0])
    requires forall i :: 0 <= i < |s| - |t| ==> white(s[i])
    requires |r| <= |t| && r == t[..|r|]
    requires r == [] || !white(r[|r| - 1])
    requires forall i :: |r| <= i < |t| ==> white(t[i])
    ensures var k := |s| - |t|;
      && (r == [] || (!white(r[0]) && !white(r[|r| - 1])))
      && k + |r| <= |s| && r == s[k..k + |r|]
      && (forall i :: k + |r| <= i < |s| ==> white(s[i]))
  {
    var k := |s| - |t|;
    if r != [] {
      assert r[0] == t[0];
    }
    forall i | k + |r| <= i < |s| ensures white(s[i]) {
      assert s[i] == t[i - k];
    }
  }

  /** The trimmed text is empty exactly when the text is blank. */
  lemma {:induction false} TrimEmptyIffBlank(s: string)
    ensures Trim(s) == [] <==> IsBlank(s)
  {
    TrimByIsSlice(s, IsWhiteSpace);
    var r, k := Trim(s), TrimStartCount(s, IsWhiteSpace);
    if r != [] {
      assert s[k] == r[0];
    }
  }

  /** Text with no white space at either end is left as it is. */
  lemma TrimByUnchanged(s: string, white: char -> bool)
    requires s == [] || (!white(s[0]) && !white(s[|s| - 1]))
    ensures TrimBy(s, white) == s
  {
  }

  /** Trimming twice is trimming once. */
  lemma TrimIdempotent(s: string)
    ensures Trim(Trim(s)) == Trim(s)
  {
    TrimByIsSlice(s, IsWhiteSpace);
    TrimByUnchanged(Trim(s), IsWhiteSpace);
  }

  /** Cutting white space from the start of `lead + rest` removes exactly
      `lead` when `lead` is all white and `rest` does not start white. */
  lemma {:induction false} TrimStartPadded(lead: string, rest: string, white: char -> bool)
    requires forall i :: 0 <= i < |lead| ==> white(lead[i])
    requires rest == [] || !white(rest[0])
    ensures TrimStartBy(lead + rest, white) == rest
    decreases |lead|
  {
    if lead == [] {
      assert lead + rest == rest;
    } else {
      assert (lead + rest)[1..] == lead[1..] + rest;
      TrimStartPadded(lead[1..], rest, white);
    }
  }

  /** Cutting white space from the end of `rest + trail` removes exactly
      `trail` when `trail` is all white and `rest` does not end white. */
  lemma {:induction false} TrimEndPadded(rest: string, trail: string, white: char -> bool)
    requires forall i :: 0 <= i < |trail| ==> white(trail[i])
    requires rest == [] || !white(rest[|rest| - 1])
    ensures TrimEndBy(rest + trail, white) == rest
    decreases |trail|
  {
    if trail == [] {
      assert rest + trail == rest;
    } else {
      assert (rest + trail)[..|rest + trail| - 1] == rest + trail[..|trail| - 1];
      TrimEndPadded(rest, trail[..|trail| - 1], white);
    }
  }

  lemma Concat3(a: string, b: string, c: string)
    ensures a + b + c == a + (b + c)
  {
  }

  /** Trimming `lead + s + trail` gives `s` when `lead` and `trail` are all
      white and `s` neither starts nor ends white. */
  lemma {:induction false} TrimByPadded(lead: string, s: string, trail: string, white: char -> bool)
    requires forall i :: 0 <= i < |lead| ==> white(lead[i])
    requires forall i :: 0 <= i < |trail| ==> white(trail[i])
    requires s == [] || (!white(s[0]) && !white(s[|s| - 1]))
    ensures TrimBy(lead + s + trail, white) == s
  {
    if s == [] {
      var both := lead + trail;
      forall i | 0 <= i < |both| ensures white(both[i]) {
        if i >= |lead| {
          assert both[i] == trail[i - |lead|];
        }
      }
      TrimStartPadded(both, [], white);
      assert lead + s + trail == both + [];
    } else {
      Concat3(lead, s, trail);
      TrimStartPadded(lead, s + trail, white);
      TrimEndPadded(s, trail, white);
    }
  }

  /** Text padded with white space on both sides trims back to itself when
      it neither starts nor ends with white space. */
  lemma TrimPadded(lead: string, s: string, trail: string)
    requires IsBlank(lead) && IsBlank(trail)
    requires s == [] || (!IsWhiteSpace(s[0]) && !IsWhiteSpace(s[|s| - 1]))
    ensures Trim(lead + s + trail) == s
  {
    TrimByPadded(lead, s, trail, IsWhiteSpace);
  }

  // ---------------------------------------------------------------- decimal

  predicate IsDigit(c: char) { '0' <= c <= '9' }

  predicate AllDigits(s: string)
  {
    forall i :: 0 <= i < |s| ==> IsDigit(s[i])
  }

  function DigitValue(c: char): (d: nat)
    requires IsDigit(c)
    ensures d < 10
  {
    c as int - '0' as int
  }

  function DigitChar(d: nat): (c: char)
    requires d < 10
    ensures IsDigit(c) && DigitValue(c) == d
  {
    (('0' as int) + d) as char
  }

  /** The decimal digits of a natural number, without leading zeros. */
  function NatToDecimal(n: nat): (r: string)
    ensures |r| > 0 && AllDigits(r)
    decreases n
  {
    if n < 10 then [DigitChar(n)] else NatToDecimal(n / 10) + [DigitChar(n % 10)]
  }

  /** An integer as C# interpolation writes it: a '-' before the digits of a
      negative number. */
  function IntToDecimal(n: int): (r: string)
    ensures |r| > 0 && (r[0] == '-' || IsDigit(r[0])) && IsDigit(r[|r| - 1])
    ensures forall i :: 0 <= i < |r| ==> r[i] == '-' || IsDigit(r[i])
  {
    if n < 0 then "-" + NatToDecimal(-n) else NatToDecimal(n)
  }

  /** The value of a string of decimal digits. */
  function DigitsValue(s: string): nat
    requires AllDigits(s)
  {
    if s == [] then 0 else DigitsValue(s[..|s| - 1]) * 10 + DigitValue(s[|s| - 1])
  }

  lemma {:induction false} DigitsValueOfDecimal(n: nat)
    ensures DigitsValue(NatToDecimal(n)) == n
    decreases n
  {
    if n >= 10 {
      var s := NatToDecimal(n);
      assert s[..|s| - 1] == NatToDecimal(n / 10);
      DigitsValueOfDecimal(n / 10);
    }
  }

  /** An optional sign followed by one or more decimal digits, of any size. */
  function ParseDecimal(s: string): Option<int>
  {
    if s != [] && (s[0] == '-' || s[0] == '+') then
      var body := s[1..];
      if body != [] && AllDigits(body) then
        var v: int := if s[0] == '-' then -(DigitsValue(body) as int) else DigitsValue(body);
        Some(v)
      else None
    else if s != [] && AllDigits(s) then Some(DigitsValue(s))
    else None
  }

  /** Formatting an integer and parsing it back gives the integer. */
  lemma {:induction false} DecimalRoundTrip(n: int)
    ensures ParseDecimal(IntToDecimal(n)) == Some(n)
  {
    if n < 0 {
      assert IntToDecimal(n)[1..] == NatToDecimal(-n);
      DigitsValueOfDecimal(-n);
    } else {
      DigitsValueOfDecimal(n);
    }
  }

  /** Two integers with the same decimal text are equal. */
  lemma DecimalInjective(a: int, b: int)
    requires IntToDecimal(a) == IntToDecimal(b)
    ensures a == b
  {
    DecimalRoundTrip(a);
    DecimalRoundTrip(b);
  }

  predicate InInt32(v: int) { -0x8000_0000 <= v < 0x8000_0000 }

  /** int.TryParse(s, out v) (and int.Parse(s)) with NumberStyles.Integer:
      optional surrounding white space, an optional sign and decimal digits,
      whose value must fit in an Int32; None where TryParse returns false
      and Parse throws. */
  function ParseInt32(s: string): (r: Option<Int32>)
  {
    match ParseDecimal(TrimBy(s, IsNumberWhite))
    case Some(v) => if InInt32(v) then Some(v as Int32) else None
    case None => None
  }

  /** Every Int32 is read back from its own decimal text. */
  lemma Int32RoundTrip(n: Int32)
    ensures ParseInt32(IntToDecimal(n)) == Some(n)
  {
    TrimByUnchanged(IntToDecimal(n), IsNumberWhite);
    DecimalRoundTrip(n);
  }

  /** Every Int32 decimal text is also left unchanged by string.Trim. */
  lemma TrimDecimal(n: int)
    ensures Trim(IntToDecimal(n)) == IntToDecimal(n)
  {
    TrimByUnchanged(IntToDecimal(n), IsWhiteSpace);
  }

  // ---------------------------------------------------------------- hexadecimal

  function HexDigitValue(c: char): (r: Option<nat>)
    ensures r.Some? ==> r.value < 16
  {
    if '0' <= c <= '9' then Some(c as int - '0' as int)
    else if 'a' <= c <= 'f' then Some(c as int - 'a' as int + 10)
    else if 'A' <= c <= 'F' then Some(c as int - 'A' as int + 10)
    else None
  }

  predicate AllHexDigits(s: string)
  {
    forall i :: 0 <= i < |s| ==> HexDigitValue(s[i]).Some?
  }

  function HexValue(s: string): nat
    requires AllHexDigits(s)
  {
    if s == [] then 0 else HexValue(s[..|s| - 1]) * 16 + HexDigitValue(s[|s| - 1]).value
  }

  /** Convert.ToInt32(s, 16), giving the 32-bit pattern as an unsigned value:
      an optional '+', an optional "0x" or "0X" prefix, then one or more
      hexadecimal digits and nothing else, worth at most 0xFFFFFFFF. None
      where Convert throws (format, sign or overflow). */
  function ParseHex32(s: string): (r: Option<nat>)
    ensures r.Some? ==> r.value < 0x1_0000_0000
  {
    var unsigned := if s != [] && s[0] == '+' then s[1..] else s;
    var digits := if |unsigned| >= 2 && unsigned[0] == '0' && (unsigned[1] == 'x' || unsigned[1] == 'X')
                  then unsigned[2..] else unsigned;
    if digits != [] && AllHexDigits(digits) && HexValue(digits) < 0x1_0000_0000
    then Some(HexValue(digits))
    else None
  }

  /** The upper-case hexadecimal digit of a value below 16. */
  function HexChar(d: nat): (c: char)
    requires d < 16
    ensures HexDigitValue(c) == Some(d)
  {
    if d < 10 then ('0' as int + d) as char else ('A' as int + d - 10) as char
  }

  /** A byte written as two upper-case hexadecimal digits. */
  function ByteToHexDigits(b: nat): (r: string)
    requires b < 256
    ensures |r| == 2 && AllHexDigits(r) && HexValue(r) == b
  {
    var r := [HexChar(b / 16), HexChar(b % 16)];
    assert r[..1] == [HexChar(b / 16)] && r[..1][..0] == [];
    assert HexValue(r[..1]) == b / 16;
    r
  }

  // ---------------------------------------------------------------- Replace, Split, Join

  /** s.Replace(pattern, ""): occurrences of `pattern` are found from left to
      right, without overlapping, and removed. */
  function RemoveAll(s: string, pattern: string): string
    requires |pattern| > 0
    decreases |s|
  {
    if |s| < |pattern| then s
    else if s[..|pattern|] == pattern then RemoveAll(s[|pattern|..], pattern)
    else [s[0]] + RemoveAll(s[1..], pattern)
  }

  /** Text without an 'x' holds no "0x" to remove. */
  lemma {:induction false} RemoveAllWithoutX(s: string)
    requires 'x' !in s
    ensures RemoveAll(s, "0x") == s
    decreases |s|
  {
    if |s| >= 2 {
      assert s[1] in s;
      assert s[..2] != "0x";
      assert 'x' !in s[1..] by {
        forall i | 0 <= i < |s| - 1 ensures s[1..][i] != 'x' { assert s[1..][i] == s[i + 1]; }
      }
      RemoveAllWithoutX(s[1..]);
      assert s == [s[0]] + s[1..];
    }
  }

  /** s.Split(sep): the pieces between separators, empty pieces included;
      there is always at least one piece. */
  function Split(s: string, sep: char): (r: seq<string>)
    ensures |r| > 0
    decreases |s|
  {
    if s == [] then [""]
    else
      var rest := Split(s[1..], sep);
      if s[0] == sep then [""] + rest else [[s[0]] + rest[0]] + rest[1..]
  }

  /** string.Join(sep, pieces). */
  function Join(pieces: seq<string>, sep: string): string
  {
    if pieces == [] then ""
    else if |pieces| == 1 then pieces[0]
    else pieces[0] + sep + Join(pieces[1..], sep)
  }

  /** Splitting a piece without separators followed by a separator. */
  lemma {:induction false} SplitAfterPiece(a: string, sep: char, b: string)
    requires sep !in a
    ensures Split(a + [sep] + b, sep) == [a] + Split(b, sep)
    decreases |a|
  {
    if a == [] {
      assert a + [sep] + b == [sep] + b;
      assert ([sep] + b)[1..] == b;
    } else {
      var s := a + [sep] + b;
      assert s[0] == a[0];
      assert s[1..] == a[1..] + [sep] + b;
      assert sep !in a[1..] by {
        forall i | 0 <= i < |a| - 1 ensures a[1..][i] != sep { assert a[1..][i] == a[i + 1]; }
      }
      SplitAfterPiece(a[1..], sep, b);
      assert [a[0]] + a[1..] == a;
    }
  }

  /** A piece without separators splits into itself. */
  lemma {:induction false} SplitWithoutSeparator(a: string, sep: char)
    requires sep !in a
    ensures Split(a, sep) == [a]
    decreases |a|
  {
    if a != [] {
      assert sep !in a[1..] by {
        forall i | 0 <= i < |a| - 1 ensures a[1..][i] != sep { assert a[1..][i] == a[i + 1]; }
      }
      SplitWithoutSeparator(a[1..], sep);
      assert [a[0]] + a[1..] == a;
    }
  }

  /** Joining pieces that hold no separator and splitting the result gives
      the pieces back. */
  lemma {:induction false} SplitJoin(pieces: seq<string>, sep: char)
    requires |pieces| > 0
    requires forall i :: 0 <= i < |pieces| ==> sep !in pieces[i]
    ensures Split(Join(pieces, [sep]), sep) == pieces
    decreases |pieces|
  {
    if |pieces| == 1 {
      SplitWithoutSeparator(pieces[0], sep);
    } else {
      SplitJoin(pieces[1..], sep);
      SplitAfterPiece(pieces[0], sep, Join(pieces[1..], [sep]));
      assert [pieces[0]] + pieces[1..] == pieces;
    }
  }

  // ---------------------------------------------------------------- searching

  /** The index of the first `c` in `s`, or |s| when there is none. */
  function IndexOf(s: string, c: char): (i: nat)
    ensures i <= |s|
    ensures i < |s| ==> s[i] == c
    ensures forall j :: 0 <= j < i ==> s[j] != c
  {
    if s == [] then 0 else if s[0] == c then 0 else 1 + IndexOf(s[1..], c)
  }

  function StartsWith(s: string, prefix: string): bool
  {
    |prefix| <= |s| && s[..|prefix|] == prefix
  }
}
