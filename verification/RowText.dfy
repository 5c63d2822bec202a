/** The exact text of a row's values.

  A value has many JSON spellings that parse back to it. These lemmas say which one is
  written: the shortest integer, lower-case hexadecimal digits, and escapes for nothing
  but quotes, backslashes and controls. With the round trips they fix every byte.
 */
module RowText {
  import opened Wrappers
  import opened Utf8
  import opened RowStream

  // ---- Strings ----

  /** Characters that section 7 of RFC 8259 does not allow in a string as they are. */
  predicate MustEscape(c: char) {
    c == '"' || c == '\\' || c as int < 0x20
  }

  /** The escapes of two characters. */
  const SHORT: map<int, string> := map[
    0x22 := "\\\"", 0x5C := "\\\\", 8 := "\\b", 9 := "\\t", 10 := "\\n", 12 := "\\f", 13 := "\\r"]

  /** Only what must be escaped is, in its short form if it has one, and else by its four hexadecimal digits. */
  lemma EscapeIsMinimal(c: char)
    ensures var e := EscapeChar(c);
            if !MustEscape(c) then e == [c]
            else if c as int in SHORT then e == SHORT[c as int]
            else
              && |e| == 6 && e[..4] == "\\u00"
              && HexValue(e[4]).Some? && HexValue(e[5]).Some?
              && HexValue(e[4]).value * 16 + HexValue(e[5]).value == c as int
  {
    assert '"' as int == 0x22 && '\\' as int == 0x5C && '\n' as int == 10 && '\r' as int == 13 && '\t' as int == 9;
    if MustEscape(c) && c as int !in SHORT {
      HexCharRoundTrip(c as int / 16);
      HexCharRoundTrip(c as int % 16);
    }
  }

  /** A text is escaped character by character. */
  lemma {:induction false} EscapesConcatenate(a: string, b: string)
    ensures EscapeBody(a + b) == EscapeBody(a) + EscapeBody(b)
  {
    if a == "" {
      assert a + b == b;
    } else {
      assert (a + b)[0] == a[0] && (a + b)[1..] == a[1..] + b;
      EscapesConcatenate(a[1..], b);
    }
  }

  /** A text without quotes, backslashes and controls is written as it is. */
  lemma {:induction false} PlainTextIsItself(text: string)
    requires forall c | c in text :: !MustEscape(c)
    ensures EscapeBody(text) == text && JsonString(text) == "\"" + (text + "\"")
  {
    if text != "" {
      EscapeIsMinimal(text[0]);
      PlainTextIsItself(text[1..]);
      assert text == [text[0]] + text[1..];
    }
  }

  // ---- Numbers ----

  lemma {:induction false} DigitsAreShortest(n: nat)
    ensures Digits(n) != "" && (forall c | c in Digits(n) :: '0' <= c <= '9')
    ensures Digits(n)[0] == '0' ==> n == 0 && |Digits(n)| == 1
  {
    if n >= 10 {
      DigitsAreShortest(n / 10);
    }
  }

  /** An integer is written in decimal, with a sign only if it is negative, and without a leading zero. */
  lemma IntegerIsShortest(n: int)
    ensures var s := IntegerText(n);
            var digits := if n < 0 then s[1..] else s;
            && (n < 0 ==> s != "" && s[0] == '-') && digits != "" && (forall c | c in digits :: '0' <= c <= '9')
            && (digits[0] == '0' ==> n == 0 && |digits| == 1)
  {
    DigitsAreShortest(if n < 0 then -n else n);
    if n < 0 {
      assert IntegerText(n)[1..] == Digits(-n);
    }
  }

  lemma HexCharIsLower(n: Nibble)
    ensures '0' <= HexChar(n) <= '9' || 'a' <= HexChar(n) <= 'f'
    ensures HexValue(HexChar(n)) == Some(n) && !MustEscape(HexChar(n))
  {
    HexCharRoundTrip(n);
  }

  lemma {:induction false} NibblesOfBytes(bytes: seq<Byte>, i: nat)
    requires i < |bytes|
    ensures |ByteNibbles(bytes)| == 2 * |bytes|
    ensures ByteNibbles(bytes)[2 * i] == bytes[i] / 16 && ByteNibbles(bytes)[2 * i + 1] == bytes[i] % 16
  {
    if i > 0 {
      NibblesOfBytes(bytes[1..], i - 1);
    } else if |bytes| > 1 {
      NibblesOfBytes(bytes[1..], 0);
    } else {
      assert ByteNibbles(bytes[1..]) == [];
    }
  }

  /** A blob is two lower-case hexadecimal digits a byte, the high one first. */
  lemma BlobIsHex(bytes: seq<Byte>, i: nat)
    requires i < |bytes|
    ensures var s := HexString(ByteNibbles(bytes));
            && |s| == 2 * |bytes|
            && HexValue(s[2 * i]) == Some(bytes[i] / 16) && HexValue(s[2 * i + 1]) == Some(bytes[i] % 16)
  {
    NibblesOfBytes(bytes, i);
    HexCharIsLower(bytes[i] / 16);
    HexCharIsLower(bytes[i] % 16);
  }

  lemma HexIsPlain(ns: seq<Nibble>)
    ensures |HexString(ns)| == |ns| && forall c | c in HexString(ns) :: '0' <= c <= '9' || 'a' <= c <= 'f'
  {
    forall i | 0 <= i < |ns| ensures '0' <= HexString(ns)[i] <= '9' || 'a' <= HexString(ns)[i] <= 'f' {
      HexCharIsLower(ns[i]);
    }
  }

  /** The sign and the digits of an exponent: always a sign, and no leading zero. */
  lemma ExponentIsSigned(exponent: int)
    ensures var s := ExponentText(exponent);
            && |s| > 1 && s[0] == (if exponent < 0 then '-' else '+')
            && (forall c | c in s[1..] :: '0' <= c <= '9') && (s[1] == '0' ==> exponent == 0 && |s| == 2)
  {
    DigitsAreShortest(if exponent < 0 then -exponent else exponent);
    assert ExponentText(exponent)[1..] == Digits(if exponent < 0 then -exponent else exponent);
  }

  /** A finite number is a sign, a leading digit, its thirteen fraction digits and its power of two; zero is short. */
  lemma FloatForm(f: Binary64)
    ensures var s := FloatHex(f);
            match f
            case NotANumber => s == "nan"
            case Infinity(negative) => s == if negative then "-inf" else "inf"
            case Zero(negative) => s == if negative then "-0x0.0p+0" else "0x0.0p+0"
            case Normal(negative, fraction, exponent) =>
              HasForm(if negative then s[..1] else "", if negative then s[1..] else s, negative, "0x1.", fraction,
                      exponent)
            case Subnormal(negative, fraction) =>
              HasForm(if negative then s[..1] else "", if negative then s[1..] else s, negative, "0x0.", fraction,
                      -1022)
  {
    hide HasForm, HexString, ExponentText;
    match f
    case Normal(negative, fraction, exponent) =>
      assert f.Valid();
      FormOf(negative, FloatHex(f), "0x1.", fraction, exponent);
    case Subnormal(negative, fraction) =>
      assert f.Valid();
      SmallestExponent();
      FormOf(negative, FloatHex(f), "0x0.", fraction, -1022);
    case _ =>
  }

  lemma SmallestExponent()
    ensures "p" + ExponentText(-1022) == "p-1022"
  {
    assert Digits(1022) == Digits(102) + "2" && Digits(102) == Digits(10) + "2" && Digits(10) == Digits(1) + "0";
  }

  predicate HasForm(sign: string, s: string, negative: bool, lead: string, fraction: seq<Nibble>, exponent: int) {
    && sign == (if negative then "-" else "")
    && |s| > 18 && |fraction| == 13 && |lead| == 4 && s[..4] == lead
    && (forall k | 0 <= k < 13 :: HexValue(s[4 + k]) == Some(fraction[k]))
    && s[17] == 'p' && s[18..] == ExponentText(exponent)
  }

  lemma FormOf(negative: bool, s: string, lead: string, fraction: seq<Nibble>, exponent: int)
    requires |lead| == 4 && |fraction| == 13
    requires s == (if negative then "-" else "") + (lead + (HexString(fraction) + ("p" + ExponentText(exponent))))
    ensures HasForm(if negative then s[..1] else "", if negative then s[1..] else s, negative, lead, fraction, exponent)
  {
    ExponentIsSigned(exponent);
    HexIsPlain(fraction);
    var t := lead + (HexString(fraction) + ("p" + ExponentText(exponent)));
    if negative {
      assert s[1..] == t && s[..1] == "-";
    } else {
      assert s == t;
    }
    assert t[..4] == lead && t[18..] == ExponentText(exponent);
    forall k | 0 <= k < 13 ensures HexValue(t[4 + k]) == Some(fraction[k]) {
      assert t[4 + k] == HexChar(fraction[k]);
      HexCharIsLower(fraction[k]);
    }
  }

  // ---- Tags ----

  /** Every value is written under the name of its type, and keeps its contents. */
  lemma TagSaysType(v: DriverValue)
    requires v != PyOther
    ensures var s := EncodeValue(Tagged(v));
            match v
            case PyNone => Tagged(v) == Null && "[\"null\"," <= s
            case PyBytes(bytes) => Tagged(v) == Blob(bytes) && "[\"blob\"," <= s
            case PyFloat(f) => Tagged(v) == Real(f) && "[\"real\"," <= s
            case PyInt(n) => Tagged(v) == Integer(n) && "[\"integer\"," <= s
            case PyStr(text) => Tagged(v) == Text(text) && "[\"text\"," <= s
  {
  }
}
