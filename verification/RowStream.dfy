/** The row stream that scripts/ops/backup_v2.py hashes for each SQLite table.

  A row becomes one line of compact JSON with a type tag on every value. The
  digest sees the concatenated lines. A decoder, written against the text alone,
  recovers the rows from the bytes, so the stream determines the row list.
 */
module RowStream {
  import opened Wrappers
  import opened Utf8

  type Nibble = n: nat | n < 16

  /** A binary64 value: 52 fraction bits are thirteen nibbles. NaN payloads are not kept by `float.hex`. */
  datatype Float =
    | Zero(negative: bool)
    | Normal(negative: bool, fraction: seq<Nibble>, exponent: int)
    | Subnormal(negative: bool, fraction: seq<Nibble>)
    | Infinity(negative: bool)
    | NotANumber
  {
    predicate Valid() {
      match this
      case Normal(_, fraction, exponent) => |fraction| == 13 && -1022 <= exponent <= 1023
      case Subnormal(_, fraction) => |fraction| == 13
      case _ => true
    }
  }

  type Binary64 = f: Float | f.Valid() witness Zero(false)

  datatype Value =
    | Null
    | Blob(bytes: seq<Byte>)
    | Real(float: Binary64)
    | Integer(number: int)
    | Text(text: string)

  type Row = seq<Value>

  // ---- Encoding ----

  function HexChar(n: Nibble): char {
    if n < 10 then '0' + n as char else 'a' + (n - 10) as char
  }

  function HexString(ns: seq<Nibble>): string {
    seq(|ns|, i requires 0 <= i < |ns| => HexChar(ns[i]))
  }

  function ByteNibbles(bytes: seq<Byte>): seq<Nibble> {
    if bytes == [] then [] else [bytes[0] / 16, bytes[0] % 16] + ByteNibbles(bytes[1..])
  }

  function Digits(n: nat): string {
    if n < 10 then [HexChar(n)] else Digits(n / 10) + [HexChar(n % 10)]
  }

  function IntegerText(n: int): string {
    if n < 0 then "-" + Digits(-n) else Digits(n)
  }

  function ExponentText(exponent: int): string {
    if exponent < 0 then "-" + Digits(-exponent) else "+" + Digits(exponent)
  }

  function MagnitudeText(f: Binary64): string
    requires f != NotANumber
  {
    match f
    case Zero(_) => "0x0.0p+0"
    case Normal(_, fraction, exponent) => "0x1." + (HexString(fraction) + ("p" + ExponentText(exponent)))
    case Subnormal(_, fraction) => "0x0." + (HexString(fraction) + "p-1022")
    case Infinity(_) => "inf"
  }

  /** Python's `float.hex`. */
  function FloatHex(f: Binary64): string {
    if f == NotANumber then "nan" else (if f.negative then "-" else "") + MagnitudeText(f)
  }

  function EscapeChar(c: char): string {
    if c == '"' then "\\\""
    else if c == '\\' then "\\\\"
    else if c == '\n' then "\\n"
    else if c == '\r' then "\\r"
    else if c == '\t' then "\\t"
    else if c as int == 12 then "\\f"
    else if c as int == 8 then "\\b"
    else if c as int < 0x20 then "\\u00" + [HexChar(c as int / 16), HexChar(c as int % 16)]
    else [c]
  }

  function EscapeBody(s: string): string {
    if s == "" then "" else EscapeChar(s[0]) + EscapeBody(s[1..])
  }

  function JsonString(s: string): string {
    "\"" + (EscapeBody(s) + "\"")
  }

  function EncodeValue(v: Value): string {
    match v
    case Null => "[\"null\",null]"
    case Blob(bytes) => "[\"blob\"," + (JsonString(HexString(ByteNibbles(bytes))) + "]")
    case Real(f) => "[\"real\"," + (JsonString(FloatHex(f)) + "]")
    case Integer(n) => "[\"integer\"," + (IntegerText(n) + "]")
    case Text(text) => "[\"text\"," + (JsonString(text) + "]")
  }

  /** `",".join(texts)`. */
  function Join(texts: seq<string>): string {
    if texts == [] then ""
    else if |texts| == 1 then texts[0]
    else texts[0] + ("," + Join(texts[1..]))
  }

  function ArrayLine(texts: seq<string>): string {
    "[" + (Join(texts) + "]\n")
  }

  function EncodeLine(row: Row): string {
    ArrayLine(seq(|row|, i requires 0 <= i < |row| => EncodeValue(row[i])))
  }

  function EncodeLines(rows: seq<Row>): string {
    if rows == [] then "" else EncodeLine(rows[0]) + EncodeLines(rows[1..])
  }

  /** The bytes the digest of a table is fed. */
  function Stream(rows: seq<Row>): seq<Byte> {
    if rows == [] then [] else Encode(EncodeLine(rows[0])) + Stream(rows[1..])
  }

  // ---- Decoding ----

  function Strip(prefix: string, s: string): (r: Option<string>)
    ensures r.Some? ==> |r.value| == |s| - |prefix|
  {
    if prefix <= s then Some(s[|prefix|..]) else None
  }

  function HexValue(c: char): Option<Nibble> {
    if '0' <= c <= '9' then Some(c as int - '0' as int)
    else if 'a' <= c <= 'f' then Some(c as int - 'a' as int + 10)
    else None
  }

  function ParseHex(s: string): Option<seq<Nibble>> {
    if s == "" then Some([])
    else
      var n :- HexValue(s[0]);
      var rest :- ParseHex(s[1..]);
      Some([n] + rest)
  }

  function PairNibbles(ns: seq<Nibble>): Option<seq<Byte>> {
    if ns == [] then Some([])
    else if |ns| == 1 then None
    else
      var rest :- PairNibbles(ns[2..]);
      var high: int := ns[0];
      Some([high * 16 + ns[1]] + rest)
  }

  predicate IsDigit(c: char) {
    '0' <= c <= '9'
  }

  /** The leading decimal digits of `s`, appended to the number `acc`, and what follows them. */
  function ParseDigits(s: string, acc: nat): (nat, string) {
    if s != "" && IsDigit(s[0]) then ParseDigits(s[1..], acc * 10 + (s[0] as int - '0' as int)) else (acc, s)
  }

  function ParseInteger(s: string): (int, string) {
    if s != "" && s[0] == '-' then
      var (n: int, rest) := ParseDigits(s[1..], 0);
      (-n, rest)
    else ParseDigits(s, 0)
  }

  function ParseExponent(s: string): int
    requires s != ""
  {
    var (n: int, _) := ParseDigits(s[1..], 0);
    if s[0] == '-' then -n else n
  }

  function ParseMagnitude(negative: bool, s: string): Option<Binary64> {
    if |s| < 19 then
      if s == "inf" then Some(Infinity(negative)) else if s == "0x0.0p+0" then Some(Zero(negative)) else None
    else
      var fraction :- ParseHex(s[4..17]);
      if |fraction| != 13 then None
      else if s[2] == '0' then Some(Subnormal(negative, fraction))
      else
        var exponent := ParseExponent(s[18..]);
        if -1022 <= exponent <= 1023 then Some(Normal(negative, fraction, exponent)) else None
  }

  function ParseFloat(s: string): Option<Binary64> {
    if s == "nan" then Some(NotANumber)
    else if s != "" && s[0] == '-' then ParseMagnitude(true, s[1..])
    else ParseMagnitude(false, s)
  }

  /** One possibly escaped character of a JSON string, section 7 of RFC 8259. */
  function ParseChar(s: string): (r: Option<(char, string)>)
    requires s != ""
    ensures r.Some? ==> |r.value.1| < |s|
  {
    if s[0] != '\\' then (if s[0] as int < 0x20 then None else Some((s[0], s[1..])))
    else if |s| < 2 then None
    else if s[1] == '"' || s[1] == '\\' || s[1] == '/' then Some((s[1], s[2..]))
    else if s[1] == 'n' then Some(('\n', s[2..]))
    else if s[1] == 'r' then Some(('\r', s[2..]))
    else if s[1] == 't' then Some(('\t', s[2..]))
    else if s[1] == 'f' then Some((12 as char, s[2..]))
    else if s[1] == 'b' then Some((8 as char, s[2..]))
    else if s[1] == 'u' && |s| >= 6 then
      var a :- HexValue(s[2]);
      var b :- HexValue(s[3]);
      var c :- HexValue(s[4]);
      var d :- HexValue(s[5]);
      var n := a * 4096 + b * 256 + c * 16 + d;
      if IsScalarValue(n) then Some((n as char, s[6..])) else None
    else None
  }

  function ParseBody(s: string): (r: Option<(string, string)>)
    ensures r.Some? ==> |r.value.1| < |s|
    decreases |s|
  {
    if s == "" then None
    else if s[0] == '"' then Some(("", s[1..]))
    else
      var (c, rest) :- ParseChar(s);
      var (text, after) :- ParseBody(rest);
      Some(([c] + text, after))
  }

  function ParseString(s: string): (r: Option<(string, string)>)
    ensures r.Some? ==> |r.value.1| < |s|
  {
    var body :- Strip("\"", s);
    ParseBody(body)
  }

  /** The payload of one tagged value and the text after it, still before the closing bracket. */
  function ParsePayload(s: string): (r: Option<(Value, string)>)
    ensures r.Some? ==> |r.value.1| < |s|
  {
    if |s| < 3 then None
    else if s[2] == 'n' then
      var rest :- Strip("[\"null\",null", s);
      Some((Null, rest))
    else if s[2] == 'b' then
      var quoted :- Strip("[\"blob\",", s);
      var (hex, rest) :- ParseString(quoted);
      var nibbles :- ParseHex(hex);
      var bytes :- PairNibbles(nibbles);
      Some((Blob(bytes), rest))
    else if s[2] == 'r' then
      var quoted :- Strip("[\"real\",", s);
      var (hex, rest) :- ParseString(quoted);
      var f :- ParseFloat(hex);
      Some((Real(f), rest))
    else if s[2] == 'i' then
      var digits :- Strip("[\"integer\",", s);
      var (n, rest) := ParseInteger(digits);
      if |rest| <= |digits| then Some((Integer(n), rest)) else None
    else
      var quoted :- Strip("[\"text\",", s);
      var (text, rest) :- ParseString(quoted);
      Some((Text(text), rest))
  }

  function ParseValue(s: string): (r: Option<(Value, string)>)
    ensures r.Some? ==> |r.value.1| < |s|
  {
    var (v, rest) :- ParsePayload(s);
    var after :- Strip("]", rest);
    Some((v, after))
  }

  type ItemParser = string -> Option<(Value, string)>

  /** Comma-separated items, each read by `parse`. */
  function ParseItems(parse: ItemParser, s: string): Option<(Row, string)>
    decreases |s|
  {
    var (v, rest) :- parse(s);
    if rest != "" && rest[0] == ',' && |rest| <= |s| then
      var (more, after) :- ParseItems(parse, rest[1..]);
      Some(([v] + more, after))
    else Some(([v], rest))
  }

  function ParseLine(s: string): (r: Option<(Row, string)>)
    ensures r.Some? ==> |r.value.1| < |s|
  {
    var items :- Strip("[", s);
    if items != "" && items[0] == ']' then
      var after :- Strip("]\n", items);
      Some(([], after))
    else
      var (row, rest) :- ParseItems(ParseValue, items);
      var after :- Strip("]\n", rest);
      if |after| < |s| then Some((row, after)) else None
  }

  function ParseLines(s: string): Option<seq<Row>>
    decreases |s|
  {
    if s == "" then Some([])
    else
      var (row, rest) :- ParseLine(s);
      var rows :- ParseLines(rest);
      Some([row] + rows)
  }

  function DecodeStream(bytes: seq<Byte>): Option<seq<Row>> {
    var text :- Decode(bytes);
    ParseLines(text)
  }

  // ---- The decoder undoes the encoder ----

  lemma StripPrefix(prefix: string, rest: string)
    ensures Strip(prefix, prefix + rest) == Some(rest)
  {
    assert (prefix + rest)[..|prefix|] == prefix;
  }

  lemma HexCharRoundTrip(n: Nibble)
    ensures HexValue(HexChar(n)) == Some(n) && (n < 10 ==> IsDigit(HexChar(n)))
    ensures ' ' <= HexChar(n) <= 'z' && HexChar(n) != '"' && HexChar(n) != '\\'
  {
  }

  lemma {:induction false} HexRoundTrip(ns: seq<Nibble>)
    ensures ParseHex(HexString(ns)) == Some(ns)
  {
    if ns != [] {
      HexCharRoundTrip(ns[0]);
      assert HexString(ns)[1..] == HexString(ns[1..]);
      HexRoundTrip(ns[1..]);
      assert ns == [ns[0]] + ns[1..];
    }
  }

  lemma {:induction false} NibblesRoundTrip(bytes: seq<Byte>)
    ensures PairNibbles(ByteNibbles(bytes)) == Some(bytes)
  {
    if bytes != [] {
      var ns := ByteNibbles(bytes);
      assert ns[2..] == ByteNibbles(bytes[1..]);
      NibblesRoundTrip(bytes[1..]);
      assert bytes == [bytes[0]] + bytes[1..];
    }
  }

  ghost predicate StartsAfterNumber(rest: string) {
    rest == "" || !IsDigit(rest[0])
  }

  ghost function Power10(n: nat): nat {
    if n == 0 then 1 else 10 * Power10(n - 1)
  }

  lemma ShiftDigit(acc: nat, p: nat, n: nat)
    ensures (acc * p + n / 10) * 10 + n % 10 == acc * (10 * p) + n
  {
    var shifted := acc * p;
    assert acc * (10 * p) == 10 * shifted;
    assert n / 10 * 10 + n % 10 == n;
  }

  /** Reading `Digits(n)` shifts the accumulator by its length and adds `n`. */
  lemma {:induction false} DigitsRoundTrip(n: nat, acc: nat, rest: string)
    ensures |Digits(n)| > 0 && forall i | 0 <= i < |Digits(n)| :: IsDigit(Digits(n)[i])
    ensures ParseDigits(Digits(n) + rest, acc) == ParseDigits(rest, acc * Power10(|Digits(n)|) + n)
  {
    HexCharRoundTrip(n % 10);
    if n < 10 {
      assert (Digits(n) + rest)[1..] == rest;
      assert Power10(1) == 10;
    } else {
      var last := [HexChar(n % 10)];
      DigitsRoundTrip(n / 10, acc, last + rest);
      assert Digits(n) + rest == Digits(n / 10) + (last + rest);
      assert (last + rest)[1..] == rest;
      var p := Power10(|Digits(n / 10)|);
      ShiftDigit(acc, p, n);
    }
  }

  lemma IntegerRoundTrip(n: int, rest: string)
    requires StartsAfterNumber(rest)
    ensures ParseInteger(IntegerText(n) + rest) == (n, rest)
  {
    DigitsRoundTrip(if n < 0 then -n else n, 0, rest);
    if n < 0 {
      assert (IntegerText(n) + rest)[1..] == Digits(-n) + rest;
    }
  }

  lemma ExponentRoundTrip(exponent: int)
    ensures |ExponentText(exponent)| >= 2 && ParseExponent(ExponentText(exponent)) == exponent
  {
    var n := if exponent < 0 then -exponent else exponent;
    DigitsRoundTrip(n, 0, "");
    assert ExponentText(exponent)[1..] == Digits(n) + "";
  }

  lemma NormalParts(hex: string, exponent: string, s: string)
    requires |hex| == 13 && |exponent| >= 2 && s == "0x1." + (hex + ("p" + exponent))
    ensures |s| >= 19 && s[2] == '1' && s[4..17] == hex && s[18..] == exponent
  {
    var tail := hex + ("p" + exponent);
    assert s[4..] == tail && tail[..13] == hex && tail[14..] == exponent;
    assert s[4..17] == s[4..][..13] && s[18..] == s[4..][14..];
  }

  lemma NormalRoundTrip(negative: bool, fraction: seq<Nibble>, exponent: int, s: string)
    requires |fraction| == 13 && -1022 <= exponent <= 1023
    requires s == "0x1." + (HexString(fraction) + ("p" + ExponentText(exponent)))
    ensures ParseMagnitude(negative, s) == Some(Normal(negative, fraction, exponent))
  {
    hide ExponentText, ParseHex, ParseExponent;
    HexRoundTrip(fraction);
    ExponentRoundTrip(exponent);
    NormalParts(HexString(fraction), ExponentText(exponent), s);
  }

  lemma SubnormalRoundTrip(negative: bool, fraction: seq<Nibble>, s: string)
    requires |fraction| == 13 && s == "0x0." + (HexString(fraction) + "p-1022")
    ensures ParseMagnitude(negative, s) == Some(Subnormal(negative, fraction))
  {
    assert s[4..17] == HexString(fraction) && s[2] == '0';
    HexRoundTrip(fraction);
  }

  lemma MagnitudeRoundTrip(f: Binary64)
    requires f != NotANumber
    ensures ParseMagnitude(f.negative, MagnitudeText(f)) == Some(f)
    ensures var s := MagnitudeText(f); s != "" && s[0] != '-' && s[0] != 'n'
  {
    var s := MagnitudeText(f);
    match f
    case Zero(_) => assert s == "0x0.0p+0";
    case Infinity(_) => assert s == "inf";
    case Normal(negative, fraction, exponent) => NormalRoundTrip(negative, fraction, exponent, s);
    case Subnormal(negative, fraction) => SubnormalRoundTrip(negative, fraction, s);
  }

  lemma SignedRoundTrip(f: Binary64, negative: bool, s: string)
    requires s != "" && s[0] != '-' && s[0] != 'n' && ParseMagnitude(negative, s) == Some(f)
    ensures ParseFloat((if negative then "-" else "") + s) == Some(f)
  {
    assert ("-" + s)[1..] == s && "" + s == s;
  }

  lemma FloatRoundTrip(f: Binary64)
    ensures ParseFloat(FloatHex(f)) == Some(f)
  {
    if f == NotANumber {
      assert FloatHex(f) == "nan";
    } else {
      MagnitudeRoundTrip(f);
      SignedRoundTrip(f, f.negative, MagnitudeText(f));
    }
  }

  lemma EscapedCharRoundTrip(c: char, rest: string)
    ensures var s := EscapeChar(c) + rest; s != "" && s[0] != '"' && ParseChar(s) == Some((c, rest))
  {
    var s := EscapeChar(c) + rest;
    assert s[|EscapeChar(c)|..] == rest;
    if c as int < 0x20 {
      HexCharRoundTrip(c as int / 16);
      HexCharRoundTrip(c as int % 16);
    }
  }

  lemma {:induction false} BodyRoundTrip(text: string, rest: string)
    ensures ParseBody(EscapeBody(text) + ("\"" + rest)) == Some((text, rest))
  {
    var s := EscapeBody(text) + ("\"" + rest);
    if text == "" {
      assert s[1..] == rest;
    } else {
      var after := EscapeBody(text[1..]) + ("\"" + rest);
      assert s == EscapeChar(text[0]) + after;
      EscapedCharRoundTrip(text[0], after);
      BodyRoundTrip(text[1..], rest);
      assert text == [text[0]] + text[1..];
    }
  }

  lemma StringRoundTrip(text: string, rest: string)
    ensures ParseString(JsonString(text) + rest) == Some((text, rest))
  {
    var body := EscapeBody(text) + ("\"" + rest);
    assert JsonString(text) + rest == "\"" + body;
    StripPrefix("\"", body);
    BodyRoundTrip(text, rest);
  }

  /** A tagged quoted payload is read back as its text. */
  lemma QuotedPayload(tag: string, text: string, rest: string)
    ensures var s := tag + (JsonString(text) + ("]" + rest));
            Strip(tag, s) == Some(JsonString(text) + ("]" + rest))
    ensures ParseString(JsonString(text) + ("]" + rest)) == Some((text, "]" + rest))
  {
    StripPrefix(tag, JsonString(text) + ("]" + rest));
    StringRoundTrip(text, "]" + rest);
  }

  lemma BlobRoundTrip(bytes: seq<Byte>, rest: string)
    ensures ParsePayload(EncodeValue(Blob(bytes)) + rest) == Some((Blob(bytes), "]" + rest))
  {
    var hex, tag := HexString(ByteNibbles(bytes)), "[\"blob\",";
    var s := tag + (JsonString(hex) + ("]" + rest));
    assert EncodeValue(Blob(bytes)) + rest == s && s[2] == 'b';
    QuotedPayload(tag, hex, rest);
    HexRoundTrip(ByteNibbles(bytes));
    NibblesRoundTrip(bytes);
  }

  lemma RealRoundTrip(f: Binary64, rest: string)
    ensures ParsePayload(EncodeValue(Real(f)) + rest) == Some((Real(f), "]" + rest))
  {
    hide FloatHex, ParseFloat, EscapeBody;
    var tag := "[\"real\",";
    var s := tag + (JsonString(FloatHex(f)) + ("]" + rest));
    assert EncodeValue(Real(f)) + rest == s && s[2] == 'r';
    QuotedPayload(tag, FloatHex(f), rest);
    FloatRoundTrip(f);
  }

  lemma IntegerPayload(n: int, rest: string)
    ensures ParsePayload(EncodeValue(Integer(n)) + rest) == Some((Integer(n), "]" + rest))
  {
    var tag := "[\"integer\",";
    var digits := IntegerText(n) + ("]" + rest);
    var s := tag + digits;
    assert EncodeValue(Integer(n)) + rest == s && s[2] == 'i';
    StripPrefix(tag, digits);
    IntegerRoundTrip(n, "]" + rest);
  }

  lemma TextRoundTrip(text: string, rest: string)
    ensures ParsePayload(EncodeValue(Text(text)) + rest) == Some((Text(text), "]" + rest))
  {
    var tag := "[\"text\",";
    var s := tag + (JsonString(text) + ("]" + rest));
    assert EncodeValue(Text(text)) + rest == s && s[2] == 't';
    QuotedPayload(tag, text, rest);
  }

  lemma NullRoundTrip(rest: string)
    ensures ParsePayload(EncodeValue(Null) + rest) == Some((Null, "]" + rest))
  {
    var tag := "[\"null\",null";
    var s := tag + ("]" + rest);
    assert EncodeValue(Null) + rest == s && s[2] == 'n';
    StripPrefix(tag, "]" + rest);
  }

  lemma ValueRoundTrip(v: Value, rest: string)
    ensures ParseValue(EncodeValue(v) + rest) == Some((v, rest))
    ensures EncodeValue(v)[0] == '['
  {
    StripPrefix("]", rest);
    match v
    case Null => NullRoundTrip(rest);
    case Blob(bytes) => BlobRoundTrip(bytes, rest);
    case Real(f) => RealRoundTrip(f, rest);
    case Integer(n) => IntegerPayload(n, rest);
    case Text(text) => TextRoundTrip(text, rest);
  }

  /** `parse` reads `text` back as `v`, whatever follows it. */
  ghost predicate ReadsAs(parse: ItemParser, text: string, v: Value) {
    && text != "" && text[0] == '['
    && forall rest: string :: parse(text + rest) == Some((v, rest))
  }

  ghost predicate ReadAs(parse: ItemParser, texts: seq<string>, row: Row) {
    |texts| == |row| && forall i | 0 <= i < |row| :: ReadsAs(parse, texts[i], row[i])
  }

  /** `text` is read back as the items `row`, whatever follows it but another comma. */
  ghost predicate ItemsReadAs(parse: ItemParser, text: string, row: Row) {
    && text != "" && text[0] == '['
    && forall rest: string | rest == "" || rest[0] != ',' :: ParseItems(parse, text + rest) == Some((row, rest))
  }

  lemma ItemThenRest(parse: ItemParser, text: string, v: Value, more: string, row: Row, rest: string)
    requires ReadsAs(parse, text, v) && ItemsReadAs(parse, more, row) && (rest == "" || rest[0] != ',')
    ensures ParseItems(parse, text + ("," + more) + rest) == Some(([v] + row, rest))
  {
    var tail := "," + (more + rest);
    assert text + ("," + more) + rest == text + tail;
    assert parse(text + tail) == Some((v, tail));
    assert tail[1..] == more + rest;
  }

  lemma ItemThenMore(parse: ItemParser, text: string, v: Value, more: string, row: Row)
    requires ReadsAs(parse, text, v) && ItemsReadAs(parse, more, row)
    ensures ItemsReadAs(parse, text + ("," + more), [v] + row)
  {
    hide ParseItems;
    forall rest: string | rest == "" || rest[0] != ','
      ensures ParseItems(parse, text + ("," + more) + rest) == Some(([v] + row, rest))
    {
      ItemThenRest(parse, text, v, more, row, rest);
    }
  }

  lemma LastItem(parse: ItemParser, text: string, v: Value)
    requires ReadsAs(parse, text, v)
    ensures ItemsReadAs(parse, text, [v])
  {
  }

  lemma FirstAndRest(parse: ItemParser, texts: seq<string>, row: Row)
    requires row != [] && ReadAs(parse, texts, row)
    ensures texts != [] && |texts| == |row|
    ensures ReadsAs(parse, texts[0], row[0]) && ReadAs(parse, texts[1..], row[1..])
    ensures Join(texts) == if |row| == 1 then texts[0] else texts[0] + ("," + Join(texts[1..]))
  {
    assert ReadsAs(parse, texts[0], row[0]);
    hide ReadsAs;
  }

  lemma ItemsGrow(parse: ItemParser, texts: seq<string>, row: Row)
    requires |row| > 1 && ReadAs(parse, texts, row) && ItemsReadAs(parse, Join(texts[1..]), row[1..])
    ensures ItemsReadAs(parse, Join(texts), row)
  {
    hide ReadsAs, ItemsReadAs, Join;
    FirstAndRest(parse, texts, row);
    ItemThenMore(parse, texts[0], row[0], Join(texts[1..]), row[1..]);
    assert row == [row[0]] + row[1..];
  }

  lemma {:induction false} ItemsRoundTrip(parse: ItemParser, texts: seq<string>, row: Row)
    requires row != [] && ReadAs(parse, texts, row)
    ensures ItemsReadAs(parse, Join(texts), row)
  {
    hide *;
    FirstAndRest(parse, texts, row);
    if |row| == 1 {
      assert row == [row[0]];
      LastItem(parse, texts[0], row[0]);
    } else {
      ItemsRoundTrip(parse, texts[1..], row[1..]);
      ItemsGrow(parse, texts, row);
    }
  }

  lemma EmptyArrayLine(rest: string)
    ensures ParseLine("[" + ("]\n" + rest)) == Some(([], rest))
  {
    var items := "]\n" + rest;
    StripPrefix("[", items);
    StripPrefix("]\n", rest);
    assert items[0] == ']';
  }

  lemma ItemsLine(text: string, row: Row, rest: string)
    requires ItemsReadAs(ParseValue, text, row)
    ensures ParseLine("[" + (text + ("]\n" + rest))) == Some((row, rest))
  {
    var items := text + ("]\n" + rest);
    StripPrefix("[", items);
    StripPrefix("]\n", rest);
    assert ParseItems(ParseValue, items) == Some((row, "]\n" + rest));
    assert items[0] == '[';
  }

  lemma ArrayLineRoundTrip(texts: seq<string>, row: Row, rest: string)
    requires ReadAs(ParseValue, texts, row)
    ensures ParseLine(ArrayLine(texts) + rest) == Some((row, rest))
  {
    assert ArrayLine(texts) + rest == "[" + (Join(texts) + ("]\n" + rest));
    if row == [] {
      assert Join(texts) + ("]\n" + rest) == "]\n" + rest;
      EmptyArrayLine(rest);
    } else {
      ItemsRoundTrip(ParseValue, texts, row);
      ItemsLine(Join(texts), row, rest);
    }
  }

  /** Each JSON line parses back to its row. */
  lemma LineRoundTrip(row: Row, rest: string)
    ensures ParseLine(EncodeLine(row) + rest) == Some((row, rest))
  {
    var texts := seq(|row|, i requires 0 <= i < |row| => EncodeValue(row[i]));
    forall i | 0 <= i < |row| ensures ReadsAs(ParseValue, texts[i], row[i]) {
      forall after: string ensures ParseValue(texts[i] + after) == Some((row[i], after)) {
        ValueRoundTrip(row[i], after);
      }
      ValueRoundTrip(row[i], "");
    }
    ArrayLineRoundTrip(texts, row, rest);
  }

  lemma {:induction false} LinesRoundTrip(rows: seq<Row>)
    ensures ParseLines(EncodeLines(rows)) == Some(rows)
  {
    if rows != [] {
      LineRoundTrip(rows[0], EncodeLines(rows[1..]));
      LinesRoundTrip(rows[1..]);
      assert rows == [rows[0]] + rows[1..];
    }
  }

  lemma {:induction false} StreamIsEncodedText(rows: seq<Row>)
    ensures Stream(rows) == Encode(EncodeLines(rows))
  {
    if rows != [] {
      StreamIsEncodedText(rows[1..]);
      EncodeConcat(EncodeLine(rows[0]), EncodeLines(rows[1..]));
    }
  }

  lemma StreamRoundTrip(rows: seq<Row>)
    ensures DecodeStream(Stream(rows)) == Some(rows)
  {
    StreamIsEncodedText(rows);
    RoundTrip(EncodeLines(rows));
    LinesRoundTrip(rows);
  }

  /** Equal streams come from equal row lists, and from no others. */
  lemma StreamDeterminesRows(a: seq<Row>, b: seq<Row>)
    ensures Stream(a) == Stream(b) <==> a == b
  {
    StreamRoundTrip(a);
    StreamRoundTrip(b);
  }

  // ---- The separator ----

  lemma {:induction false} EscapedHasNoLineFeed(text: string)
    ensures '\n' !in EscapeBody(text)
  {
    if text != "" {
      if text[0] as int < 0x20 {
        HexCharRoundTrip(text[0] as int / 16);
        HexCharRoundTrip(text[0] as int % 16);
      }
      EscapedHasNoLineFeed(text[1..]);
    }
  }

  lemma QuotedHasNoLineFeed(text: string)
    ensures '\n' !in JsonString(text) + "]"
  {
    EscapedHasNoLineFeed(text);
  }

  lemma IntegerHasNoLineFeed(n: int)
    ensures '\n' !in IntegerText(n) + "]"
  {
    DigitsRoundTrip(if n < 0 then -n else n, 0, "");
  }

  lemma ValueHasNoLineFeed(v: Value)
    ensures '\n' !in EncodeValue(v)
  {
    hide FloatHex, HexString, ByteNibbles, EscapeBody, JsonString, IntegerText;
    match v
    case Null =>
    case Blob(bytes) => QuotedHasNoLineFeed(HexString(ByteNibbles(bytes)));
    case Real(f) => QuotedHasNoLineFeed(FloatHex(f));
    case Integer(n) => IntegerHasNoLineFeed(n);
    case Text(text) => QuotedHasNoLineFeed(text);
  }

  lemma {:induction false} JoinHasNoLineFeed(texts: seq<string>)
    requires forall i | 0 <= i < |texts| :: '\n' !in texts[i]
    ensures '\n' !in Join(texts)
  {
    if |texts| > 1 {
      JoinHasNoLineFeed(texts[1..]);
    }
  }

  /** The LF that ends a line is the only LF byte in it: no encoded value contains the separator. */
  lemma LineFeedOnlyEndsLine(row: Row)
    ensures var bytes := Encode(EncodeLine(row));
            bytes != [] && bytes[|bytes| - 1] == LINE_FEED && LINE_FEED !in bytes[..|bytes| - 1]
  {
    var texts := seq(|row|, i requires 0 <= i < |row| => EncodeValue(row[i]));
    forall i | 0 <= i < |row| ensures '\n' !in texts[i] {
      ValueHasNoLineFeed(row[i]);
    }
    JoinHasNoLineFeed(texts);
    var body := "[" + (Join(texts) + "]");
    assert EncodeLine(row) == body + "\n";
    EncodeConcat(body, "\n");
    LineFeedBytes(body);
    assert "\n"[1..] == "" && Encode("\n") == [LINE_FEED];
    var bytes := Encode(EncodeLine(row));
    assert bytes[..|bytes| - 1] == Encode(body);
  }

  // ---- The methods of the source ----

  /** What the SQLite driver may hand over for one column. */
  datatype DriverValue =
    | PyNone
    | PyBytes(bytes: seq<Byte>)
    | PyFloat(float: Binary64)
    | PyInt(number: int)
    | PyStr(text: string)
    | PyOther

  type DriverRow = seq<DriverValue>

  predicate Supported(row: DriverRow) {
    PyOther !in row
  }

  function Tagged(v: DriverValue): Value
    requires v != PyOther
  {
    match v
    case PyNone => Null
    case PyBytes(bytes) => Blob(bytes)
    case PyFloat(f) => Real(f)
    case PyInt(n) => Integer(n)
    case PyStr(text) => Text(text)
  }

  function TaggedRow(row: DriverRow): Row
    requires Supported(row)
  {
    seq(|row|, i requires 0 <= i < |row| => Tagged(row[i]))
  }

  function TaggedRows(rows: seq<DriverRow>): seq<Row>
    requires forall row | row in rows :: Supported(row)
  {
    seq(|rows|, i requires 0 <= i < |rows| => TaggedRow(rows[i]))
  }

  lemma TaggingIsInjective(a: seq<DriverRow>, b: seq<DriverRow>)
    requires (forall row | row in a :: Supported(row)) && (forall row | row in b :: Supported(row))
    ensures TaggedRows(a) == TaggedRows(b) ==> a == b
  {
    if TaggedRows(a) == TaggedRows(b) {
      assert |a| == |TaggedRows(a)| == |b|;
      forall i | 0 <= i < |a| ensures a[i] == b[i] {
        assert a[i] in a && b[i] in b;
        assert TaggedRows(a)[i] == TaggedRow(a[i]) && TaggedRows(b)[i] == TaggedRow(b[i]);
        assert |a[i]| == |TaggedRow(a[i])| == |b[i]|;
        forall k | 0 <= k < |a[i]| ensures a[i][k] == b[i][k] {
          assert a[i][k] in a[i] && b[i][k] in b[i];
          assert TaggedRow(a[i])[k] == Tagged(a[i][k]) && TaggedRow(b[i])[k] == Tagged(b[i][k]);
        }
      }
    }
  }

  method TypedRow(row: DriverRow) returns (r: Result<seq<Byte>, string>)
    ensures r.Success? <==> Supported(row)
    ensures r.Success? ==> r.value == Encode(EncodeLine(TaggedRow(row)))
    ensures r.Failure? ==> r.error == "unsupported_sqlite_value"
  {
    var values: Row := [];
    for i := 0 to |row|
      invariant Supported(row[..i]) && values == TaggedRow(row[..i])
    {
      if row[i] == PyOther {
        return Failure("unsupported_sqlite_value");
      }
      values := values + [Tagged(row[i])];
    }
    assert row[..|row|] == row;
    return Success(Encode(EncodeLine(values)));
  }

  lemma {:induction false} StreamAppend(rows: seq<Row>, row: Row)
    ensures Stream(rows + [row]) == Stream(rows) + Encode(EncodeLine(row))
  {
    if rows == [] {
      assert [row][1..] == [];
    } else {
      assert (rows + [row])[1..] == rows[1..] + [row];
      StreamAppend(rows[1..], row);
    }
  }

  lemma OneMoreRow(rows: seq<DriverRow>, i: nat)
    requires i < |rows| && forall row | row in rows[..i + 1] :: Supported(row)
    ensures Stream(TaggedRows(rows[..i + 1])) == Stream(TaggedRows(rows[..i])) + Encode(EncodeLine(TaggedRow(rows[i])))
  {
    hide Encode, EncodeLine;
    assert rows[..i + 1] == rows[..i] + [rows[i]];
    assert TaggedRows(rows[..i + 1]) == TaggedRows(rows[..i]) + [TaggedRow(rows[i])];
    StreamAppend(TaggedRows(rows[..i]), TaggedRow(rows[i]));
  }

  /** The row loop of a table: everything fed to its SHA-256, and its row count. */
  method FeedDigest(rows: seq<DriverRow>) returns (r: Result<(seq<Byte>, nat), string>)
    ensures r.Success? <==> forall row | row in rows :: Supported(row)
    ensures r.Success? ==> r.value == (Stream(TaggedRows(rows)), |rows|)
  {
    hide Supported, Tagged, Encode, EncodeLine, TaggedRow;
    var fed: seq<Byte>, count := [], 0;
    for i := 0 to |rows|
      invariant forall row | row in rows[..i] :: Supported(row)
      invariant fed == Stream(TaggedRows(rows[..i])) && count == i
    {
      var line := TypedRow(rows[i]);
      if line.Failure? {
        assert rows[i] in rows;
        return Failure(line.error);
      }
      assert rows[..i + 1] == rows[..i] + [rows[i]];
      OneMoreRow(rows, i);
      fed, count := fed + line.value, count + 1;
    }
    assert rows[..|rows|] == rows;
    return Success((fed, count));
  }

  /** Two tables whose digests are fed the same bytes hold the same rows in the same order. */
  lemma FedBytesDetermineTable(a: seq<DriverRow>, b: seq<DriverRow>)
    requires forall row | row in a :: Supported(row)
    requires forall row | row in b :: Supported(row)
    ensures Stream(TaggedRows(a)) == Stream(TaggedRows(b)) <==> a == b
  {
    StreamDeterminesRows(TaggedRows(a), TaggedRows(b));
    TaggingIsInjective(a, b);
  }

  // ---- Quoted identifiers ----

  function DoubleQuotes(s: string): string {
    if s == "" then "" else (if s[0] == '"' then "\"\"" else [s[0]]) + DoubleQuotes(s[1..])
  }

  function Identifier(value: string): string {
    "\"" + (DoubleQuotes(value) + "\"")
  }

  /** How SQL reads the inside of a quoted identifier: a doubled quote is one quote, a single one ends it. */
  function ReadQuoted(s: string): Option<(string, string)> {
    if s == "" then None
    else if s[0] != '"' then
      var (name, rest) :- ReadQuoted(s[1..]);
      Some(([s[0]] + name, rest))
    else if |s| > 1 && s[1] == '"' then
      var (name, rest) :- ReadQuoted(s[2..]);
      Some(("\"" + name, rest))
    else Some(("", s[1..]))
  }

  lemma {:induction false} QuotedRoundTrip(value: string, rest: string)
    requires rest == "" || rest[0] != '"'
    ensures ReadQuoted(DoubleQuotes(value) + ("\"" + rest)) == Some((value, rest))
  {
    var s := DoubleQuotes(value) + ("\"" + rest);
    if value == "" {
      assert s[1..] == rest;
    } else {
      var after := DoubleQuotes(value[1..]) + ("\"" + rest);
      QuotedRoundTrip(value[1..], rest);
      assert value == [value[0]] + value[1..];
      if value[0] == '"' {
        assert s == "\"\"" + after && s[2..] == after;
      } else {
        assert s == [value[0]] + after && s[1..] == after;
      }
    }
  }

  /** Any table or column name, quotes included, is read back whole from the statement text. */
  lemma IdentifierRoundTrip(value: string, rest: string)
    requires rest == "" || rest[0] != '"'
    ensures var s := Identifier(value) + rest; s[0] == '"' && ReadQuoted(s[1..]) == Some((value, rest))
  {
    var s := Identifier(value) + rest;
    assert s[1..] == DoubleQuotes(value) + ("\"" + rest);
    QuotedRoundTrip(value, rest);
  }
}
