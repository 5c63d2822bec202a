/** UTF-8, as Python's `str.encode()` writes it. A Dafny `char` is a Unicode scalar value. */
module Utf8 {
  import opened Wrappers

  type Byte = n: nat | n < 256

  const LINE_FEED: Byte := 10

  function EncodeChar(c: char): seq<Byte> {
    var n := c as int;
    if n < 0x80 then [n]
    else if n < 0x800 then [0xC0 + n / 64, 0x80 + n % 64]
    else if n < 0x10000 then [0xE0 + n / 4096, 0x80 + n / 64 % 64, 0x80 + n % 64]
    else [0xF0 + n / 262144, 0x80 + n / 4096 % 64, 0x80 + n / 64 % 64, 0x80 + n % 64]
  }

  function Encode(s: string): seq<Byte> {
    if s == "" then [] else EncodeChar(s[0]) + Encode(s[1..])
  }

  predicate IsScalarValue(n: int) {
    0 <= n < 0xD800 || 0xE000 <= n < 0x11_0000
  }

  function Low(b: Byte): int {
    b - 0x80
  }

  function Width(lead: Byte): nat {
    if lead < 0x80 then 1 else if lead < 0xE0 then 2 else if lead < 0xF0 then 3 else 4
  }

  function CodePoint(b: seq<Byte>): int
    requires |b| > 0 && Width(b[0]) <= |b|
  {
    var lead: int := b[0];
    match Width(b[0])
    case 1 => lead
    case 2 => (lead - 0xC0) * 64 + Low(b[1])
    case 3 => (lead - 0xE0) * 4096 + Low(b[1]) * 64 + Low(b[2])
    case _ => (lead - 0xF0) * 262144 + Low(b[1]) * 4096 + Low(b[2]) * 64 + Low(b[3])
  }

  /** The first character of `bytes` and the bytes after it. */
  function DecodeChar(bytes: seq<Byte>): (r: Option<(char, seq<Byte>)>)
    ensures r.Some? ==> |r.value.1| < |bytes|
  {
    if |bytes| == 0 || |bytes| < Width(bytes[0]) then None
    else
      var n := CodePoint(bytes);
      if IsScalarValue(n) then Some((n as char, bytes[Width(bytes[0])..])) else None
  }

  function Decode(bytes: seq<Byte>): Option<string>
    decreases |bytes|
  {
    if |bytes| == 0 then Some("")
    else
      var (c, rest) :- DecodeChar(bytes);
      var s :- Decode(rest);
      Some([c] + s)
  }

  lemma SixBitGroups(n: nat)
    ensures n / 64 / 64 == n / 4096 && n / 4096 / 64 == n / 262144
    ensures n / 4096 * 4096 + n / 64 % 64 * 64 + n % 64 == n
    ensures n / 262144 * 262144 + n / 4096 % 64 * 4096 + n / 64 % 64 * 64 + n % 64 == n
  {
  }

  lemma CodePointOfEncoding(c: char, rest: seq<Byte>)
    ensures var bytes := EncodeChar(c) + rest;
            Width(bytes[0]) == |EncodeChar(c)| && CodePoint(bytes) == c as int
  {
    var n := c as int;
    var bytes := EncodeChar(c) + rest;
    SixBitGroups(n);
    if n < 0x80 {
      assert bytes[0] == n;
    } else if n < 0x800 {
      assert bytes[0] == 0xC0 + n / 64 && bytes[1] == 0x80 + n % 64;
    } else if n < 0x10000 {
      assert bytes[0] == 0xE0 + n / 4096 && bytes[1] == 0x80 + n / 64 % 64 && bytes[2] == 0x80 + n % 64;
    } else {
      assert bytes[0] == 0xF0 + n / 262144 && bytes[1] == 0x80 + n / 4096 % 64
          && bytes[2] == 0x80 + n / 64 % 64 && bytes[3] == 0x80 + n % 64;
    }
  }

  lemma CharRoundTrip(c: char, rest: seq<Byte>)
    ensures DecodeChar(EncodeChar(c) + rest) == Some((c, rest))
  {
    CodePointOfEncoding(c, rest);
    assert (EncodeChar(c) + rest)[|EncodeChar(c)|..] == rest;
  }

  lemma {:induction false} RoundTrip(s: string)
    ensures Decode(Encode(s)) == Some(s)
  {
    if s != "" {
      CharRoundTrip(s[0], Encode(s[1..]));
      RoundTrip(s[1..]);
      assert s == [s[0]] + s[1..];
    }
  }

  lemma {:induction false} EncodeConcat(s: string, t: string)
    ensures Encode(s + t) == Encode(s) + Encode(t)
  {
    if s == "" {
      assert s + t == t;
    } else {
      assert (s + t)[0] == s[0] && (s + t)[1..] == s[1..] + t;
      EncodeConcat(s[1..], t);
    }
  }

  /** Section 3 of RFC 3629: the shortest form, its first byte and its continuation bytes. */
  lemma CharForm(c: char)
    ensures var n, b := c as int, EncodeChar(c);
            && |b| == (if n < 0x80 then 1 else if n < 0x800 then 2 else if n < 0x10000 then 3 else 4)
            && (forall i | 1 <= i < |b| :: 0x80 <= b[i] < 0xC0)
            && match |b|
               case 1 => b[0] < 0x80
               case 2 => 0xC2 <= b[0] < 0xE0
               case 3 => 0xE0 <= b[0] < 0xF0
               case _ => 0xF0 <= b[0] < 0xF5
  {
    SixBitGroups(c as int);
  }

  /** A line-feed byte stands for a line-feed character only. */
  lemma {:induction false} LineFeedBytes(s: string)
    ensures LINE_FEED in Encode(s) <==> '\n' in s
  {
    if s != "" {
      LineFeedBytes(s[1..]);
      assert LINE_FEED in EncodeChar(s[0]) <==> s[0] == '\n';
      assert s == [s[0]] + s[1..];
    }
  }
}
