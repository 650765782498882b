/** The byte encodings behind the OSC 52 clipboard frame: UTF-8 (what
    `str.encode()` produces) and base64 with padding, as defined in
    section 4 of RFC 4648 (what `base64.b64encode` produces). */
module Base64 {
  import opened Wrappers

  type byte = x: int | 0 <= x < 256
  type sextet = x: int | 0 <= x < 64

  /** The base64 alphabet (Table 1 of RFC 4648). */
  function Symbol(v: sextet): (c: char)
    ensures c != '='
  {
    if v < 26 then ('A' as int + v) as char
    else if v < 52 then ('a' as int + (v - 26)) as char
    else if v < 62 then ('0' as int + (v - 52)) as char
    else if v == 62 then '+'
    else '/'
  }

  /** The value of an alphabet character; `None` for any other character. */
  function SymbolValue(c: char): Option<sextet> {
    if 'A' <= c <= 'Z' then Some(c as int - 'A' as int)
    else if 'a' <= c <= 'z' then Some(c as int - 'a' as int + 26)
    else if '0' <= c <= '9' then Some(c as int - '0' as int + 52)
    else if c == '+' then Some(62)
    else if c == '/' then Some(63)
    else None
  }

  lemma SymbolRoundTrip(v: sextet)
    ensures SymbolValue(Symbol(v)) == Some(v)
  {
  }

  /** One full group: three bytes, 24 bits, as four symbols. */
  function EncodeGroup(a: byte, b: byte, c: byte): string {
    [Symbol(a / 4), Symbol((a % 4) * 16 + b / 16), Symbol((b % 16) * 4 + c / 64), Symbol(c % 64)]
  }

  /** The final quantum of one byte: two symbols and two pad characters. */
  function EncodeOne(a: byte): string {
    [Symbol(a / 4), Symbol((a % 4) * 16), '=', '=']
  }

  /** The final quantum of two bytes: three symbols and one pad character. */
  function EncodeTwo(a: byte, b: byte): string {
    [Symbol(a / 4), Symbol((a % 4) * 16 + b / 16), Symbol((b % 16) * 4), '=']
  }

  /** `base64.b64encode(bs)`. */
  function Encode(bs: seq<byte>): (encoded: string)
    decreases |bs|
  {
    if |bs| == 0 then []
    else if |bs| == 1 then EncodeOne(bs[0])
    else if |bs| == 2 then EncodeTwo(bs[0], bs[1])
    else EncodeGroup(bs[0], bs[1], bs[2]) + Encode(bs[3..])
  }

  /** Decodes one group of four characters: a full group gives three bytes,
      a group ending in `==` one byte, a group ending in `=` two bytes. */
  function DecodeGroup(q: string): (r: Option<seq<byte>>)
    requires |q| == 4
    ensures r.Some? ==> 1 <= |r.value| <= 3
    ensures r.Some? && |r.value| < 3 ==> q[3] == '='
  {
    var v0, v1 := SymbolValue(q[0]), SymbolValue(q[1]);
    if v0.None? || v1.None? then None
    else if q[2] == '=' && q[3] == '=' then
      Some([v0.value * 4 + v1.value / 16])
    else
      var v2 := SymbolValue(q[2]);
      if v2.None? then None
      else if q[3] == '=' then
        Some([v0.value * 4 + v1.value / 16, (v1.value % 16) * 16 + v2.value / 4])
      else
        var v3 := SymbolValue(q[3]);
        if v3.None? then None
        else Some([v0.value * 4 + v1.value / 16, (v1.value % 16) * 16 + v2.value / 4, (v2.value % 4) * 64 + v3.value])
  }

  /** Decodes base64 text; padding may only end the text. */
  function Decode(s: string): (r: Option<seq<byte>>)
    decreases |s|
  {
    if |s| == 0 then Some([])
    else if |s| < 4 then None
    else
      var g := DecodeGroup(s[..4]);
      if g.None? || (|g.value| < 3 && |s| > 4) then None
      else
        var rest := Decode(s[4..]);
        if rest.None? then None else Some(g.value + rest.value)
  }

  lemma DecodeGroupRoundTrip(a: byte, b: byte, c: byte)
    ensures DecodeGroup(EncodeGroup(a, b, c)) == Some([a, b, c])
  {
    var q := EncodeGroup(a, b, c);
    SymbolRoundTrip(a / 4);
    SymbolRoundTrip((a % 4) * 16 + b / 16);
    SymbolRoundTrip((b % 16) * 4 + c / 64);
    SymbolRoundTrip(c % 64);
    assert ((a % 4) * 16 + b / 16) / 16 == a % 4;
    assert ((a % 4) * 16 + b / 16) % 16 == b / 16;
    assert ((b % 16) * 4 + c / 64) / 4 == b % 16;
    assert ((b % 16) * 4 + c / 64) % 4 == c / 64;
  }

  lemma DecodeTailRoundTrip(a: byte, b: byte)
    ensures DecodeGroup(EncodeOne(a)) == Some([a])
    ensures DecodeGroup(EncodeTwo(a, b)) == Some([a, b])
  {
    SymbolRoundTrip(a / 4);
    SymbolRoundTrip((a % 4) * 16);
    SymbolRoundTrip((a % 4) * 16 + b / 16);
    SymbolRoundTrip((b % 16) * 4);
    assert ((a % 4) * 16) / 16 == a % 4;
    assert ((a % 4) * 16 + b / 16) / 16 == a % 4;
    assert ((a % 4) * 16 + b / 16) % 16 == b / 16;
    assert ((b % 16) * 4) / 4 == b % 16;
  }

  /** A text of one valid group decodes as that group. */
  lemma DecodeLastGroup(q: string)
    requires |q| == 4 && DecodeGroup(q).Some?
    ensures Decode(q) == DecodeGroup(q)
  {
    assert q[..4] == q;
    assert Decode(q[4..]) == Some([]);
    assert DecodeGroup(q).value + [] == DecodeGroup(q).value;
  }

  /** A full group in front of more text decodes as its three bytes in
      front of the decoding of the rest. */
  lemma DecodeFullGroup(q: string, rest: string, g: seq<byte>)
    requires |q| == 4 && DecodeGroup(q) == Some(g) && |g| == 3
    requires Decode(rest).Some?
    ensures Decode(q + rest) == Some(g + Decode(rest).value)
  {
    assert (q + rest)[..4] == q;
    assert (q + rest)[4..] == rest;
  }

  /** Four characters for every started group of three bytes. */
  lemma {:induction false} EncodeLength(bs: seq<byte>)
    ensures |Encode(bs)| == 4 * ((|bs| + 2) / 3)
    decreases |bs|
  {
    if |bs| >= 3 {
      EncodeLength(bs[3..]);
      EncodeFirstGroup(bs);
      assert (|bs| + 2) / 3 == (|bs[3..]| + 2) / 3 + 1;
    }
  }

  /** The padded last group of one or two bytes decodes back. */
  lemma DecodeEncodeTail(bs: seq<byte>)
    requires 1 <= |bs| <= 2
    ensures Decode(Encode(bs)) == Some(bs)
  {
    if |bs| == 1 {
      DecodeTailRoundTrip(bs[0], 0);
      DecodeLastGroup(EncodeOne(bs[0]));
      assert bs == [bs[0]];
    } else {
      DecodeTailRoundTrip(bs[0], bs[1]);
      DecodeLastGroup(EncodeTwo(bs[0], bs[1]));
      assert bs == [bs[0], bs[1]];
    }
  }

  /** Decoding undoes encoding, for every byte string. */
  lemma {:induction false} DecodeEncode(bs: seq<byte>)
    ensures Decode(Encode(bs)) == Some(bs)
    decreases |bs|
  {
    if 1 <= |bs| <= 2 {
      DecodeEncodeTail(bs);
    } else if |bs| >= 3 {
      DecodeEncode(bs[3..]);
      DecodeEncodeStep(bs);
    }
  }

  /** A full leading group decodes back in front of whatever the rest
      decodes to. */
  lemma DecodeEncodeStep(bs: seq<byte>)
    requires |bs| >= 3 && Decode(Encode(bs[3..])) == Some(bs[3..])
    ensures Decode(Encode(bs)) == Some(bs)
  {
    var head, rest := [bs[0], bs[1], bs[2]], bs[3..];
    var q := EncodeGroup(bs[0], bs[1], bs[2]);
    SplitFirstGroup(bs);
    EncodeFirstGroup(bs);
    DecodeGroupRoundTrip(bs[0], bs[1], bs[2]);
    DecodeFullGroup(q, Encode(rest), head);
  }

  lemma SplitFirstGroup(bs: seq<byte>)
    requires |bs| >= 3
    ensures bs == [bs[0], bs[1], bs[2]] + bs[3..]
  {
  }

  lemma EncodeFirstGroup(bs: seq<byte>)
    requires |bs| >= 3
    ensures Encode(bs) == EncodeGroup(bs[0], bs[1], bs[2]) + Encode(bs[3..])
  {
  }

  /** The UTF-8 encoding of one Unicode scalar value: one to four bytes. */
  function Utf8Char(c: char): (bs: seq<byte>)
    ensures 1 <= |bs| <= 4
    ensures c as int < 0x80 ==> bs == [c as int]
  {
    var n := c as int;
    if n < 0x80 then [n]
    else if n < 0x800 then [0xC0 + n / 64, 0x80 + n % 64]
    else if n < 0x1_0000 then [0xE0 + n / 4096, 0x80 + (n / 64) % 64, 0x80 + n % 64]
    else [0xF0 + n / 0x4_0000, 0x80 + (n / 4096) % 64, 0x80 + (n / 64) % 64, 0x80 + n % 64]
  }

  /** `text.encode()`: UTF-8, character by character. */
  function Utf8(s: string): (bs: seq<byte>)
    ensures |s| <= |bs| <= 4 * |s|
  {
    if |s| == 0 then [] else Utf8Char(s[0]) + Utf8(s[1..])
  }
}
