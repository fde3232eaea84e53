/** The share token: the JSON text of a quiz, percent-encoded as
    `encodeURIComponent` does (section 2.1 of RFC 3986, with the characters
    `!~*'()` also left alone), then base64-encoded as `btoa` does (section 4 of
    RFC 4648), and the reverse path `atob` followed by `decodeURIComponent`
    (script.js:148-158, 653-667, src/pages/UploadPage.jsx:93, src/App.jsx:17-23).
    The JSON text is given as its UTF-8 bytes; the query-string parsing of the
    link that carries the token is `FormDecode`. */
module ShareToken {
  import opened Common

  type Byte = x: int | 0 <= x < 256

  // ---------------------------------------------------------------------------
  // Base64

  /** The base64 alphabet. */
  function B64Char(v: int): (c: char)
    requires 0 <= v < 64
  {
    if v < 26 then (65 + v) as char
    else if v < 52 then (97 + v - 26) as char
    else if v < 62 then (48 + v - 52) as char
    else if v == 62 then '+'
    else '/'
  }

  /** The value of a base64 character, None for any other character. */
  function B64Value(c: char): (r: Option<int>)
    ensures r.Some? ==> 0 <= r.value < 64 && B64Char(r.value) == c
  {
    if 'A' <= c <= 'Z' then Some(c as int - 65)
    else if 'a' <= c <= 'z' then Some(c as int - 97 + 26)
    else if '0' <= c <= '9' then Some(c as int - 48 + 52)
    else if c == '+' then Some(62)
    else if c == '/' then Some(63)
    else None
  }

  lemma B64ValueOfChar(v: int)
    requires 0 <= v < 64
    ensures B64Value(B64Char(v)) == Some(v)
  {
  }

  predicate AllSextets(v: seq<int>) {
    forall i :: 0 <= i < |v| ==> 0 <= v[i] < 64
  }

  /** The four sextets of three bytes, high bits first. */
  function Group(b0: Byte, b1: Byte, b2: Byte): (v: seq<int>)
    ensures |v| == 4 && AllSextets(v)
  {
    [b0 / 4, (b0 % 4) * 16 + b1 / 16, (b1 % 16) * 4 + b2 / 64, b2 % 64]
  }

  /** The 6-bit groups of a byte string; a final group of one or two bytes is
      padded with zero bits and cut to two or three sextets. */
  function Sextets(bs: seq<Byte>): (v: seq<int>)
    ensures AllSextets(v)
    ensures |v| == (|bs| / 3) * 4 + (if |bs| % 3 == 0 then 0 else |bs| % 3 + 1)
  {
    if |bs| == 0 then []
    else if |bs| == 1 then Group(bs[0], 0, 0)[..2]
    else if |bs| == 2 then Group(bs[0], bs[1], 0)[..3]
    else Group(bs[0], bs[1], bs[2]) + Sextets(bs[3..])
  }

  function Chars(v: seq<int>): (t: string)
    requires AllSextets(v)
    ensures |t| == |v|
  {
    seq(|v|, i requires 0 <= i < |v| => B64Char(v[i]))
  }

  function Padding(rem: int): string {
    if rem == 1 then "==" else if rem == 2 then "=" else ""
  }

  /** `btoa` on a string of byte-valued characters. */
  function Base64Encode(bs: seq<Byte>): (t: string)
    ensures |t| % 4 == 0
  {
    Chars(Sextets(bs)) + Padding(|bs| % 3)
  }

  /** Four sextets back to three bytes. */
  function Ungroup(v: seq<int>): (bs: seq<Byte>)
    requires |v| == 4 && AllSextets(v)
    ensures |bs| == 3
  {
    [v[0] * 4 + v[1] / 16, (v[1] % 16) * 16 + v[2] / 4, (v[2] % 4) * 64 + v[3]]
  }

  /** Groups of four sextets back to three bytes; a final group of two or three
      sextets gives one or two bytes, its spare low bits dropped. */
  function DecodeSextets(v: seq<int>): (bs: seq<Byte>)
    requires AllSextets(v) && |v| % 4 != 1
  {
    if |v| == 0 then []
    else if |v| == 2 then Ungroup(v + [0, 0])[..1]
    else if |v| == 3 then Ungroup(v + [0])[..2]
    else Ungroup(v[..4]) + DecodeSextets(v[4..])
  }

  /** The ASCII whitespace `atob` skips. */
  predicate IsAsciiWhitespace(c: char) {
    c == '\t' || c == '\n' || c == '\U{C}' || c == '\r' || c == ' '
  }

  function StripWhitespace(t: string): (r: string)
    ensures forall i :: 0 <= i < |r| ==> !IsAsciiWhitespace(r[i])
    ensures |r| <= |t|
  {
    if t == [] then []
    else if IsAsciiWhitespace(t[0]) then StripWhitespace(t[1..])
    else [t[0]] + StripWhitespace(t[1..])
  }

  /** Stripping works piecewise: the characters that are not whitespace are kept
      in their order, a run at a time. */
  lemma {:induction false} StripWhitespaceAppend(a: string, b: string)
    ensures StripWhitespace(a + b) == StripWhitespace(a) + StripWhitespace(b)
  {
    if a != [] {
      var t := a + b;
      assert t != [] && t[0] == a[0] && t[1..] == a[1..] + b;
      StripWhitespaceAppend(a[1..], b);
      if !IsAsciiWhitespace(a[0]) {
        assert StripWhitespace(t) == [a[0]] + (StripWhitespace(a[1..]) + StripWhitespace(b));
      }
    } else {
      assert a + b == b;
    }
  }

  /** One or two trailing `=` are dropped from text whose length is a multiple of four. */
  function StripPadding(s: string): string {
    if |s| % 4 == 0 && |s| >= 2 && s[|s| - 2..] == "==" then s[..|s| - 2]
    else if |s| % 4 == 0 && |s| >= 1 && s[|s| - 1] == '=' then s[..|s| - 1]
    else s
  }

  function Values(s: string): (v: seq<int>)
    requires forall i :: 0 <= i < |s| ==> B64Value(s[i]).Some?
    ensures |v| == |s| && AllSextets(v)
  {
    seq(|s|, i requires 0 <= i < |s| => B64Value(s[i]).value)
  }

  /** `atob`, the forgiving decoder: whitespace is skipped, padding is optional,
      a length of 1 modulo 4 and any character outside the alphabet fail. */
  function Atob(t: string): (r: Option<seq<Byte>>)
  {
    var s := StripPadding(StripWhitespace(t));
    if |s| % 4 == 1 then None
    else if exists i :: 0 <= i < |s| && B64Value(s[i]).None? then None
    else Some(DecodeSextets(Values(s)))
  }

  /** A final group of one byte. */
  lemma ShortGroupOne(b0: Byte)
    ensures DecodeSextets(Sextets([b0])) == [b0]
  {
    GroupRoundTrip(b0, 0, 0);
    assert Sextets([b0]) + [0, 0] == Group(b0, 0, 0);
  }

  /** A final group of two bytes. */
  lemma ShortGroupTwo(b0: Byte, b1: Byte)
    ensures DecodeSextets(Sextets([b0, b1])) == [b0, b1]
  {
    GroupRoundTrip(b0, b1, 0);
    assert Sextets([b0, b1]) + [0] == Group(b0, b1, 0);
  }

  /** A full group in front of the rest. */
  lemma FullGroup(bs: seq<Byte>)
    requires |bs| >= 3
    ensures DecodeSextets(Sextets(bs)) == Ungroup(Group(bs[0], bs[1], bs[2])) + DecodeSextets(Sextets(bs[3..]))
  {
    var v := Sextets(bs);
    assert v[..4] == Group(bs[0], bs[1], bs[2]);
    assert v[4..] == Sextets(bs[3..]);
  }

  /** The sextets of a byte string never leave a single sextet over. */
  lemma SextetsLength(bs: seq<Byte>)
    ensures |Sextets(bs)| % 4 != 1
  {
    var q, r := |bs| / 3, |bs| % 3;
    var k := if r == 0 then 0 else r + 1;
    assert |Sextets(bs)| == 4 * q + k;
    assert (4 * q + k) % 4 == k;
  }

  lemma {:induction false} DecodeSextetsRoundTrip(bs: seq<Byte>)
    ensures |Sextets(bs)| % 4 != 1
    ensures DecodeSextets(Sextets(bs)) == bs
  {
    SextetsLength(bs);
    if |bs| == 1 {
      assert bs == [bs[0]];
      ShortGroupOne(bs[0]);
    } else if |bs| == 2 {
      assert bs == [bs[0], bs[1]];
      ShortGroupTwo(bs[0], bs[1]);
    } else if |bs| >= 3 {
      FullGroup(bs);
      GroupRoundTrip(bs[0], bs[1], bs[2]);
      DecodeSextetsRoundTrip(bs[3..]);
      assert bs == bs[..3] + bs[3..];
    }
  }

  /** The bit arithmetic of one group: the sextets of three bytes reassemble
      them, and zero padding bits give zero bytes back. */
  lemma GroupRoundTrip(b0: Byte, b1: Byte, b2: Byte)
    ensures Ungroup(Group(b0, b1, b2)) == [b0, b1, b2]
  {
    var x := (b0 % 4) * 16 + b1 / 16;
    assert x / 16 == b0 % 4 && x % 16 == b1 / 16;
    var y := (b1 % 16) * 4 + b2 / 64;
    assert y / 4 == b1 % 16 && y % 4 == b2 / 64;
    assert b0 == (b0 / 4) * 4 + b0 % 4;
    assert b1 == (b1 / 16) * 16 + b1 % 16;
    assert b2 == (b2 / 64) * 64 + b2 % 64;
  }

  lemma NoWhitespaceInEncoding(bs: seq<Byte>)
    ensures StripWhitespace(Base64Encode(bs)) == Base64Encode(bs)
  {
    NoWhitespaceStrip(Base64Encode(bs));
  }

  lemma {:induction false} NoWhitespaceStrip(t: string)
    requires forall i :: 0 <= i < |t| ==> !IsAsciiWhitespace(t[i])
    ensures StripWhitespace(t) == t
  {
    if t != [] {
      NoWhitespaceStrip(t[1..]);
      assert t == [t[0]] + t[1..];
    }
  }

  /** The padding of an encoding is exactly what `atob` strips from it. */
  lemma PaddingStripped(bs: seq<Byte>)
    ensures StripPadding(Base64Encode(bs)) == Chars(Sextets(bs))
  {
    var v := Sextets(bs);
    var body := Chars(v);
    var t := Base64Encode(bs);
    if |bs| % 3 == 1 {
      assert t == body + "==";
      assert t[|t| - 2..] == "==";
      assert t[..|t| - 2] == body;
    } else if |bs| % 3 == 2 {
      assert t == body + "=";
      assert t[|t| - 2] == body[|body| - 1] == B64Char(v[|v| - 1]);
      assert t[|t| - 2..] != "==";
      assert t[..|t| - 1] == body;
    } else {
      assert t == body;
      if |t| >= 1 {
        assert t[|t| - 1] == B64Char(v[|v| - 1]);
      }
    }
  }

  lemma ValuesOfChars(v: seq<int>)
    requires AllSextets(v)
    ensures forall i :: 0 <= i < |v| ==> B64Value(Chars(v)[i]) == Some(v[i])
    ensures Values(Chars(v)) == v
  {
    forall i | 0 <= i < |v|
      ensures B64Value(Chars(v)[i]) == Some(v[i])
    {
      B64ValueOfChar(v[i]);
    }
  }

  /** `atob` undoes `btoa`. */
  lemma Base64RoundTrip(bs: seq<Byte>)
    ensures Atob(Base64Encode(bs)) == Some(bs)
  {
    var v := Sextets(bs);
    NoWhitespaceInEncoding(bs);
    PaddingStripped(bs);
    ValuesOfChars(v);
    DecodeSextetsRoundTrip(bs);
  }

  // ---------------------------------------------------------------------------
  // Percent-encoding

  /** The bytes `encodeURIComponent` leaves as they are. */
  predicate Unreserved(b: int) {
    || 65 <= b <= 90 || 97 <= b <= 122 || 48 <= b <= 57
    || b == 45 || b == 95 || b == 46 || b == 33 || b == 126 || b == 42 || b == 39 || b == 40 || b == 41
  }

  function HexDigit(v: int): (c: char)
    requires 0 <= v < 16
  {
    if v < 10 then (48 + v) as char else (55 + v) as char
  }

  function HexValue(c: char): (r: Option<int>)
    ensures r.Some? ==> 0 <= r.value < 16
  {
    if '0' <= c <= '9' then Some(c as int - 48)
    else if 'A' <= c <= 'F' then Some(c as int - 55)
    else if 'a' <= c <= 'f' then Some(c as int - 87)
    else None
  }

  predicate IsAscii(t: string) {
    forall i :: 0 <= i < |t| ==> t[i] as int < 128
  }

  /** One byte: itself when unreserved, otherwise `%` and two upper-case hex digits. */
  function EncodeByte(b: Byte): (t: string)
    ensures IsAscii(t) && |t| >= 1
  {
    if Unreserved(b) then [b as char] else ['%', HexDigit(b / 16), HexDigit(b % 16)]
  }

  function PercentEncode(bs: seq<Byte>): (t: string)
    ensures IsAscii(t)
  {
    if bs == [] then [] else EncodeByte(bs[0]) + PercentEncode(bs[1..])
  }

  function Prepend(b: Byte, rest: Option<seq<Byte>>): Option<seq<Byte>> {
    match rest
    case Some(r) => Some([b] + r)
    case None => None
  }

  /** `decodeURIComponent` as bytes: `%` must be followed by two hex digits, and
      each escape gives its byte, whatever its value; an unescaped character must
      be ASCII and gives its code. `decodeURIComponent` differs on the two other
      cases: it throws on escapes that do not form UTF-8 (the lone `%FF`), which
      are accepted here, and it keeps an unescaped character above 0x7F, which
      fails here. */
  function PercentDecode(t: string): Option<seq<Byte>>
  {
    if t == [] then Some([])
    else if t[0] == '%' then
      if |t| >= 3 && HexValue(t[1]).Some? && HexValue(t[2]).Some? then
        Prepend(16 * HexValue(t[1]).value + HexValue(t[2]).value, PercentDecode(t[3..]))
      else None
    else if t[0] as int < 128 then Prepend(t[0] as int, PercentDecode(t[1..]))
    else None
  }

  /** The two places where this decoder and `decodeURIComponent` part: a lone
      escape above 0x7F is taken as its byte, and an unescaped Latin-1 character
      is refused. */
  lemma PercentDecodeOffUtf8()
    ensures PercentDecode("%FF") == Some([255])
    ensures PercentDecode([233 as char]) == None
  {
    var t := "%FF";
    var none: seq<Byte> := [];
    assert t[0] == '%' && t[1] == 'F' && t[2] == 'F' && t[3..] == [];
    assert HexValue('F') == Some(15);
    assert PercentDecode(t[3..]) == Some(none);
    assert [255 as Byte] + none == [255];
  }

  /** The hand-made token `JUZG`, which `atob` reads as `%FF`, decodes here
      although `decodeURIComponent` throws on it. */
  lemma HandMadeTokenDecodes()
    ensures DecodeToken("JUZG") == Some([255])
  {
    HandMadeTokenBytes();
    assert Latin1([37, 70, 70]) == "%FF";
    PercentDecodeOffUtf8();
  }

  lemma HandMadeTokenBytes()
    ensures Atob("JUZG") == Some([37, 70, 70])
  {
    HandMadeTokenStrips();
    HandMadeTokenValues();
    HandMadeTokenSextets();
  }

  lemma HandMadeTokenStrips()
    ensures StripPadding(StripWhitespace("JUZG")) == "JUZG"
  {
    assert StripWhitespace("G") == "G";
    assert StripWhitespace("ZG") == "ZG";
    assert StripWhitespace("UZG") == "UZG";
    assert StripWhitespace("JUZG") == "JUZG";
  }

  lemma HandMadeTokenValues()
    ensures forall i :: 0 <= i < 4 ==> B64Value("JUZG"[i]).Some?
    ensures Values("JUZG") == [9, 20, 25, 6]
  {
    assert B64Value('J') == Some(9) && B64Value('U') == Some(20);
    assert B64Value('Z') == Some(25) && B64Value('G') == Some(6);
  }

  lemma HandMadeTokenSextets()
    ensures DecodeSextets([9, 20, 25, 6]) == [37, 70, 70]
  {
    var v: seq<int> := [9, 20, 25, 6];
    assert v[..4] == v && v[4..] == [];
    assert Ungroup(v) == [37, 70, 70];
  }

  /** A hex digit reads back as its value. */
  lemma HexRoundTrip(v: int)
    requires 0 <= v < 16
    ensures HexValue(HexDigit(v)) == Some(v)
  {
  }

  /** Decoding one encoded byte in front of other text. */
  lemma PercentDecodeByte(b: Byte, rest: string)
    ensures PercentDecode(EncodeByte(b) + rest) == Prepend(b, PercentDecode(rest))
  {
    var e := EncodeByte(b) + rest;
    if Unreserved(b) {
      assert e[0] == b as char && e[1..] == rest;
    } else {
      HexRoundTrip(b / 16);
      HexRoundTrip(b % 16);
      assert e[0] == '%' && e[1] == HexDigit(b / 16) && e[2] == HexDigit(b % 16);
      assert e[3..] == rest;
    }
  }

  lemma {:induction false} PercentRoundTrip(bs: seq<Byte>)
    ensures PercentDecode(PercentEncode(bs)) == Some(bs)
  {
    if bs != [] {
      PercentRoundTrip(bs[1..]);
      PercentDecodeByte(bs[0], PercentEncode(bs[1..]));
      assert bs == [bs[0]] + bs[1..];
    }
  }

  // ---------------------------------------------------------------------------
  // The token

  /** The character codes `btoa` reads from an ASCII string. */
  function Codes(t: string): (bs: seq<Byte>)
    requires IsAscii(t)
    ensures |bs| == |t|
  {
    seq(|t|, i requires 0 <= i < |t| => t[i] as int)
  }

  /** The one-byte characters `atob` returns. */
  function Latin1(bs: seq<Byte>): (t: string)
    ensures |t| == |bs|
  {
    seq(|bs|, i requires 0 <= i < |bs| => bs[i] as char)
  }

  /** The token of a JSON text. */
  function EncodeToken(json: seq<Byte>): string {
    Base64Encode(Codes(PercentEncode(json)))
  }

  /** The JSON text of a token, None where `atob` or `decodeURIComponent` throws. */
  function DecodeToken(token: string): Option<seq<Byte>> {
    match Atob(token)
    case None => None
    case Some(bs) => PercentDecode(Latin1(bs))
  }

  /** Decoding a token gives back the JSON text it was made from. */
  lemma TokenRoundTrip(json: seq<Byte>)
    ensures DecodeToken(EncodeToken(json)) == Some(json)
  {
    var p := PercentEncode(json);
    Base64RoundTrip(Codes(p));
    assert Latin1(Codes(p)) == p;
    PercentRoundTrip(json);
  }

  // ---------------------------------------------------------------------------
  // The token inside a link

  /** How `URLSearchParams` reads a query value: `+` is a space and `%XX` is the
      character with that code; a `%` not followed by two hex digits is kept.
      Only codes below 0x80 are decoded here. */
  function FormDecode(t: string): string {
    if t == [] then []
    else if t[0] == '+' then " " + FormDecode(t[1..])
    else if t[0] == '%' && |t| >= 3 && HexValue(t[1]).Some? && HexValue(t[2]).Some?
            && 16 * HexValue(t[1]).value + HexValue(t[2]).value < 128 then
      [(16 * HexValue(t[1]).value + HexValue(t[2]).value) as char] + FormDecode(t[3..])
    else [t[0]] + FormDecode(t[1..])
  }

  lemma TildesEncode()
    ensures EncodeToken([126, 126, 126]) == "fn5+"
  {
    assert PercentEncode([126, 126, 126]) == "~~~" by {
      assert PercentEncode([126]) == "~";
      assert PercentEncode([126, 126]) == "~" + PercentEncode([126]);
      assert PercentEncode([126, 126, 126]) == "~" + PercentEncode([126, 126]);
    }
    assert Codes("~~~") == [126, 126, 126];
    assert Sextets([126, 126, 126]) == Group(126, 126, 126) + Sextets([]);
    assert Group(126, 126, 126) == [31, 39, 57, 62];
    assert Chars([31, 39, 57, 62]) == "fn5+";
  }

  lemma PlusReadsAsSpace()
    ensures FormDecode("fn5+") == "fn5 "
  {
    assert FormDecode("+") == " ";
    assert FormDecode("5+") == "5 ";
    assert FormDecode("n5+") == "n5 ";
  }

  lemma SpacedTokenStrips()
    ensures StripPadding(StripWhitespace("fn5 ")) == "fn5"
  {
    assert StripWhitespace(" ") == "";
    assert StripWhitespace("5 ") == "5";
    assert StripWhitespace("n5 ") == "n5";
    assert StripWhitespace("fn5 ") == "fn5";
  }

  lemma SpacedTokenBytes()
    ensures Atob("fn5 ") == Some([126, 126])
  {
    SpacedTokenStrips();
    SpacedTokenValues();
    assert Ungroup([31, 39, 57, 0]) == [126, 126, 64];
    assert DecodeSextets([31, 39, 57]) == [126, 126];
  }

  lemma SpacedTokenValues()
    ensures forall i :: 0 <= i < 3 ==> B64Value("fn5"[i]).Some?
    ensures Values("fn5") == [31, 39, 57]
  {
    assert B64Value('f') == Some(31);
    assert B64Value('n') == Some(39);
    assert B64Value('5') == Some(57);
  }

  lemma TwoTildesDecode()
    ensures PercentDecode("~~") == Some([126, 126])
  {
    var none: seq<Byte> := [];
    var one: seq<Byte> := [126];
    assert "~"[1..] == [] && "~~"[1..] == "~";
    assert PercentDecode([]) == Some(none);
    assert [126 as Byte] + none == one;
    assert PercentDecode("~") == Some(one);
    assert [126 as Byte] + one == [126, 126];
  }

  lemma SpacedTokenDecodes()
    ensures DecodeToken("fn5 ") == Some([126, 126])
  {
    SpacedTokenBytes();
    assert Latin1([126, 126]) == "~~";
    TwoTildesDecode();
  }

  /** The link as written puts the raw token in the query (script.js:153-154,
      src/pages/UploadPage.jsx:93-94), so a `+` of the token reads back as a
      space, which `atob` skips: the JSON text `~~~` has the token `fn5+` and
      comes back as `~~`. */
  lemma RawTokenInLinkLosesData()
    ensures EncodeToken([126, 126, 126]) == "fn5+"
    ensures DecodeToken(FormDecode(EncodeToken([126, 126, 126]))) == Some([126, 126])
  {
    TildesEncode();
    PlusReadsAsSpace();
    SpacedTokenDecodes();
  }

  /** The link value with the token itself percent-encoded, as
      `encodeURIComponent(token)` gives it. */
  function LinkValue(token: string): string
    requires IsAscii(token)
  {
    PercentEncode(Codes(token))
  }

  /** Reading one encoded ASCII byte of a link in front of other text. */
  lemma FormDecodeByte(b: Byte, rest: string)
    requires b < 128
    ensures FormDecode(EncodeByte(b) + rest) == [b as char] + FormDecode(rest)
  {
    var e := EncodeByte(b) + rest;
    if Unreserved(b) {
      assert e[0] == b as char && e[1..] == rest;
    } else {
      HexRoundTrip(b / 16);
      HexRoundTrip(b % 16);
      assert e[0] == '%' && e[1] == HexDigit(b / 16) && e[2] == HexDigit(b % 16);
      assert e[3..] == rest;
    }
  }

  lemma {:induction false} FormDecodeOfPercentEncoded(t: string)
    requires IsAscii(t)
    ensures FormDecode(LinkValue(t)) == t
  {
    if t != [] {
      var b: Byte := t[0] as int;
      assert Codes(t) == [b] + Codes(t[1..]);
      FormDecodeOfPercentEncoded(t[1..]);
      FormDecodeByte(b, LinkValue(t[1..]));
      assert t == [t[0]] + t[1..];
    }
  }

  lemma Base64IsAscii(bs: seq<Byte>)
    ensures IsAscii(Base64Encode(bs))
  {
    var v := Sextets(bs);
    assert forall i :: 0 <= i < |v| ==> B64Char(v[i]) as int < 128;
  }

  /** With the token percent-encoded in the link, reading the query and decoding
      gives back the JSON text. */
  lemma EncodedTokenInLinkRoundTrip(json: seq<Byte>)
    ensures IsAscii(EncodeToken(json))
    ensures DecodeToken(FormDecode(LinkValue(EncodeToken(json)))) == Some(json)
  {
    Base64IsAscii(Codes(PercentEncode(json)));
    FormDecodeOfPercentEncoded(EncodeToken(json));
    TokenRoundTrip(json);
  }
}
