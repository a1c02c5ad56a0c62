/** The `application/x-www-form-urlencoded` serializer that URLSearchParams
    uses for `toString()`, and a parser for the same format, so that the
    meaning of a serialized query can be stated as a round trip. */
module UrlSearchParams {

  /** Characters the serializer leaves as they are. */
  predicate Unreserved(c: char)
  {
    ('a' <= c <= 'z') || ('A' <= c <= 'Z') || ('0' <= c <= '9')
    || c == '*' || c == '-' || c == '.' || c == '_'
  }

  predicate IsAscii(s: string)
  {
    forall i :: 0 <= i < |s| ==> (s[i] as int) < 128
  }

  predicate IsHex(c: char)
  {
    ('0' <= c <= '9') || ('A' <= c <= 'F') || ('a' <= c <= 'f')
  }

  function HexDigit(d: int): (c: char)
    requires 0 <= d < 16
    ensures IsHex(c) && c != '&' && c != '='
  {
    if d < 10 then ('0' as int + d) as char else ('A' as int + d - 10) as char
  }

  function HexValue(c: char): (d: int)
    requires IsHex(c)
    ensures 0 <= d < 16
  {
    if '0' <= c <= '9' then c as int - '0' as int
    else if 'A' <= c <= 'F' then c as int - 'A' as int + 10
    else c as int - 'a' as int + 10
  }

  lemma HexRoundTrip(d: int)
    requires 0 <= d < 16
    ensures HexValue(HexDigit(d)) == d
  {
  }

  /** The UTF-8 bytes of one character. */
  function Utf8Bytes(c: char): (bytes: seq<int>)
    ensures 1 <= |bytes| <= 4
    ensures forall i :: 0 <= i < |bytes| ==> 0 <= bytes[i] < 256
    ensures (c as int) < 128 ==> bytes == [c as int]
  {
    var cp := c as int;
    if cp < 0x80 then [cp]
    else if cp < 0x800 then [0xC0 + cp / 0x40, 0x80 + cp % 0x40]
    else if cp < 0x10000 then [0xE0 + cp / 0x1000, 0x80 + (cp / 0x40) % 0x40, 0x80 + cp % 0x40]
    else [0xF0 + cp / 0x40000, 0x80 + (cp / 0x1000) % 0x40, 0x80 + (cp / 0x40) % 0x40, 0x80 + cp % 0x40]
  }

  /** The length of a UTF-8 sequence, as its leading byte announces it. */
  function Utf8Length(lead: int): int
  {
    if lead < 0x80 then 1 else if lead < 0xE0 then 2 else if lead < 0xF0 then 3 else 4
  }

  /** The code point a UTF-8 sequence of one to four bytes stands for: the
      payload bits of the leading byte, then six bits per continuation byte. */
  function Utf8Decode(bytes: seq<int>): int
    requires 1 <= |bytes| <= 4
  {
    if |bytes| == 1 then bytes[0]
    else if |bytes| == 2 then (bytes[0] - 0xC0) * 0x40 + (bytes[1] - 0x80)
    else if |bytes| == 3 then (bytes[0] - 0xE0) * 0x1000 + (bytes[1] - 0x80) * 0x40 + (bytes[2] - 0x80)
    else (bytes[0] - 0xF0) * 0x40000 + (bytes[1] - 0x80) * 0x1000 + (bytes[2] - 0x80) * 0x40 + (bytes[3] - 0x80)
  }

  lemma Utf8DecodeTwo(cp: int)
    requires 0x80 <= cp < 0x800
    ensures Utf8Decode([0xC0 + cp / 0x40, 0x80 + cp % 0x40]) == cp
  {
  }

  lemma Utf8DecodeThree(cp: int)
    requires 0x800 <= cp < 0x10000
    ensures Utf8Decode([0xE0 + cp / 0x1000, 0x80 + (cp / 0x40) % 0x40, 0x80 + cp % 0x40]) == cp
  {
    var q := cp / 0x40;
    assert cp == q * 0x40 + cp % 0x40;
    assert q == (q / 0x40) * 0x40 + q % 0x40;
    assert q / 0x40 == cp / 0x1000;
  }

  lemma Utf8DecodeFour(cp: int)
    requires 0x10000 <= cp < 0x110000
    ensures Utf8Decode([0xF0 + cp / 0x40000, 0x80 + (cp / 0x1000) % 0x40,
                        0x80 + (cp / 0x40) % 0x40, 0x80 + cp % 0x40]) == cp
  {
    var q := cp / 0x40;
    var p := q / 0x40;
    assert cp == q * 0x40 + cp % 0x40;
    assert q == p * 0x40 + q % 0x40;
    assert p == cp / 0x1000;
    assert p == (p / 0x40) * 0x40 + p % 0x40;
    assert p / 0x40 == cp / 0x40000;
  }

  /** The bytes are UTF-8: the leading byte announces their number, every
      other byte is a continuation byte, the shortest form is used, and
      decoding them gives back the character's code point. */
  lemma Utf8RoundTrip(c: char)
    ensures var bytes := Utf8Bytes(c);
      && Utf8Length(bytes[0]) == |bytes|
      && (forall i :: 1 <= i < |bytes| ==> 0x80 <= bytes[i] < 0xC0)
      && |bytes| == (if (c as int) < 0x80 then 1 else if (c as int) < 0x800 then 2
                     else if (c as int) < 0x10000 then 3 else 4)
      && Utf8Decode(bytes) == c as int
  {
    var cp := c as int;
    if 0x10000 <= cp {
      Utf8DecodeFour(cp);
    } else if 0x800 <= cp {
      Utf8DecodeThree(cp);
    } else if 0x80 <= cp {
      Utf8DecodeTwo(cp);
    }
  }

  function PercentBytes(bytes: seq<int>): (s: string)
    requires forall i :: 0 <= i < |bytes| ==> 0 <= bytes[i] < 256
    ensures |s| == 3 * |bytes|
    ensures forall i :: 0 <= i < |s| ==> s[i] != '&' && s[i] != '='
  {
    if bytes == [] then []
    else ['%', HexDigit(bytes[0] / 16), HexDigit(bytes[0] % 16)] + PercentBytes(bytes[1..])
  }

  /** One character, form-encoded: unreserved characters stay, a space
      becomes '+', everything else is its UTF-8 bytes as upper-case %XX. */
  function EncodeChar(c: char): (s: string)
    ensures forall i :: 0 <= i < |s| ==> s[i] != '&' && s[i] != '='
  {
    if Unreserved(c) then [c]
    else if c == ' ' then "+"
    else PercentBytes(Utf8Bytes(c))
  }

  function Encode(s: string): (e: string)
    ensures forall i :: 0 <= i < |e| ==> e[i] != '&' && e[i] != '='
  {
    if s == [] then [] else EncodeChar(s[0]) + Encode(s[1..])
  }

  /** Form-decoding: '+' is a space and a %XX escape is the byte XX, read as
      a character (faithful for ASCII text, which is all the round trip
      below claims). */
  function Decode(s: string): string
    decreases |s|
  {
    if s == [] then []
    else if s[0] == '+' then [' '] + Decode(s[1..])
    else if s[0] == '%' && |s| >= 3 && IsHex(s[1]) && IsHex(s[2]) then
      [(HexValue(s[1]) * 16 + HexValue(s[2])) as char] + Decode(s[3..])
    else [s[0]] + Decode(s[1..])
  }

  lemma DecodeEncodedChar(c: char, rest: string)
    requires (c as int) < 128
    ensures Decode(EncodeChar(c) + rest) == [c] + Decode(rest)
  {
    if Unreserved(c) {
      assert (EncodeChar(c) + rest)[1..] == rest;
    } else if c == ' ' {
      assert (EncodeChar(c) + rest)[1..] == rest;
    } else {
      var b := c as int;
      var e := EncodeChar(c) + rest;
      assert EncodeChar(c) == ['%', HexDigit(b / 16), HexDigit(b % 16)];
      HexRoundTrip(b / 16);
      HexRoundTrip(b % 16);
      assert e[3..] == rest;
      assert (HexValue(e[1]) * 16 + HexValue(e[2])) as char == c;
    }
  }

  /** Decoding undoes encoding on ASCII text. */
  lemma {:induction false} DecodeEncode(s: string)
    requires IsAscii(s)
    ensures Decode(Encode(s)) == s
  {
    if s != [] {
      assert IsAscii(s[1..]);
      DecodeEncodedChar(s[0], Encode(s[1..]));
      DecodeEncode(s[1..]);
    }
  }

  /** The index of the first `c` in `s`, or |s| when there is none. */
  function IndexOf(s: string, c: char): (i: nat)
    ensures i <= |s|
    ensures i < |s| ==> s[i] == c
    ensures forall k :: 0 <= k < i ==> s[k] != c
  {
    if s == [] then 0 else if s[0] == c then 0 else 1 + IndexOf(s[1..], c)
  }

  /** `name=value` with both sides encoded. */
  function SerializePair(p: (string, string)): string
  {
    Encode(p.0) + "=" + Encode(p.1)
  }

  /** URLSearchParams.toString(): the pairs in order, joined by '&'. */
  function Serialize(ps: seq<(string, string)>): string
  {
    if ps == [] then ""
    else if |ps| == 1 then SerializePair(ps[0])
    else SerializePair(ps[0]) + "&" + Serialize(ps[1..])
  }

  /** One `name=value` segment; a segment without '=' has an empty value. */
  function ParsePair(seg: string): (string, string)
  {
    var j := IndexOf(seg, '=');
    if j == |seg| then (Decode(seg), "") else (Decode(seg[..j]), Decode(seg[j + 1..]))
  }

  /** Parsing a query string: segments split at '&', empty ones skipped. */
  function Parse(q: string): seq<(string, string)>
    decreases |q|
  {
    if q == [] then []
    else
      var i := IndexOf(q, '&');
      (if i == 0 then [] else [ParsePair(q[..i])])
      + (if i == |q| then [] else Parse(q[i + 1..]))
  }

  lemma ParseSerializedPair(p: (string, string))
    requires IsAscii(p.0) && IsAscii(p.1)
    ensures ParsePair(SerializePair(p)) == p
  {
    var a, b := Encode(p.0), Encode(p.1);
    var seg := SerializePair(p);
    assert seg == a + "=" + b;
    assert seg[|a|] == '=';
    assert IndexOf(seg, '=') == |a|;
    assert seg[..|a|] == a;
    assert seg[|a| + 1..] == b;
    DecodeEncode(p.0);
    DecodeEncode(p.1);
  }

  lemma ParseOneSegment(seg: string)
    requires |seg| > 0
    requires forall k :: 0 <= k < |seg| ==> seg[k] != '&'
    ensures Parse(seg) == [ParsePair(seg)]
  {
    assert IndexOf(seg, '&') == |seg|;
    assert seg[..|seg|] == seg;
  }

  lemma ParseSegmentThenRest(seg: string, rest: string)
    requires |seg| > 0
    requires forall k :: 0 <= k < |seg| ==> seg[k] != '&'
    ensures Parse(seg + "&" + rest) == [ParsePair(seg)] + Parse(rest)
  {
    var q := seg + "&" + rest;
    assert q[|seg|] == '&';
    assert IndexOf(q, '&') == |seg|;
    assert q[..|seg|] == seg;
    assert q[|seg| + 1..] == rest;
  }

  lemma SerializedPairShape(p: (string, string))
    ensures |SerializePair(p)| > 0
    ensures forall k :: 0 <= k < |SerializePair(p)| ==> SerializePair(p)[k] != '&'
  {
    var a, b := Encode(p.0), Encode(p.1);
    assert SerializePair(p) == a + "=" + b;
  }

  /** Parsing a serialized list of ASCII pairs gives back the same pairs, in
      the same order. */
  lemma {:induction false} ParseSerialize(ps: seq<(string, string)>)
    requires forall k :: 0 <= k < |ps| ==> IsAscii(ps[k].0) && IsAscii(ps[k].1)
    ensures Parse(Serialize(ps)) == ps
  {
    if ps != [] {
      SerializedPairShape(ps[0]);
      ParseSerializedPair(ps[0]);
      if |ps| == 1 {
        ParseOneSegment(SerializePair(ps[0]));
      } else {
        ParseSegmentThenRest(SerializePair(ps[0]), Serialize(ps[1..]));
        ParseSerialize(ps[1..]);
      }
    }
  }
}
