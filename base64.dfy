/**
 * The browser's `btoa` and `atob`, on which the audio transport encoding
 * rests: `btoa` is the base64 encoding of section 4 of RFC 4648 applied to a
 * binary string (one character per byte), `atob` is the "forgiving-base64
 * decode" of the WHATWG Infra Standard, which skips ASCII whitespace, accepts
 * missing padding and discards the unused low bits of a final partial group.
 */
module Base64 {
  import opened Types

  /** The character of the base64 alphabet for the 6-bit value `v`. */
  function CharOf(v: int): (c: char)
    requires 0 <= v < 64
    ensures ValueOf(c) == Some(v)
    ensures c != '='
  {
    if v < 26 then ('A' as int + v) as char
    else if v < 52 then ('a' as int + v - 26) as char
    else if v < 62 then ('0' as int + v - 52) as char
    else if v == 62 then '+'
    else '/'
  }

  /** The 6-bit value of an alphabet character, `None` for any other character. */
  function ValueOf(c: char): (r: Option<int>)
    ensures r.Some? ==> 0 <= r.value < 64
    ensures r.Some? <==> (('A' <= c <= 'Z') || ('a' <= c <= 'z') || ('0' <= c <= '9') || c == '+' || c == '/')
  {
    if 'A' <= c <= 'Z' then Some(c as int - 'A' as int)
    else if 'a' <= c <= 'z' then Some(c as int - 'a' as int + 26)
    else if '0' <= c <= '9' then Some(c as int - '0' as int + 52)
    else if c == '+' then Some(62)
    else if c == '/' then Some(63)
    else None
  }

  ghost predicate AllSextets(vs: seq<int>) {
    forall i :: 0 <= i < |vs| ==> 0 <= vs[i] < 64
  }

  /** Number of 6-bit values that encode `n` bytes before padding. */
  function SextetCount(n: nat): nat {
    4 * (n / 3) + (if n % 3 == 0 then 0 else n % 3 + 1)
  }

  /** The four 6-bit values of the three bytes `b0`, `b1`, `b2`. */
  function SplitGroup(b0: byte, b1: byte, b2: byte): (vs: seq<int>)
    ensures |vs| == 4 && AllSextets(vs)
  {
    [b0 as int / 4, (b0 as int % 4) * 16 + b1 as int / 16, (b1 as int % 16) * 4 + b2 as int / 64, b2 as int % 64]
  }

  /**
   * The 6-bit values that encode `b`: three bytes become four values, and a
   * final group of one or two bytes becomes two or three values whose unused
   * low bits are zero.
   */
  function Sextets(b: seq<byte>): (vs: seq<int>)
    ensures |vs| == SextetCount(|b|)
    ensures AllSextets(vs)
    decreases |b|
  {
    if |b| == 0 then []
    else if |b| == 1 then SplitGroup(b[0], 0, 0)[..2]
    else if |b| == 2 then SplitGroup(b[0], b[1], 0)[..3]
    else SplitGroup(b[0], b[1], b[2]) + Sextets(b[3..])
  }

  function Chars(vs: seq<int>): (s: string)
    requires AllSextets(vs)
    ensures |s| == |vs|
  {
    seq(|vs|, i requires 0 <= i < |vs| => CharOf(vs[i]))
  }

  /** The `=` characters that complete the last group of four. */
  function Padding(n: nat): string {
    if n % 3 == 1 then "==" else if n % 3 == 2 then "=" else ""
  }

  /** Base64 encoding with padding, section 4 of RFC 4648. */
  function Encode(b: seq<byte>): (s: string)
    ensures |s| % 4 == 0
    ensures |s| == 4 * ((|b| + 2) / 3)
  {
    Chars(Sextets(b)) + Padding(|b|)
  }

  /** The three bytes held by four 6-bit values. */
  function JoinGroup(v0: int, v1: int, v2: int, v3: int): (b: seq<byte>)
    requires 0 <= v0 < 64 && 0 <= v1 < 64 && 0 <= v2 < 64 && 0 <= v3 < 64
    ensures |b| == 3
  {
    [(v0 * 4 + v1 / 16) as byte, ((v1 % 16) * 16 + v2 / 4) as byte, ((v2 % 4) * 64 + v3) as byte]
  }

  /** The bytes held by groups of 6-bit values; a final partial group of two or three values gives one or two bytes. */
  function DecodeSextets(vs: seq<int>): (b: seq<byte>)
    requires AllSextets(vs)
    requires |vs| % 4 != 1
    ensures |b| == |vs| * 3 / 4
    decreases |vs|
  {
    if |vs| == 0 then []
    else if |vs| == 2 then JoinGroup(vs[0], vs[1], 0, 0)[..1]
    else if |vs| == 3 then JoinGroup(vs[0], vs[1], vs[2], 0)[..2]
    else JoinGroup(vs[0], vs[1], vs[2], vs[3]) + DecodeSextets(vs[4..])
  }

  /** ASCII whitespace: tab, line feed, form feed, carriage return and space. */
  predicate IsAsciiWhitespace(c: char) {
    c == '\t' || c == '\n' || c as int == 0x0C || c == '\r' || c == ' '
  }

  function RemoveWhitespace(s: string): (r: string)
    ensures |r| <= |s|
    ensures forall i :: 0 <= i < |r| ==> !IsAsciiWhitespace(r[i])
  {
    if s == [] then []
    else if IsAsciiWhitespace(s[0]) then RemoveWhitespace(s[1..])
    else [s[0]] + RemoveWhitespace(s[1..])
  }

  /** When the length is a multiple of four, one or two trailing `=` are dropped. */
  function StripPadding(s: string): string {
    if |s| % 4 == 0 && |s| >= 2 && s[|s| - 2] == '=' && s[|s| - 1] == '=' then s[..|s| - 2]
    else if |s| % 4 == 0 && |s| >= 1 && s[|s| - 1] == '=' then s[..|s| - 1]
    else s
  }

  /** The 6-bit values of `s`, `None` when some character is outside the alphabet. */
  function Values(s: string): (r: Option<seq<int>>)
    ensures r.None? <==> exists i :: 0 <= i < |s| && ValueOf(s[i]).None?
    ensures r.Some? ==> |r.value| == |s| && AllSextets(r.value)
    ensures r.Some? ==> forall i :: 0 <= i < |s| ==> ValueOf(s[i]) == Some(r.value[i])
  {
    if forall i :: 0 <= i < |s| ==> ValueOf(s[i]).Some? then
      Some(seq(|s|, i requires 0 <= i < |s| => ValueOf(s[i]).value))
    else None
  }

  /** Forgiving-base64 decode; `None` is the failure that makes `atob` throw. */
  function Decode(s: string): (r: Option<seq<byte>>)
    ensures var d := StripPadding(RemoveWhitespace(s));
            && (r.None? <==> |d| % 4 == 1 || exists i :: 0 <= i < |d| && ValueOf(d[i]).None?)
            && (r.Some? ==> |r.value| == |d| * 3 / 4)
  {
    var d := StripPadding(RemoveWhitespace(s));
    if |d| % 4 == 1 then None
    else match Values(d)
      case None => None
      case Some(vs) => Some(DecodeSextets(vs))
  }

  /** The binary string whose character `i` has code `b[i]`. */
  function BinaryString(b: seq<byte>): (s: string)
    ensures |s| == |b|
    ensures forall i :: 0 <= i < |b| ==> s[i] as int == b[i] as int
  {
    seq(|b|, i requires 0 <= i < |b| => b[i] as char)
  }

  /** A string all of whose characters have codes below 256. */
  predicate IsBinary(s: string) {
    forall i :: 0 <= i < |s| ==> s[i] as int < 256
  }

  /** The bytes of a binary string. */
  function BinaryBytes(s: string): (b: seq<byte>)
    requires IsBinary(s)
    ensures |b| == |s|
    ensures forall i :: 0 <= i < |s| ==> b[i] as int == s[i] as int
  {
    seq(|s|, i requires 0 <= i < |s| => s[i] as int as byte)
  }

  /** `btoa`: `None` (an InvalidCharacterError) when a character code exceeds 255. */
  function Btoa(s: string): (r: Option<string>)
    ensures r.Some? <==> IsBinary(s)
  {
    if IsBinary(s) then Some(Encode(BinaryBytes(s))) else None
  }

  /** `atob`: `None` (an InvalidCharacterError) when the input is not forgiving base64. */
  function Atob(s: string): (r: Option<string>)
    ensures r.Some? ==> IsBinary(r.value)
  {
    match Decode(s)
    case None => None
    case Some(b) => Some(BinaryString(b))
  }

  // ---------------------------------------------------------------------
  // Round trip

  /** One group: joining the four values of three bytes gives the bytes back. */
  lemma GroupRoundTrip(b0: byte, b1: byte, b2: byte)
    ensures var vs := SplitGroup(b0, b1, b2); JoinGroup(vs[0], vs[1], vs[2], vs[3]) == [b0, b1, b2]
  {
    assert b1 as int / 16 < 16 && b2 as int / 64 < 4;
  }

  lemma SextetCountNotOneMod4(n: nat)
    ensures SextetCount(n) % 4 != 1
  {
  }

  /** Decoding the 6-bit values of `b` gives back `b`. */
  lemma {:induction false} DecodeSextetsOfSextets(b: seq<byte>)
    ensures SextetCount(|b|) % 4 != 1
    ensures DecodeSextets(Sextets(b)) == b
    decreases |b|
  {
    SextetCountNotOneMod4(|b|);
    if |b| == 0 {
    } else if |b| == 1 {
      GroupRoundTrip(b[0], 0, 0);
    } else if |b| == 2 {
      GroupRoundTrip(b[0], b[1], 0);
    } else {
      var g := SplitGroup(b[0], b[1], b[2]);
      var rest := Sextets(b[3..]);
      var vs := g + rest;
      assert vs == Sextets(b);
      assert vs[..4] == g && vs[4..] == rest;
      GroupRoundTrip(b[0], b[1], b[2]);
      DecodeSextetsOfSextets(b[3..]);
      assert DecodeSextets(vs) == JoinGroup(g[0], g[1], g[2], g[3]) + DecodeSextets(rest);
      assert b == [b[0], b[1], b[2]] + b[3..];
    }
  }

  lemma ValuesOfChars(vs: seq<int>)
    requires AllSextets(vs)
    ensures Values(Chars(vs)) == Some(vs)
  {
    var s := Chars(vs);
    forall i | 0 <= i < |s| ensures ValueOf(s[i]) == Some(vs[i]) {
      assert s[i] == CharOf(vs[i]);
    }
    assert Values(s).Some?;
    assert Values(s).value == vs;
  }

  lemma {:induction false} RemoveWhitespaceNoop(s: string)
    requires forall i :: 0 <= i < |s| ==> !IsAsciiWhitespace(s[i])
    ensures RemoveWhitespace(s) == s
  {
    if s != [] {
      RemoveWhitespaceNoop(s[1..]);
      assert s == [s[0]] + s[1..];
    }
  }

  /** No character of an encoding is whitespace. */
  lemma EncodeHasNoWhitespace(b: seq<byte>)
    ensures forall i :: 0 <= i < |Encode(b)| ==> !IsAsciiWhitespace(Encode(b)[i])
  {
    var vs := Sextets(b);
    var body := Chars(vs);
    var s := Encode(b);
    assert s == body + Padding(|b|);
    forall i | 0 <= i < |s| ensures !IsAsciiWhitespace(s[i]) {
      if i < |body| {
        assert s[i] == CharOf(vs[i]);
      }
    }
  }

  /** Stripping the padding of an encoding leaves the characters of its 6-bit values. */
  lemma StripPaddingOfEncode(b: seq<byte>)
    ensures StripPadding(Encode(b)) == Chars(Sextets(b))
  {
    var vs := Sextets(b);
    var body := Chars(vs);
    var s := body + Padding(|b|);
    assert s == Encode(b);
    if |b| % 3 == 1 {
      assert Padding(|b|) == "==" && |s| == |body| + 2;
      assert s[..|s| - 2] == body;
    } else if |b| % 3 == 2 {
      assert Padding(|b|) == "=" && |s| == |body| + 1;
      assert s[|s| - 2] == body[|body| - 1] == CharOf(vs[|vs| - 1]);
      assert s[..|s| - 1] == body;
    } else {
      assert s == body;
      if |b| > 0 {
        assert s[|s| - 1] == CharOf(vs[|vs| - 1]);
      }
    }
  }

  /** Forgiving decode undoes the encoding of RFC 4648 section 4. */
  lemma DecodeEncode(b: seq<byte>)
    ensures Decode(Encode(b)) == Some(b)
  {
    var s := Encode(b);
    EncodeHasNoWhitespace(b);
    RemoveWhitespaceNoop(s);
    StripPaddingOfEncode(b);
    DecodeSextetsOfSextets(b);
    ValuesOfChars(Sextets(b));
  }

  /** `atob` undoes `btoa` on every binary string. */
  lemma AtobBtoa(s: string)
    requires IsBinary(s)
    ensures Btoa(s).Some? && Atob(Btoa(s).value) == Some(s)
  {
    DecodeEncode(BinaryBytes(s));
    assert BinaryString(BinaryBytes(s)) == s;
  }
}
