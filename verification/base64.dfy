/** The browser's `btoa` and `atob`, which src/services/storage.ts relies on:
    base64 as in section 4 of RFC 4648, with `atob` following the
    forgiving-base64 decode of the WHATWG Infra standard (ASCII whitespace is
    ignored, padding is optional, leftover bits are dropped). */
module Base64 {
  import opened ApiTypes

  /** A UTF-16 code unit: what `charCodeAt` gives and `fromCharCode` takes. */
  type CodeUnit = u: int | 0 <= u < 0x1_0000

  /** A code unit `btoa` accepts, and what `atob` produces. */
  type Byte = b: int | 0 <= b < 256

  type Sextet = v: int | 0 <= v < 64

  /** The character of a sextet: A-Z, a-z, 0-9, '+', '/'. */
  function SextetChar(v: Sextet): (c: char)
    ensures c != '='
  {
    if v < 26 then ('A' as int + v) as char
    else if v < 52 then ('a' as int + (v - 26)) as char
    else if v < 62 then ('0' as int + (v - 52)) as char
    else if v == 62 then '+'
    else '/'
  }

  /** The sextet of a base64 alphabet character, if it is one. */
  function SextetValue(c: char): (v: Option<Sextet>)
    ensures v.Some? ==> SextetChar(v.value) == c
  {
    if 'A' <= c <= 'Z' then Some(c as int - 'A' as int)
    else if 'a' <= c <= 'z' then Some(c as int - 'a' as int + 26)
    else if '0' <= c <= '9' then Some(c as int - '0' as int + 52)
    else if c == '+' then Some(62)
    else if c == '/' then Some(63)
    else None
  }

  lemma SextetRoundTrip(v: Sextet)
    ensures SextetValue(SextetChar(v)) == Some(v)
  {
  }

  predicate InAlphabet(c: char) { SextetValue(c).Some? }

  // ----- Encoding -----

  // A group of three bytes b0 b1 b2 is written as the four sextets
  // b0[7..2], b0[1..0] b1[7..4], b1[3..0] b2[7..6], b2[5..0].

  function Sextet0(b0: Byte): Sextet { b0 / 4 }
  function Sextet1(b0: Byte, b1: Byte): Sextet { (b0 % 4) * 16 + b1 / 16 }
  function Sextet2(b1: Byte, b2: Byte): Sextet { (b1 % 16) * 4 + b2 / 64 }
  function Sextet3(b2: Byte): Sextet { b2 % 64 }

  /** The sextets of `bytes`: four per group of three bytes, and two or three
      for a final one or two bytes, whose missing bits are zero. */
  function Groups(bytes: seq<Byte>): seq<Sextet>
  {
    if |bytes| == 0 then []
    else if |bytes| == 1 then [Sextet0(bytes[0]), Sextet1(bytes[0], 0)]
    else if |bytes| == 2 then [Sextet0(bytes[0]), Sextet1(bytes[0], bytes[1]), Sextet2(bytes[1], 0)]
    else Quad(bytes[0], bytes[1], bytes[2]) + Groups(bytes[3..])
  }

  /** The sextets of a full group of three bytes. */
  function Quad(b0: Byte, b1: Byte, b2: Byte): (g: seq<Sextet>)
    ensures |g| == 4
  {
    [Sextet0(b0), Sextet1(b0, b1), Sextet2(b1, b2), Sextet3(b2)]
  }

  /** The digit of each sextet. */
  function Chars(v: seq<Sextet>): (s: string)
    ensures |s| == |v|
  {
    seq(|v|, k requires 0 <= k < |v| => SextetChar(v[k]))
  }

  /** The '=' characters that complete the last group of four. */
  function Padding(n: nat): string {
    if n % 3 == 1 then "==" else if n % 3 == 2 then "=" else ""
  }

  /** Base64 encoding with padding. */
  function Encode(bytes: seq<Byte>): string {
    Chars(Groups(bytes)) + Padding(|bytes|)
  }

  /** btoa: fails (throws InvalidCharacterError) on a code unit above 255. */
  function Btoa(units: seq<CodeUnit>): (r: Option<string>)
    ensures r.Some? <==> forall k | 0 <= k < |units| :: units[k] < 256
  {
    if forall k | 0 <= k < |units| :: units[k] < 256 then
      Some(Encode(seq(|units|, k requires 0 <= k < |units| => units[k] as Byte)))
    else None
  }

  // ----- Decoding -----

  /** TAB, LF, FF, CR and SPACE. */
  predicate IsAsciiWhitespace(c: char) {
    c == '\t' || c == '\n' || c == '\U{000C}' || c == '\r' || c == ' '
  }

  function RemoveAsciiWhitespace(s: string): (r: string)
    ensures forall c | c in r :: !IsAsciiWhitespace(c)
    ensures (forall c | c in s :: !IsAsciiWhitespace(c)) ==> r == s
  {
    if |s| == 0 then []
    else if IsAsciiWhitespace(s[0]) then RemoveAsciiWhitespace(s[1..])
    else [s[0]] + RemoveAsciiWhitespace(s[1..])
  }

  /** Step 2 of forgiving-base64 decode: when the length is a multiple of four,
      drop one or two trailing '='. */
  function StripPadding(s: string): string {
    if |s| % 4 == 0 && |s| >= 1 && s[|s| - 1] == '=' then
      if |s| >= 2 && s[|s| - 2] == '=' then s[..|s| - 2] else s[..|s| - 1]
    else s
  }

  /** The sextet of an alphabet character. */
  function SextetOf(c: char): Sextet
    requires InAlphabet(c)
  {
    SextetValue(c).value
  }

  /** The sextets of alphabet characters. */
  function Sextets(s: string): (v: seq<Sextet>)
    requires forall c | c in s :: InAlphabet(c)
    ensures |v| == |s|
  {
    seq(|s|, k requires 0 <= k < |s| => SextetOf(s[k]))
  }

  function Byte0(v0: Sextet, v1: Sextet): Byte { v0 * 4 + v1 / 16 }
  function Byte1(v1: Sextet, v2: Sextet): Byte { (v1 % 16) * 16 + v2 / 4 }
  function Byte2(v2: Sextet, v3: Sextet): Byte { (v2 % 4) * 64 + v3 }

  /** The bytes of a run of sextets; a final group of two or three sextets gives
      one or two bytes and its leftover bits are dropped. */
  function Bytes(v: seq<Sextet>): (bytes: seq<Byte>)
    requires |v| % 4 != 1
  {
    if |v| == 0 then []
    else if |v| == 2 then [Byte0(v[0], v[1])]
    else if |v| == 3 then [Byte0(v[0], v[1]), Byte1(v[1], v[2])]
    else [Byte0(v[0], v[1]), Byte1(v[1], v[2]), Byte2(v[2], v[3])] + Bytes(v[4..])
  }

  /** atob: `None` where the browser throws InvalidCharacterError. */
  function Atob(s: string): (r: Option<seq<Byte>>)
    ensures r.Some? <==>
      var t := StripPadding(RemoveAsciiWhitespace(s));
      |t| % 4 != 1 && forall c | c in t :: InAlphabet(c)
  {
    var t := StripPadding(RemoveAsciiWhitespace(s));
    if |t| % 4 == 1 then None
    else if forall c | c in t :: InAlphabet(c) then Some(Bytes(Sextets(t)))
    else None
  }

  // ----- Round trip -----

  /** The sextets fill whole groups of four except a last group of two or three. */
  lemma {:induction false} GroupsLength(bytes: seq<Byte>)
    ensures |Groups(bytes)| % 4 == (if |bytes| % 3 == 0 then 0 else |bytes| % 3 + 1)
  {
    if |bytes| >= 3 {
      var m := |Groups(bytes[3..])|;
      GroupsLength(bytes[3..]);
      assert |Groups(bytes)| == m + 4;
      assert (|bytes| - 3) % 3 == |bytes| % 3;
      assert (m + 4) % 4 == m % 4;
    }
  }

  /** Reassembling the sextets of a group gives its bytes back. */
  lemma GroupRoundTrip(b0: Byte, b1: Byte, b2: Byte)
    ensures Byte0(Sextet0(b0), Sextet1(b0, b1)) == b0
    ensures Byte1(Sextet1(b0, b1), Sextet2(b1, b2)) == b1
    ensures Byte2(Sextet2(b1, b2), Sextet3(b2)) == b2
  {
  }

  lemma OneByteRoundTrip(b0: Byte)
    ensures Bytes(Groups([b0])) == [b0]
  {
    GroupsOfOne(b0);
    BytesOfPair(Sextet0(b0), Sextet1(b0, 0));
    GroupRoundTrip(b0, 0, 0);
  }

  lemma GroupsOfOne(b0: Byte)
    ensures Groups([b0]) == [Sextet0(b0), Sextet1(b0, 0)]
  {
  }

  lemma BytesOfPair(v0: Sextet, v1: Sextet)
    ensures Bytes([v0, v1]) == [Byte0(v0, v1)]
  {
  }

  lemma TwoBytesRoundTrip(b0: Byte, b1: Byte)
    ensures Bytes(Groups([b0, b1])) == [b0, b1]
  {
    GroupRoundTrip(b0, b1, 0);
  }

  /** Decoding a full group in front of further sextets. */
  lemma BytesOfQuad(b0: Byte, b1: Byte, b2: Byte, w: seq<Sextet>)
    requires |w| % 4 != 1
    ensures |Quad(b0, b1, b2) + w| % 4 != 1
    ensures Bytes(Quad(b0, b1, b2) + w) == [b0, b1, b2] + Bytes(w)
  {
    var v := Quad(b0, b1, b2) + w;
    assert v[4..] == w;
    GroupRoundTrip(b0, b1, b2);
  }

  lemma {:induction false} BytesOfGroups(bytes: seq<Byte>)
    ensures |Groups(bytes)| % 4 != 1
    ensures Bytes(Groups(bytes)) == bytes
  {
    if |bytes| == 1 {
      OneByteRoundTrip(bytes[0]);
      assert bytes == [bytes[0]];
    } else if |bytes| == 2 {
      TwoBytesRoundTrip(bytes[0], bytes[1]);
      assert bytes == [bytes[0], bytes[1]];
    } else if |bytes| >= 3 {
      BytesOfGroups(bytes[3..]);
      BytesOfQuad(bytes[0], bytes[1], bytes[2], Groups(bytes[3..]));
      assert bytes == [bytes[0], bytes[1], bytes[2]] + bytes[3..];
    }
  }

  /** Digits are alphabet characters and read back as their sextets. */
  lemma SextetsOfChars(v: seq<Sextet>)
    ensures forall c | c in Chars(v) :: InAlphabet(c)
    ensures Sextets(Chars(v)) == v
  {
    forall c | c in Chars(v) ensures InAlphabet(c) {
      var k :| 0 <= k < |v| && Chars(v)[k] == c;
      SextetRoundTrip(v[k]);
    }
    forall k | 0 <= k < |v| ensures Sextets(Chars(v))[k] == v[k] {
      SextetRoundTrip(v[k]);
    }
  }

  lemma EncodingHasNoWhitespace(bytes: seq<Byte>)
    ensures forall c | c in Encode(bytes) :: !IsAsciiWhitespace(c)
  {
    var d := Chars(Groups(bytes));
    SextetsOfChars(Groups(bytes));
    forall c | c in Encode(bytes) ensures !IsAsciiWhitespace(c) {
      if c in d { assert InAlphabet(c); } else { assert c in Padding(|bytes|); }
    }
  }

  lemma StripPaddingOfEncoding(bytes: seq<Byte>)
    ensures StripPadding(Encode(bytes)) == Chars(Groups(bytes))
  {
    var d := Chars(Groups(bytes));
    GroupsLength(bytes);
    SextetsOfChars(Groups(bytes));
    if |bytes| % 3 == 1 {
      StripTwo(d);
    } else if |bytes| % 3 == 2 {
      StripOne(d);
    } else if |d| > 0 {
      assert d[|d| - 1] in d;
    }
  }

  lemma StripTwo(d: string)
    requires |d| % 4 == 2
    ensures StripPadding(d + "==") == d
  {
    var e := d + "==";
    assert |d| == 4 * (|d| / 4) + 2;
    assert |e| == 4 * (|d| / 4 + 1);
    assert |e| % 4 == 0;
    assert e[|e| - 2] == '=' && e[|e| - 1] == '=';
    assert e[..|e| - 2] == d;
  }

  lemma StripOne(d: string)
    requires |d| % 4 == 3
    requires forall c | c in d :: InAlphabet(c)
    ensures StripPadding(d + "=") == d
  {
    var e := d + "=";
    assert |d| == 4 * (|d| / 4) + 3;
    assert |e| == 4 * (|d| / 4 + 1);
    assert |e| % 4 == 0;
    assert d[|d| - 1] in d;
    assert e[|e| - 2] == d[|d| - 1];
    assert e[..|e| - 1] == d;
  }

  /** atob undoes btoa: every byte string comes back from its encoding. */
  lemma DecodeEncode(bytes: seq<Byte>)
    ensures Atob(Encode(bytes)) == Some(bytes)
  {
    EncodingHasNoWhitespace(bytes);
    StripPaddingOfEncoding(bytes);
    SextetsOfChars(Groups(bytes));
    BytesOfGroups(bytes);
  }

  /** btoa followed by atob gives back the code units, which are all bytes. */
  lemma AtobBtoa(units: seq<CodeUnit>)
    requires Btoa(units).Some?
    ensures Atob(Btoa(units).value) == Some(units)
  {
    var bytes := seq(|units|, k requires 0 <= k < |units| => units[k] as Byte);
    DecodeEncode(bytes);
    assert bytes == units;
  }

  /** atob fails on any text holding a character outside the alphabet, '=' and
      ASCII whitespace. */
  lemma AtobRejectsForeign(s: string, k: nat)
    requires k < |s| && !InAlphabet(s[k]) && s[k] != '=' && !IsAsciiWhitespace(s[k])
    ensures Atob(s) == None
  {
    RemoveKeeps(s, k);
    var t := RemoveAsciiWhitespace(s);
    assert s[k] in StripPadding(t) by {
      var j :| 0 <= j < |t| && t[j] == s[k];
      if |t| % 4 == 0 && |t| >= 1 && t[|t| - 1] == '=' {
        assert j < |t| - 1;
        if |t| >= 2 && t[|t| - 2] == '=' {
          assert j < |t| - 2;
          assert StripPadding(t)[j] == s[k];
        } else {
          assert StripPadding(t)[j] == s[k];
        }
      }
    }
  }

  /** Alphabet characters are not whitespace. */
  lemma AlphabetIsNotWhitespace(s: string)
    requires forall c | c in s :: InAlphabet(c)
    ensures RemoveAsciiWhitespace(s) == s
  {
    forall c | c in s ensures !IsAsciiWhitespace(c) {
      assert SextetValue(c).Some?;
    }
  }

  /** atob fails on alphabet text whose length is 1 modulo 4: no group of
      sextets ends in a single one. */
  lemma AtobRejectsLength(s: string)
    requires |s| % 4 == 1 && forall c | c in s :: InAlphabet(c)
    ensures Atob(s) == None
  {
    AlphabetIsNotWhitespace(s);
  }

  /** atob fails on a text without whitespace holding '=' anywhere but among
      its last two characters: padding may only close the text. */
  lemma AtobRejectsMisplacedPadding(s: string, k: nat)
    requires forall c | c in s :: !IsAsciiWhitespace(c)
    requires k + 2 < |s| && s[k] == '='
    ensures Atob(s) == None
  {
    var t := StripPadding(s);
    assert t == s[..|t|] && |t| >= |s| - 2;
    assert t[k] == '=';
    assert !InAlphabet('=');
  }

  lemma {:induction false} RemoveKeeps(s: string, k: nat)
    requires k < |s| && !IsAsciiWhitespace(s[k])
    ensures s[k] in RemoveAsciiWhitespace(s)
  {
    if k > 0 {
      RemoveKeeps(s[1..], k - 1);
    }
  }
}
