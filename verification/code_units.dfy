/** JavaScript strings seen as UTF-16 code units (`charCodeAt`,
    `String.fromCharCode`), and the bitwise `^` on non-negative operands. */
module CodeUnits {
  import opened Base64

  /** The code units of one character: itself below U+10000, otherwise a
      surrogate pair. */
  function CharUnits(c: char): (u: seq<CodeUnit>)
    ensures 1 <= |u| <= 2
    ensures c as int < 0x1_0000 ==> u == [c as int]
    ensures c as int >= 0x1_0000 ==> u[0] >= 256
  {
    var n := c as int;
    if n < 0x1_0000 then [n]
    else [0xD800 + (n - 0x1_0000) / 0x400, 0xDC00 + (n - 0x1_0000) % 0x400]
  }

  /** The code units of a text, as `charCodeAt` sees them. */
  function Utf16(s: string): (u: seq<CodeUnit>)
    ensures |u| >= |s|
  {
    if |s| == 0 then [] else CharUnits(s[0]) + Utf16(s[1..])
  }

  /** Every character fits in one byte. */
  predicate IsLatin1(s: string) {
    forall k | 0 <= k < |s| :: s[k] as int < 256
  }

  /** Every code unit fits in one byte (what `btoa` accepts). */
  predicate AllBytes(u: seq<CodeUnit>) {
    forall k | 0 <= k < |u| :: u[k] < 256
  }

  /** A text of one-byte characters is its own code units, one per character. */
  lemma {:induction false} Utf16OfLatin1(s: string)
    requires IsLatin1(s)
    ensures Utf16(s) == seq(|s|, k requires 0 <= k < |s| => s[k] as int)
  {
    if |s| > 0 {
      Utf16OfLatin1(s[1..]);
      var u, w := Utf16(s), seq(|s|, k requires 0 <= k < |s| => s[k] as int);
      assert u == [s[0] as int] + Utf16(s[1..]);
      forall k | 0 <= k < |s| ensures u[k] == w[k] {
        if k > 0 { assert u[k] == Utf16(s[1..])[k - 1]; }
      }
    }
  }

  /** A character above U+00FF gives a code unit above 255. */
  lemma {:induction false} Utf16OfWide(s: string, k: nat)
    requires k < |s| && s[k] as int >= 256
    ensures !AllBytes(Utf16(s))
  {
    var u := Utf16(s);
    if k == 0 {
      assert u[0] == CharUnits(s[0])[0];
    } else {
      Utf16OfWide(s[1..], k - 1);
      var j :| 0 <= j < |Utf16(s[1..])| && Utf16(s[1..])[j] >= 256;
      assert u[|CharUnits(s[0])| + j] == Utf16(s[1..])[j];
    }
  }

  /** A text is one-byte exactly when its code units are. */
  lemma Latin1Units(s: string)
    ensures IsLatin1(s) <==> AllBytes(Utf16(s))
  {
    if IsLatin1(s) {
      Utf16OfLatin1(s);
    } else {
      var k :| 0 <= k < |s| && s[k] as int >= 256;
      Utf16OfWide(s, k);
    }
  }

  /** `String.fromCharCode` of each code unit below 256. */
  function FromLatin1(u: seq<CodeUnit>): (s: string)
    requires AllBytes(u)
    ensures |s| == |u| && IsLatin1(s)
  {
    seq(|u|, k requires 0 <= k < |u| => u[k] as char)
  }

  /** The characters of a one-byte text come back from its code units. */
  lemma FromLatin1OfUtf16(s: string)
    requires IsLatin1(s)
    ensures AllBytes(Utf16(s)) && FromLatin1(Utf16(s)) == s
  {
    Utf16OfLatin1(s);
  }

  // ----- Exclusive or -----

  function Pow2(n: nat): (p: nat)
    ensures p >= 1
  {
    if n == 0 then 1 else 2 * Pow2(n - 1)
  }

  /** `a ^ b` for non-negative operands, bit by bit from the lowest. */
  function Xor(a: nat, b: nat): nat
    decreases a + b
  {
    if a == 0 && b == 0 then 0
    else 2 * Xor(a / 2, b / 2) + (if a % 2 == b % 2 then 0 else 1)
  }

  /** Exclusive or with the same operand twice gives the value back. */
  lemma {:induction false} XorSelfInverse(a: nat, b: nat)
    ensures Xor(Xor(a, b), b) == a
    decreases a + b
  {
    if a != 0 || b != 0 {
      var x := Xor(a, b);
      XorSelfInverse(a / 2, b / 2);
      assert x / 2 == Xor(a / 2, b / 2) && x % 2 == (if a % 2 == b % 2 then 0 else 1);
    }
  }

  /** Exclusive or of two values below 2^n stays below 2^n. */
  lemma {:induction false} XorBelow(a: nat, b: nat, n: nat)
    requires a < Pow2(n) && b < Pow2(n)
    ensures Xor(a, b) < Pow2(n)
    decreases a + b
  {
    if a != 0 || b != 0 {
      assert n > 0;
      XorBelow(a / 2, b / 2, n - 1);
    }
  }

  /** `a ^ b` on code units. */
  function XorUnit(a: CodeUnit, b: CodeUnit): (r: CodeUnit)
    ensures a < 256 && b < 256 ==> r < 256
  {
    assert Pow2(16) == 0x1_0000 && Pow2(8) == 256;
    XorBelow(a, b, 16);
    if a < 256 && b < 256 then XorBelow(a, b, 8); Xor(a, b) else Xor(a, b)
  }

  /** Exclusive or with a byte never turns a wider code unit into a byte. */
  lemma XorKeepsWide(a: CodeUnit, b: CodeUnit)
    requires a >= 256 && b < 256
    ensures XorUnit(a, b) >= 256
  {
    XorSelfInverse(a, b);
    assert XorUnit(XorUnit(a, b), b) == a;
  }
}
