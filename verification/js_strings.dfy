/** The JavaScript string and array built-ins the core relies on:
    String.prototype.trim, String.prototype.split and Array.prototype.join with a
    one-character separator, Array.prototype.slice(0, end), and the decimal
    rendering of an integer. */
module JsStrings {

  /** The characters String.prototype.trim strips: the WhiteSpace and
      LineTerminator code points of ECMA-262 (sections 12.2 and 12.3). */
  predicate IsWhitespace(c: char) {
    || c == '\t' || c == '\n' || c == '\U{000B}' || c == '\U{000C}' || c == '\r' || c == ' '
    || c == '\U{00A0}' || c == '\U{1680}' || ('\U{2000}' <= c <= '\U{200A}')
    || c == '\U{2028}' || c == '\U{2029}' || c == '\U{202F}' || c == '\U{205F}'
    || c == '\U{3000}' || c == '\U{FEFF}'
  }

  /** Neither end of `s` is whitespace. */
  predicate IsTrimmed(s: string) {
    |s| == 0 || (!IsWhitespace(s[0]) && !IsWhitespace(s[|s| - 1]))
  }

  function TrimStart(s: string): (r: string)
    ensures |r| <= |s| && r == s[|s| - |r|..]
    ensures forall c | c in r :: c in s
    ensures |r| == 0 || !IsWhitespace(r[0])
    ensures forall k | 0 <= k < |s| - |r| :: IsWhitespace(s[k])
  {
    if |s| > 0 && IsWhitespace(s[0]) then
      var r := TrimStart(s[1..]);
      assert s[1..][|s| - 1 - |r|..] == s[|s| - |r|..];
      assert forall k | 1 <= k < |s| - |r| :: s[k] == s[1..][k - 1];
      r
    else s
  }

  function TrimEnd(s: string): (r: string)
    ensures |r| <= |s| && r == s[..|r|]
    ensures forall c | c in r :: c in s
    ensures |r| == 0 || !IsWhitespace(r[|r| - 1])
    ensures forall k | |r| <= k < |s| :: IsWhitespace(s[k])
  {
    if |s| > 0 && IsWhitespace(s[|s| - 1]) then
      var r := TrimEnd(s[..|s| - 1]);
      assert s[..|s| - 1][..|r|] == s[..|r|];
      r
    else s
  }

  /** `r` is the infix of `s` at index `i`, with only whitespace before and
      after it. */
  predicate TrimmedAt(s: string, r: string, i: int) {
    && 0 <= i <= |s| - |r| && r == s[i..i + |r|]
    && (forall k | 0 <= k < i :: IsWhitespace(s[k]))
    && (forall k | i + |r| <= k < |s| :: IsWhitespace(s[k]))
  }

  /** String.prototype.trim: the longest infix of `s` that neither starts nor
      ends with whitespace. */
  function Trim(s: string): (r: string)
    ensures IsTrimmed(r)
    ensures forall c | c in r :: c in s
    ensures IsTrimmed(s) ==> r == s
  {
    TrimEnd(TrimStart(s))
  }

  /** Trimming removes only whitespace, and only at the two ends: the result
      sits in the input with nothing but whitespace before and after it. */
  lemma TrimIsInfix(s: string)
    ensures TrimmedAt(s, Trim(s), |s| - |TrimStart(s)|)
  {
    InfixOfSuffixPrefix(s, TrimStart(s), Trim(s));
  }

  /** A prefix `r` of a suffix `t` of `s`, where `s` has only whitespace before
      `t` and `t` only whitespace after `r`, is an infix with whitespace around. */
  lemma InfixOfSuffixPrefix(s: string, t: string, r: string)
    requires |t| <= |s| && t == s[|s| - |t|..] && |r| <= |t| && r == t[..|r|]
    requires forall k | 0 <= k < |s| - |t| :: IsWhitespace(s[k])
    requires forall k | |r| <= k < |t| :: IsWhitespace(t[k])
    ensures TrimmedAt(s, r, |s| - |t|)
  {
    var i := |s| - |t|;
    forall k | 0 <= k < |r| ensures r[k] == s[i + k] {
      assert r[k] == t[k];
    }
    forall k | i + |r| <= k < |s| ensures IsWhitespace(s[k]) {
      assert s[k] == t[k - i];
    }
  }

  /** Trimming is characterised by the infix property: any trimmed infix with
      only whitespace around it is the trimmed text. */
  lemma TrimUnique(s: string, r: string, i: int)
    requires TrimmedAt(s, r, i) && IsTrimmed(r)
    ensures r == Trim(s)
  {
    var q := Trim(s);
    var j := |s| - |TrimStart(s)|;
    TrimIsInfix(s);
    assert r != "" ==> s[i] == r[0] && s[i + |r| - 1] == r[|r| - 1];
    assert q != "" ==> s[j] == q[0] && s[j + |q| - 1] == q[|q| - 1];
    assert |r| == |q| && (r != "" ==> i == j);
  }

  lemma TrimIdempotent(s: string)
    ensures Trim(Trim(s)) == Trim(s)
  {
  }

  lemma {:induction false} TrimStartLeadingWhitespace(ws: string, s: string)
    requires forall k | 0 <= k < |ws| :: IsWhitespace(ws[k])
    ensures TrimStart(ws + s) == TrimStart(s)
  {
    if |ws| > 0 {
      var t := ws + s;
      assert IsWhitespace(ws[0]);
      assert t[0] == ws[0] && t[1..] == ws[1..] + s;
      assert TrimStart(t) == TrimStart(t[1..]);
      TrimStartLeadingWhitespace(ws[1..], s);
    } else {
      assert ws + s == s;
    }
  }

  /** Leading whitespace never survives trimming. */
  lemma TrimLeadingWhitespace(ws: string, s: string)
    requires forall k | 0 <= k < |ws| :: IsWhitespace(ws[k])
    ensures Trim(ws + s) == Trim(s)
  {
    TrimStartLeadingWhitespace(ws, s);
  }

  /** String.prototype.split with a one-character separator: the maximal
      separator-free pieces between separators, always at least one. */
  function Split(s: string, sep: char): (parts: seq<string>)
    ensures |parts| >= 1
    ensures forall p | p in parts :: sep !in p
    decreases |s|
  {
    if |s| == 0 then [""]
    else
      var rest := Split(s[1..], sep);
      if s[0] == sep then [""] + rest
      else [[s[0]] + rest[0]] + rest[1..]
  }

  /** Array.prototype.join with a one-character separator. */
  function Join(parts: seq<string>, sep: char): (s: string)
    ensures |parts| == 1 ==> s == parts[0]
  {
    if |parts| == 0 then ""
    else if |parts| == 1 then parts[0]
    else parts[0] + [sep] + Join(parts[1..], sep)
  }

  lemma {:induction false} SplitNoSeparator(s: string, sep: char)
    requires sep !in s
    ensures Split(s, sep) == [s]
    decreases |s|
  {
    if |s| > 0 {
      SplitNoSeparator(s[1..], sep);
      assert [s[0]] + s[1..] == s;
    }
  }

  /** Splitting distributes over a separator placed between two texts. */
  lemma {:induction false} SplitConcat(a: string, b: string, sep: char)
    ensures Split(a + [sep] + b, sep) == Split(a, sep) + Split(b, sep)
    decreases |a|
  {
    var s := a + [sep] + b;
    if |a| == 0 {
      assert s[1..] == b;
    } else {
      assert s[1..] == a[1..] + [sep] + b;
      SplitConcat(a[1..], b, sep);
    }
  }

  /** Joining then splitting gives the pieces back when no piece holds the separator. */
  lemma {:induction false} SplitJoin(parts: seq<string>, sep: char)
    requires |parts| >= 1
    requires forall p | p in parts :: sep !in p
    ensures Split(Join(parts, sep), sep) == parts
  {
    if |parts| == 1 {
      SplitNoSeparator(parts[0], sep);
    } else {
      SplitConcat(parts[0], Join(parts[1..], sep), sep);
      SplitNoSeparator(parts[0], sep);
      SplitJoin(parts[1..], sep);
    }
  }

  /** Splitting then joining gives the text back. */
  lemma {:induction false} JoinSplit(s: string, sep: char)
    ensures Join(Split(s, sep), sep) == s
    decreases |s|
  {
    if |s| > 0 {
      var rest := Split(s[1..], sep);
      JoinSplit(s[1..], sep);
      if s[0] == sep {
        assert Split(s, sep) == [""] + rest;
        assert ([""] + rest)[1..] == rest;
      } else {
        var parts := Split(s, sep);
        assert parts[1..] == rest[1..];
        if |rest| == 1 {
          assert s == [s[0]] + rest[0];
        } else {
          assert Join(rest, sep) == rest[0] + [sep] + Join(rest[1..], sep);
          assert s == [s[0]] + rest[0] + [sep] + Join(rest[1..], sep);
        }
      }
    }
  }

  /** The pieces of every text of `segs`, in order. */
  function SplitEach(segs: seq<string>, sep: char): seq<string>
  {
    if |segs| == 0 then [] else Split(segs[0], sep) + SplitEach(segs[1..], sep)
  }

  lemma {:induction false} SplitEachConcat(a: seq<string>, b: seq<string>, sep: char)
    ensures SplitEach(a + b, sep) == SplitEach(a, sep) + SplitEach(b, sep)
  {
    if |a| > 0 {
      assert (a + b)[0] == a[0];
      assert (a + b)[1..] == a[1..] + b;
      SplitEachConcat(a[1..], b, sep);
      calc {
        SplitEach(a + b, sep);
        Split(a[0], sep) + SplitEach(a[1..] + b, sep);
        Split(a[0], sep) + (SplitEach(a[1..], sep) + SplitEach(b, sep));
        (Split(a[0], sep) + SplitEach(a[1..], sep)) + SplitEach(b, sep);
      }
    } else {
      assert a + b == b;
    }
  }

  /** Splitting a join gives the pieces of every joined text, in order. */
  lemma {:induction false} SplitJoinEach(segs: seq<string>, sep: char)
    requires |segs| >= 1
    ensures Split(Join(segs, sep), sep) == SplitEach(segs, sep)
  {
    if |segs| == 1 {
      assert SplitEach(segs, sep) == Split(segs[0], sep) + SplitEach([], sep);
    } else {
      SplitConcat(segs[0], Join(segs[1..], sep), sep);
      SplitJoinEach(segs[1..], sep);
    }
  }

  /** A prefix glued to the first of several joined texts. */
  lemma {:induction false} PrefixJoin(p: string, items: seq<string>, sep: char)
    requires |items| >= 1
    ensures p + Join(items, sep) == Join([p + items[0]] + items[1..], sep)
  {
    var glued := [p + items[0]] + items[1..];
    if |items| > 1 {
      assert glued[1..] == items[1..];
    }
  }

  /** Each text trimmed (`map(line => line.trim())`). */
  function TrimEach(xs: seq<string>): (r: seq<string>)
    ensures |r| == |xs|
  {
    seq(|xs|, k requires 0 <= k < |xs| => Trim(xs[k]))
  }

  /** Trimming never brings in a character, in particular a separator. */
  lemma {:induction false} TrimEachKeepsOut(xs: seq<string>, sep: char)
    requires forall p | p in xs :: sep !in p
    ensures forall p | p in TrimEach(xs) :: sep !in p
  {
    if |xs| > 0 {
      assert xs[0] in xs;
      assert sep !in Trim(xs[0]);
      TrimEachKeepsOut(xs[1..], sep);
      assert TrimEach(xs) == [Trim(xs[0])] + TrimEach(xs[1..]);
    }
  }

  lemma {:induction false} TrimEachIdempotent(xs: seq<string>)
    ensures TrimEach(TrimEach(xs)) == TrimEach(xs)
  {
    forall k | 0 <= k < |xs| ensures Trim(Trim(xs[k])) == Trim(xs[k]) {
      TrimIdempotent(xs[k]);
    }
  }

  lemma TrimEachCons(x: string, rest: seq<string>)
    ensures TrimEach([x] + rest) == [Trim(x)] + TrimEach(rest)
  {
    TrimEachConcat([x], rest);
    assert TrimEach([x]) == [Trim(x)];
  }

  lemma TrimEachConcat(a: seq<string>, b: seq<string>)
    ensures TrimEach(a + b) == TrimEach(a) + TrimEach(b)
  {
  }

  function Min(a: int, b: int): int { if a <= b then a else b }
  function Max(a: int, b: int): int { if a >= b then a else b }

  /** Array.prototype.slice(0, end): a negative end counts back from the end. */
  function SlicePrefix<T>(xs: seq<T>, end: int): (r: seq<T>)
    ensures |r| <= |xs| && r == xs[..|r|]
    ensures end >= 0 ==> |r| == Min(end, |xs|)
    ensures end < 0 ==> |r| == Max(|xs| + end, 0)
  {
    if end >= 0 then xs[..Min(end, |xs|)] else xs[..Max(|xs| + end, 0)]
  }

  /** Array.prototype.slice(start): a negative start counts back from the end. */
  function SliceFrom<T>(xs: seq<T>, start: int): (r: seq<T>)
    ensures |r| <= |xs| && r == xs[|xs| - |r|..]
    ensures start >= 0 ==> |r| == Max(|xs| - start, 0)
    ensures start < 0 ==> |r| == Min(-start, |xs|)
  {
    if start >= 0 then xs[Min(start, |xs|)..] else xs[Max(|xs| + start, 0)..]
  }

  predicate IsDigit(c: char) { '0' <= c <= '9' }

  function DigitChar(d: nat): (c: char)
    requires d < 10
    ensures IsDigit(c)
  {
    ('0' as int + d) as char
  }

  /** Decimal rendering of a natural number, as Number.prototype.toString gives it. */
  function NatToString(n: nat): (s: string)
    ensures |s| >= 1
    ensures forall c | c in s :: IsDigit(c)
  {
    if n < 10 then [DigitChar(n)] else NatToString(n / 10) + [DigitChar(n % 10)]
  }

  /** Decimal rendering of an integer, with a leading '-' when negative. */
  function IntToString(i: int): (s: string)
    ensures |s| >= 1
    ensures forall c | c in s :: IsDigit(c) || c == '-'
  {
    if i < 0 then "-" + NatToString(-i) else NatToString(i)
  }

  /** The value of a decimal digit. */
  function DigitValue(c: char): (d: nat)
    requires IsDigit(c)
    ensures d < 10
  {
    c as int - '0' as int
  }

  /** The number a non-empty run of decimal digits denotes. */
  function ParseDecimal(s: string): nat
    requires |s| >= 1 && forall c | c in s :: IsDigit(c)
  {
    if |s| == 1 then DigitValue(s[0])
    else
      assert forall c | c in s[..|s| - 1] :: c in s;
      ParseDecimal(s[..|s| - 1]) * 10 + DigitValue(s[|s| - 1])
  }

  /** Reading back the decimal rendering gives the number: the rendering is one-to-one. */
  lemma {:induction false} ParseNatToString(n: nat)
    ensures ParseDecimal(NatToString(n)) == n
  {
    if n >= 10 {
      ParseNatToString(n / 10);
      var s := NatToString(n / 10);
      assert (s + [DigitChar(n % 10)])[..|s|] == s;
    }
  }

  /** Different numbers render differently. */
  lemma NatToStringInjective(a: nat, b: nat)
    requires NatToString(a) == NatToString(b)
    ensures a == b
  {
    ParseNatToString(a);
    ParseNatToString(b);
  }
}
