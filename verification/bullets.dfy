/** The response parse both adapters share (src/services/openai.ts and
    src/services/anthropic.ts): split the model's text into lines, trim them,
    drop the empty ones and keep the requested number. */
module BulletParse {
  import opened JsStrings

  /** `filter(line => line.length > 0)`. */
  function NonEmpty(lines: seq<string>): (r: seq<string>)
    ensures |r| <= |lines|
    ensures forall s | s in r :: s in lines && |s| > 0
  {
    if |lines| == 0 then []
    else if |lines[0]| > 0 then [lines[0]] + NonEmpty(lines[1..])
    else NonEmpty(lines[1..])
  }

  /** The filter keeps a line exactly when it is non-empty. */
  lemma {:induction false} NonEmptyMembers(lines: seq<string>, s: string)
    ensures s in NonEmpty(lines) <==> s in lines && |s| > 0
  {
    if |lines| > 0 {
      NonEmptyMembers(lines[1..], s);
      assert lines == [lines[0]] + lines[1..];
    }
  }

  /** The filter keeps the order of the lines it keeps. */
  lemma {:induction false} NonEmptyConcat(a: seq<string>, b: seq<string>)
    ensures NonEmpty(a + b) == NonEmpty(a) + NonEmpty(b)
  {
    if |a| > 0 {
      assert (a + b)[0] == a[0];
      assert (a + b)[1..] == a[1..] + b;
      NonEmptyConcat(a[1..], b);
    } else {
      assert a + b == b;
    }
  }

  /** Lines that are all non-empty pass the filter unchanged. */
  lemma {:induction false} NonEmptyKeepsAll(lines: seq<string>)
    requires forall k | 0 <= k < |lines| :: |lines[k]| > 0
    ensures NonEmpty(lines) == lines
  {
    if |lines| > 0 {
      NonEmptyKeepsAll(lines[1..]);
      assert [lines[0]] + lines[1..] == lines;
    }
  }

  /** The trimmed, non-empty lines of the model's text, in their order. */
  function ContentLines(content: string): seq<string> {
    NonEmpty(TrimEach(Split(content, '\n')))
  }

  /** A bullet as the parse produces it: non-empty, trimmed, on one line. */
  predicate IsBullet(b: string) {
    |b| > 0 && IsTrimmed(b) && '\n' !in b
  }

  /** Every trimmed, non-empty line is a bullet. */
  lemma ContentLinesAreBullets(content: string)
    ensures forall b | b in ContentLines(content) :: IsBullet(b)
  {
    var parts := Split(content, '\n');
    var trimmed := TrimEach(parts);
    forall b | b in ContentLines(content) ensures IsBullet(b) {
      NonEmptyMembers(trimmed, b);
      var k :| 0 <= k < |trimmed| && trimmed[k] == b;
      assert parts[k] in parts;
    }
  }

  /** The `split`/`map`/`filter`/`slice(0, count)` chain of both adapters. */
  function ParseBulletPoints(content: string, count: int): (bullets: seq<string>)
    ensures |bullets| <= |ContentLines(content)|
    ensures bullets == ContentLines(content)[..|bullets|]
    ensures count >= 0 ==> |bullets| == Min(count, |ContentLines(content)|)
    ensures count < 0 ==> |bullets| == Max(|ContentLines(content)| + count, 0)
    ensures forall b | b in bullets :: IsBullet(b)
  {
    ContentLinesAreBullets(content);
    SlicePrefix(ContentLines(content), count)
  }

  /** Trimmed texts are left as they are by trimming. */
  lemma TrimEachOfTrimmed(xs: seq<string>)
    requires forall k | 0 <= k < |xs| :: IsTrimmed(xs[k])
    ensures TrimEach(xs) == xs
  {
  }

  lemma ContentLinesOfEmpty()
    ensures ContentLines("") == []
  {
    assert Split("", '\n') == [""];
    assert TrimEach([""]) == [""];
  }

  /** The content lines of bullets joined with '\n' are those bullets. */
  lemma ContentLinesOfJoin(bullets: seq<string>)
    requires forall b | b in bullets :: IsBullet(b)
    ensures ContentLines(Join(bullets, '\n')) == bullets
  {
    if |bullets| == 0 {
      ContentLinesOfEmpty();
    } else {
      SplitJoin(bullets, '\n');
      assert forall k | 0 <= k < |bullets| :: IsBullet(bullets[k]);
      TrimEachOfTrimmed(bullets);
      NonEmptyKeepsAll(bullets);
    }
  }

  /** Parsing bullets joined with '\n' (as the history copy writes them) gives
      them back whenever the count asks for at least as many. */
  lemma ReparseJoined(bullets: seq<string>, count: int)
    requires forall b | b in bullets :: IsBullet(b)
    requires count >= |bullets|
    ensures ParseBulletPoints(Join(bullets, '\n'), count) == bullets
  {
    ContentLinesOfJoin(bullets);
  }

  /** For a non-negative count parsing is idempotent: the parsed bullets, joined
      and parsed again with the same count, are unchanged. (A negative count
      drops lines from the end, again on every parse.) */
  lemma ParseIdempotent(content: string, count: int)
    requires count >= 0
    ensures ParseBulletPoints(Join(ParseBulletPoints(content, count), '\n'), count) ==
      ParseBulletPoints(content, count)
  {
    ReparseJoined(ParseBulletPoints(content, count), count);
  }
}
