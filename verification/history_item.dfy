/** One entry of the history list, src/components/HistoryItem.tsx: the text
    truncation and bullet preview it displays, and its "Copy All" button. */
module HistoryItemView {
  import opened ApiTypes
  import opened JsStrings

  /** The default `maxLength` of `truncateText`. */
  const DEFAULT_MAX_LENGTH: int := 100
  /** The `maxLength` the bullet preview passes. */
  const BULLET_PREVIEW_LENGTH: int := 80
  /** How many bullets the preview shows. */
  const PREVIEW_COUNT: int := 2

  /** truncateText: a text longer than `maxLength` is cut to its first
      `maxLength` characters (none for a negative bound, as `substring` clamps)
      followed by "...". */
  function TruncateText(text: string, maxLength: int): (r: string)
    ensures |text| <= maxLength ==> r == text
    ensures |text| > maxLength ==> |r| == Max(maxLength, 0) + 3
    ensures |text| > maxLength ==> r[..|r| - 3] == text[..Max(maxLength, 0)] && r[|r| - 3..] == "..."
  {
    if |text| > maxLength then text[..Max(maxLength, 0)] + "..." else text
  }

  /** The job description and the work experience as the entry shows them,
      each cut at the default bound of a hundred characters. Each fits in the
      bound plus the ellipsis, begins like its field, and is the field itself
      when that is short enough. */
  function DetailPreview(parameters: ResumeBulletPointParameters): (r: (string, string))
    ensures |r.0| <= DEFAULT_MAX_LENGTH + 3 && |r.1| <= DEFAULT_MAX_LENGTH + 3
    ensures r.0[..Min(|r.0|, DEFAULT_MAX_LENGTH)] <= parameters.jobDescription
    ensures r.1[..Min(|r.1|, DEFAULT_MAX_LENGTH)] <= parameters.workExperience
    ensures |parameters.jobDescription| <= DEFAULT_MAX_LENGTH ==> r.0 == parameters.jobDescription
    ensures |parameters.workExperience| <= DEFAULT_MAX_LENGTH ==> r.1 == parameters.workExperience
  {
    TruncateBound(parameters.jobDescription, DEFAULT_MAX_LENGTH);
    TruncateBound(parameters.workExperience, DEFAULT_MAX_LENGTH);
    (TruncateText(parameters.jobDescription, DEFAULT_MAX_LENGTH),
     TruncateText(parameters.workExperience, DEFAULT_MAX_LENGTH))
  }

  /** The previewed bullets: the first two, each cut to eighty characters. */
  function Preview(bullets: seq<string>): (r: seq<string>)
    ensures |r| == Min(|bullets|, PREVIEW_COUNT)
    ensures forall k | 0 <= k < |r| :: r[k] == TruncateText(bullets[k], BULLET_PREVIEW_LENGTH)
  {
    var shown := SlicePrefix(bullets, PREVIEW_COUNT);
    seq(|shown|, k requires 0 <= k < |shown| => TruncateText(shown[k], BULLET_PREVIEW_LENGTH))
  }

  /** The N of the "+N more..." line, shown only beyond two bullets. */
  function MoreCount(bullets: seq<string>): (n: Option<int>)
    ensures n.Some? <==> |bullets| > PREVIEW_COUNT
    ensures n.Some? ==> n.value > 0
  {
    if |bullets| > PREVIEW_COUNT then Some(|bullets| - PREVIEW_COUNT) else None
  }

  /** Every truncated text fits in its bound plus the ellipsis and begins like the
      original. A text longer than the bound comes back unchanged only when it
      is already its own truncation: the bound's worth of characters and "...". */
  lemma TruncateBound(text: string, maxLength: int)
    requires maxLength >= 0
    ensures var r := TruncateText(text, maxLength);
      |r| <= maxLength + 3 && r[..Min(|r|, maxLength)] == text[..Min(|r|, maxLength)]
    ensures TruncateText(text, maxLength) == text <==>
      |text| <= maxLength || (|text| == maxLength + 3 && text[maxLength..] == "...")
  {
    if |text| > maxLength {
      var r := text[..maxLength] + "...";
      assert r[..maxLength] == text[..maxLength];
      if |text| == maxLength + 3 && text[maxLength..] == "..." {
        assert text == text[..maxLength] + text[maxLength..];
      }
      if r == text {
        assert text[maxLength..] == r[maxLength..];
      }
    }
  }

  /** The preview and the "+N more" line together account for every bullet. */
  lemma PreviewAccountsForAll(bullets: seq<string>)
    ensures |Preview(bullets)| + MoreCount(bullets).GetOr(0) == |bullets|
  {
  }

  /** The component's `copying` flag. */
  class HistoryItem {
    var copying: bool

    constructor()
      ensures !copying
    {
      copying := false;
    }

    /** copyAllBulletPoints. While a copy is shown as under way nothing happens;
        otherwise the bullets joined by '\n' are written to the clipboard, which
        is `Some` of that text. `clipboardFails` is the rejection of
        `navigator.clipboard.writeText`, after which the flag is reset at once. */
    method CopyAllBulletPoints(run: RunHistory, clipboardFails: bool) returns (written: Option<string>)
      modifies this
      ensures old(copying) ==> written.None? && copying
      ensures !old(copying) && !clipboardFails ==>
        written == Some(Join(run.response.bulletPoints, '\n')) && copying
      ensures !old(copying) && clipboardFails ==> written.None? && !copying
    {
      if copying {
        return None;
      }
      copying := true;
      var allBulletPoints := Join(run.response.bulletPoints, '\n');
      if clipboardFails {
        copying := false;
        written := None;
      } else {
        written := Some(allBulletPoints);
      }
    }

    /** The `setTimeout` callback a second after a successful copy. */
    method CopyFeedbackEnded()
      modifies this
      ensures !copying
    {
      copying := false;
    }
  }
}
