/**
 * excerpt(): a plain-text preview of an HTML fragment. Strings are byte
 * strings here, one character per byte, as strlen and substr count them.
 */
module Excerpt {

  const DefaultLength := 200
  const DefaultEnding := "..."

  /**
   * substr(s, 0, length) in PHP 8: a non-negative length keeps at most that
   * many leading characters; a negative one drops that many from the end, and
   * leaves nothing once it reaches past the start.
   */
  function Substr(s: string, length: int): (r: string)
    ensures r <= s
    ensures length < |s| && s != [] ==> |r| < |s|
    ensures 0 <= length <= |s| ==> |r| == length
    ensures length < 0 ==> |r| == if |s| + length > 0 then |s| + length else 0
  {
    if length >= 0 then (if length <= |s| then s[..length] else s)
    else if |s| + length > 0 then s[..|s| + length]
    else ""
  }

  /**
   * excerpt(text, length, ending): stripTags stands for strip_tags, a library
   * function of which the model knows nothing.
   */
  function Excerpt(text: string, length: int, ending: string, stripTags: string -> string): (r: string)
    ensures var plain := stripTags(text);
            |plain| <= length ==> r == plain
    ensures var plain := stripTags(text);
            |plain| > length ==>
              && |r| >= |ending| && r[|r| - |ending|..] == ending
              && r[..|r| - |ending|] <= plain
              && (plain != [] ==> |r| - |ending| < |plain|)
    ensures var plain := stripTags(text);
            |plain| > length >= 0 ==> r[..|r| - |ending|] == plain[..length]
    ensures var plain := stripTags(text);
            0 > length && |plain| > length ==>
              r[..|r| - |ending|] == plain[..if |plain| + length > 0 then |plain| + length else 0]
  {
    var plain := stripTags(text);
    if |plain| <= length then plain
    else
      var kept := Substr(plain, length);
      assert (kept + ending)[..|kept|] == kept;
      kept + ending
  }

  /** With a non-negative length the excerpt never exceeds length plus the ending. */
  lemma ExcerptBounded(text: string, length: int, ending: string, stripTags: string -> string)
    requires length >= 0
    ensures |Excerpt(text, length, ending, stripTags)| <= length + |ending|
    ensures |stripTags(text)| > length ==> |Excerpt(text, length, ending, stripTags)| == length + |ending|
  {
  }

  /**
   * The template's call excerpt(contentHtml), with the default length 200 and
   * ending "...": at most 203 characters, and the text itself when it fits.
   */
  lemma DefaultExcerpt(text: string, stripTags: string -> string)
    ensures |Excerpt(text, DefaultLength, DefaultEnding, stripTags)| <= 203
    ensures |stripTags(text)| <= 200 ==> Excerpt(text, DefaultLength, DefaultEnding, stripTags) == stripTags(text)
    ensures |stripTags(text)| > 200 ==>
              Excerpt(text, DefaultLength, DefaultEnding, stripTags) == stripTags(text)[..200] + "..."
  {
    ExcerptBounded(text, DefaultLength, DefaultEnding, stripTags);
  }
}
