/** The excerpt under each post of a blog's post list (components/blog/BlogPostList.tsx). */
module BlogPostList {
  import opened Text

  const DefaultMaxLength: nat := 150
  const Ellipsis := "..."

  /** Tags removed and each newline turned into a space. */
  function PlainText(content: string): (r: string)
    ensures r == ReplaceNewlines(StripTags(content))
    ensures !HasTag(r) && '\n' !in r
  {
    StripTagsRemovesAllTags(content);
    ReplaceNewlinesHasNoTag(StripTags(content));
    ReplaceNewlines(StripTags(content))
  }

  /**
   * `getExcerpt(content, maxLength)`: the plain text when it fits, otherwise its first
   * `maxLength` characters followed by `...`.
   */
  function GetExcerpt(content: string, maxLength: nat): (r: string)
    ensures |PlainText(content)| <= maxLength ==> r == PlainText(content)
    ensures |PlainText(content)| > maxLength ==>
      |r| == maxLength + 3 && r == PlainText(content)[..maxLength] + Ellipsis
    ensures '\n' !in r && !HasTag(r)
  {
    var plain := PlainText(content);
    if |plain| <= maxLength then plain
    else
      InfixHasNoTag(plain, 0, maxLength);
      var r := plain[..maxLength] + Ellipsis;
      assert forall i :: maxLength <= i < |r| ==> r[i] == '.';
      r
  }

  /** `getExcerpt(content)`, with the default length. */
  function GetDefaultExcerpt(content: string): (r: string)
    ensures r == GetExcerpt(content, DefaultMaxLength)
    ensures |r| <= DefaultMaxLength + 3
  {
    GetExcerpt(content, DefaultMaxLength)
  }

  /** The excerpt is always a prefix of the plain text, possibly followed by `...`, and never longer than `maxLength + 3`. */
  lemma ExcerptIsPrefix(content: string, maxLength: nat)
    ensures var r := GetExcerpt(content, maxLength);
      (StartsWith(PlainText(content), r) && |r| <= maxLength) ||
      (|r| == maxLength + 3 && StartsWith(PlainText(content), r[..maxLength]) && r[maxLength..] == Ellipsis)
  {
    var r := GetExcerpt(content, maxLength);
    if |PlainText(content)| > maxLength {
      assert r[..maxLength] == PlainText(content)[..maxLength];
    }
  }
}
