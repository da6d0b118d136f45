/** The post card of the feed (components/blog/PostCard.tsx): preview text and author fallbacks. */
module PostCard {
  import opened Wrappers
  import opened Text

  const PreviewLength: nat := 100
  const UnknownBlogName := "알 수 없음"

  datatype Profile = Profile(nickname: string, profileImageUrl: Option<string>)
  datatype BlogInfo = BlogInfo(name: string, profiles: Option<Profile>)
  datatype Post = Post(
    id: string, title: string, content: Option<string>, thumbnailUrl: Option<string>,
    createdAt: string, blogs: Option<BlogInfo>)

  /** `stripHtml(html)`: tags removed, newlines turned into spaces, then trimmed. */
  function StripHtml(html: string): (r: string)
    ensures r == Trim(ReplaceNewlines(StripTags(html)))
    ensures !HasTag(r) && '\n' !in r
    ensures r != [] ==> !IsWhitespace(r[0]) && !IsWhitespace(r[|r| - 1])
    ensures r == [] <==> IsBlank(ReplaceNewlines(StripTags(html)))
  {
    var flat := ReplaceNewlines(StripTags(html));
    StripTagsRemovesAllTags(html);
    ReplaceNewlinesHasNoTag(StripTags(html));
    TrimHasNoTag(flat);
    TrimKeepsNoNewline(flat);
    Trim(flat)
  }

  /** `preview`: `''` without content, otherwise the first 100 characters of the stripped content. */
  function Preview(post: Post): (r: string)
    ensures post.content.None? || post.content.value == "" ==> r == ""
    ensures post.content.Some? && post.content.value != "" ==>
      StartsWith(StripHtml(post.content.value), r) &&
      |r| == if |StripHtml(post.content.value)| < PreviewLength then |StripHtml(post.content.value)| else PreviewLength
    ensures |r| <= PreviewLength && '\n' !in r
  {
    if post.content.None? || post.content.value == "" then ""
    else
      var stripped := StripHtml(post.content.value);
      var r := Take(stripped, PreviewLength);
      assert forall i :: 0 <= i < |r| ==> r[i] == stripped[i];
      r
  }

  /** `post.blogs?.name || '알 수 없음'`. */
  function BlogName(post: Post): (r: string)
    ensures post.blogs.Some? && post.blogs.value.name != "" ==> r == post.blogs.value.name
    ensures post.blogs.None? || post.blogs.value.name == "" ==> r == UnknownBlogName
    ensures r != []
  {
    if post.blogs.Some? && post.blogs.value.name != "" then post.blogs.value.name else UnknownBlogName
  }

  /**
   * `post.blogs?.profiles?.nickname || blogName`. It is never empty, so the placeholder avatar's
   * `authorName.charAt(0)` is always a real character.
   */
  function AuthorName(post: Post): (r: string)
    ensures HasNickname(post) ==> r == post.blogs.value.profiles.value.nickname
    ensures !HasNickname(post) ==> r == BlogName(post)
    ensures r != []
  {
    if HasNickname(post) then post.blogs.value.profiles.value.nickname else BlogName(post)
  }

  predicate HasNickname(post: Post) {
    post.blogs.Some? && post.blogs.value.profiles.Some? && post.blogs.value.profiles.value.nickname != ""
  }

  /** `post.blogs?.profiles?.profile_image_url`, with absent and null both None. */
  function AuthorImage(post: Post): (r: Option<string>)
    ensures post.blogs.None? || post.blogs.value.profiles.None? ==> r.None?
    ensures post.blogs.Some? && post.blogs.value.profiles.Some? ==> r == post.blogs.value.profiles.value.profileImageUrl
  {
    match post.blogs
    case None => None
    case Some(b) => if b.profiles.Some? then b.profiles.value.profileImageUrl else None
  }
}
