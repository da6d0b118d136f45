/** Blog image selection (frontend/lib/utils/image.ts). */
module ImageUrl {
  import opened Wrappers
  import opened Text

  /** `ensureHttps(url)`: an `http://` URL is rewritten to `https://`, anything else is kept. */
  function EnsureHttps(url: string): (r: string)
    ensures StartsWith(url, "http://") ==> r == "https://" + url[7..]
    ensures !StartsWith(url, "http://") ==> r == url
    ensures !StartsWith(r, "http://")
    ensures !IsBlank(url) ==> !IsBlank(r)
  {
    // url.replace('http://', 'https://') replaces the first occurrence, which is the prefix here
    if StartsWith(url, "http://") then
      var r := "https://" + url[7..];
      assert r[4] == 's' && !IsWhitespace(r[0]);
      r
    else url
  }

  lemma EnsureHttpsIdempotent(url: string)
    ensures EnsureHttps(EnsureHttps(url)) == EnsureHttps(url)
  {
  }

  /** `url && url.trim().length > 0`. */
  predicate Usable(url: Option<string>) {
    url.Some? && |Trim(url.value)| > 0
  }

  /**
   * `getBlogImageUrl(thumbnailUrl, profileImageUrl)`: the blog thumbnail when it is usable,
   * otherwise the (Kakao) profile image when that is, otherwise null; the chosen URL is upgraded
   * to https.
   */
  function GetBlogImageUrl(thumbnailUrl: Option<string>, profileImageUrl: Option<string>): (r: Option<string>)
    ensures thumbnailUrl.Some? && !IsBlank(thumbnailUrl.value) ==> r == Some(EnsureHttps(thumbnailUrl.value))
    ensures (thumbnailUrl.None? || IsBlank(thumbnailUrl.value)) && profileImageUrl.Some? && !IsBlank(profileImageUrl.value) ==>
      r == Some(EnsureHttps(profileImageUrl.value))
    ensures (thumbnailUrl.None? || IsBlank(thumbnailUrl.value)) && (profileImageUrl.None? || IsBlank(profileImageUrl.value)) ==>
      r.None?
    ensures r.Some? ==> !IsBlank(r.value) && !StartsWith(r.value, "http://")
  {
    if Usable(thumbnailUrl) then Some(EnsureHttps(thumbnailUrl.value))
    else if Usable(profileImageUrl) then Some(EnsureHttps(profileImageUrl.value))
    else None
  }
}
