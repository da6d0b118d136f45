/**
 * The search API (backend/src/routes/search.ts). Every Supabase query is an input: the model
 * covers what the four handlers decide before querying (blank and short queries, paging
 * parameters, ordering) and what they do with the rows they get back (like and comment
 * counting, joining profiles, shaping each result).
 */
module SearchRoute {
  import opened Wrappers
  import opened Text
  import opened Decimal

  const DefaultLimit := 20
  const DefaultOffset := 0
  /** `/suggest` answers only for trimmed queries at least this long. */
  const SuggestMinLength := 2

  /** A handler's answer: JSON with status 200, or an error status with `{ error }`. */
  datatype Reply<T> = Ok(body: T) | Failed(status: nat, error: string)

  /** What a Supabase `select` resolves to: `{ data }` (possibly null) or `{ error }`. */
  datatype QueryResult<T> = Rows(data: Option<seq<T>>) | QueryError(message: string)

  /** `(req.query.q as string) || ''`. */
  function QueryText(q: Option<string>): string {
    q.GetOr("")
  }

  /** `!query.trim()`: the query is empty or only whitespace. */
  predicate IsBlankQuery(q: Option<string>) {
    Trim(QueryText(q)) == ""
  }

  /** The `ilike` pattern: the trimmed query between `%` wildcards. */
  function SearchPattern(q: Option<string>): string {
    "%" + Trim(QueryText(q)) + "%"
  }

  /**
   * `parseInt(req.query.x as string) || fallback`. An absent parameter is `parseInt(undefined)`,
   * which reads the text "undefined"; `NaN` and `0` are both falsy.
   */
  function IntParam(text: Option<string>, fallback: int): int {
    match ParseInt(text.GetOr("undefined"))
    case None => fallback
    case Some(n) => if n == 0 then fallback else n
  }

  /** An absent parameter falls back. */
  lemma AbsentParamFallsBack(fallback: int)
    ensures IntParam(None, fallback) == fallback
  {
    assert "undefined"[0] == 'u';
    ParseIntNonNumeric("undefined");
  }

  /** A parameter written as a number is taken as written, except that 0 falls back. */
  lemma NumericParamIsRead(n: nat, fallback: int)
    ensures IntParam(Some(NatToString(n)), fallback) == if n == 0 then fallback else n
  {
    ParseIntOfNatToString(n);
  }

  /** A parameter that cannot start a number falls back. */
  lemma NonNumericParamFallsBack(text: string, fallback: int)
    requires NonNumeric(text)
    ensures IntParam(Some(text), fallback) == fallback
  {
    ParseIntNonNumeric(text);
  }

  /** An `order(column, { ascending })` clause. */
  datatype Order = Order(column: string, ascending: bool)

  /**
   * The ordering for `sort` (`req.query.sort || 'relevance'`): `latest` and `relevance` both
   * order by creation time, newest first, so `sort` does not change the order.
   */
  function PostsOrder(sort: Option<string>): (o: Order)
    ensures o == Order("created_at", false)
  {
    var s := if sort.Some? && sort.value != "" then sort.value else "relevance";
    if s == "latest" then Order("created_at", false)
    else Order("created_at", false)  // relevance: stands in for title-first ranking
  }

  /** The rows a search asks for: `pattern`, `order`, and `range(from, to)` (both ends included). */
  datatype PageQuery = PageQuery(pattern: string, order: Order, from: int, to: int)

  /** Rows the window `range(from, to)` spans. */
  function WindowSize(p: PageQuery): int {
    p.to - p.from + 1
  }

  /** The query `/posts` issues, or None when the query is blank and it answers `[]` at once. */
  function PostsRequest(q: Option<string>, limit: Option<string>, offset: Option<string>, sort: Option<string>): (r: Option<PageQuery>)
    ensures r.None? <==> IsBlankQuery(q)
    ensures r.Some? ==> r.value.from == IntParam(offset, DefaultOffset)
    ensures r.Some? ==> WindowSize(r.value) == IntParam(limit, DefaultLimit)
    ensures r.Some? ==> r.value.order == Order("created_at", false) && r.value.pattern == SearchPattern(q)
  {
    var lim := IntParam(limit, DefaultLimit);
    var off := IntParam(offset, DefaultOffset);
    if IsBlankQuery(q) then None
    else Some(PageQuery(SearchPattern(q), PostsOrder(sort), off, off + lim - 1))
  }

  /** The query `/blogs` issues, or None when the query is blank. */
  function BlogsRequest(q: Option<string>, limit: Option<string>, offset: Option<string>): (r: Option<PageQuery>)
    ensures r.None? <==> IsBlankQuery(q)
    ensures r.Some? ==> r.value.from == IntParam(offset, DefaultOffset)
    ensures r.Some? ==> WindowSize(r.value) == IntParam(limit, DefaultLimit)
    ensures r.Some? ==> r.value.order == Order("created_at", false) && r.value.pattern == SearchPattern(q)
  {
    var lim := IntParam(limit, DefaultLimit);
    var off := IntParam(offset, DefaultOffset);
    if IsBlankQuery(q) then None
    else Some(PageQuery(SearchPattern(q), Order("created_at", false), off, off + lim - 1))
  }

  /** With no paging parameters a search asks for the first 20 rows, `range(0, 19)`. */
  lemma DefaultWindow(q: Option<string>, sort: Option<string>)
    requires !IsBlankQuery(q)
    ensures PostsRequest(q, None, None, sort).value.from == 0 && PostsRequest(q, None, None, sort).value.to == 19
    ensures BlogsRequest(q, None, None).value.from == 0 && BlogsRequest(q, None, None).value.to == 19
  {
    AbsentParamFallsBack(DefaultLimit);
    AbsentParamFallsBack(DefaultOffset);
  }

  // ----- /count -----

  datatype Counts = Counts(postCount: int, blogCount: int)

  /** `/count`: zeros for a blank query, otherwise the two exact counts, a missing count read as 0. */
  function SearchCount(q: Option<string>, postsCount: Option<int>, blogsCount: Option<int>): (r: Counts)
    ensures IsBlankQuery(q) ==> r == Counts(0, 0)
    ensures !IsBlankQuery(q) ==> r == Counts(postsCount.GetOr(0), blogsCount.GetOr(0))
  {
    if IsBlankQuery(q) then Counts(0, 0)
    else Counts(postsCount.GetOr(0), blogsCount.GetOr(0))
  }

  // ----- /posts -----

  /** The joined blog of a post row: `blog:blogs ( id, name, thumbnail_url, user_id )`. */
  datatype BlogRef = BlogRef(id: string, name: string, thumbnailUrl: Option<string>, userId: Option<string>)

  datatype PostRow = PostRow(
    id: string, title: string, content: Option<string>, thumbnailUrl: Option<string>,
    createdAt: string, blogId: string, blog: Option<BlogRef>)

  datatype ProfileImageRow = ProfileImageRow(id: string, profileImageUrl: Option<string>)

  datatype BlogSummary = BlogSummary(id: string, name: string, thumbnailUrl: Option<string>, profileImageUrl: Option<string>)

  datatype PostResult = PostResult(
    id: string, title: string, content: Option<string>, thumbnailUrl: Option<string>,
    createdAt: string, blogId: string, likeCount: nat, commentCount: nat, blog: Option<BlogSummary>)

  /** `new Map(entries)`: later entries overwrite earlier ones with the same key. */
  function MapFromEntries<V>(entries: seq<(string, V)>): map<string, V> {
    if entries == [] then map[]
    else MapFromEntries(entries[..|entries| - 1])[entries[|entries| - 1].0 := entries[|entries| - 1].1]
  }

  /** The map holds exactly the keys that occur among the entries. */
  lemma {:induction false} MapFromEntriesKeys<V>(entries: seq<(string, V)>, k: string)
    ensures k in MapFromEntries(entries) <==> exists i :: 0 <= i < |entries| && entries[i].0 == k
  {
    if entries != [] {
      var init := entries[..|entries| - 1];
      MapFromEntriesKeys(init, k);
      if k in MapFromEntries(init) {
        var i :| 0 <= i < |init| && init[i].0 == k;
        assert entries[i].0 == k;
      }
      if exists i :: 0 <= i < |entries| && entries[i].0 == k {
        var i :| 0 <= i < |entries| && entries[i].0 == k;
        if i < |init| {
          assert init[i].0 == k;
        }
      }
    }
  }

  /** A key is bound to the value of its last entry. */
  lemma {:induction false} MapFromEntriesLastWins<V>(entries: seq<(string, V)>, i: nat)
    requires i < |entries| && IsLastWithKey(entries, i)
    ensures entries[i].0 in MapFromEntries(entries) && MapFromEntries(entries)[entries[i].0] == entries[i].1
  {
    var init := entries[..|entries| - 1];
    if i < |init| {
      assert init[i] == entries[i];
      assert IsLastWithKey(init, i);
      MapFromEntriesLastWins(init, i);
    }
  }

  /** No entry after entry `i` has its key. */
  predicate IsLastWithKey<V>(entries: seq<(string, V)>, i: nat)
    requires i < |entries|
  {
    forall j :: i < j < |entries| ==> entries[j].0 != entries[i].0
  }

  /** `Map.get(k)` as an optional value. */
  function Lookup<K, V>(m: map<K, V>, k: K): Option<V> {
    if k in m then Some(m[k]) else None
  }

  /** `profileMap`: user id to profile image URL. */
  function ProfileImages(rows: seq<ProfileImageRow>): map<string, Option<string>> {
    MapFromEntries(seq(|rows|, i requires 0 <= i < |rows| => (rows[i].id, rows[i].profileImageUrl)))
  }

  /** `map.get(postId) || 0`. */
  function CountOf(counts: map<string, nat>, postId: string): nat {
    if postId in counts then counts[postId] else 0
  }

  /**
   * The like (or comment) tally: one pass over the rows' `post_id`s, adding one to that post's
   * count each time.
   */
  method CountByPost(postIds: seq<string>) returns (counts: map<string, nat>)
    ensures forall id :: id in counts <==> id in postIds
    ensures forall id :: CountOf(counts, id) == multiset(postIds)[id]
  {
    counts := map[];
    var i := 0;
    while i < |postIds|
      invariant 0 <= i <= |postIds|
      invariant forall id :: id in counts <==> id in postIds[..i]
      invariant forall id :: CountOf(counts, id) == multiset(postIds[..i])[id]
    {
      var postId := postIds[i];
      assert postIds[..i + 1] == postIds[..i] + [postId];
      counts := counts[postId := CountOf(counts, postId) + 1];
      i := i + 1;
    }
    assert postIds[..i] == postIds;
  }

  /** `profileImageUrl || null`: an empty URL counts as none. */
  function NonEmpty(s: Option<string>): (r: Option<string>)
    ensures r.Some? <==> s.Some? && s.value != ""
    ensures r.Some? ==> r == s
  {
    if s.Some? && s.value != "" then s else None
  }

  /** The blog has a non-empty owner id with an entry in the profile image map. */
  predicate HasProfileImage(blog: BlogRef, profileImages: map<string, Option<string>>) {
    blog.userId.Some? && blog.userId.value != "" && blog.userId.value in profileImages
  }

  /** One element of the `/posts` answer, given the post's like and comment counts. */
  function TransformPost(post: PostRow, profileImages: map<string, Option<string>>, likeCount: nat, commentCount: nat): (r: PostResult)
    ensures r.id == post.id && r.title == post.title && r.content == post.content
    ensures r.thumbnailUrl == post.thumbnailUrl && r.createdAt == post.createdAt && r.blogId == post.blogId
    ensures r.likeCount == likeCount && r.commentCount == commentCount
    ensures r.blog.None? <==> post.blog.None?
    ensures r.blog.Some? ==>
      r.blog.value.id == post.blog.value.id && r.blog.value.name == post.blog.value.name &&
      r.blog.value.thumbnailUrl == post.blog.value.thumbnailUrl
    // no owner, or an owner without a profile (or with an empty URL): no image
    ensures r.blog.Some? && !HasProfileImage(post.blog.value, profileImages) ==>
      r.blog.value.profileImageUrl.None?
    // an owner with an entry gets that entry's image, an empty one read as none
    ensures r.blog.Some? && HasProfileImage(post.blog.value, profileImages) ==>
      r.blog.value.profileImageUrl == NonEmpty(profileImages[post.blog.value.userId.value])
    // an image, when there is one, is the owner's non-empty profile image
    ensures r.blog.Some? && r.blog.value.profileImageUrl.Some? ==>
      post.blog.value.userId.Some? && post.blog.value.userId.value in profileImages &&
      profileImages[post.blog.value.userId.value] == r.blog.value.profileImageUrl &&
      r.blog.value.profileImageUrl.value != ""
  {
    var profileImageUrl: Option<string> :=
      match post.blog
      case Some(b) =>
        if b.userId.Some? && b.userId.value != "" then Lookup(profileImages, b.userId.value).GetOr(None) else None
      case None => None;
    PostResult(
      post.id, post.title, post.content, post.thumbnailUrl, post.createdAt, post.blogId,
      likeCount, commentCount,
      match post.blog
      case Some(b) => Some(BlogSummary(b.id, b.name, b.thumbnailUrl, NonEmpty(profileImageUrl)))
      case None => None)
  }

  /**
   * `/posts` after its queries: `[]` for a blank query, status 500 when the post query failed,
   * otherwise one result per fetched post, in order, carrying its like and comment counts.
   */
  method SearchPosts(
    q: Option<string>, posts: QueryResult<PostRow>, profiles: Option<seq<ProfileImageRow>>,
    likes: Option<seq<string>>, comments: Option<seq<string>>)
    returns (reply: Reply<seq<PostResult>>)
    ensures IsBlankQuery(q) ==> reply == Ok([])
    ensures !IsBlankQuery(q) && posts.QueryError? ==> reply == Failed(500, posts.message)
    ensures !IsBlankQuery(q) && posts.Rows? ==>
      reply.Ok? && |reply.body| == |posts.data.GetOr([])|
    ensures !IsBlankQuery(q) && posts.Rows? ==>
      forall i :: 0 <= i < |reply.body| ==>
        reply.body[i] == TransformPost(posts.data.GetOr([])[i], ProfileImages(profiles.GetOr([])),
                                       multiset(likes.GetOr([]))[posts.data.GetOr([])[i].id],
                                       multiset(comments.GetOr([]))[posts.data.GetOr([])[i].id])
  {
    if IsBlankQuery(q) {
      return Ok([]);
    }
    if posts.QueryError? {
      return Failed(500, posts.message);
    }
    var rows := posts.data.GetOr([]);
    var profileMap := ProfileImages(profiles.GetOr([]));
    var likeCounts := CountByPost(likes.GetOr([]));
    var commentCounts := CountByPost(comments.GetOr([]));
    var result := seq(|rows|, i requires 0 <= i < |rows| =>
      TransformPost(rows[i], profileMap, CountOf(likeCounts, rows[i].id), CountOf(commentCounts, rows[i].id)));
    return Ok(result);
  }

  // ----- /blogs -----

  datatype BlogRow = BlogRow(
    id: string, name: string, description: Option<string>, thumbnailUrl: Option<string>,
    userId: string, createdAt: Option<string>)

  datatype Profile = Profile(id: string, nickname: Option<string>, profileImageUrl: Option<string>)

  /** `{ ...blog, profile }`. */
  datatype BlogWithProfile = BlogWithProfile(blog: BlogRow, profile: Option<Profile>)

  function ProfilesById(profiles: seq<Profile>): map<string, Profile> {
    MapFromEntries(seq(|profiles|, i requires 0 <= i < |profiles| => (profiles[i].id, profiles[i])))
  }

  /**
   * `/blogs` after its queries: `[]` for a blank query, status 500 when the blog query failed,
   * otherwise every blog unchanged and in order, with its owner's profile or null.
   */
  function SearchBlogs(q: Option<string>, blogs: QueryResult<BlogRow>, profiles: Option<seq<Profile>>): (r: Reply<seq<BlogWithProfile>>)
    ensures IsBlankQuery(q) ==> r == Ok([])
    ensures !IsBlankQuery(q) && blogs.QueryError? ==> r == Failed(500, blogs.message)
    ensures !IsBlankQuery(q) && blogs.Rows? ==> r.Ok? && |r.body| == |blogs.data.GetOr([])|
    ensures !IsBlankQuery(q) && blogs.Rows? ==> forall i :: 0 <= i < |r.body| ==>
      r.body[i].blog == blogs.data.GetOr([])[i] &&
      (r.body[i].profile.Some? <==> exists j :: 0 <= j < |profiles.GetOr([])| && profiles.GetOr([])[j].id == r.body[i].blog.userId) &&
      (r.body[i].profile.Some? ==> r.body[i].profile.value.id == r.body[i].blog.userId) &&
      (r.body[i].profile.Some? ==> IsLastProfileFor(profiles.GetOr([]), r.body[i].blog.userId, r.body[i].profile.value))
  {
    if IsBlankQuery(q) then Ok([])
    else if blogs.QueryError? then Failed(500, blogs.message)
    else
      var rows := blogs.data.GetOr([]);
      var byId := ProfilesById(profiles.GetOr([]));
      ProfilesByIdKeys(profiles.GetOr([]));
      Ok(seq(|rows|, i requires 0 <= i < |rows| => BlogWithProfile(rows[i], Lookup(byId, rows[i].userId))))
  }

  /** `p` is the last fetched profile whose id is `id`: the one `new Map` keeps for that key. */
  predicate IsLastProfileFor(ps: seq<Profile>, id: string, p: Profile) {
    exists j :: 0 <= j < |ps| && ps[j] == p && p.id == id && forall l :: j < l < |ps| ==> ps[l].id != id
  }

  /**
   * The profile map holds exactly the fetched ids, each bound to the last fetched profile with
   * that id.
   */
  lemma ProfilesByIdKeys(ps: seq<Profile>)
    ensures forall id :: id in ProfilesById(ps) <==> exists j :: 0 <= j < |ps| && ps[j].id == id
    ensures forall id :: id in ProfilesById(ps) ==> ProfilesById(ps)[id].id == id
    ensures forall id :: id in ProfilesById(ps) ==> ProfilesById(ps)[id] in ps
    ensures forall id :: id in ProfilesById(ps) ==> IsLastProfileFor(ps, id, ProfilesById(ps)[id])
  {
    var entries := seq(|ps|, i requires 0 <= i < |ps| => (ps[i].id, ps[i]));
    var byId := ProfilesById(ps);
    assert forall j :: 0 <= j < |ps| ==> entries[j].0 == ps[j].id;
    forall id ensures id in byId <==> exists j :: 0 <= j < |ps| && ps[j].id == id {
      MapFromEntriesKeys(entries, id);
    }
    forall id | id in byId ensures byId[id].id == id && byId[id] in ps && IsLastProfileFor(ps, id, byId[id]) {
      MapFromEntriesKeys(entries, id);
      var j :| 0 <= j < |entries| && entries[j].0 == id;
      var k := LastWithKey(entries, j);
      MapFromEntriesLastWins(entries, k);
      assert byId[id] == entries[k].1 == ps[k];
      assert forall l :: k < l < |ps| ==> ps[l].id == entries[l].0;
    }
  }

  /** The last entry with the same key as entry `j`, which is the one `new Map` keeps. */
  function LastWithKey<V>(entries: seq<(string, V)>, j: nat): (k: nat)
    requires j < |entries|
    ensures j <= k < |entries| && entries[k].0 == entries[j].0
    ensures IsLastWithKey(entries, k)
    decreases |entries| - j
  {
    if exists i :: j < i < |entries| && entries[i].0 == entries[j].0 then
      var i :| j < i < |entries| && entries[i].0 == entries[j].0;
      LastWithKey(entries, i)
    else j
  }

  // ----- /suggest -----

  datatype Suggestions<P, B, C> = Suggestions(posts: seq<P>, blogs: seq<B>, categories: seq<C>)

  /**
   * `/suggest` after its queries: three empty lists when the trimmed query is shorter than two
   * characters, otherwise the three fetched lists, a null list read as empty.
   */
  function Suggest<P, B, C>(q: Option<string>, posts: Option<seq<P>>, blogs: Option<seq<B>>, categories: Option<seq<C>>)
    : (r: Suggestions<P, B, C>)
    ensures |Trim(QueryText(q))| < SuggestMinLength ==> r == Suggestions([], [], [])
    ensures |Trim(QueryText(q))| >= SuggestMinLength ==> r == Suggestions(posts.GetOr([]), blogs.GetOr([]), categories.GetOr([]))
  {
    if IsBlankQuery(q) || |Trim(QueryText(q))| < SuggestMinLength then Suggestions([], [], [])
    else Suggestions(posts.GetOr([]), blogs.GetOr([]), categories.GetOr([]))
  }
}
