/**
 * The client store of the signed-in user's blogs and the blog currently selected
 * (frontend/lib/store/useBlogStore.ts). The selection survives reloads through the
 * browser's localStorage, modelled as a map that the store reads and writes.
 */
module BlogStore {
  import opened Wrappers

  const SelectedBlogKey := "snuggle_selected_blog_id"

  /** A row of the `blogs` query. */
  datatype BlogRow = BlogRow(id: string, name: string, description: Option<string>,
                             thumbnailUrl: Option<string>, userId: Option<string>)

  /** A blog as the store holds it; `totalViewCount` is None until the stats are added. */
  datatype Blog = Blog(id: string, name: string, description: Option<string>,
                       thumbnailUrl: Option<string>, userId: Option<string>,
                       totalViewCount: Option<int>)

  /** How the `blogs` query ended: an error object, a thrown exception, or rows (possibly null). */
  datatype FetchResult = QueryFailed | Threw | Fetched(data: Option<seq<BlogRow>>)

  /** The `view_count` column of one blog's posts, as the `posts` query returned it (None for null data). */
  type PostViews = Option<seq<Option<int>>>

  /** `post.view_count || 0`. */
  function ViewCount(v: Option<int>): int {
    if v.Some? then v.value else 0
  }

  /** `posts.reduce((sum, post) => sum + (post.view_count || 0), 0)`, a left fold. */
  function SumViews(views: seq<Option<int>>): (total: int)
    ensures (forall i :: 0 <= i < |views| ==> ViewCount(views[i]) >= 0) ==> total >= 0
  {
    if views == [] then 0 else SumViews(views[..|views| - 1]) + ViewCount(views[|views| - 1])
  }

  /** The fold splits over concatenation, so it is the plain sum whatever the order of additions. */
  lemma {:induction false} SumViewsAppend(a: seq<Option<int>>, b: seq<Option<int>>)
    ensures SumViews(a + b) == SumViews(a) + SumViews(b)
    decreases |b|
  {
    if b == [] {
      assert a + b == a;
    } else {
      assert (a + b)[..|a + b| - 1] == a + b[..|b| - 1];
      SumViewsAppend(a, b[..|b| - 1]);
    }
  }

  /** Null posts count as 0 and a null view count adds nothing. */
  function TotalViewCount(posts: PostViews): (total: int)
    ensures posts.None? ==> total == 0
    ensures posts.Some? ==> total == SumViews(posts.value)
  {
    if posts.Some? then SumViews(posts.value) else 0
  }

  /** Adding one more post changes the total by that post's count. */
  lemma TotalViewCountAddsPost(views: seq<Option<int>>, v: Option<int>)
    ensures TotalViewCount(Some(views + [v])) == TotalViewCount(Some(views)) + ViewCount(v)
  {
    assert (views + [v])[..|views|] == views;
  }

  /** `{ ...blog, total_view_count }`. */
  function WithTotal(row: BlogRow, total: int): (b: Blog)
    ensures b.id == row.id && b.name == row.name && b.description == row.description
    ensures b.thumbnailUrl == row.thumbnailUrl && b.userId == row.userId
    ensures b.totalViewCount == Some(total)
  {
    Blog(row.id, row.name, row.description, row.thumbnailUrl, row.userId, Some(total))
  }

  /** `blogsWithStats`: every row, in order, with the total of its own posts' views. */
  function WithStats(rows: seq<BlogRow>, viewsOf: string -> PostViews): (blogs: seq<Blog>)
    ensures |blogs| == |rows|
    ensures forall i :: 0 <= i < |rows| ==> blogs[i] == WithTotal(rows[i], TotalViewCount(viewsOf(rows[i].id)))
  {
    seq(|rows|, i requires 0 <= i < |rows| => WithTotal(rows[i], TotalViewCount(viewsOf(rows[i].id))))
  }

  /** `blogs.find(b => b.id === id)`, as the index of the first match. */
  function FindById(blogs: seq<Blog>, id: string): (r: Option<nat>)
    ensures r.Some? ==> r.value < |blogs| && blogs[r.value].id == id
    ensures r.Some? ==> forall j :: 0 <= j < r.value ==> blogs[j].id != id
    ensures r.None? <==> forall j :: 0 <= j < |blogs| ==> blogs[j].id != id
  {
    if blogs == [] then None
    else if blogs[0].id == id then Some(0)
    else
      var rest := FindById(blogs[1..], id);
      if rest.Some? then Some(rest.value + 1) else None
  }

  /** `savedBlog || blogsWithStats[0]`; `saved` is None when nothing is stored. */
  function PickSelected(blogs: seq<Blog>, saved: Option<string>): (b: Blog)
    requires |blogs| > 0
    ensures b in blogs
    ensures saved.Some? && FindById(blogs, saved.value).Some? ==> b == blogs[FindById(blogs, saved.value).value] && b.id == saved.value
    ensures saved.None? || FindById(blogs, saved.value).None? ==> b == blogs[0]
  {
    if saved.Some? && FindById(blogs, saved.value).Some? then blogs[FindById(blogs, saved.value).value] else blogs[0]
  }

  /** Every field of the store, together with the localStorage it uses. */
  datatype StoreState = StoreState(blogs: seq<Blog>, selectedBlog: Option<Blog>, isLoading: bool,
                                   hasFetched: bool, storage: map<string, string>)

  /** The selection always points into the list once a fetch has settled. */
  predicate SelectionValid(s: StoreState) {
    s.selectedBlog.Some? ==> s.selectedBlog.value in s.blogs
  }

  /** A fresh store over whatever localStorage already holds. */
  function Initial(storage: map<string, string>): (s: StoreState)
    ensures s.blogs == [] && s.selectedBlog.None? && !s.isLoading && !s.hasFetched && s.storage == storage
  {
    StoreState([], None, false, false, storage)
  }

  /** `selectBlog`: select the blog, and remember its id when running in a browser. */
  function Select(s: StoreState, inBrowser: bool, blog: Blog): (r: StoreState)
    ensures r.selectedBlog == Some(blog)
    ensures r.blogs == s.blogs && r.isLoading == s.isLoading && r.hasFetched == s.hasFetched
    ensures inBrowser ==> SelectedBlogKey in r.storage && r.storage[SelectedBlogKey] == blog.id
    ensures !inBrowser ==> r.storage == s.storage
    ensures forall k :: k in s.storage && k != SelectedBlogKey ==> k in r.storage && r.storage[k] == s.storage[k]
    ensures forall k :: k in r.storage ==> k in s.storage || k == SelectedBlogKey
  {
    s.(selectedBlog := Some(blog), storage := if inBrowser then s.storage[SelectedBlogKey := blog.id] else s.storage)
  }

  /** The id remembered by an earlier `selectBlog`; None outside a browser. */
  function SavedBlogId(storage: map<string, string>, inBrowser: bool): Option<string> {
    if inBrowser && SelectedBlogKey in storage then Some(storage[SelectedBlogKey]) else None
  }

  /** The state a failed, empty or throwing fetch ends in. */
  function Failed(s: StoreState): StoreState {
    s.(blogs := [], selectedBlog := None, isLoading := false, hasFetched := true)
  }

  /**
   * `fetchBlogs`, from the state before it starts to the state after it settles. Every outcome
   * ends loaded and fetched, storage untouched, with a selection that belongs to the list; a
   * non-empty result selects the remembered blog when it is in the list, else the first one.
   */
  function Fetch(s: StoreState, inBrowser: bool, result: FetchResult, viewsOf: string -> PostViews): (r: StoreState)
    ensures !r.isLoading && r.hasFetched && r.storage == s.storage
    ensures SelectionValid(r)
    ensures r.selectedBlog.None? <==> r.blogs == []
    ensures result.Fetched? && result.data.Some? ==> r.blogs == WithStats(result.data.value, viewsOf)
    ensures !(result.Fetched? && result.data.Some?) ==> r.blogs == []
    ensures r.blogs != [] ==> r.selectedBlog == Some(PickSelected(r.blogs, SavedBlogId(s.storage, inBrowser)))
  {
    match result
    case QueryFailed => Failed(s)
    case Threw => Failed(s)
    case Fetched(data) =>
      if data.None? || |data.value| == 0 then Failed(s)
      else
        var blogs := WithStats(data.value, viewsOf);
        s.(blogs := blogs, selectedBlog := Some(PickSelected(blogs, SavedBlogId(s.storage, inBrowser))),
           isLoading := false, hasFetched := true)
  }

  /** `clear`: back to the initial state, and the remembered id forgotten in a browser. */
  function Cleared(s: StoreState, inBrowser: bool): (r: StoreState)
    ensures r == Initial(if inBrowser then s.storage - {SelectedBlogKey} else s.storage)
    ensures inBrowser ==> SelectedBlogKey !in r.storage
  {
    Initial(if inBrowser then s.storage - {SelectedBlogKey} else s.storage)
  }

  /** A blog selected in a browser is selected again by the next fetch that lists its id. */
  lemma SelectThenFetchReselects(s: StoreState, blog: Blog, rows: seq<BlogRow>, viewsOf: string -> PostViews)
    requires exists i :: 0 <= i < |rows| && rows[i].id == blog.id
    ensures var r := Fetch(Select(s, true, blog), true, Fetched(Some(rows)), viewsOf);
      r.selectedBlog.Some? && r.selectedBlog.value.id == blog.id && r.selectedBlog.value in r.blogs
  {
    var blogs := WithStats(rows, viewsOf);
    var i :| 0 <= i < |rows| && rows[i].id == blog.id;
    assert blogs[i].id == blog.id;
    assert FindById(blogs, blog.id).Some?;
  }

  /** Outside a browser nothing is remembered, so a fetch selects the first blog. */
  lemma FetchOutsideBrowserSelectsFirst(s: StoreState, rows: seq<BlogRow>, viewsOf: string -> PostViews)
    requires |rows| > 0
    ensures Fetch(s, false, Fetched(Some(rows)), viewsOf).selectedBlog == Some(WithStats(rows, viewsOf)[0])
  {
  }

  /** Clearing forgets the selection for good: the next fetch selects the first blog. */
  lemma ClearThenFetchSelectsFirst(s: StoreState, rows: seq<BlogRow>, viewsOf: string -> PostViews)
    requires |rows| > 0
    ensures Fetch(Cleared(s, true), true, Fetched(Some(rows)), viewsOf).selectedBlog == Some(WithStats(rows, viewsOf)[0])
  {
  }

  /** The zustand store, with `set` calls as field updates. */
  class Store {
    /** `typeof window !== 'undefined'`. */
    const inBrowser: bool
    var blogs: seq<Blog>
    var selectedBlog: Option<Blog>
    var isLoading: bool
    var hasFetched: bool
    /** The page's localStorage. */
    var storage: map<string, string>

    function State(): StoreState
      reads this
    {
      StoreState(blogs, selectedBlog, isLoading, hasFetched, storage)
    }

    constructor (inBrowser: bool, storage: map<string, string>)
      ensures this.inBrowser == inBrowser
      ensures State() == Initial(storage)
    {
      this.inBrowser := inBrowser;
      blogs := [];
      selectedBlog := None;
      isLoading := false;
      hasFetched := false;
      this.storage := storage;
    }

    method SetBlogs(newBlogs: seq<Blog>)
      modifies this
      ensures State() == old(State()).(blogs := newBlogs)
    {
      blogs := newBlogs;
    }

    method SetSelectedBlog(blog: Option<Blog>)
      modifies this
      ensures State() == old(State()).(selectedBlog := blog)
    {
      selectedBlog := blog;
    }

    method SelectBlog(blog: Blog)
      modifies this
      ensures State() == Select(old(State()), inBrowser, blog)
    {
      selectedBlog := Some(blog);
      if inBrowser {
        storage := storage[SelectedBlogKey := blog.id];
      }
    }

    method SetLoading(loading: bool)
      modifies this
      ensures State() == old(State()).(isLoading := loading)
    {
      isLoading := loading;
    }

    /** The awaited queries' outcomes are the parameters `result` and `viewsOf`. */
    method FetchBlogs(result: FetchResult, viewsOf: string -> PostViews)
      modifies this
      ensures State() == Fetch(old(State()), inBrowser, result, viewsOf)
    {
      isLoading := true;
      if result.QueryFailed? || result.Threw? {
        blogs, selectedBlog, isLoading, hasFetched := [], None, false, true;
        return;
      }
      var data := result.data;
      if data.None? || |data.value| == 0 {
        blogs, selectedBlog, isLoading, hasFetched := [], None, false, true;
        return;
      }
      var blogsWithStats := WithStats(data.value, viewsOf);
      blogs := blogsWithStats;
      var savedBlogId: Option<string> := None;
      if inBrowser && SelectedBlogKey in storage {
        savedBlogId := Some(storage[SelectedBlogKey]);
      }
      var savedBlog := FindById(blogsWithStats, if savedBlogId.Some? then savedBlogId.value else "");
      var selected := if savedBlogId.Some? && savedBlog.Some? then blogsWithStats[savedBlog.value] else blogsWithStats[0];
      selectedBlog, isLoading, hasFetched := Some(selected), false, true;
    }

    method Clear()
      modifies this
      ensures State() == Cleared(old(State()), inBrowser)
    {
      blogs, selectedBlog, isLoading, hasFetched := [], None, false, false;
      if inBrowser {
        storage := storage - {SelectedBlogKey};
      }
    }
  }
}
