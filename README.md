# Snuggle visit counting, verified

Snuggle is a blogging platform. This project is a Dafny model of the parts of it that make
decisions:

- **Visit counting.** The backend counts blog visits. A visitor is known by the
  `snuggle_visitor_id` cookie, or by the client address when there is no such cookie.
  `trackVisitor` keeps one Redis log key per blog, visitor and day, with a 24-hour TTL. It raises
  the blog's pending counter (`visit:pending:<blog>`) only when that key was absent or empty. The
  middleware fires `trackVisitor` once the response has finished, and it always calls `next()`.
- **The visitor cookie.** The browser side reads the cookie with an anchored pattern. It writes
  a one-year cookie, with `SameSite=Lax` on localhost and `SameSite=None; Secure` elsewhere. It
  provisions a new id only when none exists.
- **Search.** The search API handles blank and short queries, parses `limit`/`offset` the
  JavaScript way, computes the row window, tallies likes and comments per post, and joins
  profiles.
- **Card text.** The front end strips tags and truncates text in three places, with different
  limits and suffixes. The search card buckets post ages into relative times.
- **Other logic.**
  - Image URLs prefer the thumbnail, fall back to the profile image, and are upgraded to https.
  - The blog-selection store remembers the chosen blog in localStorage.
  - The Redis client uses a reconnect backoff and chooses TLS for `rediss://` URLs.

Layout:

- `wrappers.dfy`: `Option`.
- `text.dfy`: JavaScript string built-ins, written as scanning functions. It covers `trim` with
  the exact ECMAScript white-space set, the tag-stripping `replace(/<[^>]*>/g, '')`, newline
  replacement, and the leftmost-match search and greedy `[^;]+` run that stand in for the cookie
  regular expressions.
- `decimal.dfy`: integer-to-text as a template literal writes it, and `parseInt` without a
  radix.
- One file per source file: `visit_tracking.dfy`, `visitor_middleware.dfy`,
  `visitor_cookie.dfy`, `image_url.dfy`, `redis_config.dfy`, `search_route.dfy`,
  `search_post_card.dfy`, `blog_post_list.dfy`, `post_card.dfy`, `blog_store.dfy`.
- `visitor_identity.dfy`: relates the browser's and the backend's readings of the cookie.

Where the source changes state step by step, the model does the same:

- The Redis instance is the class `VisitCache`. Its `logs` map holds entries with a value and a
  TTL, and its `pending` map holds counters. `TrackVisitor` performs `GET`, `SET … EX 86400` and
  `INCR` in order.
- The browser document is the class `Document`.
- The zustand store is the class `Store`.
- Each state-changing method is proved equal to a pure function of the old state: `Track`,
  `Select`, `Fetch` or `Cleared`. The properties are proved about those functions.
- The failure of any one cache call is a parameter, `Fault`, because `trackVisitor` catches
  every such failure.

The backend and the browser read the visitor cookie differently. The backend's
`snuggle_visitor_id=([^;]+)` has no anchor, while the browser's `(^| )snuggle_visitor_id=([^;]+)`
does. For the header `my_snuggle_visitor_id=a; snuggle_visitor_id=b`, the backend counts the
visitor as `a` and the browser believes it is `b`. See `BackendReadsSuffixedName` and
`BrowserReadsBoundaryName`. On a first visit, with no other cookies in the jar, the two agree (`ProvisionedIdReachesBackend`).

`formatDate` is modelled over the whole number of milliseconds between the two dates (the
difference of two `getTime()` values). The source divides that difference by 1000 and compares
the resulting seconds with 3600, 86400 and 604800. For a whole number of milliseconds, each of
those comparisons, and each `Math.floor` that follows, gives the same answer as the millisecond
comparisons and Euclidean divisions in the model. A model over whole seconds would have rounded
a sub-second age.

## Model

| member | source | states |
|---|---|---|
| Text.Trim | frontend/lib/utils/image.ts:20 | `trim()` is the infix left after dropping leading and trailing ECMAScript white space: everything cut off at either end is white space, the result is empty exactly when the text is all white space, and otherwise it starts and ends with a non-space |
| Text.ReplaceNewlines | components/blog/BlogPostList.tsx:39 | `replace(/\n/g, ' ')` keeps the length, turns each newline into a space, keeps every other character, and leaves no newline |
| Text.StripTagsRemovesAllTags | frontend/components/search/SearchPostCard.tsx:17 | after `replace(/<[^>]*>/g, '')` no `<` is followed later by a `>` |
| Text.StripTagsKeepsCharacters | frontend/components/search/SearchPostCard.tsx:17 | every character of the result occurs in the input (and the function's own contract bounds the result's length by the input's) |
| Text.StripTagsFixesTagFreeText | frontend/components/search/SearchPostCard.tsx:17 | text without a tag passes through tag stripping unchanged |
| Text.StripTagsIdempotent | frontend/components/search/SearchPostCard.tsx:17 | stripping tags twice is the same as stripping once |
| Text.StripTagsKeepsPlainPrefix | frontend/components/search/SearchPostCard.tsx:17 | text before the first `<` is kept character for character, in front of whatever the rest strips to |
| Text.StripTagsKeepsPlainText | frontend/components/search/SearchPostCard.tsx:17 | text with no `<` at all is returned unchanged |
| Text.StripTagsDropsTag | frontend/components/search/SearchPostCard.tsx:17 | a tag `<t>` with no `>` inside is removed whole, and the text before and after it is kept in order |
| Text.TagClosesAfterName | frontend/components/search/SearchPostCard.tsx:17 | a tag match `<[^>]*>` ends at the first `>` after the `<` |
| Text.FirstMatch | backend/src/utils/visitor.ts:37 | the regex search finds the leftmost position where the key is followed by a non-`;`, and reports none only when there is no such position anywhere |
| Text.ValueRun | backend/src/utils/visitor.ts:37 | the greedy `[^;]+` capture is a `;`-free infix that stops at a `;` or at the end of the text |
| Text.ValueRunOfSemicolonFree | frontend/components/common/VisitorIdProvider.tsx:14-15 | a `;`-free value followed by the end of text or by `;` is captured whole |
| Decimal.NatToString | frontend/components/search/SearchPostCard.tsx:29 | `${n}` gives at least one decimal digit with no leading zero |
| Decimal.ParseIntOfNatToString | backend/src/routes/search.ts:62 | `parseInt` reads back exactly the number a template literal wrote |
| Decimal.ParseIntNonNumeric | backend/src/routes/search.ts:62 | text that cannot start a number (including `undefined`) parses as NaN |
| VisitTracking.GetVisitorId | backend/src/utils/visitor.ts:35-41 | with a cookie header that matches, the id is the non-empty, `;`-free run after the leftmost `snuggle_visitor_id=`; with no header or no match it is `ip` unchanged; a non-empty ip gives a non-empty id |
| VisitTracking.VisitorIdFromCookie | backend/src/utils/visitor.ts:36-38 | a header that opens with `snuggle_visitor_id=<token>` followed by the end or `;` yields exactly that token |
| VisitTracking.Track | backend/src/utils/visitor.ts:12-30 | first visit of the day: the log key is stored with value `"1"` and TTL 86400 and the blog's counter grows by exactly 1; already visited: nothing changes; no other log key or other blog's counter changes; the counter only moves after the key is logged, and a failed `INCR` on a first visit leaves the key logged and the counters as they were, so a failure undercounts and never overcounts; a failed `GET`/`SET` leaves everything as it was; intact log entries stay intact |
| VisitTracking.PendingKeyInjective | backend/src/utils/visitor.ts:25 | two blogs share a pending counter only if they are the same blog |
| VisitTracking.PendingKeysDiffer | backend/src/utils/visitor.ts:25 | every other blog's counter key differs from this blog's |
| VisitTracking.LogAndPendingKeysDiffer | backend/src/utils/visitor.ts:4-5 | no log key is ever a pending-counter key |
| VisitTracking.LogKeyDiffersByDay | backend/src/utils/visitor.ts:14-15 | the same blog and visitor on another day give another log key |
| VisitTracking.LogKeyDiffersByVisitor | backend/src/utils/visitor.ts:15 | two visitors of one blog on one day have different log keys |
| VisitTracking.TrackTimesIdle | backend/src/utils/visitor.ts:18-20 | once the visitor is logged for the day, any number of further calls changes nothing |
| VisitTracking.RepeatedVisitsCountOnce | backend/src/utils/visitor.ts:18-26 | n ≥ 1 calls with the same blog, visitor and day raise the counter by exactly 1 in total (by 0 if already logged) |
| VisitTracking.NewDayCountsAgain | backend/src/utils/visitor.ts:14-26 | the same visitor on two different days is counted twice |
| VisitTracking.TwoVisitorsCountTwice | backend/src/utils/visitor.ts:15-26 | two different visitors on the same day are counted twice |
| VisitTracking.SequentialTrackIsClaim | backend/src/utils/visitor.ts:18-26 | on a cache of intact entries, one sequential get-then-set-then-incr equals an atomic `SET NX` claim followed by an incr when the claim succeeded |
| VisitTracking.VisitCache.Get | backend/src/utils/visitor.ts:18 | `GET` returns the stored value exactly when the key exists |
| VisitTracking.VisitCache.SetEx | backend/src/utils/visitor.ts:22 | `SET key value EX n` stores value and TTL under key and touches no counter |
| VisitTracking.VisitCache.Incr | backend/src/utils/visitor.ts:25 | `INCR` adds one to the counter (a missing counter counts as 0), returns the new value, and touches no log key |
| VisitTracking.VisitCache.TrackVisitor | backend/src/utils/visitor.ts:12-30 | the cache after the step-by-step get, set and incr is `Track` of the cache before |
| VisitorMiddleware.ClientIp | backend/src/middleware/visitor.ts:15 | the address is `x-forwarded-for` if non-empty, else the socket's remote address if non-empty, else `"unknown"`; never empty |
| VisitorMiddleware.OnFinish | backend/src/middleware/visitor.ts:11-24 | the finish callback asks for one tracking call exactly when `blogId` is truthy, with that blog id and the visitor id `getVisitorId(cookie, ip)`, which is never empty |
| VisitorMiddleware.AnonymousVisitorIsClientIp | backend/src/middleware/visitor.ts:15-16 | without a visitor cookie the tracked visitor is the client address, and `"unknown"` when both headers are missing |
| VisitorMiddleware.BlogVisitorMiddleware | backend/src/middleware/visitor.ts:9-27 | `next()` is called exactly once; tracking runs once when blogId is truthy and never otherwise; the cache ends as `Track` of the cache before, or unchanged; a failing cache call never escapes |
| VisitorCookie.GetCookie | frontend/components/common/VisitorIdProvider.tsx:12-16 | no document gives null; a result exists exactly when `name=` plus a value sits at the start of the cookie string or right after a space, and it is then the non-empty, `;`-free run after the leftmost such `name=` |
| VisitorCookie.SameSite | frontend/components/common/VisitorIdProvider.tsx:21-22 | `Lax` exactly when the hostname is `localhost`, otherwise `None; Secure` |
| VisitorCookie.GetCookieRoundTrip | frontend/components/common/VisitorIdProvider.tsx:14-15 | `name=v` followed by the end or `;` is read back as `v` for any non-empty, `;`-free `v` |
| VisitorCookie.SetCookieStringRoundTrip | frontend/components/common/VisitorIdProvider.tsx:18-24 | `getCookie`'s pattern, applied to the assignment string `setCookie` builds (`name=value; max-age=N; path=/; SameSite=S`), finds `value`: the value ends at the first `;` and the attributes do not leak into it |
| VisitorCookie.ProvisionedCookieIsFound | frontend/components/common/VisitorIdProvider.tsx:33-38 | once a visitor id has been stored, `getCookie` finds one, so the next provisioning writes nothing |
| VisitorCookie.Document.SetCookie | frontend/components/common/VisitorIdProvider.tsx:18-24 | one assignment of the `setCookie` string is recorded and the cookie jar gains `name=value` |
| VisitorCookie.Document.ProvisionVisitorId | frontend/components/common/VisitorIdProvider.tsx:31-39 | with a visitor cookie present nothing is written; without one exactly one cookie is written, with the new id and a max-age of 31536000 |
| VisitorIdentity.ProvisionedIdReachesBackend | backend/src/utils/visitor.ts:35-41 | on a first visit with no other cookies in the jar, the id the browser provisions is the id the backend counts |
| VisitorIdentity.BackendReadsSuffixedName | backend/src/utils/visitor.ts:37 | the unanchored backend pattern reads `a` from `my_snuggle_visitor_id=a; snuggle_visitor_id=b` |
| VisitorIdentity.NoEarlyBoundaryMatch | frontend/components/common/VisitorIdProvider.tsx:14 | in that header the anchored pattern has no match before the second cookie |
| VisitorIdentity.BrowserReadsBoundaryName | frontend/components/common/VisitorIdProvider.tsx:14-15 | the anchored browser pattern reads `b` from the same header, so the two ends disagree on the visitor |
| ImageUrl.EnsureHttps | frontend/lib/utils/image.ts:4-9 | an `http://` URL becomes `https://` plus the rest, and anything else is unchanged; the result never starts with `http://`; non-blank stays non-blank |
| ImageUrl.EnsureHttpsIdempotent | frontend/lib/utils/image.ts:4-9 | upgrading twice is the same as upgrading once |
| ImageUrl.GetBlogImageUrl | frontend/lib/utils/image.ts:15-28 | a non-blank thumbnail wins whatever the profile URL is; otherwise a non-blank profile URL; otherwise null; the result is never blank and never `http://` |
| RedisConfig.RetryStrategy | backend/src/config/redis.ts:13 | the delay is at most 2000 ms, exactly 50·t for t ≤ 40, and 2000 for t ≥ 40 |
| RedisConfig.RetryStrategyMonotonic | backend/src/config/redis.ts:13 | the delay never decreases as attempts accumulate |
| RedisConfig.CreateClientOptions | backend/src/config/redis.ts:10-20 | the URL connection is used exactly when `REDIS_URL` is truthy, and TLS is on exactly when it starts with `rediss://`; either way the retry strategy is `min(times * 50, 2000)` for every attempt count |
| RedisConfig.SameBackoffEverywhere | backend/src/config/redis.ts:13-19 | the URL and host configurations back off identically |
| SearchRoute.AbsentParamFallsBack | backend/src/routes/search.ts:62-63 | a missing `limit`/`offset` (`parseInt(undefined)`, NaN) takes its default |
| SearchRoute.NumericParamIsRead | backend/src/routes/search.ts:62-63 | a parameter written as a number is taken as written, except that 0 takes the default |
| SearchRoute.NonNumericParamFallsBack | backend/src/routes/search.ts:178-179 | a parameter that cannot start a number takes its default |
| SearchRoute.PostsOrder | backend/src/routes/search.ts:84-89 | both `sort` values order by `created_at` descending, so `sort` does not change the order |
| SearchRoute.PostsRequest | backend/src/routes/search.ts:59-91 | a blank query issues no query; otherwise the range starts at the parsed offset, spans exactly the parsed limit, uses the trimmed `%q%` pattern and newest-first order |
| SearchRoute.BlogsRequest | backend/src/routes/search.ts:175-193 | the same for `/blogs` |
| SearchRoute.DefaultWindow | backend/src/routes/search.ts:91 | with no paging parameters the window is `range(0, 19)` |
| SearchRoute.SearchCount | backend/src/routes/search.ts:24-51 | a blank query gives `{0, 0}`; otherwise the two counts, a missing count read as 0 |
| SearchRoute.MapFromEntriesKeys | backend/src/routes/search.ts:125-127 | `new Map(entries)` holds exactly the keys among the entries |
| SearchRoute.MapFromEntriesLastWins | backend/src/routes/search.ts:207-209 | a key is bound to the value of its last entry |
| SearchRoute.ProfilesByIdKeys | backend/src/routes/search.ts:207-209 | the profile map holds exactly the fetched ids, each bound to the last fetched profile with that id |
| SearchRoute.CountByPost | backend/src/routes/search.ts:130-141 | after the loop each post id's count is the number of rows carrying it, 0 for ids with none, and the map's keys are exactly the ids seen |
| SearchRoute.NonEmpty | backend/src/routes/search.ts:162 | the `or null` fallback keeps a non-empty URL and turns an empty or missing one into null |
| SearchRoute.TransformPost | backend/src/routes/search.ts:144-165 | a result keeps every post field and carries the given counts; `blog` is null exactly when the post's blog is; the profile image is null without an owner id or a matching entry, and otherwise the owner's entry with an empty URL read as null |
| SearchRoute.SearchPosts | backend/src/routes/search.ts:59-167 | a blank query answers `[]`; a failed query answers 500 with its message; otherwise one result per fetched post, in order, whose like and comment counts are the number of like and comment rows for that post |
| SearchRoute.SearchBlogs | backend/src/routes/search.ts:175-216 | a blank query answers `[]`; a failed query answers 500; otherwise every blog unchanged and in order, with a profile exactly when a fetched profile has its owner's id, and then the last fetched profile with that id |
| SearchRoute.Suggest | backend/src/routes/search.ts:224-263 | a trimmed query shorter than 2 gives three empty lists; otherwise the three fetched lists, null read as empty |
| SearchPostCard.StripHtml | frontend/components/search/SearchPostCard.tsx:15-18 | null or empty content gives `''`; otherwise tags are stripped and the text trimmed, so no tag remains and there is no white space at either end |
| SearchPostCard.Excerpt | frontend/components/search/SearchPostCard.tsx:20 | the excerpt is the first min(150, length) characters of the stripped text and holds no tag |
| SearchPostCard.FormatDate | frontend/components/search/SearchPostCard.tsx:22-33 | the five buckets (just now, minutes, hours, days, calendar date) are chosen exactly by the thresholds of one minute, hour, day and week; each count is the floor of the age in its unit, minutes in 1..59, hours in 1..23, days in 1..6 |
| SearchPostCard.Label | frontend/components/search/SearchPostCard.tsx:29-34 | every bucket but the calendar date has a non-empty label, and the calendar date has none here |
| SearchPostCard.LabelOfAge | frontend/components/search/SearchPostCard.tsx:27-33 | the label is `방금 전` under a minute, then `N분 전`, `N시간 전` or `N일 전` with N the floor of the age in minutes, hours or days, and a calendar date from a week on |
| SearchPostCard.FormatDateMonotonic | frontend/components/search/SearchPostCard.tsx:27-33 | an older post never gets a more recent bucket, or within one bucket a smaller count |
| BlogPostList.PlainText | components/blog/BlogPostList.tsx:39 | the plain text is the content with tags stripped and every newline turned into a space, so it has no tag and no newline |
| BlogPostList.GetExcerpt | components/blog/BlogPostList.tsx:38-42 | plain text of at most maxLength characters is returned unchanged; longer text becomes its first maxLength characters plus `...`, maxLength + 3 long; never a newline or tag |
| BlogPostList.GetDefaultExcerpt | components/blog/BlogPostList.tsx:38 | it is `getExcerpt` with the default length of 150, so the excerpt is at most 153 characters |
| BlogPostList.ExcerptIsPrefix | components/blog/BlogPostList.tsx:40-41 | the excerpt is a prefix of the plain text, or a prefix of it followed by `...` |
| PostCard.StripHtml | components/blog/PostCard.tsx:21-23 | the result is the content with tags removed, newlines turned into spaces, then trimmed: so no tag, no newline, no white space at either end, empty only for all-space text |
| PostCard.Preview | components/blog/PostCard.tsx:29 | `''` without content; otherwise the first min(100, length) characters of the stripped content |
| PostCard.BlogName | components/blog/PostCard.tsx:26 | the blog's name when non-empty, else `알 수 없음`; never empty |
| PostCard.AuthorName | components/blog/PostCard.tsx:27 | the nickname when non-empty, else the blog name; never empty, so the avatar's `charAt(0)` (line 72) is a real character |
| PostCard.AuthorImage | components/blog/PostCard.tsx:28 | the profile's image URL, or absent without a blog or profile |
| BlogStore.SumViews | frontend/lib/store/useBlogStore.ts:79 | the left fold of view counts (null as 0) is non-negative when every count is |
| BlogStore.SumViewsAppend | frontend/lib/store/useBlogStore.ts:79 | the fold splits over concatenation, so it is the plain sum of the counts |
| BlogStore.TotalViewCount | frontend/lib/store/useBlogStore.ts:78-80 | null posts give 0; otherwise the sum of the counts |
| BlogStore.TotalViewCountAddsPost | frontend/lib/store/useBlogStore.ts:79 | one more post adds its own count (0 for null) |
| BlogStore.WithTotal | frontend/lib/store/useBlogStore.ts:82-85 | `{ ...blog, total_view_count }` keeps every field of the row and adds the total |
| BlogStore.WithStats | frontend/lib/store/useBlogStore.ts:72-86 | one blog per row, in order, each with the total of its own posts' views |
| BlogStore.FindById | frontend/lib/store/useBlogStore.ts:96 | `find` gives the first blog with the id, or none exactly when no blog has it |
| BlogStore.PickSelected | frontend/lib/store/useBlogStore.ts:96-97 | the remembered blog if the list has it, else the first blog; always a member of the list |
| BlogStore.Initial | frontend/lib/store/useBlogStore.ts:29-32 | no blogs, no selection, not loading, not fetched |
| BlogStore.Select | frontend/lib/store/useBlogStore.ts:38-44 | the blog is selected; in a browser its id is stored under `snuggle_selected_blog_id`; no other field or stored key changes and no other key is added |
| BlogStore.Fetch | frontend/lib/store/useBlogStore.ts:48-105 | every outcome ends not loading and fetched, with storage untouched; a failed, empty or throwing fetch empties the list and the selection; otherwise the list is the rows with their totals and the selection is the remembered blog if listed, else the first, so it always belongs to the list |
| BlogStore.Cleared | frontend/lib/store/useBlogStore.ts:107-112 | the initial state, with the stored id removed in a browser |
| BlogStore.SelectThenFetchReselects | frontend/lib/store/useBlogStore.ts:38-99 | a blog selected in a browser is selected again by a fetch that lists its id |
| BlogStore.FetchOutsideBrowserSelectsFirst | frontend/lib/store/useBlogStore.ts:91-97 | without a window nothing is remembered and a fetch selects the first blog |
| BlogStore.ClearThenFetchSelectsFirst | frontend/lib/store/useBlogStore.ts:107-112 | after `clear` the next fetch selects the first blog |
| BlogStore.Store.constructor | frontend/lib/store/useBlogStore.ts:28-32 | the store starts in the initial state over the existing localStorage |
| BlogStore.Store.SetBlogs | frontend/lib/store/useBlogStore.ts:34 | only `blogs` changes |
| BlogStore.Store.SetSelectedBlog | frontend/lib/store/useBlogStore.ts:36 | only `selectedBlog` changes |
| BlogStore.Store.SelectBlog | frontend/lib/store/useBlogStore.ts:38-44 | the new state is `Select` of the old |
| BlogStore.Store.SetLoading | frontend/lib/store/useBlogStore.ts:46 | only `isLoading` changes |
| BlogStore.Store.FetchBlogs | frontend/lib/store/useBlogStore.ts:48-105 | the state after the successive `set` calls is `Fetch` of the state before |
| BlogStore.Store.Clear | frontend/lib/store/useBlogStore.ts:107-112 | the new state is `Cleared` of the old |

## Left out

- Redis, Supabase and the browser are not called. Their answers are parameters:
  - The cache is two maps.
  - Query results are `QueryResult`, `FetchResult` or plain sequences.
  - localStorage is a map.
  - `document.cookie` is a string.
- Key expiry is not modelled. A log key's TTL is recorded, but nothing counts it down. The
  next day is a different `today` argument, which gives a different key.
- The current day is the parameter `today`, in place of `new Date().toISOString().split('T')[0]`.
- The race between `GET` and `SET` under concurrent requests is not modelled, and neither is
  the fire-and-forget scheduling of the `finish` callback. The model runs calls one after
  another. `SequentialTrackIsClaim` shows that one such call equals an atomic set-if-absent.
- Logging (`logger.error`, `console.error`) is not modelled.
- VisitorMiddleware.BlogVisitorMiddleware: assumes every response emits `finish`. A response
  aborted before it is sent emits none and is never tracked. The model always runs the callback.
- `crypto.randomUUID` is the `newId` parameter of `ProvisionVisitorId`.
- `toLocaleDateString` is not modelled. The calendar-date bucket carries no text.
- `new Date(dateString)` is not modelled. `FormatDate` takes the age in milliseconds. An
  unparsable date, which makes every comparison false, is not modelled.
- `FormatDate` uses exact division in place of the floating-point `/1000`.
- `AddToJar` appends the new cookie to the jar. A browser would replace an earlier cookie of the
  same name, and would apply max-age, path and SameSite. Those rules are not modelled.
- VisitorCookie.GetCookie: matches `name=` literally. The source builds a regular expression from
  the name, so GetCookie, GetCookieRoundTrip and SetCookieStringRoundTrip agree with it only
  for names without regular-expression metacharacters. The source only uses
  `snuggle_visitor_id`, which has none.
- `getCookie`'s `typeof document` test is the `Option` document argument.
- `setCookie`'s `typeof window` test is an `Option` hostname.
- The store's `typeof window` test is the `inBrowser` constant.
- A query parameter given more than once, as an array, is not modelled.
- `ParseInt` is exact. It does not model the precision loss of very large numbers in a double.
- The handlers' `catch` blocks are not modelled. When a query throws, they answer 500 with a
  fixed message.
- The filters, ordering, `range` and `limit(5/3/3)` that the database applies are not
  modelled. Only the window and order a handler requests are.
- For the `ByHost` connection, host, port and password are not modelled.
- The Redis `connect` and `error` event handlers are not modelled.
- BlogStore.Store.FetchBlogs: treats the fetch as one step. Other store calls that run while
  its queries are pending are not modelled. A `clear()` during the awaits would be undone by
  the later `set` calls. A `selectBlog()` during them would change the stored id that the fetch
  reads afterwards, while the model reads it from the state before the fetch.
- Strings are sequences of Unicode characters. JavaScript's `length` and `slice` count UTF-16
  code units, so the lengths differ for characters outside the Basic Multilingual Plane.
- Rendering (JSX) is not modelled.
