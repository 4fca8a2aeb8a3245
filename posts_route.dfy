/**
 * `/api/posts` of the mock back end. `GET` runs search, category and tag filters,
 * the `oldest` reversal and page slicing over a copy of the stored posts; `POST`
 * builds a post with defaults, a sequential id and a slug derived from the title,
 * and prepends it to the store.
 */
module PostsRoute {
  import opened Wrappers
  import opened JsStrings
  import opened JsValues
  import opened Seqs
  import opened BlogTypes
  import opened DataStore

  /**
   * The query string. A parameter that is absent or empty is `None`; `page` and
   * `limit` hold what `Number` made of the text.
   */
  datatype PostsQuery = PostsQuery(
    search: Option<string>,
    category: Option<string>,
    tag: Option<string>,
    sort: Option<string>,
    page: Option<int>,
    limit: Option<int>)

  /** The response body `{ data, total }`. */
  datatype PostsPage = PostsPage(data: seq<Post>, total: int)

  const DefaultPage: int := 1
  const DefaultLimit: int := 6

  /** The search text, lower-cased; empty when absent. */
  function SearchTerm(q: PostsQuery): string {
    Lower(q.search.GetOr(""))
  }

  function SortKey(q: PostsQuery): string {
    OptOr(q.sort, "latest")
  }

  function PageOf(q: PostsQuery): int {
    q.page.GetOr(DefaultPage)
  }

  function LimitOf(q: PostsQuery): int {
    q.limit.GetOr(DefaultLimit)
  }

  /** A post matches a search when its lower-cased title, category or one of its tags contains the term. */
  predicate MatchesSearch(p: Post, term: string) {
    Includes(Lower(p.title), term) ||
    Includes(Lower(p.category), term) ||
    exists i :: 0 <= i < |p.tags| && Includes(Lower(p.tags[i]), term)
  }

  /** A category or tag filter applies only when present and not `All`. */
  predicate FilterActive(f: Option<string>) {
    f.Some? && f.value != "" && f.value != "All"
  }

  predicate SearchStage(q: PostsQuery, p: Post) {
    SearchTerm(q) != "" ==> MatchesSearch(p, SearchTerm(q))
  }

  predicate CategoryStage(q: PostsQuery, p: Post) {
    FilterActive(q.category) ==> p.category == q.category.value
  }

  predicate TagStage(q: PostsQuery, p: Post) {
    FilterActive(q.tag) ==> q.tag.value in p.tags
  }

  function BySearch(posts: seq<Post>, q: PostsQuery): seq<Post> {
    var term := SearchTerm(q);
    if term != "" then Filter(posts, (p: Post) => MatchesSearch(p, term)) else posts
  }

  function ByCategory(posts: seq<Post>, q: PostsQuery): seq<Post> {
    if FilterActive(q.category) then Filter(posts, (p: Post) => p.category == q.category.value) else posts
  }

  function ByTag(posts: seq<Post>, q: PostsQuery): seq<Post> {
    if FilterActive(q.tag) then Filter(posts, (p: Post) => q.tag.value in p.tags) else posts
  }

  /** The filtered, ordered posts, computed stage by stage as the handler does. */
  function Selected(posts: seq<Post>, q: PostsQuery): seq<Post> {
    var byTag := ByTag(ByCategory(BySearch(posts, q), q), q);
    if SortKey(q) == "oldest" then Reverse(byTag) else byTag
  }

  /** The whole `GET` computation over a snapshot of the stored posts. */
  function ListPosts(posts: seq<Post>, q: PostsQuery): (r: PostsPage)
    ensures r.total == |Selected(posts, q)|
  {
    var data := Selected(posts, q);
    PostsPage(PageSlice(data, PageOf(q), LimitOf(q)), |data|)
  }

  /** The first index of a page: `(page - 1) * limit`. */
  function PageStart(page: int, limit: int): (r: int)
    ensures page >= 1 && limit >= 0 ==> r >= 0
  {
    (page - 1) * limit
  }

  /** `data.slice(start, start + limit)` for the page's start. */
  function PageSlice<T>(data: seq<T>, page: int, limit: int): seq<T> {
    var start := PageStart(page, limit);
    Slice(data, start, start + limit)
  }

  /** What a post must satisfy to be listed: every active filter at once. */
  predicate Keeps(q: PostsQuery, p: Post) {
    SearchStage(q, p) && CategoryStage(q, p) && TagStage(q, p)
  }

  function SearchKeep(q: PostsQuery): Post -> bool {
    (p: Post) => SearchStage(q, p)
  }

  function CategoryKeep(q: PostsQuery): Post -> bool {
    (p: Post) => CategoryStage(q, p)
  }

  function TagKeep(q: PostsQuery): Post -> bool {
    (p: Post) => TagStage(q, p)
  }

  function SearchCategoryKeep(q: PostsQuery): Post -> bool {
    (p: Post) => SearchStage(q, p) && CategoryStage(q, p)
  }

  function KeepAll(q: PostsQuery): Post -> bool {
    (p: Post) => Keeps(q, p)
  }

  /** A disabled stage keeps everything, so each stage is a filter by its stage predicate. */
  lemma BySearchIsFilter(posts: seq<Post>, q: PostsQuery)
    ensures BySearch(posts, q) == Filter(posts, SearchKeep(q))
  {
    var term := SearchTerm(q);
    if term != "" {
      FilterSamePredicate(posts, (p: Post) => MatchesSearch(p, term), SearchKeep(q));
    } else {
      FilterKeepsAll(posts, SearchKeep(q));
    }
  }

  lemma ByCategoryIsFilter(posts: seq<Post>, q: PostsQuery)
    ensures ByCategory(posts, q) == Filter(posts, CategoryKeep(q))
  {
    if FilterActive(q.category) {
      FilterSamePredicate(posts, (p: Post) => p.category == q.category.value, CategoryKeep(q));
    } else {
      FilterKeepsAll(posts, CategoryKeep(q));
    }
  }

  lemma ByTagIsFilter(posts: seq<Post>, q: PostsQuery)
    ensures ByTag(posts, q) == Filter(posts, TagKeep(q))
  {
    if FilterActive(q.tag) {
      FilterSamePredicate(posts, (p: Post) => q.tag.value in p.tags, TagKeep(q));
    } else {
      FilterKeepsAll(posts, TagKeep(q));
    }
  }

  /**
   * The three-stage pipeline is one filter by `Keeps`, in store order, reversed
   * exactly when `sort` is `oldest`.
   */
  lemma {:induction false} SelectedIsOneFilter(posts: seq<Post>, q: PostsQuery)
    ensures Selected(posts, q) ==
      if SortKey(q) == "oldest" then Reverse(Filter(posts, KeepAll(q)))
      else Filter(posts, KeepAll(q))
  {
    var s1 := BySearch(posts, q);
    BySearchIsFilter(posts, q);
    var s2 := ByCategory(s1, q);
    ByCategoryIsFilter(s1, q);
    FilterFilter(posts, SearchKeep(q), CategoryKeep(q), SearchCategoryKeep(q));
    ByTagIsFilter(s2, q);
    FilterFilter(posts, SearchCategoryKeep(q), TagKeep(q), KeepAll(q));
  }

  /** A post is listed exactly when it is stored and passes every active filter. */
  lemma SelectedMembership(posts: seq<Post>, q: PostsQuery, p: Post)
    ensures p in Selected(posts, q) <==> p in posts && Keeps(q, p)
  {
    SelectedIsOneFilter(posts, q);
    var kept := Filter(posts, KeepAll(q));
    ReverseSameElements(kept);
    assert p in kept <==> p in multiset(kept);
    assert p in posts && Keeps(q, p) ==> p in kept by {
      if p in posts && Keeps(q, p) {
        var i :| 0 <= i < |posts| && posts[i] == p;
      }
    }
  }

  /**
   * Listing keeps store order: the selection distributes over any split of the
   * stored posts, and under `sort=oldest` the two parts trade places.
   */
  lemma OrderFollowsStore(a: seq<Post>, b: seq<Post>, q: PostsQuery)
    ensures SortKey(q) != "oldest" ==> Selected(a + b, q) == Selected(a, q) + Selected(b, q)
    ensures SortKey(q) == "oldest" ==> Selected(a + b, q) == Selected(b, q) + Selected(a, q)
  {
    SelectedIsOneFilter(a + b, q);
    SelectedIsOneFilter(a, q);
    SelectedIsOneFilter(b, q);
    FilterConcat(a, b, KeepAll(q));
    ReverseConcat(Filter(a, KeepAll(q)), Filter(b, KeepAll(q)));
  }

  /** From page 1 on, a page is the clamped window of `limit` elements starting at `(page - 1) * limit`. */
  lemma PageSliceWindow<T>(data: seq<T>, page: int, limit: int)
    requires page >= 1 && limit >= 0
    ensures var lo := PageStart(page, limit);
      PageSlice(data, page, limit) == data[Min(lo, |data|)..Min(lo + limit, |data|)] &&
      |PageSlice(data, page, limit)| <= limit
  {
    var lo: nat := PageStart(page, limit);
    SliceWindow(data, lo, limit);
  }

  /**
   * For a page from 1 on, the page is the window `[(page-1)*limit, page*limit)` of the
   * listed posts, clamped to their number, and never longer than `limit`.
   */
  lemma PageWindow(posts: seq<Post>, q: PostsQuery)
    requires PageOf(q) >= 1 && LimitOf(q) >= 0
    ensures var sel := Selected(posts, q);
      var r := ListPosts(posts, q);
      var lo := PageStart(PageOf(q), LimitOf(q));
      r.total == |sel| &&
      r.data == sel[Min(lo, |sel|)..Min(lo + LimitOf(q), |sel|)] &&
      |r.data| <= LimitOf(q)
  {
    PageSliceWindow(Selected(posts, q), PageOf(q), LimitOf(q));
  }

  /** With neither `page` nor `limit` given, the response holds the first six listed posts. */
  lemma DefaultPageIsFirstSix(posts: seq<Post>, q: PostsQuery)
    requires q.page.None? && q.limit.None?
    ensures var sel := Selected(posts, q);
      ListPosts(posts, q).data == sel[..Min(6, |sel|)]
  {
    PageWindow(posts, q);
  }

  /** `page=0` yields an empty page: the slice ends at index 0. */
  lemma PageZeroIsEmpty(posts: seq<Post>, q: PostsQuery)
    requires PageOf(q) == 0 && LimitOf(q) >= 0
    ensures ListPosts(posts, q).data == []
    ensures ListPosts(posts, q).total == |Selected(posts, q)|
  {
    var sel := Selected(posts, q);
    assert ListPosts(posts, q).data == Slice(sel, -LimitOf(q), 0);
  }

  /** Every post on any page is a stored post that passes every active filter. */
  lemma ListedPostsAreKept(posts: seq<Post>, q: PostsQuery)
    ensures forall i :: 0 <= i < |ListPosts(posts, q).data| ==>
      ListPosts(posts, q).data[i] in posts && Keeps(q, ListPosts(posts, q).data[i])
  {
    var sel := Selected(posts, q);
    var start := PageStart(PageOf(q), LimitOf(q));
    var data := Slice(sel, start, start + LimitOf(q));
    assert ListPosts(posts, q).data == data;
    SliceWithin(sel, start, start + LimitOf(q));
    forall i | 0 <= i < |data| ensures data[i] in posts && Keeps(q, data[i]) {
      SelectedAreKept(posts, q, data[i]);
    }
  }

  lemma SelectedAreKept(posts: seq<Post>, q: PostsQuery, p: Post)
    requires p in Selected(posts, q)
    ensures p in posts && Keeps(q, p)
  {
    SelectedMembership(posts, q, p);
  }

  /** The `GET` handler: reads the store and answers. It has no `modifies` clause, so it cannot change the store. */
  method HandleGet(store: Store, q: PostsQuery) returns (r: PostsPage)
    ensures r == ListPosts(store.posts, q)
  {
    var posts := store.GetPosts();
    r := ListPosts(posts, q);
  }

  /** The `POST` body: any subset of the post's fields. */
  datatype PostBody = PostBody(
    title: Option<string>,
    excerpt: Option<string>,
    content: Option<string>,
    coverImage: Option<string>,
    category: Option<string>,
    tags: Option<seq<string>>)

  const DefaultAuthor: Author := Author("a1", "Notebook Editor", "editor", None, None, None)

  lemma ReplaceWsRunsEmpty(s: string, rep: string)
    requires rep != []
    ensures ReplaceWsRuns(s, rep) == [] <==> s == []
  {
  }

  /** A whitespace-free string is left alone by the replacement. */
  lemma {:induction false} ReplaceWsRunsNoWsId(s: string, rep: string)
    requires NoWs(s)
    ensures ReplaceWsRuns(s, rep) == s
    decreases |s|
  {
    if s != [] {
      ReplaceWsRunsNoWsId(s[1..], rep);
    }
  }

  /** What `title?.toLowerCase().replace(/\s+/g, '-')` yields: empty exactly for a missing or empty title, and whitespace-free. */
  function SlugFromTitle(title: Option<string>): (r: string)
    ensures NoWs(r)
    ensures r == [] <==> title.None? || title.value == ""
    ensures title.Some? && NoWs(title.value) ==> r == Lower(title.value)
    ensures title.Some? ==> r == ReplaceWsRuns(Lower(title.value), "-")
  {
    SlugFromTitleFacts(title);
    if title.Some? then ReplaceWsRuns(Lower(title.value), "-") else ""
  }

  lemma SlugFromTitleFacts(title: Option<string>)
    ensures title.Some? ==> NoWs(ReplaceWsRuns(Lower(title.value), "-"))
    ensures title.Some? ==> (ReplaceWsRuns(Lower(title.value), "-") == [] <==> title.value == "")
    ensures title.Some? && NoWs(title.value) ==> ReplaceWsRuns(Lower(title.value), "-") == Lower(title.value)
  {
    if title.Some? {
      ReplaceWsRunsNoWs(Lower(title.value), "-");
      ReplaceWsRunsEmpty(Lower(title.value), "-");
      if NoWs(title.value) {
        ReplaceWsRunsNoWsId(Lower(title.value), "-");
      }
    }
  }

  /**
   * The slug: the lower-cased title with every whitespace run turned into `-`, or
   * `post-{n}` when the title is missing or empty. It never contains whitespace.
   */
  function Slug(title: Option<string>, n: nat): (slug: string)
    ensures slug != [] && NoWs(slug)
    ensures (title.None? || title.value == "") ==> slug == "post-" + NatToString(n)
    ensures title.Some? && title.value != "" && NoWs(title.value) ==> slug == Lower(title.value)
    ensures title.Some? && title.value != "" ==> slug == ReplaceWsRuns(Lower(title.value), "-")
  {
    var fromTitle := SlugFromTitle(title);
    if fromTitle != "" then fromTitle else "post-" + NatToString(n)
  }

  /** Two whitespace-free words joined by any whitespace run become one slug with a single `-`. */
  lemma SlugOfTwoWords(a: string, w: string, b: string, n: nat)
    requires a != [] && b != [] && NoWs(a) && NoWs(b)
    requires w != [] && AllWs(w)
    ensures Slug(Some(a + w + b), n) == Lower(a) + "-" + Lower(b)
  {
    var la, lw, lb := Lower(a), Lower(w), Lower(b);
    assert Lower(a + w + b) == la + lw + lb;
    ReplaceWsRunsSplit(la, lw, lb, "-");
    ReplaceWsRunsNoWsId(la, "-");
    ReplaceWsRunsNoWsId(lb, "-");
  }

  /** The title "Hello  World", with two spaces, gets the slug "hello-world". */
  lemma HelloWorldSlug(n: nat)
    ensures Slug(Some("Hello  World"), n) == "hello-world"
  {
    HelloWorldParts();
    SlugOfTwoWords("Hello", "  ", "World", n);
    HelloWorldLowered();
  }

  lemma HelloWorldParts()
    ensures "Hello  World" == "Hello" + "  " + "World"
    ensures NoWs("Hello") && NoWs("World") && AllWs("  ")
  {
  }

  lemma HelloWorldLowered()
    ensures Lower("Hello") + "-" + Lower("World") == "hello-world"
  {
    assert Lower("Hello") == "hello";
    assert Lower("World") == "world";
  }

  /**
   * The post that `POST` creates when the store holds `posts`. Each text field is
   * `body.f || default`, so a missing or empty value takes the default; the cover
   * image falls back to the first stored post's, and the author is the first stored
   * post's too.
   */
  function NewPost(posts: seq<Post>, body: PostBody, today: string): (p: Post)
    ensures p.id == NatToString(|posts| + 1)
    ensures p.slug == Slug(body.title, |posts| + 1) && p.slug != [] && NoWs(p.slug)
    ensures body.title.Some? && body.title.value != "" ==> p.title == body.title.value
    ensures body.title.None? || body.title.value == "" ==>
              p.title == "Untitled" && p.slug == "post-" + NatToString(|posts| + 1)
    ensures p.title != ""
    ensures body.excerpt.Some? && body.excerpt.value != "" ==> p.excerpt == body.excerpt.value
    ensures body.excerpt.None? || body.excerpt.value == "" ==> p.excerpt == ""
    ensures body.content.Some? && body.content.value != "" ==> p.content == body.content.value
    ensures body.content.None? || body.content.value == "" ==> p.content == ""
    ensures body.coverImage.Some? && body.coverImage.value != "" ==> p.coverImage == body.coverImage.value
    ensures body.coverImage.None? || body.coverImage.value == "" ==>
              p.coverImage == if posts == [] then "" else posts[0].coverImage
    ensures body.category.Some? && body.category.value != "" ==> p.category == body.category.value
    ensures body.category.None? || body.category.value == "" ==> p.category == "General"
    ensures body.tags.Some? ==> p.tags == body.tags.value
    ensures body.tags.None? ==> p.tags == []
    ensures p.author == if posts == [] then DefaultAuthor else posts[0].author
    ensures p.publishedAt == today && p.readingTime == "5 min read"
  {
    Post(
      id := NatToString(|posts| + 1),
      slug := Slug(body.title, |posts| + 1),
      title := OptOr(body.title, "Untitled"),
      excerpt := OptOr(body.excerpt, ""),
      content := OptOr(body.content, ""),
      coverImage := OptOr(body.coverImage, if posts == [] then "" else posts[0].coverImage),
      category := OptOr(body.category, "General"),
      tags := body.tags.GetOr([]),
      author := if posts == [] then DefaultAuthor else posts[0].author,
      publishedAt := today,
      readingTime := "5 min read")
  }

  /**
   * The `POST` handler: answers 201 with the new post, which is prepended; the
   * earlier posts follow unchanged and the other collections are untouched.
   */
  method HandlePost(store: Store, body: PostBody, today: string) returns (status: int, created: Post)
    modifies store
    ensures status == 201
    ensures created == NewPost(old(store.posts), body, today)
    ensures store.posts == [created] + old(store.posts)
    ensures |store.posts| == |old(store.posts)| + 1 && store.posts[1..] == old(store.posts)
    ensures store.comments == old(store.comments) && store.subscribers == old(store.subscribers)
  {
    var posts := store.GetPosts();
    created := NewPost(posts, body, today);
    store.SetPosts([created] + posts);
    status := 201;
  }
}
