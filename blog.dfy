/**
 * The blog listing of src/lib/api/blog.ts over its six built-in posts: `listBlogPosts`
 * sorts a copy of the posts newest first and pages it with `getPaginationData`;
 * `getBlogPostBySlug` finds a post by its slug. Dates are written as the number
 * yyyymmdd, which orders them as the calendar does; the text fields of a post are
 * not modelled.
 */
module Blog {
  import opened Text
  import Pagination
  import Lists

  datatype Post = Post(id: string, slug: string, publishedAt: int)

  datatype PaginatedBlogPosts = PaginatedBlogPosts(
    posts: seq<Post>,
    total: nat,
    page: int,
    pageSize: int,
    totalPages: nat)

  /** `MOCK_POSTS`, in their declared order. */
  const MockPosts: seq<Post> := [
    Post("1", "beneficios-proteina-whey", 20250115),
    Post("2", "guia-suplementos-principiantes", 20250110),
    Post("3", "creatina-mitos-realidades", 20250105),
    Post("4", "pre-entreno-necesario", 20250101),
    Post("5", "dieta-para-ganar-masa-muscular", 20241228),
    Post("6", "aminoacidos-bcaa-necesarios", 20241220)
  ]

  /** Newest first: no post is followed by a newer one. */
  predicate NewestFirst(posts: seq<Post>) {
    forall i, j :: 0 <= i < j < |posts| ==> posts[i].publishedAt >= posts[j].publishedAt
  }

  /** Putting a post in front of a newest-first list whose posts are all no newer keeps it newest first. */
  lemma PrependNewestFirst(x: Post, s: seq<Post>)
    requires NewestFirst(s)
    requires forall q :: q in s ==> q.publishedAt <= x.publishedAt
    ensures NewestFirst([x] + s)
  {
    forall i, j | 0 <= i < j < |[x] + s|
      ensures ([x] + s)[i].publishedAt >= ([x] + s)[j].publishedAt
    {
      if i > 0 {
        assert ([x] + s)[i] == s[i - 1] && ([x] + s)[j] == s[j - 1];
      } else {
        assert ([x] + s)[j] == s[j - 1];
      }
    }
  }

  /**
   * Places `p` in a newest-first list: before the first post that is not newer, so it
   * stays ahead of posts with the same date that came after it.
   */
  function Insert(p: Post, sorted: seq<Post>): (r: seq<Post>)
    requires NewestFirst(sorted)
    ensures NewestFirst(r)
    ensures forall q :: q in r ==> q == p || q in sorted
    ensures multiset(r) == multiset(sorted) + multiset{p}
  {
    if sorted == [] || p.publishedAt >= sorted[0].publishedAt then
      PrependNewestFirst(p, sorted);
      [p] + sorted
    else
      var rest := Insert(p, sorted[1..]);
      assert sorted == [sorted[0]] + sorted[1..];
      assert forall q :: q in sorted[1..] ==> q.publishedAt <= sorted[0].publishedAt;
      PrependNewestFirst(sorted[0], rest);
      [sorted[0]] + rest
  }

  /**
   * `[...posts].sort((a, b) => b.publishedAt - a.publishedAt)`: a stable sort, newest
   * first, of a copy (the argument, a value, is never changed).
   */
  function SortNewestFirst(posts: seq<Post>): (r: seq<Post>)
    ensures NewestFirst(r)
    ensures multiset(r) == multiset(posts)
  {
    if posts == [] then []
    else
      assert posts == [posts[0]] + posts[1..];
      Insert(posts[0], SortNewestFirst(posts[1..]))
  }

  /** A list already newest first comes back unchanged, order of equal dates included. */
  lemma {:induction false} SortOfNewestFirst(posts: seq<Post>)
    requires NewestFirst(posts)
    ensures SortNewestFirst(posts) == posts
  {
    if posts != [] {
      SortOfNewestFirst(posts[1..]);
    }
  }

  /** The posts published on day `d`, in list order. */
  function WithDate(posts: seq<Post>, d: int): seq<Post> {
    if posts == [] then []
    else (if posts[0].publishedAt == d then [posts[0]] else []) + WithDate(posts[1..], d)
  }

  lemma WithDateCons(x: Post, s: seq<Post>, d: int)
    ensures WithDate([x] + s, d) == (if x.publishedAt == d then [x] else []) + WithDate(s, d)
  {
    assert ([x] + s)[1..] == s;
  }

  lemma {:induction false} InsertWithDate(p: Post, sorted: seq<Post>, d: int)
    requires NewestFirst(sorted)
    ensures WithDate(Insert(p, sorted), d) == (if p.publishedAt == d then [p] else []) + WithDate(sorted, d)
  {
    if sorted == [] || p.publishedAt >= sorted[0].publishedAt {
      WithDateCons(p, sorted, d);
    } else {
      var h := sorted[0];
      var tail := sorted[1..];
      assert sorted == [h] + tail;
      assert NewestFirst(tail);
      var rest := Insert(p, tail);
      assert Insert(p, sorted) == [h] + rest;
      InsertWithDate(p, tail, d);
      WithDateCons(h, rest, d);
      WithDateCons(h, tail, d);
      var head := if h.publishedAt == d then [h] else [];
      var mine := if p.publishedAt == d then [p] else [];
      SwapAroundEmpty(head, mine, WithDate(tail, d));
    }
  }

  lemma SwapAroundEmpty<T>(a: seq<T>, b: seq<T>, c: seq<T>)
    requires a == [] || b == []
    ensures a + (b + c) == b + (a + c)
  {
    if a == [] {
      assert a + (b + c) == b + c == b + (a + c);
    } else {
      assert a + (b + c) == a + c == b + (a + c);
    }
  }

  /** The sort is stable: posts of the same day keep their relative order. */
  lemma {:induction false} SortIsStable(posts: seq<Post>, d: int)
    ensures WithDate(SortNewestFirst(posts), d) == WithDate(posts, d)
  {
    if posts != [] {
      SortIsStable(posts[1..], d);
      InsertWithDate(posts[0], SortNewestFirst(posts[1..]), d);
    }
  }

  /** The built-in posts are declared newest first, so sorting keeps their declared order. */
  lemma MockPostsKeepOrder()
    ensures SortNewestFirst(MockPosts) == MockPosts
  {
    SortOfNewestFirst(MockPosts);
  }

  /** `listBlogPosts(page, pageSize)`: the requested page of the sorted posts. */
  function ListBlogPosts(page: int, pageSize: int): (r: PaginatedBlogPosts)
    requires pageSize > 0
    ensures r.total == 6
    ensures r.pageSize == pageSize && r.totalPages == Pagination.CeilDiv(r.total, pageSize)
    ensures NewestFirst(r.posts)
    ensures |r.posts| <= pageSize
    ensures forall p :: p in r.posts ==> p in MockPosts
    ensures r.page >= 1 && r.page <= r.totalPages
    ensures 1 <= page <= r.totalPages ==> r.page == page
  {
    MockPostsCount();
    ListPosts(MockPosts, page, pageSize)
  }

  lemma MockPostsCount()
    ensures |MockPosts| == 6
  {
  }

  /** The page listed is the slice of the built-in posts, in their declared order, that the page number selects. */
  lemma ListBlogPostsShowsPage(page: int, pageSize: int)
    requires pageSize > 0
    ensures var r := ListBlogPosts(page, pageSize);
            Pagination.PageStart(r.page, pageSize) <= |MockPosts| && r.posts == PageOf(MockPosts, r.page, pageSize)
  {
    MockPostsKeepOrder();
  }

  /** The listing of any collection of posts: sorted newest first, then cut into pages. */
  function ListPosts(posts: seq<Post>, page: int, pageSize: int): (r: PaginatedBlogPosts)
    requires pageSize > 0
    ensures r.total == |posts|
    ensures r.pageSize == pageSize && r.totalPages == Pagination.CeilDiv(|posts|, pageSize)
    ensures r.totalPages == 0 <==> posts == []
    ensures NewestFirst(r.posts)
    ensures |r.posts| <= pageSize
    ensures forall p :: p in r.posts ==> p in posts
    ensures r.page >= 1 && (r.totalPages > 0 ==> r.page <= r.totalPages)
    ensures 1 <= page <= r.totalPages ==> r.page == page
    ensures Pagination.PageStart(r.page, pageSize) <= |posts| && r.posts == PageOf(SortNewestFirst(posts), r.page, pageSize)
  {
    var sorted := SortNewestFirst(posts);
    var d := Pagination.GetPaginationData(sorted, page, pageSize);
    SortedKeepsPosts(posts);
    PageOfNewestFirst(sorted, page, pageSize);
    PageSlice(sorted, page, pageSize);
    Pagination.CeilDivBounds(|posts|, pageSize);
    PaginatedBlogPosts(d.items, d.total, d.page, d.pageSize, d.totalPages)
  }

  /** The posts of 1-based page `page`: the slice from that page's start, cut at the end of the list. */
  function PageOf(sorted: seq<Post>, page: int, pageSize: nat): seq<Post> {
    var s := Pagination.PageStart(page, pageSize);
    if s <= |sorted| then sorted[s .. Pagination.Min(s + pageSize, |sorted|)] else []
  }

  /** Sorting keeps the number of posts and brings in none. */
  lemma SortedKeepsPosts(posts: seq<Post>)
    ensures |SortNewestFirst(posts)| == |posts|
    ensures forall p :: p in SortNewestFirst(posts) ==> p in posts
  {
    var sorted := SortNewestFirst(posts);
    assert |sorted| == |multiset(sorted)| == |posts|;
    assert forall p :: p in sorted ==> p in multiset(posts);
  }

  /** The page `getPaginationData` cuts starts inside the list and is the slice from that start. */
  lemma PageSlice(sorted: seq<Post>, page: int, pageSize: int)
    requires pageSize > 0
    ensures var d := Pagination.GetPaginationData(sorted, page, pageSize);
            Pagination.PageStart(d.page, pageSize) <= |sorted| && d.items == PageOf(sorted, d.page, pageSize)
  {
    var d := Pagination.GetPaginationData(sorted, page, pageSize);
    if d.totalPages > 0 {
      Pagination.PageStartsInside(|sorted|, pageSize, d.page);
    }
  }

  /** A page cut out of a newest-first list is newest first and holds only posts of the list. */
  lemma PageOfNewestFirst(sorted: seq<Post>, page: int, pageSize: int)
    requires pageSize > 0 && NewestFirst(sorted)
    ensures var d := Pagination.GetPaginationData(sorted, page, pageSize);
            NewestFirst(d.items) && (forall p :: p in d.items ==> p in sorted)
  {
    var d := Pagination.GetPaginationData(sorted, page, pageSize);
    PageSlice(sorted, page, pageSize);
    var start := Pagination.PageStart(d.page, pageSize);
    assert forall i :: 0 <= i < |d.items| ==> d.items[i] == sorted[start + i];
  }

  /** Reading the pages 1, 2, ... in turn shows every post exactly once, in date order. */
  lemma PagesShowEveryPostOnce(pageSize: int)
    requires pageSize > 0
    ensures Pagination.PagesFrom(SortNewestFirst(MockPosts), pageSize, 1) == MockPosts
  {
    MockPostsKeepOrder();
    Pagination.PagesPartitionItems(MockPosts, pageSize);
  }

  /** The total does not depend on the page asked for. */
  lemma TotalIndependentOfPage(p1: int, p2: int, pageSize: int)
    requires pageSize > 0
    ensures ListBlogPosts(p1, pageSize).total == ListBlogPosts(p2, pageSize).total
    ensures ListBlogPosts(p1, pageSize).totalPages == ListBlogPosts(p2, pageSize).totalPages
  {
  }

  /** `posts.find(p => p.slug === slug) || null`: the first post with that slug. */
  function FindBySlug(posts: seq<Post>, slug: string): (r: Option<Post>)
    ensures r.None? <==> forall i :: 0 <= i < |posts| ==> posts[i].slug != slug
    ensures r.Some? ==> exists i :: 0 <= i < |posts| && posts[i] == r.value && r.value.slug == slug
                          && forall j :: 0 <= j < i ==> posts[j].slug != slug
  {
    Lists.Find(posts, (p: Post) => p.slug == slug)
  }

  /** `getBlogPostBySlug(slug)`. */
  function GetBlogPostBySlug(slug: string): (r: Option<Post>)
    ensures r.Some? ==> r.value in MockPosts && r.value.slug == slug
    ensures r.None? <==> forall p :: p in MockPosts ==> p.slug != slug
  {
    FindBySlug(MockPosts, slug)
  }

  /** Every built-in slug finds its own post. */
  lemma EverySlugFound(i: nat)
    requires i < |MockPosts|
    ensures GetBlogPostBySlug(MockPosts[i].slug) == Some(MockPosts[i])
  {
    SlugsDistinct();
    var r := GetBlogPostBySlug(MockPosts[i].slug);
    ghost var k :| 0 <= k < |MockPosts| && MockPosts[k] == r.value && r.value.slug == MockPosts[i].slug;
  }

  lemma SlugsDistinct()
    ensures forall i, j :: 0 <= i < j < |MockPosts| ==> MockPosts[i].slug != MockPosts[j].slug
  {
  }
}
