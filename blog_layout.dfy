/**
 * The blog listing page's controller: a search query, a sort order and a
 * view mode, and the memoised list `sort(filter(initialPosts, query), order)`
 * that is recomputed whenever the query or the order changes. The view mode
 * is not an input of the memoised list; it only selects the grid or list
 * layout.
 */
module BlogListing {
  import opened Posts
  import opened PostOrder

  /** The list the page shows for a query and an order. */
  function VisiblePosts(posts: seq<Post>, searchQuery: string, sortOrder: string): (r: seq<Post>)
    ensures multiset(r) == multiset(FilterPosts(posts, searchQuery))
    ensures |r| <= |posts|
  {
    SortPosts(FilterPosts(posts, searchQuery), Latest(sortOrder))
  }

  /**
   * The memo callback: filter into a fresh array, then sort that array in
   * place. The input sequence itself is never reordered.
   */
  method ComputeVisible(posts: seq<Post>, searchQuery: string, sortOrder: string)
    returns (visible: seq<Post>)
    ensures visible == VisiblePosts(posts, searchQuery, sortOrder)
  {
    var filtered := FilterPosts(posts, searchQuery);
    var a := new Post[|filtered|](k requires 0 <= k < |filtered| => filtered[k]);
    assert a[..] == filtered;
    SortInPlace(a, Latest(sortOrder));
    visible := a[..];
  }

  datatype LayoutKind = Grid | List

  /** Only the exact string "grid" selects the grid; every other value lays posts out as a list. */
  function LayoutFor(viewMode: string): (k: LayoutKind)
    ensures k == Grid <==> viewMode == "grid"
  {
    if viewMode == "grid" then Grid else List
  }

  /**
   * What the page shows: the posts that match the query, each exactly as
   * often as in the input, ordered by date in the direction the order
   * string selects, with equally dated posts in input order.
   */
  lemma VisibleContents(posts: seq<Post>, searchQuery: string, sortOrder: string)
    ensures var v := VisiblePosts(posts, searchQuery, sortOrder);
      && multiset(v) == multiset(FilterPosts(posts, searchQuery))
      && multiset(v) <= multiset(posts)
      && |v| <= |posts|
      && (forall p :: p in v <==> p in posts && Matches(p, searchQuery))
      && Sorted(v, Latest(sortOrder))
      && (forall t :: PublishedAt(v, t) == PublishedAt(FilterPosts(posts, searchQuery), t))
  {
    var f := FilterPosts(posts, searchQuery);
    var v := SortPosts(f, Latest(sortOrder));
    FilterKeepsMatches(posts, searchQuery);
    SortPostsSorted(f, Latest(sortOrder));
    forall t ensures PublishedAt(v, t) == PublishedAt(f, t) {
      SortPostsStable(f, Latest(sortOrder), t);
    }
    forall p ensures p in v <==> p in f {
      assert p in v <==> p in multiset(v);
      assert p in f <==> p in multiset(f);
    }
  }

  /** A blank query shows every post (reordered by date only). */
  lemma BlankQueryShowsAll(posts: seq<Post>, searchQuery: string, sortOrder: string)
    requires NormalizeQuery(searchQuery) == []
    ensures VisiblePosts(posts, searchQuery, sortOrder) == SortPosts(posts, Latest(sortOrder))
    ensures multiset(VisiblePosts(posts, searchQuery, sortOrder)) == multiset(posts)
  {
    FilterBlankQuery(posts, searchQuery);
  }

  /** The listing state and its memoised, filtered and sorted list. */
  class BlogLayout {
    const initialPosts: seq<Post>
    var searchQuery: string
    var sortOrder: string
    var viewMode: string
    var filteredAndSortedPosts: seq<Post>

    /** The memoised list is up to date with the query and the order. */
    ghost predicate Valid()
      reads this
    {
      filteredAndSortedPosts == VisiblePosts(initialPosts, searchQuery, sortOrder)
    }

    constructor (initialPosts: seq<Post>)
      ensures Valid()
      ensures this.initialPosts == initialPosts
      ensures searchQuery == "" && sortOrder == "latest" && viewMode == "grid"
    {
      var query, order := "", "latest";
      var visible := ComputeVisible(initialPosts, query, order);
      this.initialPosts := initialPosts;
      searchQuery := query;
      sortOrder := order;
      viewMode := "grid";
      filteredAndSortedPosts := visible;
    }

    /** `setSearchQuery`: the query is a dependency, so the list is recomputed. */
    method SetSearchQuery(query: string)
      requires Valid()
      modifies this
      ensures Valid()
      ensures searchQuery == query
      ensures sortOrder == old(sortOrder) && viewMode == old(viewMode)
    {
      var visible := ComputeVisible(initialPosts, query, sortOrder);
      searchQuery := query;
      filteredAndSortedPosts := visible;
    }

    /** `setSortOrder`: any string is accepted; the list is recomputed. */
    method SetSortOrder(order: string)
      requires Valid()
      modifies this
      ensures Valid()
      ensures sortOrder == order
      ensures searchQuery == old(searchQuery) && viewMode == old(viewMode)
    {
      var visible := ComputeVisible(initialPosts, searchQuery, order);
      sortOrder := order;
      filteredAndSortedPosts := visible;
    }

    /** `setViewMode`: not a dependency of the memo, so the list and its count stay as they were. */
    method SetViewMode(mode: string)
      requires Valid()
      modifies this
      ensures Valid()
      ensures viewMode == mode
      ensures filteredAndSortedPosts == old(filteredAndSortedPosts)
      ensures searchQuery == old(searchQuery) && sortOrder == old(sortOrder)
    {
      viewMode := mode;
    }

    /** The count handed to the controls bar. */
    function TotalResults(): nat
      reads this
    {
      |filteredAndSortedPosts|
    }

    /** The "No posts found" message replaces the post grid. */
    predicate ShowsNoPostsFound()
      reads this
    {
      |filteredAndSortedPosts| == 0
    }

    /** The hero badge counts every post, whatever the query. */
    function HeroCount(): nat {
      |initialPosts|
    }

    function Layout(): LayoutKind
      reads this
    {
      LayoutFor(viewMode)
    }
  }

  /**
   * The count matches what is shown, never exceeds the hero count, and the
   * "No posts found" branch is taken exactly when no post matches the query.
   */
  lemma CountConsistency(page: BlogLayout)
    requires page.Valid()
    ensures page.TotalResults() == |page.filteredAndSortedPosts| <= page.HeroCount()
    ensures page.ShowsNoPostsFound() <==> forall p :: p in page.initialPosts ==> !Matches(p, page.searchQuery)
  {
    FilterEmptyIff(page.initialPosts, page.searchQuery);
  }
}
