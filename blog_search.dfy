/**
 * The search widget: a query field, a `isSearching` flag and the results it
 * reports to its parent through `onSearchResults`. A change of the query
 * runs the effect, which reports every post at once for a blank query and
 * otherwise raises `isSearching` and leaves the filtering to a second step
 * (the debounced callback), which reports the matching posts together with
 * the raw query. `SearchResultsInfo` picks the header above the results.
 */
module BlogSearch {
  import opened Wrappers
  import opened Text
  import opened Posts

  /** The suggestion buttons shown under an empty field. */
  const PopularSearches: seq<string> :=
    ["kitchen gadgets", "smart home", "organization", "cleaning tips", "meal prep"]

  /** Every suggestion has a letter in it, so clicking one starts the debounced search. */
  lemma PopularSearchStartsSearch(term: string)
    requires term in PopularSearches
    ensures !IsBlank(term)
  {
    TrimEmptyIff(term);
    assert !IsWhitespace(term[0]);
  }

  /** One call of `onSearchResults(results, query)`. */
  datatype Report = Report(results: seq<Post>, query: string)

  /** `searchQuery.trim() === ""`. */
  predicate IsBlank(query: string) {
    Trim(query) == []
  }

  /**
   * The report that settles a query: all posts with query `""` for a blank
   * query, else the posts the match predicate keeps, with the raw query.
   */
  function SearchOutcome(posts: seq<Post>, query: string): (r: Report)
    ensures r.query == "" <==> IsBlank(query)
    ensures r.query != "" ==> r.query == query
    ensures |r.results| <= |posts|
  {
    if IsBlank(query) then Report(posts, "") else Report(FilterPosts(posts, query), query)
  }

  /** A query that is not blank stays non-empty once lower-cased and trimmed. */
  lemma NormalizeBlankIff(query: string)
    ensures NormalizeQuery(query) == [] <==> IsBlank(query)
  {
    LowerTrimCommute(query);
  }

  /**
   * The widget reports exactly the posts the listing's filter keeps: the
   * blank-query shortcut returns what the filter would return anyway.
   */
  lemma SearchOutcomeResults(posts: seq<Post>, query: string)
    ensures SearchOutcome(posts, query).results == FilterPosts(posts, query)
  {
    if IsBlank(query) {
      NormalizeBlankIff(query);
      FilterBlankQuery(posts, query);
    }
  }

  /**
   * For a query that is not blank, a post is reported iff the normalised
   * query occurs in its lower-cased title, excerpt or category; the reported
   * posts keep the input order.
   */
  lemma SearchOutcomeContents(posts: seq<Post>, query: string)
    requires !IsBlank(query)
    ensures var r := SearchOutcome(posts, query);
      var q := NormalizeQuery(query);
      && IsSubsequence(r.results, posts)
      && forall p :: p in r.results <==>
           (p in posts && (MentionsQuery(p.title, q) || MentionsQuery(p.excerpt, q)
              || (p.category.Some? && MentionsQuery(p.category.value, q))))
  {
    NormalizeBlankIff(query);
    FilterKeepsMatches(posts, query);
    FilterIsSubsequence(posts, query);
    forall p ensures Matches(p, query) <==>
      var q := NormalizeQuery(query);
      MentionsQuery(p.title, q) || MentionsQuery(p.excerpt, q)
      || (p.category.Some? && MentionsQuery(p.category.value, q))
    {
      MatchesIff(p, query);
    }
  }

  /**
   * The widget's state. `pending` is the query captured by the scheduled
   * second step, if one is scheduled; scheduling a new one (or clearing)
   * replaces it, as the effect's cleanup cancels the old timer.
   */
  class SearchWidget {
    const posts: seq<Post>
    var searchQuery: string
    var isSearching: bool
    var pending: Option<string>
    var reports: seq<Report>

    /**
     * The spinner is on exactly while a second step is pending, for the
     * current, non-blank query; once it is off, the last report is the
     * outcome of the current query.
     */
    ghost predicate Valid()
      reads this
    {
      && isSearching == pending.Some?
      && (pending.Some? ==> pending.value == searchQuery && !IsBlank(searchQuery))
      && (!isSearching ==> reports != [] && reports[|reports| - 1] == SearchOutcome(posts, searchQuery))
    }

    /** Mounting runs the effect once for the empty query. */
    constructor (posts: seq<Post>)
      ensures Valid()
      ensures this.posts == posts && searchQuery == "" && !isSearching
      ensures reports == [Report(posts, "")]
    {
      this.posts := posts;
      searchQuery := "";
      isSearching := false;
      pending := None;
      reports := [Report(posts, "")];
    }

    /** The effect body after the query changed; the previous second step is cancelled first. */
    method RunEffect()
      modifies this
      ensures Valid()
      ensures searchQuery == old(searchQuery)
      ensures IsBlank(searchQuery) ==>
        !isSearching && pending == None && reports == old(reports) + [Report(posts, "")]
      ensures !IsBlank(searchQuery) ==>
        isSearching && pending == Some(searchQuery) && reports == old(reports)
    {
      pending := None;
      if IsBlank(searchQuery) {
        reports := reports + [Report(posts, "")];
        isSearching := false;
      } else {
        isSearching := true;
        pending := Some(searchQuery);
      }
    }

    /** `setSearchQuery(value)`: the effect runs only when the value differs from the current query. */
    method SetSearchQuery(value: string)
      requires Valid()
      modifies this
      ensures Valid()
      ensures searchQuery == value
      ensures value == old(searchQuery) ==>
        isSearching == old(isSearching) && pending == old(pending) && reports == old(reports)
      ensures value != old(searchQuery) && IsBlank(value) ==>
        !isSearching && pending == None && reports == old(reports) + [Report(posts, "")]
      ensures value != old(searchQuery) && !IsBlank(value) ==>
        isSearching && pending == Some(value) && reports == old(reports)
    {
      if value != searchQuery {
        searchQuery := value;
        RunEffect();
      }
    }

    /** The second step: filters with the captured query and reports it raw. */
    method TimerFires()
      requires Valid()
      modifies this
      ensures Valid()
      ensures searchQuery == old(searchQuery) && !isSearching && pending == None
      ensures old(pending).Some? ==>
        reports == old(reports) + [Report(FilterPosts(posts, old(searchQuery)), old(searchQuery))]
      ensures old(pending).None? ==> reports == old(reports)
    {
      if pending.Some? {
        var query := pending.value;
        var filtered := FilterPosts(posts, query);
        reports := reports + [Report(filtered, query)];
        isSearching := false;
        pending := None;
      }
    }

    /**
     * `handlePopularSearch(term)`: sets the query to the term; the effect
     * then runs as for any change of the query.
     */
    method HandlePopularSearch(term: string)
      requires Valid()
      modifies this
      ensures Valid()
      ensures searchQuery == term
      ensures term == old(searchQuery) ==> reports == old(reports) && isSearching == old(isSearching)
      ensures term != old(searchQuery) && !IsBlank(term) ==>
        isSearching && pending == Some(term) && reports == old(reports)
      ensures term != old(searchQuery) && IsBlank(term) ==>
        !isSearching && reports == old(reports) + [Report(posts, "")]
    {
      SetSearchQuery(term);
    }

    /**
     * `handleClear`: reports every post at once, then empties the query,
     * whose effect (when the query was not already empty) reports every post
     * again and drops any pending second step.
     */
    method HandleClear()
      requires Valid()
      modifies this
      ensures Valid()
      ensures searchQuery == "" && !isSearching && pending == None
      ensures reports == old(reports) + [Report(posts, "")]
        + (if old(searchQuery) != "" then [Report(posts, "")] else [])
    {
      reports := reports + [Report(posts, "")];
      if searchQuery != "" {
        searchQuery := "";
        RunEffect();
      }
    }
  }

  /** The header `SearchResultsInfo` renders. */
  datatype ResultsHeader =
    | Searching
    | AllArticles(total: nat)
    | SearchResults(total: nat, noun: string, query: string)

  /**
   * The spinner wins; an empty query shows "All Articles (n)"; anything else
   * shows "Search Results" with "article" for exactly one result and
   * "articles" otherwise.
   */
  function ResultsInfo(totalResults: nat, searchQuery: string, isSearching: bool): (h: ResultsHeader)
    ensures h.Searching? <==> isSearching
    ensures h.AllArticles? <==> !isSearching && searchQuery == ""
    ensures h.AllArticles? ==> h.total == totalResults
    ensures h.SearchResults? ==> h.total == totalResults && h.query == searchQuery
    ensures h.SearchResults? ==> (h.noun == "article" <==> totalResults == 1)
    ensures h.SearchResults? ==> h.noun in {"article", "articles"}
  {
    if isSearching then Searching
    else if searchQuery == "" then AllArticles(totalResults)
    else SearchResults(totalResults, if totalResults == 1 then "article" else "articles", searchQuery)
  }

  /**
   * The header for a settled report: "All Articles" with every post for a
   * blank query, otherwise "Search Results" counting the matching posts and
   * echoing the raw query.
   */
  lemma HeaderForOutcome(posts: seq<Post>, query: string)
    ensures var r := SearchOutcome(posts, query);
      var h := ResultsInfo(|r.results|, r.query, false);
      && (IsBlank(query) ==> h == AllArticles(|posts|))
      && (!IsBlank(query) ==> h.SearchResults? && h.total == |FilterPosts(posts, query)| && h.query == query)
  {
  }
}
