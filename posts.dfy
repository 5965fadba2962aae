/**
 * A blog post as the listing and the search widget see it, and the
 * free-text match predicate the two components share (both filter with
 * the same title / excerpt / optional category test).
 */
module Posts {
  import opened Wrappers
  import opened Text

  /** `publishedAt` is the instant the date string parses to, in milliseconds. */
  datatype Post = Post(
    id: string,
    title: string,
    excerpt: string,
    category: Option<string>,
    publishedAt: int)

  /** The query as the filter sees it: lower-cased, then trimmed. */
  function NormalizeQuery(query: string): string {
    Trim(Lower(query))
  }

  /**
   * The filter callback: an empty normalised query keeps every post;
   * otherwise the query must occur in the lower-cased title, excerpt or
   * (when present) category. The `!query` shortcut gives what the field
   * tests alone would, since every string includes the empty string.
   */
  predicate Matches(post: Post, query: string): (b: bool)
    ensures var q := NormalizeQuery(query);
      b <==> (Includes(Lower(post.title), q) || Includes(Lower(post.excerpt), q)
        || (post.category.Some? && Includes(Lower(post.category.value), q)))
  {
    var q := NormalizeQuery(query);
    q == []
    || Includes(Lower(post.title), q)
    || Includes(Lower(post.excerpt), q)
    || (post.category.Some? && Includes(Lower(post.category.value), q))
  }

  /** Case-insensitive substring containment, stated by occurrence positions. */
  ghost predicate MentionsQuery(text: string, q: string) {
    exists i: nat :: OccursAt(Lower(text), q, i)
  }

  /** For a query that is not blank, a post matches iff the normalised query occurs in one of its fields. */
  lemma MatchesIff(post: Post, query: string)
    requires NormalizeQuery(query) != []
    ensures Matches(post, query) <==>
      var q := NormalizeQuery(query);
      MentionsQuery(post.title, q) || MentionsQuery(post.excerpt, q)
      || (post.category.Some? && MentionsQuery(post.category.value, q))
  {
    var q := NormalizeQuery(query);
    IncludesIff(Lower(post.title), q);
    IncludesIff(Lower(post.excerpt), q);
    if post.category.Some? {
      IncludesIff(Lower(post.category.value), q);
    }
  }

  /** A query made only of white space (or empty) keeps every post. */
  lemma BlankQueryMatchesAll(post: Post, query: string)
    requires forall i :: 0 <= i < |query| ==> IsWhitespace(query[i])
    ensures Matches(post, query)
  {
    var l := Lower(query);
    forall i | 0 <= i < |l| ensures IsWhitespace(l[i]) {
      LowerCharWhitespace(query[i]);
    }
    TrimEmptyIff(l);
  }

  /** `posts.filter(post => Matches(post, query))`. */
  function FilterPosts(posts: seq<Post>, query: string): (r: seq<Post>)
    ensures |r| <= |posts|
  {
    if posts == [] then []
    else
      var rest := FilterPosts(posts[1..], query);
      assert posts == [posts[0]] + posts[1..];
      if Matches(posts[0], query) then [posts[0]] + rest else rest
  }

  /** The filter keeps exactly the matching posts, each as often as it occurs in the input. */
  lemma {:induction false} FilterKeepsMatches(posts: seq<Post>, query: string)
    ensures var r := FilterPosts(posts, query);
      && (forall p :: p in r <==> p in posts && Matches(p, query))
      && (forall p :: multiset(r)[p] == if Matches(p, query) then multiset(posts)[p] else 0)
  {
    if posts != [] {
      FilterKeepsMatches(posts[1..], query);
      assert posts == [posts[0]] + posts[1..];
    }
  }

  /** A blank query keeps every post, in order. */
  lemma {:induction false} FilterBlankQuery(posts: seq<Post>, query: string)
    requires NormalizeQuery(query) == []
    ensures FilterPosts(posts, query) == posts
  {
    if posts != [] {
      assert Matches(posts[0], query) by {
        assert NormalizeQuery(query) == [];
      }
      FilterBlankQuery(posts[1..], query);
      assert [posts[0]] + posts[1..] == posts;
    }
  }

  /** `r` is `s` with some elements deleted and the rest kept in order. */
  ghost predicate IsSubsequence(r: seq<Post>, s: seq<Post>)
    decreases |s|
  {
    if r == [] then true
    else if s == [] then false
    else (r[0] == s[0] && IsSubsequence(r[1..], s[1..])) || IsSubsequence(r, s[1..])
  }

  /** The filtered list keeps the input's order. */
  lemma {:induction false} FilterIsSubsequence(posts: seq<Post>, query: string)
    ensures IsSubsequence(FilterPosts(posts, query), posts)
  {
    if posts != [] {
      FilterIsSubsequence(posts[1..], query);
      var rest := FilterPosts(posts[1..], query);
      if Matches(posts[0], query) {
        assert ([posts[0]] + rest)[1..] == rest;
      }
    }
  }

  /** The filtered list is empty exactly when no post matches the query. */
  lemma FilterEmptyIff(posts: seq<Post>, query: string)
    ensures FilterPosts(posts, query) == [] <==> forall p :: p in posts ==> !Matches(p, query)
  {
    FilterKeepsMatches(posts, query);
    var r := FilterPosts(posts, query);
    if r != [] {
      assert r[0] in r;
    }
  }
}
