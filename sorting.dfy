/**
 * The listing's date order. The comparator passed to `Array.prototype.sort`
 * returns `dateB - dateA` for the order "latest" and `dateA - dateB` for any
 * other order string; the engine's sort is stable, so the result is the
 * stable sort by that comparator. `SortPosts` is that stable sort written
 * as an insertion sort on sequences; `SortInPlace` runs it on an array.
 */
module PostOrder {
  import opened Posts

  /** Whether the order string selects newest-first. */
  predicate Latest(sortOrder: string) {
    sortOrder == "latest"
  }

  /**
   * The comparator: negative or zero lets `a` stay before `b`, which holds
   * when `a` is not older than `b` for "latest" and not newer otherwise.
   */
  function Compare(a: Post, b: Post, latest: bool): int {
    if latest then b.publishedAt - a.publishedAt
    else a.publishedAt - b.publishedAt
  }

  /** What the comparator's sign means for the two dates. */
  lemma CompareOrder(a: Post, b: Post, latest: bool)
    ensures Compare(a, b, latest) <= 0 <==>
      if latest then a.publishedAt >= b.publishedAt else a.publishedAt <= b.publishedAt
    ensures Compare(a, b, latest) == 0 <==> a.publishedAt == b.publishedAt
  {
  }

  /** Every earlier element may stay before every later one. */
  ghost predicate Sorted(s: seq<Post>, latest: bool) {
    forall i, j :: 0 <= i < j < |s| ==> Compare(s[i], s[j], latest) <= 0
  }

  /** Inserts `x` behind every element that the comparator lets precede it. */
  function Insert(s: seq<Post>, x: Post, latest: bool): (r: seq<Post>)
    ensures |r| == |s| + 1
  {
    if s == [] || Compare(s[|s| - 1], x, latest) <= 0 then s + [x]
    else Insert(s[..|s| - 1], x, latest) + [s[|s| - 1]]
  }

  /** Inserting adds exactly `x` to the multiset of elements. */
  lemma {:induction false} InsertPermutes(s: seq<Post>, x: Post, latest: bool)
    ensures multiset(Insert(s, x, latest)) == multiset(s) + multiset{x}
  {
    if s != [] && Compare(s[|s| - 1], x, latest) > 0 {
      InsertPermutes(s[..|s| - 1], x, latest);
      assert s == s[..|s| - 1] + [s[|s| - 1]];
    }
  }

  /** `x` goes in front of a tail of elements that it must precede. */
  lemma {:induction false} InsertPastTail(s: seq<Post>, j: int, x: Post, latest: bool)
    requires 0 <= j <= |s|
    requires forall k :: j <= k < |s| ==> Compare(s[k], x, latest) > 0
    ensures Insert(s, x, latest) == Insert(s[..j], x, latest) + s[j..]
    decreases |s| - j
  {
    if j == |s| {
      assert s[..j] == s && s[j..] == [];
    } else {
      var init := s[..|s| - 1];
      InsertPastTail(init, j, x, latest);
      assert init[..j] == s[..j];
      assert init[j..] + [s[|s| - 1]] == s[j..];
    }
  }

  /** Where the inner loop stops, `x` goes right behind the elements it may follow. */
  lemma InsertStop(s: seq<Post>, j: int, x: Post, latest: bool)
    requires 0 <= j <= |s| && (j == 0 || Compare(s[j - 1], x, latest) <= 0)
    ensures Insert(s[..j], x, latest) == s[..j] + [x]
  {
  }

  /** Stable insertion sort by the comparator. */
  function SortPosts(s: seq<Post>, latest: bool): (r: seq<Post>)
    ensures multiset(r) == multiset(s)
    ensures |r| == |s|
  {
    if s == [] then []
    else
      assert s == s[..|s| - 1] + [s[|s| - 1]];
      InsertPermutes(SortPosts(s[..|s| - 1], latest), s[|s| - 1], latest);
      Insert(SortPosts(s[..|s| - 1], latest), s[|s| - 1], latest)
  }

  lemma {:induction false} InsertSorted(s: seq<Post>, x: Post, latest: bool)
    requires Sorted(s, latest)
    ensures Sorted(Insert(s, x, latest), latest)
  {
    if s != [] && Compare(s[|s| - 1], x, latest) > 0 {
      var init, last := s[..|s| - 1], s[|s| - 1];
      InsertSorted(init, x, latest);
      InsertBelow(init, x, last, latest);
    }
  }

  /** Everything inserted below a bound stays below it. */
  lemma InsertBelow(s: seq<Post>, x: Post, bound: Post, latest: bool)
    requires forall k :: 0 <= k < |s| ==> Compare(s[k], bound, latest) <= 0
    requires Compare(x, bound, latest) <= 0
    ensures forall k :: 0 <= k < |s| + 1 ==> Compare(Insert(s, x, latest)[k], bound, latest) <= 0
  {
    var r := Insert(s, x, latest);
    InsertPermutes(s, x, latest);
    forall k | 0 <= k < |r| ensures Compare(r[k], bound, latest) <= 0 {
      assert r[k] in multiset(r);
      assert r[k] == x || r[k] in s;
    }
  }

  /** Sort property: the comparator lets every element precede every later one. */
  lemma {:induction false} SortPostsSorted(s: seq<Post>, latest: bool)
    ensures Sorted(SortPosts(s, latest), latest)
  {
    if s != [] {
      SortPostsSorted(s[..|s| - 1], latest);
      InsertSorted(SortPosts(s[..|s| - 1], latest), s[|s| - 1], latest);
    }
  }

  /**
   * The direction of the sorted list: timestamps never increase with
   * "latest" and never decrease with any other order string.
   */
  lemma SortDirection(s: seq<Post>, sortOrder: string, i: int)
    requires 0 <= i < |s| - 1
    ensures var r := SortPosts(s, Latest(sortOrder));
      if sortOrder == "latest" then r[i].publishedAt >= r[i + 1].publishedAt
      else r[i].publishedAt <= r[i + 1].publishedAt
  {
    SortPostsSorted(s, Latest(sortOrder));
  }

  /** The posts of `s` published at instant `t`, in order. */
  ghost function PublishedAt(s: seq<Post>, t: int): seq<Post> {
    if s == [] then []
    else PublishedAt(s[..|s| - 1], t) + (if s[|s| - 1].publishedAt == t then [s[|s| - 1]] else [])
  }

  lemma {:induction false} PublishedAtAppend(a: seq<Post>, b: seq<Post>, t: int)
    ensures PublishedAt(a + b, t) == PublishedAt(a, t) + PublishedAt(b, t)
  {
    if b == [] {
      assert a + b == a;
    } else {
      var n := |b| - 1;
      assert (a + b)[..|a + b| - 1] == a + b[..n];
      PublishedAtAppend(a, b[..n], t);
    }
  }

  lemma {:induction false} InsertStable(s: seq<Post>, x: Post, latest: bool, t: int)
    ensures PublishedAt(Insert(s, x, latest), t)
         == PublishedAt(s, t) + (if x.publishedAt == t then [x] else [])
  {
    if s == [] || Compare(s[|s| - 1], x, latest) <= 0 {
      PublishedAtAppend(s, [x], t);
    } else {
      var init, last := s[..|s| - 1], s[|s| - 1];
      InsertStable(init, x, latest, t);
      PublishedAtAppend(Insert(init, x, latest), [last], t);
      PublishedAtAppend(init, [last], t);
      assert init + [last] == s;
    }
  }

  /** Stability: posts published at the same instant keep their input order. */
  lemma {:induction false} SortPostsStable(s: seq<Post>, latest: bool, t: int)
    ensures PublishedAt(SortPosts(s, latest), t) == PublishedAt(s, t)
  {
    if s != [] {
      var init := s[..|s| - 1];
      SortPostsStable(init, latest, t);
      InsertStable(SortPosts(init, latest), s[|s| - 1], latest, t);
    }
  }

  /** Sorting a sorted list changes nothing; in particular sorting twice is sorting once. */
  lemma {:induction false} SortPostsOfSorted(s: seq<Post>, latest: bool)
    requires Sorted(s, latest)
    ensures SortPosts(s, latest) == s
  {
    if s != [] {
      var n := |s| - 1;
      SortedPrefix(s, n, latest);
      SortPostsOfSorted(s[..n], latest);
      InsertStop(s, n, s[n], latest);
      assert s[..n] + [s[n]] == s;
    }
  }

  /** Every prefix of a sorted list is sorted. */
  lemma SortedPrefix(s: seq<Post>, n: int, latest: bool)
    requires Sorted(s, latest) && 0 <= n <= |s|
    ensures Sorted(s[..n], latest)
  {
    forall i, j | 0 <= i < j < n ensures Compare(s[..n][i], s[..n][j], latest) <= 0 {
      assert s[..n][i] == s[i] && s[..n][j] == s[j];
    }
  }

  lemma SortPostsIdempotent(s: seq<Post>, latest: bool)
    ensures SortPosts(SortPosts(s, latest), latest) == SortPosts(s, latest)
  {
    SortPostsSorted(s, latest);
    SortPostsOfSorted(SortPosts(s, latest), latest);
  }

  /** `filtered.sort(comparator)`: an in-place stable insertion sort. */
  method SortInPlace(a: array<Post>, latest: bool)
    modifies a
    ensures a[..] == SortPosts(old(a[..]), latest)
  {
    ghost var input := a[..];
    var i := 0;
    while i < a.Length
      invariant 0 <= i <= a.Length
      invariant a[..i] == SortPosts(input[..i], latest)
      invariant a[i..] == input[i..]
    {
      ghost var prefix := input[..i + 1];
      assert prefix[..i] == input[..i] && prefix[i] == input[i] == a[i];
      assert a[i + 1..] == input[i + 1..] by {
        assert a[i + 1..] == a[i..][1..] && input[i + 1..] == input[i..][1..];
      }
      InsertInPlace(a, i, latest);
      assert a[..i + 1] == SortPosts(prefix, latest);
      i := i + 1;
    }
    assert input[..a.Length] == input;
  }

  /** One pass of the outer loop: moves `a[i]` into the sorted prefix `a[..i]`. */
  method InsertInPlace(a: array<Post>, i: int, latest: bool)
    requires 0 <= i < a.Length
    modifies a
    ensures a[..i + 1] == Insert(old(a[..i]), old(a[i]), latest)
    ensures a[i + 1..] == old(a[i + 1..])
  {
    var key := a[i];
    ghost var done := a[..i];
    var j := i;
    while j > 0 && Compare(a[j - 1], key, latest) > 0
      invariant 0 <= j <= i
      invariant forall k :: 0 <= k < j ==> a[k] == done[k]
      invariant forall k :: j < k <= i ==> a[k] == done[k - 1]
      invariant forall k :: i < k < a.Length ==> a[k] == old(a[k])
      invariant forall k :: j <= k < i ==> Compare(done[k], key, latest) > 0
    {
      a[j] := a[j - 1];
      j := j - 1;
    }
    a[j] := key;
    ghost var expected := done[..j] + [key] + done[j..];
    assert Insert(done, key, latest) == expected by {
      InsertPastTail(done, j, key, latest);
      InsertStop(done, j, key, latest);
    }
    assert a[..i + 1] == expected by {
      forall k | 0 <= k <= i ensures a[k] == expected[k] {
        if k < j {
          assert expected[k] == done[k];
        } else if k > j {
          assert expected[k] == done[k - 1];
        }
      }
    }
  }
}
