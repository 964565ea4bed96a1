/**
 * The `filtered` computation of the home page: the posts whose lower-cased
 * title or body contains the lower-cased query, in their original order, or
 * every post when the query is empty.
 */
module Home {
  import opened Social

  /** Lower-casing, over ASCII letters only. */
  function LowerChar(c: char): char {
    if 'A' <= c <= 'Z' then (c as int - 'A' as int + 'a' as int) as char else c
  }

  function Lower(s: string): (r: string)
    ensures |r| == |s|
    ensures forall i :: 0 <= i < |s| ==> r[i] == LowerChar(s[i])
  {
    seq(|s|, i requires 0 <= i < |s| => LowerChar(s[i]))
  }

  lemma LowerIdempotent(s: string)
    ensures Lower(Lower(s)) == Lower(s)
  {
  }

  ghost predicate OccursAt(hay: string, needle: string, i: int) {
    0 <= i <= |hay| - |needle| && hay[i..i + |needle|] == needle
  }

  /** `hay.includes(needle)`. */
  function Includes(hay: string, needle: string): (b: bool)
    ensures b <==> exists i :: OccursAt(hay, needle, i)
    decreases |hay|
  {
    if |needle| > |hay| then
      assert forall i :: !OccursAt(hay, needle, i);
      false
    else if hay[..|needle|] == needle then
      assert OccursAt(hay, needle, 0);
      true
    else
      var rest := Includes(hay[1..], needle);
      assert forall i :: OccursAt(hay[1..], needle, i) <==> OccursAt(hay, needle, i + 1) by {
        forall i ensures OccursAt(hay[1..], needle, i) <==> OccursAt(hay, needle, i + 1) {
          if 0 <= i <= |hay| - 1 - |needle| {
            assert hay[1..][i..i + |needle|] == hay[i + 1..i + 1 + |needle|];
          }
        }
      }
      assert !OccursAt(hay, needle, 0);
      assert (exists i :: OccursAt(hay, needle, i)) ==> exists i :: OccursAt(hay[1..], needle, i) by {
        if exists i :: OccursAt(hay, needle, i) {
          var i :| OccursAt(hay, needle, i);
          assert OccursAt(hay[1..], needle, i - 1);
        }
      }
      rest
  }

  /** Whether post `p` survives the filter for the already lower-cased query `q`. */
  predicate Matches(p: Post, q: string)
    ensures Matches(p, q) <==>
      (exists i :: OccursAt(Lower(p.title), q, i)) || (exists i :: OccursAt(Lower(p.body), q, i))
  {
    Includes(Lower(p.title), q) || Includes(Lower(p.body), q)
  }

  /** `data.filter(...)` for the lower-cased query `q`. */
  function Select(posts: seq<Post>, q: string): (r: seq<Post>)
    ensures |r| <= |posts|
    ensures forall p :: p in r ==> p in posts && Matches(p, q)
    ensures forall p :: multiset(r)[p] == if Matches(p, q) then multiset(posts)[p] else 0
  {
    if posts == [] then []
    else
      var rest := Select(posts[1..], q);
      assert posts == [posts[0]] + posts[1..];
      if Matches(posts[0], q) then [posts[0]] + rest else rest
  }

  /** The `filtered` computed, as a function of the `query` and `posts` snapshots. */
  function Filtered(posts: seq<Post>, query: string): (r: seq<Post>)
    ensures query == "" ==> r == posts
    ensures forall p :: p in r ==> p in posts && Matches(p, Lower(query))
    ensures forall p :: p in posts && Matches(p, Lower(query)) ==> p in r
    ensures forall p :: multiset(r)[p] == if Matches(p, Lower(query)) then multiset(posts)[p] else 0
    ensures IsSubsequence(r, posts)
  {
    var q := Lower(query);
    if q == "" then
      SelectEmptyQuery(posts);
      SubsequenceOfItself(posts);
      posts
    else
      SelectIsSubsequence(posts, q);
      Select(posts, q)
  }

  /** `r` is `s` with some elements dropped, order kept. */
  ghost predicate IsSubsequence(r: seq<Post>, s: seq<Post>)
    decreases |s|
  {
    if r == [] then true
    else if s == [] then false
    else (r[0] == s[0] && IsSubsequence(r[1..], s[1..])) || IsSubsequence(r, s[1..])
  }

  lemma {:induction false} SubsequenceOfItself(s: seq<Post>)
    ensures IsSubsequence(s, s)
    decreases |s|
  {
    if s != [] {
      SubsequenceOfItself(s[1..]);
    }
  }

  lemma {:induction false} SelectIsSubsequence(posts: seq<Post>, q: string)
    ensures IsSubsequence(Select(posts, q), posts)
    decreases |posts|
  {
    if posts != [] {
      SelectIsSubsequence(posts[1..], q);
      var r := Select(posts, q);
      if Matches(posts[0], q) {
        assert r[0] == posts[0] && r[1..] == Select(posts[1..], q);
      }
    }
  }

  /** Every string contains the empty string, so the early return for `!q` agrees with the filter. */
  lemma {:induction false} SelectEmptyQuery(posts: seq<Post>)
    ensures Select(posts, "") == posts
    decreases |posts|
  {
    if posts != [] {
      assert OccursAt(Lower(posts[0].title), "", 0);
      SelectEmptyQuery(posts[1..]);
    }
  }

  /** Matching is case-insensitive: the query and its lower-cased form filter alike. */
  lemma CaseInsensitive(posts: seq<Post>, query: string)
    ensures Filtered(posts, query) == Filtered(posts, Lower(query))
  {
    LowerIdempotent(query);
  }

  lemma {:induction false} SelectIdempotent(posts: seq<Post>, q: string)
    ensures Select(Select(posts, q), q) == Select(posts, q)
    decreases |posts|
  {
    if posts != [] {
      SelectIdempotent(posts[1..], q);
      if Matches(posts[0], q) {
        var r := Select(posts, q);
        assert r[0] == posts[0] && r[1..] == Select(posts[1..], q);
      }
    }
  }

  /** Filtering the result again with the same query changes nothing. */
  lemma FilterIdempotent(posts: seq<Post>, query: string)
    ensures Filtered(Filtered(posts, query), query) == Filtered(posts, query)
  {
    if Lower(query) != "" {
      SelectIdempotent(posts, Lower(query));
    }
  }
}
