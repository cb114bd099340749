/**
  The `order_by("-created_at")` part of the feed query: a newest-first sort of
  posts. The query names no tie-break, so the specification `NewestFirst`
  leaves the order of equal timestamps open; `SortedPermutationsAgree` shows
  that every newest-first permutation of the same posts lists the same
  timestamps, so the choice among ties is all that can differ.
 */
module Ordering {
  import opened Model

  /** Creation times never increase along the sequence. */
  predicate NewestFirst(s: seq<Post>)
  {
    forall i, j :: 0 <= i < j < |s| ==> s[i].createdAt >= s[j].createdAt
  }

  /** The creation times of the posts, in order. */
  function Stamps(s: seq<Post>): (r: seq<int>)
    ensures |r| == |s|
    ensures forall i :: 0 <= i < |s| ==> r[i] == s[i].createdAt
  {
    seq(|s|, i requires 0 <= i < |s| => s[i].createdAt)
  }

  /** Inserts `p` into a newest-first sequence, ahead of the posts that are not newer. */
  function Insert(p: Post, s: seq<Post>): (r: seq<Post>)
    requires NewestFirst(s)
    ensures NewestFirst(r)
    ensures multiset(r) == multiset(s) + multiset{p}
  {
    if s == [] || s[0].createdAt <= p.createdAt then
      [p] + s
    else
      var rest := Insert(p, s[1..]);
      assert s == [s[0]] + s[1..];
      HeadIsNewest(s[0], s[1..], p, rest);
      ConsNewestFirst(s[0], rest);
      [s[0]] + rest
  }

  /** A post at least as new as every element stays newest-first in front of them. */
  lemma ConsNewestFirst(h: Post, t: seq<Post>)
    requires NewestFirst(t)
    requires forall k :: 0 <= k < |t| ==> h.createdAt >= t[k].createdAt
    ensures NewestFirst([h] + t)
  {
    var r := [h] + t;
    forall i, j | 0 <= i < j < |r|
      ensures r[i].createdAt >= r[j].createdAt
    {
      assert r[j] == t[j - 1];
      if i > 0 {
        assert r[i] == t[i - 1];
      }
    }
  }

  /** The head of a newest-first sequence is as new as every post of a
      permutation of its tail plus an older post. */
  lemma HeadIsNewest(h: Post, t: seq<Post>, p: Post, rest: seq<Post>)
    requires NewestFirst([h] + t)
    requires p.createdAt < h.createdAt
    requires multiset(rest) == multiset(t) + multiset{p}
    ensures forall k :: 0 <= k < |rest| ==> h.createdAt >= rest[k].createdAt
  {
    forall k | 0 <= k < |rest|
      ensures h.createdAt >= rest[k].createdAt
    {
      assert rest[k] in multiset(rest);
      if rest[k] != p {
        assert rest[k] in multiset(t);
        var i :| 0 <= i < |t| && t[i] == rest[k];
        var r := [h] + t;
        assert r[0] == h && r[i + 1] == rest[k];
        assert r[0].createdAt >= r[i + 1].createdAt;
      }
    }
  }

  /** Sorts posts newest first. */
  function SortNewestFirst(s: seq<Post>): (r: seq<Post>)
    ensures NewestFirst(r)
    ensures multiset(r) == multiset(s)
  {
    if s == [] then []
    else
      assert s == [s[0]] + s[1..];
      Insert(s[0], SortNewestFirst(s[1..]))
  }

  /** The sequence with the element at position `j` dropped. */
  function Without(s: seq<Post>, j: nat): (r: seq<Post>)
    requires j < |s|
    ensures multiset(r) == multiset(s) - multiset{s[j]}
  {
    assert s == s[..j] + [s[j]] + s[j + 1..];
    s[..j] + s[j + 1..]
  }

  /** Dropping one element keeps a sequence newest-first. */
  lemma RemoveKeepsOrder(s: seq<Post>, j: nat)
    requires NewestFirst(s)
    requires j < |s|
    ensures NewestFirst(Without(s, j))
  {
    var t := s[..j] + s[j + 1..];
    forall a, b | 0 <= a < b < |t|
      ensures t[a].createdAt >= t[b].createdAt
    {
      var a' := if a < j then a else a + 1;
      var b' := if b < j then b else b + 1;
      assert t[a] == s[a'] && t[b] == s[b'];
    }
  }

  /** Every post ahead of the position where `b` holds the newest post of `a`
      has that post's timestamp. */
  lemma TiesAhead(a: seq<Post>, b: seq<Post>, j: nat)
    requires NewestFirst(a) && NewestFirst(b)
    requires multiset(a) == multiset(b)
    requires j < |b| && 0 < |a| && b[j] == a[0]
    ensures forall k :: 0 <= k <= j ==> b[k].createdAt == a[0].createdAt
  {
    forall k | 0 <= k <= j
      ensures b[k].createdAt == a[0].createdAt
    {
      assert b[k] in multiset(a);
      var i :| 0 <= i < |a| && a[i] == b[k];
      assert a[0].createdAt >= a[i].createdAt;
      assert b[k].createdAt >= b[j].createdAt;
    }
  }

  /** Removing a post from position `j` when everything ahead of it has the same
      timestamp is, on timestamps, the same as removing the head. */
  lemma StampsWithout(b: seq<Post>, j: nat)
    requires j < |b|
    requires forall k :: 0 <= k <= j ==> b[k].createdAt == b[j].createdAt
    ensures Stamps(b) == [b[j].createdAt] + Stamps(Without(b, j))
  {
    var b' := Without(b, j);
    var lhs, rhs := Stamps(b), [b[j].createdAt] + Stamps(b');
    forall k | 0 <= k < |lhs|
      ensures lhs[k] == rhs[k]
    {
      if k == 0 {
      } else if k <= j {
        assert b'[k - 1] == b[k - 1];
      } else {
        assert b'[k - 1] == b[k];
      }
    }
  }

  /** Two newest-first sequences holding the same posts list the same
      timestamps: they can differ only in how posts with equal timestamps are ordered. */
  lemma {:induction false} SortedPermutationsAgree(a: seq<Post>, b: seq<Post>)
    requires NewestFirst(a) && NewestFirst(b)
    requires multiset(a) == multiset(b)
    ensures Stamps(a) == Stamps(b)
    decreases |a|
  {
    if |a| == 0 {
      assert |b| == |multiset(b)| == 0;
    } else {
      var x := a[0];
      assert x in multiset(b);
      var j :| 0 <= j < |b| && b[j] == x;
      var a', b' := Without(a, 0), Without(b, j);
      RemoveKeepsOrder(a, 0);
      RemoveKeepsOrder(b, j);
      SortedPermutationsAgree(a', b');
      TiesAhead(a, b, j);
      StampsWithout(b, j);
      StampsWithout(a, 0);
    }
  }
}
