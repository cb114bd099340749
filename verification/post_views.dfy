/**
  The post endpoints: the follow-based feed and the like / unlike toggle,
  each a transition from a state to a response and a new state.
 */
module PostViews {
  import opened Model
  import opened Ordering
  import opened NotificationUtils

  const AlreadyLiked: string := "Already liked"
  const PostLiked: string := "Post liked"
  const LikeRemoved: string := "Like removed"
  const NoLikeToRemove: string := "No like to remove"
  /** The body the framework sends when `get_object_or_404` finds no row. */
  const NotFoundDetail: string := "Not found."

  /** `Post.objects.filter(author__in=authors)`, in storage order. */
  function PostsByAuthors(posts: seq<Post>, authors: set<UserId>): (r: seq<Post>)
    ensures forall p :: multiset(r)[p] == if p.author in authors then multiset(posts)[p] else 0
  {
    if posts == [] then []
    else
      assert posts == [posts[0]] + posts[1..];
      (if posts[0].author in authors then [posts[0]] else []) + PostsByAuthors(posts[1..], authors)
  }

  /** What a feed for `u` must be: the posts by the users `u` follows, each as
      often as it is stored, newest first; equal timestamps may come in any order. */
  ghost predicate IsFeed(st: State, u: UserId, r: seq<Post>)
  {
    && NewestFirst(r)
    && forall p :: multiset(r)[p] == if p.author in Following(st, u) then multiset(st.posts)[p] else 0
  }

  /** `feed`: the posts of followed users, newest first. */
  function Feed(st: State, u: UserId): (r: seq<Post>)
    ensures NewestFirst(r)
    ensures forall p :: multiset(r)[p] == if p.author in Following(st, u) then multiset(st.posts)[p] else 0
    ensures forall p :: p in r <==> p in st.posts && p.author in Following(st, u)
    ensures Following(st, u) == {} ==> r == []
  {
    var r := SortNewestFirst(PostsByAuthors(st.posts, Following(st, u)));
    assert forall p :: p in r <==> multiset(r)[p] > 0;
    assert Following(st, u) == {} ==> multiset(r) == multiset{};
    r
  }

  /** `like_post`: unknown post is 404; an existing like is reported and nothing
      changes; otherwise the like is stored and the author is notified unless
      they liked their own post. */
  function LikePost(st: State, caller: UserId, pk: PostId): (r: (Response, State))
    ensures FindPost(st.posts, pk).None? ==> r == (Response(NotFound, NotFoundDetail), st)
    ensures FindPost(st.posts, pk).Some? && Like(caller, pk) in st.likes ==>
      r == (Response(Ok, AlreadyLiked), st)
    ensures FindPost(st.posts, pk).Some? && Like(caller, pk) !in st.likes ==>
      var author := FindPost(st.posts, pk).value.author;
      && r.0 == Response(Created, PostLiked)
      && r.1.likes == st.likes + {Like(caller, pk)}
      && r.1.users == st.users && r.1.following == st.following && r.1.posts == st.posts
      && r.1.notifications ==
           st.notifications + (if caller == author then [] else [LikeNotice(author, caller, pk)])
  {
    match FindPost(st.posts, pk)
    case None => (Response(NotFound, NotFoundDetail), st)
    case Some(post) =>
      if Like(caller, pk) in st.likes then
        (Response(Ok, AlreadyLiked), st)
      else
        var liked := st.(likes := st.likes + {Like(caller, pk)});
        var (_, log) := CreateNotificationForLike(liked.notifications, caller, post.author, post);
        LikeNotificationShape(liked.notifications, caller, post.author, post);
        (Response(Created, PostLiked), liked.(notifications := log))
  }

  /** `unlike_post`: unknown post is 404; an existing like is deleted; with no
      like to delete the answer is 400 and nothing changes. No notification is
      ever added or retracted. */
  function UnlikePost(st: State, caller: UserId, pk: PostId): (r: (Response, State))
    ensures FindPost(st.posts, pk).None? ==> r == (Response(NotFound, NotFoundDetail), st)
    ensures FindPost(st.posts, pk).Some? && Like(caller, pk) in st.likes ==>
      && r.0 == Response(Ok, LikeRemoved)
      && r.1 == st.(likes := st.likes - {Like(caller, pk)})
    ensures FindPost(st.posts, pk).Some? && Like(caller, pk) !in st.likes ==>
      r == (Response(BadRequest, NoLikeToRemove), st)
    ensures r.1.notifications == st.notifications
  {
    if FindPost(st.posts, pk).None? then
      (Response(NotFound, NotFoundDetail), st)
    else if Like(caller, pk) in st.likes then
      (Response(Ok, LikeRemoved), st.(likes := st.likes - {Like(caller, pk)}))
    else
      (Response(BadRequest, NoLikeToRemove), st)
  }

  /** The computed feed is one of the admissible feeds, and every admissible
      feed holds the same posts with the same sequence of timestamps. */
  lemma FeedUpToTies(st: State, u: UserId, r: seq<Post>)
    requires IsFeed(st, u, r)
    ensures IsFeed(st, u, Feed(st, u))
    ensures multiset(r) == multiset(Feed(st, u))
    ensures Stamps(r) == Stamps(Feed(st, u))
  {
    var f := Feed(st, u);
    assert multiset(r) == multiset(f);
    SortedPermutationsAgree(r, f);
  }

  /** With the self-follow guard in place, nobody sees their own posts in their feed. */
  lemma FeedExcludesOwnPosts(st: State, u: UserId)
    requires Valid(st)
    ensures forall p :: p in Feed(st, u) ==> p.author != u
  {
  }

  /** Liking twice leaves the same state as liking once; the second call reports "Already liked". */
  lemma LikeIdempotent(st: State, caller: UserId, pk: PostId)
    ensures var once := LikePost(st, caller, pk).1;
            LikePost(once, caller, pk).1 == once
    ensures FindPost(st.posts, pk).Some? ==>
            LikePost(LikePost(st, caller, pk).1, caller, pk).0 == Response(Ok, AlreadyLiked)
  {
  }

  /** Unliking twice leaves the same state as unliking once; the second call of
      an existing post reports "No like to remove". */
  lemma UnlikeIdempotent(st: State, caller: UserId, pk: PostId)
    ensures var once := UnlikePost(st, caller, pk).1;
            UnlikePost(once, caller, pk).1 == once
    ensures FindPost(st.posts, pk).Some? ==>
            UnlikePost(UnlikePost(st, caller, pk).1, caller, pk).0 == Response(BadRequest, NoLikeToRemove)
  {
  }

  /** Unliking undoes a fresh like: the state is restored except that the
      notification the like caused stays in the log. */
  lemma LikeThenUnlike(st: State, caller: UserId, pk: PostId)
    requires FindPost(st.posts, pk).Some?
    requires Like(caller, pk) !in st.likes
    ensures var liked := LikePost(st, caller, pk).1;
            var (resp, back) := UnlikePost(liked, caller, pk);
            && resp == Response(Ok, LikeRemoved)
            && back == st.(notifications := liked.notifications)
            && st.notifications <= back.notifications
  {
  }

  /** Duplicates are suppressed only while the like exists: liking, unliking and
      liking again notifies the author twice. */
  lemma RelikeNotifiesAgain(st: State, caller: UserId, pk: PostId)
    requires FindPost(st.posts, pk).Some?
    requires Like(caller, pk) !in st.likes
    requires caller != FindPost(st.posts, pk).value.author
    ensures var s1 := LikePost(st, caller, pk).1;
            var s2 := UnlikePost(s1, caller, pk).1;
            var s3 := LikePost(s2, caller, pk).1;
            var n := LikeNotice(FindPost(st.posts, pk).value.author, caller, pk);
            && s3.likes == s1.likes
            && s3.notifications == st.notifications + [n, n]
  {
  }

  /** Like and unlike touch no follow edge, user or post, and keep the state well formed. */
  lemma LikeUnlikePreserveValid(st: State, caller: UserId, pk: PostId)
    requires Valid(st)
    requires caller in st.users
    ensures Valid(LikePost(st, caller, pk).1)
    ensures Valid(UnlikePost(st, caller, pk).1)
  {
  }
}
