/**
  The engagement layer as one state machine: each authenticated request is
  dispatched to its endpoint, and the invariants of the layer hold after any
  sequence of requests.
 */
module Engine {
  import opened Model
  import opened Ordering
  import opened NotificationUtils
  import opened PostViews
  import opened AccountViews

  /** A request to one of the engagement endpoints, made by an authenticated `caller`. */
  datatype Request =
    | FeedRequest(caller: UserId)
    | LikeRequest(caller: UserId, pk: PostId)
    | UnlikeRequest(caller: UserId, pk: PostId)
    | FollowRequest(caller: UserId, userId: UserId)
    | UnfollowRequest(caller: UserId, userId: UserId)

  /** The feed answers with a list of posts; every other endpoint with a detail message. */
  datatype Reply = Posts(posts: seq<Post>) | Detail(response: Response)

  /** Every like by someone other than the post's author has left its
      "liked your post" notification in the log (unliking never retracts it). */
  predicate LikesAreNotified(st: State)
  {
    forall l, p :: l in st.likes && p in st.posts && p.id == l.post && p.author != l.user ==>
      LikeNotice(p.author, l.user, l.post) in st.notifications
  }

  predicate Invariant(st: State)
  {
    && Valid(st)
    && NoSelfNotification(st.notifications)
    && LikesAreNotified(st)
  }

  function Step(st: State, req: Request): (r: (Reply, State))
    ensures r.1.users == st.users && r.1.posts == st.posts
    ensures st.notifications <= r.1.notifications
    ensures |r.1.notifications| <= |st.notifications| + 1
    ensures req.FeedRequest? ==> r.0.Posts? && IsFeed(st, req.caller, r.0.posts)
    ensures !req.FeedRequest? ==> r.0.Detail?
  {
    match req
    case FeedRequest(u) => (Posts(Feed(st, u)), st)
    case LikeRequest(u, pk) =>
      var (resp, st') := LikePost(st, u, pk);
      (Detail(resp), st')
    case UnlikeRequest(u, pk) =>
      var (resp, st') := UnlikePost(st, u, pk);
      (Detail(resp), st')
    case FollowRequest(u, target) =>
      var (resp, st') := FollowUser(st, u, target);
      (Detail(resp), st')
    case UnfollowRequest(u, target) =>
      var (resp, st') := UnfollowUser(st, u, target);
      (Detail(resp), st')
  }

  /** The state after serving the requests one after the other. */
  function Run(st: State, reqs: seq<Request>): State
    decreases |reqs|
  {
    if reqs == [] then st else Run(Step(st, reqs[0]).1, reqs[1..])
  }

  predicate Authenticated(st: State, reqs: seq<Request>)
  {
    forall i :: 0 <= i < |reqs| ==> reqs[i].caller in st.users
  }

  /** Reading the feed changes nothing. */
  lemma FeedIsReadOnly(st: State, u: UserId)
    ensures Step(st, FeedRequest(u)).1 == st
    ensures Step(st, FeedRequest(u)).0 == Posts(Feed(st, u))
  {
  }

  /** A fresh like by a non-author is recorded in the log, so the like-to-notification
      link holds for it; the links of older likes survive because the log only grows. */
  lemma LikeKeepsLikesNotified(st: State, caller: UserId, pk: PostId)
    requires Valid(st) && LikesAreNotified(st)
    ensures LikesAreNotified(LikePost(st, caller, pk).1)
  {
    var st' := LikePost(st, caller, pk).1;
    forall l, p | l in st'.likes && p in st'.posts && p.id == l.post && p.author != l.user
      ensures LikeNotice(p.author, l.user, l.post) in st'.notifications
    {
      if l in st.likes {
        assert LikeNotice(p.author, l.user, l.post) in st.notifications;
      } else {
        assert l == Like(caller, pk);
        FindPostUnique(st.posts, p);
        assert st'.notifications == st.notifications + [LikeNotice(p.author, caller, pk)];
      }
    }
  }

  /** One authenticated request keeps the invariant. */
  lemma StepPreservesInvariant(st: State, req: Request)
    requires Invariant(st)
    requires req.caller in st.users
    ensures Invariant(Step(st, req).1)
  {
    var st' := Step(st, req).1;
    match req
    case FeedRequest(_) =>
    case LikeRequest(u, pk) =>
      LikeUnlikePreserveValid(st, u, pk);
      LikeKeepsLikesNotified(st, u, pk);
      if FindPost(st.posts, pk).Some? {
        var post := FindPost(st.posts, pk).value;
        LikeKeepsNoSelfNotification(st.notifications, u, post.author, post);
      }
    case UnlikeRequest(u, pk) =>
      LikeUnlikePreserveValid(st, u, pk);
    case FollowRequest(u, target) =>
      FollowUnfollowPreserveValid(st, u, target);
    case UnfollowRequest(u, target) =>
      FollowUnfollowPreserveValid(st, u, target);
  }

  /** Any sequence of authenticated requests keeps the invariant: nobody follows
      themselves, nobody is notified of their own action, and every like by a
      non-author stays backed by its notification. The log is only ever appended to. */
  lemma {:induction false} RunPreservesInvariant(st: State, reqs: seq<Request>)
    requires Invariant(st)
    requires Authenticated(st, reqs)
    ensures Invariant(Run(st, reqs))
    ensures st.notifications <= Run(st, reqs).notifications
    ensures Run(st, reqs).users == st.users && Run(st, reqs).posts == st.posts
    decreases |reqs|
  {
    if reqs != [] {
      var next := Step(st, reqs[0]).1;
      StepPreservesInvariant(st, reqs[0]);
      assert Authenticated(next, reqs[1..]) by {
        forall i | 0 <= i < |reqs[1..]|
          ensures reqs[1..][i].caller in next.users
        {
          assert reqs[1..][i] == reqs[i + 1];
        }
      }
      RunPreservesInvariant(next, reqs[1..]);
    }
  }

  /** A small concrete run: users 1 (u1) and 2 (u2); u2 wrote P1 at time 1 and
      P2 at time 2; nobody follows anybody and nothing is liked yet. */
  const P1: Post := Post(1, 2, "P1", "", 1)
  const P2: Post := Post(2, 2, "P2", "", 2)
  const Start: State := State(map[1 := User("u1"), 2 := User("u2")], map[], [P1, P2], {}, [])
  const Following12: State := Start.(following := map[1 := {2}])

  /** When u1 follows u2, the follow graph holds exactly that edge and the answer names u2. */
  lemma ScenarioFollow()
    ensures Step(Start, FollowRequest(1, 2)) == (Detail(Response(Ok, NowFollowing("u2"))), Following12)
  {
    var edges: set<UserId> := {2};
    assert 2 in Start.users && Following(Start, 1) == {};
    assert Following(Start, 1) + {2} == edges;
    assert Start.following[1 := edges].Keys == {1};
    assert Start.following[1 := edges] == map[1 := edges];
  }

  /** u1's feed is then [P2, P1], newest first, and reading it changes nothing. */
  lemma ScenarioFeed()
    ensures Step(Following12, FeedRequest(1)) == (Posts([P2, P1]), Following12)
  {
    assert Following(Following12, 1) == {2};
    assert PostsByAuthors([P2], {2}) == [P2];
    assert PostsByAuthors([P1, P2], {2}) == [P1, P2];
    assert SortNewestFirst([P2]) == [P2];
    assert Insert(P1, [P2]) == [P2] + Insert(P1, []) == [P2, P1];
    assert SortNewestFirst([P1, P2]) == [P2, P1];
  }

  /** u1 likes P1 (one notification to u2), likes it again (reported, nothing
      changes), and unlikes it (the like goes, the notification stays). */
  lemma ScenarioLikes()
    ensures
      var (liked, s2) := Step(Following12, LikeRequest(1, 1));
      var (again, s3) := Step(s2, LikeRequest(1, 1));
      var (unliked, s4) := Step(s3, UnlikeRequest(1, 1));
      && liked == Detail(Response(Created, PostLiked))
      && s2.likes == {Like(1, 1)} && s2.notifications == [LikeNotice(2, 1, 1)]
      && again == Detail(Response(Ok, AlreadyLiked)) && s3 == s2
      && unliked == Detail(Response(Ok, LikeRemoved))
      && s4.likes == {} && s4.notifications == [LikeNotice(2, 1, 1)]
  {
    assert FindPost([P1, P2], 1) == Some(P1);
  }
}
