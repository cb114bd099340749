/**
  The follow and unfollow endpoints: membership changes on the caller's
  outgoing edge set of the directed follow graph.
 */
module AccountViews {
  import opened Model

  const UserNotFound: string := "User not found."
  const CannotFollowSelf: string := "You cannot follow yourself."

  function NowFollowing(username: string): string
  {
    "You are now following " + username + "."
  }

  function Unfollowed(username: string): string
  {
    "You have unfollowed " + username + "."
  }

  /** The follow graph with `following[caller]` replaced by `edges`. */
  function SetFollowing(st: State, caller: UserId, edges: set<UserId>): (r: State)
    ensures Following(r, caller) == edges
    ensures forall v :: v != caller ==> Following(r, v) == Following(st, v)
    ensures r.users == st.users && r.posts == st.posts
    ensures r.likes == st.likes && r.notifications == st.notifications
  {
    st.(following := st.following[caller := edges])
  }

  /** `FollowUserView.post`: 404 for an unknown user, 400 for the caller
      themselves, otherwise the target joins the caller's following set. */
  function FollowUser(st: State, caller: UserId, target: UserId): (r: (Response, State))
    ensures target !in st.users ==> r == (Response(NotFound, UserNotFound), st)
    ensures target in st.users && target == caller ==> r == (Response(BadRequest, CannotFollowSelf), st)
    ensures target in st.users && target != caller ==>
      && r.0 == Response(Ok, NowFollowing(st.users[target].username))
      && Following(r.1, caller) == Following(st, caller) + {target}
      && (forall v :: v != caller ==> Following(r.1, v) == Following(st, v))
      && r.1.users == st.users && r.1.posts == st.posts
      && r.1.likes == st.likes && r.1.notifications == st.notifications
  {
    if target !in st.users then
      (Response(NotFound, UserNotFound), st)
    else if target == caller then
      (Response(BadRequest, CannotFollowSelf), st)
    else
      (Response(Ok, NowFollowing(st.users[target].username)),
       SetFollowing(st, caller, Following(st, caller) + {target}))
  }

  /** `UnfollowUserView.post`: 404 for an unknown user, otherwise the target
      leaves the caller's following set, whether or not it was in it. */
  function UnfollowUser(st: State, caller: UserId, target: UserId): (r: (Response, State))
    ensures target !in st.users ==> r == (Response(NotFound, UserNotFound), st)
    ensures target in st.users ==>
      && r.0 == Response(Ok, Unfollowed(st.users[target].username))
      && Following(r.1, caller) == Following(st, caller) - {target}
      && (forall v :: v != caller ==> Following(r.1, v) == Following(st, v))
      && r.1.users == st.users && r.1.posts == st.posts
      && r.1.likes == st.likes && r.1.notifications == st.notifications
  {
    if target !in st.users then
      (Response(NotFound, UserNotFound), st)
    else
      (Response(Ok, Unfollowed(st.users[target].username)),
       SetFollowing(st, caller, Following(st, caller) - {target}))
  }

  /** Following is idempotent: a second identical request answers the same and changes nothing. */
  lemma FollowIdempotent(st: State, caller: UserId, target: UserId)
    ensures var (resp, once) := FollowUser(st, caller, target);
            FollowUser(once, caller, target) == (resp, once)
  {
    var (resp, once) := FollowUser(st, caller, target);
    if target in st.users && target != caller {
      var (resp2, twice) := FollowUser(once, caller, target);
      assert Following(once, caller) + {target} == Following(once, caller);
      assert twice.following == once.following;
    }
  }

  /** Unfollowing is idempotent in the same way. */
  lemma UnfollowIdempotent(st: State, caller: UserId, target: UserId)
    ensures var (resp, once) := UnfollowUser(st, caller, target);
            UnfollowUser(once, caller, target) == (resp, once)
  {
    var (resp, once) := UnfollowUser(st, caller, target);
    if target in st.users {
      var (resp2, twice) := UnfollowUser(once, caller, target);
      assert Following(once, caller) - {target} == Following(once, caller);
      assert twice.following == once.following;
    }
  }

  /** The graph is directed: following someone leaves their own following set alone. */
  lemma FollowIsDirected(st: State, caller: UserId, target: UserId)
    ensures Following(FollowUser(st, caller, target).1, target) == Following(st, target)
  {
  }

  /** Unfollowing after a fresh follow restores the caller's following set. */
  lemma FollowThenUnfollow(st: State, caller: UserId, target: UserId)
    requires target in st.users && target != caller
    requires target !in Following(st, caller)
    ensures Following(UnfollowUser(FollowUser(st, caller, target).1, caller, target).1, caller)
            == Following(st, caller)
  {
  }

  /** Neither endpoint ever puts a user into their own following set: follow
      refuses the caller as target, and unfollow only removes edges. */
  lemma FollowUnfollowKeepNoSelfFollow(st: State, caller: UserId, target: UserId)
    requires NoSelfFollow(st)
    ensures NoSelfFollow(FollowUser(st, caller, target).1)
    ensures NoSelfFollow(UnfollowUser(st, caller, target).1)
  {
  }

  /** Both endpoints keep every user out of their own following set, and keep
      the follow graph within existing users. */
  lemma FollowUnfollowPreserveValid(st: State, caller: UserId, target: UserId)
    requires Valid(st)
    requires caller in st.users
    ensures Valid(FollowUser(st, caller, target).1)
    ensures Valid(UnfollowUser(st, caller, target).1)
  {
  }
}
