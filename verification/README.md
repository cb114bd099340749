# Social-media engagement layer, modelled in Dafny

This project models the engagement layer of the `social_media_api` application:
- the directed follow graph;
- the post table;
- the like relation;
- the append-only notification log.

Each endpoint is a pure transition from an immutable `State` to a response and a new `State`:

- `feed` (posts of followed users, newest first),
- `like_post` / `unlike_post` (an idempotent toggle with a self-guarded notification),
- `FollowUserView.post` / `UnfollowUserView.post` (membership changes on the caller's following set),
- `create_notification` / `create_notification_for_like` (appends to the log).

Files, one module each:

- `model.dfy` (`Model`): identifiers, users, posts, likes, notification rows, the state, `Following`,
  `FindPost` (the `pk` lookup behind `get_object_or_404`) and the well-formedness predicate `Valid`.
- `notification_utils.dfy` (`NotificationUtils`): the notification helpers. The generic target is a
  tagged variant `Target = NoTarget | PostTarget(id) | CommentTarget(id)`. It is stored as the pair
  (content type, object id), and `TargetOf` resolves the pair back.
- `ordering.dfy` (`Ordering`): the `order_by("-created_at")` sort. It also proves that sorting
  newest first determines the timestamp sequence, whatever order is chosen among equal timestamps.
- `post_views.dfy` (`PostViews`): feed, like, unlike.
- `account_views.dfy` (`AccountViews`): follow, unfollow.
- `engine.dfy` (`Engine`): a request dispatcher `Step` and the invariant of the whole layer. The
  invariant says:
  - the state is well formed;
  - nobody follows themselves;
  - no notification is addressed to its own actor;
  - every like by a non-author is backed by its "liked your post" notification.

  `Engine` proves the invariant holds after any sequence of authenticated requests. It also runs a
  small concrete example through `Step`: follow, feed, like, like again, unlike.

The post table is a sequence in storage order, with unique ids as part of `Valid`.
The feed query names no tie-break. So the admissible feeds are described by `PostViews.IsFeed`,
which leaves the order of equal timestamps open. `PostViews.Feed` computes one admissible feed.
`PostViews.FeedUpToTies` shows that all admissible feeds hold the same posts and list the same timestamps.

Behaviour of the code worth knowing, which the model keeps:
- The query names no tie-break, so the model assumes none.
- Liking one's own post is not rejected: the like is stored and only the notification is skipped
  (`PostViews.LikePost`).
- Unfollowing oneself is not rejected: the answer is 200 and nothing is removed
  (`AccountViews.UnfollowUser`).
- A like notifies again after an unlike: the "Already liked" short-circuit only suppresses a second
  notification while the like exists (`PostViews.RelikeNotifiesAgain`).

## Model

| member | source | states |
|---|---|---|
| Model.Following | social_media_api/posts/views.py:15 | a user with no row in the follow table follows nobody, otherwise their stored set; in a well-formed state the set holds only existing users and never the user themselves |
| Model.FindPost | social_media_api/posts/views.py:25 | the post found for a key is a stored post with that id; nothing is found exactly when no stored post has the id |
| NotificationUtils.CreateNotification | social_media_api/notifications/utils.py:5-19 | with `ContentTypeOf` and `ObjectIdOf` computing the two generic-relation fields: appends exactly one record and keeps earlier entries; the record carries the given recipient, actor and verb; content type and object id are absent exactly when there is no target; the stored pair resolves back to the target |
| NotificationUtils.TargetRoundTrip | social_media_api/notifications/utils.py:6-11 | a target stored as (content type, object id) by `ContentTypeOf` and `ObjectIdOf` resolves back to the same target; both fields are absent exactly when there is no target, and either one is absent only then |
| NotificationUtils.NoDeduplication | social_media_api/notifications/utils.py:5-19 | two identical calls append two identical records after the untouched earlier log |
| NotificationUtils.CreateNotificationForLike | social_media_api/notifications/utils.py:22-31 | actor equal to recipient returns nothing and leaves the log unchanged; otherwise appends exactly one "liked your post" record for the recipient, by the actor, targeting the post |
| NotificationUtils.LikeNotificationShape | social_media_api/notifications/utils.py:26-31 | a like notification between different users is exactly the record (author, actor, "liked your post", post content type, post id) |
| NotificationUtils.LikeKeepsNoSelfNotification | social_media_api/notifications/utils.py:23-24 | the self-guard never adds a record whose actor is its recipient |
| Ordering.Insert | social_media_api/posts/views.py:16 | inserting into a newest-first sequence yields a newest-first sequence holding the old posts plus the new one |
| Ordering.SortNewestFirst | social_media_api/posts/views.py:16 | the result is newest first and is a permutation of the input |
| Ordering.SortedPermutationsAgree | social_media_api/posts/views.py:16 | two newest-first orderings of the same posts have the same timestamp sequence, so they differ only in the order of equal timestamps |
| PostViews.PostsByAuthors | social_media_api/posts/views.py:16 | keeps every stored post whose author is in the set, as often as stored, and no other post |
| PostViews.Feed | social_media_api/posts/views.py:13-19 | the feed is newest first; it holds exactly the stored posts whose author the user follows, each as often as stored; it is empty when the user follows nobody |
| PostViews.FeedUpToTies | social_media_api/posts/views.py:15-16 | the computed feed is admissible; every admissible feed has the same posts and the same timestamp sequence as it |
| PostViews.FeedExcludesOwnPosts | social_media_api/posts/views.py:15-16 | in a well-formed state no user sees their own posts in their feed |
| PostViews.LikePost | social_media_api/posts/views.py:24-36 | unknown post: 404 and no change; existing like: 200 "Already liked" and no change; otherwise 201 "Post liked", exactly that like added, nothing else but the log changed, and the log gains the like notification unless the caller wrote the post |
| PostViews.UnlikePost | social_media_api/posts/views.py:41-50 | unknown post: 404 and no change; existing like: 200 "Like removed" and exactly that like removed; no like: 400 "No like to remove" and no change; the log is never touched |
| PostViews.LikeIdempotent | social_media_api/posts/views.py:28-31 | liking twice gives the state of liking once, and the second call on an existing post answers "Already liked" |
| PostViews.UnlikeIdempotent | social_media_api/posts/views.py:45-50 | unliking twice gives the state of unliking once, and the second call on an existing post answers "No like to remove" |
| PostViews.LikeThenUnlike | social_media_api/posts/views.py:45-48 | unliking a fresh like answers "Like removed" and restores the whole state except the log, which keeps the notification the like created |
| PostViews.RelikeNotifiesAgain | social_media_api/posts/views.py:28-36 | like, unlike, like by a non-author appends the same notification twice |
| PostViews.LikeUnlikePreserveValid | social_media_api/posts/views.py:24-50 | an authenticated like or unlike keeps the state well formed |
| AccountViews.FollowUser | social_media_api/accounts/views.py:58-70 | unknown target: 404 and no change; target is the caller: 400 and no change; otherwise 200 naming the target, the target added to the caller's following set, every other user's set and the rest of the state unchanged |
| AccountViews.UnfollowUser | social_media_api/accounts/views.py:76-85 | unknown target: 404 and no change; otherwise 200 naming the target whether or not the edge existed, the target removed from the caller's following set, everything else unchanged |
| AccountViews.FollowIdempotent | social_media_api/accounts/views.py:69 | a repeated follow gives the same response and changes nothing more |
| AccountViews.UnfollowIdempotent | social_media_api/accounts/views.py:84 | a repeated unfollow gives the same response and changes nothing more |
| AccountViews.FollowIsDirected | social_media_api/accounts/views.py:69 | following a user leaves that user's own following set unchanged |
| AccountViews.FollowThenUnfollow | social_media_api/accounts/views.py:84 | unfollowing right after a fresh follow restores the caller's following set |
| AccountViews.FollowUnfollowKeepNoSelfFollow | social_media_api/accounts/views.py:66-69 | from any state where nobody follows themselves, neither follow nor unfollow makes anybody follow themselves |
| AccountViews.FollowUnfollowPreserveValid | social_media_api/accounts/views.py:66-69 | an authenticated follow or unfollow keeps the state well formed, in particular no user in their own following set |
| Engine.Step | social_media_api/posts/views.py:13-50 | every request leaves users and posts alone, only appends to the log and by at most one record; a feed request answers an admissible feed |
| Engine.FeedIsReadOnly | social_media_api/posts/views.py:13-19 | a feed request leaves the whole state unchanged |
| Engine.LikeKeepsLikesNotified | social_media_api/posts/views.py:28-34 | after a like, every stored like by a non-author still has its notification in the log |
| Engine.StepPreservesInvariant | social_media_api/posts/views.py:24-50 | one authenticated request keeps the invariant: well formed, no self-follow, no self-notification, likes backed by notifications |
| Engine.RunPreservesInvariant | social_media_api/posts/views.py:13-50 | any sequence of authenticated requests to the post endpoints and to the follow endpoints (accounts/views.py lines 58-85) keeps the invariant, appends to the log only, and leaves users and posts unchanged |
| Engine.ScenarioFollow | social_media_api/accounts/views.py:69-70 | with users u1 and u2, u2 having written P1 at time 1 and P2 at time 2: u1 following u2 adds exactly that edge and answers "You are now following u2." |
| Engine.ScenarioFeed | social_media_api/posts/views.py:15-19 | in that example, u1's feed is [P2, P1] and the state is unchanged |
| Engine.ScenarioLikes | social_media_api/posts/views.py:28-50 | in that example, u1 liking P1 notifies u2 once, a second like answers "Already liked" with no change, and unlike removes the like but keeps the notification |

## Left out

- Registration, login, token issuance and the profile view (`accounts/views.py` lines 12-48): password
  hashing and token storage belong to the framework.
- The `follow_user` / `unfollow_user` wrappers: they only delegate to the class-based views, which
  `AccountViews.FollowUser` and `AccountViews.UnfollowUser` model.
- Authentication: the caller is an explicit parameter. The invariant lemmas require that it is an
  existing user, which the `IsAuthenticated` permission guarantees. The 401 answer is not modelled.
- Concurrency and transactions: requests are served one at a time, so the atomicity of
  `get_or_create` under parallel requests is not modelled.
- Serialization: the feed answers `Post` values, not serializer dictionaries (author username,
  `comments_count`, `updated_at`).
- Notification ids, `created_at` timestamps and the read flag: `notifications/models.py` is not part of
  this model, and timestamps come from the clock. Post `created_at` is an abstract integer supplied by the state.
- Post, comment and user creation: they happen outside this layer. The state only supplies them.
- The generic relation resolves only posts and comments: the layer never targets any other model.
- `accounts/models.py` is not part of this model. The follow relation is taken as directed, as the
  separate `followers` and `following` fields of the user serializer indicate.
- PostViews.LikePost: the 404 body of `get_object_or_404` is written by the framework and is modelled
  as the constant "Not found."; PostViews.UnlikePost uses the same constant.
- URL routing, the blog, bookshelf and relationship apps, admin registrations and form validation:
  routing glue, framework mixins and template rendering, with no logic of this layer.
