/**
  The notification helpers: a generic append to the notification log and the
  self-guarded "liked your post" notification.
 */
module NotificationUtils {
  import opened Model

  const LikedYourPost: string := "liked your post"

  /** The content type of a target object; absent when there is no target. */
  function ContentTypeOf(t: Target): Option<ContentType>
  {
    match t
    case NoTarget => None
    case PostTarget(_) => Some(PostType)
    case CommentTarget(_) => Some(CommentType)
  }

  /** The primary key of a target object; absent when there is no target. */
  function ObjectIdOf(t: Target): Option<nat>
  {
    match t
    case NoTarget => None
    case PostTarget(id) => Some(id)
    case CommentTarget(id) => Some(id)
  }

  /** Resolves a stored (content type, object id) pair back to the object it names. */
  function TargetOf(n: Notification): Target
  {
    match (n.contentType, n.objectId)
    case (Some(PostType), Some(id)) => PostTarget(id)
    case (Some(CommentType), Some(id)) => CommentTarget(id)
    case _ => NoTarget
  }

  /** `create_notification`: appends one row and returns it. Duplicates are not filtered. */
  function CreateNotification(log: seq<Notification>, recipient: UserId, actor: UserId,
                              verb: string, target: Target): (res: (Notification, seq<Notification>))
    ensures res.1 == log + [res.0]
    ensures res.0.recipient == recipient && res.0.actor == actor && res.0.verb == verb
    ensures target == NoTarget <==> res.0.contentType.None?
    ensures target == NoTarget <==> res.0.objectId.None?
    ensures TargetOf(res.0) == target
  {
    var n := Notification(recipient, actor, verb, ContentTypeOf(target), ObjectIdOf(target));
    (n, log + [n])
  }

  /** `create_notification_for_like`: nothing when users like their own post,
      otherwise one "liked your post" notification pointing at the post. */
  function CreateNotificationForLike(log: seq<Notification>, actor: UserId, recipient: UserId,
                                     post: Post): (res: (Option<Notification>, seq<Notification>))
    ensures actor == recipient ==> res.0 == None && res.1 == log
    ensures actor != recipient ==>
      && res.0.Some?
      && res.1 == log + [res.0.value]
      && res.0.value.recipient == recipient
      && res.0.value.actor == actor
      && res.0.value.verb == LikedYourPost
      && TargetOf(res.0.value) == PostTarget(post.id)
  {
    if actor == recipient then
      (None, log)
    else
      var (n, log') := CreateNotification(log, recipient, actor, LikedYourPost, PostTarget(post.id));
      (Some(n), log')
  }

  /** The notification a like by `actor` of post `id` written by `author` produces. */
  function LikeNotice(author: UserId, actor: UserId, id: PostId): Notification
  {
    Notification(author, actor, LikedYourPost, Some(PostType), Some(id))
  }

  /** No notification in the log is addressed to the user who caused it. */
  predicate NoSelfNotification(log: seq<Notification>)
  {
    forall i :: 0 <= i < |log| ==> log[i].actor != log[i].recipient
  }

  /** Storing a target as (content type, object id) loses nothing: the pair
      resolves back to it, and neither field is stored exactly when there is no target. */
  lemma TargetRoundTrip(t: Target)
    ensures TargetOf(Notification(0, 0, "", ContentTypeOf(t), ObjectIdOf(t))) == t
    ensures t == NoTarget <==> ContentTypeOf(t).None? && ObjectIdOf(t).None?
    ensures t == NoTarget <==> ContentTypeOf(t).None? || ObjectIdOf(t).None?
  {
  }

  /** The like notification, when there is one, is exactly `LikeNotice`. */
  lemma LikeNotificationShape(log: seq<Notification>, actor: UserId, recipient: UserId, post: Post)
    ensures actor != recipient ==>
      CreateNotificationForLike(log, actor, recipient, post).1 == log + [LikeNotice(recipient, actor, post.id)]
  {
  }

  /** The self-guard keeps a log free of self-notifications. */
  lemma LikeKeepsNoSelfNotification(log: seq<Notification>, actor: UserId, recipient: UserId, post: Post)
    requires NoSelfNotification(log)
    ensures NoSelfNotification(CreateNotificationForLike(log, actor, recipient, post).1)
  {
  }

  /** There is no de-duplication: the same call twice appends two equal records. */
  lemma NoDeduplication(log: seq<Notification>, recipient: UserId, actor: UserId,
                        verb: string, target: Target)
    ensures var (n1, log1) := CreateNotification(log, recipient, actor, verb, target);
            var (n2, log2) := CreateNotification(log1, recipient, actor, verb, target);
            && |log2| == |log| + 2
            && log2[..|log|] == log
            && log2[|log|] == log2[|log| + 1] == n1 == n2
  {
  }
}
