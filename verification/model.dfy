/**
  The state of the social-media engagement layer: accounts and their directed
  follow graph, the post table, the like relation and the append-only
  notification log. Every endpoint of the layer is a pure transition over
  one immutable `State` value.
 */
module Model {

  type UserId = nat
  type PostId = nat

  datatype Option<+T> = None | Some(value: T)

  /** The HTTP statuses the engagement endpoints answer with. */
  datatype Status = Ok | Created | BadRequest | NotFound {
    function Code(): nat {
      match this
      case Ok => 200
      case Created => 201
      case BadRequest => 400
      case NotFound => 404
    }
  }

  /** A response body `{"detail": ...}` together with its status. */
  datatype Response = Response(status: Status, detail: string)

  datatype User = User(username: string)

  datatype Post = Post(id: PostId, author: UserId, title: string, content: string, createdAt: int)

  /** A row of the like table; the table is keyed by the (user, post) pair. */
  datatype Like = Like(user: UserId, post: PostId)

  /** The content types a notification may point at through its generic relation. */
  datatype ContentType = PostType | CommentType

  /** The object a notification is about, as passed to the notification helper. */
  datatype Target = NoTarget | PostTarget(postId: PostId) | CommentTarget(commentId: nat)

  /** A stored notification row: the generic relation is kept as the pair
      (content type, object id), both absent when there is no target. */
  datatype Notification = Notification(
    recipient: UserId,
    actor: UserId,
    verb: string,
    contentType: Option<ContentType>,
    objectId: Option<nat>)

  datatype State = State(
    users: map<UserId, User>,
    following: map<UserId, set<UserId>>,
    posts: seq<Post>,
    likes: set<Like>,
    notifications: seq<Notification>)

  /** `user.following.all()`: a user with no row in the follow table follows
      nobody; in a well-formed state the result holds existing users other than `u`. */
  function Following(st: State, u: UserId): (r: set<UserId>)
    ensures u !in st.following ==> r == {}
    ensures u in st.following ==> r == st.following[u]
    ensures Valid(st) ==> u !in r && r <= st.users.Keys
  {
    if u in st.following then st.following[u] else {}
  }

  /** `Post.objects.get(pk=id)`: the first stored post with that id, if any. */
  function FindPost(posts: seq<Post>, id: PostId): (r: Option<Post>)
    ensures r.Some? ==> r.value in posts && r.value.id == id
    ensures r.None? <==> forall p :: p in posts ==> p.id != id
  {
    if posts == [] then None
    else if posts[0].id == id then Some(posts[0])
    else FindPost(posts[1..], id)
  }

  predicate UniquePostIds(posts: seq<Post>)
  {
    forall i, j :: 0 <= i < |posts| && 0 <= j < |posts| && posts[i].id == posts[j].id ==> i == j
  }

  /** No user is in their own following set. */
  predicate NoSelfFollow(st: State)
  {
    forall u :: u in st.following ==> u !in st.following[u]
  }

  /** The referential integrity the database keeps, plus the self-follow invariant. */
  predicate Valid(st: State)
  {
    && UniquePostIds(st.posts)
    && (forall p :: p in st.posts ==> p.author in st.users)
    && (forall u :: u in st.following ==> u in st.users && st.following[u] <= st.users.Keys)
    && NoSelfFollow(st)
    && (forall l :: l in st.likes ==> l.user in st.users && FindPost(st.posts, l.post).Some?)
  }

  /** With unique ids, the post found for an id is the only stored post with that id. */
  lemma FindPostUnique(posts: seq<Post>, p: Post)
    requires UniquePostIds(posts)
    requires p in posts
    ensures FindPost(posts, p.id) == Some(p)
  {
    var q := FindPost(posts, p.id);
    var i :| 0 <= i < |posts| && posts[i] == p;
    var j :| 0 <= j < |posts| && posts[j] == q.value;
    assert i == j;
  }
}
