/** The two tables the resolvers work on, the request context, and the
    invariants that tie the tables together. */
module Records {
  import opened Errors

  /** Document ids. Ids of users and of posts come from one supply, as
      database object ids do, so an id names at most one document. */
  type UserId = nat
  type PostId = nat

  /** A stored user: the password only as its hash; `posts` lists the ids of
      the posts this user created. */
  datatype User = User(email: string, passwordHash: string, name: string, status: string, posts: seq<PostId>)

  /** A stored post; `createdAt` and `updatedAt` are logical timestamps. */
  datatype Post = Post(title: string, content: string, imageUrl: string, creator: UserId, createdAt: nat, updatedAt: nat)

  /** The payload signed into an identity token. */
  datatype Claims = Claims(email: string, userId: UserId)

  /** What the auth gate leaves on the request: `req.isAuth` and `req.userId`. */
  datatype Context = Context(isAuth: bool, userId: Option<UserId>)

  predicate NoDup(s: seq<PostId>)
  {
    forall i, j :: 0 <= i < j < |s| ==> s[i] != s[j]
  }

  /** `User.findOne({ email })` finds something. */
  predicate EmailTaken(users: map<UserId, User>, email: string)
  {
    exists u :: u in users && users[u].email == email
  }

  /** `User.findById(req.userId)` finds something (an unset id finds nothing). */
  predicate Registered(users: map<UserId, User>, userId: Option<UserId>)
  {
    userId.Some? && userId.value in users
  }

  predicate UniqueEmails(users: map<UserId, User>)
  {
    forall u, v :: u in users && v in users && u != v ==> users[u].email != users[v].email
  }

  /** The back-reference index: every post's creator exists and lists the post;
      every user lists exactly the posts it created, each once. */
  predicate Indexed(users: map<UserId, User>, posts: map<PostId, Post>)
  {
    (forall p :: p in posts ==> posts[p].creator in users && p in users[posts[p].creator].posts) &&
    (forall u :: u in users ==> NoDup(users[u].posts)) &&
    (forall u, p :: u in users && p in users[u].posts ==> p in posts && posts[p].creator == u)
  }

  predicate Timestamps(posts: map<PostId, Post>, clock: nat)
  {
    forall p :: p in posts ==> posts[p].createdAt <= posts[p].updatedAt < clock
  }

  /** No two posts were created at the same moment. */
  predicate DistinctStamps(posts: map<PostId, Post>)
  {
    forall p, q :: p in posts && q in posts && p != q ==> posts[p].createdAt != posts[q].createdAt
  }

  /** `user.posts.pull(id)`: every occurrence of `id` removed. */
  function Without(s: seq<PostId>, id: PostId): (r: seq<PostId>)
    ensures forall x :: x in r <==> x in s && x != id
    ensures NoDup(s) ==> NoDup(r)
    ensures |r| <= |s|
    decreases |s|
  {
    if s == [] then []
    else if s[0] == id then NoDupTail(s); Without(s[1..], id)
    else NoDupTail(s); NoDupCons(s[0], Without(s[1..], id)); [s[0]] + Without(s[1..], id)
  }

  lemma NoDupTail(s: seq<PostId>)
    requires s != []
    ensures NoDup(s) ==> NoDup(s[1..]) && s[0] !in s[1..]
  {
    if NoDup(s) {
      forall k | 0 <= k < |s[1..]| ensures s[1..][k] != s[0] {
        assert s[1..][k] == s[k + 1];
      }
    }
  }

  lemma NoDupCons(x: PostId, s: seq<PostId>)
    ensures x !in s && NoDup(s) ==> NoDup([x] + s)
  {
  }

  /** Pulling an id that is listed once shortens the list by exactly one. */
  lemma {:induction false} WithoutListedOnce(s: seq<PostId>, id: PostId)
    requires NoDup(s) && id in s
    ensures |Without(s, id)| == |s| - 1
    decreases |s|
  {
    if s[0] != id {
      NoDupTail(s);
      assert id in s[1..];
      WithoutListedOnce(s[1..], id);
    } else {
      NoDupTail(s);
      WithoutAbsent(s[1..], id);
    }
  }

  lemma {:induction false} WithoutAbsent(s: seq<PostId>, id: PostId)
    requires id !in s
    ensures Without(s, id) == s
    decreases |s|
  {
    if s != [] {
      assert s[0] != id;
      WithoutAbsent(s[1..], id);
      assert [s[0]] + s[1..] == s;
    }
  }

  /** Changing a user's fields other than `email` keeps emails unique. */
  lemma SameEmailKeepsUnique(users: map<UserId, User>, u: UserId, user: User)
    requires UniqueEmails(users) && u in users && user.email == users[u].email
    ensures UniqueEmails(users[u := user])
  {
  }

  /** A post stamped with the current clock, followed by a tick, keeps the
      timestamps behind the clock. */
  lemma StampKeepsTimestamps(posts: map<PostId, Post>, clock: nat, id: PostId, post: Post)
    requires Timestamps(posts, clock)
    requires post.createdAt <= post.updatedAt == clock
    ensures Timestamps(posts[id := post], clock + 1)
  {
  }

  /** A post created at the current clock is newer than every stored post,
      so creation moments stay distinct. */
  lemma FreshStampKeepsDistinct(posts: map<PostId, Post>, clock: nat, id: PostId, post: Post)
    requires Timestamps(posts, clock) && DistinctStamps(posts)
    requires id !in posts && post.createdAt == clock
    ensures DistinctStamps(posts[id := post])
  {
  }

  /** A revision stamped with the current clock, followed by a tick, keeps
      the timestamps behind the clock. */
  lemma ReviseKeepsTimestamps(posts: map<PostId, Post>, clock: nat, id: PostId, post: Post)
    requires Timestamps(posts, clock) && id in posts
    requires post.createdAt == posts[id].createdAt && post.updatedAt == clock
    ensures Timestamps(posts[id := post], clock + 1)
  {
  }

  /** Revising a post without touching `createdAt` keeps creation moments
      distinct. */
  lemma SameStampKeepsDistinct(posts: map<PostId, Post>, id: PostId, post: Post)
    requires DistinctStamps(posts)
    requires id in posts && post.createdAt == posts[id].createdAt
    ensures DistinctStamps(posts[id := post])
  {
  }

  /** createPost keeps the index: a fresh post appended to its creator's list. */
  lemma AddPostKeepsIndex(users: map<UserId, User>, posts: map<PostId, Post>, id: PostId, post: Post)
    requires Indexed(users, posts)
    requires post.creator in users && id !in posts
    ensures var u := post.creator;
      Indexed(users[u := users[u].(posts := users[u].posts + [id])], posts[id := post])
  {
    var u := post.creator;
    var users' := users[u := users[u].(posts := users[u].posts + [id])];
    var posts' := posts[id := post];
    assert id !in users[u].posts;
    forall v | v in users' ensures NoDup(users'[v].posts) {
      if v == u {
        var s := users[u].posts + [id];
        forall i, j | 0 <= i < j < |s| ensures s[i] != s[j] {
          if j == |s| - 1 {
            assert s[i] == users[u].posts[i];
          }
        }
      }
    }
    forall v, p | v in users' && p in users'[v].posts ensures p in posts' && posts'[p].creator == v {
      if v == u && p != id {
        assert p in users[u].posts;
      }
    }
  }

  /** deletePost keeps the index: the post removed and pulled from its
      creator's list. */
  lemma RemovePostKeepsIndex(users: map<UserId, User>, posts: map<PostId, Post>, id: PostId)
    requires Indexed(users, posts)
    requires id in posts
    ensures var u := posts[id].creator;
      Indexed(users[u := users[u].(posts := Without(users[u].posts, id))], posts - {id})
  {
    var u := posts[id].creator;
    var users' := users[u := users[u].(posts := Without(users[u].posts, id))];
    var posts' := posts - {id};
    forall v, p | v in users' && p in users'[v].posts ensures p in posts' && posts'[p].creator == v {
      if v != u {
        assert p in users[v].posts;
        assert p != id;
      }
    }
  }

  /** updatePost keeps the index: the creator of the revised post is unchanged. */
  lemma RevisePostKeepsIndex(users: map<UserId, User>, posts: map<PostId, Post>, id: PostId, post: Post)
    requires Indexed(users, posts)
    requires id in posts && post.creator == posts[id].creator
    ensures Indexed(users, posts[id := post])
  {
  }

  /** updateStatus keeps the index: a user's own list is untouched. */
  lemma SetStatusKeepsIndex(users: map<UserId, User>, posts: map<PostId, Post>, u: UserId, status: string)
    requires Indexed(users, posts) && u in users
    ensures Indexed(users[u := users[u].(status := status)], posts)
  {
  }
}
