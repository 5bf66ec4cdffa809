/** The GraphQL resolvers (graphql/resolvers.js) as methods of a store that
    holds the `users` and `posts` tables. */
module Resolvers {
  import opened Errors
  import opened Records
  import opened Validation
  import opened PostQuery

  datatype UserInput = UserInput(email: string, name: string, password: string)
  datatype PostInput = PostInput(title: string, content: string, imageUrl: string)
  datatype StatusInput = StatusInput(status: string)
  datatype AuthData = AuthData(token: string, userId: UserId)
  datatype UserRecord = UserRecord(id: UserId, user: User)
  datatype PostRecord = PostRecord(id: PostId, post: Post)
  datatype PostsPage = PostsPage(posts: seq<PostRecord>, totalPosts: nat)

  /** `expiresIn: "1h"`, in seconds. */
  const TokenLifetime: nat := 3600
  const MinPasswordLength: nat := 8
  const MinTextLength: nat := 5

  /** What the runtime throws when a member of `undefined` or `null` is read. */
  function ReadOfUndefined(member: string): string
  {
    "Cannot read properties of undefined (reading '" + member + "')"
  }
  const UndefinedUserId := ReadOfUndefined("toString")
  const NullPost := "Cannot read properties of null (reading 'creator')"
  /** What the database driver throws for `skip` below zero. */
  const NegativeSkip := "skip value must be non-negative"

  function SignupRules(isEmail: string -> bool, input: UserInput): seq<Rule>
  {
    [Rule(isEmail(input.email), "Invalid email"),
     Rule(LongEnough(input.password, MinPasswordLength), "Passowrd is too short")]
  }

  function LoginRules(isEmail: string -> bool, email: string, password: string): seq<Rule>
  {
    [Rule(isEmail(email), "Invalid email address"),
     Rule(LongEnough(password, MinPasswordLength), "Passwords must be atleast 8 characters long")]
  }

  /** The rules of createPost and updatePost. */
  function PostRules(input: PostInput): seq<Rule>
  {
    [Rule(LongEnough(input.title, MinTextLength), "The title is too short, minimum length is 5"),
     Rule(LongEnough(input.content, MinTextLength), "The content is too short, minimum length is 5")]
  }

  function StatusRules(status: string): seq<Rule>
  {
    [Rule(LongEnough(status, MinTextLength), "Status is too short")]
  }

  /** `errorHandler(message, 422, errors)`. */
  function BadInput<T>(message: string, rules: seq<Rule>): Result<T>
  {
    ThrowError(message, Some(422), Some(Violations(rules)))
  }

  function NotAuthenticated<T>(): Result<T>
  {
    ThrowError("Not authenticated", Some(401), None)
  }

  /** The image a post keeps after updatePost: the literal string "undefined"
      (what the client sends when no new image was uploaded) keeps the old one. */
  function ImageAfterUpdate(current: string, supplied: string): string
  {
    if supplied == "undefined" then current else supplied
  }

  /** `posts.map(p => ({ ...p._doc, _id: ... }))`. */
  function AsRecords(ids: seq<PostId>, posts: map<PostId, Post>): seq<PostRecord>
    requires forall i :: 0 <= i < |ids| ==> ids[i] in posts
  {
    seq(|ids|, i requires 0 <= i < |ids| => PostRecord(ids[i], posts[ids[i]]))
  }

  /** The records of one page of a newest-first listing are stored posts,
      at most two, distinct, and strictly newest first. */
  lemma PageRecords(ordered: seq<PostId>, skip: nat, posts: map<PostId, Post>)
    requires DistinctStamps(posts) && NoDup(ordered) && NewestFirstOrder(ordered, posts)
    ensures var rs := AsRecords(PageSlice(ordered, skip), posts);
      |rs| <= ItemsPerPage &&
      (forall i :: 0 <= i < |rs| ==> rs[i].id in posts && posts[rs[i].id] == rs[i].post) &&
      (forall i, j :: 0 <= i < j < |rs| ==> rs[i].id != rs[j].id && rs[i].post.createdAt > rs[j].post.createdAt)
  {
    StrictlyNewestFirst(ordered, posts);
    var ids := PageSlice(ordered, skip);
    var rs := AsRecords(ids, posts);
    assert forall k :: 0 <= k < |rs| ==> rs[k] == PostRecord(ids[k], posts[ids[k]]);
    forall i, j | 0 <= i < j < |rs| ensures rs[i].id != rs[j].id && rs[i].post.createdAt > rs[j].post.createdAt {
      assert ids[i] == ordered[skip + i] && ids[j] == ordered[skip + j];
    }
  }

  /** A post whose title and content are both too short gets both entries, in
      rule order. */
  lemma TwoShortFields(imageUrl: string)
    ensures Violations(PostRules(PostInput("abc", "ab", imageUrl))) ==
      [Violation("The title is too short, minimum length is 5"),
       Violation("The content is too short, minimum length is 5")]
  {
    AllRulesFail(PostRules(PostInput("abc", "ab", imageUrl)));
  }

  /** The two tables, the id and time supplies, and the foreign services the
      resolvers call (passed in at start-up). */
  class Store {
    var users: map<UserId, User>
    var posts: map<PostId, Post>
    /** Next fresh object id; every id in either table is below it. */
    var nextId: nat
    /** Logical time for the automatic `createdAt`/`updatedAt` stamps. */
    var clock: nat
    /** Image paths handed to `clearImage`, in order. */
    ghost var releasedImages: seq<string>

    /** `validator.isEmail`. */
    const isEmail: string -> bool
    /** `bcrypt.hash(password, 12)`. */
    const hash: string -> string
    /** `bcrypt.compare(password, hash)`. */
    const matches: (string, string) -> bool
    /** `jwt.sign(claims, secret, { expiresIn })`: the claims, the issue time
        (`iat`, read from the wall clock) and the lifetime, from which the
        library derives `exp`. */
    const sign: (Claims, nat, nat) -> string
    /** The status a new user document starts with. */
    const newUserStatus: string

    ghost predicate Valid()
      reads this
    {
      (forall u :: u in users ==> u < nextId) &&
      (forall p :: p in posts ==> p < nextId) &&
      UniqueEmails(users) &&
      Indexed(users, posts) &&
      Timestamps(posts, clock) &&
      DistinctStamps(posts)
    }

    constructor (isEmail: string -> bool, hash: string -> string, matches: (string, string) -> bool,
                 sign: (Claims, nat, nat) -> string, newUserStatus: string)
      ensures Valid()
      ensures users == map[] && posts == map[] && releasedImages == []
      ensures this.isEmail == isEmail && this.hash == hash && this.matches == matches
      ensures this.sign == sign && this.newUserStatus == newUserStatus
    {
      this.isEmail, this.hash, this.matches, this.sign := isEmail, hash, matches, sign;
      this.newUserStatus := newUserStatus;
      users, posts, nextId, clock := map[], map[], 0, 0;
      releasedImages := [];
    }

    /** signupUser: validate, refuse a taken email, store one fresh user. An
        omitted `userInput` fails on its first read. */
    method SignupUser(input: Option<UserInput>) returns (r: Result<UserRecord>)
      requires Valid()
      modifies this
      ensures Valid()
      ensures input.None? ==> r == RuntimeFailure(ReadOfUndefined("email"))
      ensures input.Some? ==> var vs := Violations(SignupRules(isEmail, input.value));
        vs != [] ==> r == ThrowError("Bad Input", Some(422), Some(vs))
      ensures input.Some? && Violations(SignupRules(isEmail, input.value)) == [] &&
              EmailTaken(old(users), input.value.email) ==>
        r == ThrowError("User already exists", Some(422), None)
      ensures input.Some? && Violations(SignupRules(isEmail, input.value)) == [] &&
              !EmailTaken(old(users), input.value.email) ==>
        var i := input.value;
        r.Ok? && r.value.id !in old(users) && r.value.id !in old(posts) &&
        r.value.user == User(i.email, hash(i.password), i.name, newUserStatus, []) &&
        users == old(users)[r.value.id := r.value.user]
      ensures r.Err? ==> users == old(users) && nextId == old(nextId)
      ensures r.Ok? ==> nextId == old(nextId) + 1
      ensures posts == old(posts) && clock == old(clock) && releasedImages == old(releasedImages)
    {
      if input.None? {
        return RuntimeFailure(ReadOfUndefined("email"));
      }
      var i := input.value;
      var errors := Violations(SignupRules(isEmail, i));
      if |errors| > 0 {
        return ThrowError("Bad Input", Some(422), Some(errors));
      }
      if EmailTaken(users, i.email) {
        return ThrowError("User already exists", Some(422), None);
      }
      var id := nextId;
      var user := User(i.email, hash(i.password), i.name, newUserStatus, []);
      users := users[id := user];
      nextId := nextId + 1;
      r := Ok(UserRecord(id, user));
    }

    /** loginUser: validate, find the user by email, compare the password,
        sign `{ email, userId }` for one hour from `now`, the wall-clock time of
        the call. Changes nothing. */
    method LoginUser(email: string, password: string, now: nat) returns (r: Result<AuthData>)
      requires Valid()
      ensures var vs := Violations(LoginRules(isEmail, email, password));
        vs != [] ==> r == ThrowError("Bad Input!", Some(422), Some(vs))
      ensures Violations(LoginRules(isEmail, email, password)) == [] && !EmailTaken(users, email) ==>
        r == ThrowError("User Not Found", Some(401), None)
      ensures Violations(LoginRules(isEmail, email, password)) == [] ==>
        forall u :: u in users && users[u].email == email ==>
          r == if matches(password, users[u].passwordHash)
               then Ok(AuthData(sign(Claims(email, u), now, TokenLifetime), u))
               else ThrowError("Invalid email or password", Some(422), None)
    {
      var errors := Violations(LoginRules(isEmail, email, password));
      if |errors| > 0 {
        return ThrowError("Bad Input!", Some(422), Some(errors));
      }
      if !EmailTaken(users, email) {
        return ThrowError("User Not Found", Some(401), None);
      }
      var u :| u in users && users[u].email == email;
      if !matches(password, users[u].passwordHash) {
        return ThrowError("Invalid email or password", Some(422), None);
      }
      var token := sign(Claims(email, u), now, TokenLifetime);
      r := Ok(AuthData(token, u));
    }

    /** createPost: authenticated, validated, by an existing user; stores one
        fresh post and appends its id to the creator's list. */
    method CreatePost(ctx: Context, input: Option<PostInput>) returns (r: Result<PostRecord>)
      requires Valid()
      modifies this
      ensures Valid()
      ensures !ctx.isAuth ==> r == NotAuthenticated()
      ensures ctx.isAuth && input.None? ==> r == RuntimeFailure(ReadOfUndefined("title"))
      ensures ctx.isAuth && input.Some? && Violations(PostRules(input.value)) != [] ==>
        r == BadInput("Bad Input!", PostRules(input.value))
      ensures ctx.isAuth && input.Some? && Violations(PostRules(input.value)) == [] &&
              !Registered(old(users), ctx.userId) ==>
        r == ThrowError("Invalid user", Some(403), None)
      ensures ctx.isAuth && input.Some? && Violations(PostRules(input.value)) == [] &&
              Registered(old(users), ctx.userId) ==>
        var u, i := ctx.userId.value, input.value;
        r.Ok? && r.value.id !in old(posts) && r.value.id !in old(users) &&
        r.value.post == Post(i.title, i.content, i.imageUrl, u, old(clock), old(clock)) &&
        posts == old(posts)[r.value.id := r.value.post] &&
        users == old(users)[u := old(users)[u].(posts := old(users)[u].posts + [r.value.id])]
      ensures r.Ok? ==> forall p :: p in old(posts) ==> old(posts)[p].createdAt < r.value.post.createdAt
      ensures r.Ok? ==> nextId == old(nextId) + 1 && clock == old(clock) + 1
      ensures r.Err? ==> users == old(users) && posts == old(posts) && nextId == old(nextId) && clock == old(clock)
      ensures releasedImages == old(releasedImages)
    {
      if !ctx.isAuth {
        return NotAuthenticated();
      }
      if input.None? {
        return RuntimeFailure(ReadOfUndefined("title"));
      }
      var i := input.value;
      var errors := Violations(PostRules(i));
      if |errors| > 0 {
        return ThrowError("Bad Input!", Some(422), Some(errors));
      }
      if !Registered(users, ctx.userId) {
        return ThrowError("Invalid user", Some(403), None);
      }
      var u := ctx.userId.value;
      var id := nextId;
      var post := Post(i.title, i.content, i.imageUrl, u, clock, clock);
      AddPostKeepsIndex(users, posts, id, post);
      StampKeepsTimestamps(posts, clock, id, post);
      FreshStampKeepsDistinct(posts, clock, id, post);
      posts := posts[id := post];
      var user := users[u];
      SameEmailKeepsUnique(users, u, user.(posts := user.posts + [id]));
      users := users[u := user.(posts := user.posts + [id])];
      nextId, clock := nextId + 1, clock + 1;
      r := Ok(PostRecord(id, post));
    }

    /** loadPosts: page `currentPage || 1` of the posts, newest first, two per
        page, with the count of all posts. Changes nothing. */
    method LoadPosts(ctx: Context, currentPage: int) returns (r: Result<PostsPage>)
      requires Valid()
      ensures !ctx.isAuth ==> r == NotAuthenticated()
      ensures ctx.isAuth && currentPage < 0 ==> r == RuntimeFailure(NegativeSkip)
      ensures ctx.isAuth && currentPage >= 0 ==>
        r.Ok? && r.value.totalPosts == |posts| &&
        r.value.posts == AsRecords(PageSlice(NewestFirst(posts, nextId), Skip(currentPage)), posts)
      ensures r.Ok? ==> |r.value.posts| <= ItemsPerPage
      ensures r.Ok? ==> forall i :: 0 <= i < |r.value.posts| ==>
        r.value.posts[i].id in posts && posts[r.value.posts[i].id] == r.value.posts[i].post
      ensures r.Ok? ==> forall i, j :: 0 <= i < j < |r.value.posts| ==>
        r.value.posts[i].id != r.value.posts[j].id &&
        r.value.posts[i].post.createdAt > r.value.posts[j].post.createdAt
    {
      if !ctx.isAuth {
        return NotAuthenticated();
      }
      var totalPosts := |posts|;
      var skip := Skip(currentPage);
      if skip < 0 {
        return RuntimeFailure(NegativeSkip);
      }
      var ordered := NewestFirst(posts, nextId);
      PageRecords(ordered, skip, posts);
      var records := AsRecords(PageSlice(ordered, skip), posts);
      // `if (!posts)` is never taken: a query result is an array, never falsy.
      r := Ok(PostsPage(records, totalPosts));
    }

    /** singlePost: the post by id, or 404. Changes nothing. */
    method SinglePost(ctx: Context, postId: PostId) returns (r: Result<PostRecord>)
      ensures !ctx.isAuth ==> r == NotAuthenticated()
      ensures ctx.isAuth && postId !in posts ==> r == ThrowError("Post not found", Some(404), None)
      ensures ctx.isAuth && postId in posts ==> r == Ok(PostRecord(postId, posts[postId]))
    {
      if !ctx.isAuth {
        return NotAuthenticated();
      }
      if postId !in posts {
        return ThrowError("Post not found", Some(404), None);
      }
      r := Ok(PostRecord(postId, posts[postId]));
    }

    /** updatePost: after validation, 404 for a missing post and 403 for a
        requester who is not its creator; then the new title, content and
        (unless "undefined") image, and a fresh `updatedAt`. */
    method UpdatePost(ctx: Context, postId: PostId, input: Option<PostInput>) returns (r: Result<PostRecord>)
      requires Valid()
      modifies this
      ensures Valid()
      ensures !ctx.isAuth ==> r == NotAuthenticated()
      ensures ctx.isAuth && input.None? ==> r == RuntimeFailure(ReadOfUndefined("title"))
      ensures ctx.isAuth && input.Some? && Violations(PostRules(input.value)) != [] ==>
        r == BadInput("Bad Input!", PostRules(input.value))
      ensures ctx.isAuth && input.Some? && Violations(PostRules(input.value)) == [] && postId !in old(posts) ==>
        r == ThrowError("No post found", Some(404), None)
      ensures ctx.isAuth && input.Some? && Violations(PostRules(input.value)) == [] && postId in old(posts) &&
              ctx.userId == None ==>
        r == RuntimeFailure(UndefinedUserId)
      ensures ctx.isAuth && input.Some? && Violations(PostRules(input.value)) == [] && postId in old(posts) &&
              ctx.userId.Some? && old(posts)[postId].creator != ctx.userId.value ==>
        r == ThrowError("Not auhtorized", Some(403), None)
      ensures ctx.isAuth && input.Some? && Violations(PostRules(input.value)) == [] && postId in old(posts) &&
              ctx.userId == Some(old(posts)[postId].creator) ==>
        var p, i := old(posts)[postId], input.value;
        r == Ok(PostRecord(postId, p.(title := i.title, content := i.content,
                                     imageUrl := ImageAfterUpdate(p.imageUrl, i.imageUrl),
                                     updatedAt := old(clock)))) &&
        posts == old(posts)[postId := r.value.post]
      ensures r.Ok? ==> clock == old(clock) + 1
      ensures r.Err? ==> posts == old(posts) && clock == old(clock)
      ensures users == old(users) && nextId == old(nextId) && releasedImages == old(releasedImages)
    {
      if !ctx.isAuth {
        return NotAuthenticated();
      }
      if input.None? {
        return RuntimeFailure(ReadOfUndefined("title"));
      }
      var i := input.value;
      var errors := Violations(PostRules(i));
      if |errors| > 0 {
        return ThrowError("Bad Input!", Some(422), Some(errors));
      }
      if postId !in posts {
        return ThrowError("No post found", Some(404), None);
      }
      var post := posts[postId];
      if ctx.userId == None {
        return RuntimeFailure(UndefinedUserId);
      }
      if post.creator != ctx.userId.value {
        return ThrowError("Not auhtorized", Some(403), None);
      }
      if i.imageUrl != "undefined" {
        post := post.(imageUrl := i.imageUrl);
      }
      post := post.(title := i.title, content := i.content, updatedAt := clock);
      assert post == posts[postId].(title := i.title, content := i.content,
                                    imageUrl := ImageAfterUpdate(posts[postId].imageUrl, i.imageUrl),
                                    updatedAt := clock);
      RevisePostKeepsIndex(users, posts, postId, post);
      ReviseKeepsTimestamps(posts, clock, postId, post);
      SameStampKeepsDistinct(posts, postId, post);
      posts := posts[postId := post];
      clock := clock + 1;
      r := Ok(PostRecord(postId, post));
    }

    /** deletePost: 403 for a requester who is not the creator; then the image
        is released, the post removed and pulled from the creator's list, and
        the removed record returned. There is no 404: a missing post is
        dereferenced. */
    method DeletePost(ctx: Context, postId: PostId) returns (r: Result<PostRecord>)
      requires Valid()
      modifies this
      ensures Valid()
      ensures !ctx.isAuth ==> r == NotAuthenticated()
      ensures ctx.isAuth && postId !in old(posts) ==> r == RuntimeFailure(NullPost)
      ensures ctx.isAuth && postId in old(posts) && ctx.userId == None ==> r == RuntimeFailure(UndefinedUserId)
      ensures ctx.isAuth && postId in old(posts) && ctx.userId.Some? && old(posts)[postId].creator != ctx.userId.value ==>
        r == ThrowError("Not authenticated", Some(403), None)
      ensures ctx.isAuth && postId in old(posts) && ctx.userId == Some(old(posts)[postId].creator) ==>
        var u := ctx.userId.value;
        r == Ok(PostRecord(postId, old(posts)[postId])) &&
        posts == old(posts) - {postId} &&
        users == old(users)[u := old(users)[u].(posts := Without(old(users)[u].posts, postId))] &&
        releasedImages == old(releasedImages) + [old(posts)[postId].imageUrl]
      ensures r.Err? ==> users == old(users) && posts == old(posts) && releasedImages == old(releasedImages)
      ensures nextId == old(nextId) && clock == old(clock)
    {
      if !ctx.isAuth {
        return NotAuthenticated();
      }
      if postId !in posts {
        return RuntimeFailure(NullPost);
      }
      var deleted := posts[postId];
      if ctx.userId == None {
        return RuntimeFailure(UndefinedUserId);
      }
      var u := ctx.userId.value;
      if deleted.creator != u {
        return ThrowError("Not authenticated", Some(403), None);
      }
      releasedImages := releasedImages + [deleted.imageUrl];
      RemovePostKeepsIndex(users, posts, postId);
      posts := posts - {postId};
      var user := users[u];
      users := users[u := user.(posts := Without(user.posts, postId))];
      r := Ok(PostRecord(postId, deleted));
    }

    /** userStatus: the requester's status, or 404. Changes nothing. */
    method UserStatus(ctx: Context) returns (r: Result<string>)
      ensures !ctx.isAuth ==> r == NotAuthenticated()
      ensures ctx.isAuth && !Registered(users, ctx.userId) ==> r == ThrowError("No status found", Some(404), None)
      ensures ctx.isAuth && Registered(users, ctx.userId) ==> r == Ok(users[ctx.userId.value].status)
    {
      if !ctx.isAuth {
        return NotAuthenticated();
      }
      if !Registered(users, ctx.userId) {
        return ThrowError("No status found", Some(404), None);
      }
      r := Ok(users[ctx.userId.value].status);
    }

    /** updateStatus: after validation, 404 for a missing user; then only the
        requester's `status` changes. */
    method UpdateStatus(ctx: Context, input: Option<StatusInput>) returns (r: Result<string>)
      requires Valid()
      modifies this
      ensures Valid()
      ensures !ctx.isAuth ==> r == NotAuthenticated()
      ensures ctx.isAuth && input.None? ==> r == RuntimeFailure(ReadOfUndefined("status"))
      ensures ctx.isAuth && input.Some? && Violations(StatusRules(input.value.status)) != [] ==>
        r == BadInput("Bad Input", StatusRules(input.value.status))
      ensures ctx.isAuth && input.Some? && Violations(StatusRules(input.value.status)) == [] &&
              !Registered(old(users), ctx.userId) ==>
        r == ThrowError("User does not exist", Some(404), None)
      ensures ctx.isAuth && input.Some? && Violations(StatusRules(input.value.status)) == [] &&
              Registered(old(users), ctx.userId) ==>
        var u, status := ctx.userId.value, input.value.status;
        r == Ok(status) && users == old(users)[u := old(users)[u].(status := status)]
      ensures r.Err? ==> users == old(users)
      ensures posts == old(posts) && nextId == old(nextId) && clock == old(clock)
      ensures releasedImages == old(releasedImages)
    {
      if !ctx.isAuth {
        return NotAuthenticated();
      }
      if input.None? {
        return RuntimeFailure(ReadOfUndefined("status"));
      }
      var status := input.value.status;
      var errors := Violations(StatusRules(status));
      if |errors| > 0 {
        return ThrowError("Bad Input", Some(422), Some(errors));
      }
      if !Registered(users, ctx.userId) {
        return ThrowError("User does not exist", Some(404), None);
      }
      // The 403 check compares the found user's id with `req.userId`, the id
      // it was found by, so it never fires.
      var u := ctx.userId.value;
      SetStatusKeepsIndex(users, posts, u, status);
      users := users[u := users[u].(status := status)];
      r := Ok(status);
    }
  }
}
