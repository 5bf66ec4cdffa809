/** Client runs of the resolvers, derived from the handler contracts alone. */
module Scenarios {
  import opened Errors
  import opened Records
  import opened Validation
  import opened PostQuery
  import opened Auth
  import opened Resolvers

  /** A second signup with the same email is refused and stores nothing. */
  method SignupTwice(store: Store, input: UserInput) returns (first: Result<UserRecord>, second: Result<UserRecord>)
    requires store.Valid() && store.users == map[]
    requires store.isEmail(input.email) && |input.password| >= MinPasswordLength
    modifies store
    ensures first.Ok? && store.users == map[first.value.id := first.value.user]
    ensures second == ThrowError("User already exists", Some(422), None)
  {
    first := store.SignupUser(Some(input));
    assert first.value.id in store.users;
    second := store.SignupUser(Some(input));
  }

  /** A fresh post heads the first page of loadPosts. */
  method CreateThenLoad(store: Store, ctx: Context, input: PostInput) returns (created: Result<PostRecord>, page: Result<PostsPage>)
    requires store.Valid()
    requires ctx.isAuth && Registered(store.users, ctx.userId)
    requires Passes(PostRules(input))
    modifies store
    ensures created.Ok? && page.Ok?
    ensures page.value.posts != [] && page.value.posts[0] == created.value
  {
    created := store.CreatePost(ctx, Some(input));
    NewestHeadsOrder(store.posts, store.nextId, created.value.id);
    page := store.LoadPosts(ctx, 1);
  }

  /** After deletePost the post is gone from singlePost (404) and from its
      creator's list. */
  method DeleteThenFind(store: Store, ctx: Context, postId: PostId) returns (found: Result<PostRecord>)
    requires store.Valid()
    requires ctx.isAuth && postId in store.posts && ctx.userId == Some(store.posts[postId].creator)
    modifies store
    ensures found == ThrowError("Post not found", Some(404), None)
    ensures forall u :: u in store.users ==> postId !in store.users[u].posts
  {
    var deleted := store.DeletePost(ctx, postId);
    found := store.SinglePost(ctx, postId);
  }

  /** Someone who did not create a post can neither update nor delete it, and
      the tables stay as they were. */
  method StrangerIsForbidden(store: Store, ctx: Context, postId: PostId, input: PostInput)
    returns (updated: Result<PostRecord>, deleted: Result<PostRecord>)
    requires store.Valid()
    requires ctx.isAuth && ctx.userId.Some? && Passes(PostRules(input))
    requires postId in store.posts && store.posts[postId].creator != ctx.userId.value
    modifies store
    ensures updated.Err? && updated.error.statusCode == Some(403)
    ensures deleted.Err? && deleted.error.statusCode == Some(403)
    ensures store.users == old(store.users) && store.posts == old(store.posts)
  {
    updated := store.UpdatePost(ctx, postId, Some(input));
    deleted := store.DeletePost(ctx, postId);
  }

  /** The token loginUser hands out, sent back as `Bearer <token>`,
      authenticates the request as the user who logged in, provided the
      verifier decodes what the signer produced, at any issue time, to its
      `userId` and the token has no space. */
  method LoginThenAuthenticate(store: Store, email: string, password: string, now: nat,
                               verify: Option<string> -> VerifyOutcome)
    returns (login: Result<AuthData>, req: Request)
    requires store.Valid()
    requires Passes(LoginRules(store.isEmail, email, password))
    requires forall c, t :: ' ' !in store.sign(c, t, TokenLifetime)
    requires forall c, t :: verify(Some(store.sign(c, t, TokenLifetime))) == Decoded(Some(c.userId))
    ensures login.Ok? ==> req.isAuth && req.userId == Some(login.value.userId)
    ensures login.Ok? ==> login.value.userId in store.users && store.users[login.value.userId].email == email
  {
    login := store.LoginUser(email, password, now);
    var header := if login.Ok? then Some("Bearer " + login.value.token) else None;
    req := new Request(header);
    if login.Ok? {
      BearerAuthenticates(login.value.token, Some(login.value.userId), verify);
    }
    var outcome := Authenticate(req, verify);
  }

  /** A bearer token whose payload carries no `userId` still authenticates
      the request; the creator of a post then gets a runtime failure, not
      the update, because the unset id is dereferenced. */
  method PayloadWithoutUserId(store: Store, token: string, verify: Option<string> -> VerifyOutcome,
                              postId: PostId, input: PostInput)
    returns (req: Request, updated: Result<PostRecord>)
    requires store.Valid()
    requires ' ' !in token && verify(Some(token)) == Decoded(None)
    requires postId in store.posts && Passes(PostRules(input))
    modifies store
    ensures req.isAuth && req.userId == None
    ensures updated == RuntimeFailure(UndefinedUserId)
    ensures store.posts == old(store.posts)
  {
    req := new Request(Some("Bearer " + token));
    BearerAuthenticates(token, None, verify);
    var outcome := Authenticate(req, verify);
    updated := store.UpdatePost(req.AsContext(), postId, Some(input));
  }
}
