# Blog backend resolvers, modelled in Dafny

This project models the core of a small blogging backend that is exposed over GraphQL. The core has three parts:

- **The resolvers** (`graphql/resolvers.js`): signup, login, and create, list, read, update and delete of posts. They also read and update a user's status.
- **The auth gate** (`middlewares/auth.js`): it marks every request as authenticated or not before any resolver runs.
- **The error helpers** (`utils/error-handler.js`).

The resolvers work on two tables:
- `users` maps a user id to `{email, passwordHash, name, status, posts}`.
- `posts` maps a post id to `{title, content, imageUrl, creator, createdAt, updatedAt}`.

`user.posts` is a back-reference index: the ids of the posts that user created. `post.creator` is authoritative.

Modules, one per component:

- `Errors` (errors.dfy) models `utils/error-handler.js`.
  - The thrown error record is the `Error` type: `message`, an optional `statusCode` and an optional `data`.
  - `ThrowError` builds it, with `statusCode` defaulting to 500 and `data` to null.
  - `ErrorHandler` works on a mutable `ErrorObject`. It sets a falsy status code (absent or 0) to 500 and hands the same object on.
  - A handler's outcome is `Result<T>`: `Ok(value)`, or `Err(error)` for a thrown error.
- `Records` (records.dfy) holds:
  - the two record types, the identity-token payload `Claims`, and the request context `{isAuth, userId}`;
  - the invariants over the tables: emails are unique, and `Indexed` says that each user's `posts` list holds exactly the ids of that user's posts, each once;
  - lemmas that createPost, deletePost, updatePost and updateStatus each keep the index.
- `Validation` (validation.dfy): field rules are evaluated with no short-circuit, and each failed rule adds one `{message}` entry, in rule order.
- `PostQuery` (post_query.dfy) models the query that `loadPosts` sends:
  - it sorts all posts by `createdAt`, newest first (an insertion sort proved to return a permutation in that order);
  - then it skips `(page - 1) * 2` and keeps at most 2, where `page` is `currentPage || 1`.
- `Auth` (auth.dfy) models the middleware:
  - `Split` is JavaScript's `split(" ")`, including empty pieces; `BearerToken` is its element 1.
  - `Gate` is the gate's decision, and `Authenticate` sets `isAuth` and `userId` on a `Request` object.
- `Resolvers` (resolvers.dfy): a `Store` class holds the two tables, and each resolver is a method on it.
  - The methods that write state keep the invariant `Valid()` and state the entire new state: the tables, the id counter `nextId`, the clock and the image log.
  - `LoginUser`, `LoadPosts`, `SinglePost` and `UserStatus` have no `modifies` clause, so they change nothing.
  - Every handler runs its checks in the source's order: 401 when `isAuth` is false; then validation (422, carrying every failed rule); then 404 and 403.
  - The 401 and 422 outcomes are stated as functions of the inputs alone. No table is consulted for them.
- `Scenarios` (scenarios.dfy): client runs proved from the handler contracts alone:
  - a second signup with the same email fails;
  - a new post heads page 1;
  - a deleted post is gone (404) and is no longer in its creator's list;
  - a user who is not the creator gets 403 on update and delete, and nothing changes;
  - the token that login hands out authenticates the same user at the gate, provided the verifier decodes what the signer produced to its `userId` and signed tokens contain no space;
  - a token whose payload has no `userId` still authenticates, and updatePost then fails on the unset id.

Foreign pieces have no body that could give them meaning. They are function-valued parameters fixed when the store is built:
- `isEmail` is `validator.isEmail`;
- `hash` is `bcrypt.hash`;
- `matches` is `bcrypt.compare`;
- `sign` is `jwt.sign`, with the secret folded in. It takes the claims, the issue time and the lifetime, and loginUser receives the wall-clock time of the call as the parameter `now`, so two logins at different times may get different tokens;
- `verify`, passed to the gate, is `jwt.verify`, with the secret folded in.

No property of these functions is assumed, and none of them reads a clock or a random source on its own: time comes in as a parameter and bcrypt's salt is left out (see below). Length checks are on sequence length: `isEmpty(s)` is `|s| == 0` and `isLength(s, {min})` is `|s| >= min`.

Database ids come from one counter, `nextId`, so an id is fresh in both tables. The automatic timestamps come from a logical clock, `clock`, which advances on every post create and update. Paths passed to `clearImage` are recorded in the ghost log `releasedImages`. Because every post is stamped with a clock value above all earlier ones, no two posts share a `createdAt` in the model; `Valid()` keeps that as `DistinctStamps`, so the newest-first order of loadPosts is fully determined. Real millisecond timestamps can coincide (see "## Left out").

Behaviour of the code the model keeps:
- **The gate rethrows.** An exception from `jwt.verify` (a malformed or expired token, or a header without a space, where the token is `undefined`) is rethrown. The request is not treated as unauthenticated (`Gate` returns `Rejected`).
- **The empty header.** An empty `Authorization` header is falsy, so it counts as no header at all.
- **No 404 on delete.** deletePost has no "not found" check. A missing post is dereferenced, and the result is a runtime error with no status code (`RuntimeFailure`).
- **Undefined user id.** The gate copies the payload's `userId` as it is, so a decoded payload without one leaves an authenticated request whose `userId` is unset. updatePost and deletePost then fail the same way, because they call `req.userId.toString()`.
- **Omitted input.** `userInput` is a nullable GraphQL argument. When it is omitted, signupUser fails on its first read, and createPost, updatePost and updateStatus fail right after the 401 check, each with a runtime error and no status code.
- **Image replacement.** updatePost keeps the old image only when the supplied `imageUrl` is the literal string `"undefined"`. It does not test whether a value was supplied.
- **Messages.** The model uses the source's messages exactly, typos included ("Passowrd is too short", "Not auhtorized"). deletePost's 403 says "Not authenticated".
- **Negative pages.** A negative `currentPage` gives a negative skip, which the database driver rejects. This is modelled as a runtime error with no status code.

## Model

| member | source | states |
|---|---|---|
| Errors.ThrowError | utils/error-handler.js:8-13 | never returns normally: the result is always an error carrying the given message; statusCode defaults to 500 and data to null when omitted |
| Errors.RuntimeFailure | graphql/resolvers.js:240-241 | a runtime dereference error: a failure with the given message, no truthy status code and no data |
| Errors.WithDefaultStatus | utils/error-handler.js:2-4 | status code becomes 500 exactly when it is absent or 0; a truthy one and every other field are kept |
| Errors.WithDefaultStatusIdempotent | utils/error-handler.js:2-4 | defaulting twice equals defaulting once |
| Errors.ThrownStatusSurvives | utils/error-handler.js:2-12 | a non-zero status set by throwError is left untouched by errorHandler |
| Errors.ErrorHandler | utils/error-handler.js:1-6 | mutates only statusCode (to the defaulted value) and forwards the very same object, once |
| Records.Without | graphql/resolvers.js:247 | `posts.pull(id)`: removes every occurrence of id and keeps all other ids; keeps a list duplicate-free |
| Records.WithoutListedOnce | graphql/resolvers.js:247 | pulling an id listed once shortens the list by exactly one |
| Records.AddPostKeepsIndex | graphql/resolvers.js:110-119 | storing a fresh post and appending its id to its creator's list keeps the back-reference index exact |
| Records.RemovePostKeepsIndex | graphql/resolvers.js:240-248 | removing a post and pulling it from its creator's list keeps the index exact |
| Records.RevisePostKeepsIndex | graphql/resolvers.js:218-224 | rewriting a post without changing its creator keeps the index |
| Records.SetStatusKeepsIndex | graphql/resolvers.js:299-300 | changing a user's status keeps the index |
| Records.FreshStampKeepsDistinct | graphql/resolvers.js:110-117 | a post created at the current clock keeps creation moments distinct |
| Records.SameStampKeepsDistinct | graphql/resolvers.js:218-224 | a revision that keeps `createdAt` keeps creation moments distinct |
| Validation.Violations | graphql/resolvers.js:86-103 | at most one entry per rule; empty exactly when every rule holds |
| Validation.EntriesAreFailedRules | graphql/resolvers.js:86-103 | each entry of the error list is the message of a rule that failed |
| Validation.ViolationsAppend | graphql/resolvers.js:86-103 | no short-circuit: the entries of later rules are the same whatever earlier rules gave |
| Validation.AllRulesFail | graphql/resolvers.js:86-103 | when all rules fail there is exactly one entry per rule, in rule order |
| Validation.LongEnough | graphql/resolvers.js:18-21 | definition: neither empty nor shorter than `min`, the shape of every length rule |
| Validation.OneRule | graphql/resolvers.js:279-288 | a single rule contributes nothing or exactly its own message |
| Resolvers.SignupRules | graphql/resolvers.js:15-23 | definition: the email rule, then the password-length rule, with the source's messages |
| Resolvers.LoginRules | graphql/resolvers.js:46-54 | definition: the email rule, then the password-length rule, with the source's messages |
| Resolvers.PostRules | graphql/resolvers.js:87-100 | definition: the title rule, then the content rule, both with minimum length 5 and the source's messages |
| Resolvers.StatusRules | graphql/resolvers.js:280-285 | definition: the one status-length rule with its message |
| Resolvers.ImageAfterUpdate | graphql/resolvers.js:218-221 | definition: the supplied image replaces the stored one unless it is the literal string "undefined" |
| Resolvers.PageRecords | graphql/resolvers.js:139-155 | the records of one page are stored posts, at most two, with distinct ids, strictly newest first |
| Resolvers.TwoShortFields | graphql/resolvers.js:86-103 | a post with title "abc" and content "ab" gets exactly the two entries, title first |
| PostQuery.PageNumber | graphql/resolvers.js:136 | definition: the requested page, or 1 when it is 0 (JavaScript's falsy default) |
| PostQuery.Skip | graphql/resolvers.js:136-140 | page is currentPage, or 1 when it is 0: skip is (currentPage-1)*2 for positive pages, 0 for page 0, negative exactly for negative pages |
| PostQuery.PageSlice | graphql/resolvers.js:139-141 | skip then limit 2: length is min(2, remaining), and the elements are the ordered result from the skip onward |
| PostQuery.PagesTile | graphql/resolvers.js:136-141 | pages 1..k laid end to end are exactly the first 2k posts, so every post is on exactly one page |
| PostQuery.FivePosts | graphql/resolvers.js:136-141 | with five posts, page 1 holds two, page 3 holds one, and page 0 is page 1 |
| PostQuery.Insert | graphql/resolvers.js:142 | inserting into a newest-first list adds exactly that id and keeps the order |
| PostQuery.SortNewestFirst | graphql/resolvers.js:142 | `sort({createdAt: -1})`: a permutation of its input, ordered newest first |
| PostQuery.NewestFirst | graphql/resolvers.js:139-142 | every post of the table exactly once, ordered by createdAt descending |
| PostQuery.NewestHeadsOrder | graphql/resolvers.js:142 | a post newer than all others comes first |
| PostQuery.NewestFirstUnique | graphql/resolvers.js:139-142 | with distinct `createdAt`, every duplicate-free newest-first listing of all posts is the one NewestFirst returns, so its internal tie-break never shows |
| PostQuery.StrictlyNewestFirst | graphql/resolvers.js:142 | with distinct `createdAt`, a duplicate-free newest-first listing is strictly ordered |
| Auth.Split | middlewares/auth.js:12 | `split(" ")`: at least one piece, no piece contains a space, one piece exactly when there is no space |
| Auth.JoinSplit | middlewares/auth.js:12 | joining the pieces with single spaces gives back the header |
| Auth.BearerToken | middlewares/auth.js:12 | element 1 of the split: present exactly when the header has a space, and it holds no space |
| Auth.TokenAfterScheme | middlewares/auth.js:12 | the token is exactly what stands between the first and the second space |
| Auth.SchemeOnlyHasNoToken | middlewares/auth.js:12 | a header without a space yields an undefined token |
| Auth.Gate | middlewares/auth.js:6-23 | definition of the decision: no header or a falsy verify result gives unauthenticated; a decoded payload authenticates with its `userId`, set or not; a verifier error is rethrown (its properties are the Auth lemmas below) |
| Auth.NoHeaderUnauthenticated | middlewares/auth.js:6-10 | an absent or empty header leaves the request unauthenticated without consulting the verifier |
| Auth.AuthenticatedOnlyByVerifier | middlewares/auth.js:13-20 | the request is authenticated only when the verifier decoded the token, and then with the payload's userId |
| Auth.BearerAuthenticates | middlewares/auth.js:12-20 | `Bearer <t>`, where the verifier decodes t to a payload, authenticates with that payload's userId, set or not |
| Auth.Authenticate | middlewares/auth.js:4-24 | falsy header or falsy verify result: isAuth false and userId untouched; decoded: isAuth true and userId copied from the payload; verifier error: rethrown with the request untouched |
| Resolvers.Store.SignupUser | graphql/resolvers.js:12-42 | runtime error for an omitted input; 422 with every failed rule before any lookup; 422 "User already exists" and no write for a taken email; otherwise exactly one fresh user with the given email, name and hashed password and the id counter advanced; on an error nothing changes; posts and clock never change; email uniqueness kept |
| Resolvers.Store.LoginUser | graphql/resolvers.js:43-80 | changes nothing; 422 on failed rules; 401 for an unknown email; 422 on a password that does not match; otherwise that user's id and a token signed over {email, userId}, issued at the call's time, for 3600 s |
| Resolvers.Store.CreatePost | graphql/resolvers.js:81-129 | 401, a runtime error for an omitted input, then 422, then 403 for a missing requester, each with no write and counter and clock unchanged; otherwise one fresh post by the requester, newer than all others, with its id appended to the requester's list, counter and clock advanced by one, and nothing else changed |
| Resolvers.Store.LoadPosts | graphql/resolvers.js:130-161 | changes nothing; 401 when unauthenticated; otherwise totalPosts is the count of all posts and the page is the skip/limit slice of all posts ordered newest first: at most 2 distinct stored posts, strictly newest first; a negative page gives a runtime error |
| Resolvers.Store.SinglePost | graphql/resolvers.js:162-181 | changes nothing; 401; 404 for an absent id; otherwise the stored post |
| Resolvers.Store.UpdatePost | graphql/resolvers.js:182-234 | 401, a runtime error for an omitted input, 422, 404 for a missing post, a runtime error for an unset userId and 403 for a non-creator, with no write and the clock unchanged; otherwise new title and content, image replaced unless "undefined", fresh updatedAt and the clock advanced, creator, createdAt and all other records unchanged; users and the id counter never change |
| Resolvers.Store.DeletePost | graphql/resolvers.js:235-258 | 401; runtime error for a missing post; 403 for a non-creator, with no write; otherwise the post removed, its id pulled from the creator's list, its image released, and the pre-deletion record returned; id counter and clock never change |
| Resolvers.Store.UserStatus | graphql/resolvers.js:259-273 | changes nothing; 401; 404 when the requester's user is missing; otherwise that user's status |
| Resolvers.Store.UpdateStatus | graphql/resolvers.js:274-306 | 401, a runtime error for an omitted input, 422, 404 with no write; otherwise only the requester's status changes and the new value is returned; posts, id counter and clock never change |
| Scenarios.SignupTwice | graphql/resolvers.js:27-38 | the first signup stores the user; a second one with the same email fails with 422 "User already exists" |
| Scenarios.CreateThenLoad | graphql/resolvers.js:110-142 | a newly created post is the first record of page 1 |
| Scenarios.DeleteThenFind | graphql/resolvers.js:240-248 | after deletePost, singlePost gives 404 and no user lists the post |
| Scenarios.StrangerIsForbidden | graphql/resolvers.js:213-242 | a user who is not the creator gets 403 from both updatePost and deletePost, and the tables are unchanged |
| Scenarios.LoginThenAuthenticate | graphql/resolvers.js:66-76 | the token from loginUser, sent as `Bearer <token>`, authenticates as the user who logged in (given a verifier that decodes what the signer signs, at any issue time, to its userId, and signed tokens with no space) |
| Scenarios.PayloadWithoutUserId | middlewares/auth.js:13-19 | a decoded payload without a userId authenticates the request with userId unset, and updatePost by such a request fails with the runtime error instead of updating |

## Left out

- app.js: Express setup, CORS headers, the multipart image-upload route and its storage, static serving, the database connection and GraphQL error formatting. This is transport wiring.
- graphql/schema.js: declarative types only. It was used for the record shapes.
- utils/clear-image.js: the file removal is fire-and-forget I/O. deletePost only records the released path in the ghost log `releasedImages`.
- bcrypt, jsonwebtoken and validator internals, including token expiry. These are foreign libraries, passed in as uninterpreted function values.
- Resolvers.Store.SignupUser: bcrypt's random salt is folded into the deterministic `hash` parameter, because randomness is a foreign input.
- Length counting of surrogate pairs and variation selectors by `validator.isLength`. Length is sequence length.
- Mongoose details:
  - `populate("creator")`: returned posts carry the creator's id, not the creator document;
  - ObjectId-to-string conversion, and cast errors for malformed id strings, because ids are naturals;
  - `toISOString` formatting, because timestamps are logical;
  - `save()` skipping a write when nothing changed: updatePost always refreshes `updatedAt`.
- models/user.js and models/post.js are not part of this model. The status a new user starts with is a constructor parameter, `newUserStatus`, and user timestamps are not modelled.
- async/await, and the missing atomicity between the post write and the user write in createPost and deletePost. Each handler is one sequential method, because concurrency is out of scope.
- `console.log` calls.
- The database's order among posts with equal `createdAt`. Mongoose stamps posts with millisecond dates, which can coincide, and the database leaves the order of such posts unspecified. The strictly ticking logical clock excludes ties, so the model never meets that case.
