/** The auth gate (middlewares/auth.js): reads the `Authorization` header,
    verifies the bearer token and marks the request before the resolvers run. */
module Auth {
  import opened Errors
  import opened Records

  /** What `jwt.verify(token, secret)` does: returns the decoded payload, returns
      something falsy, or throws (malformed, badly signed or expired token).
      `undefined` as the token is `None`. Of a decoded payload the gate reads
      only `userId`, which a payload need not carry (`None`). */
  datatype VerifyOutcome = Decoded(userId: Option<UserId>) | Falsy | Throws(error: Error)

  /** How the gate ends: `next()` with the request unauthenticated, `next()`
      with it authenticated and `userId` copied from the payload (possibly
      unset), or the verifier's error rethrown. */
  datatype GateResult = Unauthenticated | Authenticated(userId: Option<UserId>) | Rejected(error: Error)

  /** Position of the first space, or `|s|` when there is none. */
  function IndexOfSpace(s: string): (k: nat)
    ensures k <= |s|
    ensures k < |s| ==> s[k] == ' '
    ensures forall i :: 0 <= i < k ==> s[i] != ' '
    decreases |s|
  {
    if s == [] || s[0] == ' ' then 0 else 1 + IndexOfSpace(s[1..])
  }

  /** `s.split(" ")`: the pieces between single spaces, empty ones included. */
  function Split(s: string): (parts: seq<string>)
    ensures |parts| >= 1
    ensures forall i :: 0 <= i < |parts| ==> ' ' !in parts[i]
    ensures |parts| == 1 <==> ' ' !in s
    decreases |s|
  {
    var k := IndexOfSpace(s);
    if k == |s| then [s] else [s[..k]] + Split(s[k + 1..])
  }

  /** Joining with single spaces: the inverse of `Split`. */
  function Join(parts: seq<string>): string
    decreases |parts|
  {
    if parts == [] then ""
    else if |parts| == 1 then parts[0]
    else parts[0] + " " + Join(parts[1..])
  }

  lemma JoinCons(x: string, rest: seq<string>)
    requires rest != []
    ensures Join([x] + rest) == x + " " + Join(rest)
  {
    assert ([x] + rest)[1..] == rest;
  }

  lemma {:induction false} JoinSplit(s: string)
    ensures Join(Split(s)) == s
    decreases |s|
  {
    var k := IndexOfSpace(s);
    if k < |s| {
      var head, tail := s[..k], s[k + 1..];
      var rest := Split(tail);
      assert Split(s) == [head] + rest;
      JoinSplit(tail);
      JoinCons(head, rest);
      Around(s, k);
    } else {
      assert Split(s) == [s];
    }
  }

  lemma Around(s: string, k: nat)
    requires k < |s| && s[k] == ' '
    ensures s == s[..k] + " " + s[k + 1..]
  {
    assert s[..k] + " " + s[k + 1..] == s[..k] + [s[k]] + s[k + 1..];
  }

  /** The first space is the one with no space before it. */
  lemma {:induction false} IndexOfSpaceAt(s: string, k: nat)
    requires k <= |s| && (k < |s| ==> s[k] == ' ')
    requires forall i :: 0 <= i < k ==> s[i] != ' '
    ensures IndexOfSpace(s) == k
    decreases k
  {
    if k > 0 {
      assert s[0] != ' ';
      IndexOfSpaceAt(s[1..], k - 1);
    }
  }

  /** `header.split(" ")[1]`: the second piece, `undefined` (None) when the
      header has no space. */
  function BearerToken(header: string): (token: Option<string>)
    ensures token.Some? <==> ' ' in header
    ensures token.Some? ==> ' ' !in token.value
  {
    var parts := Split(header);
    if |parts| >= 2 then Some(parts[1]) else None
  }

  /** Splitting `scheme + " " + rest` when `scheme` has no space. */
  lemma SplitAfterScheme(scheme: string, rest: string)
    requires ' ' !in scheme
    ensures Split(scheme + " " + rest) == [scheme] + Split(rest)
  {
    var s := scheme + " " + rest;
    assert s[|scheme|] == ' ';
    assert forall i :: 0 <= i < |scheme| ==> s[i] == scheme[i];
    IndexOfSpaceAt(s, |scheme|);
    assert s[..|scheme|] == scheme;
    assert s[|scheme| + 1..] == rest;
  }

  lemma SplitFirstPiece(token: string, rest: string)
    requires ' ' !in token
    requires rest == [] || rest[0] == ' '
    ensures Split(token + rest)[0] == token
  {
    var s := token + rest;
    assert forall i :: 0 <= i < |token| ==> s[i] == token[i];
    IndexOfSpaceAt(s, |token|);
    assert s[..|token|] == token;
  }

  /** The token is whatever stands between the first and the second space. */
  lemma TokenAfterScheme(scheme: string, token: string, rest: string)
    requires ' ' !in scheme && ' ' !in token
    requires rest == [] || rest[0] == ' '
    ensures BearerToken(scheme + " " + token + rest) == Some(token)
  {
    assert scheme + " " + token + rest == scheme + " " + (token + rest);
    SplitAfterScheme(scheme, token + rest);
    SplitFirstPiece(token, rest);
  }

  /** An absent or empty header is falsy. */
  predicate NoHeader(header: Option<string>)
  {
    header.None? || header.value == ""
  }

  /** The gate's decision for a request, given the verifier. */
  function Gate(header: Option<string>, verify: Option<string> -> VerifyOutcome): GateResult
  {
    if NoHeader(header) then Unauthenticated
    else match verify(BearerToken(header.value))
      case Decoded(u) => Authenticated(u)
      case Falsy => Unauthenticated
      case Throws(e) => Rejected(e)
  }

  /** Without a header the verifier is never consulted. */
  lemma NoHeaderUnauthenticated(header: Option<string>, verify: Option<string> -> VerifyOutcome)
    requires NoHeader(header)
    ensures Gate(header, verify) == Unauthenticated
  {
  }

  /** Only a payload the verifier decoded authenticates, and as its `userId`. */
  lemma AuthenticatedOnlyByVerifier(header: Option<string>, verify: Option<string> -> VerifyOutcome, u: Option<UserId>)
    requires Gate(header, verify) == Authenticated(u)
    ensures !NoHeader(header)
    ensures verify(BearerToken(header.value)) == Decoded(u)
  {
  }

  /** A header `"Bearer " + t` whose token the verifier decodes authenticates
      the request with the payload's `userId`, set or not. */
  lemma BearerAuthenticates(token: string, u: Option<UserId>, verify: Option<string> -> VerifyOutcome)
    requires ' ' !in token
    requires verify(Some(token)) == Decoded(u)
    ensures Gate(Some("Bearer " + token), verify) == Authenticated(u)
  {
    TokenAfterScheme("Bearer", token, "");
    assert "Bearer" + " " + token + "" == "Bearer " + token;
  }

  /** A header with no space hands `undefined` to the verifier. */
  lemma SchemeOnlyHasNoToken(header: string)
    requires ' ' !in header
    ensures BearerToken(header) == None
  {
  }

  /** The incoming request: the header it carries and the two fields the
      gate sets on it (`isAuth` starts out falsy, `userId` unset). */
  class Request {
    const authorization: Option<string>
    var isAuth: bool
    var userId: Option<UserId>

    constructor (authorization: Option<string>)
      ensures this.authorization == authorization
      ensures !isAuth && userId == None
    {
      this.authorization := authorization;
      isAuth := false;
      userId := None;
    }

    /** `{ isAuth, userId }` as the resolvers see it. */
    function AsContext(): Context
      reads this
    {
      Records.Context(isAuth, userId)
    }
  }

  /** The middleware. The returned result says how it ended; on `Rejected`
      the request does not reach the resolvers. */
  method Authenticate(req: Request, verify: Option<string> -> VerifyOutcome) returns (g: GateResult)
    modifies req
    ensures g == Gate(req.authorization, verify)
    ensures g.Unauthenticated? ==> !req.isAuth && req.userId == old(req.userId)
    ensures g.Authenticated? ==> req.isAuth && req.userId == g.userId
    ensures g.Rejected? ==> req.isAuth == old(req.isAuth) && req.userId == old(req.userId)
  {
    var header := req.authorization;
    if NoHeader(header) {
      req.isAuth := false;
      return Unauthenticated;
    }
    var token := BearerToken(header.value);
    var decoded := verify(token);
    if decoded.Throws? {
      return Rejected(decoded.error);
    }
    if decoded.Falsy? {
      req.isAuth := false;
      return Unauthenticated;
    }
    req.userId := decoded.userId;
    req.isAuth := true;
    g := Authenticated(decoded.userId);
  }
}
