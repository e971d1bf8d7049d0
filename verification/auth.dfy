/** The `auth` middleware: recognise a bearer header, take the token from it,
    and either attach the verified id to the request or reject the request.
    Whatever the path, the next handler is called exactly once. */
module Auth {
  import opened Common

  /** What `jwt.verify` gives back: the decoded `id` claim, or the error it
      throws (a bad signature, an expired token, a missing token). */
  datatype Verified = Claims(id: UserId) | VerifyError(message: string)

  /** `jwt.verify(token, secret)`; the token is absent when the header holds
      no space. The type does not force `verify(None)` to fail; `jwt.verify`
      with no token throws "jwt must be provided", and `MissingTokenRejected`
      states the outcome under that assumption. */
  type Verifier = Option<string> -> Verified

  /** How the middleware ends: the request proceeds as `userId`, or `next` is
      called with an error. */
  datatype Outcome = Proceed(userId: UserId) | Reject(error: Error)

  const BearerPrefix: string := "Bearer"
  const NotAuthenticatedMessage: string := "Not Authenticated"

  /** `authorization?.startsWith("Bearer")`: the header is present and begins
      with the six letters, whatever follows them. */
  function IsBearer(authorization: Option<string>): (b: bool)
    ensures b <==> authorization.Some? && BearerPrefix <= authorization.value
  {
    authorization.Some? && |authorization.value| >= |BearerPrefix|
    && authorization.value[..|BearerPrefix|] == BearerPrefix
  }

  /** No character of `s` is a space. */
  predicate SpaceFree(s: string)
  {
    forall i :: 0 <= i < |s| ==> s[i] != ' '
  }

  /** The position of the first space in `s`, or `|s|` when there is none. */
  function IndexOfSpace(s: string): (k: nat)
    ensures k <= |s|
    ensures forall i :: 0 <= i < k ==> s[i] != ' '
    ensures k < |s| ==> s[k] == ' '
    ensures k == |s| <==> SpaceFree(s)
  {
    if s == [] || s[0] == ' ' then 0 else 1 + IndexOfSpace(s[1..])
  }

  /** The pieces joined back with one space between each pair. */
  function Join(pieces: seq<string>): string
    requires |pieces| >= 1
  {
    if |pieces| == 1 then pieces[0] else pieces[0] + (" " + Join(pieces[1..]))
  }

  /** `s.split(" ")`: the space-free pieces between the spaces. Consecutive
      spaces give empty pieces. */
  function Split(s: string): (pieces: seq<string>)
    ensures |pieces| >= 1
    ensures forall i :: 0 <= i < |pieces| ==> SpaceFree(pieces[i])
    ensures |pieces| == 1 <==> SpaceFree(s)
    decreases |s|
  {
    var k := IndexOfSpace(s);
    if k == |s| then [s] else [s[..k]] + Split(s[k + 1..])
  }

  /** Joining a leading piece onto at least one more. */
  lemma JoinCons(head: string, rest: seq<string>)
    requires |rest| >= 1
    ensures Join([head] + rest) == head + (" " + Join(rest))
  {
    assert ([head] + rest)[1..] == rest;
  }

  /** One step of the split: the text before the first space, then the split
      of the text after it. */
  lemma SplitUnfold(s: string)
    requires !SpaceFree(s)
    ensures Split(s) == [s[..IndexOfSpace(s)]] + Split(s[IndexOfSpace(s) + 1..])
  {
  }

  /** A string with a space at `k` is what comes before it, the space, and
      what comes after it. */
  lemma AroundSpace(s: string, k: nat)
    requires k < |s| && s[k] == ' '
    ensures s == s[..k] + (" " + s[k + 1..])
  {
    assert s[k..] == [s[k]] + s[k + 1..];
  }

  /** Splitting at the spaces and joining with single spaces gives back the
      header. */
  lemma {:induction false} SplitJoin(s: string)
    ensures Join(Split(s)) == s
    decreases |s|
  {
    if !SpaceFree(s) {
      var k := IndexOfSpace(s);
      SplitUnfold(s);
      JoinCons(s[..k], Split(s[k + 1..]));
      SplitJoin(s[k + 1..]);
      AroundSpace(s, k);
    }
  }

  /** The text after the first space of `s`. */
  function AfterFirstSpace(s: string): string
    requires !SpaceFree(s)
  {
    s[IndexOfSpace(s) + 1..]
  }

  /** The second piece of a split is the text after the first space, up to
      the next space or the end. */
  lemma SecondPiece(s: string)
    requires !SpaceFree(s)
    ensures |Split(s)| >= 2
    ensures Split(s)[1] == AfterFirstSpace(s)[..IndexOfSpace(AfterFirstSpace(s))]
  {
    var tail := AfterFirstSpace(s);
    assert Split(s) == [s[..IndexOfSpace(s)]] + Split(tail);
    assert Split(tail)[0] == tail[..IndexOfSpace(tail)];
  }

  /** `authorization.split(" ")[1]`: absent (`undefined`) when the header holds
      no space; otherwise the text after the first space, up to the next space
      or the end. */
  function BearerToken(authorization: string): (token: Option<string>)
    ensures token.None? <==> SpaceFree(authorization)
    ensures token.Some? ==> SpaceFree(token.value)
    ensures token.Some? ==>
      var tail := AfterFirstSpace(authorization);
      token.value == tail[..IndexOfSpace(tail)]
  {
    var pieces := Split(authorization);
    if |pieces| < 2 then None
    else
      SecondPiece(authorization);
      Some(pieces[1])
  }

  /** The middleware's decision for a request with this Authorization header. */
  function Authenticate(authorization: Option<string>, verify: Verifier): (o: Outcome)
    ensures !IsBearer(authorization) ==> o == Reject(Unauthorized(NotAuthenticatedMessage))
    ensures o.Proceed? <==> IsBearer(authorization) && verify(BearerToken(authorization.value)).Claims?
    ensures o.Proceed? ==> o.userId == verify(BearerToken(authorization.value)).id
    ensures IsBearer(authorization) && verify(BearerToken(authorization.value)).VerifyError? ==>
      o == Reject(Error(None, verify(BearerToken(authorization.value)).message))
  {
    if IsBearer(authorization) then
      match verify(BearerToken(authorization.value))
      case Claims(id) => Proceed(id)
      case VerifyError(message) => Reject(Error(None, message))
    else Reject(Unauthorized(NotAuthenticatedMessage))
  }

  /** The status the error handler sends for a rejection: 401 without a bearer
      header, but 500 for a token the verifier refuses, since its error carries
      no status code. */
  lemma RejectionStatus(authorization: Option<string>, verify: Verifier)
    requires Authenticate(authorization, verify).Reject?
    ensures !IsBearer(authorization) ==> HttpStatus(Authenticate(authorization, verify).error) == 401
    ensures IsBearer(authorization) ==> HttpStatus(Authenticate(authorization, verify).error) == 500
  {
  }

  /** A header "Bearer…" without a space yields no token; when the verifier
      refuses a missing token, as `jwt.verify` does, the request is rejected
      with the verifier's error and status 500. */
  lemma MissingTokenRejected(authorization: string, verify: Verifier)
    requires IsBearer(Some(authorization)) && SpaceFree(authorization)
    requires verify(None).VerifyError?
    ensures Authenticate(Some(authorization), verify) == Reject(Error(None, verify(None).message))
    ensures HttpStatus(Authenticate(Some(authorization), verify).error) == 500
  {
  }

  /** A header whose first six letters are not "Bearer" never reaches the
      verifier: the outcome is the same whatever the verifier answers. */
  lemma VerifierOnlyForBearer(authorization: Option<string>, verify1: Verifier, verify2: Verifier)
    requires !IsBearer(authorization)
    ensures Authenticate(authorization, verify1) == Authenticate(authorization, verify2)
  {
  }

  /** The request as the middleware sees and changes it. `nextCalls` records
      the argument of every call to `next`: `None` for `next()`, `Some(e)` for
      `next(e)`. */
  class Request {
    const authorization: Option<string>
    var userId: Option<UserId>
    var nextCalls: seq<Option<Error>>

    constructor (authorization: Option<string>)
      ensures this.authorization == authorization
      ensures userId.None? && nextCalls == []
    {
      this.authorization := authorization;
      userId := None;
      nextCalls := [];
    }
  }

  /** `auth(req, res, next)`: sets `req.userId` only when the token verifies,
      and calls `next` exactly once, with no argument on success and with the
      error otherwise. */
  method Run(req: Request, verify: Verifier)
    modifies req
    ensures |req.nextCalls| == |old(req.nextCalls)| + 1
    ensures match Authenticate(req.authorization, verify)
      case Proceed(id) => req.userId == Some(id) && req.nextCalls == old(req.nextCalls) + [None]
      case Reject(e) => req.userId == old(req.userId) && req.nextCalls == old(req.nextCalls) + [Some(e)]
  {
    if IsBearer(req.authorization) {
      var token := BearerToken(req.authorization.value);
      var decoded := verify(token);
      if decoded.Claims? {
        req.userId := Some(decoded.id);
        req.nextCalls := req.nextCalls + [None];
        return;
      }
      req.nextCalls := req.nextCalls + [Some(Error(None, decoded.message))];
      return;
    }
    req.nextCalls := req.nextCalls + [Some(Unauthorized(NotAuthenticatedMessage))];
  }
}
