/** The authentication middleware (bearer header, token check, user lookup)
    and the role gate `authorize`. Token verification and the user lookup are
    outside the model: they are given as maps from token to the user id it
    carries, and from user id to the stored account. */
module Auth {
  import opened Domain

  const BearerPrefix: string := "Bearer "

  predicate StartsWithBearer(header: string)
  {
    |header| >= |BearerPrefix| && header[..|BearerPrefix|] == BearerPrefix
  }

  /** The characters before the first space: `split(' ')[0]`. */
  function FirstField(s: string): (t: string)
    ensures |t| <= |s| && t == s[..|t|]
    ensures forall k :: 0 <= k < |t| ==> t[k] != ' '
    ensures |t| < |s| ==> s[|t|] == ' '
  {
    if s == [] || s[0] == ' ' then [] else [s[0]] + FirstField(s[1..])
  }

  /** `header.split(' ')[1]`: the field after "Bearer", up to the next space. */
  function BearerToken(header: string): string
    requires StartsWithBearer(header)
  {
    FirstField(header[|BearerPrefix|..])
  }

  /** A token without spaces is read back from the header built from it,
      whatever follows it after a space. */
  lemma {:induction false} BearerTokenRoundTrip(token: string, rest: string)
    requires forall k :: 0 <= k < |token| ==> token[k] != ' '
    ensures StartsWithBearer(BearerPrefix + token)
    ensures BearerToken(BearerPrefix + token) == token
    ensures StartsWithBearer(BearerPrefix + token + " " + rest)
    ensures BearerToken(BearerPrefix + token + " " + rest) == token
  {
    assert (BearerPrefix + token)[..|BearerPrefix|] == BearerPrefix;
    assert (BearerPrefix + token + " " + rest)[..|BearerPrefix|] == BearerPrefix;
    assert (BearerPrefix + token)[|BearerPrefix|..] == token;
    assert (BearerPrefix + token + " " + rest)[|BearerPrefix|..] == token + " " + rest;
    FirstFieldOf(token, []);
    assert token + " " + rest == token + (" " + rest);
    FirstFieldOf(token, " " + rest);
  }

  lemma {:induction false} FirstFieldOf(token: string, tail: string)
    requires forall k :: 0 <= k < |token| ==> token[k] != ' '
    requires tail == [] || tail[0] == ' '
    ensures FirstField(token + tail) == token
  {
    if token != [] {
      assert (token + tail)[1..] == token[1..] + tail;
      FirstFieldOf(token[1..], tail);
    } else {
      assert token + tail == tail;
    }
  }

  /** The decision `authenticate` takes: the user it attaches to the request,
      or the 401 it answers with. The user id the token carries is cast like
      any id; a malformed one makes the lookup throw, which the inner `catch`
      answers as an invalid token. */
  function Authentication(header: Option<string>, tokens: map<string, Id>, users: map<Id, User>): (r: Result<User>)
    ensures r.Err? ==> r.error.Code() == 401
    ensures (header.None? || !StartsWithBearer(header.value)) ==> r == Err(NoToken)
    ensures header.Some? && StartsWithBearer(header.value) && BearerToken(header.value) in tokens ==>
      CastId(tokens[BearerToken(header.value)]).None? ==> r == Err(InvalidToken)
    ensures r.Ok? <==>
      && header.Some? && StartsWithBearer(header.value)
      && BearerToken(header.value) in tokens
      && CastId(tokens[BearerToken(header.value)]).Some?
      && CastId(tokens[BearerToken(header.value)]).value in users
      && users[CastId(tokens[BearerToken(header.value)]).value].isActive
    ensures r.Ok? ==> r.value == users[CastId(tokens[BearerToken(header.value)]).value] && r.value.isActive
  {
    if header.None? || !StartsWithBearer(header.value) then Err(NoToken)
    else
      var token := BearerToken(header.value);
      if token !in tokens then Err(InvalidToken)
      else
        match CastId(tokens[token])
        case None => Err(InvalidToken)
        case Some(userId) =>
          if userId !in users || !users[userId].isActive then Err(UserNotFound)
          else Ok(users[userId])
  }

  /** An incoming request: its Authorization header and the user the middleware attaches. */
  class AuthRequest {
    const authorization: Option<string>
    var user: Option<User>

    constructor (authorization: Option<string>)
      ensures this.authorization == authorization && user.None?
    {
      this.authorization := authorization;
      user := None;
    }

    /** `authenticate`: on `Ok` the user is attached and the next handler runs;
        on `Err` the request is answered with 401 and left as it was. */
    method Authenticate(tokens: map<string, Id>, users: map<Id, User>) returns (r: Result<User>)
      modifies this`user
      ensures r == Authentication(authorization, tokens, users)
      ensures r.Ok? ==> user == Some(r.value)
      ensures r.Err? ==> user == old(user)
    {
      if authorization.None? || !StartsWithBearer(authorization.value) {
        return Err(NoToken);
      }
      var token := BearerToken(authorization.value);
      if token !in tokens {
        return Err(InvalidToken);
      }
      var cast := CastId(tokens[token]);
      if cast.None? {
        return Err(InvalidToken);
      }
      var userId := cast.value;
      if userId !in users || !users[userId].isActive {
        return Err(UserNotFound);
      }
      user := Some(users[userId]);
      r := Ok(users[userId]);
    }
  }

  /** `authorize(...roles)`: the request goes on exactly when it carries a user
      whose role is one of the allowed ones; otherwise 401 without a user, 403 with one. */
  function Authorize(user: Option<User>, roles: seq<Role>): (r: Result<User>)
    ensures r.Ok? <==> user.Some? && user.value.role in roles
    ensures r.Ok? ==> r.value == user.value
    ensures user.None? ==> r == Err(Unauthorized)
    ensures user.Some? && user.value.role !in roles ==> r == Err(InsufficientRole)
  {
    if user.None? then Err(Unauthorized)
    else if user.value.role !in roles then Err(InsufficientRole)
    else Ok(user.value)
  }

  /** Allowing more roles never turns a request away that was let through. */
  lemma AuthorizeMonotone(user: Option<User>, roles: seq<Role>, more: seq<Role>)
    requires Authorize(user, roles).Ok?
    ensures Authorize(user, roles + more).Ok?
  {
  }

  /** Behind `authenticate`, `authorize` can only answer 403: a user is always attached. */
  lemma AuthenticatedNeverUnauthorized(header: Option<string>, tokens: map<string, Id>, users: map<Id, User>, roles: seq<Role>)
    requires Authentication(header, tokens, users).Ok?
    ensures Authorize(Some(Authentication(header, tokens, users).value), roles) != Err(Unauthorized)
  {
  }
}
