/** The server's authentication middleware: read the Bearer token from the
    `Authorization` header, verify it, and either pass the decoded claims on
    or answer 401; and the role check that answers 403. */
module AuthMiddleware {
  import opened Common
  import opened Text

  /** The claims the server puts in its tokens. */
  datatype Claims = Claims(userId: int, email: string, userType: string)

  /** What `jwt.verify` does with a token: the decoded claims, or the `name`
      of the error it throws. */
  datatype Verified = Decoded(claims: Claims) | Thrown(errorName: string)

  /** The middleware's effect: `next()` with `req.user` set, or an error
      status with a JSON message. */
  datatype Outcome = Next(user: Claims) | Respond(status: int, message: string)

  const BearerPrefix := "Bearer "
  const AuthenticationRequired := "Authentication required"
  const TokenExpired := "Token has expired"
  const InvalidToken := "Invalid token"
  const AuthenticationFailed := "Authentication failed"
  const AccessDenied := "Access denied: You do not have permission to perform this action"

  /** `s.split(' ')`: the pieces between single spaces, empty pieces included. */
  function SplitSpaces(s: string): (r: seq<string>)
    ensures |r| >= 1
    ensures (forall i :: 0 <= i < |s| ==> s[i] != ' ') ==> r == [s]
  {
    if |s| == 0 then [""]
    else if s[0] == ' ' then [""] + SplitSpaces(s[1..])
    else
      var rest := SplitSpaces(s[1..]);
      assert (forall i :: 0 <= i < |s| ==> s[i] != ' ') ==> rest == [s[1..]] && [s[0]] + s[1..] == s by {
        if forall i :: 0 <= i < |s| ==> s[i] != ' ' {
          assert forall i :: 0 <= i < |s[1..]| ==> s[1..][i] == s[i + 1];
        }
      }
      [[s[0]] + rest[0]] + rest[1..]
  }

  /** A first piece without spaces splits off at the space after it. */
  lemma {:induction false} SplitAfterWord(w: string, t: string)
    requires forall i :: 0 <= i < |w| ==> w[i] != ' '
    ensures SplitSpaces(w + " " + t) == [w] + SplitSpaces(t)
  {
    if |w| == 0 {
      assert w + " " + t == [' '] + t;
      assert (w + " " + t)[1..] == t;
    } else {
      SplitAfterWord(w[1..], t);
      assert (w + " " + t)[1..] == w[1..] + " " + t;
      assert [w[0]] + w[1..] == w;
    }
  }

  /** `authHeader.split(' ')[1]`. */
  function TokenOf(header: string): string
    requires StartsWith(header, BearerPrefix)
  {
    var fields := SplitSpaces(header);
    SplitAfterWord("Bearer", header[|BearerPrefix|..]);
    assert header == "Bearer" + " " + header[|BearerPrefix|..];
    fields[1]
  }

  /** The header a client builds from a token without spaces gives that
      token back. */
  lemma TokenOfBearer(token: string)
    requires forall i :: 0 <= i < |token| ==> token[i] != ' '
    ensures StartsWith(BearerPrefix + token, BearerPrefix)
    ensures TokenOf(BearerPrefix + token) == token
  {
    var header := BearerPrefix + token;
    assert header[..|BearerPrefix|] == BearerPrefix;
    assert header[|BearerPrefix|..] == token;
    assert header == "Bearer" + " " + token;
    SplitAfterWord("Bearer", token);
  }

  /** The message for an error thrown while verifying. */
  function VerifyErrorMessage(errorName: string): (m: string)
    ensures m == TokenExpired <==> errorName == "TokenExpiredError"
    ensures m == InvalidToken <==> errorName == "JsonWebTokenError"
    ensures m == AuthenticationFailed <==> errorName != "TokenExpiredError" && errorName != "JsonWebTokenError"
  {
    if errorName == "TokenExpiredError" then TokenExpired
    else if errorName == "JsonWebTokenError" then InvalidToken
    else AuthenticationFailed
  }

  /** `authMiddleware`. The header is absent when the request has none;
      `verify` stands for `jwt.verify` with the server's secret. */
  function Authenticate(header: Option<string>, verify: string -> Verified): (r: Outcome)
    ensures header.None? || !StartsWith(header.value, BearerPrefix) ==>
              r == Respond(401, AuthenticationRequired)
    ensures r.Next? <==> header.Some? && StartsWith(header.value, BearerPrefix)
                         && verify(TokenOf(header.value)).Decoded?
    ensures r.Next? ==> r.user == verify(TokenOf(header.value)).claims
    ensures r.Respond? ==> r.status == 401
    ensures header.Some? && StartsWith(header.value, BearerPrefix) && verify(TokenOf(header.value)).Thrown? ==>
              r.message == VerifyErrorMessage(verify(TokenOf(header.value)).errorName)
  {
    if header.None? || header.value == "" || !StartsWith(header.value, BearerPrefix) then
      Respond(401, AuthenticationRequired)
    else
      match verify(TokenOf(header.value))
      case Decoded(claims) => Next(claims)
      case Thrown(name) => Respond(401, VerifyErrorMessage(name))
  }

  /** The only messages that come with a failed verification are the three
      of the error mapping; a missing header has its own. */
  lemma RejectionMessages(header: Option<string>, verify: string -> Verified)
    ensures var r := Authenticate(header, verify);
            r.Respond? ==> r.message in {AuthenticationRequired, TokenExpired, InvalidToken, AuthenticationFailed}
  {
  }

  /** `authorizeRoles(...roles)`: 403 unless the request carries a user whose
      type is one of the roles. */
  function AuthorizeRoles(roles: seq<string>, user: Option<Claims>): (r: Outcome)
    ensures r.Respond? <==> user.None? || user.value.userType !in roles
    ensures r.Respond? ==> r == Respond(403, AccessDenied)
    ensures r.Next? ==> r.user == user.value
  {
    if user.None? || user.value.userType !in roles then Respond(403, AccessDenied)
    else Next(user.value)
  }

  /** Authentication followed by a role check: a request passes both exactly
      when its token verifies to claims whose type is among the roles. */
  lemma AuthenticateThenAuthorize(header: Option<string>, verify: string -> Verified, roles: seq<string>)
    ensures var first := Authenticate(header, verify);
            var second := if first.Next? then AuthorizeRoles(roles, Some(first.user)) else first;
            second.Next? <==> first.Next? && first.user.userType in roles
  {
  }
}
