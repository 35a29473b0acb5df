/** How the client and the server fit together: the messages the server's
    middleware sends back are the ones the client's store reacts to, the
    header the client builds is the one the server parses, and a forced
    logout sends guarded pages back to the login screen. */
module Contracts {
  import opened Common
  import Text
  import AuthSlice
  import AuthMiddleware
  import ProtectedRoute
  import AuthController

  /** A 401 from the middleware makes the client's `getCurrentUser.rejected`
      drop the session exactly when the token failed verification as expired
      or malformed; a missing header or any other failure does not. */
  lemma ServerMessagesDriveLogout(header: Option<string>, verify: string -> AuthMiddleware.Verified)
    ensures var reply := AuthMiddleware.Authenticate(header, verify);
            reply.Respond? ==>
              (AuthSlice.ForcesLogout(Some(reply.message)) <==>
                 && header.Some? && Text.StartsWith(header.value, AuthMiddleware.BearerPrefix)
                 && verify(AuthMiddleware.TokenOf(header.value)).Thrown?
                 && verify(AuthMiddleware.TokenOf(header.value)).errorName in {"TokenExpiredError", "JsonWebTokenError"})
  {
    var reply := AuthMiddleware.Authenticate(header, verify);
    if reply.Respond? && header.Some? && Text.StartsWith(header.value, AuthMiddleware.BearerPrefix) {
      var v := verify(AuthMiddleware.TokenOf(header.value));
      if v.Thrown? {
        assert reply.message == AuthMiddleware.VerifyErrorMessage(v.errorName);
      }
    }
  }

  /** The server reads back the very token the client put after 'Bearer ':
      the client's request is authenticated exactly when that token verifies. */
  lemma ClientHeaderReachesServer(token: string, verify: string -> AuthMiddleware.Verified)
    requires forall i :: 0 <= i < |token| ==> token[i] != ' '
    ensures AuthMiddleware.Authenticate(Some("Bearer " + token), verify).Next? <==> verify(token).Decoded?
  {
    AuthMiddleware.TokenOfBearer(token);
  }

  /** The whole round trip of `getCurrentUser` with a stored token the server
      rejects as expired: the store ends up signed out and a guarded page
      redirects to the login screen, remembering where the user was. */
  lemma ExpiredTokenSignsOut(s: AuthSlice.AuthState, verify: string -> AuthMiddleware.Verified,
                             pathname: string, allowed: Option<seq<string>>)
    requires s.token.Some? && s.token.value != ""
    requires forall i :: 0 <= i < |s.token.value| ==> s.token.value[i] != ' '
    requires verify(s.token.value) == AuthMiddleware.Thrown("TokenExpiredError")
    ensures var reply := AuthMiddleware.Authenticate(Some("Bearer " + s.token.value), verify);
            && reply == AuthMiddleware.Respond(401, "Token has expired")
            && var after := AuthSlice.Reduce(AuthSlice.Reduce(s, AuthSlice.CurrentUserPending),
                                              AuthSlice.CurrentUserRejected(Some(reply.message)));
               && !after.isAuthenticated && after.token.None? && !after.loading
               && ProtectedRoute.Decide(ProtectedRoute.Inputs(false, after.loading, None, after.isAuthenticated,
                                                              None, allowed, pathname))
                  == ProtectedRoute.RedirectToLogin(pathname)
  {
    AuthMiddleware.TokenOfBearer(s.token.value);
  }

  /** A token the server signed at register or login, sent back by the client
      with the Bearer prefix, authenticates as that user's claims, so a role
      check passes exactly when the user's type is among the roles. */
  lemma SignedTokenCarriesUserType(row: AuthController.UserRow, sign: AuthMiddleware.Claims -> string,
                                   verify: string -> AuthMiddleware.Verified, roles: seq<string>)
    requires verify(sign(AuthController.ClaimsOf(row))) == AuthMiddleware.Decoded(AuthController.ClaimsOf(row))
    requires forall i :: 0 <= i < |sign(AuthController.ClaimsOf(row))| ==> sign(AuthController.ClaimsOf(row))[i] != ' '
    ensures var reply := AuthMiddleware.Authenticate(Some("Bearer " + sign(AuthController.ClaimsOf(row))), verify);
            && reply == AuthMiddleware.Next(AuthController.ClaimsOf(row))
            && (AuthMiddleware.AuthorizeRoles(roles, Some(reply.user)).Next? <==> row.userType in roles)
  {
    AuthMiddleware.TokenOfBearer(sign(AuthController.ClaimsOf(row)));
  }
}
