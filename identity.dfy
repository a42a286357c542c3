/**
 * The identity data the authentication guard works with, and the two
 * external services it consults, replaced by maps:
 * - the token verifier (`verifyIdToken` of the identity provider), and
 * - the user store (the realtime-database read of `users/<uid>`).
 */
module Identity {
  import opened Wrappers

  /**
   * A decoded ID token. `uid` is the subject; `email` and `role` are the
   * claims of those names when the token carries them; `other` holds the
   * remaining claims (issuer, audience, issue and expiry times, ...).
   */
  datatype Claims = Claims(uid: string, email: Option<string>, role: Option<string>, other: map<string, string>)

  /**
   * The `user` object the guard attaches. It is built by spreading the
   * decoded token, so it has the same shape as the claims.
   */
  type User = Claims

  /** A stored user record; either field may be missing from the record. */
  datatype UserRecord = UserRecord(role: Option<string>, email: Option<string>)

  /**
   * The identity provider's verdict on each token: a token in the domain
   * verifies to those claims; any other token is rejected (expired, forged,
   * revoked, or the provider could not be reached).
   */
  type Verifier = map<string, Claims>

  /**
   * The user store: a uid outside the domain makes the read fail; a uid
   * mapped to None is a read whose snapshot value is null (no record).
   */
  type UserStore = map<string, Option<UserRecord>>

  /** The kinds of exception the core raises (messages are not modelled). */
  datatype Exception =
    | Unauthorized  // UnauthorizedException, HTTP 401
    | Forbidden     // ForbiddenException, HTTP 403
    | TypeError     // a property read on undefined

  /** One call into an external service, in the order it is made. */
  datatype ExternalCall = VerifyIdToken(token: string) | ReadUser(uid: string)

  /**
   * `{ ...decodedToken, role: userData.role, email: userData.email }`: the
   * claims with `role` and `email` replaced by the stored values, even where
   * the record lacks them.
   */
  function WithStoredProfile(claims: Claims, rec: UserRecord): (u: User)
    ensures u.uid == claims.uid && u.other == claims.other
    ensures u.role == rec.role && u.email == rec.email
  {
    claims.(role := rec.role, email := rec.email)
  }
}
