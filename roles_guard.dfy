/**
 * The roles guard. It first runs the authentication guard, letting any
 * exception escape and ignoring the boolean it returns; then it allows a
 * route without role metadata, and for a route with metadata it demands
 * only that an attached user with a non-empty role is present. The listed
 * roles themselves are never compared with the user's role.
 */
module RolesGuard {
  import opened Wrappers
  import opened Identity
  import FirebaseAuthGuard

  /** `user && user.role`: a user is attached and its role is present and non-empty. */
  predicate HasRole(user: Option<User>)
    ensures !HasRole(user) <==> user.None? || user.value.role.None? || |user.value.role.value| == 0
  {
    user.Some? && user.value.role.Some? && user.value.role.value != ""
  }

  /**
   * The guard's verdict from the authentication outcome, the route's role
   * metadata (None when the route declares none) and the user found on the
   * call once authentication is over.
   */
  function Decision(auth: FirebaseAuthGuard.Outcome, requiredRoles: Option<seq<string>>, user: Option<User>)
    : (o: FirebaseAuthGuard.Outcome)
    ensures auth.Threw? ==> o == auth
    ensures o != FirebaseAuthGuard.Returned(false)
    ensures auth.Returned? ==> (o == FirebaseAuthGuard.Returned(true) <==> requiredRoles.None? || HasRole(user))
    ensures auth.Returned? ==> (o == FirebaseAuthGuard.Threw(Forbidden) <==> requiredRoles.Some? && !HasRole(user))
  {
    if auth.Threw? then auth
    else if requiredRoles.None? then FirebaseAuthGuard.Returned(true)
    else if !HasRole(user) then FirebaseAuthGuard.Threw(Forbidden)
    else FirebaseAuthGuard.Returned(true)
  }

  /** The objects the user is read from: RPC data for RPC, the request otherwise. */
  function UserSource(call: FirebaseAuthGuard.Call): set<object> {
    if call.Rpc? then {call.data} else {call.request}
  }

  /** The `user` read by the guard: `getData().user` for RPC, `getRequest().user` otherwise. */
  function UserOf(call: FirebaseAuthGuard.Call): (user: Option<User>)
    reads UserSource(call)
    ensures call.Rpc? ==> user == call.data.user
    ensures call.Http? || call.Other? ==> user == call.request.user
  {
    if call.Rpc? then call.data.user else call.request.user
  }

  /** `canActivate` of the roles guard. */
  method CanActivate(call: FirebaseAuthGuard.Call, requiredRoles: Option<seq<string>>,
                     verifier: Verifier, store: UserStore)
    returns (o: FirebaseAuthGuard.Outcome)
    modifies FirebaseAuthGuard.Target(call)
    ensures UserOf(call) == FirebaseAuthGuard.UserAfter(call, verifier, store, old(UserOf(call)))
    ensures o == Decision(FirebaseAuthGuard.Activation(call, verifier, store), requiredRoles, UserOf(call))
  {
    var auth := FirebaseAuthGuard.CanActivate(call, verifier, store);
    if auth.Threw? {
      return auth;
    }
    if requiredRoles.None? {
      return FirebaseAuthGuard.Returned(true);
    }
    var user := UserOf(call);
    if !HasRole(user) {
      return FirebaseAuthGuard.Threw(Forbidden);
    }
    return FirebaseAuthGuard.Returned(true);
  }

  /** Only presence is checked: a user holding any non-empty role passes any non-empty list, e.g. an ATTENDEE a SPEAKER-only route. */
  lemma AnyRolePassesAnyList(requiredRoles: seq<string>, user: User)
    requires user.role.Some? && user.role.value != ""
    ensures Decision(FirebaseAuthGuard.Returned(true), Some(requiredRoles), Some(user)) == FirebaseAuthGuard.Returned(true)
  {
  }

  /** The verdict does not depend on which roles the metadata lists, only on whether it is there. */
  lemma ListContentsIrrelevant(auth: FirebaseAuthGuard.Outcome, roles1: seq<string>, roles2: seq<string>, user: Option<User>)
    ensures Decision(auth, Some(roles1), user) == Decision(auth, Some(roles2), user)
  {
  }

  /**
   * An empty list is metadata all the same: it is checked like any other,
   * whereas absent metadata allows even with no user attached and even when
   * authentication returned false.
   */
  lemma EmptyListIsNotAbsent(user: Option<User>)
    ensures Decision(FirebaseAuthGuard.Returned(true), Some([]), user) ==
            (if HasRole(user) then FirebaseAuthGuard.Returned(true) else FirebaseAuthGuard.Threw(Forbidden))
    ensures Decision(FirebaseAuthGuard.Returned(false), None, user) == FirebaseAuthGuard.Returned(true)
  {
  }

  /**
   * A caller that fails authentication receives the authentication guard's
   * exception, never Forbidden; over HTTP that is always Unauthorized.
   */
  lemma AuthenticationFailureNeverForbidden(call: FirebaseAuthGuard.Call, requiredRoles: Option<seq<string>>,
                                            verifier: Verifier, store: UserStore, user: Option<User>)
    requires FirebaseAuthGuard.CallRun(call, verifier, store).Some?
    requires FirebaseAuthGuard.CallRun(call, verifier, store).value.result.Err?
    ensures Decision(FirebaseAuthGuard.Activation(call, verifier, store), requiredRoles, user).Threw?
    ensures Decision(FirebaseAuthGuard.Activation(call, verifier, store), requiredRoles, user).error != Forbidden
    ensures call.Http? ==>
      Decision(FirebaseAuthGuard.Activation(call, verifier, store), requiredRoles, user) == FirebaseAuthGuard.Threw(Unauthorized)
  {
  }

  /**
   * A call of another transport type is not authenticated at all and its
   * request keeps whatever user it had; a route without role metadata lets
   * it through, one with metadata admits it only if a user with a role was
   * already on the request.
   */
  lemma OtherTransportSkipsAuthentication(request: FirebaseAuthGuard.HttpRequest, requiredRoles: Option<seq<string>>,
                                          verifier: Verifier, store: UserStore)
    ensures var call := FirebaseAuthGuard.Other(request);
      FirebaseAuthGuard.UserAfter(call, verifier, store, request.user) == request.user
    ensures Decision(FirebaseAuthGuard.Activation(FirebaseAuthGuard.Other(request), verifier, store), requiredRoles,
                     request.user) ==
            (if requiredRoles.None? || HasRole(request.user) then FirebaseAuthGuard.Returned(true)
             else FirebaseAuthGuard.Threw(Forbidden))
  {
  }
}
