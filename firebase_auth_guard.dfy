/**
 * The authentication guard. It takes a credential from the call (an
 * `Authorization: Bearer ...` header for HTTP, `data.token` of the message
 * for RPC), verifies it, reads the user record of the token's subject, and
 * on success attaches a `user` object to the call. Every failure after the
 * credential has been found becomes the same Unauthorized.
 *
 * The decisions are the functions HttpRun and RpcRun, which also report the
 * external calls made; the methods perform the attachment on the call's
 * mutable request or data object.
 */
module FirebaseAuthGuard {
  import opened Wrappers
  import opened JsString
  import opened Identity

  /** The authorization scheme prefix, with its trailing space. */
  const BEARER: string := "Bearer "

  /** The HTTP request as the guard sees it: its Authorization header and its `user` slot. */
  class HttpRequest {
    const authorization: Option<string>
    var user: Option<User>

    constructor (authorization: Option<string>)
      ensures this.authorization == authorization && user == None
    {
      this.authorization := authorization;
      user := None;
    }

    /** `request.user = u` */
    method AttachUser(u: User)
      modifies this
      ensures user == Some(u)
    {
      user := Some(u);
    }
  }

  /** The RPC handler's data payload (`switchToRpc().getData()`), of which only `user` is modelled. */
  class RpcData {
    var user: Option<User>

    constructor ()
      ensures user == None
    {
      user := None;
    }

    /** `getData().user = u` */
    method AttachUser(u: User)
      modifies this
      ensures user == Some(u)
    {
      user := Some(u);
    }
  }

  /** The `data` member of a decoded broker message; `token` may be missing. */
  datatype MessageData = MessageData(token: Option<string>)

  /** A decoded broker message: JSON `null`, or an object whose `data` may be missing. */
  datatype MessageContent = NullContent | Content(data: Option<MessageData>)

  /**
   * The execution context, by transport type. For RPC, the raw message
   * content (from which the token is read) and the handler's data object (to
   * which the user is attached) are separate. Any other transport type is
   * kept with the object `switchToHttp().getRequest()` returns for it.
   */
  datatype Call =
    | Http(request: HttpRequest)
    | Rpc(content: MessageContent, data: RpcData)
    | Other(request: HttpRequest)

  /** What `canActivate` does: return a boolean or throw. */
  datatype Outcome = Returned(value: bool) | Threw(error: Exception)

  /** The result of one authentication attempt and the external calls it made. */
  datatype Run = Run(result: Result<User, Exception>, calls: seq<ExternalCall>)

  /**
   * The HTTP credential: absent unless the header is present and starts
   * with "Bearer "; otherwise `authorization.split('Bearer ')[1]`.
   */
  function BearerCredential(authorization: Option<string>): (t: Option<string>)
    ensures t.Some? <==> authorization.Some? && StartsWith(authorization.value, BEARER)
    ensures t.Some? ==> StartsWith(authorization.value[|BEARER|..], t.value)
    ensures t.Some? ==> !Contains(t.value, BEARER)
    ensures t.Some? ==>
      |BEARER| + |t.value| == |authorization.value| || OccursAt(authorization.value, BEARER, |BEARER| + |t.value|)
  {
    if authorization.None? || !StartsWith(authorization.value, BEARER) then None
    else
      SecondPiece(authorization.value, BEARER);
      Some(Split(authorization.value, BEARER)[1])
  }

  /**
   * The RPC credential `content?.data.token`: a null message or a missing or
   * empty token is Unauthorized; a message without `data` makes the read
   * itself fail with a TypeError, which is not an Unauthorized.
   */
  function RpcCredential(content: MessageContent): (r: Result<string, Exception>)
    ensures r.Ok? <==>
      content.Content? && content.data.Some? && content.data.value.token.Some? && content.data.value.token.value != ""
    ensures r.Ok? ==> r.value == content.data.value.token.value
    ensures r == Err(TypeError) <==> content.Content? && content.data.None?
    ensures r.Err? ==> r.error == Unauthorized || r.error == TypeError
  {
    match content
    case NullContent => Err(Unauthorized)
    case Content(None) => Err(TypeError)
    case Content(Some(data)) =>
      if data.token.None? || data.token.value == "" then Err(Unauthorized) else Ok(data.token.value)
  }

  /**
   * The sequence both transports share: verify the token, read the record of
   * its subject, and build the user. A rejected token, a failed read and a
   * missing record all yield Unauthorized.
   */
  function VerifyThenLookup(token: string, verifier: Verifier, store: UserStore): (r: Run)
    ensures 1 <= |r.calls| <= 2 && r.calls[0] == VerifyIdToken(token)
    ensures |r.calls| == 2 <==> token in verifier
    ensures |r.calls| == 2 ==> r.calls[1] == ReadUser(verifier[token].uid)
    ensures r.result.Ok? <==>
      token in verifier && verifier[token].uid in store && store[verifier[token].uid].Some?
    ensures r.result.Err? ==> r.result.error == Unauthorized
    ensures r.result.Ok? ==>
      var claims := verifier[token];
      var rec := store[claims.uid].value;
      r.result.value.uid == claims.uid && r.result.value.other == claims.other &&
      r.result.value.role == rec.role && r.result.value.email == rec.email
  {
    if token !in verifier then Run(Err(Unauthorized), [VerifyIdToken(token)])
    else
      var claims := verifier[token];
      var calls := [VerifyIdToken(token), ReadUser(claims.uid)];
      if claims.uid !in store then Run(Err(Unauthorized), calls)
      else match store[claims.uid]
        case None => Run(Err(Unauthorized), calls)
        case Some(rec) => Run(Ok(WithStoredProfile(claims, rec)), calls)
  }

  /** `canActivateHttp` as a decision: no credential means no external call at all. */
  function HttpRun(authorization: Option<string>, verifier: Verifier, store: UserStore): (r: Run)
    ensures r.calls == [] <==> BearerCredential(authorization).None?
    ensures r.calls != [] ==> r.calls[0] == VerifyIdToken(BearerCredential(authorization).value)
    ensures r.result.Err? ==> r.result.error == Unauthorized
    ensures BearerCredential(authorization).None? ==> r == Run(Err(Unauthorized), [])
    ensures BearerCredential(authorization).Some? ==>
      r == VerifyThenLookup(BearerCredential(authorization).value, verifier, store)
  {
    match BearerCredential(authorization)
    case None => Run(Err(Unauthorized), [])
    case Some(token) => VerifyThenLookup(token, verifier, store)
  }

  /** `canActivateRpc` as a decision: no credential means no external call at all. */
  function RpcRun(content: MessageContent, verifier: Verifier, store: UserStore): (r: Run)
    ensures r.calls == [] <==> RpcCredential(content).Err?
    ensures r.calls != [] ==> r.calls[0] == VerifyIdToken(RpcCredential(content).value)
    ensures r.result.Err? && r.result.error != Unauthorized ==> content == Content(None) && r.calls == []
    ensures RpcCredential(content).Err? ==> r == Run(Err(RpcCredential(content).error), [])
    ensures RpcCredential(content).Ok? ==> r == VerifyThenLookup(RpcCredential(content).value, verifier, store)
  {
    match RpcCredential(content)
    case Err(e) => Run(Err(e), [])
    case Ok(token) => VerifyThenLookup(token, verifier, store)
  }

  /** The run for a call of a type the guard handles; None for any other type. */
  function CallRun(call: Call, verifier: Verifier, store: UserStore): Option<Run> {
    match call
    case Http(request) => Some(HttpRun(request.authorization, verifier, store))
    case Rpc(content, _) => Some(RpcRun(content, verifier, store))
    case Other(_) => None
  }

  /** `canActivate`'s effect seen from outside: true on success, a throw on failure, false for other types. */
  function Activation(call: Call, verifier: Verifier, store: UserStore): (o: Outcome)
    ensures o == Returned(false) <==> call.Other?
    ensures call.Http? && o.Threw? ==> o.error == Unauthorized
    ensures !call.Other? ==> (o == Returned(true) <==> CallRun(call, verifier, store).value.result.Ok?)
    ensures o.Threw? ==> o.error == CallRun(call, verifier, store).value.result.error
  {
    match CallRun(call, verifier, store)
    case None => Returned(false)
    case Some(run) => if run.result.Ok? then Returned(true) else Threw(run.result.error)
  }

  /** The user slot after the guard: the new user on success, otherwise what was there. */
  function UserAfter(call: Call, verifier: Verifier, store: UserStore, before: Option<User>): Option<User> {
    match CallRun(call, verifier, store)
    case Some(run) => if run.result.Ok? then Some(run.result.value) else before
    case None => before
  }

  /** The objects the guard may write: the request for HTTP, the data payload for RPC. */
  function Target(call: Call): set<object> {
    match call
    case Http(request) => {request}
    case Rpc(_, data) => {data}
    case Other(_) => {}
  }

  /** `canActivateHttp` */
  method CanActivateHttp(request: HttpRequest, verifier: Verifier, store: UserStore) returns (o: Outcome)
    modifies request
    ensures var run := HttpRun(request.authorization, verifier, store);
      && o == (if run.result.Ok? then Returned(true) else Threw(run.result.error))
      && request.user == (if run.result.Ok? then Some(run.result.value) else old(request.user))
  {
    var run := HttpRun(request.authorization, verifier, store);
    if run.result.Err? {
      return Threw(run.result.error);
    }
    request.AttachUser(run.result.value);
    return Returned(true);
  }

  /** `canActivateRpc` */
  method CanActivateRpc(content: MessageContent, data: RpcData, verifier: Verifier, store: UserStore)
    returns (o: Outcome)
    modifies data
    ensures var run := RpcRun(content, verifier, store);
      && o == (if run.result.Ok? then Returned(true) else Threw(run.result.error))
      && data.user == (if run.result.Ok? then Some(run.result.value) else old(data.user))
  {
    var run := RpcRun(content, verifier, store);
    if run.result.Err? {
      return Threw(run.result.error);
    }
    data.AttachUser(run.result.value);
    return Returned(true);
  }

  /** `canActivate`: dispatch on the transport type. */
  method CanActivate(call: Call, verifier: Verifier, store: UserStore) returns (o: Outcome)
    modifies Target(call)
    ensures o == Activation(call, verifier, store)
    ensures call.Http? ==> call.request.user == UserAfter(call, verifier, store, old(call.request.user))
    ensures call.Rpc? ==> call.data.user == UserAfter(call, verifier, store, old(call.data.user))
  {
    match call
    case Http(request) =>
      o := CanActivateHttp(request, verifier, store);
    case Rpc(content, data) =>
      o := CanActivateRpc(content, data, verifier, store);
    case Other(_) =>
      o := Returned(false);
  }

  /**
   * One policy, two transports: an HTTP call and an RPC call carrying the
   * same token, against the same verifier and store, make the same external
   * calls and yield the same user or the same error.
   */
  lemma TransportsAgree(authorization: Option<string>, content: MessageContent, token: string,
                        verifier: Verifier, store: UserStore)
    requires BearerCredential(authorization) == Some(token)
    requires RpcCredential(content) == Ok(token)
    ensures HttpRun(authorization, verifier, store) == RpcRun(content, verifier, store)
  {
  }

  /**
   * The header "Bearer " alone yields the empty token, which the HTTP path
   * still sends to the verifier; the RPC path rejects an empty token before
   * any external call.
   */
  lemma EmptyTokenOnlyVerifiedOverHttp(verifier: Verifier, store: UserStore)
    ensures BearerCredential(Some(BEARER)) == Some("")
    ensures HttpRun(Some(BEARER), verifier, store).calls[0] == VerifyIdToken("")
    ensures RpcRun(Content(Some(MessageData(Some("")))), verifier, store) == Run(Err(Unauthorized), [])
  {
  }

  /** The text after the prefix, when it holds no further "Bearer ", is the whole token. */
  lemma BearerCredentialOfToken(token: string)
    requires !Contains(token, BEARER)
    ensures BearerCredential(Some(BEARER + token)) == Some(token)
  {
    var h := BEARER + token;
    assert h[..|BEARER|] == BEARER;
    SplitAfterLeadingSeparator(h, BEARER);
    assert h[|BEARER|..] == token;
  }
}
