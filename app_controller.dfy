/**
 * The gateway controller: a table of routes, each with its role metadata,
 * its target client and its command name, and the envelope each handler
 * sends. Serve runs one HTTP call through the chain the controller
 * declares: the roles guard (for guarded routes), then the handler, then
 * one request/reply exchange with the backend.
 */
module GatewayController {
  import opened Wrappers
  import opened JsString
  import opened Identity
  import opened FirebaseAuthGuard
  import RolesGuard

  const SPEAKER: string := "SPEAKER"
  const ATTENDEE: string := "ATTENDEE"

  /** A JSON-like value as a handler passes it to `send`; `Undefined` is a missing property value. */
  datatype Json =
    | Undefined
    | Null
    | Bool(b: bool)
    | Num(n: int)
    | Str(s: string)
    | Arr(items: seq<Json>)
    | Obj(fields: map<string, Json>)

  /** The two broker clients the controller holds. */
  datatype Service = AuthService | SessionsService

  /** The queue each client is registered on; the two clients use different queues. */
  function Queue(service: Service): (q: string)
    ensures q == "auth_queue" <==> service == AuthService
    ensures q == "sessions_queue" <==> service == SessionsService
  {
    match service
    case AuthService => "auth_queue"
    case SessionsService => "sessions_queue"
  }

  /** One message sent on a client: `client.send({ cmd }, payload)`. */
  datatype Message = Message(service: Service, cmd: string, payload: Json)

  /** A resolved route: the endpoint together with the body or path parameters it binds. */
  datatype Route =
    | Register(dto: Json)                                   // POST auth/register
    | Login(dto: Json)                                      // POST auth/login
    | CreateSession(dto: Json)                              // POST sessions
    | JoinSession(dto: Json)                                // POST sessions/join
    | GetSession(sessionId: string)                         // GET sessions/:sessionId
    | GetUserSessions(userId: string)                       // GET sessions/user/:userId
    | GetSessionsBySpeaker                                  // GET sessions/speaker/createdSessions
    | GetSessionAttendees(sessionId: string)                // GET sessions/:sessionId/attendees
    | CreateQuestion(dto: Json)                             // POST sessions/questions
    | GetQuestions(sessionId: string)                       // GET sessions/:sessionId/questions
    | GetQuestionDetails(sessionId: string, questionId: string)  // GET sessions/:sessionId/questions/:questionId
    | VoteQuestion(sessionId: string, questionId: string)   // POST sessions/:sessionId/questions/:questionId/vote

  /** Routes behind `@UseGuards(RolesGuard)`: all but register and login. */
  predicate Guarded(r: Route) {
    !(r.Register? || r.Login?)
  }

  /**
   * The `@Role(...)` metadata of each route; None where none is declared,
   * which is exactly on the unguarded routes. Only `create-session`,
   * `get-sessions-by-speaker` and `get-session-attendees` declare SPEAKER
   * alone; every other guarded route declares SPEAKER and ATTENDEE.
   */
  function RequiredRoles(r: Route): (roles: Option<seq<string>>)
    ensures roles.None? <==> !Guarded(r)
    ensures roles == Some([SPEAKER]) <==> r.CreateSession? || r.GetSessionsBySpeaker? || r.GetSessionAttendees?
    ensures Guarded(r) && roles != Some([SPEAKER]) ==> roles == Some([SPEAKER, ATTENDEE])
  {
    match r
    case Register(_) | Login(_) => None
    case CreateSession(_) | GetSessionsBySpeaker | GetSessionAttendees(_) => Some([SPEAKER])
    case _ => Some([SPEAKER, ATTENDEE])
  }

  /** The client each route sends on: the auth client carries exactly the `register` and `login` commands. */
  function ServiceOf(r: Route): (service: Service)
    ensures service == AuthService <==> Command(r) == "register" || Command(r) == "login"
  {
    if Guarded(r) then SessionsService else AuthService
  }

  /** The `cmd` of each route's message; `register` and `login` name the two unguarded routes. */
  function Command(r: Route): (cmd: string)
    ensures cmd == "register" <==> r.Register?
    ensures cmd == "login" <==> r.Login?
  {
    match r
    case Register(_) => "register"
    case Login(_) => "login"
    case CreateSession(_) => "create-session"
    case JoinSession(_) => "join-session"
    case GetSession(_) => "get-session"
    case GetUserSessions(_) => "get-user-sessions"
    case GetSessionsBySpeaker => "get-sessions-by-speaker"
    case GetSessionAttendees(_) => "get-session-attendees"
    case CreateQuestion(_) => "create-question"
    case GetQuestions(_) => "get-questions"
    case GetQuestionDetails(_, _) => "get-question-details"
    case VoteQuestion(_, _) => "vote-question"
  }

  /** The key under which a guarded route nests its request body, if it has one. */
  function DtoKey(r: Route): Option<string> {
    match r
    case CreateSession(_) => Some("createSessionDto")
    case JoinSession(_) => Some("joinSessionDto")
    case CreateQuestion(_) => Some("createQuestionDto")
    case _ => None
  }

  /** The identity properties every guarded envelope carries. */
  const IdentityKeys: set<string> := {"userId", "token", "role"}

  /** The property names of each guarded route's envelope. */
  function EnvelopeKeys(r: Route): set<string>
    requires Guarded(r)
  {
    match r
    case CreateSession(_) => IdentityKeys + {"createSessionDto"}
    case JoinSession(_) => IdentityKeys + {"joinSessionDto"}
    case CreateQuestion(_) => IdentityKeys + {"createQuestionDto"}
    case GetSession(_) | GetSessionAttendees(_) => IdentityKeys + {"sessionId"}
    case GetQuestionDetails(_, _) | VoteQuestion(_, _) => IdentityKeys + {"sessionId", "questionId"}
    case GetUserSessions(_) | GetSessionsBySpeaker | GetQuestions(_) => IdentityKeys
  }

  /**
   * `authorization.split('Bearer ')[1]`, which is undefined when the split
   * has one piece, that is, when the header holds no "Bearer " at all. For a
   * header that passed the guard it is the credential the guard verified.
   */
  function TokenField(authorization: string): (token: Json)
    ensures token == Undefined <==> !Contains(authorization, BEARER)
    ensures token.Str? ==> !Contains(token.s, BEARER)
    ensures StartsWith(authorization, BEARER) ==> token == Str(BearerCredential(Some(authorization)).value)
  {
    var pieces := Split(authorization, BEARER);
    SplitAtLeftmostOccurrence(authorization, BEARER);
    if |pieces| >= 2 then
      PiecesAvoidSeparator(authorization, BEARER, 1);
      Str(pieces[1])
    else Undefined
  }

  /** `req.user.role` as a property value. */
  function RoleField(role: Option<string>): Json {
    match role
    case None => Undefined
    case Some(name) => Str(name)
  }

  /**
   * The object literal a guarded handler passes to `send`. It carries the
   * user's id (the path's for `get-user-sessions`), the token and the role;
   * a request body is nested under its own key, so none of the body's
   * properties can replace those three; path parameters appear under their
   * own names, except that `get-questions` drops `sessionId`.
   */
  function Envelope(r: Route, user: User, token: Json): (fields: map<string, Json>)
    requires Guarded(r)
    ensures fields.Keys == EnvelopeKeys(r)
    ensures fields["userId"] == Str(if r.GetUserSessions? then r.userId else user.uid)
    ensures fields["token"] == token && fields["role"] == RoleField(user.role)
    ensures DtoKey(r).Some? ==> DtoKey(r).value !in IdentityKeys && fields[DtoKey(r).value] == r.dto
    ensures r.GetSession? || r.GetSessionAttendees? || r.GetQuestionDetails? || r.VoteQuestion? ==>
      fields["sessionId"] == Str(r.sessionId)
    ensures r.GetQuestionDetails? || r.VoteQuestion? ==> fields["questionId"] == Str(r.questionId)
  {
    var identity := map["userId" := Str(user.uid), "token" := token, "role" := RoleField(user.role)];
    match r
    case CreateSession(dto) => identity["createSessionDto" := dto]
    case JoinSession(dto) => identity["joinSessionDto" := dto]
    case CreateQuestion(dto) => identity["createQuestionDto" := dto]
    case GetSession(sessionId) => identity["sessionId" := Str(sessionId)]
    case GetSessionAttendees(sessionId) => identity["sessionId" := Str(sessionId)]
    case GetQuestionDetails(sessionId, questionId) =>
      identity["sessionId" := Str(sessionId)]["questionId" := Str(questionId)]
    case VoteQuestion(sessionId, questionId) =>
      identity["sessionId" := Str(sessionId)]["questionId" := Str(questionId)]
    case GetUserSessions(userId) => map["userId" := Str(userId), "token" := token, "role" := RoleField(user.role)]
    case GetSessionsBySpeaker => identity
    case GetQuestions(_) => identity
  }

  /**
   * A handler: the message it sends, or the exception it throws. It reads
   * `req.user` and the Authorization header that the guard has left on the
   * request; `getUserSessions` also compares the path's user id with the
   * authenticated one.
   */
  function Handle(r: Route, authorization: Option<string>, user: Option<User>): (h: Result<Message, Exception>)
    ensures !Guarded(r) ==> h == Ok(Message(AuthService, Command(r), r.dto))
    ensures Guarded(r) && (user.None? || authorization.None?) ==> h == Err(TypeError)
    ensures h == Err(Forbidden) <==>
      r.GetUserSessions? && user.Some? && authorization.Some? && user.value.uid != r.userId
    ensures h.Ok? ==> h.value.service == ServiceOf(r) && h.value.cmd == Command(r)
    ensures Guarded(r) && h.Ok? ==> h.value.payload.Obj? && h.value.payload.fields.Keys == EnvelopeKeys(r)
    ensures Guarded(r) && user.Some? && authorization.Some? && !(r.GetUserSessions? && user.value.uid != r.userId) ==>
      h.Ok?
    ensures Guarded(r) && h.Ok? ==> h.value.payload == Obj(Envelope(r, user.value, TokenField(authorization.value)))
  {
    if !Guarded(r) then Ok(Message(AuthService, Command(r), r.dto))
    else if user.None? || authorization.None? then Err(TypeError)
    else if r.GetUserSessions? && user.value.uid != r.userId then Err(Forbidden)
    else Ok(Message(SessionsService, Command(r), Obj(Envelope(r, user.value, TokenField(authorization.value)))))
  }

  /** What the caller gets: the backend's reply to the one message sent, or an exception. */
  datatype CallOutcome = Replied(sent: Message, reply: Json) | Rejected(error: Exception)

  /**
   * One HTTP call from a fresh request (no user attached yet): the roles
   * guard for guarded routes (a guard returning false becomes Forbidden),
   * then the handler, whose message gets the backend's reply.
   */
  function ServeSpec(r: Route, authorization: Option<string>, verifier: Verifier, store: UserStore,
                     backend: Message -> Json): (o: CallOutcome)
    ensures !Guarded(r) ==> o.Replied?
    ensures o.Replied? ==> o.sent.service == ServiceOf(r) && o.sent.cmd == Command(r) && o.reply == backend(o.sent)
    ensures Guarded(r) && o.Replied? ==> HttpRun(authorization, verifier, store).result.Ok?
    ensures o.Rejected? ==> o.error == Unauthorized || o.error == Forbidden
  {
    var handled :=
      if !Guarded(r) then Handle(r, authorization, None)
      else
        var run := HttpRun(authorization, verifier, store);
        var user := if run.result.Ok? then Some(run.result.value) else None;
        var auth := if run.result.Ok? then Returned(true) else Threw(run.result.error);
        var verdict := RolesGuard.Decision(auth, RequiredRoles(r), user);
        if verdict.Threw? then Err(verdict.error)
        else if !verdict.value then Err(Forbidden)
        else Handle(r, authorization, user);
    match handled
    case Err(e) => Rejected(e)
    case Ok(m) => Replied(m, backend(m))
  }

  /** The request pipeline: guard, handler, send. */
  method Serve(r: Route, authorization: Option<string>, verifier: Verifier, store: UserStore,
               backend: Message -> Json)
    returns (outcome: CallOutcome)
    ensures outcome == ServeSpec(r, authorization, verifier, store, backend)
  {
    var request := new HttpRequest(authorization);
    if Guarded(r) {
      var verdict := RolesGuard.CanActivate(Http(request), RequiredRoles(r), verifier, store);
      if verdict.Threw? {
        return Rejected(verdict.error);
      }
      if !verdict.value {
        return Rejected(Forbidden);
      }
    }
    match Handle(r, request.authorization, request.user) {
      case Err(e) => return Rejected(e);
      case Ok(m) => return Replied(m, backend(m));
    }
  }

  /** A guarded envelope carries the attached user's id and role and the header's token. */
  lemma EnvelopeCarriesIdentity(r: Route, authorization: Option<string>, user: Option<User>)
    requires Guarded(r) && Handle(r, authorization, user).Ok?
    ensures var fields := Handle(r, authorization, user).value.payload.fields;
      && fields["userId"] == Str(user.value.uid)
      && fields["token"] == TokenField(authorization.value)
      && fields["role"] == RoleField(user.value.role)
  {
  }

  /** `register` and `login` are not guarded: the body goes to the auth client unchanged, whatever the credential. */
  lemma UnguardedRoutesForwardBody(r: Route, authorization: Option<string>, verifier: Verifier, store: UserStore,
                                   backend: Message -> Json)
    requires !Guarded(r)
    ensures var m := Message(AuthService, if r.Register? then "register" else "login", r.dto);
      ServeSpec(r, authorization, verifier, store, backend) == Replied(m, backend(m))
  {
  }

  /** A caller whose credential fails authentication gets Unauthorized on every guarded route, and nothing is sent. */
  lemma AuthenticationFailureIsUnauthorized(r: Route, authorization: Option<string>, verifier: Verifier,
                                            store: UserStore, backend: Message -> Json)
    requires Guarded(r)
    requires HttpRun(authorization, verifier, store).result.Err?
    ensures ServeSpec(r, authorization, verifier, store, backend) == Rejected(Unauthorized)
  {
  }

  /**
   * No message reaches the sessions client unless the header carried a
   * Bearer credential that verified, the subject's record was found with a
   * non-empty role, and the envelope then carries exactly that token, the
   * subject's uid (for `get-user-sessions` too) and the stored role.
   */
  lemma DispatchOnlyAfterAuthentication(r: Route, authorization: Option<string>, verifier: Verifier,
                                        store: UserStore, backend: Message -> Json)
    requires Guarded(r)
    requires ServeSpec(r, authorization, verifier, store, backend).Replied?
    ensures BearerCredential(authorization).Some?
    ensures var token := BearerCredential(authorization).value;
      && token in verifier
      && verifier[token].uid in store
      && store[verifier[token].uid].Some?
      && store[verifier[token].uid].value.role.Some?
      && store[verifier[token].uid].value.role.value != ""
    ensures var token := BearerCredential(authorization).value;
      var uid := verifier[token].uid;
      var m := ServeSpec(r, authorization, verifier, store, backend).sent;
      && m.service == SessionsService
      && m.cmd == Command(r)
      && ServeSpec(r, authorization, verifier, store, backend).reply == backend(m)
      && m.payload.Obj?
      && m.payload.fields["token"] == Str(token)
      && m.payload.fields["userId"] == Str(uid)
      && m.payload.fields["role"] == Str(store[uid].value.role.value)
  {
  }

  /**
   * A reply on a guarded route answers the envelope built from the
   * authenticated user and the header's token: the route's body under its
   * own key and its path parameters beside the identity fields.
   */
  lemma GuardedReplySendsEnvelope(r: Route, authorization: Option<string>, verifier: Verifier,
                                  store: UserStore, backend: Message -> Json)
    requires Guarded(r)
    requires ServeSpec(r, authorization, verifier, store, backend).Replied?
    ensures authorization.Some? && HttpRun(authorization, verifier, store).result.Ok?
    ensures ServeSpec(r, authorization, verifier, store, backend).sent ==
      Message(SessionsService, Command(r),
              Obj(Envelope(r, HttpRun(authorization, verifier, store).result.value, TokenField(authorization.value))))
  {
  }

  /**
   * `get-user-sessions` for an authenticated caller with a role: Forbidden,
   * with nothing sent, exactly when the path's user id is not the caller's.
   */
  lemma UserSessionsOwnership(userId: string, authorization: Option<string>, verifier: Verifier,
                              store: UserStore, backend: Message -> Json)
    requires HttpRun(authorization, verifier, store).result.Ok?
    requires RolesGuard.HasRole(Some(HttpRun(authorization, verifier, store).result.value))
    ensures ServeSpec(GetUserSessions(userId), authorization, verifier, store, backend) == Rejected(Forbidden) <==>
      HttpRun(authorization, verifier, store).result.value.uid != userId
    ensures ServeSpec(GetUserSessions(userId), authorization, verifier, store, backend).Replied? <==>
      HttpRun(authorization, verifier, store).result.value.uid == userId
  {
  }

  /**
   * The SPEAKER-only `create-session` route admits a caller whose stored
   * role is ATTENDEE: the roles guard never tests membership.
   */
  lemma AttendeeAdmittedToSpeakerOnlyRoute(dto: Json, token: string, email: Option<string>,
                                           verifier: Verifier, store: UserStore, backend: Message -> Json)
    requires !Contains(token, BEARER)
    requires token in verifier && verifier[token].uid in store
    requires store[verifier[token].uid] == Some(UserRecord(Some(ATTENDEE), email))
    ensures RequiredRoles(CreateSession(dto)) == Some([SPEAKER])
    ensures ServeSpec(CreateSession(dto), Some(BEARER + token), verifier, store, backend).Replied?
    ensures ServeSpec(CreateSession(dto), Some(BEARER + token), verifier, store, backend).sent.payload.fields["role"] ==
            Str(ATTENDEE)
  {
    BearerCredentialOfToken(token);
  }

  /**
   * A verified caller whose stored record holds a non-empty role gets the
   * route's message sent, whichever role it is, unless the route is
   * `get-user-sessions` for another user.
   */
  lemma GuardedRouteServedWhenAuthorized(r: Route, authorization: Option<string>, verifier: Verifier,
                                         store: UserStore, backend: Message -> Json)
    requires Guarded(r)
    requires HttpRun(authorization, verifier, store).result.Ok?
    requires RolesGuard.HasRole(Some(HttpRun(authorization, verifier, store).result.value))
    requires r.GetUserSessions? ==> HttpRun(authorization, verifier, store).result.value.uid == r.userId
    ensures ServeSpec(r, authorization, verifier, store, backend).Replied?
  {
  }

  /**
   * A verified caller whose stored record lacks a role, or holds an empty
   * one, is Forbidden on every guarded route.
   */
  lemma MissingRoleIsForbidden(r: Route, authorization: Option<string>, verifier: Verifier,
                               store: UserStore, backend: Message -> Json)
    requires Guarded(r)
    requires HttpRun(authorization, verifier, store).result.Ok?
    requires !RolesGuard.HasRole(Some(HttpRun(authorization, verifier, store).result.value))
    ensures ServeSpec(r, authorization, verifier, store, backend) == Rejected(Forbidden)
  {
  }
}
