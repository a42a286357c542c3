# Gateway guard chain and route table, in Dafny

This project models the request path of an API gateway built on NestJS. An
inbound call is first **authenticated**. The credential is the
`Authorization: Bearer …` header for HTTP, or `data.token` of a broker
message for RPC. The token goes to the identity provider's verifier, and the
caller's record is read from the user store. Next the call is **authorized**
against the route's `@Role(...)` metadata. Finally it is **forwarded**: one
command message goes to the auth or sessions service over the broker, and the
reply comes back unchanged.

The external services are inputs:
- the token verifier is a map from token to decoded claims; a token outside its domain is rejected;
- the user store is a map from uid to an optional `{role, email}` record; a uid outside its domain is a failed read, and `None` is a missing record.

The pure functions return a trace of the external calls they make. That is how
the model states that a call without a credential consults neither service.

Modules:
- `JsString` (`js_string.dfy`): `startsWith`, `indexOf`, and `split` with a non-empty string separator, following the ECMAScript algorithms. `JoinSplit` proves the round trip `Join(Split(s, sep), sep) == s`. Strings are sequences of Unicode scalar values, not of UTF-16 code units; for the ASCII separator `"Bearer "` this makes no difference.
- `Identity` (`identity.dfy`): claims, stored records, the verifier and store maps, the exception kinds, and the trace entries.
- `FirebaseAuthGuard` (`firebase_auth_guard.dfy`): credential extraction and the verify-then-lookup decision, as functions. The `user` attachment is done by methods on classes `HttpRequest` and `RpcData`, whose `user` field they modify.
- `RolesGuard` (`roles_guard.dfy`): the roles guard's verdict, and its `CanActivate`, which first runs authentication on the same call.
- `GatewayController` (`app_controller.dfy`): the route datatype, the tables of role metadata, client and command, the envelope each handler builds, and `Serve`. `Serve` runs one HTTP call through guard, handler and send.

Behaviour of the code that the model keeps, though a reader might expect otherwise:
- The roles guard never tests whether the user's role is in the required list. It only checks that an attached user has a non-empty role (`roles.guard.ts:46-52`). For example, an ATTENDEE passes the SPEAKER-only `create-session` route (`AttendeeAdmittedToSpeakerOnlyRoute`).
- Over HTTP the header `"Bearer "` yields the empty token, which is still sent to the verifier. Over RPC an empty token is rejected before any external call (`EmptyTokenOnlyVerifiedOverHttp`).
- An RPC message whose `data` is missing raises a TypeError outside the guard's `try`, not an Unauthorized.
- A context of another transport type is not authenticated: the auth guard returns `false`. The roles guard discards that result, so a route without role metadata would admit the call.
- Request bodies are not merged with the identity fields. Each body is nested under its own key (`createSessionDto`, …). The `get-questions` envelope leaves out the `sessionId` the route binds.

## Model

| member | source | states |
|---|---|---|
| `JsString.StartsWithPointwise` | src/guards/firebase-auth.guard.ts:31 | `startsWith` holds iff the prefix is no longer than the string and agrees with it at each of the prefix's positions |
| `JsString.IndexOf` | src/guards/firebase-auth.guard.ts:35 | the result is the first index at which the separator occurs, and none is returned exactly when it does not occur |
| `JsString.Split` | src/guards/firebase-auth.guard.ts:35 | `split(sep)` always yields at least one piece |
| `JsString.SplitAtLeftmostOccurrence` | src/guards/firebase-auth.guard.ts:35 | with no occurrence of the separator the split is the string alone; otherwise it has at least two pieces and the first ends at the leftmost occurrence |
| `JsString.SplitStep` | src/guards/firebase-auth.guard.ts:35 | at the leftmost occurrence the separator is matched; the first piece is the text before it and the remaining pieces are the split of the text after it |
| `JsString.JoinSplit` | src/guards/firebase-auth.guard.ts:35 | joining the pieces of `split(sep)` with `sep` gives back the original string |
| `JsString.PiecesAvoidSeparator` | src/guards/firebase-auth.guard.ts:35 | no piece produced by `split` contains the separator |
| `JsString.FirstPiece` | src/guards/firebase-auth.guard.ts:35 | the first piece of a split is a prefix free of the separator, and it either spans the whole string or is followed by the separator |
| `JsString.SplitAfterLeadingSeparator` | src/guards/firebase-auth.guard.ts:35 | a string starting with the separator splits into at least two pieces; the first is empty and the second is the first piece of the text after the prefix |
| `JsString.SecondPiece` | src/guards/firebase-auth.guard.ts:31-35 | after a leading separator, `split(sep)[1]` is a prefix of the remaining text, free of the separator, running to the end or to the next occurrence |
| `Identity.WithStoredProfile` | src/guards/firebase-auth.guard.ts:51-55 | the attached user keeps the token's uid and other claims, and takes `role` and `email` from the stored record, even when the record lacks them |
| `FirebaseAuthGuard.HttpRequest.AttachUser` | src/guards/firebase-auth.guard.ts:51-55 | afterwards the request's `user` is the given user |
| `FirebaseAuthGuard.RpcData.AttachUser` | src/guards/firebase-auth.guard.ts:87-91 | afterwards the RPC data's `user` is the given user |
| `FirebaseAuthGuard.BearerCredential` | src/guards/firebase-auth.guard.ts:29-35 | a credential exists iff the header is present and starts with "Bearer "; it is the text after the prefix, free of "Bearer ", running to the end or to the next "Bearer " |
| `FirebaseAuthGuard.RpcCredential` | src/guards/firebase-auth.guard.ts:66-70 | a credential exists iff the message has `data` with a non-empty token, and it is that token; a null message or a missing or empty token is Unauthorized; missing `data` is a TypeError |
| `FirebaseAuthGuard.VerifyThenLookup` | src/guards/firebase-auth.guard.ts:36-59 | the verifier is called first, and the store only after the token verifies; success iff the token verifies and the subject's record is read and present; every failure is the same Unauthorized; the user is the claims with the stored role and email |
| `FirebaseAuthGuard.HttpRun` | src/guards/firebase-auth.guard.ts:27-60 | a missing or non-Bearer header is Unauthorized with no external call; otherwise the run is exactly the verify-then-lookup of the Bearer credential; every failure is Unauthorized |
| `FirebaseAuthGuard.RpcRun` | src/guards/firebase-auth.guard.ts:62-97 | a message without a usable token fails with the credential's error and no external call; otherwise the run is exactly the verify-then-lookup of that token; the only failure other than Unauthorized is the TypeError for a message without `data` |
| `FirebaseAuthGuard.Activation` | src/guards/firebase-auth.guard.ts:18-25 | `false` is returned exactly for a context that is neither HTTP nor RPC; for HTTP and RPC, `true` is returned iff the run succeeds, and otherwise the run's error is thrown (Unauthorized over HTTP) |
| `FirebaseAuthGuard.CanActivateHttp` | src/guards/firebase-auth.guard.ts:27-60 | returns true and attaches the run's user on success; otherwise throws the run's error and leaves `request.user` as it was |
| `FirebaseAuthGuard.CanActivateRpc` | src/guards/firebase-auth.guard.ts:62-97 | returns true and attaches the run's user to the RPC data on success; otherwise throws and leaves `data.user` as it was |
| `FirebaseAuthGuard.CanActivate` | src/guards/firebase-auth.guard.ts:18-25 | the outcome is `Activation`; the request (HTTP) or data (RPC) user slot holds the new user on success and is unchanged otherwise; other contexts change nothing |
| `FirebaseAuthGuard.TransportsAgree` | src/guards/firebase-auth.guard.ts:27-97 | an HTTP call and an RPC call with the same token, verifier and store make the same external calls and give the same user or error |
| `FirebaseAuthGuard.EmptyTokenOnlyVerifiedOverHttp` | src/guards/firebase-auth.guard.ts:31-75 | the header "Bearer " yields the empty token, which is sent to the verifier; an RPC message with an empty token is rejected with no external call |
| `FirebaseAuthGuard.BearerCredentialOfToken` | src/guards/firebase-auth.guard.ts:35 | for a token with no "Bearer " inside, the header "Bearer " + token yields exactly that token |
| `RolesGuard.HasRole` | src/guards/roles.guard.ts:46 | the check fails exactly when no user is attached, or its role is missing or empty |
| `RolesGuard.UserOf` | src/guards/roles.guard.ts:36-44 | the user is read from the RPC data for an RPC context, and from the HTTP request for any other |
| `RolesGuard.Decision` | src/guards/roles.guard.ts:22-53 | an authentication exception propagates unchanged; the guard never returns false; once authentication returned, it allows iff the metadata is absent or the user has a non-empty role, and is Forbidden iff the metadata is present and that role is missing |
| `RolesGuard.CanActivate` | src/guards/roles.guard.ts:22-53 | authentication runs first on the same call, with the same effect on the user slot; the verdict is `Decision` on the authentication outcome, the metadata, and the user read afterwards (RPC data for RPC, the request otherwise) |
| `RolesGuard.AnyRolePassesAnyList` | src/guards/roles.guard.ts:46-52 | a user with any non-empty role passes a route whatever roles its metadata lists |
| `RolesGuard.ListContentsIrrelevant` | src/guards/roles.guard.ts:26-52 | the verdict is the same for any two role lists; only whether metadata is present matters |
| `RolesGuard.EmptyListIsNotAbsent` | src/guards/roles.guard.ts:24-34 | an empty role list is checked like any other; absent metadata allows whatever the user, even after an authentication result of false |
| `RolesGuard.AuthenticationFailureNeverForbidden` | src/guards/roles.guard.ts:24 | a caller failing authentication gets the authentication exception, never Forbidden; over HTTP it is Unauthorized |
| `RolesGuard.OtherTransportSkipsAuthentication` | src/guards/roles.guard.ts:24-50 | a context of another transport type keeps the user it had; it is allowed iff the route has no metadata or that user has a non-empty role, and Forbidden otherwise |
| `GatewayController.Queue` | src/app.module.ts:22-34 | the auth client is on `auth_queue` and the sessions client on `sessions_queue`, and no other service uses either |
| `GatewayController.RequiredRoles` | src/app.controller.ts:41-185 | a route declares role metadata iff it is guarded; exactly `create-session`, `get-sessions-by-speaker` and `get-session-attendees` declare SPEAKER alone; every other guarded route declares SPEAKER and ATTENDEE |
| `GatewayController.Command` | src/app.controller.ts:32-197 | the commands `register` and `login` belong to exactly the register and login routes |
| `GatewayController.ServiceOf` | src/app.controller.ts:25-26 | the auth client receives exactly the `register` and `login` commands; every other command goes to the sessions client |
| `GatewayController.TokenField` | src/app.controller.ts:48 | `split('Bearer ')[1]` is undefined iff the header contains no "Bearer "; a defined token contains no "Bearer "; for a header that passed the guard it is the credential the guard verified |
| `GatewayController.Envelope` | src/app.controller.ts:51-199 | the envelope has the keys of `EnvelopeKeys`; `userId` is the user's uid (the path's for `get-user-sessions`), with the given token and the user's role; a body is nested under its own key, which is not an identity key; `sessionId` and `questionId` appear where bound |
| `GatewayController.Handle` | src/app.controller.ts:30-200 | register and login forward the body unchanged to the auth client; a guarded handler without user or header fails with a TypeError; Forbidden iff `get-user-sessions` is called for another uid; a guarded handler with user and header sends otherwise, on the route's client and command, and its payload is exactly `Envelope` of the route, the user and the header's token |
| `GatewayController.ServeSpec` | src/app.controller.ts:40-200 | unguarded routes always reply; a reply carries the route's client and command and the backend's reply to the message sent; a guarded reply needs a successful authentication; a call is rejected only with Unauthorized or Forbidden, never with the handler's TypeError |
| `GatewayController.Serve` | src/app.controller.ts:40-200 | one HTTP call through the roles guard (a guard's false becomes Forbidden), the handler, and one send whose reply is returned unchanged |
| `GatewayController.EnvelopeCarriesIdentity` | src/app.controller.ts:47-53 | a guarded envelope's `userId`, `token` and `role` are the attached uid, the header's token and the attached role |
| `GatewayController.UnguardedRoutesForwardBody` | src/app.controller.ts:30-38 | `register` and `login` send the body unchanged to the auth client with cmd `register` / `login`, whatever the credential |
| `GatewayController.AuthenticationFailureIsUnauthorized` | src/app.controller.ts:40-42 | on every guarded route a failed authentication is Unauthorized and nothing is sent |
| `GatewayController.DispatchOnlyAfterAuthentication` | src/app.controller.ts:43-54 | a message is sent only after the Bearer token verified and the subject's record with a non-empty role was found; it goes to the sessions client with the route's command, and carries that token, that uid and the current stored role |
| `GatewayController.GuardedReplySendsEnvelope` | src/app.controller.ts:43-199 | a reply on a guarded route answers the sessions-client message with the route's command whose payload is the envelope of the authenticated user and the header's token, nesting the body and the path parameters |
| `GatewayController.GuardedRouteServedWhenAuthorized` | src/app.controller.ts:40-199 | conversely, a verified caller with a non-empty stored role gets the message of any guarded route sent, unless it asks `get-user-sessions` for another uid |
| `GatewayController.UserSessionsOwnership` | src/app.controller.ts:85-101 | for an authenticated caller with a role, `get-user-sessions` is Forbidden iff the path's user id differs from the caller's uid, and replies iff they are equal |
| `GatewayController.AttendeeAdmittedToSpeakerOnlyRoute` | src/app.controller.ts:40-55 | a caller whose stored role is ATTENDEE reaches the SPEAKER-only `create-session` route, and the envelope's role is ATTENDEE |
| `GatewayController.MissingRoleIsForbidden` | src/guards/roles.guard.ts:46-50 | a verified caller whose record lacks a role, or has an empty one, is Forbidden on every guarded route |

## Left out

- src/firebase/firebase.service.ts is not part of this model: the SDK wrapper, environment reading and logging are replaced by the verifier and store maps.
- src/app.module.ts: only the queue of each client is kept (`GatewayController.Queue`); URLs, durability and the dependency wiring are not modelled.
- src/dto/create-user.dto.ts: the validation decorators (email, Brazilian phone number, minimum length) are not modelled; bodies are opaque JSON values.
- Promises, the observables that `send` returns, waiting for the broker's reply, timeouts and reconnection are not modelled: the backend is a total function from message to reply, so an unavailable upstream is not represented.
- `JSON.parse` of the message bytes: the RPC content is taken as already decoded, so a parse error is not represented.
- Reflector's merging of handler and class metadata: the route's role metadata is an input.
- Exception messages: only the exception kind (Unauthorized, Forbidden, TypeError) is kept.
- JavaScript truthiness is modelled for strings only: a token or role is missing, empty or a non-empty string. Other JSON types in those places are not modelled.
- The store path `users/${uid}` is keyed by the uid as given; a uid containing `/` would address another node, which is not modelled.
- JSON numbers in bodies are modelled as integers. `JSON.stringify` drops properties whose value is undefined on the wire; envelopes here keep them as `Undefined`.
- Header name case-folding and repeated Authorization headers are handled by the HTTP layer and are not modelled.
- The controller defines no RPC handlers, so `Serve` covers HTTP calls only; the RPC path is modelled in the two guards.
