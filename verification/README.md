# Artist booking notifications, gateway rules and client session handling in Dafny

This project models three parts of the artist booking application:

- **The notification service.**
  - Its MongoDB store holds push subscriptions and notification templates.
  - Its three channel senders are email (nodemailer), SMS (Twilio) and web push.
  - Its queue-or-direct dispatch uses Bull.
  - It has HTTP routes for notifications, subscriptions and templates.
- **The API gateway's rules.**
  - The auth middleware takes the token from `Authorization: Bearer <token>`, verifies it, forwards the claims as `x-user-*` headers and classifies errors.
  - The ordered proxy mount table has public auth mounts, protected mounts, prefix rewriting and a 404 fallback.
  - Service URLs and CORS origins come from the environment.
- **The browser client's session handling.**
  - The `fetch` wrapper attaches the stored token.
  - The unauthorised-error handler logs the user out.
  - The Signup and Login pages validate the form, store the session and redirect.

Everything external is an oracle. This covers the mail, SMS and push providers, MongoDB and Redis failures, `jwt.verify`, the clock and locale date formatting.

- A sender's effect is the sequence of provider calls it makes, plus whether it returns or throws.
- A route's effect is that call sequence and the one response it sends.
- `Promise.allSettled` is an order-preserving map.
- JavaScript's `||` truthiness, `undefined`, UTF-16 string length and `JSON.stringify` are all written out explicitly.

Modules, one per source file or component:

| module | file | models |
|---|---|---|
| `Common` | common.dfy | `Option`, errors, environment lookup with `||` fallback, UTF-16 length, ASCII case folding, split/join |
| `Json` | json.dfy | `JSON.stringify` and `JSON.parse` of flat objects of string members |
| `Store` | store.dfy | `database.ts` |
| `Http` | http.dfy | response bodies |
| `Senders` | senders.dfy | `services/notificationService.ts` |
| `JobQueue` | queue.dfy | `queue.ts` |
| `NotificationRoutes` | notification_routes.dfy | `routes/notifications.ts` |
| `SubscriptionRoutes`, `TemplateRoutes` | store_routes.dfy | `routes/subscriptions.ts`, `routes/templates.ts` |
| `Auth` | auth.dfy | `middleware/auth.ts` |
| `Gateway` | gateway.dfy | api-gateway `index.ts` |
| `ClientApi` | client_api.dfy | `client/src/main.tsx` |
| `Signup` | signup.dfy | `client/src/pages/Signup.tsx` |
| `Login` | login.dfy | `client/src/pages/Login.tsx` |

`sendPushNotification` returns the settled outcomes of `Promise.allSettled` and only logs how many were fulfilled. `Senders.SendPushNotification` returns the outcomes, and `Senders.CountFulfilled` gives the count.

## Model

| member | source | states |
|---|---|---|
| Store.InitializeDatabase | services/notification-service/src/database.ts:5-18 | a failed connection is swallowed and leaves the handle as it was; a successful one sets it |
| Store.FailedConnectionDegrades | services/notification-service/src/database.ts:13-21 | after a failed connection the handle stays unset, so subscription and template reads give `[]` and every write gives `null` and stores nothing |
| Store.FailedReconnectKeepsStore | services/notification-service/src/database.ts:9-17 | a later failed connection attempt leaves an established handle in place, so the stored subscriptions stay readable |
| Store.Owned | services/notification-service/src/database.ts:24-32 | a subscription is in the result iff some document of that user projects to `{endpoint, keys}` as it; never more entries than documents |
| Store.OwnedDistributes | services/notification-service/src/database.ts:24-32 | one entry per matching document in stored order: the result over two stretches of documents is the concatenation of theirs, and one document contributes its projection iff its `userId` matches |
| Store.GetSubscriptionsForUser | services/notification-service/src/database.ts:20-37 | `[]` without a store or on a failing query; otherwise the projections of the user's documents, one per document and in stored order, so a subscription is returned iff some stored document of that user projects to it |
| Store.SaveSubscription | services/notification-service/src/database.ts:39-55 | no store gives `null`; a driver error is rethrown; otherwise exactly one document with the user, the endpoint, the keys as `JSON.stringify` text and the time is appended under a fresh id, templates untouched |
| Store.FirstWithEndpoint | services/notification-service/src/database.ts:61 | the position of the first document with the endpoint, all earlier ones having another endpoint |
| Store.DeleteSubscription | services/notification-service/src/database.ts:57-67 | `deleteOne`: at most one document is removed, and one is removed iff some document has the endpoint; it is the first such, the rest keep their order; an error is rethrown |
| Store.SaveTemplate | services/notification-service/src/database.ts:69-85 | one document appended whose keys are the template's plus `userId`, `createdAt`, `updatedAt`; the template's own `userId` overrides the argument; both timestamps are the save time; other fields are kept |
| Store.OwnedTemplatesMembers | services/notification-service/src/database.ts:91-94 | a template document is listed iff it is stored and matches `{userId}`, where an undefined user id matches a null or missing field |
| Store.OwnedTemplatesDistribute | services/notification-service/src/database.ts:91-94 | one entry per matching document in stored order: the listing over two stretches of documents is the concatenation of theirs |
| Store.OwnedTemplatesOne | services/notification-service/src/database.ts:91-94 | a single document is listed exactly when it matches the query |
| Store.GetTemplatesForUser | services/notification-service/src/database.ts:87-101 | `[]` without a store or on a failing query, else exactly the user's templates, one entry per matching document in stored order |
| Store.SaveThenRead | services/notification-service/src/database.ts:39-48 | after a save, the owner reads their earlier subscriptions followed by the new one with its keys as text; every other user reads the same as before |
| Store.SaveTwiceKeepsBoth | services/notification-service/src/database.ts:43-48 | there is no uniqueness check: saving the same subscription twice stores two documents with distinct ids |
| Store.SavePreservesKeysParse | services/notification-service/src/database.ts:46 | every keys text that `saveSubscription` writes parses back with `JSON.parse` |
| Store.DeletePreservesKeysParse | services/notification-service/src/database.ts:61 | deleting keeps every remaining keys text parseable |
| Store.TemplateOwner | services/notification-service/src/database.ts:73-78 | a saved template is listed for the header user unless it carries its own `userId`, in which case it is listed for that user |
| Json.ParseStringify | services/notification-service/src/database.ts:46 | `JSON.parse(JSON.stringify(keys))` gives the keys object back, member for member and in order |
| Json.LiteralParses | services/notification-service/src/database.ts:46 | a string literal written by `JSON.stringify` parses back to the same string, whatever characters it holds |
| Json.EscapeParses | services/notification-service/src/database.ts:46 | escaped string contents, followed by the closing quote, parse back to the original characters and leave the rest untouched |
| Json.MembersParse | services/notification-service/src/database.ts:46 | a non-empty list of serialised members parses back to the same list |
| Senders.LoadMailer | services/notification-service/src/services/notificationService.ts:7 | calling a factory the `nodemailer` package exports builds the transporter; any other name throws a `TypeError` while the module loads |
| Senders.MailerAsWrittenThrows | services/notification-service/src/services/notificationService.ts:7 | as written the module calls `createTransporter`, which `nodemailer` does not export, so loading it throws a `TypeError` |
| Senders.MailerLoads | services/notification-service/src/services/notificationService.ts:7 | with `createTransport` the module loads, which the senders assume |
| Senders.SendEmail | services/notification-service/src/services/notificationService.ts:31-52 | one provider call passing `to`, `subject`, `html` and `text` through, from `SMTP_FROM` when set and non-empty, else the default sender; it throws iff the provider rejects, with the provider's error |
| Senders.SendSms | services/notification-service/src/services/notificationService.ts:54-73 | without both Twilio credentials (the client built at lines 27-29) there are no calls and it returns nothing; otherwise one call with the message, `TWILIO_PHONE_NUMBER` and the recipient, throwing iff it is rejected, with the provider's error |
| Senders.FanOut | services/notification-service/src/services/notificationService.ts:87-102 | one push call per subscription, in order, all with the same payload text, and outcomes in subscription order; it throws iff some stored keys text does not parse; the calls before the first bad one have been made and none after it |
| Senders.CountFulfilled | services/notification-service/src/services/notificationService.ts:101 | the fulfilled count is at most the number of outcomes, and equals it iff every outcome is fulfilled |
| Senders.CountFulfilledAdds | services/notification-service/src/services/notificationService.ts:101 | the count adds up outcome by outcome (one outcome counts 1 iff fulfilled; two stretches count the sum of theirs), so it is exactly the number of fulfilled outcomes |
| Senders.SendPushNotification | services/notification-service/src/services/notificationService.ts:75-107 | with no subscriptions there are no calls and it returns nothing; otherwise one call per subscription, in order, with the serialised payload; it throws the parse error iff a keys text fails to parse, after the calls for the subscriptions before it; otherwise it returns one settled outcome per subscription, outcome i being the provider's answer for subscription i |
| Senders.PushNeverThrowsOnParsedKeys | services/notification-service/src/services/notificationService.ts:89-102 | when every stored keys text parses, push never throws, whatever the providers answer |
| JobQueue.InitializeQueue | services/notification-service/src/queue.ts:7-35 | the error is swallowed; a throw before the queue constructor assigns leaves the handle unchanged; a throw during processor registration leaves a set handle with fewer processors |
| JobQueue.QueueEmail | services/notification-service/src/queue.ts:37-42 | with a handle, one job named `email` carrying the data unchanged is added and nothing is sent; without one, the sender runs |
| JobQueue.QueueSms | services/notification-service/src/queue.ts:44-49 | with a handle, one `sms` job is added; without one, `sendSMS(to, message)` runs |
| JobQueue.QueuePush | services/notification-service/src/queue.ts:51-56 | with a handle, one `push` job is added; without one, `sendPushNotification(userId, payload)` runs |
| JobQueue.QueuedMatchesDirect | services/notification-service/src/queue.ts:18-28 | the worker registered for the job name performs exactly the send the direct path would have performed |
| JobQueue.HandleNeverCleared | services/notification-service/src/queue.ts:5-35 | once the handle is set, every later step keeps it set, so every later call is queued |
| JobQueue.FailedInitStaysDirect | services/notification-service/src/queue.ts:10-34 | if the Redis client or the queue constructor throws, the handle stays unset and every later call takes the direct path |
| JobQueue.DirectCallsKeepUnset | services/notification-service/src/queue.ts:37-56 | direct-path calls never set the handle |
| NotificationRoutes.Answer | services/notification-service/src/routes/notifications.ts:8-15 | success JSON iff the sender returned, a 500 with the route's fixed text iff it threw; the calls are the sender's |
| NotificationRoutes.PostPush | services/notification-service/src/routes/notifications.ts:7-16 | POST `/push` answers success iff `sendPushNotification` returns and 500 "Failed to send push notification" iff it throws |
| NotificationRoutes.PushRouteAlwaysSucceeds | services/notification-service/src/routes/notifications.ts:7-16 | with keys written by the store, `/push` succeeds even when the user has no subscription or every endpoint rejects |
| NotificationRoutes.PostEmail | services/notification-service/src/routes/notifications.ts:19-28 | one mail call; success when the provider fulfils, 500 "Failed to send email" when it rejects |
| NotificationRoutes.EmailRouteMatchesWorker | services/notification-service/src/routes/notifications.ts:19-28 | `/email` makes exactly the provider calls the queue's `email` worker makes for the same options, and succeeds iff that send returns |
| NotificationRoutes.PostSms | services/notification-service/src/routes/notifications.ts:31-40 | without Twilio it answers success and sends nothing; otherwise success or 500 by the provider's outcome |
| NotificationRoutes.SmsRouteMatchesWorker | services/notification-service/src/routes/notifications.ts:31-40 | `/sms` makes exactly the provider calls the queue's `sms` worker makes for the same recipient and message, and succeeds iff that send returns |
| NotificationRoutes.PostAppointmentConfirmation | services/notification-service/src/routes/notifications.ts:43-72 | the confirmation email is sent first; if it is rejected no push follows and the answer is 500; if the body lacks `appointmentDetails` nothing is sent and the answer is 500; otherwise success iff the push returns |
| NotificationRoutes.ConfirmationPushPayload | services/notification-service/src/routes/notifications.ts:48-65 | once the email is accepted, exactly one email goes to `clientEmail` with subject "Appointment Confirmed", followed by the push calls to the body's user with title "Appointment Confirmed", the confirmation text and `{appointmentId}` as data |
| NotificationRoutes.ConfirmationSucceedsWhenMailAccepted | services/notification-service/src/routes/notifications.ts:43-72 | when the mail provider accepts and the stored keys parse, the route succeeds even with no push subscription |
| SubscriptionRoutes.PostSubscription | services/notification-service/src/routes/subscriptions.ts:6-16 | saves under the `x-user-id` header and returns the inserted id (absent without a store); on success the store is the one `saveSubscription` leaves, one document appended and templates untouched; a failing save answers 500 "Failed to save subscription" and keeps the store |
| SubscriptionRoutes.DeleteSubscription | services/notification-service/src/routes/subscriptions.ts:18-27 | answers success whether or not a document matched; the store becomes the one `deleteSubscription` leaves, which is one document shorter iff some document has the endpoint, keeps every document with another endpoint; a failing delete answers 500 "Failed to delete subscription" |
| SubscriptionRoutes.PostThenDeleteRestores | services/notification-service/src/routes/subscriptions.ts:6-27 | registering an endpoint that no stored document has and then unregistering it gives back the stored subscriptions and templates as they were |
| TemplateRoutes.GetTemplates | services/notification-service/src/routes/templates.ts:6-15 | always 200 with the header user's templates, one per matching document in stored order, `[]` on a failing read or without a store |
| TemplateRoutes.PostTemplate | services/notification-service/src/routes/templates.ts:17-27 | the store becomes the one `saveTemplate` leaves: subscriptions unchanged, the earlier templates kept and one template appended under the returned id; a failing save answers 500 "Failed to save template" |
| TemplateRoutes.PostedTemplateIsListed | services/notification-service/src/routes/templates.ts:17-27 | a template posted without its own `userId` is listed by a later GET of the same user |
| Auth.Token | services/api-gateway/src/middleware/auth.ts:17-23 | a token exists iff the header is present and starts with exactly "Bearer "; it is the header minus those 7 characters, so prefix plus token is the header, and an empty token is accepted |
| Auth.TokenOfBearerHeader | services/api-gateway/src/middleware/auth.ts:19-23 | the header the client builds, "Bearer " plus the token, yields exactly that token |
| Auth.ClassifyAsWritten | services/api-gateway/src/middleware/auth.ts:41-49 | the `catch` block as written: 401 "Invalid token" iff the error is a `JsonWebTokenError` or one of its subclasses (expired tokens included), else the 500 |
| Auth.Classify | services/api-gateway/src/middleware/auth.ts:41-49 | corrected order: 401 "Token expired" iff the token expired, 401 "Invalid token" iff another JWT error occurred, 500 "Authentication failed" iff the error is not a JWT error |
| Auth.TokenExpiredNeverReported | services/api-gateway/src/middleware/auth.ts:42-47 | as written, no error ever yields "Token expired", and an expired token yields "Invalid token" |
| Auth.ClassifyAgreesElsewhere | services/api-gateway/src/middleware/auth.ts:41-49 | the correction changes only the answer for expired tokens |
| Auth.AuthMiddleware | services/api-gateway/src/middleware/auth.ts:14-50 | exactly one of "reject with a response" and "call next": no token gives 401 "No token provided"; next is called iff verification succeeds, with `x-user-id`, `x-user-email` and `x-user-role` set from the claims and every other header kept; a verification error is answered by `ClassifyAsWritten` in the `AsWritten` variant (the source) and by the corrected `Classify` in the `Corrected` one |
| Auth.AsWrittenRejections | services/api-gateway/src/middleware/auth.ts:41-48 | the middleware as written answers "Invalid token" iff the error is a JWT error of any kind, expired tokens included, and the 500 iff it is not |
| Auth.CorrectedRejections | services/api-gateway/src/middleware/auth.ts:41-48 | the corrected middleware answers "Token expired" iff the token expired, "Invalid token" iff another JWT error occurred, and the 500 otherwise |
| Auth.ExpiredTokenAnsweredInvalid | services/api-gateway/src/middleware/auth.ts:41-47 | as written, a request with an expired token is answered "Invalid token"; the corrected middleware answers "Token expired" |
| Gateway.ServiceUrl | services/api-gateway/src/index.ts:44-51 | each service URL is its environment variable when set and non-empty, otherwise its `http://localhost:300n` default |
| Gateway.ServiceUrlOwnVariable | services/api-gateway/src/index.ts:44-51 | each service reads only its own variable: setting it to a non-empty URL moves that service there and leaves every other service's URL as it was |
| Gateway.AllowedOrigins | services/api-gateway/src/index.ts:19 | an unset variable gives `['http://localhost:5173']`; a set one, even empty, gives comma-free pieces that join back to it |
| Gateway.FirstMatch | services/api-gateway/src/index.ts:64-129 | the first mount, in registration order, whose path matches, or none when no mount matches |
| Gateway.Rewrite | services/api-gateway/src/index.ts:67 | the `^prefix` rewrite strips the prefix exactly when the path starts with it, else keeps the path |
| Gateway.ProxyError | services/api-gateway/src/index.ts:57-60 | the `onError` answer: status 502, error "Bad Gateway", and the upstream error's own message |
| Gateway.Route | services/api-gateway/src/index.ts:63-134 | the first matching mount decides: public mounts proxy with the headers as given; protected mounts run the auth middleware (the source's `catch` block in the `AsWritten` variant), which either answers or forwards to the proxy; a failing upstream is answered by `onError`; an `/api/` path matching no mount gets 404 "API endpoint not found" |
| Gateway.UpstreamFailureAnswers502 | services/api-gateway/src/index.ts:53-61 | a failing upstream connection turns exactly the requests that would have been forwarded into 502 "Bad Gateway" with the error's message; 404s, the middleware's rejections and unrouted requests are unchanged |
| Gateway.PublicAuthPaths | services/api-gateway/src/index.ts:64-80 | `/api/auth/login`, `/signup` and `/me` reach the auth service with "/api/auth" stripped and the request's headers as given, whatever the token |
| Gateway.OneGuardedMatch | services/api-gateway/src/index.ts:83-129 | at most one protected mount matches a path |
| Gateway.GuardedPaths | services/api-gateway/src/index.ts:83-129 | any other path under a protected prefix passes the middleware, in either variant, then reaches the prefix's owner: messages and conversations go to messaging, profiles and artist-settings go to profiles, each other prefix to its namesake; the prefix is stripped and the claims are forwarded |
| Gateway.ExpiredTokenOnProtectedPath | services/api-gateway/src/index.ts:83-99 | at the gateway, a request to a protected path whose token has expired is answered 401 "Invalid token" as written and "Token expired" once corrected, whatever the upstream does |
| Gateway.ForwardedPath | services/api-gateway/src/index.ts:92 | the forwarded path is the request path with the mount prefix removed |
| ClientApi.PrepareInit | client/src/main.tsx:71-86 | `credentials` is always "include"; `Authorization: Bearer <token>` is set iff the stored token is non-empty, replacing any given one; other headers and options are kept |
| ClientApi.GatewayReadsStoredToken | client/src/main.tsx:76-79 | the gateway extracts exactly the stored token from the prepared header; with no token and no headers of its own, the request carries no `Authorization` |
| ClientApi.RedirectToLoginIfUnauthorized | client/src/main.tsx:36-48 | it acts iff the error is a `TRPCClientError` whose message equals the unauthorised message and a window exists; then `authToken` and `user` are removed and the location is `/login`; otherwise nothing changes |
| ClientApi.RedirectIdempotent | client/src/main.tsx:44-47 | handling the same error twice leaves the same state as handling it once |
| ClientApi.OnCacheEvent | client/src/main.tsx:50-64 | only "updated" events with an "error" action reach the unauthorised handler |
| ClientApi.MessageOr | client/src/pages/Signup.tsx:34 | an error's own message when non-empty, else the fallback |
| Signup.Problem | client/src/pages/Signup.tsx:42-55 | only the first failure is reported: "Please fill in all fields" iff some field is empty; the length message iff all are filled and the password has fewer than 8 UTF-16 units; "Passwords do not match" iff only the match fails |
| Signup.ProblemIffUnacceptable | client/src/pages/Signup.tsx:42-55 | the ordered checks pass iff every field is non-empty, the password has at least 8 units, and the passwords match |
| Signup.HandleSubmit | client/src/pages/Signup.tsx:39-59 | a failing form gets one error toast and no other change; loading is untouched and nothing is mutated; a passing form sets loading and starts one mutation with `{name, email, password, role}` |
| Signup.EightSpacesAccepted | client/src/pages/Signup.tsx:42-47 | whitespace-only fields count as filled and an 8-character password is long enough |
| Signup.SevenCharactersRefused | client/src/pages/Signup.tsx:47-50 | a 7-character password is refused with the length message |
| Signup.Landing | client/src/pages/Signup.tsx:29 | artists land on `/conversations`, all others on `/client-dashboard` |
| Signup.OnSuccess | client/src/pages/Signup.tsx:19-32 | stores the token and user, keeps other storage, redirects by role, shows the success toast and clears loading |
| Signup.LoadingCleared | client/src/pages/Signup.tsx:31-35 | a started submission ends with loading cleared whichever callback runs |
| Login.HandleSubmit | client/src/pages/Login.tsx:39-49 | an empty email or password gives "Please fill in all fields" and no mutation; otherwise loading is set and one mutation with `{email, password}` starts |
| Login.SignupCredentialsAccepted | client/src/pages/Login.tsx:39-49 | every form the Signup page accepts has an email and password the Login page accepts as they are, starting one login mutation with exactly those credentials |
| Login.Landing | client/src/pages/Login.tsx:25-29 | `/role-selection` iff `hasCompletedOnboarding` is falsy, `/conversations` iff truthy |
| Login.OnSuccess | client/src/pages/Login.tsx:15-32 | stores the token and user, keeps other storage, redirects by onboarding status, shows the welcome toast and clears loading |
| ClientApi.OnMutationError | client/src/pages/Login.tsx:33-36 | a failed login or registration adds one error toast carrying the error's message, or the page's fallback ("Login failed. Please try again.", "Registration failed. Please try again.") when it is empty, and clears loading; storage, location and started mutations are unchanged |
| Login.NotOnboardedGoesToRoleSelection | client/src/pages/Login.tsx:25-26 | a missing, `false` or `0` onboarding flag lands on role selection |

## Left out

- Provider internals are oracles: nodemailer transport, web-push encryption and VAPID set-up, the Twilio client and Bull/Redis job execution. Each provider call yields fulfilled or rejected.
- MongoDB is an ordered sequence of documents.
  - Query operators beyond `{field: value}` equality are not modelled, and neither are array-field matching or a client-supplied `_id`.
  - Ids are natural numbers handed out in order, not ObjectIds.
- Key order of the document built from `{userId, ...template, createdAt, updatedAt}` is not modelled; template fields form a map.
- JSON is modelled only for the value `saveSubscription` writes: a flat object of string members.
  - `Senders.ParseStoredKeys` refuses other JSON texts that `JSON.parse` accepts, such as nested values and numbers.
  - `Senders.ParseStoredKeys` also refuses a lone surrogate escape.
  - Such texts are never written by the modelled store.
  - Json.KeyMap is a list of members and may name a key twice, which a parsed request body never does. For such a list the model keeps both members on parsing, where `JSON.parse` keeps only the last value.
- Start-up order of the service's `index.ts` is not modelled. `REDIS_URL`, `MONGODB_URL` and SMTP host settings only configure oracles.
- JobQueue.InitializeQueue: whether `new Redis(...)`, `new Queue(...)` or a `process(...)` registration throws is a parameter. Asynchronous Redis connection errors after start-up are not modelled.
- Bull job behaviour: a job's retry, its completion promise and the rejection of `add` are not modelled.
- Console logging and the logged fulfilled count are left out. The count appears only as `Senders.CountFulfilled`.
- Senders.PushPayload: `data` may be any JSON value in the source (the `/push` body's `data`, the appointment's `id`). The model carries it as a flat object of string members, so a numeric appointment id, rendered `{"appointmentId":123}`, is not expressible.
- Locale-dependent date text (`toLocaleString`, `toLocaleDateString`) comes from an oracle.
- Auth.Claims: `jwt.verify` is an oracle that returns the three claim strings. A verified token lacking a claim would set a header to `undefined`; this is not modelled.
- Gateway middleware: helmet, CORS enforcement, the rate limiter, body parsing, request logging, the error handler, `/health` and `app.listen` are left out. Only the CORS origin list and the proxy table are modelled.
- Gateway.Proxy: `changeOrigin: true` rewrites the `Host` header to the target's host; the model forwards the headers as given and does not model `Host`. The proxied request's response is not modelled either: `Proxied` stands for relaying whatever the service answers.
- Query strings are not modelled; paths are plain path text.
- Empty forwarded path: http-proxy-middleware's handling of a path rewritten to the empty string, where the mount path is requested exactly, is not modelled. The forwarded path is then `""`.
- `UNAUTHED_ERR_MSG` is a parameter; `@shared/const` is not part of this model.
- ClientApi.PrepareInit treats `init.headers` as a plain object.
  - A `Headers` instance, whose spread is empty, is not modelled.
  - An `authorization` key spelled in lower case would sit beside the added `Authorization`; the model keeps header names as given.
- Page code: toast rendering, JSX and the show-password toggles are left out. The register and login mutations are recorded as inputs; their server side is not part of this model.
- Login.Flag covers a missing value, a boolean and an integer. Other JavaScript values of `hasCompletedOnboarding` are not modelled.

## Findings

| source | as written | input that shows it | evidently intended | confidence | as-written member | corrected member |
|---|---|---|---|---|---|---|
| services/api-gateway/src/middleware/auth.ts:42-47 | `instanceof jwt.JsonWebTokenError` is tested before `instanceof jwt.TokenExpiredError`; in `jsonwebtoken` the latter class extends the former | a bearer token whose `exp` lies in the past: `jwt.verify` throws `TokenExpiredError`, the first test already holds, and the answer is 401 "Invalid token" | 401 "Token expired" for expired tokens, "Invalid token" for other JWT errors | high (subclass relation from the library's documented class hierarchy); not executed | Auth.ExpiredTokenAnsweredInvalid | Auth.Classify |
| services/notification-service/src/services/notificationService.ts:7 | the transporter is built with `nodemailer.createTransporter(...)`; the package exports `createTransport` | loading the module: `nodemailer.createTransporter` is `undefined`, so the call throws a `TypeError` and the service cannot import its senders | `nodemailer.createTransport(...)` | high (from the package's documented exports); not executed | Senders.MailerAsWrittenThrows | Senders.MailerLoads |

The auth middleware and the gateway take an `Auth.Variant`: `AsWritten` is the `catch` block of the source and `Corrected` tests the subclass first, so each lemma states which one it speaks of. The senders are modelled with the mailer module loading, as it does once `createTransport` is called.
