/**
 The API gateway's routing (`services/api-gateway/src/index.ts`): an
 ordered table of mounts, the first whose path matches wins. Three public
 auth mounts come first; every other mount runs the auth middleware before
 proxying. The proxied path is the original path with the mount's rewrite
 prefix stripped. An `/api` path that matches no mount gets a 404.

 Express compares mount paths case-insensitively and only at segment
 boundaries (`/api/files` matches `/api/files` and `/api/files/x`, not
 `/api/filesx`); `pathRewrite` is a case-sensitive `^prefix` regex.
 */
module Gateway {
  import opened Common
  import Http
  import Auth

  // ---------------------------------------------------------------------
  // Configuration read at start-up
  // ---------------------------------------------------------------------

  datatype Service = AuthService | NotificationService | FileService | MessagingService | AppointmentService | ProfileService

  /** The environment variable naming each service's URL. */
  function UrlVariable(s: Service): string {
    match s
    case AuthService => "AUTH_SERVICE_URL"
    case NotificationService => "NOTIFICATION_SERVICE_URL"
    case FileService => "FILE_SERVICE_URL"
    case MessagingService => "MESSAGING_SERVICE_URL"
    case AppointmentService => "APPOINTMENTS_SERVICE_URL"
    case ProfileService => "PROFILE_SERVICE_URL"
  }

  /** The local port each service listens on by default. */
  function DefaultPort(s: Service): nat {
    match s
    case AuthService => 3001
    case NotificationService => 3002
    case FileService => 3003
    case MessagingService => 3004
    case AppointmentService => 3005
    case ProfileService => 3006
  }

  function Digit(d: nat): char
    requires d < 10
  {
    ('0' as int + d) as char
  }

  /** `http://localhost:<port>` for a four-digit port. */
  function LocalUrl(port: nat): string
    requires 1000 <= port < 10000
  {
    "http://localhost:" + [Digit(port / 1000), Digit(port / 100 % 10), Digit(port / 10 % 10), Digit(port % 10)]
  }

  /** `process.env.X_SERVICE_URL || 'http://localhost:300n'` */
  function ServiceUrl(env: Env, s: Service): (url: string)
    ensures Truthy(Lookup(env, UrlVariable(s))) ==> url == env[UrlVariable(s)]
    ensures !Truthy(Lookup(env, UrlVariable(s))) ==> url == LocalUrl(DefaultPort(s))
  {
    EnvOr(env, UrlVariable(s), LocalUrl(DefaultPort(s)))
  }

  /** Each service reads its own variable: setting one service's variable to
      a non-empty URL moves that service there and leaves every other
      service's URL as it was. */
  lemma ServiceUrlOwnVariable(env: Env, s: Service, url: string, t: Service)
    requires url != ""
    ensures ServiceUrl(env[UrlVariable(s) := url], s) == url
    ensures t != s ==> ServiceUrl(env[UrlVariable(s) := url], t) == ServiceUrl(env, t)
  {
    if t != s {
      VariablesDiffer(s, t);
    }
  }

  /** No two services share a URL variable: the names differ in their first
      or second character. */
  lemma VariablesDiffer(s: Service, t: Service)
    requires s != t
    ensures UrlVariable(s) != UrlVariable(t)
  {
    var u, w := UrlVariable(s), UrlVariable(t);
    assert u[0] != w[0] || u[1] != w[1];
  }

  const DefaultOrigin: string := "http://localhost:5173"

  /** `process.env.ALLOWED_ORIGINS?.split(',') || [DefaultOrigin]`: an array is
      always truthy, so only an unset variable gives the default; a set one
      (even empty) is split into comma-free pieces that join back to it. */
  function AllowedOrigins(env: Env): (origins: seq<string>)
    ensures "ALLOWED_ORIGINS" !in env ==> origins == [DefaultOrigin]
    ensures "ALLOWED_ORIGINS" in env ==>
      && |origins| >= 1
      && Join(origins, ',') == env["ALLOWED_ORIGINS"]
      && forall i :: 0 <= i < |origins| ==> ',' !in origins[i]
  {
    if "ALLOWED_ORIGINS" in env then
      JoinSplit(env["ALLOWED_ORIGINS"], ',');
      Split(env["ALLOWED_ORIGINS"], ',')
    else [DefaultOrigin]
  }

  // ---------------------------------------------------------------------
  // The mount table
  // ---------------------------------------------------------------------

  /** One `app.use(path, [authMiddleware,] createProxyMiddleware(...))`. */
  datatype Mount = Mount(path: string, guarded: bool, service: Service, rewrite: string)

  /** A public auth mount: no middleware, "/api/auth" stripped. */
  function Public(path: string): Mount {
    Mount(path, false, AuthService, "/api/auth")
  }

  /** A protected mount for "/api/<name>": the middleware runs first and the
      mount path itself is the rewrite prefix. */
  function Guarded(name: string, s: Service): Mount {
    Mount("/api/" + name, true, s, "/api/" + name)
  }

  /** The mounts in registration order. */
  const Mounts: seq<Mount> := [
    Public("/api/auth/login"),
    Public("/api/auth/signup"),
    Public("/api/auth/me"),
    Guarded("auth", AuthService),
    Guarded("notifications", NotificationService),
    Guarded("files", FileService),
    Guarded("messages", MessagingService),
    Guarded("conversations", MessagingService),
    Guarded("appointments", AppointmentService),
    Guarded("profiles", ProfileService),
    Guarded("artist-settings", ProfileService)
  ]

  const PublicCount: nat := 3

  /** Express's mount match: the mount path is a case-insensitive prefix of
      the request path, ending at the path's end or at a '/'. Every mount
      path is lower-case ASCII, and a regular expression with the `i` flag
      but without `u` folds no other character onto an ASCII letter, so
      folding the request path's ASCII letters alone is exact. */
  predicate Matches(mountPath: string, path: string) {
    var p := Lower(path);
    StartsWith(p, mountPath) && (|p| == |mountPath| || p[|mountPath|] == '/')
  }

  /** The index of the first mount at or after `from` that matches. */
  function FirstMatch(path: string, from: nat): (r: Option<nat>)
    ensures r.Some? ==>
      && from <= r.value < |Mounts| && Matches(Mounts[r.value].path, path)
      && forall j :: from <= j < r.value ==> !Matches(Mounts[j].path, path)
    ensures r.None? ==> forall j :: from <= j < |Mounts| ==> !Matches(Mounts[j].path, path)
    decreases |Mounts| - from
  {
    if from >= |Mounts| then None
    else if Matches(Mounts[from].path, path) then Some(from)
    else FirstMatch(path, from + 1)
  }

  /** `pathRewrite: {'^prefix': ''}`: the prefix is removed when the path
      starts with it exactly (case-sensitively), otherwise the path is kept. */
  function Rewrite(path: string, prefix: string): (r: string)
    ensures StartsWith(path, prefix) ==> prefix + r == path
    ensures !StartsWith(path, prefix) ==> r == path
  {
    if StartsWith(path, prefix) then
      assert path == path[..|prefix|] + path[|prefix|..];
      path[|prefix|..]
    else path
  }

  // ---------------------------------------------------------------------
  // Handling one request
  // ---------------------------------------------------------------------

  /** Where a request ends up: proxied to a service with the (possibly
      rewritten) path and the headers the middleware left; answered by the
      gateway itself; or not under `/api` and left to other handlers. */
  datatype Routed =
    | Proxied(target: string, path: string, headers: Auth.Headers)
    | Answered(response: Http.Response)
    | Unrouted

  const NotFound: Http.Response := Http.Response(404, Http.Failure("Not Found", Some("API endpoint not found")))

  /** The proxy's `onError`: 502 carrying the error's own message. */
  function ProxyError(err: Error): (r: Http.Response)
    ensures r.status == 502 && r.body == Http.Failure("Bad Gateway", Some(err.message))
  {
    Http.Response(502, Http.Failure("Bad Gateway", Some(err.message)))
  }

  /** The proxy step of one mount: the request goes to the mount's service
      with the rewritten path, unless the connection upstream fails
      (`upstream` is that failure), in which case `onError` answers. */
  function Proxy(env: Env, m: Mount, path: string, headers: Auth.Headers, upstream: Option<Error>): Routed {
    match upstream
    case Some(err) => Answered(ProxyError(err))
    case None => Proxied(ServiceUrl(env, m.service), Rewrite(path, m.rewrite), headers)
  }

  /** The whole `/api` pipeline for one request, after rate limiting and body
      parsing; `v` selects the auth middleware's `catch` block (the source's
      is `Auth.AsWritten`). */
  function Route(env: Env, v: Auth.Variant, verify: Auth.Verifier, path: string, headers: Auth.Headers, upstream: Option<Error>)
    : (r: Routed)
    ensures FirstMatch(path, 0).None? ==>
      r == (if StartsWith(Lower(path), "/api/") then Answered(NotFound) else Unrouted)
    ensures FirstMatch(path, 0).Some? ==>
      var m := Mounts[FirstMatch(path, 0).value];
      && (!m.guarded ==> r == Proxy(env, m, path, headers, upstream))
      && (m.guarded ==>
            match Auth.AuthMiddleware(v, headers, Auth.JwtSecret(env), verify)
            case Reject(response) => r == Answered(response)
            case Next(forwarded) => r == Proxy(env, m, path, forwarded, upstream))
  {
    match FirstMatch(path, 0)
    case None => if StartsWith(Lower(path), "/api/") then Answered(NotFound) else Unrouted
    case Some(i) =>
      var m := Mounts[i];
      if !m.guarded then Proxy(env, m, path, headers, upstream)
      else
        match Auth.AuthMiddleware(v, headers, Auth.JwtSecret(env), verify)
        case Reject(response) => Answered(response)
        case Next(forwarded) => Proxy(env, m, path, forwarded, upstream)
  }

  /** A failing upstream connection turns exactly the requests that would
      have been forwarded into 502 "Bad Gateway" answers carrying the
      error's message; the 404, the middleware's rejections and unrouted
      requests are unaffected. */
  lemma UpstreamFailureAnswers502(env: Env, v: Auth.Variant, verify: Auth.Verifier, path: string, headers: Auth.Headers, err: Error)
    ensures var ok := Route(env, v, verify, path, headers, None);
      var failed := Route(env, v, verify, path, headers, Some(err));
      && (ok.Proxied? ==> failed == Answered(ProxyError(err)) && failed.response.status == 502)
      && (!ok.Proxied? ==> failed == ok)
  {
  }

  // ---------------------------------------------------------------------
  // Properties of the table
  // ---------------------------------------------------------------------

  /** Which service each protected prefix belongs to, stated independently
      of the table: `messages` and `conversations` go to messaging,
      `profiles` and `artist-settings` to profiles, the rest to their namesake. */
  function Owner(prefix: string): Option<Service> {
    if prefix == "auth" then Some(AuthService)
    else if prefix == "notifications" then Some(NotificationService)
    else if prefix == "files" then Some(FileService)
    else if prefix == "messages" || prefix == "conversations" then Some(MessagingService)
    else if prefix == "appointments" then Some(AppointmentService)
    else if prefix == "profiles" || prefix == "artist-settings" then Some(ProfileService)
    else None
  }

  /** The three public auth paths reach the auth service without the auth
      middleware: whatever the token, the headers pass through unchanged and
      the path loses its "/api/auth" prefix. */
  lemma PublicAuthPaths(env: Env, v: Auth.Variant, verify: Auth.Verifier, path: string, headers: Auth.Headers, i: nat)
    requires i < PublicCount
    requires Matches(Mounts[i].path, path)
    ensures Route(env, v, verify, path, headers, None) == Proxied(ServiceUrl(env, AuthService), Rewrite(path, "/api/auth"), headers)
  {
    var k := FirstMatch(path, 0).value;
    assert k <= i;
  }

  /** The two characters after "/api/" tell the protected mounts apart. */
  lemma GuardedPathsDiffer(i: nat, j: nat)
    requires PublicCount <= i < |Mounts| && PublicCount <= j < |Mounts| && i != j
    ensures |Mounts[i].path| >= 7 && |Mounts[j].path| >= 7
    ensures Mounts[i].path[5] != Mounts[j].path[5] || Mounts[i].path[6] != Mounts[j].path[6]
  {
  }

  lemma PrefixAgrees(s: string, prefix: string)
    requires StartsWith(s, prefix)
    ensures forall k :: 0 <= k < |prefix| ==> s[k] == prefix[k]
  {
    assert forall k :: 0 <= k < |prefix| ==> s[..|prefix|][k] == s[k];
  }

  /** At most one protected mount matches a path. */
  lemma {:induction false} OneGuardedMatch(path: string, i: nat, j: nat)
    requires PublicCount <= i < |Mounts| && PublicCount <= j < |Mounts| && i != j
    requires Matches(Mounts[i].path, path)
    ensures !Matches(Mounts[j].path, path)
  {
    GuardedPathsDiffer(i, j);
    var p := Lower(path);
    PrefixAgrees(p, Mounts[i].path);
    if Matches(Mounts[j].path, path) {
      PrefixAgrees(p, Mounts[j].path);
      assert false;
    }
  }

  /** A path under a protected prefix that none of the public mounts claims
      (for "/api/auth" that is every path but login, signup and me) passes
      the auth middleware, whichever `catch` block it runs; if it admits the
      request, the request reaches the prefix's owner with the prefix
      stripped and the claims forwarded. */
  lemma {:induction false} GuardedPaths(env: Env, v: Auth.Variant, verify: Auth.Verifier, path: string, headers: Auth.Headers, name: string)
    requires Owner(name).Some?
    requires Matches("/api/" + name, path)
    requires forall j :: 0 <= j < PublicCount ==> !Matches(Mounts[j].path, path)
    ensures var r := Route(env, v, verify, path, headers, None);
      match Auth.AuthMiddleware(v, headers, Auth.JwtSecret(env), verify)
      case Reject(response) => r == Answered(response)
      case Next(forwarded) => r == Proxied(ServiceUrl(env, Owner(name).value), Rewrite(path, "/api/" + name), forwarded)
  {
    var i := MountOf(name);
    var k := FirstMatch(path, 0).value;
    if k != i {
      OneGuardedMatch(path, i, k);
    }
  }

  /** The finding at the gateway: a request to a protected path whose token
      has expired is answered "Invalid token" by the gateway as written and
      "Token expired" by the corrected one, whatever the upstream does. */
  lemma ExpiredTokenOnProtectedPath(env: Env, verify: Auth.Verifier, path: string, headers: Auth.Headers, name: string,
                                    message: string, upstream: Option<Error>)
    requires Owner(name).Some?
    requires Matches("/api/" + name, path)
    requires forall j :: 0 <= j < PublicCount ==> !Matches(Mounts[j].path, path)
    requires Auth.Token(Auth.AuthorizationOf(headers)).Some?
    requires verify(Auth.Token(Auth.AuthorizationOf(headers)).value, Auth.JwtSecret(env)) == Auth.Failed(Auth.TokenExpiredError(message))
    ensures Route(env, Auth.AsWritten, verify, path, headers, upstream) == Answered(Auth.InvalidToken)
    ensures Route(env, Auth.Corrected, verify, path, headers, upstream) == Answered(Auth.ExpiredToken)
  {
    GuardedPaths(env, Auth.AsWritten, verify, path, headers, name);
    GuardedPaths(env, Auth.Corrected, verify, path, headers, name);
    Auth.ExpiredTokenAnsweredInvalid(headers, Auth.JwtSecret(env), verify, message);
    if upstream.Some? {
      UpstreamFailureAnswers502(env, Auth.AsWritten, verify, path, headers, upstream.value);
      UpstreamFailureAnswers502(env, Auth.Corrected, verify, path, headers, upstream.value);
    }
  }

  /** The protected mount registered for a prefix that has an owner. */
  lemma MountOf(name: string) returns (i: nat)
    requires Owner(name).Some?
    ensures PublicCount <= i < |Mounts|
    ensures Mounts[i] == Guarded(name, Owner(name).value)
  {
    if name == "auth" { i := 3; }
    else if name == "notifications" { i := 4; }
    else if name == "files" { i := 5; }
    else if name == "messages" { i := 6; }
    else if name == "conversations" { i := 7; }
    else if name == "appointments" { i := 8; }
    else if name == "profiles" { i := 9; }
    else { i := 10; }
  }

  /** A matched mount's forwarded path is the request path without the
      mount prefix, when the request spells the prefix in lower case. */
  lemma ForwardedPath(path: string, m: Mount, rest: string)
    requires path == m.rewrite + rest
    ensures Rewrite(path, m.rewrite) == rest
  {
    assert path[..|m.rewrite|] == m.rewrite;
    assert path[|m.rewrite|..] == rest;
  }
}
