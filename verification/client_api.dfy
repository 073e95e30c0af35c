/**
 The browser client's API plumbing (`client/src/main.tsx`): the `fetch`
 wrapper that attaches the stored token, and the handler that logs the user
 out when an API call fails as unauthorised. Local storage, the location
 and the toasts a page shows are explicit state.
 */
module ClientApi {
  import opened Common
  import Auth

  /** `localStorage`: string keys to string values. */
  type Storage = map<string, string>

  /** `localStorage.getItem(key)`: `null` when absent. */
  function GetItem(storage: Storage, key: string): Option<string> {
    if key in storage then Some(storage[key]) else None
  }

  // ---------------------------------------------------------------------
  // The fetch wrapper
  // ---------------------------------------------------------------------

  /** The `init` of a `fetch` call: its headers object, its credentials mode
      and every other option, kept as opaque text by name. */
  datatype RequestInit = RequestInit(headers: Option<map<string, string>>, credentials: Option<string>, rest: map<string, string>)

  /** The init actually passed to `globalThis.fetch`: `init`'s options, then
      `credentials: "include"`, then the merged headers, which are `init`'s
      headers overlaid with `Authorization: Bearer <token>` when the stored
      token is truthy. */
  function PrepareInit(storage: Storage, init: Option<RequestInit>): (r: RequestInit)
    ensures r.credentials == Some("include")
    ensures r.headers.Some?
    ensures init.Some? ==> r.rest == init.value.rest
    ensures init.None? ==> r.rest == map[]
    ensures Truthy(GetItem(storage, "authToken")) ==>
      && "Authorization" in r.headers.value
      && r.headers.value["Authorization"] == Auth.BearerHeader(storage["authToken"])
    ensures var given := if init.Some? && init.value.headers.Some? then init.value.headers.value else map[];
      && (!Truthy(GetItem(storage, "authToken")) ==> r.headers.value == given)
      && (forall k :: k in given && k != "Authorization" ==> k in r.headers.value && r.headers.value[k] == given[k])
      && r.headers.value.Keys - {"Authorization"} == given.Keys - {"Authorization"}
  {
    var token := GetItem(storage, "authToken");
    var given := if init.Some? && init.value.headers.Some? then init.value.headers.value else map[];
    var headers := if Truthy(token) then given["Authorization" := Auth.BearerHeader(token.value)] else given;
    var rest := if init.Some? then init.value.rest else map[];
    RequestInit(Some(headers), Some("include"), rest)
  }

  /** The client's header and the gateway's parse agree: a request prepared
      with a stored token carries a header from which the gateway extracts
      exactly that token; without a token and without an `Authorization`
      header of its own, the gateway sees none. */
  lemma GatewayReadsStoredToken(storage: Storage, init: Option<RequestInit>)
    ensures var r := PrepareInit(storage, init);
      Truthy(GetItem(storage, "authToken")) ==>
        Auth.Token(Some(r.headers.value["Authorization"])) == Some(storage["authToken"])
    ensures var r := PrepareInit(storage, init);
      !Truthy(GetItem(storage, "authToken")) && (init.None? || init.value.headers.None?) ==>
        "Authorization" !in r.headers.value
  {
    if Truthy(GetItem(storage, "authToken")) {
      Auth.TokenOfBearerHeader(storage["authToken"]);
    }
  }

  // ---------------------------------------------------------------------
  // The unauthorised handler
  // ---------------------------------------------------------------------

  /** An error a query or mutation failed with: a `TRPCClientError` (with its
      message) or anything else. */
  datatype ClientError = TrpcClientError(message: string) | OtherError

  /** The browser state the handler can change. */
  datatype Browser = Browser(storage: Storage, location: string)

  /** Whether `redirectToLoginIfUnauthorized` acts: the error must be a
      `TRPCClientError` whose message is exactly the server's unauthorised
      message, and the code must run in a browser. */
  predicate IsUnauthorized(error: ClientError, unauthorizedMessage: string, hasWindow: bool) {
    error.TrpcClientError? && hasWindow && error.message == unauthorizedMessage
  }

  /** `redirectToLoginIfUnauthorized`: clears the token and the stored user
      and navigates to `/login` when it acts; otherwise changes nothing. */
  function RedirectToLoginIfUnauthorized(error: ClientError, unauthorizedMessage: string, hasWindow: bool, b: Browser)
    : (r: Browser)
    ensures IsUnauthorized(error, unauthorizedMessage, hasWindow) ==>
      && r.location == "/login"
      && r.storage == b.storage - {"authToken", "user"}
      && GetItem(r.storage, "authToken").None? && GetItem(r.storage, "user").None?
    ensures !IsUnauthorized(error, unauthorizedMessage, hasWindow) ==> r == b
  {
    if !error.TrpcClientError? then b
    else if !hasWindow then b
    else if error.message != unauthorizedMessage then b
    else Browser(b.storage - {"authToken", "user"}, "/login")
  }

  /** Logging out is idempotent: a second unauthorised error changes nothing more. */
  lemma RedirectIdempotent(error: ClientError, unauthorizedMessage: string, hasWindow: bool, b: Browser)
    ensures var once := RedirectToLoginIfUnauthorized(error, unauthorizedMessage, hasWindow, b);
      RedirectToLoginIfUnauthorized(error, unauthorizedMessage, hasWindow, once) == once
  {
    var once := RedirectToLoginIfUnauthorized(error, unauthorizedMessage, hasWindow, b);
    if IsUnauthorized(error, unauthorizedMessage, hasWindow) {
      assert once.storage - {"authToken", "user"} == once.storage;
    }
  }

  /** Which cache an event comes from. */
  datatype Cache = QueryCache | MutationCache

  /** A cache subscription event: its `type`, its `action.type`, and the
      error in the query's or mutation's state. */
  datatype CacheEvent = CacheEvent(cache: Cache, eventType: string, actionType: string, error: ClientError)

  /** The two cache subscribers: an "updated" event whose action is an
      "error" goes to the unauthorised handler; other events are ignored. */
  function OnCacheEvent(e: CacheEvent, unauthorizedMessage: string, hasWindow: bool, b: Browser): (r: Browser)
    ensures e.eventType != "updated" || e.actionType != "error" ==> r == b
    ensures e.eventType == "updated" && e.actionType == "error" ==>
      r == RedirectToLoginIfUnauthorized(e.error, unauthorizedMessage, hasWindow, b)
  {
    if e.eventType == "updated" && e.actionType == "error" then
      RedirectToLoginIfUnauthorized(e.error, unauthorizedMessage, hasWindow, b)
    else b
  }

  // ---------------------------------------------------------------------
  // Page state shared by the Signup and Login pages
  // ---------------------------------------------------------------------

  datatype Toast = SuccessToast(text: string) | ErrorToast(text: string)

  /** What a page's handlers change: its loading flag, the browser location,
      local storage, the toasts shown and the mutations started, in order. */
  datatype Page<Input> = Page(loading: bool, location: string, storage: Storage, toasts: seq<Toast>, mutations: seq<Input>)

  /** The `onError` callback both pages give their mutation: an error toast
      with the error's message, or the page's fallback when the message is
      empty, and loading cleared; storage, location and the mutations
      started stay as they were. */
  function OnMutationError<Input>(p: Page<Input>, message: string, fallback: string): (r: Page<Input>)
    ensures !r.loading
    ensures |r.toasts| == |p.toasts| + 1 && r.toasts[..|p.toasts|] == p.toasts
    ensures r.toasts[|p.toasts|].ErrorToast?
    ensures message != "" ==> r.toasts[|p.toasts|].text == message
    ensures message == "" ==> r.toasts[|p.toasts|].text == fallback
    ensures r.storage == p.storage && r.location == p.location && r.mutations == p.mutations
  {
    p.(toasts := p.toasts + [ErrorToast(MessageOr(message, fallback))], loading := false)
  }

  /** `error.message || fallback` */
  function MessageOr(message: string, fallback: string): (text: string)
    ensures message != "" ==> text == message
    ensures message == "" ==> text == fallback
  {
    if message != "" then message else fallback
  }
}
