/**
 The Login page's handlers (`client/src/pages/Login.tsx`): a form with both
 fields filled starts the login mutation once; on success the session is
 stored and the user is sent to onboarding unless it is complete.
 */
module Login {
  import opened Common
  import ClientApi
  import Signup

  /** The login mutation's input `{email, password}`. */
  datatype Credentials = Credentials(email: string, password: string)

  type Page = ClientApi.Page<Credentials>

  const MissingField: string := "Please fill in all fields"
  /** The fallback `ClientApi.OnMutationError` shows for an error without a message. */
  const DefaultError: string := "Login failed. Please try again."
  const Welcome: string := "Welcome back!"

  /** `handleSubmit`: an empty email or password shows one error toast and
      nothing else; otherwise loading is set and one login mutation starts. */
  function HandleSubmit(email: string, password: string, p: Page): (r: Page)
    ensures email == "" || password == "" ==> r == p.(toasts := p.toasts + [ClientApi.ErrorToast(MissingField)])
    ensures email != "" && password != "" ==>
      r == p.(loading := true, mutations := p.mutations + [Credentials(email, password)])
    ensures |r.mutations| == |p.mutations| + 1 <==> email != "" && password != ""
  {
    if email == "" || password == "" then p.(toasts := p.toasts + [ClientApi.ErrorToast(MissingField)])
    else p.(loading := true, mutations := p.mutations + [Credentials(email, password)])
  }

  /** The two pages agree: every form the Signup page accepts carries an
      email and a password that the Login page accepts as they are, starting
      one login mutation with exactly those credentials. */
  lemma SignupCredentialsAccepted(f: Signup.Form, p: Page)
    requires Signup.Acceptable(f)
    ensures HandleSubmit(f.email, f.password, p).mutations == p.mutations + [Credentials(f.email, f.password)]
    ensures HandleSubmit(f.email, f.password, p).loading
  {
  }

  /** `data.user.hasCompletedOnboarding` as JavaScript sees it: missing, a
      boolean, or a number (a database flag). */
  datatype Flag = Missing | Bool(b: bool) | Number(n: int)

  /** JavaScript truthiness of the flag. */
  predicate Truthful(f: Flag) {
    match f
    case Missing => false
    case Bool(b) => b
    case Number(n) => n != 0
  }

  /** Where a signed-in user lands: onboarding unless it is complete. */
  function Landing(onboarded: Flag): (path: string)
    ensures path == "/role-selection" <==> !Truthful(onboarded)
    ensures path == "/conversations" <==> Truthful(onboarded)
  {
    if !Truthful(onboarded) then "/role-selection" else "/conversations"
  }

  /** `onSuccess`: stores the token and the serialised user, shows the
      welcome toast, redirects by onboarding status and clears loading. */
  function OnSuccess(p: Page, token: string, userText: string, onboarded: Flag): (r: Page)
    ensures ClientApi.GetItem(r.storage, "authToken") == Some(token)
    ensures ClientApi.GetItem(r.storage, "user") == Some(userText)
    ensures forall k :: k in p.storage && k != "authToken" && k != "user" ==> k in r.storage && r.storage[k] == p.storage[k]
    ensures r.location == "/role-selection" <==> !Truthful(onboarded)
    ensures r.location == "/conversations" <==> Truthful(onboarded)
    ensures !r.loading
    ensures r.toasts == p.toasts + [ClientApi.SuccessToast(Welcome)]
    ensures r.mutations == p.mutations
  {
    p.(storage := p.storage["authToken" := token]["user" := userText],
       toasts := p.toasts + [ClientApi.SuccessToast(Welcome)],
       location := Landing(onboarded),
       loading := false)
  }

  /** A user who has not finished onboarding (the flag is missing, `false`
      or `0`) always lands on role selection. */
  lemma NotOnboardedGoesToRoleSelection(p: Page, token: string, userText: string, onboarded: Flag)
    requires onboarded == Missing || onboarded == Bool(false) || onboarded == Number(0)
    ensures OnSuccess(p, token, userText, onboarded).location == "/role-selection"
  {
  }
}
