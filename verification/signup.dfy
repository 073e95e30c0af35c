/**
 The Signup page's handlers (`client/src/pages/Signup.tsx`). The form is
 checked in a fixed order and only the first failure is reported; a form
 that passes starts the register mutation once. The mutation's callbacks
 store the session and redirect by the role chosen in the form.
 */
module Signup {
  import opened Common
  import ClientApi

  datatype Role = Artist | Client

  /** The form's fields as typed, untrimmed. */
  datatype Form = Form(name: string, email: string, password: string, confirmPassword: string, role: Role)

  /** The register mutation's input `{name, email, password, role}`. */
  datatype Register = Register(name: string, email: string, password: string, role: Role)

  type Page = ClientApi.Page<Register>

  const MissingField: string := "Please fill in all fields"
  const ShortPassword: string := "Password must be at least 8 characters"
  const Mismatch: string := "Passwords do not match"
  /** The fallback `ClientApi.OnMutationError` shows for an error without a message. */
  const DefaultError: string := "Registration failed. Please try again."
  const Created: string := "Account created successfully!"

  /** A form the page accepts, stated as one condition: every field filled
      (whitespace counts), a password of at least 8 UTF-16 units, and
      matching passwords. */
  predicate Acceptable(f: Form) {
    && f.name != "" && f.email != "" && f.password != "" && f.confirmPassword != ""
    && Utf16Length(f.password) >= 8
    && f.password == f.confirmPassword
  }

  /** The first failing check's message, in the order the page runs them. */
  function Problem(f: Form): (r: Option<string>)
    ensures r == Some(MissingField) <==>
      f.name == "" || f.email == "" || f.password == "" || f.confirmPassword == ""
    ensures r == Some(ShortPassword) <==>
      && f.name != "" && f.email != "" && f.password != "" && f.confirmPassword != ""
      && Utf16Length(f.password) < 8
    ensures r == Some(Mismatch) <==>
      && f.name != "" && f.email != "" && f.password != "" && f.confirmPassword != ""
      && Utf16Length(f.password) >= 8 && f.password != f.confirmPassword
  {
    if f.name == "" || f.email == "" || f.password == "" || f.confirmPassword == "" then Some(MissingField)
    else if Utf16Length(f.password) < 8 then Some(ShortPassword)
    else if f.password != f.confirmPassword then Some(Mismatch)
    else None
  }

  /** The ordered checks accept exactly the acceptable forms. */
  lemma ProblemIffUnacceptable(f: Form)
    ensures Problem(f).None? <==> Acceptable(f)
  {
  }

  /** `handleSubmit`: on a failing check one error toast and nothing else;
      otherwise loading is set and one register mutation starts. */
  function HandleSubmit(f: Form, p: Page): (r: Page)
    ensures !Acceptable(f) ==>
      && Problem(f).Some?
      && r == p.(toasts := p.toasts + [ClientApi.ErrorToast(Problem(f).value)])
    ensures Acceptable(f) ==>
      && r == p.(loading := true, mutations := p.mutations + [Register(f.name, f.email, f.password, f.role)])
  {
    match Problem(f)
    case Some(message) => p.(toasts := p.toasts + [ClientApi.ErrorToast(message)])
    case None => p.(loading := true, mutations := p.mutations + [Register(f.name, f.email, f.password, f.role)])
  }

  /** A password of exactly eight characters passes the length check, and
      whitespace-only fields count as filled. */
  lemma EightSpacesAccepted()
    ensures Acceptable(Form(" ", " ", "        ", "        ", Artist))
  {
    Utf16LengthOfBmp("        ");
  }

  /** A seven-character password is refused with the length message once
      every field is filled. */
  lemma SevenCharactersRefused(name: string, email: string, password: string, role: Role)
    requires name != "" && email != "" && |password| == 7 && InBmp(password)
    ensures Problem(Form(name, email, password, password, role)) == Some(ShortPassword)
  {
    Utf16LengthOfBmp(password);
  }

  /** Where a new account lands: artists on their conversations, everyone else
      on the client dashboard. */
  function Landing(role: Role): (path: string)
    ensures role == Artist <==> path == "/conversations"
    ensures role != Artist <==> path == "/client-dashboard"
  {
    if role == Artist then "/conversations" else "/client-dashboard"
  }

  /** `onSuccess`: stores the token and the serialised user, shows a success
      toast, redirects by the form's role and clears loading. */
  function OnSuccess(p: Page, role: Role, token: string, userText: string): (r: Page)
    ensures ClientApi.GetItem(r.storage, "authToken") == Some(token)
    ensures ClientApi.GetItem(r.storage, "user") == Some(userText)
    ensures forall k :: k in p.storage && k != "authToken" && k != "user" ==> k in r.storage && r.storage[k] == p.storage[k]
    ensures r.location == Landing(role)
    ensures !r.loading
    ensures r.toasts == p.toasts + [ClientApi.SuccessToast(Created)]
    ensures r.mutations == p.mutations
  {
    p.(storage := p.storage["authToken" := token]["user" := userText],
       toasts := p.toasts + [ClientApi.SuccessToast(Created)],
       location := Landing(role),
       loading := false)
  }

  /** A submission that started a mutation always ends with loading cleared,
      whichever callback runs. */
  lemma LoadingCleared(f: Form, p: Page, token: string, userText: string, message: string)
    requires Acceptable(f)
    ensures HandleSubmit(f, p).loading
    ensures !OnSuccess(HandleSubmit(f, p), f.role, token, userText).loading
    ensures !ClientApi.OnMutationError(HandleSubmit(f, p), message, DefaultError).loading
  {
  }
}
