/** The registration form's submit handler
    (application/frontend/src/pages/Register.jsx). */
module RegisterPage {

  import opened Wrappers
  import opened Text
  import opened Api
  import opened Ui

  datatype RegisterForm = RegisterForm(username: string, email: string, password: string, confirmPassword: string)

  /** The fields of a reply, success or error, that the handler reads. */
  datatype RegisterReply = RegisterReply(message: Option<string>, detail: Option<string>)

  /** The request sent (none when validation fails), the token store
      afterwards, the toast, the route navigated to, and `loading`. */
  datatype RegisterOutcome = RegisterOutcome(
    sent: Option<Request>, store: TokenStore, toast: Toast, navigate: Option<string>, loading: bool)

  const Mismatch := "Passwords do not match."
  const Registered := "Registration successful! Please login."
  const Failed := "Registration failed."

  /** The payload: the form without `confirmPassword`. */
  function Payload(form: RegisterForm): Body {
    JsonBody(map["username" := Str(form.username), "email" := Str(form.email), "password" := Str(form.password)])
  }

  /** The toast text of a rejected request: the server's `detail` when it
      is truthy, a fixed text otherwise. */
  function FailureText(err: ApiError<RegisterReply>): (t: string)
    ensures err.RequestError? && Truthy(err.data.detail) ==> t == err.data.detail.value
    ensures !(err.RequestError? && Truthy(err.data.detail)) ==> t == Failed
  {
    if err.RequestError? && Truthy(err.data.detail) then err.data.detail.value else Failed
  }

  /** `handleSubmit`, starting with `loading` as given. */
  function Submit(form: RegisterForm, store: TokenStore, loading: bool, resp: Response<RegisterReply>)
    : (r: RegisterOutcome)
    ensures form.password != form.confirmPassword
            ==> r == RegisterOutcome(None, store, ErrorToast(Mismatch), None, loading)
    ensures form.password == form.confirmPassword ==>
              && r.sent.Some?
              && r.sent.value.verb == Post && r.sent.value.path == "/auth/register"
              && r.sent.value.body == Payload(form)
              && !r.loading
    ensures r.store == store
    ensures r.sent.Some? && Settle(resp).Ok? ==> r.toast == SuccessToast(Registered) && r.navigate == Some("/login")
    ensures r.sent.Some? && Settle(resp).Err? ==> r.toast == ErrorToast(FailureText(Settle(resp).error)) && r.navigate.None?
  {
    if form.password != form.confirmPassword then
      RegisterOutcome(None, store, ErrorToast(Mismatch), None, loading)
    else
      var ex := PostData(store, "/auth/register", Payload(form), resp);
      match ex.result
      case Ok(data) =>
        if data.message.Some? && data.message.value != "" then
          RegisterOutcome(Some(ex.sent), store, SuccessToast(Registered), Some("/login"), false)
        else
          RegisterOutcome(Some(ex.sent), store, SuccessToast(Registered), Some("/login"), false)
      case Err(e) => RegisterOutcome(Some(ex.sent), store, ErrorToast(FailureText(e)), None, false)
  }

  /** The payload has exactly three keys; the confirmation never leaves
      the page. */
  lemma PayloadOmitsConfirmation(form: RegisterForm)
    ensures Payload(form).fields.Keys == {"username", "email", "password"}
    ensures "confirmPassword" !in Payload(form).fields
  {
  }

  /** Whether or not the reply carries a `message`, the outcome is the same. */
  lemma BothRepliesAlike(form: RegisterForm, store: TokenStore, loading: bool, status: int, m1: Option<string>, m2: Option<string>, d: Option<string>)
    requires 200 <= status < 300
    ensures Submit(form, store, loading, Answered(status, RegisterReply(m1, d))).toast
            == Submit(form, store, loading, Answered(status, RegisterReply(m2, d))).toast
    ensures Submit(form, store, loading, Answered(status, RegisterReply(m1, d))).navigate
            == Submit(form, store, loading, Answered(status, RegisterReply(m2, d))).navigate
  {
  }
}
