/** The login form's submit handler
    (application/frontend/src/pages/Login.jsx). */
module LoginPage {

  import opened Wrappers
  import opened Text
  import opened Api
  import opened Ui

  /** The fields of the reply the handler reads. */
  datatype LoginReply = LoginReply(accessToken: Option<string>)

  /** The request sent, the token store afterwards, the toast, and the
      route navigated to (the page is then reloaded). */
  datatype LoginOutcome = LoginOutcome(
    sent: Request, store: TokenStore, toast: Toast, navigate: Option<string>)

  function LoginBody(email: string, password: string): Body {
    JsonBody(map["email" := Str(email), "password" := Str(password)])
  }

  /** `handleSubmit`: a truthy `access_token` in the reply replaces the
      stored token; any other outcome leaves the store as it was. */
  function Submit(email: string, password: string, store: TokenStore, resp: Response<LoginReply>)
    : (r: LoginOutcome)
    ensures r.sent.verb == Post && r.sent.path == "/auth/login"
    ensures r.sent.body.JsonBody? && r.sent.body.fields.Keys == {"email", "password"}
    ensures r.sent.body == LoginBody(email, password)
    ensures var result := Settle(resp);
            if result.Ok? && Truthy(result.value.accessToken) then
              r.store == Some(result.value.accessToken.value) && r.navigate == Some("/")
              && r.toast == SuccessToast("Login successful")
            else
              r.store == store && r.navigate.None? && r.toast == ErrorToast("Login failed")
  {
    var ex := PostData(store, "/auth/login", LoginBody(email, password), resp);
    match ex.result
    case Ok(data) =>
      if Truthy(data.accessToken) then
        LoginOutcome(ex.sent, Some(data.accessToken.value), SuccessToast("Login successful"), Some("/"))
      else LoginOutcome(ex.sent, store, ErrorToast("Login failed"), None)
    case Err(_) => LoginOutcome(ex.sent, store, ErrorToast("Login failed"), None)
  }

  /** After a successful login every later request carries the new token. */
  lemma LoginAuthorizesLaterRequests(email: string, password: string, store: TokenStore, token: string, req: Request)
    requires token != ""
    ensures var after := Submit(email, password, store, Answered(200, LoginReply(Some(token)))).store;
            Intercept(req, after).headers[Authorization] == "Bearer " + token
  {
  }
}
