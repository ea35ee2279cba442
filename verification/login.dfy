/** The login page (src/pages/Login.jsx): submits the credentials and, when the
    service hands back an access token, stores the session and moves on to the
    main page. */
module LoginPage {
  import opened Web
  import opened AdminService

  const CredenciaisInvalidas := "E-mail ou senha inválidos. Tente novamente."

  /** What localStorage.setItem keeps for a token that may be missing: it
      converts `undefined` to the string "undefined". */
  function Stored(v: Option<string>): (r: string)
    ensures v.Some? ==> r == v.value
    ensures v.None? ==> r == "undefined"
  {
    match v
    case Some(t) => t
    case None => "undefined"
  }

  /** The session handleLogin keeps for the outcome of `login`, when it accepts it:
      only an answer that carries a non-empty access token is accepted. */
  function AcceptedSession(r: Result<LoginFields>): (s: Option<Store>)
    ensures s.Some? <==> r.Ok? && Truthy(r.value.accessToken)
    ensures s.Some? ==> s.value.access == r.value.accessToken && s.value.refresh == Some(Stored(r.value.refreshToken))
    // an accepted session passes the main page's no-token guard
    ensures s.Some? ==> Truthy(s.value.access)
  {
    if r.Ok? && Truthy(r.value.accessToken) then
      Some(Store(r.value.accessToken, Some(Stored(r.value.refreshToken))))
    else None
  }

  /** The login form's state. */
  class LoginForm {
    const browser: Browser
    var email: string
    var senha: string
    var error: string

    constructor (browser: Browser)
      ensures this.browser == browser && email == "" && senha == "" && error == ""
    {
      this.browser := browser;
      email := "";
      senha := "";
      error := "";
    }

    /** handleLogin (Login.jsx:14-36): the error is cleared before the request
        (`whileWaiting` is the error shown while `login` is in flight); on an
        accepted answer both keys are written, the refresh token even when missing,
        and the page moves to /principal; on any failure the store is left alone
        and the error shown. */
    method HandleLogin(reply: Reply<LoginFields>) returns (whileWaiting: string, sent: Request)
      modifies this`error, browser
      ensures whileWaiting == ""
      ensures sent == LoginRequest(email, senha)
      ensures var s := AcceptedSession(Login(reply));
              && (s.Some? ==> browser.store == s.value && browser.location == "/principal" && error == "")
              && (s.None? ==> browser.store == old(browser.store) && browser.location == old(browser.location)
                              && error == CredenciaisInvalidas)
    {
      error := "";
      whileWaiting := error;
      sent := LoginRequest(email, senha);
      var tokens := Login(reply);
      if tokens.Err? || !Truthy(tokens.value.accessToken) {
        error := CredenciaisInvalidas;
        return;
      }
      browser.SetItem(AccessToken, tokens.value.accessToken.value);
      browser.SetItem(RefreshToken, Stored(tokens.value.refreshToken));
      browser.Navigate("/principal");
    }
  }
}
