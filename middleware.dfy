/** The web app's sign-in gate: the middleware's redirect decision and the
    `authorized` callback that runs before it. */
module Middleware {
  import opened Text

  const LOGIN_PATH := "/login"
  const HOME_PATH := "/"

  /** A login page is any path starting with `/login`, `/loginx` included. */
  predicate IsLoginPage(path: string) {
    StartsWith(path, LOGIN_PATH)
  }

  datatype Decision = Next | Redirect(location: string)

  /** The middleware: a signed-out visitor of any other page goes to
      `/login`, a signed-in visitor of a login page goes to `/`, and every
      other request passes through. */
  function Decide(signedIn: bool, path: string): (d: Decision)
    ensures d.Redirect? <==> signedIn == IsLoginPage(path)
    ensures d == Redirect(LOGIN_PATH) <==> !signedIn && !IsLoginPage(path)
    ensures d == Redirect(HOME_PATH) <==> signedIn && IsLoginPage(path)
  {
    if !signedIn && !IsLoginPage(path) then Redirect(LOGIN_PATH)
    else if signedIn && IsLoginPage(path) then Redirect(HOME_PATH)
    else Next
  }

  /** Following a redirect with the same session passes through: there is no
      redirect loop. */
  lemma NoRedirectLoop(signedIn: bool, path: string)
    ensures Decide(signedIn, path).Redirect? ==> Decide(signedIn, Decide(signedIn, path).location) == Next
  {
    assert IsLoginPage(LOGIN_PATH);
    assert !IsLoginPage(HOME_PATH);
  }

  /** The `authorized` callback: login pages are always allowed, any other
      page needs a token. */
  function Authorized(hasToken: bool, path: string): (b: bool)
    ensures b <==> IsLoginPage(path) || hasToken
    ensures !hasToken && b ==> IsLoginPage(path)
  {
    if IsLoginPage(path) then true else hasToken
  }

  /** The callback refuses exactly the requests the middleware would send to
      `/login`. */
  lemma AuthorizedAgreesWithDecide(hasToken: bool, path: string)
    ensures !Authorized(hasToken, path) <==> Decide(hasToken, path) == Redirect(LOGIN_PATH)
  {
  }

  /** The prefix test also admits paths that merely start like the login page. */
  lemma LoginPrefixAdmitsLonger()
    ensures IsLoginPage("/loginx") && IsLoginPage("/login/reset") && !IsLoginPage("/logi")
  {
    assert LOGIN_PATH <= "/loginx";
    assert LOGIN_PATH <= "/login/reset";
  }
}
