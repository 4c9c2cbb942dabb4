/** The admin route guard run before every `/admin` request: pages under `/admin` other than
    the login page need the `admin-auth` cookie set to "true". */
module Middleware {
  import JsText

  datatype Decision = Next | Redirect(location: string)

  /** The name of the session cookie set by the login action. */
  const AuthCookie := "admin-auth"

  const AdminPrefix := "/admin"
  const LoginPath := "/admin/login"

  /** `middleware(request)`: `cookies` maps each cookie the request carries to its value. */
  function Guard(pathname: string, cookies: map<string, string>): (d: Decision)
    ensures !JsText.StartsWith(pathname, AdminPrefix) ==> d == Next
    ensures JsText.StartsWith(pathname, LoginPath) ==> d == Next
    ensures JsText.StartsWith(pathname, AdminPrefix) && !JsText.StartsWith(pathname, LoginPath) ==>
      (d == Next <==> AuthCookie in cookies && cookies[AuthCookie] == "true")
    ensures d.Redirect? ==> d.location == LoginPath
  {
    if JsText.StartsWith(pathname, AdminPrefix) && !JsText.StartsWith(pathname, LoginPath) then
      if AuthCookie !in cookies || cookies[AuthCookie] != "true" then Redirect(LoginPath)
      else Next
    else Next
  }

  /** A redirect never leads to another redirect: the login page passes whatever the cookies. */
  lemma RedirectTargetPasses(pathname: string, cookies: map<string, string>, later: map<string, string>)
    requires Guard(pathname, cookies).Redirect?
    ensures Guard(Guard(pathname, cookies).location, later) == Next
  {
    assert LoginPath[..|LoginPath|] == LoginPath;
  }
}
