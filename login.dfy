/**
 * The login page's submit handler (app/auth/login/page.tsx): sign in, read the admin
 * flag, and choose where to go, accepting a requested `redirect` only when it is a
 * path on this site.
 */
module Login {
  import opened Text

  /** The sign-in call: a user, or an error with its message. */
  datatype SignIn = SignedIn(userId: string) | SignInFailed(message: Option<string>)

  /** The profile read: a row with its `is_admin` value (`None` for null), no row, or an exception. */
  datatype ProfileRead = ProfileRow(isAdmin: Option<bool>) | NoProfile | ReadThrew

  datatype LoginResult = LoginError(message: string) | Navigate(target: string)

  /** `Boolean(profile?.is_admin)`, false when the read throws. */
  function IsAdmin(read: ProfileRead): (b: bool)
    ensures b <==> read == ProfileRow(Some(true))
  {
    read.ProfileRow? && read.isAdmin == Some(true)
  }

  /** The guard: a non-empty path that starts with "/" but not with "//". */
  predicate AcceptedRedirect(requested: Option<string>)
    ensures AcceptedRedirect(requested) ==> requested.Some? && |requested.value| >= 1 && requested.value[0] == '/'
    ensures AcceptedRedirect(requested) ==> |requested.value| == 1 || requested.value[1] != '/'
    ensures (requested.Some? && |requested.value| >= 1 && requested.value[0] == '/'
             && (|requested.value| == 1 || requested.value[1] != '/')) ==> AcceptedRedirect(requested)
  {
    Filled(requested) && StartsWith(requested.value, "/") && !StartsWith(requested.value, "//")
  }

  /** `safeRedirect`: the requested path when the guard accepts it, whatever the role; else the role's home. */
  function SafeRedirect(requested: Option<string>, isAdmin: bool): (t: string)
    ensures StartsWith(t, "/") && !StartsWith(t, "//")
    ensures AcceptedRedirect(requested) ==> t == requested.value
    ensures !AcceptedRedirect(requested) ==> t == (if isAdmin then "/admin" else "/dashboard")
  {
    if AcceptedRedirect(requested) then requested.value
    else if isAdmin then assert "/admin"[1] == 'a'; "/admin"
    else assert "/dashboard"[1] == 'd'; "/dashboard"
  }

  /** `handleLogin`: a sign-in error shows its message (or a default) and navigates nowhere. */
  function HandleLogin(signIn: SignIn, profile: ProfileRead, requested: Option<string>): (r: LoginResult)
    ensures r.Navigate? <==> signIn.SignedIn?
    ensures r.Navigate? ==> r.target == SafeRedirect(requested, IsAdmin(profile))
    ensures r.Navigate? ==> StartsWith(r.target, "/") && !StartsWith(r.target, "//")
    ensures r.LoginError? && Filled(signIn.message) ==> r.message == signIn.message.value
  {
    match signIn
    case SignInFailed(m) =>
      LoginError(if Filled(m) then m.value else "Credenciales incorrectas o no fue posible iniciar sesión")
    case SignedIn(_) => Navigate(SafeRedirect(requested, IsAdmin(profile)))
  }

  /** A failed profile read sends even an admin's session to the customer dashboard. */
  lemma FailedReadIsCustomer(userId: string)
    ensures HandleLogin(SignedIn(userId), ReadThrew, None) == Navigate("/dashboard")
  {
  }

  // ---------------------------------------------------------------------------
  // How a browser reads the target
  // ---------------------------------------------------------------------------

  /**
   * The path as a browser's URL parser sees it: tabs and line breaks are dropped and a
   * backslash counts as a slash (WHATWG URL Standard, basic URL parser, for http(s) URLs).
   */
  function UrlView(s: string): (r: string)
    ensures |r| <= |s|
  {
    if s == [] then []
    else if s[0] == '\t' || s[0] == '\n' || s[0] == '\r' then UrlView(s[1..])
    else [if s[0] == '\\' then '/' else s[0]] + UrlView(s[1..])
  }

  /** Two ordinary leading characters are read as they are. */
  lemma UrlViewStart(s: string)
    requires |s| >= 2
    requires s[0] !in "\t\n\r\\" && s[1] !in "\t\n\r\\"
    ensures |UrlView(s)| >= 2 && UrlView(s)[..2] == s[..2]
  {
    assert UrlView(s) == [s[0]] + ([s[1]] + UrlView(s[2..]));
  }

  /** Read by a browser, a target starting with "//" names another host. */
  predicate LeavesSite(t: string) {
    StartsWith(UrlView(t), "//")
  }

  /** The guard lets through paths a browser reads as another host: "/\x" and "/<tab>/x" both name host x. */
  lemma GuardAdmitsOtherHosts()
    ensures SafeRedirect(Some("/\\x"), false) == "/\\x"
    ensures LeavesSite("/\\x")
    ensures SafeRedirect(Some("/\t/x"), false) == "/\t/x"
    ensures LeavesSite("/\t/x")
  {
    assert UrlView("/\\x") == "//x";
    assert UrlView("/\t/x") == "//x";
  }

  /** A path whose second character is an ordinary one other than "/" stays on this site. */
  lemma StaysOnSite(s: string)
    requires |s| >= 2 && s[0] == '/' && s[1] != '/' && s[1] !in "\t\n\r\\"
    ensures !LeavesSite(s)
  {
    UrlViewStart(s);
  }

  /** The guard applied to what the browser will read. */
  predicate AcceptedAsRead(requested: Option<string>) {
    Filled(requested) && StartsWith(UrlView(requested.value), "/") && !LeavesSite(requested.value)
  }

  function SafeRedirectAsRead(requested: Option<string>, isAdmin: bool): (t: string)
    ensures AcceptedAsRead(requested) ==> t == requested.value
    ensures !AcceptedAsRead(requested) ==> t == (if isAdmin then "/admin" else "/dashboard")
    ensures !LeavesSite(t)
  {
    if AcceptedAsRead(requested) then requested.value
    else
      var t := if isAdmin then "/admin" else "/dashboard";
      StaysOnSite(t);
      t
  }
}
