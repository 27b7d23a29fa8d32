/** The landing route for a signed-in role. */
module Navigation {
  import opened Js
  import opened Router

  /** `defaultRouteForRole(role)`. */
  function DefaultRouteForRole(role: Option<string>): (n: Name)
    ensures role == Some("SUPER_ADMIN") ==> n == PlatformDashboard
    ensures role == Some("OWNER") ==> n == AdminDashboard
    ensures role == Some("STAFF") ==> n == AdminQueue
    ensures n == CheckIn <==> role.None? || ParseRole(role.value).None?
  {
    if role == Some("SUPER_ADMIN") then PlatformDashboard
    else if role == Some("OWNER") then AdminDashboard
    else if role == Some("STAFF") then AdminQueue
    else CheckIn
  }

  /** For each listed role the landing route is the one the router's login
      redirect issues, and the router admits the role to it. */
  lemma AgreesWithLoginRedirect(token: Option<string>, role: Role)
    requires Present(token)
    ensures Guard(Table(Login), token, Some(RoleText(role))) == ToName(DefaultRouteForRole(Some(RoleText(role))))
    ensures Guard(Table(DefaultRouteForRole(Some(RoleText(role)))), token, Some(RoleText(role))) == Proceed
  {
    LoginRedirectAdmitted(token, role);
  }

  /** Any other stored value lands on the public check-in page, which the
      guard always lets through. */
  lemma UnlistedRoleLandsOnCheckIn(token: Option<string>, role: Option<string>)
    requires role.None? || ParseRole(role.value).None?
    ensures DefaultRouteForRole(role) == CheckIn
    ensures Guard(Table(CheckIn), token, role) == Proceed
  {
  }
}
