/** The application's route table and its navigation guard. Routes are data:
    a name, the full path pattern (nested child paths joined to their
    parent's) as its `/`-separated segments, whether the route requires
    authentication, and the roles it admits. The guard is a total function of
    the target route and the token and role read from `localStorage`. */
module Router {
  import opened Js
  import opened Text

  /** The route names of the table. */
  datatype Name =
    | MarketingHome | Start | Login | MagicLogin | CheckIn | Book
    | PlatformDashboard | PlatformCreateTenant | PlatformTenant
    | AdminDashboard | AdminServices | AdminOnboarding | AdminDemoRequests | AdminStaff
    | AdminCustomerProfile | AdminCustomers | AdminAppointments | AdminBilling
    | AdminReviewSms | AdminQueue | AdminAppointmentReminders | AdminSms | AdminQr

  /** The name as written in the table. */
  function NameText(n: Name): string
  {
    match n
    case MarketingHome => "marketing-home"
    case Start => "start"
    case Login => "login"
    case MagicLogin => "magic-login"
    case CheckIn => "check-in"
    case Book => "book"
    case PlatformDashboard => "platform-dashboard"
    case PlatformCreateTenant => "platform-create-tenant"
    case PlatformTenant => "platform-tenant"
    case AdminDashboard => "admin-dashboard"
    case AdminServices => "admin-services"
    case AdminOnboarding => "admin-onboarding"
    case AdminDemoRequests => "admin-demo-requests"
    case AdminStaff => "admin-staff"
    case AdminCustomerProfile => "admin-customer-profile"
    case AdminCustomers => "admin-customers"
    case AdminAppointments => "admin-appointments"
    case AdminBilling => "admin-billing"
    case AdminReviewSms => "admin-review-sms"
    case AdminQueue => "admin-queue"
    case AdminAppointmentReminders => "admin-appointment-reminders"
    case AdminSms => "admin-sms"
    case AdminQr => "admin-qr"
  }

  /** The roles the table lists. */
  datatype Role = Owner | Staff | SuperAdmin

  function RoleText(r: Role): string
  {
    match r
    case Owner => "OWNER"
    case Staff => "STAFF"
    case SuperAdmin => "SUPER_ADMIN"
  }

  /** The listed role a stored role string names, if any. */
  function ParseRole(s: string): (r: Option<Role>)
    ensures forall x :: r == Some(x) <==> s == RoleText(x)
  {
    if s == "OWNER" then Some(Owner)
    else if s == "STAFF" then Some(Staff)
    else if s == "SUPER_ADMIN" then Some(SuperAdmin)
    else None
  }

  datatype Route = Route(name: Name, segments: seq<string>, requiresAuth: bool, roles: seq<Role>)

  /** The route's path pattern, `/`-separated. */
  function PathOf(r: Route): string
  {
    Join(r.segments, '/')
  }

  /** A public route: no `meta`. */
  function Public(name: Name, segments: seq<string>): Route
  {
    Route(name, segments, false, [])
  }

  /** A guarded route: `meta: { requiresAuth: true, roles }`. */
  function Guarded(name: Name, segments: seq<string>, roles: seq<Role>): Route
  {
    Route(name, segments, true, roles)
  }

  /** The route table: each name's path segments, guard flag and roles. */
  function Table(n: Name): (r: Route)
    ensures r.name == n
    ensures |r.segments| >= 2 && r.segments[0] == ""
    ensures r.requiresAuth <==> |r.roles| > 0
  {
    match n
    case MarketingHome => Public(n, ["", ""])
    case Start => Public(n, ["", "start"])
    case Login => Public(n, ["", "login"])
    case MagicLogin => Public(n, ["", "magic-login"])
    case CheckIn => Public(n, ["", "check-in"])
    case Book => Public(n, ["", "check-in", "book"])
    case PlatformDashboard => Guarded(n, ["", "platform"], [SuperAdmin])
    case PlatformCreateTenant => Guarded(n, ["", "platform", "create-tenant"], [SuperAdmin])
    case PlatformTenant => Guarded(n, ["", "platform", ":businessId"], [SuperAdmin])
    case AdminDashboard => Guarded(n, ["", "admin"], [Owner])
    case AdminServices => Guarded(n, ["", "admin", "services"], [Owner])
    case AdminOnboarding => Guarded(n, ["", "admin", "onboarding"], [Owner])
    case AdminDemoRequests => Guarded(n, ["", "admin", "demo-requests"], [SuperAdmin])
    case AdminStaff => Guarded(n, ["", "admin", "staff"], [Owner])
    case AdminCustomerProfile => Guarded(n, ["", "admin", "customers", ":customerId"], [Owner, Staff])
    case AdminCustomers => Guarded(n, ["", "admin", "customers"], [Owner])
    case AdminAppointments => Guarded(n, ["", "admin", "appointments"], [Owner])
    case AdminBilling => Guarded(n, ["", "admin", "billing"], [Owner])
    case AdminReviewSms => Guarded(n, ["", "admin", "review-sms"], [Owner])
    case AdminQueue => Guarded(n, ["", "admin", "queue"], [Owner, Staff])
    case AdminAppointmentReminders => Guarded(n, ["", "admin", "appointment-reminders"], [Owner])
    case AdminSms => Guarded(n, ["", "admin", "sms"], [Owner])
    case AdminQr => Guarded(n, ["", "admin", "qr"], [Owner])
  }

  /** The route names in declaration order. */
  const Order: seq<Name> := [
    MarketingHome, Start, Login, MagicLogin, CheckIn, Book,
    PlatformDashboard, PlatformCreateTenant, PlatformTenant,
    AdminDashboard, AdminServices, AdminOnboarding, AdminDemoRequests, AdminStaff,
    AdminCustomerProfile, AdminCustomers, AdminAppointments, AdminBilling,
    AdminReviewSms, AdminQueue, AdminAppointmentReminders, AdminSms, AdminQr]

  /** The routes without `meta`. */
  const PublicNames: set<Name> := {MarketingHome, Start, Login, MagicLogin, CheckIn, Book}

  /** Where a name stands in the declaration order. */
  function Position(n: Name): (i: nat)
    ensures i < |Order| && Order[i] == n
  {
    match n
    case MarketingHome => 0
    case Start => 1
    case Login => 2
    case MagicLogin => 3
    case CheckIn => 4
    case Book => 5
    case PlatformDashboard => 6
    case PlatformCreateTenant => 7
    case PlatformTenant => 8
    case AdminDashboard => 9
    case AdminServices => 10
    case AdminOnboarding => 11
    case AdminDemoRequests => 12
    case AdminStaff => 13
    case AdminCustomerProfile => 14
    case AdminCustomers => 15
    case AdminAppointments => 16
    case AdminBilling => 17
    case AdminReviewSms => 18
    case AdminQueue => 19
    case AdminAppointmentReminders => 20
    case AdminSms => 21
    case AdminQr => 22
  }

  /** No name is declared twice: each position holds the name found there. */
  lemma PositionOfOrder(i: nat)
    requires i < |Order|
    ensures Position(Order[i]) == i
  {
    if i < 12 {
      if i < 6 {
      } else {
      }
    } else {
      if i < 18 {
      } else {
      }
    }
  }

  /** The names of a list of routes. */
  function Names(routes: seq<Route>): set<Name>
  {
    set i | 0 <= i < |routes| :: routes[i].name
  }

  /** A list of routes named after the declaration order names every route of
      the table once. */
  lemma NamesInOrder(routes: seq<Route>)
    requires |routes| == |Order|
    requires forall i :: 0 <= i < |routes| ==> routes[i].name == Order[i]
    ensures forall n: Name :: n in Names(routes)
    ensures forall i, j :: 0 <= i < j < |routes| ==> routes[i].name != routes[j].name
  {
    forall n: Name
      ensures n in Names(routes)
    {
      var i := Position(n);
      assert routes[i].name == n;
    }
    forall i, j | 0 <= i < j < |routes|
      ensures routes[i].name != routes[j].name
    {
      PositionOfOrder(i);
      PositionOfOrder(j);
    }
  }

  /** The routes in declaration order: every name of the table has exactly one
      route, and that route is the table's entry for the name. */
  function Routes(): (routes: seq<Route>)
    ensures |routes| == |Order|
    ensures forall i :: 0 <= i < |routes| ==> routes[i] == Table(routes[i].name)
    ensures forall n: Name :: Table(n) in routes
    ensures forall i, j :: 0 <= i < j < |routes| ==> routes[i].name != routes[j].name
  {
    var routes := seq(|Order|, i requires 0 <= i < |Order| => Table(Order[i]));
    assert forall i :: 0 <= i < |routes| ==> routes[i].name == Order[i];
    NamesInOrder(routes);
    assert forall n: Name :: Table(n) in routes by {
      forall n: Name
        ensures Table(n) in routes
      {
        assert routes[Position(n)] == Table(n);
      }
    }
    routes
  }

  /** Where the catch-all route `/:pathMatch(.*)*` redirects. */
  const CatchAllTarget: string := "/check-in"

  /** The outcome of the guard: let the navigation proceed, redirect to a named
      route, or redirect to a path. */
  datatype Decision = Proceed | ToName(name: Name) | ToPath(path: string)

  /** Whether `roles.includes(storedRole)`. */
  predicate Lists(roles: seq<Role>, stored: string)
  {
    exists i :: 0 <= i < |roles| && RoleText(roles[i]) == stored
  }

  /** Whether the guard turns the navigation away to `/login`: a guarded route
      without a token, or with a non-empty roles list that the stored role is
      missing from. */
  predicate Refused(to: Route, token: Option<string>, role: Option<string>)
  {
    to.requiresAuth && (!Present(token) || (|to.roles| > 0 && (!Present(role) || !Lists(to.roles, role.value))))
  }

  /** The route a signed-in user of a listed role is sent to from the login page. */
  function Home(role: Role): Name
  {
    match role
    case SuperAdmin => PlatformDashboard
    case Owner => AdminDashboard
    case Staff => AdminQueue
  }

  /** The `beforeEach` guard. */
  function Guard(to: Route, token: Option<string>, role: Option<string>): (d: Decision)
    ensures to.name == Login && Present(token) && role == Some("SUPER_ADMIN") ==> d == ToName(PlatformDashboard)
    ensures to.name == Login && Present(token) && role == Some("OWNER") ==> d == ToName(AdminDashboard)
    ensures to.name == Login && Present(token) && role == Some("STAFF") ==> d == ToName(AdminQueue)
    ensures d.ToName? <==> to.name == Login && Present(token) && Present(role) && ParseRole(role.value).Some?
    ensures !d.ToName? ==> (d == ToPath("/login") <==> Refused(to, token, role))
    ensures !d.ToName? ==> (d == Proceed <==> !Refused(to, token, role))
  {
    if to.name == Login && Present(token) && Present(role) && role.value == "SUPER_ADMIN" then ToName(PlatformDashboard)
    else if to.name == Login && Present(token) && Present(role) && role.value == "OWNER" then ToName(AdminDashboard)
    else if to.name == Login && Present(token) && Present(role) && role.value == "STAFF" then ToName(AdminQueue)
    else if to.requiresAuth && !Present(token) then ToPath("/login")
    else if to.requiresAuth && |to.roles| > 0 && (!Present(role) || !Lists(to.roles, role.value)) then ToPath("/login")
    else Proceed
  }

  /** Routes without `requiresAuth` are always entered, whatever is stored,
      except the login page itself for a signed-in user of a listed role. */
  lemma PublicRoutesProceed(to: Route, token: Option<string>, role: Option<string>)
    requires !to.requiresAuth && to.name != Login
    ensures Guard(to, token, role) == Proceed
  {
  }

  /** A signed-in user of a listed role who visits the login page is sent to
      their home route, and that route admits them, so following the redirect
      never bounces back to `/login`. */
  lemma LoginRedirectAdmitted(token: Option<string>, role: Role)
    requires Present(token)
    ensures Guard(Table(Login), token, Some(RoleText(role))) == ToName(Home(role))
    ensures Guard(Table(Home(role)), token, Some(RoleText(role))) == Proceed
  {
    var home := Table(Home(role));
    match role
    case SuperAdmin => assert RoleText(home.roles[0]) == RoleText(role);
    case Owner => assert RoleText(home.roles[0]) == RoleText(role);
    case Staff => assert RoleText(home.roles[1]) == RoleText(role);
  }

  /** A signed-in user of a role visiting a guarded route is admitted. */
  predicate Admits(r: Route, role: Role)
  {
    r.requiresAuth && role in r.roles
  }

  /** On a guarded route other than the login page, the guard lets a signed-in
      user with a listed role through exactly when the route admits the role. */
  lemma AdmitsIsGuard(r: Route, token: Option<string>, role: Role)
    requires Present(token) && r.requiresAuth && r.name != Login && |r.roles| > 0
    ensures Guard(r, token, Some(RoleText(role))) == Proceed <==> Admits(r, role)
  {
    if role in r.roles {
      var i :| 0 <= i < |r.roles| && r.roles[i] == role;
      assert Lists(r.roles, RoleText(role));
    }
    if Lists(r.roles, RoleText(role)) {
      var i :| 0 <= i < |r.roles| && RoleText(r.roles[i]) == RoleText(role);
      assert ParseRole(RoleText(role)) == Some(r.roles[i]);
    }
  }

  /** The names of the guarded routes of the table a role is admitted to. */
  function AdmittedNames(role: Role): set<Name>
  {
    set n: Name | Admits(Table(n), role)
  }

  /** Exactly the six routes without `meta` are public. */
  lemma PublicRoutes(n: Name)
    ensures !Table(n).requiresAuth <==> n in PublicNames
  {
  }

  /** Owners are listed on every guarded route except the platform routes and
      the demo requests page. */
  lemma OwnerListedOn(n: Name)
    ensures Admits(Table(n), Owner) <==> n !in PublicNames && n !in SuperAdminNames
  {
    match n
    case MarketingHome =>
    case Start =>
    case Login =>
    case MagicLogin =>
    case CheckIn =>
    case Book =>
    case PlatformDashboard =>
    case PlatformCreateTenant =>
    case PlatformTenant =>
    case AdminDashboard =>
    case AdminServices =>
    case AdminOnboarding =>
    case AdminDemoRequests =>
    case AdminStaff =>
    case AdminCustomerProfile =>
    case AdminCustomers =>
    case AdminAppointments =>
    case AdminBilling =>
    case AdminReviewSms =>
    case AdminQueue =>
    case AdminAppointmentReminders =>
    case AdminSms =>
    case AdminQr =>
  }

  /** Staff are listed on exactly two routes of the table. */
  lemma StaffListedOn(n: Name)
    ensures Admits(Table(n), Staff) <==> n == AdminCustomerProfile || n == AdminQueue
  {
    match n
    case AdminCustomerProfile =>
    case AdminQueue =>
    case _ =>
  }

  /** A super admin is listed on exactly the platform routes and the demo
      requests page. */
  lemma SuperAdminListedOn(n: Name)
    ensures Admits(Table(n), SuperAdmin) <==>
      n == PlatformDashboard || n == PlatformCreateTenant || n == PlatformTenant || n == AdminDemoRequests
  {
    match n
    case PlatformDashboard =>
    case PlatformCreateTenant =>
    case PlatformTenant =>
    case AdminDemoRequests =>
    case _ =>
  }

  const StaffNames: set<Name> := {AdminCustomerProfile, AdminQueue}
  const SuperAdminNames: set<Name> := {PlatformDashboard, PlatformCreateTenant, PlatformTenant, AdminDemoRequests}

  lemma StaffAdmittedWithin()
    ensures AdmittedNames(Staff) <= StaffNames
  {
    forall n | n in AdmittedNames(Staff)
      ensures n in StaffNames
    {
      StaffListedOn(n);
    }
  }

  lemma StaffNamesAdmitted()
    ensures StaffNames <= AdmittedNames(Staff)
  {
    ListedAdmitted(AdminCustomerProfile, Staff);
    ListedAdmitted(AdminQueue, Staff);
  }

  /** Among the guarded routes, staff reach only the customer profile and the queue. */
  lemma StaffAdmitted()
    ensures AdmittedNames(Staff) == {AdminCustomerProfile, AdminQueue}
  {
    StaffAdmittedWithin();
    StaffNamesAdmitted();
  }

  lemma SuperAdminAdmittedWithin()
    ensures AdmittedNames(SuperAdmin) <= SuperAdminNames
  {
    forall n | n in AdmittedNames(SuperAdmin)
      ensures n in SuperAdminNames
    {
      SuperAdminListedOn(n);
    }
  }

  lemma SuperAdminNamesAdmitted()
    ensures SuperAdminNames <= AdmittedNames(SuperAdmin)
  {
    ListedAdmitted(PlatformDashboard, SuperAdmin);
    ListedAdmitted(PlatformCreateTenant, SuperAdmin);
    ListedAdmitted(PlatformTenant, SuperAdmin);
    ListedAdmitted(AdminDemoRequests, SuperAdmin);
  }

  /** A route of the table admits the roles it lists. */
  lemma ListedAdmitted(n: Name, role: Role)
    requires role == SuperAdmin ==> n in SuperAdminNames
    requires role == Staff ==> n in StaffNames
    requires role != Owner
    ensures n in AdmittedNames(role)
  {
    assert Admits(Table(n), role) by {
      match n
      case MarketingHome =>
      case Start =>
      case Login =>
      case MagicLogin =>
      case CheckIn =>
      case Book =>
      case PlatformDashboard =>
      case PlatformCreateTenant =>
      case PlatformTenant =>
      case AdminDashboard =>
      case AdminServices =>
      case AdminOnboarding =>
      case AdminDemoRequests =>
      case AdminStaff =>
      case AdminCustomerProfile =>
      case AdminCustomers =>
      case AdminAppointments =>
      case AdminBilling =>
      case AdminReviewSms =>
      case AdminQueue =>
      case AdminAppointmentReminders =>
      case AdminSms =>
      case AdminQr =>
    }
  }

  /** Among the guarded routes, a super admin reaches only the platform routes
      and the demo requests page. */
  lemma SuperAdminAdmitted()
    ensures AdmittedNames(SuperAdmin) == {PlatformDashboard, PlatformCreateTenant, PlatformTenant, AdminDemoRequests}
  {
    SuperAdminAdmittedWithin();
    SuperAdminNamesAdmitted();
  }

  /** Whether path segments match a route's pattern segments, a `:name`
      segment matching any one non-empty segment. */
  predicate SegmentsMatch(pattern: seq<string>, path: seq<string>)
  {
    |pattern| == |path|
    && forall i :: 0 <= i < |pattern| ==>
      if StartsWith(pattern[i], ":") then path[i] != "" else pattern[i] == path[i]
  }

  predicate Matches(r: Route, path: string)
  {
    SegmentsMatch(r.segments, Split(path, '/'))
  }

  /** The outcome of resolving a location: a named route, or a redirect. */
  datatype Resolution = Matched(route: Route) | Redirect(path: string)

  /** The first route of `routes` matching `path`, or the catch-all's redirect. */
  function Resolve(routes: seq<Route>, path: string): (r: Resolution)
    ensures r.Matched? ==> r.route in routes && Matches(r.route, path)
    ensures r.Redirect? <==> forall i :: 0 <= i < |routes| ==> !Matches(routes[i], path)
    ensures r.Redirect? ==> r.path == CatchAllTarget
  {
    if routes == [] then Redirect(CatchAllTarget)
    else if Matches(routes[0], path) then Matched(routes[0])
    else
      var r := Resolve(routes[1..], path);
      assert forall i :: 1 <= i < |routes| ==> routes[i] == routes[1..][i - 1];
      r
  }

  /** The first segments of the table's paths. */
  const TopSegments: set<string> := {"", "start", "login", "magic-login", "check-in", "platform", "admin"}

  /** Every route's path starts with one of the top segments. */
  lemma TopSegmentOf(n: Name)
    ensures |Table(n).segments| >= 2 && Table(n).segments[1] in TopSegments
    ensures !StartsWith(Table(n).segments[1], ":")
  {
    var s := Table(n).segments[1];
    if |s| >= 1 {
      assert s[..1][0] == s[0];
    }
  }

  /** A path whose first segment starts no route of the table goes to the
      check-in page. */
  lemma UnknownTopGoesToCheckIn(path: string)
    requires |Split(path, '/')| >= 2 && Split(path, '/')[1] !in TopSegments
    ensures Resolve(Routes(), path) == Redirect("/check-in")
  {
    var routes := Routes();
    forall i | 0 <= i < |routes|
      ensures !Matches(routes[i], path)
    {
      TopSegmentOf(routes[i].name);
      var pattern, parts := routes[i].segments, Split(path, '/');
      assert pattern[1] != parts[1] && !StartsWith(pattern[1], ":");
    }
  }
}
