/** The HTTP client helpers shared by the API modules: the API base URL, URL
    building, the platform-host test, and the `Authorization`, `x-tenant-id`
    and `Content-Type` headers. Headers are a map from header name to value.
    An absent window (server-side rendering) is `None`. */
module ApiClient {
  import opened Js
  import opened Text
  import opened Browser

  type Headers = map<string, string>

  /** `s.replace(/\/+$/, '')`: all trailing slashes removed. */
  function StripTrailingSlashes(s: string): (r: string)
    ensures r == [] || r[|r| - 1] != '/'
    ensures |r| <= |s| && s[..|r|] == r
    ensures forall i :: |r| <= i < |s| ==> s[i] == '/'
  {
    if s != [] && s[|s| - 1] == '/' then StripTrailingSlashes(s[..|s| - 1]) else s
  }

  /** `resolvedApiBase`: the configured base without trailing slashes, or `''`. */
  function ResolvedApiBase(env: Env): (base: string)
    ensures env.apiBaseUrl.None? ==> base == ""
    ensures base == [] || base[|base| - 1] != '/'
    ensures env.apiBaseUrl.Some? ==> StartsWith(env.apiBaseUrl.value, base)
  {
    match env.apiBaseUrl
    case None => ""
    case Some(url) => StripTrailingSlashes(url)
  }

  /** `apiUrl(path)`. */
  function ApiUrl(base: string, path: string): (url: string)
    ensures StartsWith(url, base + "/api/")
  {
    var url := base + "/api" + (if StartsWith(path, "/") then "" else "/") + path;
    assert url[..|base| + 5] == base + "/api/" by {
      if StartsWith(path, "/") {
        assert url == base + "/api" + path;
        assert path[..1] == "/";
        assert (base + "/api" + path)[..|base| + 5] == base + "/api" + path[..1];
      }
    }
    url
  }

  /** A path with or without its leading slash gives the same URL. */
  lemma ApiUrlLeadingSlash(base: string, path: string)
    requires !StartsWith(path, "/")
    ensures ApiUrl(base, path) == ApiUrl(base, "/" + path)
  {
    assert StartsWith("/" + path, "/");
  }

  /** The URL is the base, `/api`, and the path with exactly one slash between. */
  lemma ApiUrlShape(base: string, path: string)
    ensures ApiUrl(base, "/" + path) == base + "/api/" + path
  {
    assert StartsWith("/" + path, "/");
  }

  const PlatformHosts: set<string> :=
    {"salonflow.studio", "www.salonflow.studio", "app.salonflow.studio", "api.salonflow.studio"}

  /** `isPlatformHost()`. */
  function IsPlatformHost(win: Option<Window>): (b: bool)
    ensures b ==> win.Some?
    ensures win.Some? && Lower(win.value.hostname) in PlatformHosts ==> b
    ensures win.Some? && StartsWith(Lower(win.value.hostname), "platform.") ==> b
  {
    win.Some? &&
    var host := Lower(win.value.hostname);
    host in PlatformHosts || host == "platform.localhost" || StartsWith(host, "platform.")
  }

  /** The `platform.localhost` test adds nothing: that host already starts
      with `platform.`. */
  lemma PlatformLocalhostRedundant(win: Option<Window>)
    ensures IsPlatformHost(win) <==>
      win.Some? && (Lower(win.value.hostname) in PlatformHosts || StartsWith(Lower(win.value.hostname), "platform."))
  {
    if win.Some? && Lower(win.value.hostname) == "platform.localhost" {
      assert "platform.localhost"[..9] == "platform.";
    }
  }

  /** `localStorage.getItem(key)`, or `null` without a window. */
  function Stored(win: Option<Window>, key: string): Option<string>
  {
    if win.Some? then GetItem(win.value.storage, key) else None
  }

  /** `authHeader()`. */
  function AuthHeader(win: Option<Window>): (h: Headers)
    ensures h.Keys <= {"Authorization"}
    ensures "Authorization" in h <==> Present(Stored(win, "token"))
    ensures "Authorization" in h ==> h["Authorization"] == "Bearer " + Stored(win, "token").value
  {
    var token := Stored(win, "token");
    if Present(token) then map["Authorization" := "Bearer " + token.value] else map[]
  }

  /** The first label of the hostname, when there is a non-empty hostname. */
  function HostnameTenant(win: Option<Window>): (t: Option<string>)
    ensures t.None? <==> win.None? || win.value.hostname == ""
    ensures t.Some? ==> '.' !in t.value
    ensures t.Some? ==>
      var host := win.value.hostname;
      StartsWith(host, t.value) && (|t.value| == |host| || host[|t.value|] == '.')
  {
    if win.Some? && win.value.hostname != "" then
      SplitPartsFree(win.value.hostname, '.');
      SplitFirst(win.value.hostname, '.');
      Some(Split(win.value.hostname, '.')[0])
    else None
  }

  /** `tenantSubdomain || tenantId` from storage. */
  function StoredTenant(win: Option<Window>): (t: Option<string>)
    ensures win.None? ==> t.None?
    ensures win.Some? ==>
      var storage := win.value.storage;
      && ("tenantSubdomain" in storage && storage["tenantSubdomain"] != "" ==> t == Some(storage["tenantSubdomain"]))
      && (!("tenantSubdomain" in storage && storage["tenantSubdomain"] != "") ==>
            t == (if "tenantId" in storage then Some(storage["tenantId"]) else None))
  {
    OrElse(Stored(win, "tenantSubdomain"), Stored(win, "tenantId"))
  }

  predicate IsUuidChar(c: char)
  {
    IsHexDigit(c) || c == '-'
  }

  /** `/^[0-9a-fA-F-]{36}$/`: the basic UUID test. */
  predicate IsUuid(v: Option<string>)
  {
    Present(v) && |v.value| == 36 && forall i :: 0 <= i < 36 ==> IsUuidChar(v.value[i])
  }

  /** Whether the hostname mentions `localhost`. */
  predicate IsLocal(win: Option<Window>)
  {
    win.Some? && win.value.hostname != "" && Contains(win.value.hostname, "localhost")
  }

  /** The tenant candidate of `tenantHeader`: on a local host env, stored,
      hostname; elsewhere hostname, env, stored. */
  function TenantCandidate(win: Option<Window>, env: Env): (c: Option<string>)
    ensures IsLocal(win) && Present(env.tenantId) ==> c == env.tenantId
    ensures IsLocal(win) && !Present(env.tenantId) && Present(StoredTenant(win)) ==> c == StoredTenant(win)
    ensures IsLocal(win) && !Present(env.tenantId) && !Present(StoredTenant(win)) ==> c == HostnameTenant(win)
    ensures !IsLocal(win) && Present(HostnameTenant(win)) ==> c == HostnameTenant(win)
    ensures !IsLocal(win) && !Present(HostnameTenant(win)) && Present(env.tenantId) ==> c == env.tenantId
    ensures !IsLocal(win) && !Present(HostnameTenant(win)) && !Present(env.tenantId) ==> c == StoredTenant(win)
  {
    if IsLocal(win) then OrElse(env.tenantId, OrElse(StoredTenant(win), HostnameTenant(win)))
    else OrElse(HostnameTenant(win), OrElse(env.tenantId, StoredTenant(win)))
  }

  /** `tenantHeader()`. */
  function TenantHeader(win: Option<Window>, env: Env): (h: Headers)
    ensures h.Keys <= {"x-tenant-id"}
    ensures IsPlatformHost(win) ==> h == map[]
    ensures "x-tenant-id" in h <==>
      Present(TenantCandidate(win, env)) && !IsUuid(TenantCandidate(win, env)) && !IsPlatformHost(win)
    ensures "x-tenant-id" in h ==> h["x-tenant-id"] == TenantCandidate(win, env).value
  {
    var candidate := TenantCandidate(win, env);
    var tenantId := if Present(candidate) && !IsUuid(candidate) then candidate else None;
    if Present(tenantId) && !IsPlatformHost(win) then map["x-tenant-id" := tenantId.value] else map[]
  }

  /** A UUID-shaped candidate is dropped outright: the header is left off even
      when a later candidate would have qualified. */
  lemma UuidCandidateNoFallback(win: Option<Window>, env: Env)
    requires !IsLocal(win) && IsUuid(HostnameTenant(win))
    ensures TenantHeader(win, env) == map[]
  {
  }

  /** `buildHeaders({ auth, tenant, json })`. */
  function BuildHeaders(win: Option<Window>, env: Env, auth: bool, tenant: bool, json: bool): (h: Headers)
    ensures h.Keys <= {"Content-Type", "Authorization", "x-tenant-id"}
    ensures "Content-Type" in h <==> json
    ensures json ==> h["Content-Type"] == "application/json"
    ensures "Authorization" in h <==> auth && "Authorization" in AuthHeader(win)
    ensures "Authorization" in h ==> h["Authorization"] == AuthHeader(win)["Authorization"]
    ensures "x-tenant-id" in h <==> tenant && "x-tenant-id" in TenantHeader(win, env)
    ensures "x-tenant-id" in h ==> h["x-tenant-id"] == TenantHeader(win, env)["x-tenant-id"]
  {
    (if json then map["Content-Type" := "application/json"] else map[])
    + (if auth then AuthHeader(win) else map[])
    + (if tenant then TenantHeader(win, env) else map[])
  }

  /** No tenant header is ever sent from a platform host. */
  lemma PlatformHostSendsNoTenant(win: Option<Window>, env: Env, auth: bool, tenant: bool, json: bool)
    requires IsPlatformHost(win)
    ensures "x-tenant-id" !in BuildHeaders(win, env, auth, tenant, json)
  {
  }
}
