/** The public check-in API: which tenant a kiosk request is for, the
    `?tenant=` query it carries, and the `{id, name}` projection of the services
    list. */
module Checkins {
  import opened Js
  import opened Text
  import opened Browser

  /** The tenant sources `resolveTenant` consults, in order: the explicit
      argument, the page's `?tenant` parameter, `VITE_TENANT_ID`, then the
      stored `tenantSubdomain` and `tenantId`. Without a window the page and
      storage sources are `null`. */
  function Candidates(tenant: Option<string>, win: Option<Window>, env: Env): (cs: seq<Option<string>>)
    ensures |cs| == 5
  {
    [ tenant,
      if win.Some? then QueryGet(win.value.search, "tenant") else None,
      env.tenantId,
      if win.Some? then GetItem(win.value.storage, "tenantSubdomain") else None,
      if win.Some? then GetItem(win.value.storage, "tenantId") else None ]
  }

  /** `resolveTenant(tenant)`: the `||` chain over the five sources. */
  function ResolveTenant(tenant: Option<string>, win: Option<Window>, env: Env): (t: Option<string>)
    ensures Present(t) <==> exists i :: 0 <= i < 5 && Present(Candidates(tenant, win, env)[i])
    ensures Present(t) ==> exists i :: (0 <= i < 5 && t == Candidates(tenant, win, env)[i] &&
      forall j :: 0 <= j < i ==> !Present(Candidates(tenant, win, env)[j]))
    ensures win.None? && !Present(tenant) && !Present(env.tenantId) ==> t.None?
  {
    var cs := Candidates(tenant, win, env);
    OrElse(cs[0], OrElse(cs[1], OrElse(cs[2], OrElse(cs[3], cs[4]))))
  }

  /** The first present value of a list of candidates, if any: the reference
      reading of a `||` chain. */
  function FirstPresent(cs: seq<Option<string>>): (t: Option<string>)
    ensures t.Some? ==> t in cs && t.value != ""
  {
    if cs == [] then None
    else if Present(cs[0]) then cs[0]
    else FirstPresent(cs[1..])
  }

  /** The `||` chain picks the first present source, and a chain with none
      yields nothing truthy. */
  lemma ResolveIsFirstPresent(tenant: Option<string>, win: Option<Window>, env: Env)
    ensures Present(ResolveTenant(tenant, win, env)) ==>
      ResolveTenant(tenant, win, env) == FirstPresent(Candidates(tenant, win, env))
    ensures !Present(ResolveTenant(tenant, win, env)) <==> FirstPresent(Candidates(tenant, win, env)).None?
  {
    ChainIsFirstPresent(Candidates(tenant, win, env));
  }

  /** A five-way `||` chain over any candidates is their first present one. */
  lemma ChainIsFirstPresent(cs: seq<Option<string>>)
    requires |cs| == 5
    ensures var t := OrElse(cs[0], OrElse(cs[1], OrElse(cs[2], OrElse(cs[3], cs[4]))));
      && (Present(t) ==> t == FirstPresent(cs))
      && (!Present(t) <==> FirstPresent(cs).None?)
  {
    assert cs[4..][1..] == [];
    assert FirstPresent(cs[4..]) == if Present(cs[4]) then cs[4] else None;
    assert cs[3..][1..] == cs[4..];
    assert FirstPresent(cs[3..]) == if Present(cs[3]) then cs[3] else FirstPresent(cs[4..]);
    assert cs[2..][1..] == cs[3..];
    assert FirstPresent(cs[2..]) == if Present(cs[2]) then cs[2] else FirstPresent(cs[3..]);
    assert cs[1..][1..] == cs[2..];
    assert FirstPresent(cs[1..]) == if Present(cs[1]) then cs[1] else FirstPresent(cs[2..]);
  }

  /** An explicit non-empty argument always wins. */
  lemma ExplicitTenantWins(tenant: string, win: Option<Window>, env: Env)
    requires tenant != ""
    ensures ResolveTenant(Some(tenant), win, env) == Some(tenant)
  {
  }

  /** The URL of a public endpoint, with `?tenant=` only when a tenant was
      resolved. */
  function WithTenant(path: string, t: Option<string>): (u: Url)
    ensures u.path == path
    ensures QueryHas(u.query, "tenant") <==> Present(t)
    ensures QueryGet(u.query, "tenant") == (if Present(t) then t else None)
    ensures forall i :: 0 <= i < |u.query| ==> u.query[i].0 == "tenant"
  {
    if Present(t) then
      var q := [("tenant", t.value)];
      assert q[0].0 == "tenant";
      Url(path, q)
    else Url(path, [])
  }

  /** The two public endpoints: the services list `fetchServices` reads and
      the check-in `createPublicCheckIn` posts. */
  datatype Endpoint = ServicesList | PublicCheckIn

  function EndpointPath(e: Endpoint): string
  {
    match e
    case ServicesList => "/api/public/services"
    case PublicCheckIn => "/api/checkins/public"
  }

  /** The URL either endpoint is called on: its path, and `?tenant=` carrying
      the resolved tenant exactly when there is one. */
  function EndpointUrl(e: Endpoint, tenant: Option<string>, win: Option<Window>, env: Env): (u: Url)
    ensures u.path == EndpointPath(e)
    ensures QueryHas(u.query, "tenant") <==> Present(ResolveTenant(tenant, win, env))
    ensures QueryGet(u.query, "tenant") == (if Present(ResolveTenant(tenant, win, env)) then ResolveTenant(tenant, win, env) else None)
  {
    WithTenant(EndpointPath(e), ResolveTenant(tenant, win, env))
  }

  /** The tenant carried on the query is read back by a page opened on that
      query: a kiosk page linked with `?tenant=` resolves the same tenant
      whatever its storage holds, unless an explicit tenant is passed. */
  lemma TenantQueryRoundTrip(t: Option<string>, win: Window, env: Env)
    requires Present(t)
    ensures ResolveTenant(None, Some(win.(search := WithTenant("/", t).query)), env) == t
  {
  }

  /** One entry of the services list. */
  datatype ServiceOption = ServiceOption(id: JsValue, name: JsValue)

  /** The result of `fetchServices`: the options, or the error it throws. A
      `TypeError` is thrown when the body is not an array or an entry is
      `null` or `undefined`. */
  datatype ServicesResult = Services(options: seq<ServiceOption>) | LoadFailed(message: string) | TypeError

  /** `(data as any[]).map((s) => ({ id: s.id, name: s.name }))`, on an array
      without nullish entries. */
  function Project(data: seq<JsValue>): (r: seq<ServiceOption>)
    requires forall i :: 0 <= i < |data| ==> data[i] != Null && data[i] != Undefined
    ensures |r| == |data|
    ensures forall i :: 0 <= i < |data| ==>
      r[i].id == Field(data[i], "id") && r[i].name == Field(data[i], "name")
  {
    seq(|data|, i requires 0 <= i < |data| => ServiceOption(Field(data[i], "id"), Field(data[i], "name")))
  }

  /** `fetchServices` once the response is in: a failed status throws, and
      otherwise the body is projected. */
  function FetchServices(ok: bool, body: JsValue): (r: ServicesResult)
    ensures !ok ==> r == LoadFailed("Failed to load services")
    ensures r.Services? <==> ok && body.Arr? && forall i :: 0 <= i < |body.items| ==> body.items[i] != Null && body.items[i] != Undefined
    ensures r.Services? ==> |r.options| == |body.items|
    ensures r.Services? ==> forall i :: 0 <= i < |body.items| ==>
      r.options[i].id == Field(body.items[i], "id") && r.options[i].name == Field(body.items[i], "name")
    ensures ok && !r.Services? ==> r == TypeError
  {
    if !ok then LoadFailed("Failed to load services")
    else if !body.Arr? then TypeError
    else if exists i :: 0 <= i < |body.items| && (body.items[i] == Null || body.items[i] == Undefined) then TypeError
    else Services(Project(body.items))
  }

  /** A service option as the JSON object it is read from. */
  function AsRecord(o: ServiceOption): JsValue
  {
    Obj(map["id" := o.id, "name" := o.name])
  }

  /** Projecting records that already have exactly the two fields gives the
      options back: the projection keeps order and contents. */
  lemma ProjectRoundTrip(options: seq<ServiceOption>)
    ensures FetchServices(true, Arr(seq(|options|, i requires 0 <= i < |options| => AsRecord(options[i]))))
      == Services(options)
  {
    var data := seq(|options|, i requires 0 <= i < |options| => AsRecord(options[i]));
    assert forall i :: 0 <= i < |data| ==> data[i].Obj?;
    assert Project(data) == options;
  }

  /** Extra fields of a record are dropped. */
  lemma ProjectDropsOtherFields(fields: map<string, JsValue>)
    requires "id" in fields && "name" in fields
    ensures FetchServices(true, Arr([Obj(fields)])) == Services([ServiceOption(fields["id"], fields["name"])])
  {
  }
}
