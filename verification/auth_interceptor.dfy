/** The 401 interceptor: an expired session clears the stored auth state and
    sends the browser to the login page, keeping the current query and adding
    `reason=expired`. `data` is the parsed JSON body, `None` when it does not
    parse (the source reads that as `null`). */
module AuthInterceptor {
  import opened Js
  import opened Text
  import opened Browser
  import AuthState
  import Router

  /** `data?.error || data?.code`. */
  function ErrorCode(data: Option<JsValue>): (code: JsValue)
    ensures data.None? ==> code == Undefined
    ensures data.Some? && Truthy(Field(data.value, "error")) ==> code == Field(data.value, "error")
    ensures data.Some? && !Truthy(Field(data.value, "error")) ==> code == Field(data.value, "code")
  {
    var d := data.GetOr(Null);
    Or(Field(d, "error"), Field(d, "code"))
  }

  /** The codes that end the session: none at all, `SESSION_EXPIRED` or
      `UNAUTHORIZED`. Any other code (a permission error, say) keeps it. */
  predicate EndsSession(code: JsValue)
  {
    !Truthy(code) || code == Str("SESSION_EXPIRED") || code == Str("UNAUTHORIZED")
  }

  /** `params.has('reason') || params.set('reason', 'expired')`. */
  function WithReason(q: Query): (r: Query)
    ensures |q| <= |r| <= |q| + 1 && r[..|q|] == q
    ensures QueryHas(q, "reason") ==> r == q
    ensures QueryGet(r, "reason") == (if QueryHas(q, "reason") then QueryGet(q, "reason") else Some("expired"))
  {
    if QueryHas(q, "reason") then q
    else
      QueryGetAppended(q, "reason", "expired");
      q + [("reason", "expired")]
  }

  /** What the interceptor does besides returning the response: the storage
      afterwards, and the page it navigates to, if any. */
  datatype Outcome = Outcome(storage: Storage, redirect: Option<Url>)

  /** Whether the interceptor acts on a response. */
  predicate Acts(win: Window, status: int, data: Option<JsValue>)
  {
    status == 401 && !Contains(win.pathname, "/login") && EndsSession(ErrorCode(data))
  }

  /** The interceptor's rule for one response. */
  function OnResponse(win: Window, status: int, data: Option<JsValue>): (out: Outcome)
    ensures out.redirect.Some? <==> Acts(win, status, data)
    ensures !Acts(win, status, data) ==> out.storage == win.storage
    ensures Acts(win, status, data) ==> out.storage == AuthState.ClearAuthState(win.storage)
    ensures out.redirect.Some? ==> out.redirect.value.path == "/login"
    ensures out.redirect.Some? ==> QueryGet(out.redirect.value.query, "reason").Some?
  {
    if Acts(win, status, data) then
      QueryGetHas(win.search, "reason");
      Outcome(AuthState.ClearAuthState(win.storage), Some(Url("/login", WithReason(win.search))))
    else Outcome(win.storage, None)
  }

  /** On the login page itself a 401 (a wrong password) is left to the page. */
  lemma LoginPageUntouched(win: Window, data: Option<JsValue>)
    requires StartsWith(win.pathname, "/login")
    ensures OnResponse(win, 401, data) == Outcome(win.storage, None)
  {
    StartsWithContains(win.pathname, "/login");
  }

  /** The redirect does not loop: on the page it lands on, the router lets the
      visitor through and a further 401 is ignored. */
  lemma RedirectLandsOnLogin(win: Window, status: int, data: Option<JsValue>)
    requires Acts(win, status, data)
    ensures var out := OnResponse(win, status, data);
      && Router.Guard(Router.Table(Router.Login), GetItem(out.storage, "token"), GetItem(out.storage, "role")) == Router.Proceed
      && OnResponse(win.(pathname := out.redirect.value.path, search := out.redirect.value.query, storage := out.storage), 401, data).redirect.None?
  {
    assert "token" in AuthState.AuthKeys;
    StartsWithContains("/login", "/login");
  }

  /** A reason already on the query is kept as it is. */
  lemma ExistingReasonKept(win: Window, data: Option<JsValue>)
    requires Acts(win, 401, data) && QueryHas(win.search, "reason")
    ensures OnResponse(win, 401, data).redirect == Some(Url("/login", win.search))
  {
  }

  /** A 401 with any other error code keeps the session. */
  lemma OtherCodeKeepsSession(win: Window, code: string, rest: map<string, JsValue>)
    requires code != "" && code != "SESSION_EXPIRED" && code != "UNAUTHORIZED"
    ensures OnResponse(win, 401, Some(Obj(rest["error" := Str(code)]))) == Outcome(win.storage, None)
  {
  }

  /** `setupAuthInterceptor()`: whether it patches `fetch` this time, and the
      module's `installed` flag afterwards. */
  function Setup(installed: bool, hasWindow: bool, hasFetch: bool): (r: (bool, bool))
    ensures r.0 <==> !installed && hasWindow && hasFetch
    ensures r.1 <==> installed || r.0
  {
    if installed || !hasWindow || !hasFetch then (false, installed) else (true, true)
  }

  /** How many times a run of `setupAuthInterceptor` calls patches `fetch`. */
  function Patches(installed: bool, calls: seq<(bool, bool)>): nat
    decreases |calls|
  {
    if calls == [] then 0
    else
      var r := Setup(installed, calls[0].0, calls[0].1);
      (if r.0 then 1 else 0) + Patches(r.1, calls[1..])
  }

  /** However often it is called, the interceptor is installed at most once,
      and never again once installed. */
  lemma {:induction false} InstallsAtMostOnce(installed: bool, calls: seq<(bool, bool)>)
    ensures Patches(installed, calls) <= 1
    ensures installed ==> Patches(installed, calls) == 0
    decreases |calls|
  {
    if calls != [] {
      var r := Setup(installed, calls[0].0, calls[0].1);
      InstallsAtMostOnce(r.1, calls[1..]);
    }
  }
}
