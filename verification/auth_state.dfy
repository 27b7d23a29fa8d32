/** Signing out: the `localStorage` keys that make up a session, and the
    logout navigation. */
module AuthState {
  import opened Js
  import opened Browser
  import Router

  /** The keys `clearAuthState` removes. */
  const AuthKeys: set<string> := {
    "token", "role", "tenantId", "email",
    "impersonationActive", "impersonationBusinessName", "impersonationOriginalToken",
    "impersonationOriginalRole", "impersonationOriginalTenant"
  }

  /** `clearAuthState()`. */
  function ClearAuthState(storage: Storage): (r: Storage)
    ensures r.Keys == storage.Keys - AuthKeys
    ensures forall k :: k in r ==> r[k] == storage[k]
  {
    map k | k in storage && k !in AuthKeys :: storage[k]
  }

  /** Clearing twice is clearing once. */
  lemma ClearIdempotent(storage: Storage)
    ensures ClearAuthState(ClearAuthState(storage)) == ClearAuthState(storage)
  {
  }

  /** The tenant and the business time zone survive a sign-out. */
  lemma ClearKeepsTenantSubdomainAndTimezone(storage: Storage)
    ensures GetItem(ClearAuthState(storage), "tenantSubdomain") == GetItem(storage, "tenantSubdomain")
    ensures GetItem(ClearAuthState(storage), "businessTimezone") == GetItem(storage, "businessTimezone")
  {
    assert "tenantSubdomain" !in AuthKeys;
    assert "businessTimezone" !in AuthKeys;
  }

  /** After a sign-out the router sends every guarded route back to the
      login page and lets the public ones through. */
  lemma SignedOutGuard(storage: Storage, to: Router.Route)
    ensures var cleared := ClearAuthState(storage);
      Router.Guard(to, GetItem(cleared, "token"), GetItem(cleared, "role")) ==
        (if to.requiresAuth then Router.ToPath("/login") else Router.Proceed)
  {
    assert "token" in AuthKeys;
  }

  /** `logout(redirectPath)`: the cleared storage and the page navigated to;
      an omitted path means `/app/login`. */
  function Logout(storage: Storage, redirectPath: Option<string>): (r: (Storage, string))
    ensures r.0 == ClearAuthState(storage)
    ensures redirectPath.None? ==> r.1 == "/app/login"
    ensures redirectPath.Some? ==> r.1 == redirectPath.value
  {
    (ClearAuthState(storage), redirectPath.GetOr("/app/login"))
  }
}
