/** The request `login` prepares before it posts the credentials: the tenant it
    logs into, the headers it sends, and the tenant it remembers in
    `localStorage`. */
module AuthLogin {
  import opened Js
  import opened Text
  import opened Browser
  import ApiClient
  import ServicesPublic

  /** This file's own `isPlatformHost()`: only `platform.localhost` and the
      `platform.` hosts, without the list of platform domains. */
  function IsLoginPlatformHost(win: Option<Window>): (b: bool)
    ensures b <==> win.Some? && StartsWith(Lower(win.value.hostname), "platform.")
  {
    assert StartsWith("platform.localhost", "platform.") by {
      assert "platform.localhost"[..9] == "platform.";
    }
    win.Some? &&
    var host := Lower(win.value.hostname);
    host == "platform.localhost" || StartsWith(host, "platform.")
  }

  /** Every host this test accepts is a platform host for the shared client
      too. */
  lemma LoginPlatformHostIsPlatformHost(win: Option<Window>)
    ensures IsLoginPlatformHost(win) ==> ApiClient.IsPlatformHost(win)
  {
  }

  /** The tenant `login` uses: the hostname's first label, then
      `VITE_TENANT_ID`, then the stored `tenantSubdomain`, then `tenantId`. */
  function LoginTenant(win: Option<Window>, env: Env): (t: Option<string>)
    ensures Present(ApiClient.HostnameTenant(win)) ==> t == ApiClient.HostnameTenant(win)
    ensures !Present(ApiClient.HostnameTenant(win)) && Present(env.tenantId) ==> t == env.tenantId
    ensures !Present(ApiClient.HostnameTenant(win)) && !Present(env.tenantId) ==> t == ApiClient.StoredTenant(win)
    ensures win.None? ==> t == (if Present(env.tenantId) then env.tenantId else None)
  {
    OrElse(ApiClient.HostnameTenant(win), OrElse(env.tenantId, ApiClient.StoredTenant(win)))
  }

  /** The headers of the login request. */
  function LoginHeaders(win: Option<Window>, env: Env): (h: ApiClient.Headers)
    ensures h.Keys <= {"Content-Type", "x-tenant-id", "x-platform-login"}
    ensures "Content-Type" in h && h["Content-Type"] == "application/json"
    ensures "x-tenant-id" in h <==> Present(LoginTenant(win, env)) && !IsLoginPlatformHost(win)
    ensures "x-tenant-id" in h ==> h["x-tenant-id"] == LoginTenant(win, env).value
    ensures "x-platform-login" in h <==> IsLoginPlatformHost(win)
    ensures "x-platform-login" in h ==> h["x-platform-login"] == "true"
  {
    var t := LoginTenant(win, env);
    var platform := IsLoginPlatformHost(win);
    map["Content-Type" := "application/json"]
    + (if Present(t) && !platform then map["x-tenant-id" := t.value] else map[])
    + (if platform then map["x-platform-login" := "true"] else map[])
  }

  /** A login request never carries both a tenant and the platform flag. */
  lemma TenantOrPlatform(win: Option<Window>, env: Env)
    ensures !("x-tenant-id" in LoginHeaders(win, env) && "x-platform-login" in LoginHeaders(win, env))
  {
  }

  /** `localStorage` after `login` has prepared its request: the tenant is
      written under both `tenantId` and `tenantSubdomain` when there is one
      and the host is not a platform host. */
  function RememberTenant(win: Option<Window>, env: Env): (after: Option<Window>)
    ensures after.None? <==> win.None?
    ensures after.Some? ==> after.value == win.value.(storage := after.value.storage)
    ensures after.Some? && Present(LoginTenant(win, env)) && !IsLoginPlatformHost(win) ==>
      && GetItem(after.value.storage, "tenantId") == LoginTenant(win, env)
      && GetItem(after.value.storage, "tenantSubdomain") == LoginTenant(win, env)
    ensures after.Some? ==> forall k :: k != "tenantId" && k != "tenantSubdomain" ==>
      GetItem(after.value.storage, k) == GetItem(win.value.storage, k)
    ensures after.Some? && !(Present(LoginTenant(win, env)) && !IsLoginPlatformHost(win)) ==> after == win
  {
    var t := LoginTenant(win, env);
    if win.Some? && Present(t) && !IsLoginPlatformHost(win) then
      Some(win.value.(storage := win.value.storage["tenantId" := t.value]["tenantSubdomain" := t.value]))
    else win
  }

  /** After a tenant login the stored tenant is the one logged into, both for
      the shared client and for the public services pages. */
  lemma RememberedTenantIsStored(win: Option<Window>, env: Env)
    requires win.Some? && Present(LoginTenant(win, env)) && !IsLoginPlatformHost(win)
    ensures ApiClient.StoredTenant(RememberTenant(win, env)) == LoginTenant(win, env)
    ensures ServicesPublic.GetStoredTenant(RememberTenant(win, env), env) == LoginTenant(win, env)
    ensures ServicesPublic.GetTenantId(RememberTenant(win, env), env) == LoginTenant(win, env)
  {
  }

  /** Logging in again from the same page changes nothing more: the stored
      tenant is already the one written. */
  lemma RememberTenantIdempotent(win: Option<Window>, env: Env)
    ensures RememberTenant(RememberTenant(win, env), env) == RememberTenant(win, env)
  {
    var after := RememberTenant(win, env);
    if after.Some? && after != win {
      assert after.value.hostname == win.value.hostname;
      assert ApiClient.HostnameTenant(after) == ApiClient.HostnameTenant(win);
      assert LoginTenant(after, env) == LoginTenant(win, env);
      assert after.value.storage["tenantId" := LoginTenant(win, env).value]["tenantSubdomain" := LoginTenant(win, env).value]
        == after.value.storage;
    }
  }

  /** None of the four platform domains starts with `p` or a dot. */
  lemma PlatformDomainFirstChar(host: string)
    requires host in ApiClient.PlatformHosts
    ensures host != "" && host[0] != 'p' && host[0] != '.'
  {
  }

  /** The narrower test disagrees with the client's on the platform's own
      domains: a login there sends the domain's first label as `x-tenant-id`
      and no platform flag, while every later request from the same page is
      treated as a platform request. */
  lemma PlatformDomainLoginSendsTenant(win: Window, env: Env)
    requires Lower(win.hostname) in ApiClient.PlatformHosts
    ensures ApiClient.IsPlatformHost(Some(win))
    ensures !IsLoginPlatformHost(Some(win))
    ensures "x-platform-login" !in LoginHeaders(Some(win), env)
    ensures Split(win.hostname, '.')[0] != ""
    ensures "x-tenant-id" in LoginHeaders(Some(win), env)
    ensures LoginHeaders(Some(win), env)["x-tenant-id"] == Split(win.hostname, '.')[0]
  {
    var host := Lower(win.hostname);
    PlatformDomainFirstChar(host);
    assert host[0] == LowerChar(win.hostname[0]);
    assert !StartsWith(host, "platform.") by {
      if |host| >= 9 { assert host[..9][0] == host[0]; }
    }
    assert host != "platform.localhost" by {
      assert "platform.localhost"[0] == 'p';
    }
    SplitFirst(win.hostname, '.');
    assert IndexOf(win.hostname, '.') > 0;
  }
}
