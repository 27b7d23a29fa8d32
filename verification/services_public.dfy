/** Tenant resolution for the public services pages: host normalisation,
    subdomain extraction, and the stored-then-host tenant choice. */
module ServicesPublic {
  import opened Js
  import opened Text
  import opened Browser

  /** `s.replace(/^https?:\/\//, '')`. */
  function StripScheme(s: string): (r: string)
    ensures StartsWith(s, "http://") ==> r == s[7..]
    ensures StartsWith(s, "https://") ==> r == s[8..]
    ensures !StartsWith(s, "http://") && !StartsWith(s, "https://") ==> r == s
  {
    assert StartsWith(s, "http://") ==> !StartsWith(s, "https://") by {
      if StartsWith(s, "http://") && |s| >= 8 {
        assert s[..7][4] == ':' && s[..8][4] == s[4];
      }
    }
    if StartsWith(s, "http://") then s[7..]
    else if StartsWith(s, "https://") then s[8..]
    else
      s
  }

  /** The position of the last `c` in `s`, if any. */
  function LastIndexOf(s: string, c: char): (k: Option<nat>)
    ensures k.Some? ==> k.value < |s| && s[k.value] == c && c !in s[k.value + 1..]
    ensures k.None? ==> c !in s
  {
    if s == [] then None
    else if s[|s| - 1] == c then Some(|s| - 1)
    else
      var k := LastIndexOf(s[..|s| - 1], c);
      assert k.Some? ==> s[k.value + 1..] == s[..|s| - 1][k.value + 1..] + [s[|s| - 1]];
      assert k.None? ==> s == s[..|s| - 1] + [s[|s| - 1]];
      k
  }

  /** A `:` followed only by digits is the last `:` of the string. */
  lemma PortColonIsLast(s: string)
    ensures forall k :: 0 <= k < |s| && s[k] == ':' && AllDigits(s[k + 1..]) ==> LastIndexOf(s, ':') == Some(k)
  {
    forall k | 0 <= k < |s| && s[k] == ':' && AllDigits(s[k + 1..])
      ensures LastIndexOf(s, ':') == Some(k)
    {
      var last := LastIndexOf(s, ':');
      assert last.Some? by {
        assert s[k] in s;
      }
    }
  }

  /** `s.replace(/:\d+$/, '')`: a trailing `:` followed by one or more digits
      is removed. Digits hold no `:`, so the only candidate is the last `:`. */
  function StripPort(s: string): (r: string)
    ensures r == s || (exists k :: 0 <= k < |s| && r == s[..k] && s[k] == ':' && |s| - k >= 2 && AllDigits(s[k + 1..]))
    ensures forall k :: 0 <= k < |s| && s[k] == ':' && |s| - k >= 2 && AllDigits(s[k + 1..]) ==> r == s[..k]
  {
    PortColonIsLast(s);
    match LastIndexOf(s, ':')
    case None => s
    case Some(k) => if k + 1 < |s| && AllDigits(s[k + 1..]) then s[..k] else s
  }

  /** `s.replace(/^www\./, '')`: only the lowercase prefix. */
  function StripWww(s: string): (r: string)
    ensures StartsWith(s, "www.") ==> r == s[4..]
    ensures !StartsWith(s, "www.") ==> r == s
  {
    if StartsWith(s, "www.") then s[4..] else s
  }

  /** `normalizeHost(host)`. */
  function NormalizeHost(host: Option<string>): (r: string)
    ensures !Present(host) ==> r == ""
    ensures forall i :: 0 <= i < |r| ==> !('A' <= r[i] <= 'Z')
  {
    if !Present(host) then "" else Lower(StripWww(StripPort(StripScheme(host.value))))
  }

  /** A plain host name is only lowercased. */
  lemma PlainHostLowered(h: string)
    requires h != "" && ':' !in h
    requires !StartsWith(h, "http://") && !StartsWith(h, "https://") && !StartsWith(h, "www.")
    ensures NormalizeHost(Some(h)) == Lower(h)
  {
  }

  /** A host starting with neither a scheme nor `www.` and holding no `:`
      passes the first three steps unchanged. */
  lemma UndecoratedUnchanged(h: string)
    requires ':' !in h
    requires !StartsWith(h, "http://") && !StartsWith(h, "https://") && !StartsWith(h, "www.")
    ensures StripWww(StripPort(StripScheme(h))) == h
  {
  }

  /** The `www.` prefix is removed before lowercasing, so an upper-case `WWW.`
      survives, lowercased. */
  lemma UpperWwwSurvives(rest: string)
    requires ':' !in rest
    ensures NormalizeHost(Some("WWW." + rest)) == "www." + Lower(rest)
  {
    var h := "WWW." + rest;
    UpperWwwUndecorated(rest);
    UndecoratedUnchanged(h);
    assert NormalizeHost(Some(h)) == Lower(h);
    LowerAppend("WWW.", rest);
    LowerWww();
  }

  lemma UpperWwwUndecorated(rest: string)
    requires ':' !in rest
    ensures ':' !in "WWW." + rest
    ensures !StartsWith("WWW." + rest, "http://") && !StartsWith("WWW." + rest, "https://")
    ensures !StartsWith("WWW." + rest, "www.")
  {
    var h := "WWW." + rest;
    assert h[..4][0] == 'W';
    assert forall i :: 4 <= i < |h| ==> h[i] == rest[i - 4];
  }

  lemma LowerWww()
    ensures Lower("WWW.") == "www."
  {
    assert forall i :: 0 <= i < 4 ==> Lower("WWW.")[i] == LowerChar("WWW."[i]);
  }

  /** A scheme, a port and a lowercase `www.` are all removed. */
  lemma DecoratedHost(name: string, port: string)
    requires ':' !in name && AllDigits(port) && port != ""
    ensures NormalizeHost(Some("https://" + ("www." + name) + ":" + port)) == Lower(name)
  {
    var w := "www." + name;
    var a := w + ":" + port;
    assert "https://" + ("www." + name) + ":" + port == "https://" + a;
    SchemeRemoved(a);
    PortRemoved(w, port);
    WwwRemoved(name);
  }

  lemma WwwRemoved(name: string)
    ensures StripWww("www." + name) == name
  {
    assert ("www." + name)[..4] == "www.";
  }

  lemma SchemeRemoved(a: string)
    ensures StripScheme("https://" + a) == a
  {
    var h := "https://" + a;
    assert h[..8] == "https://" && h[8..] == a;
    assert h[4] == 's';
  }

  lemma PortRemoved(host: string, port: string)
    requires ':' !in host && AllDigits(port) && port != ""
    ensures StripPort(host + ":" + port) == host
  {
    var a := host + ":" + port;
    var k := |host|;
    assert a[k] == ':' && a[k + 1..] == port && a[..k] == host;
    assert ':' !in port by {
      forall i | 0 <= i < |port| ensures port[i] != ':' { assert IsDigit(port[i]); }
    }
    var last := LastIndexOf(a, ':');
    assert last == Some(k);
  }

  /** `extractSubdomainFromHost(host)`: the first label of a host with at
      least three labels. */
  function ExtractSubdomain(host: string): (r: Option<string>)
    ensures r.Some? <==> |Split(host, '.')| >= 3
    ensures r.Some? ==> '.' !in r.value && StartsWith(host, r.value + ".")
  {
    var parts := Split(host, '.');
    if |parts| < 3 then None
    else
      SplitPartsFree(host, '.');
      SplitFirst(host, '.');
      var i := IndexOf(host, '.');
      assert i < |host| by {
        if i == |host| { SplitNoSeparator(host, '.'); }
      }
      assert host[..i + 1] == parts[0] + ".";
      Some(parts[0])
  }

  /** A host with fewer than three labels has no subdomain. */
  lemma TwoLabelsNoSubdomain(a: string, b: string)
    requires '.' !in a && '.' !in b
    ensures ExtractSubdomain(a + "." + b) == None
  {
    var h := a + "." + b;
    assert IndexOf(h, '.') == |a| by {
      assert h[|a|] == '.';
      assert forall j :: 0 <= j < |a| ==> h[j] == a[j];
    }
    assert h[|a| + 1..] == b;
    SplitNoSeparator(b, '.');
  }

  /** `getStoredTenant()`: `tenantSubdomain`, then `tenantId`, then the
      configured tenant, skipping empty values. */
  function GetStoredTenant(win: Option<Window>, env: Env): (t: Option<string>)
    ensures win.None? ==> t.None?
    ensures t.Some? ==> t.value != ""
    ensures win.Some? && Present(GetItem(win.value.storage, "tenantSubdomain")) ==>
      t == GetItem(win.value.storage, "tenantSubdomain")
    ensures (win.Some? && !Present(GetItem(win.value.storage, "tenantSubdomain")) &&
      Present(GetItem(win.value.storage, "tenantId"))) ==> t == GetItem(win.value.storage, "tenantId")
    ensures (win.Some? && !Present(GetItem(win.value.storage, "tenantSubdomain")) &&
      !Present(GetItem(win.value.storage, "tenantId"))) ==> t == (if Present(env.tenantId) then env.tenantId else None)
  {
    if win.None? then None
    else
      OrElse(GetItem(win.value.storage, "tenantSubdomain"),
        OrElse(GetItem(win.value.storage, "tenantId"), OrElse(env.tenantId, None)))
  }

  /** `getTenantId()`: the stored tenant, else the subdomain of the normalised
      hostname. */
  function GetTenantId(win: Option<Window>, env: Env): (t: Option<string>)
    ensures win.None? ==> t.None?
    ensures GetStoredTenant(win, env).Some? ==> t == GetStoredTenant(win, env)
    ensures win.Some? && GetStoredTenant(win, env).None? ==>
      t == ExtractSubdomain(NormalizeHost(Some(win.value.hostname)))
  {
    if win.None? then None
    else
      var stored := GetStoredTenant(win, env);
      if Present(stored) then stored
      else ExtractSubdomain(NormalizeHost(Some(win.value.hostname)))
  }
}
