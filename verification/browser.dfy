/** The browser environment the application reads: the current location, the
    origin's `localStorage`, and the build-time environment variables. Each is
    plain data handed to the operations that read it. */
module Browser {
  import opened Js

  /** `localStorage`: string keys to string values. */
  type Storage = map<string, string>

  /** `localStorage.getItem(key)`: the stored value, or `null`. */
  function GetItem(storage: Storage, key: string): Option<string>
  {
    if key in storage then Some(storage[key]) else None
  }

  /** A query string, already split into its name/value pairs in order
      (what `URLSearchParams` holds). */
  type Query = seq<(string, string)>

  /** `URLSearchParams.get(name)`: the value of the first pair named `name`. */
  function QueryGet(q: Query, name: string): Option<string>
  {
    if q == [] then None
    else if q[0].0 == name then Some(q[0].1)
    else QueryGet(q[1..], name)
  }

  /** `URLSearchParams.has(name)`. */
  predicate QueryHas(q: Query, name: string)
  {
    exists i :: 0 <= i < |q| && q[i].0 == name
  }

  /** A pair appended under a name the query does not hold is what `get`
      then finds. */
  lemma {:induction false} QueryGetAppended(q: Query, name: string, value: string)
    requires !QueryHas(q, name)
    ensures QueryGet(q + [(name, value)], name) == Some(value)
  {
    if q != [] {
      assert (q + [(name, value)])[1..] == q[1..] + [(name, value)];
      assert q[0].0 != name;
      QueryGetAppended(q[1..], name, value);
    }
  }

  /** `get` finds a value exactly when `has` holds. */
  lemma {:induction false} QueryGetHas(q: Query, name: string)
    ensures QueryGet(q, name).Some? <==> QueryHas(q, name)
  {
    if q != [] {
      QueryGetHas(q[1..], name);
      if QueryHas(q[1..], name) {
        var i :| 0 <= i < |q[1..]| && q[1..][i].0 == name;
        assert q[i + 1].0 == name;
      }
      if QueryHas(q, name) && q[0].0 != name {
        var i :| 0 <= i < |q| && q[i].0 == name;
        assert q[1..][i - 1].0 == name;
      }
    }
  }

  /** A same-origin URL: its path and its query pairs. Percent-encoding of
      the values is not modelled. */
  datatype Url = Url(path: string, query: Query)

  /** `window.location` and `window.localStorage`. */
  datatype Window = Window(hostname: string, pathname: string, search: Query, storage: Storage)

  /** `import.meta.env`: `VITE_API_BASE_URL` and `VITE_TENANT_ID`. */
  datatype Env = Env(apiBaseUrl: Option<string>, tenantId: Option<string>)
}
