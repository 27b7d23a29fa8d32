# SalonFlow front end: the decision rules underneath

This project models the logic beneath the SalonFlow web front end (a Vue
single-page app for salons). It covers the following parts:

- **Offline action queue:** an IndexedDB store of actions waiting to sync.
- **Service worker:** its request routing and cache policy.
- **Formatters:**
  - phone numbers;
  - website theme merging and hex colours;
  - responsive media selection.
- **Routing:** the router's route table and its navigation guard, plus the landing route for each role.
- **API client:** its URL and header rules.
- **Tenant selection:** how the public pages and the login request choose a tenant.
- **Small state machines:**
  - the kiosk idle watchdog;
  - the trial banner;
  - the maintenance banner;
  - the 401 session interceptor;
  - sign-out;
  - the unread-message poller;
  - the stored business time zone.

Browser state enters the model as values:

- `localStorage` is a `map<string, string>`.
- The IndexedDB object store is a map from id to action.
- The Cache API is a map from cache name to a map from URL to response.

Effects enter the model as parameters:

- the clock;
- HTTP status codes and parsed JSON bodies;
- the network's answer;
- whether an unawaited cache write lands;
- the id `randomId` would draw.

JavaScript values (`JsValue`, in module `Js`) carry their truthiness, `||`
and `??` as written in the source. Shared string helpers live in `Text`.
`Browser` holds storage and query-string access.

Behaviours of the code worth knowing before reading the contracts:

- **Only `enqueueAction` of the offline queue works as written.** The other three calls never reach the store. `OfflineQueue` models each of them twice: as written (the `...AsWritten` members) and as intended (`GetPending`, `MarkSynced`, `IncrementRetry`, `ClearSynced`). The rest of the model uses the intended versions. "## Findings" gives the details.

- **A duplicate id is rejected, not overwritten.** The record is stored with IndexedDB `add`, which fails on a key that is already present, so `OfflineQueue.Enqueue` refuses a taken id: it returns `KeyExists` and leaves the store unchanged. Ids are drawn at random, so a taken id is unlikely but not excluded.
- **An empty action type is accepted.** `enqueueAction` never checks its action type, so `OfflineQueue.Enqueue` stores an empty one like any other.
- **One fallback in `resolveMedia` is dead code.** The `variantList[2]` fallback can never be chosen. When the list has at least two entries, `variantList[1]` wins, and when it has fewer there is no third entry. `ResolveMedia.SrcChoice` states the resulting choice.

## Model

| member | source | states |
|---|---|---|
| OfflineQueue.Enqueue | src/offline/queue.ts:71-103 | a store holding 500 or more records (synced ones count) is left unchanged with no record returned; a taken id is refused and the store unchanged; otherwise exactly one record is added under the new id, with the given type and payload, unsynced, zero retries, source defaulting to `offline` and creation time defaulting to now, and the store grows by one |
| OfflineQueue.InsertSorted | src/offline/queue.ts:110-112 | inserting into a list ordered by creation time keeps it ordered and adds exactly that action to its multiset |
| OfflineQueue.GetPending | src/offline/queue.ts:107-114 | as intended: the pending list is ordered by creation time and is a permutation of exactly the unsynced records |
| OfflineQueue.MarkSynced | src/offline/queue.ts:122-128 | what `markSynced`'s `get` handler does when it runs: an unknown id changes nothing; a known one becomes synced with zero retries, its other fields and every other record unchanged |
| OfflineQueue.IncrementRetry | src/offline/queue.ts:136-141 | what `incrementRetry`'s `get` handler does when it runs: an unknown id changes nothing; a known one gains exactly one retry, synced flag and other records untouched |
| OfflineQueue.ClearSynced | src/offline/queue.ts:150-156 | as intended: exactly the synced records are deleted; the rest are kept as they were |
| OfflineQueue.MarkSyncedIdempotent | src/offline/queue.ts:122-128 | marking the same id twice is marking it once |
| OfflineQueue.MarkSyncedPending | src/offline/queue.ts:122-128 | as intended: marking a known id removes exactly that record from the pending set |
| OfflineQueue.IncrementRetryPendingIds | src/offline/queue.ts:136-141 | a retry never moves a record into or out of the pending set |
| OfflineQueue.ClearSyncedKeepsPending | src/offline/queue.ts:150-156 | as intended: the pending set is identical before and after clearing, and nothing synced remains |
| OfflineQueue.ClearSyncedIdempotent | src/offline/queue.ts:150-156 | clearing twice is clearing once |
| OfflineQueue.SyncedIndex | src/offline/queue.ts:42 | the `synced` index holds no record, because a boolean is not an IndexedDB key |
| OfflineQueue.KeyRangeOnly | src/offline/queue.ts:108 | `IDBKeyRange.only(v)` builds a range exactly when `v` is a valid key (a number, a string, or an array of valid keys), and that range holds `v`; any other value, a boolean included, throws `DataError` |
| OfflineQueue.GetPendingAsWritten | src/offline/queue.ts:105-117 | as written, `getPendingActions` rejects on every store: `IDBKeyRange.only(false)` throws `DataError` inside the promise executor |
| OfflineQueue.ClearSyncedAsWritten | src/offline/queue.ts:146-159 | as written, `clearSynced` rejects and leaves the store exactly as it was, because `IDBKeyRange.only(true)` throws |
| OfflineQueue.WithStore | src/offline/queue.ts:51-69 | the request keeps its key, and whatever handler it came with, `withStore` leaves its own resolving handler on it |
| OfflineQueue.Fire | src/offline/queue.ts:51-69 | running the handler left on a request keeps the set of ids and every other record; the resolving handler writes nothing; the `markSynced` handler marks the record synced with no retries; the `incrementRetry` handler adds one retry |
| OfflineQueue.MarkSyncedAsWritten | src/offline/queue.ts:119-131 | as written, `markSynced` leaves the store unchanged: `withStore` (line 61) replaces the `get` handler that would write the record back |
| OfflineQueue.IncrementRetryAsWritten | src/offline/queue.ts:133-144 | as written, `incrementRetry` leaves the store unchanged, for the same reason |
| OfflineQueue.InstalledHandlersIntended | src/offline/queue.ts:119-144 | the handlers the two functions install are exactly the intended `MarkSynced` and `IncrementRetry` |
| OfflineQueue.MarkSyncedLeavesPending | src/offline/queue.ts:119-131 | a pending record stays pending after `markSynced` as written, where the intended operation removes it, so the two differ |
| OfflineQueue.IncrementRetryNotCounted | src/offline/queue.ts:133-144 | as written, the retry count of a known record is unchanged, where the intended operation adds one |
| OfflineQueue.GetPendingRejects | src/offline/queue.ts:105-117 | a store holding a pending record still makes `getPendingActions` reject as written |
| OfflineQueue.ClearSyncedKeepsSynced | src/offline/queue.ts:146-159 | a synced record survives `clearSynced` as written, where the intended operation deletes it |
| OfflineQueue.AsWrittenFullForever | src/offline/queue.ts:86-89 | as written, no call ever removes or changes a record, so a store at the 500-record cap stays exactly as it is under any later calls |
| OfflineQueue.StepKeepsCap | src/offline/queue.ts:86-101 | no single queue operation takes a store within the cap above 500 records |
| OfflineQueue.RunKeepsCap | src/offline/queue.ts:86-101 | any sequence of enqueues, marks, retries and clears keeps the store at no more than 500 records |
| OfflineQueue.RunKeepsSynced | src/offline/queue.ts:119-159 | as intended: a synced record stays synced while it remains, under any run that does not enqueue its id |
| OfflineQueue.RunGone | src/offline/queue.ts:91-101 | an id absent from the store stays absent under any run that does not enqueue it |
| ServiceWorker.Route | public/sw.js:45-73 | non-GET and `/api/` requests bypass the worker; other navigations are network first on the HTML cache; other static destinations or extensions are cache first on the static cache; everything else falls through, each case an if-and-only-if |
| ServiceWorker.Open | public/sw.js:24 | opening a cache creates it empty when missing and leaves every existing cache as it was |
| ServiceWorker.Put | public/sw.js:28 | a landed write stores the response under the URL in that cache only; a lost write changes nothing |
| ServiceWorker.CacheFirstServe | public/sw.js:23-30 | a hit answers from the cache without fetching or writing; a miss fetches, answers with the network response and stores it; a failed fetch rejects |
| ServiceWorker.NetworkFirstServe | public/sw.js:32-43 | it always fetches; success answers fresh and stores; failure answers the cached copy if any, else rethrows the error |
| ServiceWorker.OnFetch | public/sw.js:45-73 | the page gets the browser's own handling exactly for non-GET requests, `/api/` requests, and requests that are neither navigations nor static assets, and then no cache changes and nothing is fetched; every navigation fetches; a fetched answer is what the page gets; any other response comes from the HTML cache for a navigation and the static cache otherwise; a failure carries the network's error; no cache disappears, and only the two allowed caches can be created or changed |
| ServiceWorker.Install | public/sw.js:4-7 | installation pre-creates the static cache and keeps every other cache |
| ServiceWorker.Activate | public/sw.js:9-21 | exactly the caches outside the allow-list are deleted; allowed caches keep their contents |
| ServiceWorker.BypassedRequestsUntouched | public/sw.js:48-57 | non-GET and API requests get the browser's own handling and leave the caches unchanged, whatever their mode or extension |
| ServiceWorker.NavigationBeforeStatic | public/sw.js:60-63 | a non-API navigation is network first even when its path looks like a static asset |
| ServiceWorker.OpenKeepsApiOut | public/sw.js:24 | opening a cache never introduces an API entry |
| ServiceWorker.PutKeepsApiOut | public/sw.js:28 | storing a non-API URL keeps every cache free of API entries |
| ServiceWorker.OnFetchKeepsApiOut | public/sw.js:45-73 | whatever request the worker handles, no API response ever enters a cache |
| ServiceWorker.CacheFirstSecondHit | public/sw.js:23-30 | a static asset fetched and stored once is served from the cache next time without touching the network |
| ServiceWorker.NetworkFirstFallsBack | public/sw.js:32-43 | a navigation answered once is answered from the HTML cache when the network later fails |
| ServiceWorker.WriteLossInvisible | public/sw.js:23-43 | whether an unawaited cache write lands never changes the reply the page gets |
| ServiceWorker.ActivateOnlyAllowed | public/sw.js:9-19 | after activation only allowed names remain, and activating again changes nothing |
| Format.FormatPhone | src/utils/format.ts:1-17 | a missing number shows the placeholder; ten digits, or eleven starting with 1, show `(AAA)-PPP-LLLL` of the national digits; any other count shows the input unchanged |
| Format.DashedDigits | src/utils/format.ts:4-9 | the dashed layout keeps exactly the ten digits it lays out, in order |
| Format.FormatPhoneIdempotent | src/utils/format.ts:1-17 | formatting an already formatted number changes nothing |
| Format.Retained | src/utils/format.ts:21 | the kept text is all digits and at most ten of them |
| Format.FormatUSPhone | src/utils/format.ts:19-25 | missing input gives `''`; fewer than four digits are shown raw, four to six as `(ddd) rest`, seven to ten as `(ddd) ddd-rest`; stripping non-digits from the result gives back the retained digits |
| Format.RetainedLayoutDigits | src/utils/format.ts:22-24 | every layout keeps exactly the digits it was given |
| Format.AreaLayoutDigits | src/utils/format.ts:23 | the `(ddd) rest` layout keeps exactly its digits |
| Format.FullLayoutDigits | src/utils/format.ts:24 | the `(ddd) ddd-rest` layout keeps exactly its digits |
| Format.FormatUSPhoneIdempotent | src/utils/format.ts:19-25 | formatting a formatted number again changes nothing |
| WebsiteTheme.IsObjectIsPlainObject | src/utils/websiteTheme.ts:43-44 | `isObject` holds exactly for plain objects: not null, not arrays, not primitives |
| WebsiteTheme.MergeSection | src/utils/websiteTheme.ts:49-54 | a non-object section yields the default section; an object one has the union of keys, its own values winning and defaults kept elsewhere |
| WebsiteTheme.MergeOver | src/utils/websiteTheme.ts:46-64 | every section is the base section overridden token by token by the same-named section of the input: the keys of both, the input's values winning, the base's kept elsewhere; a non-object input changes nothing |
| WebsiteTheme.MergeTheme | src/utils/websiteTheme.ts:46-64 | a non-object input (null, array, primitive) yields the default theme; an object overrides each default section token by token with its own same-named section |
| WebsiteTheme.MergeWith | src/utils/websiteTheme.ts:46-48 | non-object input (null, array, primitive) yields the base theme |
| WebsiteTheme.MergeOverEmpty | src/utils/websiteTheme.ts:47-55 | merging an empty object gives back the base theme |
| WebsiteTheme.MergeOverIgnoresOtherKeys | src/utils/websiteTheme.ts:56-63 | top-level keys other than the six sections have no effect |
| WebsiteTheme.MergeWithIgnoresOtherKeys | src/utils/websiteTheme.ts:46-63 | the same for any base theme |
| WebsiteTheme.MergeThemeIgnoresOtherKeys | src/utils/websiteTheme.ts:46-63 | the same for `mergeTheme` over the defaults |
| WebsiteTheme.MergeSectionIdempotent | src/utils/websiteTheme.ts:49-54 | merging a merged section again changes nothing |
| WebsiteTheme.ThemeObjectFields | src/utils/websiteTheme.ts:56-63 | the merged theme, read as an object, has exactly its six sections |
| WebsiteTheme.MergeOverIdempotent | src/utils/websiteTheme.ts:46-64 | feeding a merge result back in gives the same theme |
| WebsiteTheme.MergeWithIdempotent | src/utils/websiteTheme.ts:46-64 | the same, for any incoming value |
| WebsiteTheme.MergeThemeIdempotent | src/utils/websiteTheme.ts:46-64 | `mergeTheme(mergeTheme(x)) == mergeTheme(x)` |
| Text.ParseIntHex | src/utils/websiteTheme.ts:78 | `parseInt(full, 16)` of a non-empty string of hexadecimal digits is the number those digits denote |
| Text.ParseIntHexNaN | src/utils/websiteTheme.ts:78 | a string starting with neither a sign nor a hexadecimal digit parses to `NaN` |
| WebsiteTheme.RemoveFirstHash | src/utils/websiteTheme.ts:67 | a string without `#` is unchanged; otherwise exactly the first `#` is removed, the text before and after it kept |
| WebsiteTheme.Doubled | src/utils/websiteTheme.ts:71-77 | each character appears twice in place |
| WebsiteTheme.HexToRgb | src/utils/websiteTheme.ts:66-83 | a normalised length other than 3 or 6 (empty included) gives the fallback; otherwise the digits are converted |
| WebsiteTheme.DigitsRgb | src/utils/websiteTheme.ts:71-82 | six hex digits give the pair values `r g b`; three give the doubled pair values |
| WebsiteTheme.HexToRgbDigits | src/utils/websiteTheme.ts:78-82 | each channel is the value of its digit pair, in 0..255 |
| WebsiteTheme.UnparsedIsBlack | src/utils/websiteTheme.ts:66-83 | `#` and six characters that `parseInt` cannot read give `0 0 0`, not the fallback |
| WebsiteTheme.UnparsedDigitsAreBlack | src/utils/websiteTheme.ts:78-82 | the same, stated on the normalised digits |
| WebsiteTheme.ShortChannels | src/utils/websiteTheme.ts:71-82 | three hex digits expand to channels equal to the doubled pair values |
| WebsiteTheme.SixDigitChannels | src/utils/websiteTheme.ts:78-81 | the shifts and masks extract the three pair values from the parsed integer |
| WebsiteTheme.SixDigitValue | src/utils/websiteTheme.ts:78 | the parsed integer of six hex digits is the weighted sum of its three pairs |
| WebsiteTheme.ShortHexIsDoubled | src/utils/websiteTheme.ts:66-83 | `#abc` gives the same result as `#aabbcc` |
| WebsiteTheme.DoubledNormalized | src/utils/websiteTheme.ts:67 | a doubled hex string with `#` in front normalises to itself |
| WebsiteTheme.GradientEntry | src/utils/websiteTheme.ts:137-142 | a variable is written exactly when its value is defined, and then with a truthy value: the value itself when truthy, `none` when falsy |
| WebsiteTheme.GradientVariables | src/utils/websiteTheme.ts:137-142 | only the hero and card gradient variables are written, each exactly when its merged value is defined, and each as `value \|\| 'none'` |
| WebsiteTheme.TruthyGradientsWritten | src/utils/websiteTheme.ts:137-142 | truthy gradients are written as they are |
| WebsiteTheme.DefaultGradientsWritten | src/utils/websiteTheme.ts:3-41 | a theme without a gradients object writes the default gradients |
| ResolveMedia.Keep | src/utils/resolveMedia.ts:26 | the kept variants are exactly the usable ones (truthy url and width); a single value is kept exactly when usable |
| ResolveMedia.KeepAppend | src/utils/resolveMedia.ts:26 | filtering keeps order: the filter of two lists joined is the filter of the first followed by the filter of the second |
| ResolveMedia.KeepFour | src/utils/resolveMedia.ts:23-26 | filtering four candidates keeps each usable one in its position order |
| ResolveMedia.KeepOfUsable | src/utils/resolveMedia.ts:30 | filtering an already filtered list changes nothing, so the second filter is redundant |
| ResolveMedia.VariantList | src/utils/resolveMedia.ts:23-26 | at most four variants, all usable: the usable ones among `sm`, `md`, `lg`, `xl`, in that order, each kept once per key |
| ResolveMedia.Entry | src/utils/resolveMedia.ts:31 | an entry starts with the variant's URL text and a space and ends in `w` |
| ResolveMedia.SrcSet | src/utils/resolveMedia.ts:28-32 | a srcset of a list with a usable variant is non-empty and starts with that variant's entry |
| ResolveMedia.SrcSetCons | src/utils/resolveMedia.ts:28-32 | the srcset of usable variants is their entries joined by `, ` |
| ResolveMedia.SrcSetSingle | src/utils/resolveMedia.ts:28-32 | one variant gives exactly its own entry |
| ResolveMedia.SrcChoice | src/utils/resolveMedia.ts:34-41 | two or more variants pick the second (`md`), one picks it, none falls back to `original_url` then `url` |
| ResolveMedia.Resolve | src/utils/resolveMedia.ts:18-55 | falsy media gives an empty `src` and no sources; alt defaults to `''`; there is at most one source, present exactly when some variant is usable, carrying the srcset of exactly the usable variants and the first variant's mime type |
| ResolveMedia.MissingSmallPicksLarge | src/utils/resolveMedia.ts:34-41 | with `sm` and `md` unusable and `lg` usable, `lg` is chosen |
| Router.ParseRole | src/router/index.ts:203-206 | a stored role text names a role exactly when it is one of the three role spellings |
| Router.Table | src/router/index.ts:30-186 | each route carries its own name and an absolute path (an empty first segment and at least one more); a route lists roles exactly when it requires authentication |
| Router.Routes | src/router/index.ts:30-191 | every route of the table occurs in the list, each entry is the table's route for its name, and no name occurs twice |
| Router.PublicRoutes | src/router/index.ts:30-186 | exactly the home, start, login, magic-login, check-in and booking routes are public |
| Router.OwnerListedOn | src/router/index.ts:74-185 | owners are listed on every guarded route except the three platform routes and the demo requests page |
| Router.Guard | src/router/index.ts:198-224 | the login page redirects a signed-in listed role to its home; a guarded route without a token, or with a role not listed, goes to `/login`; every other navigation proceeds |
| Router.PublicRoutesProceed | src/router/index.ts:209-223 | a route without `requiresAuth` (other than login) always proceeds |
| Router.LoginRedirectAdmitted | src/router/index.ts:202-207 | the home a signed-in role is sent to admits that role, so the redirect does not bounce |
| Router.AdmitsIsGuard | src/router/index.ts:214-218 | with a token, a role-restricted route proceeds exactly when it lists the role |
| Router.StaffListedOn | src/router/index.ts:74-185 | staff are listed on exactly the customer profile and queue routes |
| Router.SuperAdminListedOn | src/router/index.ts:74-185 | super admins are listed on exactly the platform dashboard, tenant creation, tenant and demo request routes |
| Router.StaffAdmitted | src/router/index.ts:74-185 | the set of routes admitting staff is exactly those two |
| Router.SuperAdminAdmitted | src/router/index.ts:74-185 | the set of routes admitting super admins is exactly those four |
| Router.Resolve | src/router/index.ts:187-190 | a path resolves to a matching route from the table, or redirects to `/check-in` exactly when none matches |
| Router.TopSegmentOf | src/router/index.ts:30-186 | every route starts with a fixed first segment from the known set |
| Router.UnknownTopGoesToCheckIn | src/router/index.ts:187-190 | a path whose first segment is unknown goes to the check-in page |
| Navigation.DefaultRouteForRole | src/utils/navigation.ts:3-8 | each of the three roles lands on its own route; anything else, missing included, lands on check-in |
| Navigation.AgreesWithLoginRedirect | src/utils/navigation.ts:3-6 | the landing route is the one the router's login redirect chooses, and it admits that role |
| Navigation.UnlistedRoleLandsOnCheckIn | src/utils/navigation.ts:7 | an unknown role lands on check-in, which the guard lets through |
| ApiClient.StripTrailingSlashes | src/api/client.ts:1-2 | the result is the input without its trailing run of slashes, and nothing else |
| ApiClient.ResolvedApiBase | src/api/client.ts:1-2 | no configured base gives `''`; the base never ends in `/` and is a prefix of the configured value |
| ApiClient.ApiUrl | src/api/client.ts:43-44 | every URL starts with the base followed by `/api/` |
| ApiClient.ApiUrlLeadingSlash | src/api/client.ts:43-44 | a path with or without its leading slash gives the same URL |
| ApiClient.ApiUrlShape | src/api/client.ts:43-44 | the URL is base, `/api/`, path, with exactly one slash between |
| ApiClient.IsPlatformHost | src/api/client.ts:4-10 | there is no platform host without a window; the four platform domains and every host starting with `platform.` are platform hosts, in any letter case |
| ApiClient.PlatformLocalhostRedundant | src/api/client.ts:4-10 | a platform host is one of the four platform domains or starts with `platform.`; the `platform.localhost` test adds nothing |
| ApiClient.AuthHeader | src/api/client.ts:12-15 | the bearer header is present exactly when a non-empty token is stored, and carries it |
| ApiClient.HostnameTenant | src/api/client.ts:18-19 | there is a hostname label exactly when a window with a non-empty hostname exists; it is the hostname's first label: a prefix holding no dot, followed by a dot or the end |
| ApiClient.TenantCandidate | src/api/client.ts:25-33 | on localhost the order is env, stored, hostname; elsewhere hostname, env, stored |
| ApiClient.StoredTenant | src/api/client.ts:21-23 | the stored `tenantSubdomain` when it is non-empty, otherwise the stored `tenantId` as stored (empty or missing included); nothing without a window |
| ApiClient.TenantHeader | src/api/client.ts:17-41 | no header on a platform host; otherwise the header is present exactly when the candidate is present and not UUID-shaped, and carries it |
| ApiClient.UuidCandidateNoFallback | src/api/client.ts:26-35 | a UUID-shaped hostname candidate drops the header without trying the other sources |
| ApiClient.BuildHeaders | src/api/client.ts:46-54 | JSON, auth and tenant headers appear exactly when asked for and available, with the values of their own rules |
| ApiClient.PlatformHostSendsNoTenant | src/api/client.ts:37-40 | no request from a platform host carries a tenant header |
| ServicesPublic.StripScheme | src/api/servicesV2Public.ts:80 | a leading `http://` or `https://` is removed, nothing else |
| ServicesPublic.StripPort | src/api/servicesV2Public.ts:80 | at most a trailing `:digits` is removed, and a trailing `:` followed by one or more digits always is |
| ServicesPublic.StripWww | src/api/servicesV2Public.ts:80 | only a lowercase leading `www.` is removed |
| ServicesPublic.NormalizeHost | src/api/servicesV2Public.ts:78-81 | a missing host gives `''`; the result holds no upper-case letter |
| ServicesPublic.PlainHostLowered | src/api/servicesV2Public.ts:78-81 | a plain host is only lowercased |
| ServicesPublic.UndecoratedUnchanged | src/api/servicesV2Public.ts:80 | a host with no scheme, port or `www.` passes the three replacements unchanged |
| ServicesPublic.UpperWwwSurvives | src/api/servicesV2Public.ts:80 | an upper-case `WWW.` is lowercased but not removed, because removal runs first |
| ServicesPublic.DecoratedHost | src/api/servicesV2Public.ts:78-81 | a scheme, a port and a lowercase `www.` are all removed before lowercasing |
| ServicesPublic.PortRemoved | src/api/servicesV2Public.ts:80 | a trailing port is removed from a host without colons |
| ServicesPublic.ExtractSubdomain | src/api/servicesV2Public.ts:83-87 | a subdomain exists exactly when the host has three or more labels, and it is the first one |
| ServicesPublic.TwoLabelsNoSubdomain | src/api/servicesV2Public.ts:83-87 | a two-label host has no subdomain |
| ServicesPublic.GetStoredTenant | src/api/servicesV2Public.ts:89-97 | without a window nothing; otherwise the first non-empty of stored subdomain, stored id, env tenant |
| ServicesPublic.GetTenantId | src/api/servicesV2Public.ts:99-106 | the stored tenant wins; otherwise the subdomain of the normalised hostname |
| Checkins.ResolveTenant | src/api/checkins.ts:14-19 | a tenant is found exactly when one of the five sources is non-empty, and it is one of them |
| Checkins.ResolveIsFirstPresent | src/api/checkins.ts:14-19 | the `||` chain picks the first non-empty source in order |
| Checkins.ChainIsFirstPresent | src/api/checkins.ts:14-19 | a five-way `||` chain is the first present candidate |
| Checkins.ExplicitTenantWins | src/api/checkins.ts:14-15 | a non-empty argument always wins |
| Checkins.WithTenant | src/api/checkins.ts:23-25 | the `tenant` query is present exactly when a tenant was resolved, and carries it |
| Checkins.EndpointUrl | src/api/checkins.ts:41-45 | the services and check-in URLs have their endpoint's path, and a `tenant` query exactly when a tenant is resolved, carrying that tenant (the services URL at lines 21-25 is built the same way) |
| Checkins.TenantQueryRoundTrip | src/api/checkins.ts:14-25 | a page opened on a URL carrying the tenant query resolves that tenant |
| Checkins.Project | src/api/checkins.ts:38 | one option per element, keeping its `id` and `name` |
| Checkins.FetchServices | src/api/checkins.ts:33-38 | a failed status throws `Failed to load services`; a successful body gives options exactly when it is an array with no `null` or `undefined` element, each option holding its element's `id` and `name`; any other successful body throws a `TypeError` |
| Checkins.ProjectRoundTrip | src/api/checkins.ts:38 | records that already have just `id` and `name` come back unchanged |
| Checkins.ProjectDropsOtherFields | src/api/checkins.ts:38 | any other field of a record is dropped |
| Text.ErrorMessage | src/api/checkins.ts:55-58 | a body that parsed to `null` throws a `TypeError`; an unreadable body, or one without a truthy `error`, gives the fallback message; a non-empty `error` text is the message |
| Text.ErrorMessageRoundTrip | src/api/checkins.ts:55-58 | a server's non-empty `error` text is shown as is; a body without one shows the caller's fallback |
| AuthLogin.IsLoginPlatformHost | src/api/auth.ts:15-19 | the login page treats a host as a platform host exactly when a window exists and its lower-cased name starts with `platform.`, which covers `platform.localhost` |
| AuthLogin.LoginPlatformHostIsPlatformHost | src/api/auth.ts:15-19 | every host the login page treats as a platform host is one for the shared client too |
| AuthLogin.LoginTenant | src/api/auth.ts:22-28 | the hostname label, then the env tenant, then the stored tenant |
| AuthLogin.LoginHeaders | src/api/auth.ts:30-35 | JSON always; the tenant header exactly when a tenant is found off a platform host; the platform flag exactly on a platform host |
| AuthLogin.TenantOrPlatform | src/api/auth.ts:30-35 | a login request never carries both the tenant and the platform flag |
| AuthLogin.RememberTenant | src/api/auth.ts:36-39 | the tenant logged into is stored under both keys; no other key changes |
| AuthLogin.RememberedTenantIsStored | src/api/auth.ts:36-39 | after a tenant login the client and the public pages both read back that tenant |
| AuthLogin.RememberTenantIdempotent | src/api/auth.ts:36-39 | storing again from the same page changes nothing |
| AuthLogin.PlatformDomainLoginSendsTenant | src/api/auth.ts:15-35 | on the four platform domains the login test is false, so login sends the first hostname label as a tenant while the shared client sends none |
| KioskWatchdog.Start | src/utils/kioskIdleWatchdog.ts:7-13 | omitted thresholds default to five and ten minutes; activity starts now with no soft reset done |
| KioskWatchdog.MarkActivity | src/utils/kioskIdleWatchdog.ts:15-18 | activity records the time and re-arms the soft reset, thresholds unchanged |
| KioskWatchdog.CheckIdle | src/utils/kioskIdleWatchdog.ts:20-31 | the soft reset fires exactly when not yet done and idle past its threshold; reload exactly when idle past the hard threshold |
| KioskWatchdog.ReloadIgnoresFlag | src/utils/kioskIdleWatchdog.ts:28-30 | the reload decision does not depend on the soft-reset flag |
| KioskWatchdog.HandleVisibility | src/utils/kioskIdleWatchdog.ts:36-41 | becoming visible soft-resets and marks activity; hiding does nothing |
| KioskWatchdog.RunChecks | src/utils/kioskIdleWatchdog.ts:20-31 | checks without activity never move the last activity time or the thresholds |
| KioskWatchdog.AtMostOneSoftReset | src/utils/kioskIdleWatchdog.ts:15-26 | between activities the soft reset fires at most once, exactly when armed and some check runs past the threshold |
| KioskWatchdog.ActivityRearms | src/utils/kioskIdleWatchdog.ts:15-26 | after activity, a check past the threshold soft-resets again |
| TrialBanner.CeilDiv | src/api/trialBanner.ts:20 | `Math.ceil` of a quotient: the least multiple bound |
| TrialBanner.UpdateFromIso | src/api/trialBanner.ts:7-25 | no date clears the count; an unparseable one gives `NaN` and not expired; otherwise expired exactly when the end has passed, with zero days, else the ceiling of the remaining days, at least one |
| TrialBanner.ExpiredIffNoDaysLeft | src/api/trialBanner.ts:7-25 | the banner shows expired exactly when zero days remain |
| TrialBanner.SetTrialEndsAt | src/api/trialBanner.ts:61-63 | the end date is stored as given, and expired agrees with zero days remaining |
| TrialBanner.Reset | src/api/trialBanner.ts:55-59 | reset gives not expired, no date, no count |
| TrialBanner.ResetForgets | src/api/trialBanner.ts:55-63 | reset returns the fresh-page state whatever came before |
| TrialBanner.OnResponse | src/api/trialBanner.ts:38-49 | only a 402 with `action: upgrade` changes the state: it takes the body's end date and forces expired |
| TrialBanner.UpgradeOverridesDate | src/api/trialBanner.ts:38-49 | an upgrade response shows expired even with days remaining |
| TrialBanner.OtherStatusIgnored | src/api/trialBanner.ts:38 | any other status leaves the state unchanged |
| Maintenance.OnResponse | src/api/maintenance.ts:18-30 | only a 503 can change the banner: an unparseable body turns it on with the default message, a truthy `maintenance` turns it on with the body's message or the default |
| Maintenance.ActiveUntilCleared | src/api/maintenance.ts:15-33 | once on, the banner stays on with a message whatever responses follow |
| Maintenance.Replay | src/api/maintenance.ts:18 | a run without a 503 leaves the banner unchanged |
| Maintenance.Clear | src/api/maintenance.ts:36-39 | clearing turns the banner off and drops the message |
| Maintenance.ClearedStaysClearWithout503 | src/api/maintenance.ts:18-39 | after clearing, only a 503 can show the banner again |
| AuthInterceptor.ErrorCode | src/api/authInterceptor.ts:21 | the code is the truthy `error` field, else the `code` field, else undefined |
| AuthInterceptor.WithReason | src/api/authInterceptor.ts:28-29 | an existing `reason` is kept as it is; otherwise `reason=expired` is appended and the rest of the query kept |
| AuthInterceptor.OnResponse | src/api/authInterceptor.ts:13-31 | it acts exactly on a 401 off the login page whose code is missing, `SESSION_EXPIRED` or `UNAUTHORIZED`; then the session is cleared and the redirect goes to `/login` with a reason; otherwise nothing changes |
| AuthInterceptor.LoginPageUntouched | src/api/authInterceptor.ts:14-15 | a 401 on the login page is left to the page |
| AuthInterceptor.RedirectLandsOnLogin | src/api/authInterceptor.ts:26-30 | the redirect does not loop: the router lets the signed-out visitor onto login, and a further 401 there is ignored |
| AuthInterceptor.ExistingReasonKept | src/api/authInterceptor.ts:28-30 | a reason already on the query is kept unchanged |
| AuthInterceptor.OtherCodeKeepsSession | src/api/authInterceptor.ts:21-27 | a 401 with any other error code keeps the session |
| AuthInterceptor.Setup | src/api/authInterceptor.ts:3-7 | fetch is patched exactly when not yet installed and a window with fetch exists |
| AuthInterceptor.InstallsAtMostOnce | src/api/authInterceptor.ts:3-7 | however often it is called, the interceptor is installed at most once, and never again once installed |
| AuthState.ClearAuthState | src/utils/auth.ts:1-15 | exactly the session keys are removed, every other key kept |
| AuthState.ClearIdempotent | src/utils/auth.ts:1-15 | clearing twice is clearing once |
| AuthState.ClearKeepsTenantSubdomainAndTimezone | src/utils/auth.ts:1-15 | the tenant subdomain and the business time zone survive a sign-out |
| AuthState.SignedOutGuard | src/utils/auth.ts:1-15 | after a sign-out the router sends every guarded route to `/login` and lets public ones through |
| AuthState.Logout | src/utils/auth.ts:17-20 | sign-out clears the session and goes to the given path, or `/app/login` by default |
| InboxNotifications.Refresh | src/utils/inboxNotifications.ts:19-33 | a fetched count replaces the old one, a failed fetch keeps it; the chime plays exactly when initialised, not silent and the count rose |
| InboxNotifications.FailedRefreshKeepsCount | src/utils/inboxNotifications.ts:20-22 | a failed fetch keeps the count and never chimes |
| InboxNotifications.FirstRefreshSilent | src/utils/inboxNotifications.ts:24-27 | the first refresh only initialises and never chimes |
| InboxNotifications.StartPolling | src/utils/inboxNotifications.ts:35-42 | starting while polling does nothing; otherwise it polls with the new timer after a silent refresh |
| InboxNotifications.Tick | src/utils/inboxNotifications.ts:39-41 | a tick takes the fetched count or keeps the old one on a failed fetch, leaves polling and the timer as they were, and chimes exactly when the state was initialised and the fetched count is higher |
| InboxNotifications.TickChimesOnRise | src/utils/inboxNotifications.ts:29-41 | once started, every tick takes the new count and chimes exactly when it rose |
| InboxNotifications.StopPolling | src/utils/inboxNotifications.ts:44-50 | stopping ends polling, keeps the count, and clears the timer exactly when its id is truthy |
| InboxNotifications.StopIdempotent | src/utils/inboxNotifications.ts:44-50 | stopping twice is stopping once, and the second stop clears no timer |
| InboxNotifications.RestartAfterStop | src/utils/inboxNotifications.ts:35-50 | stopping and starting again polls with the new timer |
| Text.Trim | src/utils/dates.ts:15 | `trim()` gives the slice of the input that starts after its leading white space and stops where only white space remains, so it neither starts nor ends with white space |
| Text.TrimIdempotent | src/utils/dates.ts:24 | trimming a trimmed zone changes nothing |
| Dates.SetBusinessTimezone | src/utils/dates.ts:13-19 | a non-blank zone is stored trimmed; a blank or missing one changes nothing; nothing else changes |
| Dates.GetBusinessTimezone | src/utils/dates.ts:21-25 | the stored zone trimmed when it is not blank; `America/Chicago` when there is no window, nothing is stored, or the stored zone is blank; never empty |
| Dates.SetThenGet | src/utils/dates.ts:13-25 | a zone set is read back trimmed |
| Dates.BlankSetKeepsZone | src/utils/dates.ts:13-25 | setting a blank zone leaves the zone read back unchanged |
| Dates.Zone | src/utils/dates.ts:33 | an explicit non-blank zone wins over the stored one |
| Dates.FormatOrPlaceholder | src/utils/dates.ts:27-36 | a falsy input or an invalid date shows the em-dash placeholder; otherwise the rendering |
| Dates.IsWithinTcpaWindow | src/utils/dates.ts:43-58 | an invalid instant is outside; otherwise inside exactly when the local hour is at least the start and before the end |
| Dates.DefaultTcpaWindow | src/utils/dates.ts:46-57 | with the default hours, messages go out from 8:00 up to, not including, 20:00 |

## Left out

- IndexedDB and `randomId`: the object store is a map and the new id is a parameter. The transaction machinery, the database open and upgrade, and the race between two tabs are not modelled.
- OfflineQueue.GetPending: this is the intended operation; the code as written rejects (see "## Findings"). Records with equal creation times come out in an unspecified order, because the loop that builds the list takes the remaining records in an arbitrary order. The source's stable `sort` over `getAll`'s key order would keep such ties in id order. The contract therefore promises only that the list is ordered and is a permutation of the pending records.
- Js.JsValue: numbers are integers. Fractional numbers, `NaN`, `Infinity` and `-0` are not modelled, so a fractional `width` in a `srcset` entry cannot occur in the model.
- WebsiteTheme.HexToRgb: strings are sequences of Unicode scalar values, while JavaScript's `length` and `split('')` count UTF-16 code units. A colour holding a character outside the Basic Multilingual Plane is therefore measured differently. For example, `'#a😀'` has length 3 in the source and comes out `'0 0 170'`; in the model it has length 2 and gives the fallback.
- The Cache API runtime is not modelled:
  - `respondWith` and `waitUntil`;
  - `skipWaiting` and `clients.claim`;
  - `response.clone()`.
  Whether an unawaited `cache.put` lands is a boolean input.
- URL parsing, regular expressions, `encodeURIComponent` and `URLSearchParams` are not modelled. URLs are records of their parts; queries are lists of pairs with no percent-encoding.
- `toLowerCase` is modelled for ASCII only. There is no Unicode case mapping.
- Router.Resolve, Router.UnknownTopGoesToCheckIn: matching is exact and case-sensitive. vue-router 4 by default ignores case and accepts a trailing slash, so `/ADMIN` and `/admin/` reach the admin dashboard there; the model sends them to the catch-all.
- vue-router's path matching is modelled only segment by segment. Parameters match any non-empty segment; nested routes, aliases and history are not modelled.
- `fetch` monkey-patching in the trial, maintenance and 401 interceptors is not modelled. Only the per-response rule is modelled; the response is returned to the caller untouched. The maintenance interceptor's `__maintenanceInterceptor` window flag is not modelled.
- TrialBanner.UpdateFromIso: date parsing (`new Date(iso).getTime()`) and the clock are inputs. Timestamps are whole milliseconds, so floating-point rounding is not modelled.
- Dates: time-zone conversion and date rendering come from dayjs, and their results are inputs. `isWithinTcpaWindow` receives the local hour and minute.
- WebsiteTheme: the CSS variables other than the two gradients are not modelled. This includes the colour channels written through `hexToRgb`, which is modelled on its own, and the font-scale number, which uses floating point.
- DOM, timers, audio and event listeners are not modelled: the chime, `setInterval`, `location.assign` and `addEventListener`. The model reports these effects rather than performing them.
- Network calls are not modelled. Each response's status and parsed body are inputs. The other API wrappers (`magicLogin`, appointments, billing and the rest) are thin `fetch` calls and are not part of this model.
- Inbox polling: concurrent refreshes overlapping in time are not modelled. Each refresh is applied whole.

## Findings

The queue's request handling loses the work of three calls, and a fourth is replaced. `withStore` assigns its own `onsuccess` to the request the callback returns (src/offline/queue.ts:61). That replaces the handler the callback had just set. In addition, booleans are not IndexedDB keys, so `IDBKeyRange.only(false)` and `IDBKeyRange.only(true)` throw `DataError`, and the `synced` index (line 42) never holds a record.

| source | as written | input that shows it | evidently intended | confidence | as-written member | corrected member |
|---|---|---|---|---|---|---|
| src/offline/queue.ts:119-131 | the `put` handler is replaced by `withStore`'s resolver, so `markSynced` writes nothing | a store holding one unsynced record `r`; call `markSynced(r.id)` | `r` is stored synced with zero retries | high; not executed | OfflineQueue.MarkSyncedAsWritten | OfflineQueue.MarkSynced |
| src/offline/queue.ts:133-144 | the `put` handler is replaced, so `incrementRetry` writes nothing | a store holding a record `r`; call `incrementRetry(r.id)` | `r.retryCount` grows by one | high; not executed | OfflineQueue.IncrementRetryAsWritten | OfflineQueue.IncrementRetry |
| src/offline/queue.ts:105-117 | `IDBKeyRange.only(false)` throws `DataError`, so the promise rejects. The sorting handler would also be replaced, and it assigns to the read-only `result` | any store, for instance one holding an unsynced record | the unsynced records, ordered by creation time | high; not executed | OfflineQueue.GetPendingAsWritten | OfflineQueue.GetPending |
| src/offline/queue.ts:146-159 | `IDBKeyRange.only(true)` throws `DataError`, so the promise rejects and nothing is deleted | a store holding one synced record; call `clearSynced()` | the synced records are deleted | high; not executed | OfflineQueue.ClearSyncedAsWritten | OfflineQueue.ClearSynced |

The lemmas `MarkSyncedLeavesPending`, `IncrementRetryNotCounted`, `GetPendingRejects` and `ClearSyncedKeepsSynced` exhibit each discrepancy. `AsWrittenFullForever` shows its consequence: once 500 records are queued, every later enqueue returns `null`.
