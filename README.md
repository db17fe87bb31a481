# Delivery driver app: session, mock data and API client core in Dafny

The app is a mobile client for delivery drivers. This project models the three parts of it that hold decision logic and proves properties of them:

- **Session resolution and session state** (`contexts/AuthContext.tsx`). Login strips the CNPJ input (the Brazilian company tax id) down to its digits. It picks the first mock company whose CNPJ has the same digits. It then picks the first member with exactly the given email, under the one mock password `123456`. The company's name and formatted CNPJ are copied into the user record. The record is written to storage key `"user"`, and only after that write is it adopted in memory. `AuthProvider` is a class over the state `{user, isLoading, destination}` and an abstract key-value store. Its methods `CheckStoredUser`, `Login` and `Logout` change that state in the source's order.
- **Mock data accessors** (`data/mockData.ts`). The seeded routes, and first-match searches over them: by route id, by delivery id (giving the delivery and its route), and by status `ativo`.
- **The storage- and string-level slice of `ApiService`** (`services/api.ts`). This covers the token helpers, how request headers are composed, the success/failure result envelope, when login writes the token and when logout removes it, the endpoint and query strings, and the offline cache. The cache stores entries under `offline_<key>` and keeps them valid for a strict 24 hours.

Modules: `Wrappers` (Option), `Seqs` (first-match search, the model of `Array.prototype.find`), `Strings` (decimal rendering of integers and the digit-stripping `replace(/\D/g, '')`), `Types` (the records of `types/index.ts`), `Storage` (`AsyncStorage` as a class `KeyValueStore`), `MockData`, `AuthContext`, `Api`.

How the environment is modelled:
- A `KeyValueStore` is either `reliable` or not. A reliable store carries out every call. On an unreliable one any call may reject, the outcome chosen nondeterministically, and a rejected write or removal leaves the store unchanged. Every state-changing method states both what happens on a reliable store and what may happen on an unreliable one.
- `fetch` and `response.json()` become an `Exchange` value that the caller passes in.
- `Date.now()` becomes a parameter `now`, in milliseconds.
- `router.replace` becomes a `Destination` field.
- Stored values are kept as the records themselves, not as JSON text.
- The auth context and the API client each get their own store instance. This is safe because their keys can never collide: `OfflineKeyIsNotReserved` proves that an `offline_` key is never `Storage.UserKey` (`"user"`) and never `Storage.TokenKey` (`"auth_token"`). These are the two fixed keys, declared once in `Storage`, one per module: the auth context uses only `"user"`, and the API client uses only `"auth_token"` and `offline_` keys.

Both seeded companies have a member; `AuthContext.SeedLogins` proves that exactly two combinations succeed.

## Model

| member | source | states |
|---|---|---|
| `Strings.OnlyDigits` | contexts/AuthContext.tsx:76 | the normalised CNPJ contains only the characters `\D` does not match, and is no longer than the input |
| `Strings.OnlyDigitsAppend` | contexts/AuthContext.tsx:76 | normalising a concatenation is concatenating the normalised parts |
| `Strings.OnlyDigitsOfDigits` | contexts/AuthContext.tsx:76 | a string of digits only is left as it is |
| `Strings.OnlyDigitsIdempotent` | contexts/AuthContext.tsx:76 | normalising twice gives the same as normalising once |
| `Strings.OnlyDigitsIgnoresNonDigit` | contexts/AuthContext.tsx:76 | inserting a non-digit character anywhere does not change the normalised CNPJ |
| `Strings.OnlyDigitsGroup` | contexts/AuthContext.tsx:76 | a digit group followed by a separator keeps the group and drops the separator |
| `Strings.MaskedCnpjDigits` | contexts/AuthContext.tsx:20-31 | a CNPJ in the display mask `XX.XXX.XXX/XXXX-XX` normalises to its 14 digits |
| `Strings.NatToString` | services/api.ts:64 | the decimal rendering is non-empty, all digits, and has no leading zero |
| `Strings.IntToString` | services/api.ts:130 | the rendering starts with `-` exactly for negative ids, and holds only digits and `-`; the digits read back in decimal as the absolute value |
| `Strings.ParseNatToString` | services/api.ts:64 | reading the decimal rendering back gives the number |
| `Strings.IntToStringInjective` | services/api.ts:130-147 | distinct ids render as distinct strings |
| `Seqs.FirstIndex` | data/mockData.ts:78 | the index is that of the first element satisfying the predicate, or the length when none does |
| `Seqs.Find` | data/mockData.ts:78 | `find` returns `None` exactly when no element matches; otherwise the first matching element |
| `MockData.MockUser` | data/mockData.ts:4-11 | the seeded driver João Silva, without company fields |
| `MockData.MockRoutes` | data/mockData.ts:13-74 | the two seeded routes with their deliveries, field for field |
| `MockData.GetRouteById` | data/mockData.ts:77-79 | the first route in list order with that id; `None` exactly when no route has that id |
| `MockData.DeliveryIn` | data/mockData.ts:84 | the first delivery of the route with that id; `None` exactly when the route has none |
| `MockData.FindDelivery` | data/mockData.ts:82-90 | a found delivery has the requested id, is in the returned route's deliveries, and the route is in the list and is the first route holding that id; `None` exactly when no route holds a delivery with that id |
| `MockData.GetDeliveryById` | data/mockData.ts:82-90 | the for-of scan with early return computes `FindDelivery`, and it changes nothing |
| `MockData.GetActiveRoute` | data/mockData.ts:93-95 | the first route with status `ativo`; `None` exactly when there is none |
| `MockData.SeedActiveRoute` | data/mockData.ts:13-74 | on the seed data the active route is route 1 |
| `MockData.SeedRouteById` | data/mockData.ts:13-79 | on the seed data ids 1 and 2 give the two routes and every other id gives `None` |
| `MockData.SeedDeliveryIds` | data/mockData.ts:19-72 | route 1 holds deliveries 1 to 3 in order and route 2 holds delivery 4 |
| `MockData.SeedDeliveryIdsUnique` | data/mockData.ts:19-72 | no delivery id occurs twice across the seed routes |
| `MockData.SeedDeliveriesOfRoute1` | data/mockData.ts:19-53 | in route 1, ids 1 to 3 find their delivery and every other id finds nothing |
| `MockData.SeedDeliveriesOfRoute2` | data/mockData.ts:60-72 | in route 2, only id 4 finds a delivery |
| `MockData.SeedDeliveryById` | data/mockData.ts:13-90 | on the seed data ids 1 to 3 resolve to route 1, id 4 to route 2, and every other id to `None` |
| `AuthContext.FindCompany` | contexts/AuthContext.tsx:80-82 | the first company whose digit-only CNPJ equals the digit-only input; `None` exactly when none matches |
| `AuthContext.FindMember` | contexts/AuthContext.tsx:90-92 | a member is found only under password `123456`, with exactly the given email, and it is the first such member; `None` exactly when the password differs or no member has the email |
| `AuthContext.WithCompany` | contexts/AuthContext.tsx:100-104 | the merged record carries the company's name and formatted CNPJ, and every other field is the found user's |
| `AuthContext.ResolveSession` | contexts/AuthContext.tsx:73-104 | login can succeed exactly when the password is the mock one, some company matches the CNPJ digits and the first such company has a member with the email; the result is the first company whose CNPJ has the input's digits merged with the first of its members with the email; it carries the record's formatted CNPJ rather than the input |
| `AuthContext.MockCompanies` | contexts/AuthContext.tsx:18-46 | the two seeded companies, `12.345.678/0001-90` with joao (the mock user plus company fields) and `98.765.432/0001-10` with maria |
| `AuthContext.ResolveIgnoresNonDigit` | contexts/AuthContext.tsx:76-82 | punctuation anywhere in the CNPJ input never changes the outcome of login |
| `AuthContext.ExpressCnpjDigits` | contexts/AuthContext.tsx:20 | the first seeded CNPJ normalises to `12345678000190` |
| `AuthContext.RapidoCnpjDigits` | contexts/AuthContext.tsx:31 | the second seeded CNPJ normalises to `98765432000110` |
| `AuthContext.SeedCompanyFor` | contexts/AuthContext.tsx:18-46 | against the seed companies a CNPJ input selects company 1, company 2 or none, by its digits alone |
| `AuthContext.SeedMemberFor` | contexts/AuthContext.tsx:18-46 | each seed company's single member is found only by its exact email under the mock password |
| `AuthContext.FormattedAndBareCnpjAgree` | contexts/AuthContext.tsx:76-82 | `12.345.678/0001-90` and `12345678000190` give the same login outcome |
| `AuthContext.SeedLogins` | contexts/AuthContext.tsx:18-97 | exactly two (email, password, CNPJ digits) triples log in: joao with `12345678000190` and maria with `98765432000110`, both under `123456` |
| `AuthContext.CrossCompanyLoginFails` | contexts/AuthContext.tsx:80-97 | maria's email under the first company's CNPJ does not log in: membership is checked within the selected company only |
| `AuthContext.AuthProvider.constructor` | contexts/AuthContext.tsx:49-50 | start-up state: no user, loading, no navigation yet, checking against the mock companies |
| `AuthContext.AuthProvider.CheckStoredUser` | contexts/AuthContext.tsx:56-71 | loading ends; a stored record becomes the user with destination tabs; otherwise (nothing stored, or a failed read) the user is unchanged and the destination is login; on a reliable store a stored record is always adopted |
| `AuthContext.AuthProvider.Login` | contexts/AuthContext.tsx:73-115 | a failed resolution returns false; on true, storage key `"user"` and the in-memory user both hold the resolved record and the destination is tabs; on false, storage, user and destination are unchanged, which includes a rejected storage write; on a reliable store every resolved session returns true |
| `AuthContext.AuthProvider.Logout` | contexts/AuthContext.tsx:117-125 | either `"user"` is removed, the user is cleared and the destination is login, or (removal rejected) nothing changes; on a reliable store the first always happens |
| `AuthContext.Mount` | contexts/AuthContext.tsx:48-71 | after mounting, loading is over; the user is the stored record with destination tabs, or no user with destination login; nothing stored always means login, and on a reliable store a stored record always means tabs |
| `Api.ComposeHeaders` | services/api.ts:52-59 | without caller headers: `Content-Type: application/json`, plus `Authorization: Bearer <token>` exactly when the token is present and non-empty, and no other header; caller headers replace the composed object whole |
| `Api.ErrorMessage` | services/api.ts:79 | an `Error` gives its message; any other thrown value gives `Erro desconhecido` |
| `Api.Envelope` | services/api.ts:63-81 | success exactly for an ok response with a parsed body, which becomes the data; otherwise no data and a message: `HTTP <status>: <statusText>` for a non-ok response, the error's message for any other failure |
| `Api.HttpErrorMessage` | services/api.ts:64 | the message starts with `HTTP ` and ends with the status text |
| `Api.HttpErrorMessageInjective` | services/api.ts:64 | the status and status text can be read back from an HTTP error message |
| `Api.SegmentEnd` | services/api.ts:64 | in a rendered integer followed by a separator, the first non-integer character is where the digits end |
| `Api.SegmentInjective` | services/api.ts:130-142 | an integer followed by an empty or separator-led suffix determines both the integer and the suffix |
| `Api.PeriodName` | services/api.ts:216-217 | the names `week`, `month` and `all` of the period union, as `?period=${period}` renders them |
| `Api.HistoryQuery` | services/api.ts:217 | the query is empty exactly when no period is given |
| `Api.Endpoint` | services/api.ts:90-237 | the path each single-request operation asks for is a non-empty path starting with `/`; the route, history and delivery shapes are pinned down by the lemmas below, and the fixed paths are literals |
| `Api.HistoryEndpointShape` | services/api.ts:216-218 | the history endpoint is `/history`, followed by `?period=<p>` only when a period is given |
| `Api.HistoryEndpointInjective` | services/api.ts:216-218 | distinct periods give distinct history endpoints |
| `Api.DeliveryEndpointShape` | services/api.ts:146-158 | reading and updating a delivery both use `/deliveries/` followed by the rendered id |
| `Api.IdEndpointsInjective` | services/api.ts:129-148 | the route-detail, start, finish and delivery-detail endpoints never coincide unless they are the same operation on the same id |
| `Api.RouteSuffix` | services/api.ts:130-142 | a route endpoint is `/routes/` plus the id plus an empty, `/start` or `/finish` suffix |
| `Api.Options` | services/api.ts:90-237 | no operation of the client passes its own headers, so all of them get the composed headers |
| `Api.OfflineKey` | services/api.ts:261 | the storage key is the `offline_` prefix followed by the cache key, which can be read back |
| `Api.OfflineKeyInjective` | services/api.ts:261 | distinct cache keys give distinct storage keys |
| `Api.OfflineKeyIsNotReserved` | services/api.ts:261 | a cache key never lands on the shared keys `Storage.TokenKey` or `Storage.UserKey` |
| `Api.StoredToken` | services/api.ts:19-26 | the stored token is present exactly when `auth_token` holds a token string |
| `Api.StillValid` | services/api.ts:280 | an entry is valid while its age is strictly below 24 hours, per the strict comparison |
| `Api.CachedData` | services/api.ts:271-292 | data is returned exactly when an entry exists under `offline_<key>` and is younger than 86 400 000 ms; a missing, unparseable or expired entry gives `None` |
| `Api.SaveThenGet` | services/api.ts:259-283 | a save at time t and a read at `now` with `now - t < 86 400 000` give the saved data |
| `Api.ExpiresAfter24Hours` | services/api.ts:280 | an entry exactly 24 hours old, or older, is not returned |
| `Api.SecondSaveOverwrites` | services/api.ts:259-265 | a second save of the same key replaces the first |
| `Api.SavesDoNotInterfere` | services/api.ts:261-265 | a save under one key never changes what another key reads |
| `Api.TokenDoesNotTouchCache` | services/api.ts:28-42 | writing or removing the token never changes what the offline cache reads |
| `Api.IssuesToken` | services/api.ts:95 | the request succeeded and the returned `access_token` is non-empty (a truthy string) |
| `Api.LoginResult` | services/api.ts:95-106 | a successful response with a non-empty `access_token` gives `{user, token}`; any other response is passed on with the same success flag, message and body |
| `Api.ApiService.constructor` | services/api.ts:6-16 | the base URL is the development or the production URL |
| `Api.ApiService.GetAuthToken` | services/api.ts:19-26 | the stored token, or `None` when there is none or the read fails; a reliable store always gives the stored token |
| `Api.ApiService.SetAuthToken` | services/api.ts:28-34 | `auth_token` holds the token afterwards, or (write rejected) the store is unchanged; a reliable store always takes the write |
| `Api.ApiService.RemoveAuthToken` | services/api.ts:36-42 | `auth_token` is gone afterwards, or (removal rejected) the store is unchanged; a reliable store always removes it |
| `Api.ApiService.Request` | services/api.ts:45-82 | the URL is base URL plus endpoint; method and body pass through; the headers are composed from the stored token (or from none if the read failed, which a reliable store never does); the result is the envelope of the exchange |
| `Api.ApiService.Login` | services/api.ts:85-107 | the request is `POST` to base URL plus `/auth/login` with the credentials as body; the result is `LoginResult`; the store may change only by writing `auth_token`, and only when the request succeeded with a non-empty `access_token`, which on a reliable store always writes it; otherwise it is untouched |
| `Api.ApiService.Logout` | services/api.ts:109-118 | the request is a body-less `POST` to base URL plus `/auth/logout`; whatever the server answered, `auth_token` is removed unless the removal itself is rejected (never on a reliable store), and nothing else changes |
| `Api.ApiService.SaveOfflineData` | services/api.ts:259-269 | `offline_<key>` holds `{data, timestamp: now}` afterwards, or (write rejected) the store is unchanged; a reliable store always takes the write |
| `Api.ApiService.GetOfflineData` | services/api.ts:271-292 | the result is `CachedData` of the store, or `None` when the read fails; on a reliable store exactly `CachedData`; the store is never modified, so expired entries stay in place |

## Left out

- Network I/O: `fetch` and `response.json()` are not modelled. Their outcome is the `Exchange` value passed to `Request`, `Login` and `Logout`.
- The parsed login body is assumed to have the declared shape `{user, access_token}`. A successful response whose body is `null` would make the source's `login` throw when it reads `response.data.access_token`; the model does not capture that throw.
- `uploadEvidence`: the multipart `FormData` upload is foreign I/O.
- `checkConnection`: its `AbortController` and `setTimeout` are timing and concurrency plumbing.
- The other single-request operations (`getProfile`, `getRoutes`, `getRouteDetails`, `startRoute`, `finishRoute`, `getDeliveryDetails`, `updateDelivery`, `getHistory`, `getEarnings`, `registerPushToken`, `updateNotificationSettings`) have no method of their own. Each one is its `Endpoint` and `Options` passed to `ApiService.Request`.
- JSON serialisation: stored values and request bodies are the records themselves. In `checkStoredUser`, a `JSON.parse` failure ends in the same state as a failed read, and it is modelled that way.
- AuthContext.AuthProvider.CheckStoredUser: the `if (storedUser)` falsiness test is not modelled separately. A stored record is never an empty string.
- Api.ApiService.GetAuthToken: requires the invariant `Valid()` (`auth_token` holds a raw string). Only `setAuthToken` writes that key, so the invariant always holds in the source.
- Navigation: `router.replace` is recorded only as a `Destination` tag.
- The React context and provider machinery and `useAuth`'s error outside a provider are UI framework code.
- Async interleaving is not modelled: each handler runs as one atomic step. React's batching of state updates is not modelled either.
- Logging (`console.*`), the `useApi` bind wrappers and the singleton `api` instance are not modelled.
- `API_CONFIG.timeout` is never passed to `fetch`. `config/apiConfig.ts` only chooses constants from environment variables, so it is not modelled.
- Money: `value` and `totalValue` are floating-point amounts. They are kept as opaque `real` fields and nothing computes with them.
- Ids and HTTP status codes are integers. Rendering non-integral JavaScript numbers in template strings is not modelled.
- Strings.IntToString: the rendering is plain decimal for every integer. JavaScript switches to exponent notation from 1e21 on (`1e+21`), and above 2^53 distinct integers share one double, so the rendering agrees with `${n}` only for magnitudes below 1e21. No id or status code of the app comes near that bound.
- The CNPJ display mask function and the success-rate percentage live in screen files outside this core.
