/**
 * The storage- and string-level slice of the REST client `ApiService`
 * (services/api.ts). `fetch` and `response.json()` become an `Exchange` value
 * the caller supplies, and `Date.now()` becomes a `now` parameter in
 * milliseconds.
 */
module Api {
  import opened Wrappers
  import opened Strings
  import opened Types
  import opened Storage
  import opened Seqs

  const DevBaseUrl := "http://localhost:3000"
  const ProdBaseUrl := "https://api.deliveryapp.com"

  /** Prefix of every offline-cache key. */
  const OfflinePrefix := "offline_"

  /** Offline entries are valid for 24 hours, in milliseconds. */
  const OfflineTtl := 24 * 60 * 60 * 1000

  // ---------------------------------------------------------------------------
  // Request configuration

  /** A header object, keyed by header name. */
  type Headers = map<string, string>

  /** The request bodies the client sends (the values before `JSON.stringify`). */
  datatype Payload =
    | CredentialsBody(credentials: LoginCredentials)
    | DeliveryUpdateBody(status: Option<string>, driverNotes: Option<string>)
    | PushTokenBody(pushToken: string)
    | SettingsBody(settings: NotificationSettings)

  /** The `RequestInit` a caller passes; `None` stands for an absent property. */
  datatype RequestOptions = RequestOptions(httpMethod: Option<string>, body: Option<Payload>, headers: Option<Headers>)

  /** The `RequestInit` handed to `fetch`. */
  datatype RequestConfig = RequestConfig(httpMethod: Option<string>, body: Option<Payload>, headers: Headers)

  /**
   * `{ headers: { 'Content-Type': ..., ...(token && { Authorization }), ...options.headers }, ...options }`.
   * Because `...options` comes last, caller headers replace the composed object whole.
   */
  function ComposeHeaders(token: Option<string>, callerHeaders: Option<Headers>): (h: Headers)
    ensures callerHeaders.Some? ==> h == callerHeaders.value
    ensures callerHeaders.None? ==> "Content-Type" in h && h["Content-Type"] == "application/json"
    ensures callerHeaders.None? ==> ("Authorization" in h <==> token.Some? && token.value != "")
    ensures callerHeaders.None? && "Authorization" in h ==> h["Authorization"] == "Bearer " + token.value
    ensures callerHeaders.None? ==> h.Keys <= {"Content-Type", "Authorization"}
  {
    if callerHeaders.Some? then callerHeaders.value
    else
      var base := map["Content-Type" := "application/json"];
      if token.Some? && token.value != "" then base["Authorization" := "Bearer " + token.value] else base
  }

  // ---------------------------------------------------------------------------
  // Result envelope

  /** A thrown value: an `Error` with its message, or anything else. */
  datatype Thrown = ErrorValue(message: string) | NonErrorValue

  /** What `response.json()` gives: the parsed body, or the error it rejects with. */
  datatype Body<T> = Parsed(value: T) | Unparsable(error: Thrown)

  /** What `fetch` gives: a response, or the error it rejects with. */
  datatype Exchange<T> =
    | Responded(ok: bool, status: int, statusText: string, body: Body<T>)
    | FetchFailed(error: Thrown)

  /** `{ data, success, message? }`; `data` is `None` for the source's `null`. */
  datatype ApiResult<T> = ApiResult(data: Option<T>, success: bool, message: Option<string>)

  /** `error instanceof Error ? error.message : 'Erro desconhecido'`. */
  function ErrorMessage(e: Thrown): (m: string)
    ensures e.ErrorValue? ==> m == e.message
    ensures e.NonErrorValue? ==> m == "Erro desconhecido"
  {
    match e
    case ErrorValue(message) => message
    case NonErrorValue => "Erro desconhecido"
  }

  /** The message of the error thrown for a non-ok response. */
  function HttpErrorMessage(status: int, statusText: string): (m: string)
    ensures |m| >= 8 + |statusText| && m[..5] == "HTTP " && m[|m| - |statusText|..] == statusText
  {
    "HTTP " + IntToString(status) + ": " + statusText
  }

  /** The envelope `request` returns for a given exchange. */
  function Envelope<T>(ex: Exchange<T>): (r: ApiResult<T>)
    ensures r.success <==> ex.Responded? && ex.ok && ex.body.Parsed?
    ensures r.success ==> r.data == Some(ex.body.value) && r.message.None?
    ensures !r.success ==> r.data.None? && r.message.Some?
    ensures ex.Responded? && !ex.ok ==> r.message == Some(HttpErrorMessage(ex.status, ex.statusText))
    ensures ex.Responded? && ex.ok && ex.body.Unparsable? ==> r.message == Some(ErrorMessage(ex.body.error))
    ensures ex.FetchFailed? ==> r.message == Some(ErrorMessage(ex.error))
  {
    match ex
    case FetchFailed(e) => ApiResult(None, false, Some(ErrorMessage(e)))
    case Responded(ok, status, statusText, body) =>
      if !ok then ApiResult(None, false, Some(HttpErrorMessage(status, statusText)))
      else match body
        case Unparsable(e) => ApiResult(None, false, Some(ErrorMessage(e)))
        case Parsed(data) => ApiResult(Some(data), true, None)
  }

  /** The status code can be read back from an HTTP error message. */
  lemma HttpErrorMessageInjective(s1: int, t1: string, s2: int, t2: string)
    requires HttpErrorMessage(s1, t1) == HttpErrorMessage(s2, t2)
    ensures s1 == s2 && t1 == t2
  {
    var x, y := IntToString(s1), IntToString(s2);
    var m := HttpErrorMessage(s1, t1);
    assert m == "HTTP " + (x + (": " + t1));
    assert m == "HTTP " + (y + (": " + t2));
    assert x + (": " + t1) == m[5..] == y + (": " + t2);
    SegmentInjective(s1, ": " + t1, s2, ": " + t2, ':');
    assert t1 == (": " + t1)[2..] == (": " + t2)[2..] == t2;
  }

  /**
   * An integer's digits followed by a suffix that is empty or starts with a
   * character no integer contains: the integer and the suffix are recovered.
   */
  lemma SegmentInjective(a: int, s1: string, b: int, s2: string, sep: char)
    requires NotInIntString(sep)
    requires s1 == [] || s1[0] == sep
    requires s2 == [] || s2[0] == sep
    requires IntToString(a) + s1 == IntToString(b) + s2
    ensures a == b && s1 == s2
  {
    var x, y := IntToString(a), IntToString(b);
    SegmentEnd(a, s1, sep);
    SegmentEnd(b, s2, sep);
    assert x == (x + s1)[..|x|] == (y + s2)[..|y|] == y;
    IntToStringInjective(a, b);
    assert s1 == (x + s1)[|x|..] == (y + s2)[|y|..] == s2;
  }

  /** A character that cannot occur in the string form of an integer. */
  predicate NotInIntString(c: char) {
    c != '-' && !IsDigit(c)
  }

  /** The first non-integer character after an integer's digits is where the digits end. */
  lemma SegmentEnd(a: int, s1: string, sep: char)
    requires NotInIntString(sep)
    requires s1 == [] || s1[0] == sep
    ensures FirstIndex(IntToString(a) + s1, NotInIntString) == |IntToString(a)|
  {
    var x := IntToString(a);
    assert |x| < |x + s1| ==> (x + s1)[|x|] == sep;
    assert forall k :: 0 <= k < |x| ==> (x + s1)[k] == x[k];
  }

  // ---------------------------------------------------------------------------
  // Endpoints

  datatype Period = Week | Month | All

  function PeriodName(p: Period): string {
    match p
    case Week => "week"
    case Month => "month"
    case All => "all"
  }

  /** `period ? \`?period=${period}\` : ''`. */
  function HistoryQuery(period: Option<Period>): (q: string)
    ensures period.None? <==> q == ""
  {
    if period.Some? then "?period=" + PeriodName(period.value) else ""
  }

  /** The operations of the client that are a single call of `request`. */
  datatype Call =
    | LoginCall(credentials: LoginCredentials)
    | LogoutCall
    | GetProfile
    | GetRoutes
    | GetRouteDetails(routeId: int)
    | StartRoute(routeId: int)
    | FinishRoute(routeId: int)
    | GetDeliveryDetails(deliveryId: int)
    | UpdateDelivery(deliveryId: int, status: Option<string>, driverNotes: Option<string>)
    | GetHistory(period: Option<Period>)
    | GetEarnings
    | RegisterPushToken(pushToken: string)
    | UpdateNotificationSettings(settings: NotificationSettings)

  /** The endpoint each operation requests, appended to the base URL. */
  function Endpoint(c: Call): (e: string)
    ensures |e| > 1 && e[0] == '/'
  {
    match c
    case LoginCall(_) => "/auth/login"
    case LogoutCall => "/auth/logout"
    case GetProfile => "/auth/profile"
    case GetRoutes => "/routes"
    case GetRouteDetails(id) => "/routes/" + IntToString(id)
    case StartRoute(id) => "/routes/" + IntToString(id) + "/start"
    case FinishRoute(id) => "/routes/" + IntToString(id) + "/finish"
    case GetDeliveryDetails(id) => "/deliveries/" + IntToString(id)
    case UpdateDelivery(id, _, _) => "/deliveries/" + IntToString(id)
    case GetHistory(period) => "/history" + HistoryQuery(period)
    case GetEarnings => "/earnings"
    case RegisterPushToken(_) => "/notifications/register"
    case UpdateNotificationSettings(_) => "/notifications/settings"
  }

  /** The options each operation passes to `request`; none of them passes headers. */
  function Options(c: Call): (o: RequestOptions)
    ensures o.headers.None?
  {
    match c
    case LoginCall(credentials) => RequestOptions(Some("POST"), Some(CredentialsBody(credentials)), None)
    case LogoutCall => RequestOptions(Some("POST"), None, None)
    case StartRoute(_) => RequestOptions(Some("PUT"), None, None)
    case FinishRoute(_) => RequestOptions(Some("PUT"), None, None)
    case UpdateDelivery(_, status, driverNotes) =>
      RequestOptions(Some("PUT"), Some(DeliveryUpdateBody(status, driverNotes)), None)
    case RegisterPushToken(token) => RequestOptions(Some("POST"), Some(PushTokenBody(token)), None)
    case UpdateNotificationSettings(settings) => RequestOptions(Some("PUT"), Some(SettingsBody(settings)), None)
    case _ => RequestOptions(None, None, None)
  }

  /** The history endpoint carries a query exactly when a period is given, and it names that period. */
  lemma HistoryEndpointShape(period: Option<Period>)
    ensures Endpoint(GetHistory(period))[..8] == "/history"
    ensures period.None? ==> Endpoint(GetHistory(period)) == "/history"
    ensures period.Some? ==> Endpoint(GetHistory(period))[8..] == "?period=" + PeriodName(period.value)
  {
  }

  /** Distinct periods request distinct history endpoints. */
  lemma HistoryEndpointInjective(p1: Option<Period>, p2: Option<Period>)
    requires Endpoint(GetHistory(p1)) == Endpoint(GetHistory(p2))
    ensures p1 == p2
  {
    var q1, q2 := HistoryQuery(p1), HistoryQuery(p2);
    assert q1 == Endpoint(GetHistory(p1))[8..] == Endpoint(GetHistory(p2))[8..] == q2;
    if p1.Some? && p2.Some? {
      assert PeriodName(p1.value) == q1[8..] == q2[8..] == PeriodName(p2.value);
    }
  }

  /** Reading and updating a delivery both address `/deliveries/<id>`. */
  lemma DeliveryEndpointShape(id: int, status: Option<string>, driverNotes: Option<string>)
    ensures Endpoint(GetDeliveryDetails(id)) == Endpoint(UpdateDelivery(id, status, driverNotes)) ==
            "/deliveries/" + IntToString(id)
  {
  }

  /** The operations addressed by an id in their path. */
  predicate IdAddressed(c: Call) {
    c.GetRouteDetails? || c.StartRoute? || c.FinishRoute? || c.GetDeliveryDetails?
  }

  /** Id-addressed operations never share an endpoint unless they are the same operation on the same id. */
  lemma IdEndpointsInjective(c1: Call, c2: Call)
    requires IdAddressed(c1) && IdAddressed(c2)
    requires Endpoint(c1) == Endpoint(c2)
    ensures c1 == c2
  {
    var e := Endpoint(c1);
    if c1.GetDeliveryDetails? || c2.GetDeliveryDetails? {
      assert e[1] == (if c1.GetDeliveryDetails? then 'd' else 'r');
      assert e[1] == (if c2.GetDeliveryDetails? then 'd' else 'r');
      assert c1.GetDeliveryDetails? && c2.GetDeliveryDetails?;
      assert e == "/deliveries/" + IntToString(c1.deliveryId);
      assert e == "/deliveries/" + IntToString(c2.deliveryId);
      assert e[12..] == IntToString(c1.deliveryId) == IntToString(c2.deliveryId);
      IntToStringInjective(c1.deliveryId, c2.deliveryId);
    } else {
      var x := IntToString(c1.routeId);
      var y := IntToString(c2.routeId);
      var s1 := RouteSuffix(c1);
      var s2 := RouteSuffix(c2);
      assert e == "/routes/" + (x + s1);
      assert e == "/routes/" + (y + s2);
      assert x + s1 == e[8..] == y + s2;
      SegmentInjective(c1.routeId, s1, c2.routeId, s2, '/');
      assert s1 == s2;
    }
  }

  /** What follows the id in a route endpoint. */
  function RouteSuffix(c: Call): (s: string)
    requires c.GetRouteDetails? || c.StartRoute? || c.FinishRoute?
    ensures s == [] || s[0] == '/'
    ensures c.GetRouteDetails? <==> s == []
    ensures Endpoint(c) == "/routes/" + (IntToString(c.routeId) + s)
  {
    match c
    case GetRouteDetails(_) => ""
    case StartRoute(_) => "/start"
    case FinishRoute(_) => "/finish"
  }

  // ---------------------------------------------------------------------------
  // Offline cache and token store

  /** `\`offline_${key}\``. */
  function OfflineKey(key: string): (k: string)
    ensures |k| == |OfflinePrefix| + |key|
    ensures k[..|OfflinePrefix|] == OfflinePrefix && k[|OfflinePrefix|..] == key
  {
    OfflinePrefix + key
  }

  /** Distinct cache keys never share a storage key. */
  lemma OfflineKeyInjective(a: string, b: string)
    requires OfflineKey(a) == OfflineKey(b)
    ensures a == b
  {
    assert a == OfflineKey(a)[|OfflinePrefix|..] == OfflineKey(b)[|OfflinePrefix|..] == b;
  }

  /** A cache key never lands on the token key, nor on the session key `"user"` of the auth context. */
  lemma OfflineKeyIsNotReserved(key: string)
    ensures OfflineKey(key) != TokenKey
    ensures OfflineKey(key) != UserKey
  {
    assert OfflineKey(key)[0] == 'o';
  }

  /** A stored value as the client sees it after `JSON.parse`. */
  datatype Entry<D> =
    | Text(text: string)                  // the raw token string
    | Offline(data: D, timestamp: int)    // `{ data, timestamp }` of the offline cache
    | Malformed                           // a value `JSON.parse` rejects

  /** The token the store holds, if any. */
  function StoredToken<D>(items: map<string, Entry<D>>): (t: Option<string>)
    ensures t.Some? <==> TokenKey in items && items[TokenKey].Text?
    ensures t.Some? ==> items[TokenKey] == Text(t.value)
  {
    if TokenKey in items && items[TokenKey].Text? then Some(items[TokenKey].text) else None
  }

  /** `Date.now() - timestamp < 24 * 60 * 60 * 1000`. */
  predicate StillValid(timestamp: int, now: int) {
    now - timestamp < OfflineTtl
  }

  /** What `getOfflineData(key)` returns at time `now` when the read succeeds. */
  function CachedData<D>(items: map<string, Entry<D>>, key: string, now: int): (r: Option<D>)
    ensures r.Some? <==> OfflineKey(key) in items && items[OfflineKey(key)].Offline? &&
                         StillValid(items[OfflineKey(key)].timestamp, now)
    ensures r.Some? ==> r.value == items[OfflineKey(key)].data
  {
    var stored := Lookup(items, OfflineKey(key));
    if stored.Some? && stored.value.Offline? && StillValid(stored.value.timestamp, now)
    then Some(stored.value.data)
    else None
  }

  /** A save followed, within 24 hours, by a read of the same key gives the saved data back. */
  lemma SaveThenGet<D>(items: map<string, Entry<D>>, key: string, data: D, savedAt: int, now: int)
    requires now - savedAt < OfflineTtl
    ensures CachedData(items[OfflineKey(key) := Offline(data, savedAt)], key, now) == Some(data)
  {
  }

  /** An entry exactly 24 hours old, or older, is no longer returned. */
  lemma ExpiresAfter24Hours<D>(items: map<string, Entry<D>>, key: string, data: D, savedAt: int, now: int)
    requires now - savedAt >= OfflineTtl
    ensures CachedData(items[OfflineKey(key) := Offline(data, savedAt)], key, now).None?
  {
  }

  /** A second save of a key replaces the first. */
  lemma SecondSaveOverwrites<D>(items: map<string, Entry<D>>, key: string, d1: D, t1: int, d2: D, t2: int, now: int)
    ensures CachedData(items[OfflineKey(key) := Offline(d1, t1)][OfflineKey(key) := Offline(d2, t2)], key, now) ==
            CachedData(items[OfflineKey(key) := Offline(d2, t2)], key, now)
  {
    assert items[OfflineKey(key) := Offline(d1, t1)][OfflineKey(key) := Offline(d2, t2)] ==
           items[OfflineKey(key) := Offline(d2, t2)];
  }

  /** A save under one key does not change what another key reads. */
  lemma SavesDoNotInterfere<D>(items: map<string, Entry<D>>, key: string, other: string, data: D, savedAt: int, now: int)
    requires key != other
    ensures CachedData(items[OfflineKey(key) := Offline(data, savedAt)], other, now) == CachedData(items, other, now)
  {
    if OfflineKey(key) == OfflineKey(other) {
      OfflineKeyInjective(key, other);
    }
  }

  /** Writing or removing the token never changes what the offline cache reads. */
  lemma TokenDoesNotTouchCache<D>(items: map<string, Entry<D>>, token: string, key: string, now: int)
    ensures CachedData(items[TokenKey := Text(token)], key, now) == CachedData(items, key, now)
    ensures CachedData(items - {TokenKey}, key, now) == CachedData(items, key, now)
  {
    OfflineKeyIsNotReserved(key);
  }

  // ---------------------------------------------------------------------------
  // The client

  /** What the login endpoint answers. */
  datatype LoginBody = LoginBody(user: User, accessToken: string)

  /**
   * The data of `login`'s result: `{ user, token }` once a token was issued, or
   * the response body passed through unchanged (`return response as any`).
   */
  datatype LoginData = Session(user: User, token: string) | AsReceived(body: LoginBody)

  /** `response.success && response.data.access_token`. */
  predicate IssuesToken(reply: Exchange<LoginBody>) {
    Envelope(reply).success && Envelope(reply).data.value.accessToken != ""
  }

  /** The envelope `login` returns for a given exchange. */
  function LoginResult(reply: Exchange<LoginBody>): (r: ApiResult<LoginData>)
    ensures IssuesToken(reply) ==>
              r == ApiResult(Some(Session(reply.body.value.user, reply.body.value.accessToken)), true, None)
    ensures !IssuesToken(reply) ==>
              r.success == Envelope(reply).success && r.message == Envelope(reply).message &&
              (r.data.Some? <==> Envelope(reply).data.Some?) &&
              (r.data.Some? ==> r.data.value == AsReceived(Envelope(reply).data.value))
  {
    var response := Envelope(reply);
    if IssuesToken(reply) then
      ApiResult(Some(Session(response.data.value.user, response.data.value.accessToken)), true, None)
    else
      ApiResult(if response.data.Some? then Some(AsReceived(response.data.value)) else None,
                response.success, response.message)
  }

  class ApiService<D> {
    const baseURL: string
    const storage: KeyValueStore<Entry<D>>

    /** Only `setAuthToken` writes `"auth_token"`, and it writes a raw string. */
    ghost predicate Valid()
      reads this, storage
    {
      TokenKey in storage.items ==> storage.items[TokenKey].Text?
    }

    /** `new ApiService()`: the base URL is chosen by the build flavour (`__DEV__`). */
    constructor (dev: bool, storage: KeyValueStore<Entry<D>>)
      requires TokenKey in storage.items ==> storage.items[TokenKey].Text?
      ensures Valid()
      ensures baseURL == (if dev then DevBaseUrl else ProdBaseUrl) && this.storage == storage
    {
      baseURL := if dev then DevBaseUrl else ProdBaseUrl;
      this.storage := storage;
    }

    /** `getAuthToken`: the stored token, or `None` when there is none or the read fails. */
    method GetAuthToken() returns (token: Option<string>)
      requires Valid()
      ensures token.None? || token == StoredToken(storage.items)
      ensures StoredToken(storage.items).None? ==> token.None?
      ensures storage.reliable ==> token == StoredToken(storage.items)
    {
      var stored := storage.GetItem(TokenKey);
      if stored.Found? {
        token := Some(stored.value.text);
      } else {
        token := None;
      }
    }

    /** `setAuthToken`: a failed write is swallowed. */
    method SetAuthToken(token: string)
      requires Valid()
      modifies storage
      ensures Valid()
      ensures storage.items == old(storage.items)[TokenKey := Text(token)] || storage.items == old(storage.items)
      ensures storage.reliable ==> storage.items == old(storage.items)[TokenKey := Text(token)]
    {
      var _ := storage.SetItem(TokenKey, Text(token));
    }

    /** `removeAuthToken`: a failed removal is swallowed. */
    method RemoveAuthToken()
      requires Valid()
      modifies storage
      ensures Valid()
      ensures storage.items == old(storage.items) - {TokenKey} || storage.items == old(storage.items)
      ensures storage.reliable ==> storage.items == old(storage.items) - {TokenKey}
    {
      var _ := storage.RemoveItem(TokenKey);
    }

    /**
     * `request(endpoint, options)`: the URL and configuration handed to `fetch`,
     * and the envelope built from what `fetch` gave back.
     */
    method Request<T>(endpoint: string, options: RequestOptions, reply: Exchange<T>)
      returns (url: string, config: RequestConfig, result: ApiResult<T>)
      requires Valid()
      ensures url == baseURL + endpoint
      ensures config.httpMethod == options.httpMethod && config.body == options.body
      ensures config.headers == ComposeHeaders(StoredToken(storage.items), options.headers) ||
              config.headers == ComposeHeaders(None, options.headers)
      ensures storage.reliable ==> config.headers == ComposeHeaders(StoredToken(storage.items), options.headers)
      ensures result == Envelope(reply)
    {
      var token := GetAuthToken();
      config := RequestConfig(options.httpMethod, options.body, ComposeHeaders(token, options.headers));
      url := baseURL + endpoint;
      result := Envelope(reply);
    }

    /**
     * `login`: `POST /auth/login` with the credentials; the token is written
     * exactly when the request succeeded with a non-empty `access_token`;
     * otherwise the store is untouched.
     */
    method Login(credentials: LoginCredentials, reply: Exchange<LoginBody>)
      returns (url: string, config: RequestConfig, result: ApiResult<LoginData>)
      requires Valid()
      modifies storage
      ensures Valid()
      ensures url == baseURL + "/auth/login"
      ensures config.httpMethod == Some("POST") && config.body == Some(CredentialsBody(credentials))
      ensures result == LoginResult(reply)
      ensures IssuesToken(reply) ==>
                storage.items == old(storage.items)[TokenKey := Text(reply.body.value.accessToken)] ||
                storage.items == old(storage.items)
      ensures !IssuesToken(reply) ==> storage.items == old(storage.items)
      ensures storage.reliable && IssuesToken(reply) ==>
                storage.items == old(storage.items)[TokenKey := Text(reply.body.value.accessToken)]
    {
      var c := LoginCall(credentials);
      var response;
      url, config, response := Request(Endpoint(c), Options(c), reply);
      if response.success && response.data.value.accessToken != "" {
        SetAuthToken(response.data.value.accessToken);
        result := ApiResult(Some(Session(response.data.value.user, response.data.value.accessToken)), true, None);
        return;
      }
      result := LoginResult(reply);
    }

    /**
     * `logout`: `POST /auth/logout` is sent, and the token is removed whatever
     * the server answered.
     */
    method Logout<T>(reply: Exchange<T>) returns (url: string, config: RequestConfig)
      requires Valid()
      modifies storage
      ensures Valid()
      ensures url == baseURL + "/auth/logout" && config.httpMethod == Some("POST") && config.body.None?
      ensures storage.items == old(storage.items) - {TokenKey} || storage.items == old(storage.items)
      ensures storage.reliable ==> storage.items == old(storage.items) - {TokenKey}
    {
      var response;
      url, config, response := Request(Endpoint(LogoutCall), Options(LogoutCall), reply);
      RemoveAuthToken();
    }

    /** `saveOfflineData(key, data)` at time `now`: a failed write is swallowed. */
    method SaveOfflineData(key: string, data: D, now: int)
      requires Valid()
      modifies storage
      ensures Valid()
      ensures storage.items == old(storage.items)[OfflineKey(key) := Offline(data, now)] ||
              storage.items == old(storage.items)
      ensures storage.reliable ==> storage.items == old(storage.items)[OfflineKey(key) := Offline(data, now)]
    {
      OfflineKeyIsNotReserved(key);
      var _ := storage.SetItem(OfflineKey(key), Offline(data, now));
    }

    /** `getOfflineData(key)` at time `now`: the cached data, or `None`; expired entries stay in place. */
    method GetOfflineData(key: string, now: int) returns (r: Option<D>)
      ensures r.None? || r == CachedData(storage.items, key, now)
      ensures CachedData(storage.items, key, now).None? ==> r.None?
      ensures storage.reliable ==> r == CachedData(storage.items, key, now)
    {
      var stored := storage.GetItem(OfflineKey(key));
      if stored.Found? && stored.value.Offline? && StillValid(stored.value.timestamp, now) {
        r := Some(stored.value.data);
      } else {
        r := None;
      }
    }
  }
}
