/** The request gateway (src/api/client.ts): the fixed table from API calls to HTTP
    method, path and body, the default headers, and the request interceptor that adds
    the stored admin key. */
module ApiClient {
  import opened Basics
  import opened ApiTypes

  datatype HttpMethod = GET | POST | PUT | DELETE

  /** The JSON body of a request. */
  datatype Body = NoBody | SettingsBody(changes: Delta) | AccountBodyOf(account: AccountBody)

  type Headers = map<string, string>

  /** A request configuration as the interceptor sees it. */
  datatype Request = Request(verb: HttpMethod, path: string, headers: Headers, body: Body)

  const ContentTypeHeader: string := "Content-Type"
  const JsonContentType: string := "application/json"
  const ApiKeyHeader: string := "X-API-Key"

  /** The headers the axios instance puts on every request. */
  const DefaultHeaders: Headers := map[ContentTypeHeader := JsonContentType]

  /** The calls exposed by `accountsApi`, `settingsApi`, `healthApi` and `statisticsApi`. */
  datatype Call =
    | ListAccounts
    | GetAccount(uuid: string)
    | CreateAccount(account: AccountBody)
    | UpdateAccount(uuid: string, account: AccountBody)
    | DeleteAccount(uuid: string)
    | GetSettings
    | UpdateSettings(changes: Delta)
    | CheckHealth
    | GetStatistics

  const AccountsPath: string := "/admin/accounts"
  const AccountPrefix: string := "/admin/accounts/"
  const SettingsPath: string := "/admin/settings"
  const HealthPath: string := "/health"
  const StatisticsPath: string := "/admin/statistics"

  /** `/admin/accounts/${uuid}`: the uuid is appended as it is, without escaping. */
  function AccountPath(uuid: string): (p: string)
    ensures |p| == |AccountPrefix| + |uuid|
    ensures p[..|AccountPrefix|] == AccountPrefix && p[|AccountPrefix|..] == uuid
  {
    AccountPrefix + uuid
  }

  /** The request each call issues before interception. */
  function Route(c: Call): (r: Request)
    ensures r.headers == DefaultHeaders
    ensures ApiKeyHeader !in r.headers
  {
    match c
    case ListAccounts => Request(GET, AccountsPath, DefaultHeaders, NoBody)
    case GetAccount(uuid) => Request(GET, AccountPath(uuid), DefaultHeaders, NoBody)
    case CreateAccount(account) => Request(POST, AccountsPath, DefaultHeaders, AccountBodyOf(account))
    case UpdateAccount(uuid, account) => Request(PUT, AccountPath(uuid), DefaultHeaders, AccountBodyOf(account))
    case DeleteAccount(uuid) => Request(DELETE, AccountPath(uuid), DefaultHeaders, NoBody)
    case GetSettings => Request(GET, SettingsPath, DefaultHeaders, NoBody)
    case UpdateSettings(changes) => Request(PUT, SettingsPath, DefaultHeaders, SettingsBody(changes))
    case CheckHealth => Request(GET, HealthPath, DefaultHeaders, NoBody)
    case GetStatistics => Request(GET, StatisticsPath, DefaultHeaders, NoBody)
  }

  /** The route table: the collection path for listing and creating accounts, the
      account's own path for reading, updating and deleting one, and the settings path
      for reading and updating settings, where the update is the body as it is. */
  lemma RouteTable(uuid: string, account: AccountBody, changes: Delta)
    ensures Route(ListAccounts).verb == GET && Route(ListAccounts).path == "/admin/accounts"
    ensures Route(CreateAccount(account)) == Request(POST, "/admin/accounts", DefaultHeaders, AccountBodyOf(account))
    ensures Route(GetAccount(uuid)).verb == GET && Route(GetAccount(uuid)).path == "/admin/accounts/" + uuid
    ensures Route(UpdateAccount(uuid, account)) ==
            Request(PUT, "/admin/accounts/" + uuid, DefaultHeaders, AccountBodyOf(account))
    ensures Route(DeleteAccount(uuid)).verb == DELETE && Route(DeleteAccount(uuid)).path == "/admin/accounts/" + uuid
    ensures Route(GetSettings).verb == GET && Route(GetSettings).path == "/admin/settings"
    ensures Route(UpdateSettings(changes)) == Request(PUT, "/admin/settings", DefaultHeaders, SettingsBody(changes))
    ensures Route(CheckHealth).verb == GET && Route(CheckHealth).path == "/health"
    ensures Route(GetStatistics).verb == GET && Route(GetStatistics).path == "/admin/statistics"
  {
  }

  /** The account uuid a path names, as the service reads it back. */
  function AccountIdOf(path: string): (r: Option<string>)
    ensures r.Some? <==> |path| >= |AccountPrefix| && path[..|AccountPrefix|] == AccountPrefix
    ensures r.Some? ==> path == AccountPrefix + r.value
  {
    if |path| >= |AccountPrefix| && path[..|AccountPrefix|] == AccountPrefix
    then Some(path[|AccountPrefix|..])
    else None
  }

  /** The service's reading of a request: which call it is, if any. */
  function Dispatch(r: Request): Option<Call> {
    match r.verb
    case GET =>
      if r.body != NoBody then None
      else if r.path == AccountsPath then Some(ListAccounts)
      else if r.path == SettingsPath then Some(GetSettings)
      else if r.path == HealthPath then Some(CheckHealth)
      else if r.path == StatisticsPath then Some(GetStatistics)
      else if AccountIdOf(r.path).Some? then Some(GetAccount(AccountIdOf(r.path).value))
      else None
    case POST =>
      if r.path == AccountsPath && r.body.AccountBodyOf? then Some(CreateAccount(r.body.account)) else None
    case PUT =>
      if r.path == SettingsPath && r.body.SettingsBody? then Some(UpdateSettings(r.body.changes))
      else if AccountIdOf(r.path).Some? && r.body.AccountBodyOf? then Some(UpdateAccount(AccountIdOf(r.path).value, r.body.account))
      else None
    case DELETE =>
      if r.body == NoBody && AccountIdOf(r.path).Some? then Some(DeleteAccount(AccountIdOf(r.path).value)) else None
  }

  /** None of the fixed paths is an account path. */
  lemma FixedPathsAreNotAccountPaths()
    ensures AccountIdOf(AccountsPath).None?
    ensures AccountIdOf(SettingsPath).None? && AccountIdOf(HealthPath).None? && AccountIdOf(StatisticsPath).None?
  {
    assert |AccountsPath| < |AccountPrefix|;
    assert SettingsPath[8] != AccountPrefix[8];
    assert |HealthPath| < |AccountPrefix|;
    assert StatisticsPath[7] != AccountPrefix[7];
  }

  /** The route table is unambiguous: from the method, path and body of a request the
      service recovers exactly the call that produced it, uuid and body included. */
  lemma DispatchRoute(c: Call)
    ensures Dispatch(Route(c)) == Some(c)
  {
    FixedPathsAreNotAccountPaths();
    match c
    case GetAccount(uuid) =>
      assert AccountIdOf(AccountPath(uuid)) == Some(uuid);
      assert AccountPath(uuid) != AccountsPath;
      assert AccountPath(uuid)[7] == AccountPrefix[7] == 'a';
    case UpdateAccount(uuid, _) =>
      assert AccountIdOf(AccountPath(uuid)) == Some(uuid);
      assert AccountPath(uuid)[7] == AccountPrefix[7] == 'a';
    case DeleteAccount(uuid) =>
      assert AccountIdOf(AccountPath(uuid)) == Some(uuid);
    case _ =>
  }

  /** Two different calls never produce the same request. */
  lemma RouteInjective(c1: Call, c2: Call)
    requires Route(c1) == Route(c2)
    ensures c1 == c2
  {
    DispatchRoute(c1);
    DispatchRoute(c2);
  }

  /** `if (adminKey)`: a stored key counts only when it is present and non-empty. */
  predicate HasUsableKey(stored: Option<string>) {
    stored.Some? && stored.value != ""
  }

  /** The request interceptor: sets `X-API-Key` to the stored key when there is a
      non-empty one and otherwise returns the configuration as it came. The store is
      only an input here; nothing is written back to it. */
  function Intercept(config: Request, stored: Option<string>): (r: Request)
    ensures r.verb == config.verb && r.path == config.path && r.body == config.body
    ensures forall h :: h != ApiKeyHeader ==> (h in r.headers <==> h in config.headers)
    ensures forall h :: h != ApiKeyHeader && h in config.headers ==> r.headers[h] == config.headers[h]
    ensures HasUsableKey(stored) ==> ApiKeyHeader in r.headers && r.headers[ApiKeyHeader] == stored.value
    ensures !HasUsableKey(stored) ==> r == config
  {
    if HasUsableKey(stored) then config.(headers := config.headers[ApiKeyHeader := stored.value])
    else config
  }

  /** What actually goes out for a call, given the stored key: the call's route, with
      `X-API-Key` added exactly when a non-empty key is stored. */
  function Send(c: Call, stored: Option<string>): (r: Request)
    ensures r.verb == Route(c).verb && r.path == Route(c).path && r.body == Route(c).body
    ensures ApiKeyHeader in r.headers <==> HasUsableKey(stored)
    ensures HasUsableKey(stored) ==> r.headers[ApiKeyHeader] == stored.value
  {
    Intercept(Route(c), stored)
  }

  /** Every request carries `Content-Type: application/json`, carries `X-API-Key`
      exactly when a non-empty key is stored (with that key as its value), and goes
      to the route of its call. */
  lemma SentRequest(c: Call, stored: Option<string>)
    ensures ContentTypeHeader in Send(c, stored).headers && Send(c, stored).headers[ContentTypeHeader] == JsonContentType
    ensures ApiKeyHeader in Send(c, stored).headers <==> HasUsableKey(stored)
    ensures HasUsableKey(stored) ==> Send(c, stored).headers[ApiKeyHeader] == stored.value
    ensures Dispatch(Send(c, stored)) == Some(c)
  {
    DispatchRoute(c);
  }
}
