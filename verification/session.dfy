/** The session credential: the login form stores the entered admin key, probes the
    service with it and forgets it again when the probe fails (src/pages/Login.tsx);
    logging out forgets it (src/components/Layout.tsx). Every request reads the key
    through the interceptor of the request gateway. */
module Session {
  import opened Basics
  import ApiClient

  /** The `adminKey` entry of the browser's storage, if any. */
  type Store = Option<string>

  const InvalidKeyMessage: string := "Admin Key 无效或服务器连接失败"
  const HomePath: string := "/"
  const LoginPath: string := "/login"

  /** The login page's state together with the credential store and the current route. */
  datatype Login = Login(input: string, error: string, loading: bool, store: Store, location: string)

  /** One observable step of a submission, in program order. */
  datatype Effect =
    | SetError(message: string)
    | SetLoading(on: bool)
    | StoreKey(key: string)
    | ClearKey
    | SendProbe(request: ApiClient.Request)
    | Navigate(path: string)

  /** The state after one effect. */
  function Perform(s: Login, e: Effect): Login {
    match e
    case SetError(m) => s.(error := m)
    case SetLoading(on) => s.(loading := on)
    case StoreKey(k) => s.(store := Some(k))
    case ClearKey => s.(store := None)
    case SendProbe(_) => s
    case Navigate(path) => s.(location := path)
  }

  /** The state after a sequence of effects. */
  function Run(s: Login, effects: seq<Effect>): Login
    decreases |effects|
  {
    if |effects| == 0 then s else Run(Perform(s, effects[0]), effects[1..])
  }

  /** Running a trace that starts with `e` performs `e` first. */
  lemma RunCons(s: Login, e: Effect, rest: seq<Effect>)
    ensures Run(s, [e] + rest) == Run(Perform(s, e), rest)
  {
    assert ([e] + rest)[1..] == rest;
  }

  /** The probe sent for a key: `GET /admin/statistics` as the interceptor prepares it
      once the key is in the store. */
  function ProbeFor(key: string): ApiClient.Request {
    ApiClient.Send(ApiClient.GetStatistics, Some(key))
  }

  /** The effects of `handleSubmit` when the probe succeeds or fails. */
  function SubmitEffects(key: string, probeSucceeds: bool): seq<Effect> {
    [SetError(""), SetLoading(true), StoreKey(key), SendProbe(ProbeFor(key))]
    + (if probeSucceeds then [Navigate(HomePath)] else [SetError(InvalidKeyMessage), ClearKey])
    + [SetLoading(false)]
  }

  /** The state a submission ends in, performed effect by effect. */
  lemma RunSubmit(s: Login, probeSucceeds: bool)
    ensures Run(s, SubmitEffects(s.input, probeSucceeds)) ==
            if probeSucceeds then s.(error := "", loading := false, store := Some(s.input), location := HomePath)
            else s.(error := InvalidKeyMessage, loading := false, store := None)
  {
    var key := s.input;
    var tail := if probeSucceeds then [Navigate(HomePath), SetLoading(false)]
                else [SetError(InvalidKeyMessage), ClearKey, SetLoading(false)];
    var es := SubmitEffects(key, probeSucceeds);
    assert es == [SetError("")] + ([SetLoading(true)] + ([StoreKey(key)] + ([SendProbe(ProbeFor(key))] + tail)));
    RunCons(s, SetError(""), [SetLoading(true)] + ([StoreKey(key)] + ([SendProbe(ProbeFor(key))] + tail)));
    var s1 := s.(error := "");
    RunCons(s1, SetLoading(true), [StoreKey(key)] + ([SendProbe(ProbeFor(key))] + tail));
    var s2 := s1.(loading := true);
    RunCons(s2, StoreKey(key), [SendProbe(ProbeFor(key))] + tail);
    var s3 := s2.(store := Some(key));
    RunCons(s3, SendProbe(ProbeFor(key)), tail);
    if probeSucceeds {
      RunCons(s3, Navigate(HomePath), [SetLoading(false)]);
      RunCons(s3.(location := HomePath), SetLoading(false), []);
    } else {
      RunCons(s3, SetError(InvalidKeyMessage), [ClearKey, SetLoading(false)]);
      var s4 := s3.(error := InvalidKeyMessage);
      RunCons(s4, ClearKey, [SetLoading(false)]);
      RunCons(s4.(store := None), SetLoading(false), []);
    }
  }

  /** `handleSubmit`, with the probe's outcome as a parameter. */
  function Submit(s: Login, probeSucceeds: bool): (r: Login)
    ensures !r.loading && r.input == s.input
    ensures probeSucceeds ==> r.store == Some(s.input) && r.location == HomePath && r.error == ""
    ensures !probeSucceeds ==> r.store.None? && r.location == s.location && r.error == InvalidKeyMessage
  {
    RunSubmit(s, probeSucceeds);
    Run(s, SubmitEffects(s.input, probeSucceeds))
  }

  /** The login page as it mounts: empty input, no error, not loading. */
  function Mounted(store: Store, location: string): (r: Login)
    ensures r.input == "" && r.error == "" && !r.loading
    ensures r.store == store && r.location == location
  {
    Login("", "", false, store, location)
  }

  /** `handleLogout`: forget the key and load the login page anew. Assigning
      `window.location.href` reloads the whole page, so the login form mounts again
      and nothing typed or shown before survives. */
  function Logout(s: Login): (r: Login)
    ensures r.store.None? && r.location == LoginPath
    ensures r.input == "" && r.error == "" && !r.loading
  {
    Mounted(None, LoginPath)
  }

  /** Logging out forgets everything of the session: the result does not depend on
      the state it started from, whether a login succeeded or failed. */
  lemma LogoutForgetsSession(s: Login, t: Login, probeSucceeds: bool)
    ensures Logout(s) == Logout(t)
    ensures Logout(Submit(s, probeSucceeds)) == Mounted(None, LoginPath)
  {
  }

  /** Every submission starts by clearing the previous error and ends with loading off;
      the key is stored before the probe is sent, so the store holds exactly the entered
      key when the probe goes out. */
  lemma SubmissionOrder(s: Login, probeSucceeds: bool)
    ensures var es := SubmitEffects(s.input, probeSucceeds);
            && |es| >= 5 && es[0] == SetError("") && es[|es| - 1] == SetLoading(false)
            && es[2] == StoreKey(s.input) && es[3].SendProbe?
            && Run(s, es[..3]).store == Some(s.input)
            && es[3].request == ApiClient.Send(ApiClient.GetStatistics, Run(s, es[..3]).store)
  {
    var es := SubmitEffects(s.input, probeSucceeds);
    assert es[..3] == [SetError("")] + ([SetLoading(true)] + ([StoreKey(s.input)] + []));
    RunCons(s, SetError(""), [SetLoading(true)] + ([StoreKey(s.input)] + []));
    RunCons(s.(error := ""), SetLoading(true), [StoreKey(s.input)] + []);
    RunCons(s.(error := "", loading := true), StoreKey(s.input), []);
  }

  /** The probe carries `X-API-Key` with the entered key exactly when that key is
      non-empty. */
  lemma ProbeCarriesKey(key: string)
    ensures ApiClient.ApiKeyHeader in ProbeFor(key).headers <==> key != ""
    ensures key != "" ==> ProbeFor(key).headers[ApiClient.ApiKeyHeader] == key
  {
    ApiClient.SentRequest(ApiClient.GetStatistics, Some(key));
  }

  /** After a successful login with a non-empty key every call carries that key; after
      a failed login no call carries any key. */
  lemma LaterCallsAfterLogin(s: Login, probeSucceeds: bool, c: ApiClient.Call)
    ensures var r := Submit(s, probeSucceeds);
            && (probeSucceeds && s.input != "" ==>
                  ApiClient.ApiKeyHeader in ApiClient.Send(c, r.store).headers &&
                  ApiClient.Send(c, r.store).headers[ApiClient.ApiKeyHeader] == s.input)
            && (!probeSucceeds ==> ApiClient.ApiKeyHeader !in ApiClient.Send(c, r.store).headers)
  {
    ApiClient.SentRequest(c, Submit(s, probeSucceeds).store);
  }

  /** After logging out no call carries a key. */
  lemma LaterCallsAfterLogout(s: Login, c: ApiClient.Call)
    ensures ApiClient.ApiKeyHeader !in ApiClient.Send(c, Logout(s).store).headers
  {
    ApiClient.SentRequest(c, Logout(s).store);
  }
}
