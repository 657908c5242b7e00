/** The account create/edit dialog (src/components/AccountModal.tsx): the form it opens
    with, the request body it builds on submit, and the error text it shows when the
    request fails. */
module AccountModal {
  import opened Basics
  import opened ApiTypes
  import opened AccountTier
  import opened InputCoercion
  import ApiClient

  /** The raw form inputs. */
  datatype Form = Form(
    cookie_value: string,
    oauth_access_token: string,
    oauth_refresh_token: string,
    oauth_expires_at: string,
    organization_uuid: string,
    capabilities: seq<string>)

  const BlankForm: Form := Form("", "", "", "", "", [])

  /** The value of `err.response?.data?.detail` when it is defined, by JSON shape. A
      JSON number is a decimal `mantissa * 10^exponent`; an object or an array is kept
      as its text. */
  datatype Detail =
    | TextDetail(text: string)
    | NumberDetail(mantissa: int, exponent: int)
    | BoolDetail(flag: bool)
    | NullDetail
    | StructuredDetail(json: string)

  /** The fixed message shown when the response carries no usable detail. */
  const FallbackMessage: string := "操作失败"

  /** The dialog's state. `error` holds what `setError` received. */
  datatype Dialog = Dialog(form: Form, tier: Tier, loading: bool, error: Detail, closed: bool)

  /** The dialog as it first renders: blank when creating; when editing, the account's
      uuid and capabilities with the tier derived from them, and no secrets. */
  function Open(account: Option<Account>): (d: Dialog)
    ensures d.form.cookie_value == "" && d.form.oauth_access_token == ""
    ensures d.form.oauth_refresh_token == "" && d.form.oauth_expires_at == ""
    ensures account.None? ==> d.form == BlankForm && d.tier == Unselected
    ensures account.Some? ==> d.form.organization_uuid == account.value.organization_uuid
    ensures account.Some? ==> d.tier == TierOf(account.value.capabilities)
    ensures account.Some? ==> d.form.capabilities == CapabilityList(account.value.capabilities)
    ensures !d.loading && d.error == TextDetail("") && !d.closed
  {
    match account
    case None => Dialog(BlankForm, Unselected, false, TextDetail(""), false)
    case Some(a) =>
      Dialog(Form("", "", "", "", a.organization_uuid, a.capabilities.GetOr([])),
             TierOf(a.capabilities), false, TextDetail(""), false)
  }

  /** The OAuth token sent with both create and update: only when access token,
      refresh token and expiry are all filled in. */
  function OAuthTokenOf(form: Form): (r: Option<OAuthToken>)
    ensures r.Some? <==> form.oauth_access_token != "" && form.oauth_refresh_token != "" && form.oauth_expires_at != ""
    ensures r.Some? ==> r.value.access_token == form.oauth_access_token
    ensures r.Some? ==> r.value.refresh_token == form.oauth_refresh_token
    ensures r.Some? ==> r.value.expires_at == ParseFloat(form.oauth_expires_at)
  {
    if form.oauth_access_token != "" && form.oauth_refresh_token != "" && form.oauth_expires_at != ""
    then Some(OAuthToken(form.oauth_access_token, form.oauth_refresh_token, ParseFloat(form.oauth_expires_at)))
    else None
  }

  /** The update body for an existing account: a new cookie only when one was entered
      and it differs from the current one, the OAuth token when complete, the
      capabilities only when a tier is chosen, and never the organization uuid. */
  function UpdateBody(account: Account, form: Form, tier: Tier): (b: AccountBody)
    ensures b.cookie_value.Some? <==> form.cookie_value != "" && account.cookie_value != Some(form.cookie_value)
    ensures b.cookie_value.Some? ==> b.cookie_value.value == form.cookie_value
    ensures b.oauth_token == OAuthTokenOf(form)
    ensures b.organization_uuid.None?
    ensures b.capabilities.Some? <==> tier != Unselected
    ensures b.capabilities == Capabilities(tier)
  {
    AccountBody(
      if form.cookie_value != "" && Some(form.cookie_value) != account.cookie_value then Some(form.cookie_value) else None,
      OAuthTokenOf(form),
      None,
      Capabilities(tier))
  }

  /** The create body: the cookie and the organization uuid each only when non-empty,
      the OAuth token when complete, the capabilities only when a tier is chosen. */
  function CreateBody(form: Form, tier: Tier): (b: AccountBody)
    ensures b.cookie_value.Some? <==> form.cookie_value != ""
    ensures b.cookie_value.Some? ==> b.cookie_value.value == form.cookie_value
    ensures b.oauth_token == OAuthTokenOf(form)
    ensures b.organization_uuid.Some? <==> form.organization_uuid != ""
    ensures b.organization_uuid.Some? ==> b.organization_uuid.value == form.organization_uuid
    ensures b.capabilities.Some? <==> tier != Unselected
    ensures b.capabilities == Capabilities(tier)
  {
    AccountBody(
      if form.cookie_value != "" then Some(form.cookie_value) else None,
      OAuthTokenOf(form),
      if form.organization_uuid != "" then Some(form.organization_uuid) else None,
      Capabilities(tier))
  }

  /** The call a submit makes: update the edited account by its uuid, or create. */
  function SubmitCall(account: Option<Account>, form: Form, tier: Tier): (c: ApiClient.Call)
    ensures account.Some? ==> c.UpdateAccount? && c.uuid == account.value.organization_uuid
    ensures account.None? ==> c.CreateAccount?
  {
    match account
    case Some(a) => ApiClient.UpdateAccount(a.organization_uuid, UpdateBody(a, form, tier))
    case None => ApiClient.CreateAccount(CreateBody(form, tier))
  }

  /** JavaScript truthiness of a detail: missing, `null`, `false`, `0` and `''` are
      falsy; every other string, number and boolean, and every object and array, is
      truthy. */
  predicate Truthy(detail: Option<Detail>) {
    match detail
    case None => false
    case Some(TextDetail(text)) => text != ""
    case Some(NumberDetail(mantissa, _)) => mantissa != 0
    case Some(BoolDetail(flag)) => flag
    case Some(NullDetail) => false
    case Some(StructuredDetail(_)) => true
  }

  /** `err.response?.data?.detail || '操作失败'`. */
  function ErrorMessage(detail: Option<Detail>): (e: Detail)
    ensures Truthy(detail) ==> e == detail.value
    ensures !Truthy(detail) ==> e == TextDetail(FallbackMessage)
    ensures Truthy(Some(e))
  {
    if Truthy(detail) then detail.value else TextDetail(FallbackMessage)
  }

  /** The falsy details all show the fallback: no detail, `null`, `false`, a zero of
      any notation and the empty string. */
  lemma FalsyDetailsFallBack(exponent: int)
    ensures ErrorMessage(None) == TextDetail(FallbackMessage)
    ensures ErrorMessage(Some(NullDetail)) == TextDetail(FallbackMessage)
    ensures ErrorMessage(Some(BoolDetail(false))) == TextDetail(FallbackMessage)
    ensures ErrorMessage(Some(NumberDetail(0, exponent))) == TextDetail(FallbackMessage)
    ensures ErrorMessage(Some(TextDetail(""))) == TextDetail(FallbackMessage)
  {
  }

  /** How the create/update request ended: accepted, or rejected with whatever
      `detail` the error response carried. */
  datatype Outcome = Accepted | Rejected(detail: Option<Detail>)

  /** `handleSubmit`: clear the error, send the call, then close on success or show the
      error message on failure; loading ends false either way. Also returns the call
      that was sent. */
  function Submit(d: Dialog, account: Option<Account>, outcome: Outcome): (r: (Dialog, ApiClient.Call))
    ensures r.1 == SubmitCall(account, d.form, d.tier)
    ensures !r.0.loading && r.0.form == d.form && r.0.tier == d.tier
    ensures r.0.closed <==> d.closed || outcome.Accepted?
    ensures outcome.Accepted? ==> r.0.error == TextDetail("")
    ensures outcome.Rejected? ==> r.0.error == ErrorMessage(outcome.detail) && Truthy(Some(r.0.error))
  {
    var call := SubmitCall(account, d.form, d.tier);
    var cleared := d.(error := TextDetail(""), loading := true);
    var settled :=
      match outcome
      case Accepted => cleared.(closed := true)
      case Rejected(detail) => cleared.(error := ErrorMessage(detail));
    (settled.(loading := false), call)
  }

  /** The submit button is disabled while loading and while the cookie is blank, and
      the cookie input is required: only then can `handleSubmit` run. */
  predicate CanSubmit(d: Dialog) {
    !d.loading && !AllWhiteSpace(d.form.cookie_value)
  }

  /** A freshly opened dialog, for creating or editing, cannot be submitted: the cookie
      input always starts empty. */
  lemma OpenCannotSubmit(account: Option<Account>)
    ensures !CanSubmit(Open(account))
  {
  }

  /** The smallest edit that can be submitted, typing a cookie and nothing else,
      sends the cookie exactly when it differs from the account's, no token and no
      uuid, and rewrites the capabilities to the canonical list of the derived tier
      (dropping any tag the tiers do not know). */
  lemma CookieOnlyEditRewritesCapabilities(account: Account, cookie: string)
    requires !AllWhiteSpace(cookie)
    ensures var d := Open(Some(account)).(form := Open(Some(account)).form.(cookie_value := cookie));
            var b := UpdateBody(account, d.form, d.tier);
            && CanSubmit(d)
            && (b.cookie_value.Some? <==> account.cookie_value != Some(cookie))
            && b.oauth_token.None? && b.organization_uuid.None?
            && b.capabilities == Capabilities(TierOf(account.capabilities))
  {
    assert cookie != "" by {
      if cookie == "" {
        assert AllWhiteSpace(cookie);
      }
    }
  }

  /** The uuid of an edited account reaches the path verbatim and the body reaches the
      service unchanged. */
  lemma UpdateReachesAccountPath(account: Account, form: Form, tier: Tier)
    ensures ApiClient.Route(SubmitCall(Some(account), form, tier)).path == ApiClient.AccountPath(account.organization_uuid)
    ensures ApiClient.Route(SubmitCall(Some(account), form, tier)).verb == ApiClient.PUT
    ensures ApiClient.Dispatch(ApiClient.Route(SubmitCall(Some(account), form, tier))) ==
            Some(ApiClient.UpdateAccount(account.organization_uuid, UpdateBody(account, form, tier)))
  {
    ApiClient.DispatchRoute(SubmitCall(Some(account), form, tier));
  }

  /** A new account is created by a POST to the accounts collection, and the service
      reads back the create body unchanged. */
  lemma CreateReachesAccountsPath(form: Form, tier: Tier)
    ensures ApiClient.Route(SubmitCall(None, form, tier)).path == ApiClient.AccountsPath
    ensures ApiClient.Route(SubmitCall(None, form, tier)).verb == ApiClient.POST
    ensures ApiClient.Dispatch(ApiClient.Route(SubmitCall(None, form, tier))) ==
            Some(ApiClient.CreateAccount(CreateBody(form, tier)))
  {
    ApiClient.DispatchRoute(SubmitCall(None, form, tier));
  }
}
