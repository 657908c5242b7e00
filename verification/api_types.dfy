/** The records exchanged with the proxy service: the settings snapshot and its
    partial update, and the account entity with its create/update bodies. */
module ApiTypes {
  import opened Basics

  /** A full settings snapshot as read from `GET /admin/settings`. Every field is
      always present; `proxy_url` and `custom_prompt` may be `null` (`None`). */
  datatype Snapshot = Snapshot(
    api_keys: seq<string>,
    admin_api_keys: seq<string>,
    claude_ai_url: string,
    claude_api_baseurl: string,
    proxy_url: Option<string>,
    custom_prompt: Option<string>,
    human_name: string,
    assistant_name: string,
    padtxt_length: int,
    use_real_roles: bool,
    allow_external_images: bool,
    preserve_chats: bool)

  /** A partial update: `None` means the key is absent from the object, `Some(v)`
      means it is present with value `v` (which for an optional field may itself be
      `null`, i.e. `Some(None)`). */
  datatype Delta = Delta(
    api_keys: Option<seq<string>>,
    admin_api_keys: Option<seq<string>>,
    claude_ai_url: Option<string>,
    claude_api_baseurl: Option<string>,
    proxy_url: Option<Option<string>>,
    custom_prompt: Option<Option<string>>,
    human_name: Option<string>,
    assistant_name: Option<string>,
    padtxt_length: Option<int>,
    use_real_roles: Option<bool>,
    allow_external_images: Option<bool>,
    preserve_chats: Option<bool>)

  /** The object `{}`. */
  const EmptyDelta: Delta :=
    Delta(None, None, None, None, None, None, None, None, None, None, None, None)

  /** The declared keys of the settings schema. */
  datatype Field =
    | ApiKeys | AdminApiKeys | ClaudeAiUrl | ClaudeApiBaseurl | ProxyUrl | CustomPrompt
    | HumanName | AssistantName | PadtxtLength | UseRealRoles | AllowExternalImages | PreserveChats

  const AllFields: set<Field> :=
    {ApiKeys, AdminApiKeys, ClaudeAiUrl, ClaudeApiBaseurl, ProxyUrl, CustomPrompt,
     HumanName, AssistantName, PadtxtLength, UseRealRoles, AllowExternalImages, PreserveChats}

  /** The value of one field, tagged with its JSON shape. */
  datatype Value =
    | KeyList(keys: seq<string>)
    | Text(text: string)
    | NullableText(maybe: Option<string>)
    | Number(n: int)
    | Flag(b: bool)

  /** `snapshot[key]`. */
  function Get(s: Snapshot, f: Field): Value {
    match f
    case ApiKeys => KeyList(s.api_keys)
    case AdminApiKeys => KeyList(s.admin_api_keys)
    case ClaudeAiUrl => Text(s.claude_ai_url)
    case ClaudeApiBaseurl => Text(s.claude_api_baseurl)
    case ProxyUrl => NullableText(s.proxy_url)
    case CustomPrompt => NullableText(s.custom_prompt)
    case HumanName => Text(s.human_name)
    case AssistantName => Text(s.assistant_name)
    case PadtxtLength => Number(s.padtxt_length)
    case UseRealRoles => Flag(s.use_real_roles)
    case AllowExternalImages => Flag(s.allow_external_images)
    case PreserveChats => Flag(s.preserve_chats)
  }

  /** `update[key]`, `None` when the key is absent. */
  function DeltaGet(d: Delta, f: Field): Option<Value> {
    match f
    case ApiKeys => if d.api_keys.Some? then Some(KeyList(d.api_keys.value)) else None
    case AdminApiKeys => if d.admin_api_keys.Some? then Some(KeyList(d.admin_api_keys.value)) else None
    case ClaudeAiUrl => if d.claude_ai_url.Some? then Some(Text(d.claude_ai_url.value)) else None
    case ClaudeApiBaseurl => if d.claude_api_baseurl.Some? then Some(Text(d.claude_api_baseurl.value)) else None
    case ProxyUrl => if d.proxy_url.Some? then Some(NullableText(d.proxy_url.value)) else None
    case CustomPrompt => if d.custom_prompt.Some? then Some(NullableText(d.custom_prompt.value)) else None
    case HumanName => if d.human_name.Some? then Some(Text(d.human_name.value)) else None
    case AssistantName => if d.assistant_name.Some? then Some(Text(d.assistant_name.value)) else None
    case PadtxtLength => if d.padtxt_length.Some? then Some(Number(d.padtxt_length.value)) else None
    case UseRealRoles => if d.use_real_roles.Some? then Some(Flag(d.use_real_roles.value)) else None
    case AllowExternalImages => if d.allow_external_images.Some? then Some(Flag(d.allow_external_images.value)) else None
    case PreserveChats => if d.preserve_chats.Some? then Some(Flag(d.preserve_chats.value)) else None
  }

  /** `Object.keys(update)` as a set. */
  function Keys(d: Delta): set<Field> {
    set f | f in AllFields && DeltaGet(d, f).Some?
  }

  /** An OAuth token; `expires_at` is the number `parseFloat` produced, kept opaque. */
  datatype OAuthToken = OAuthToken(access_token: string, refresh_token: string, expires_at: ParsedFloat)

  /** The floating-point number `parseFloat(text)`; its value is not modelled. */
  datatype ParsedFloat = ParseFloat(text: string)

  /** An account as the list/get endpoints return it. */
  datatype Account = Account(
    organization_uuid: string,
    cookie_value: Option<string>,
    capabilities: Option<seq<string>>)

  /** The body of an account create or update request; absent keys are `None`. */
  datatype AccountBody = AccountBody(
    cookie_value: Option<string>,
    oauth_token: Option<OAuthToken>,
    organization_uuid: Option<string>,
    capabilities: Option<seq<string>>)

  const EmptyAccountBody: AccountBody := AccountBody(None, None, None, None)
}
