# Clove admin panel: settings, accounts, gateway and session

A Dafny model of the logic of the clove-front admin panel. The panel is a web front end
for a Claude proxy service. The model covers:

- **Settings page** (`src/pages/Settings.tsx`): a draft copy of the settings is edited
  in place. On commit (an input's blur, a checkbox change, adding or removing an API
  key), the draft is compared field by field with the last confirmed snapshot, and only
  the fields that differ are sent. On success the change set is merged into the
  confirmed snapshot. A save status moves `idle → saving → saved | error`, and a timer
  resets it to `idle` after 3 s or 5 s. Raw input text is coerced first: `value || null`
  for the proxy URL and custom prompt, and `parseInt(value) || 0` for the padding
  length. `parseInt` is modelled as ECMAScript defines it: leading white space, one
  sign, a `0x` prefix, then the longest run of digits.
- **API key lists**: an add is refused when the key is empty or already listed; a
  remove filters out every occurrence.
- **Account dialog** (`src/components/AccountModal.tsx`): the tier derived from the
  capability tags, the canonical tags written for a tier, and the create and update
  bodies. Fields are sent only when filled in; the cookie is sent on update only when it
  changed. Also modelled: the error message shown when a request fails.
- **Request gateway** (`src/api/client.ts`): the route table from API calls to method,
  path and body, with a service-side `Dispatch` as its inverse. Also the default JSON
  content type, and the interceptor that adds `X-API-Key` when a non-empty admin key is
  stored.
- **Session** (`src/pages/Login.tsx`, `src/components/Layout.tsx`): login stores the
  entered key, probes `GET /admin/statistics` with it, and then either navigates home
  or shows an error and forgets the key. Logout forgets the key.

Modules, one file each:

- `Basics`: `Option`, duplicate-freedom, subsequences.
- `ApiTypes`: snapshots, partial updates, accounts.
- `SettingsDiff`: the change set and the merge.
- `KeyLists`: adding and removing keys.
- `InputCoercion`: the input coercions, `parseInt`, and decimal rendering as its
  partner.
- `ApiClient`: the route table, dispatch and the interceptor.
- `SettingsPage`: the event/effect state machine of the page.
- `AccountTier`: tier derivation and the canonical tags.
- `AccountModal`: the dialog's form, bodies and errors.
- `Session`: login and logout.

How external behaviour is represented:

- **Network outcomes** are parameters: an `accepted` flag, a probe result, or a
  rejection `detail`.
- **Browser storage** is an `Option<string>` value.
- **React state updates** become ordered effect traces.
- **Pending timers** are a sequence of delays, and firing one is an event.
- **`JSON.stringify` equality** becomes structural equality. This is exact for these
  fields: lists compare element by element in order, and `null` differs from every
  string.

Behaviour of the code worth knowing:

- **Timers are never cancelled.** An older `saved` reset can clear a newer `error`
  while the error's own timer is still pending (`SettingsPage.StaleTimerClearsLaterError`).
- **`null` counts as a change.** The change set uses `JSON.stringify` inequality, so
  `null` against a string is a change, and a snapshot holds no `undefined`.
- **The padding length may be negative.** `parseInt("-5") || 0` is `-5`.
- **No OAuth token is ever sent from the dialog.** The form holds
  `oauth_access_token`, `oauth_refresh_token` and `oauth_expires_at`, and both bodies
  send a token when all three are filled. But the dialog renders inputs only for the
  cookie, the organization uuid and the account type (src/components/AccountModal.tsx:153-224).
  So the three stay `''`, `AccountModal.OAuthTokenOf` is always absent, and the token
  branch is unreachable from the page.
- **There is no gateway-level error normalizer.** The only message selection is
  `err.response?.data?.detail || '操作失败'` in the account dialog.

## Model

| member | source | states |
|---|---|---|
| SettingsDiff.Diff | src/pages/Settings.tsx:70-78 | the change set of `handleFieldChange`, pinned down by `DiffAt` (per key: present exactly when the serialized values differ, with the draft's value), `DiffKeysExact` and `DiffEmptyIffEqual` |
| SettingsDiff.DiffAt | src/pages/Settings.tsx:70-78 | a key is in the change set exactly when the field's serialized values differ, and then carries the candidate's value |
| SettingsDiff.DiffKeysExact | src/pages/Settings.tsx:73-78 | the keys of the change set are exactly the fields on which draft and confirmed snapshot differ |
| SettingsDiff.DiffEmptyIffEqual | src/pages/Settings.tsx:34 | the change set is `{}` (no keys) if and only if the draft equals the confirmed snapshot, both directions |
| SettingsDiff.Merge | src/pages/Settings.tsx:43 | the spread `{...original, ...changes}`, pinned down by `MergeAt` (per key), `MergeEmptyIsIdentity`, `MergeChangesOnlyKeys`, and by `MergeDiffRoundTrip` and `DiffOfMerge` as the partner of the change set |
| SettingsDiff.MergeAt | src/pages/Settings.tsx:43 | `{...original, ...changes}`: a present key overwrites its field, an absent key keeps it |
| SettingsDiff.MergeDiffRoundTrip | src/pages/Settings.tsx:43 | merging a change set into the snapshot it was computed against yields the committed draft |
| SettingsDiff.MergeEmptyIsIdentity | src/pages/Settings.tsx:43 | merging `{}` leaves the snapshot unchanged |
| SettingsDiff.MergeChangesOnlyKeys | src/pages/Settings.tsx:43 | a merge changes no field outside the update's keys |
| SettingsDiff.DiffOfMerge | src/pages/Settings.tsx:43 | diffing a merge against its base gives exactly the update keys whose values are new |
| SettingsDiff.SnapshotExtensional | src/pages/Settings.tsx:73-76 | snapshots agreeing on every key are the same settings, so the per-key comparison loses nothing |
| SettingsDiff.NoKeysIsEmpty | src/pages/Settings.tsx:34 | `Object.keys(changes).length === 0` holds exactly for the empty update |
| KeyLists.AddKey | src/pages/Settings.tsx:88-96 | a refused add leaves the list unchanged; otherwise the key is appended and nothing else changes; membership grows by exactly the key; duplicate-freedom is kept |
| KeyLists.RemoveKey | src/pages/Settings.tsx:98-105 | the key is gone; every other key keeps its multiplicity and relative order; duplicate-freedom is kept |
| KeyLists.RemoveAbsent | src/pages/Settings.tsx:102 | removing an unlisted key leaves the list as it was |
| KeyLists.RemoveConcat | src/pages/Settings.tsx:102 | filtering distributes over concatenation |
| KeyLists.RemoveUndoesAdd | src/pages/Settings.tsx:88-105 | removing a key that was just accepted restores the list |
| KeyLists.RemoveIdempotent | src/pages/Settings.tsx:102 | removing twice is removing once |
| KeyLists.ReAddMovesToEnd | src/pages/Settings.tsx:89-102 | re-adding a removed key puts it at the end of the list |
| InputCoercion.OptionalText | src/pages/Settings.tsx:344 | the null-coercion of typed text is null exactly for the empty string and the text otherwise |
| InputCoercion.ShowOptional | src/pages/Settings.tsx:343 | an optional input shows null as the empty string and a text as itself |
| InputCoercion.ShowAfterCoerce | src/pages/Settings.tsx:343-344 | coercing typed text and showing it gives the text back |
| InputCoercion.CoerceAfterShow | src/pages/Settings.tsx:366-367 | showing a field and coercing it back gives the field, except exactly a stored empty string |
| InputCoercion.ParseInt | src/pages/Settings.tsx:411 | `parseInt` without a radix, pinned down by `TrimStart` (leading white space), `DigitRunIsLongest` (longest digit run), `NonNumericIsZero` (NaN exactly when no digit starts the body), `ParseNegative` (a minus negates) and `ParseShowInt` (it reads back every rendered integer) |
| InputCoercion.PadLength | src/pages/Settings.tsx:411 | the padding coercion, `parseInt(value)` with NaN replaced by 0, pinned down by `NonNumericIsZero` and `BareFractionIsNaN` (NaN gives 0) and `PadLengthRoundTrip` (a typed integer is stored as itself) |
| InputCoercion.DigitValue | src/pages/Settings.tsx:411 | a character is a decimal digit exactly when its digit value is below 10 |
| InputCoercion.TrimStart | src/pages/Settings.tsx:411 | `parseInt` drops exactly a leading run of white space: the dropped prefix is all white space and what remains does not start with white space |
| InputCoercion.DigitRunIsLongest | src/pages/Settings.tsx:411 | parsing consumes the longest run of digits of the radix: all of it digits, and the next character not one |
| InputCoercion.MagnitudeIffDigit | src/pages/Settings.tsx:411 | there is a magnitude exactly when the body starts with a digit of its radix (after a `0x` prefix, a hexadecimal digit) |
| InputCoercion.NonNumericIsZero | src/pages/Settings.tsx:411 | `parseInt` is NaN if and only if no digit starts the text after white space and one sign, and then the padding coercion gives 0 |
| InputCoercion.DigitFreeIsZero | src/pages/Settings.tsx:411 | text without any decimal digit is NaN and coerces to 0 |
| InputCoercion.BareFractionIsNaN | src/pages/Settings.tsx:411 | a bare fraction such as `.5`, `-.5` or `+.5` is NaN and coerces to 0 |
| InputCoercion.ShowNatValue | src/pages/Settings.tsx:409-411 | the decimal digits written for a number denote that number |
| InputCoercion.ShowNatLeadingDigit | src/pages/Settings.tsx:409-411 | a positive number's rendering does not start with `0`, so it never reads as a hexadecimal prefix |
| InputCoercion.DigitRunOfShow | src/pages/Settings.tsx:411 | the digit run of a rendered number followed by a non-digit is the whole rendering |
| InputCoercion.MagnitudeOfShow | src/pages/Settings.tsx:411 | the rendered digits of a number read back as that number |
| InputCoercion.ParseUnsigned | src/pages/Settings.tsx:411 | text starting with a digit is parsed without a sign |
| InputCoercion.ParseNegative | src/pages/Settings.tsx:411 | a leading minus sign negates the magnitude, and NaN stays NaN |
| InputCoercion.ParseShowNegative | src/pages/Settings.tsx:411 | a rendered negative integer, followed by nothing or by text that does not start with a digit, `x` or `X`, reads back as itself |
| InputCoercion.ParseShowNonNegative | src/pages/Settings.tsx:411 | a rendered non-negative integer, followed by nothing or by text that does not start with a digit, `x` or `X`, reads back as itself (a `0` followed by `x` would read as hexadecimal) |
| InputCoercion.ParseShowInt | src/pages/Settings.tsx:409-411 | `parseInt` reads back any rendered integer, alone or followed by text that does not start with a digit, `x` or `X` (so a trailing fraction or exponent is ignored) |
| InputCoercion.PadLengthRoundTrip | src/pages/Settings.tsx:409-411 | the padding draft holds exactly the integer typed, alone or followed by text that does not start with a digit, `x` or `X` |
| InputCoercion.DigitChar | src/pages/Settings.tsx:411 | a digit below 10 is written as the character whose digit value it is |
| InputCoercion.ShowNat | src/pages/Settings.tsx:409 | a number is written as a non-empty string of decimal digits |
| ApiClient.AccountPath | src/api/client.ts:22 | the account path is the prefix followed by the uuid verbatim |
| ApiClient.Route | src/api/client.ts:4-8 | every call's request starts with exactly the default headers, without an API key |
| ApiClient.RouteTable | src/api/client.ts:20-43 | list and create use `/admin/accounts` with GET and POST; get, update and delete use `/admin/accounts/` plus the uuid verbatim with GET, PUT and DELETE; settings are GET and PUT on `/admin/settings` with the update as the body unchanged; the health check and statistics are GET on `/health` and `/admin/statistics` |
| ApiClient.AccountIdOf | src/api/client.ts:22-26 | a path names an account exactly when it starts with the account prefix, and the rest is the uuid |
| ApiClient.FixedPathsAreNotAccountPaths | src/api/client.ts:21-42 | no fixed endpoint path can be mistaken for an account path |
| ApiClient.DispatchRoute | src/api/client.ts:19-43 | from the configured request's method, path and body the call made can be recovered exactly, uuid and body included |
| ApiClient.RouteInjective | src/api/client.ts:19-43 | two different calls never produce the same configured request |
| ApiClient.Intercept | src/api/client.ts:11-17 | `X-API-Key` is set to the stored key exactly when one is stored and non-empty; every other header, the method, the path and the body are kept; with no usable key the request is returned unchanged |
| ApiClient.Send | src/api/client.ts:4-17 | the configured request of a call after interception keeps the call's method, path and body, and carries `X-API-Key`, with the stored key, exactly when a non-empty key is stored; `SentRequest` adds the content type and the dispatch round trip |
| ApiClient.SentRequest | src/api/client.ts:4-17 | every configured request carries the JSON content type and its call's route, and it carries the stored key exactly when that key is non-empty |
| SettingsPage.ApplyInput | src/pages/Settings.tsx:315-413 | typing into an input sets its field to the coerced value and changes no other field |
| SettingsPage.ApplyToggle | src/pages/Settings.tsx:424-444 | a checkbox sets its field and changes no other field |
| SettingsPage.WithKeys | src/pages/Settings.tsx:90-93 | replacing a key list changes that list and no other field |
| SettingsPage.SaveChanges | src/pages/Settings.tsx:32-55 | nothing for `{}`; otherwise `saving`, the request, then `saved` with the changes merged and a 3000 ms reset, or `error` with nothing merged and a 5000 ms reset; the draft, `loading` and the new-key inputs are untouched |
| SettingsPage.HandleFieldChange | src/pages/Settings.tsx:63-86 | the candidate becomes the draft; before settings are loaded nothing is sent; otherwise the diff against the confirmed snapshot is saved |
| SettingsPage.InitialInv | src/pages/Settings.tsx:8-13 | the page starts unloaded, idle and with nothing pending, which satisfies the invariant |
| SettingsPage.CommitStatuses | src/pages/Settings.tsx:34-51 | a commit sets no status when nothing changed, and otherwise `saving` then `saved` or `error`, with a reset pending |
| SettingsPage.CommitKeepsStatusMachine | src/pages/Settings.tsx:32-86 | a commit moves the status only along allowed moves and keeps the page invariant |
| SettingsPage.Next | src/pages/Settings.tsx:11-124 | the page's handlers as one event step, pinned down by `NextOfCommit` (committing events), `NextWithoutCommit` (loading, typing, timers), `NextKeepsStatusMachine` and `RunKeepsInv` (the status machine and the page invariant) |
| SettingsPage.NextOfCommit | src/pages/Settings.tsx:88-124 | blur, checkbox, add and remove events behave as the commit of the draft they build |
| SettingsPage.NextWithoutCommit | src/pages/Settings.tsx:15-25 | loading, typing and timers set no status other than `idle` after `saved` or `error`, and keep the invariant |
| SettingsPage.NextKeepsStatusMachine | src/pages/Settings.tsx:11-124 | every event moves the save status only along `saving → saved/error → idle`; the status left is the last one set; the invariant holds after it |
| SettingsPage.RunKeepsInv | src/pages/Settings.tsx:11-124 | every page reachable by events keeps the invariant: loaded draft and confirmed snapshot together, no half-done save, a pending reset behind `saved`/`error` |
| SettingsPage.TimersRevertToIdle | src/pages/Settings.tsx:47-51 | firing the pending resets leaves the status `idle` with nothing pending and the settings untouched |
| SettingsPage.StaleTimerClearsLaterError | src/pages/Settings.tsx:47-51 | timers are never cancelled: an earlier 3 s reset clears a later `error` while its 5 s reset is still pending |
| SettingsPage.CommitUnchangedDraftIsNoop | src/pages/Settings.tsx:34 | committing a draft equal to the confirmed snapshot sends nothing and changes only the draft |
| SettingsPage.CommitSendsExactDiff | src/pages/Settings.tsx:70-82 | a changed draft sends exactly the fields that differ from the confirmed snapshot, each with the draft's value |
| SettingsPage.AcceptedCommitConfirmsDraft | src/pages/Settings.tsx:39-44 | on success the confirmed snapshot becomes the committed draft, and fields outside the change set keep their values |
| SettingsPage.RejectedCommitKeepsEdits | src/pages/Settings.tsx:48-51 | on failure the confirmed snapshot is kept and the draft keeps the edits |
| SettingsPage.TypingNeverSaves | src/pages/Settings.tsx:58-60 | typing sends nothing, keeps status and confirmed snapshot, and changes only its own field |
| SettingsPage.ClearingOptionalStoresNull | src/pages/Settings.tsx:344-367 | clearing the proxy URL or custom prompt stores `null` |
| SettingsPage.NonNumericPaddingStoresZero | src/pages/Settings.tsx:409-411 | the padding length stores 0 if and only if `parseInt` finds no leading digit or reads zero |
| SettingsPage.AddKeyOnPage | src/pages/Settings.tsx:88-96 | an empty or listed key is refused without a request; otherwise the key is appended, no other field changes, the input is cleared, and duplicate-freedom is kept |
| SettingsPage.WithKeysChangedFields | src/pages/Settings.tsx:100-104 | replacing a key list by a different one changes exactly that field |
| SettingsPage.RemoveKeyOnPage | src/pages/Settings.tsx:98-124 | the key leaves the list, every other key keeps its multiplicity and relative order, other fields are kept, and from a saved state the request carries only that key list |
| SettingsPage.AddSecondKeyScenario | src/pages/Settings.tsx:88-96 | adding a second key sends only the new list; on success it is confirmed, the status is `saved` and the reset returns it to `idle` |
| AccountTier.TierOf | src/components/AccountModal.tsx:37-47 | no tags gives no tier; `claude_max` wins over `claude_pro`; any other non-empty list is Normal (all four as if-and-only-if) |
| AccountTier.Capabilities | src/components/AccountModal.tsx:56-71 | no tier leaves capabilities undefined; every written list starts with `chat` and holds at most one tier tag |
| AccountTier.CapabilitiesTable | src/components/AccountModal.tsx:56-71 | Normal writes `["chat"]`, Pro writes `["chat", "claude_pro"]` and Max writes `["chat", "claude_max"]` |
| AccountTier.TierRoundTrip | src/components/AccountModal.tsx:37-71 | writing a tier and deriving it back gives the same tier |
| AccountTier.MaxWins | src/components/AccountModal.tsx:41-44 | a list with both tier tags is Max wherever they sit |
| AccountTier.CanonicalIsStable | src/components/AccountModal.tsx:37-71 | rewriting the derived tier is a fixed point after one round |
| AccountTier.UnknownTagsAreDropped | src/components/AccountModal.tsx:37-71 | a capability list holding any tag other than `chat`, `claude_pro` and `claude_max` is never written back as it was |
| AccountModal.Open | src/components/AccountModal.tsx:13-49 | a new account opens blank; an edited one opens with its uuid, its capabilities and the derived tier, and never with secrets |
| AccountModal.OAuthTokenOf | src/components/AccountModal.tsx:82-88 | the token is sent exactly when access token, refresh token and expiry are all filled, with those values |
| AccountModal.UpdateBody | src/components/AccountModal.tsx:76-94 | the cookie only when filled and different from the current one, the token when complete, capabilities exactly when a tier is chosen, never the uuid |
| AccountModal.CreateBody | src/components/AccountModal.tsx:97-119 | cookie and uuid each exactly when non-empty, the token when complete, capabilities exactly when a tier is chosen |
| AccountModal.SubmitCall | src/components/AccountModal.tsx:74-120 | an edit updates the account by its uuid; otherwise an account is created |
| AccountModal.Truthy | src/components/AccountModal.tsx:124 | JavaScript truthiness of the response detail, pinned down by `ErrorMessage` (a truthy detail is shown, a falsy one falls back) and `FalsyDetailsFallBack` (a missing detail, `null`, `false`, zero and `''` are the falsy ones) |
| AccountModal.ErrorMessage | src/components/AccountModal.tsx:124 | a truthy `detail` is shown as it is, and a falsy one gives the fixed fallback; the message shown is always truthy |
| AccountModal.FalsyDetailsFallBack | src/components/AccountModal.tsx:124 | a missing detail, `null`, `false`, a zero and the empty string all show the fallback |
| AccountModal.Submit | src/components/AccountModal.tsx:51-128 | the call is sent; on success the dialog closes with no error; on failure it shows the error message; loading ends false either way |
| AccountModal.OpenCannotSubmit | src/components/AccountModal.tsx:165-238 | a freshly opened dialog cannot be submitted, since the required cookie starts empty and the button is disabled while it is blank |
| AccountModal.CookieOnlyEditRewritesCapabilities | src/components/AccountModal.tsx:26-94 | the smallest submittable edit, a non-blank cookie and nothing else, sends the cookie exactly when it differs from the account's, no token and no uuid, and rewrites the capabilities canonically |
| AccountModal.UpdateReachesAccountPath | src/components/AccountModal.tsx:94 | an update is a PUT to the account's own path, and the service reads back the same uuid and body |
| AccountModal.CreateReachesAccountsPath | src/components/AccountModal.tsx:97-119 | a new account is a POST to `/admin/accounts` whose body the service reads back as exactly the create body |
| Session.Submit | src/pages/Login.tsx:13-33 | loading ends false; on success the entered key is stored and the page is home with no error; on failure the key is forgotten and the invalid-key message is shown |
| Session.Logout | src/components/Layout.tsx:14-17 | the key is forgotten and the login page loads anew: empty input, no error, not loading |
| Session.LogoutForgetsSession | src/components/Layout.tsx:14-17 | nothing of the session survives logout: the result is the same whatever state, successful or failed login, it started from |
| Session.Mounted | src/pages/Login.tsx:8-10 | the login page mounts with an empty input, no error and not loading |
| Session.SubmitEffects | src/pages/Login.tsx:15-32 | the state updates and calls of `handleSubmit` in program order, pinned down by `RunSubmit` (the final state on success and failure) and `SubmissionOrder` (error cleared first, key stored before the probe, loading ended last) |
| Session.RunSubmit | src/pages/Login.tsx:15-32 | performing the effects in program order ends in exactly the success or failure state |
| Session.SubmissionOrder | src/pages/Login.tsx:15-32 | the error is cleared first and loading ends last; the key is stored before the probe, so the probe is sent with the entered key in the store |
| Session.ProbeCarriesKey | src/pages/Login.tsx:20-23 | the probe carries `X-API-Key` with the entered key exactly when that key is non-empty |
| Session.LaterCallsAfterLogin | src/pages/Login.tsx:20-29 | after a successful login with a non-empty key every call carries it; after a failed login no call carries a key |
| Session.LaterCallsAfterLogout | src/components/Layout.tsx:15 | after logout no call carries a key |

## Left out

- Rendering, CSS classes, icons and the layout's navigation menu: presentation only.
- The transport itself: sending requests, response bodies other than the modelled
  outcomes, and axios internals such as case-insensitive header names. Outcomes are
  parameters.
- Concurrency between overlapping saves and React's stale closures. A commit is one
  atomic step, so the window in which a reset fires while a save is in flight is not
  represented.
- SettingsPage.TimersRevertToIdle: timers fire in any order the events choose (any
  pending one, by index), not in the order of their delays, so this over-approximates
  the browser's scheduling.
- `generateNewKey` (src/pages/Settings.tsx:126-138): it draws from `Math.random`, so the
  model treats any generated key as text typed into the new-key input.
- The dashboard and accounts list pages (src/pages/Dashboard.tsx,
  src/pages/Accounts.tsx): they only call the gateway, and their calls are in the route
  table.
- AccountModal.Truthy and AccountModal.ErrorMessage: a JSON number is a decimal
  mantissa and exponent, so a non-zero literal small enough to underflow to 0 as a double
  (such as `1e-400`) counts as truthy here, while JavaScript treats it as falsy.
- InputCoercion.ParseInt, InputCoercion.PadLength, InputCoercion.ParseShowNegative,
  InputCoercion.ParseShowNonNegative, InputCoercion.ParseShowInt and
  InputCoercion.PadLengthRoundTrip: a parsed number is an unbounded integer, while
  JavaScript's `parseInt` returns a double. Digit runs beyond 2^53 lose precision
  there. A run of more than 308 decimal digits gives `Infinity`: `|| 0` keeps it, and
  `JSON.stringify` then sends it as `null`. Neither is modelled.
- ApiClient.SentRequest: it states facts about the request configuration axios is
  given, not about what reaches the server. axios drops `Content-Type` from a GET or
  DELETE without a body. The browser also resolves `..`, `?` and `#` in the uuid, which
  is appended verbatim, so `GetAccount("../settings")` arrives as `GET /admin/settings`.
  The same reading applies to `DispatchRoute` and `RouteInjective`.
- AccountModal.OAuthTokenOf: the numeric value of `parseFloat` on the expiry is not
  modelled; the token carries the expiry text wrapped as an opaque number.
- The `required` attribute of the login input and other browser form validation: not
  part of the submit handler's logic.
- Logging of load and save failures with `console.error`: it has no effect on state.
  A failed initial load leaves the page unloaded with `loading` off.
- The shared type declarations, `src/api/types.ts`, are not part of this model. The
  records are reconstructed from how the listed files use them.
