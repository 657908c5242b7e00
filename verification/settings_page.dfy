/** The settings page (src/pages/Settings.tsx) as a transition function from a page
    state and a user or network event to the next page state and the ordered effects
    the event causes: status changes, requests and scheduled status resets.

    A commit is modelled as one step whose network outcome is a parameter: one save is
    in flight at a time. Each `setTimeout` becomes a pending timer; firing one is an
    event, and the source never cancels a timer. */
module SettingsPage {
  import opened Basics
  import opened ApiTypes
  import opened SettingsDiff
  import opened KeyLists
  import opened InputCoercion
  import ApiClient

  datatype SaveStatus = Idle | Saving | Saved | Error

  /** How long `saved` and `error` stay on screen, in milliseconds. */
  const SavedResetDelay: nat := 3000
  const ErrorResetDelay: nat := 5000

  /** The page's state: the editable draft (`settings`), the snapshot believed to be on
      the server (`originalSettings`), the save status, the pending status resets, and
      the two new-key inputs. */
  datatype Page = Page(
    draft: Option<Snapshot>,
    confirmed: Option<Snapshot>,
    loading: bool,
    status: SaveStatus,
    timers: seq<nat>,
    newApiKey: string,
    newAdminKey: string)

  const Initial: Page := Page(None, None, true, Idle, [], "", "")

  datatype KeyListName = UserKeys | AdminKeys

  /** The text inputs whose `onChange` edits the draft and whose `onBlur` commits it. */
  datatype TextInput =
    | ClaudeAiUrlInput | ClaudeApiBaseurlInput | ProxyUrlInput | CustomPromptInput
    | HumanNameInput | AssistantNameInput | PadtxtLengthInput

  /** The checkboxes, which commit on every change. */
  datatype Toggle = UseRealRolesToggle | AllowExternalImagesToggle | PreserveChatsToggle

  /** What can happen to the page. `accepted` is the outcome of the save request the
      event may trigger. */
  datatype Event =
    | Mounted
    | Loaded(response: Option<Snapshot>)
    | Typed(input: TextInput, raw: string)
    | Blurred(accepted: bool)
    | Toggled(toggle: Toggle, checked: bool, accepted: bool)
    | TypedNewKey(list: KeyListName, raw: string)
    | AddClicked(list: KeyListName, accepted: bool)
    | RemoveClicked(list: KeyListName, key: string, accepted: bool)
    | TimerFired(index: nat)

  datatype Effect = SetStatus(status: SaveStatus) | Send(call: ApiClient.Call) | Schedule(delay: nat)

  datatype Step = Step(page: Page, effects: seq<Effect>)

  // ---------------------------------------------------------------------------
  // Draft edits

  function FieldOfInput(input: TextInput): Field {
    match input
    case ClaudeAiUrlInput => ClaudeAiUrl
    case ClaudeApiBaseurlInput => ClaudeApiBaseurl
    case ProxyUrlInput => ProxyUrl
    case CustomPromptInput => CustomPrompt
    case HumanNameInput => HumanName
    case AssistantNameInput => AssistantName
    case PadtxtLengthInput => PadtxtLength
  }

  /** The value an input's `onChange` stores for the raw text typed. */
  function InputValue(input: TextInput, raw: string): Value {
    match input
    case ProxyUrlInput => NullableText(OptionalText(raw))
    case CustomPromptInput => NullableText(OptionalText(raw))
    case PadtxtLengthInput => Number(PadLength(raw))
    case _ => Text(raw)
  }

  /** The draft after typing `raw` into one input: that field holds the coerced value
      and no other field changes. */
  function ApplyInput(s: Snapshot, input: TextInput, raw: string): (r: Snapshot)
    ensures Get(r, FieldOfInput(input)) == InputValue(input, raw)
    ensures forall g :: g != FieldOfInput(input) ==> Get(r, g) == Get(s, g)
  {
    match input
    case ClaudeAiUrlInput => s.(claude_ai_url := raw)
    case ClaudeApiBaseurlInput => s.(claude_api_baseurl := raw)
    case ProxyUrlInput => s.(proxy_url := OptionalText(raw))
    case CustomPromptInput => s.(custom_prompt := OptionalText(raw))
    case HumanNameInput => s.(human_name := raw)
    case AssistantNameInput => s.(assistant_name := raw)
    case PadtxtLengthInput => s.(padtxt_length := PadLength(raw))
  }

  function FieldOfToggle(t: Toggle): Field {
    match t
    case UseRealRolesToggle => UseRealRoles
    case AllowExternalImagesToggle => AllowExternalImages
    case PreserveChatsToggle => PreserveChats
  }

  /** The draft with one checkbox set; no other field changes. */
  function ApplyToggle(s: Snapshot, t: Toggle, checked: bool): (r: Snapshot)
    ensures Get(r, FieldOfToggle(t)) == Flag(checked)
    ensures forall g :: g != FieldOfToggle(t) ==> Get(r, g) == Get(s, g)
  {
    match t
    case UseRealRolesToggle => s.(use_real_roles := checked)
    case AllowExternalImagesToggle => s.(allow_external_images := checked)
    case PreserveChatsToggle => s.(preserve_chats := checked)
  }

  function FieldOfList(list: KeyListName): Field {
    match list
    case UserKeys => ApiKeys
    case AdminKeys => AdminApiKeys
  }

  function KeysOf(s: Snapshot, list: KeyListName): seq<string> {
    match list
    case UserKeys => s.api_keys
    case AdminKeys => s.admin_api_keys
  }

  /** The draft with one key list replaced; no other field changes. */
  function WithKeys(s: Snapshot, list: KeyListName, keys: seq<string>): (r: Snapshot)
    ensures KeysOf(r, list) == keys
    ensures forall g :: g != FieldOfList(list) ==> Get(r, g) == Get(s, g)
  {
    match list
    case UserKeys => s.(api_keys := keys)
    case AdminKeys => s.(admin_api_keys := keys)
  }

  function NewKeyInput(p: Page, list: KeyListName): string {
    match list
    case UserKeys => p.newApiKey
    case AdminKeys => p.newAdminKey
  }

  function WithNewKeyInput(p: Page, list: KeyListName, raw: string): Page {
    match list
    case UserKeys => p.(newApiKey := raw)
    case AdminKeys => p.(newAdminKey := raw)
  }

  // ---------------------------------------------------------------------------
  // Commit

  /** `saveChanges`: nothing for an empty change set; otherwise `saving`, the
      request, then `saved` with the change set merged into the confirmed snapshot
      and a 3 s reset, or `error` with nothing merged and a 5 s reset. */
  function SaveChanges(p: Page, changes: Delta, accepted: bool): (r: Step)
    ensures changes == EmptyDelta ==> r == Step(p, [])
    ensures changes != EmptyDelta ==>
      && |r.effects| == 4
      && r.effects[0] == SetStatus(Saving)
      && r.effects[1] == Send(ApiClient.UpdateSettings(changes))
      && r.effects[2] == SetStatus(r.page.status)
      && r.effects[3] == Schedule(if accepted then SavedResetDelay else ErrorResetDelay)
      && r.page.status == (if accepted then Saved else Error)
      && r.page.timers == p.timers + [r.effects[3].delay]
    ensures r.page == p.(status := r.page.status, confirmed := r.page.confirmed, timers := r.page.timers)
    ensures accepted && p.confirmed.Some? && p.draft.Some? ==>
      r.page.confirmed == Some(Merge(p.confirmed.value, changes))
    ensures !accepted || p.confirmed.None? || p.draft.None? ==> r.page.confirmed == p.confirmed
  {
    if changes == EmptyDelta then Step(p, [])
    else
      var sending := [SetStatus(Saving), Send(ApiClient.UpdateSettings(changes))];
      if accepted then
        var confirmed :=
          if p.confirmed.Some? && p.draft.Some? then Some(Merge(p.confirmed.value, changes)) else p.confirmed;
        Step(p.(status := Saved, confirmed := confirmed, timers := p.timers + [SavedResetDelay]),
             sending + [SetStatus(Saved), Schedule(SavedResetDelay)])
      else
        Step(p.(status := Error, timers := p.timers + [ErrorResetDelay]),
             sending + [SetStatus(Error), Schedule(ErrorResetDelay)])
  }

  /** `handleFieldChange`: the candidate becomes the draft; once settings are loaded,
      the change set against the confirmed snapshot is saved when it is not empty. */
  function HandleFieldChange(p: Page, candidate: Snapshot, accepted: bool): (r: Step)
    ensures r.page.draft == Some(candidate)
    ensures p.confirmed.None? ==> r == Step(p.(draft := Some(candidate)), [])
    ensures p.confirmed.Some? ==> r == SaveChanges(p.(draft := Some(candidate)), Diff(p.confirmed.value, candidate), accepted)
  {
    var p1 := p.(draft := Some(candidate));
    if p.confirmed.None? then Step(p1, [])
    else
      var changes := Diff(p.confirmed.value, candidate);
      if changes == EmptyDelta then Step(p1, []) else SaveChanges(p1, changes, accepted)
  }

  /** Removes the `index`-th pending timer. */
  function RemoveAt(timers: seq<nat>, index: nat): (r: seq<nat>)
    requires index < |timers|
    ensures |r| == |timers| - 1
  {
    timers[..index] + timers[index + 1..]
  }

  /** The page's reaction to one event. */
  function Next(p: Page, e: Event): Step {
    match e
    case Mounted => Step(p, [Send(ApiClient.GetSettings)])
    case Loaded(response) =>
      if response.Some? then Step(p.(draft := response, confirmed := response, loading := false), [])
      else Step(p.(loading := false), [])
    case Typed(input, raw) =>
      if p.draft.None? then Step(p, []) else Step(p.(draft := Some(ApplyInput(p.draft.value, input, raw))), [])
    case Blurred(accepted) =>
      if p.draft.None? then Step(p, []) else HandleFieldChange(p, p.draft.value, accepted)
    case Toggled(t, checked, accepted) =>
      if p.draft.None? then Step(p, []) else HandleFieldChange(p, ApplyToggle(p.draft.value, t, checked), accepted)
    case TypedNewKey(list, raw) => Step(WithNewKeyInput(p, list, raw), [])
    case AddClicked(list, accepted) =>
      var key := NewKeyInput(p, list);
      if p.draft.None? || !AddAccepted(KeysOf(p.draft.value, list), key) then Step(p, [])
      else
        var s := HandleFieldChange(p, WithKeys(p.draft.value, list, AddKey(KeysOf(p.draft.value, list), key)), accepted);
        Step(WithNewKeyInput(s.page, list, ""), s.effects)
    case RemoveClicked(list, key, accepted) =>
      if p.draft.None? then Step(p, [])
      else HandleFieldChange(p, WithKeys(p.draft.value, list, RemoveKey(KeysOf(p.draft.value, list), key)), accepted)
    case TimerFired(i) =>
      if i < |p.timers| then Step(p.(status := Idle, timers := RemoveAt(p.timers, i)), [SetStatus(Idle)])
      else Step(p, [])
  }

  /** The state after a sequence of events, and all the effects they caused. */
  function RunEvents(p: Page, events: seq<Event>): Page
    decreases |events|
  {
    if |events| == 0 then p else RunEvents(Next(p, events[0]).page, events[1..])
  }

  // ---------------------------------------------------------------------------
  // The status machine

  /** The moves the save status makes: a commit may start from any status, `saved`
      and `error` follow `saving`, and a timer returns to `idle`. */
  predicate StatusMove(from: SaveStatus, to: SaveStatus) {
    match to
    case Saving => true
    case Saved => from == Saving
    case Error => from == Saving
    case Idle => from != Saving
  }

  /** The status changes among a step's effects, in order. */
  function StatusUpdates(effects: seq<Effect>): seq<SaveStatus>
    decreases |effects|
  {
    if |effects| == 0 then []
    else (if effects[0].SetStatus? then [effects[0].status] else []) + StatusUpdates(effects[1..])
  }

  /** Every consecutive pair of statuses, starting from `from`, is a move. */
  predicate Chain(from: SaveStatus, updates: seq<SaveStatus>)
    decreases |updates|
  {
    |updates| == 0 || (StatusMove(from, updates[0]) && Chain(updates[0], updates[1..]))
  }

  function LastStatus(from: SaveStatus, updates: seq<SaveStatus>): SaveStatus {
    if |updates| == 0 then from else updates[|updates| - 1]
  }

  /** What holds of every page between events: settings are either not loaded at all or
      both snapshots are present; no save is half-done; and a `saved` or `error`
      status always has a pending reset. */
  predicate Inv(p: Page) {
    && (p.draft.Some? <==> p.confirmed.Some?)
    && p.status != Saving
    && (p.status == Saved || p.status == Error ==> |p.timers| > 0)
  }

  lemma InitialInv()
    ensures Inv(Initial)
  {
  }

  lemma StatusUpdatesCons(e: Effect, rest: seq<Effect>)
    ensures StatusUpdates([e] + rest) == (if e.SetStatus? then [e.status] else []) + StatusUpdates(rest)
  {
    assert ([e] + rest)[1..] == rest;
  }

  lemma StatusUpdatesOfSave(effects: seq<Effect>, changes: Delta, final: SaveStatus, delay: nat)
    requires effects == [SetStatus(Saving), Send(ApiClient.UpdateSettings(changes))] + [SetStatus(final), Schedule(delay)]
    ensures StatusUpdates(effects) == [Saving, final]
  {
    var send := Send(ApiClient.UpdateSettings(changes));
    assert effects == [SetStatus(Saving)] + ([send] + ([SetStatus(final)] + ([Schedule(delay)] + [])));
    StatusUpdatesCons(Schedule(delay), []);
    StatusUpdatesCons(SetStatus(final), [Schedule(delay)] + []);
    StatusUpdatesCons(send, [SetStatus(final)] + ([Schedule(delay)] + []));
    StatusUpdatesCons(SetStatus(Saving), [send] + ([SetStatus(final)] + ([Schedule(delay)] + [])));
  }

  lemma ChainOfSave(from: SaveStatus, final: SaveStatus)
    requires final == Saved || final == Error
    ensures Chain(from, [Saving, final]) && LastStatus(from, [Saving, final]) == final
  {
    assert [Saving, final][1..] == [final];
    assert [final][1..] == [];
  }

  /** The status effects of a commit: none when nothing changed, otherwise `saving`
      then `saved` or `error`. */
  lemma CommitStatuses(p: Page, candidate: Snapshot, accepted: bool)
    ensures var r := HandleFieldChange(p, candidate, accepted);
            || (r.effects == [] && r.page.status == p.status && r.page.timers == p.timers)
            || (StatusUpdates(r.effects) == [Saving, r.page.status] &&
                r.page.status == (if accepted then Saved else Error) && |r.page.timers| > 0)
  {
    if p.confirmed.Some? {
      var changes := Diff(p.confirmed.value, candidate);
      if changes != EmptyDelta {
        var d := if accepted then SavedResetDelay else ErrorResetDelay;
        var r := SaveChanges(p.(draft := Some(candidate)), changes, accepted);
        assert r.effects == [SetStatus(Saving), Send(ApiClient.UpdateSettings(changes))] + [SetStatus(r.page.status), Schedule(d)];
        StatusUpdatesOfSave(r.effects, changes, r.page.status, d);
      }
    }
  }

  /** A commit from a page satisfying the invariant keeps the status machine and the
      invariant. */
  lemma CommitKeepsStatusMachine(p: Page, candidate: Snapshot, accepted: bool)
    requires Inv(p) && p.draft.Some?
    ensures var r := HandleFieldChange(p, candidate, accepted);
            && Chain(p.status, StatusUpdates(r.effects))
            && r.page.status == LastStatus(p.status, StatusUpdates(r.effects))
            && Inv(r.page)
  {
    CommitStatuses(p, candidate, accepted);
    var r := HandleFieldChange(p, candidate, accepted);
    if r.effects != [] {
      ChainOfSave(p.status, r.page.status);
    }
  }

  lemma StatusUpdatesSingle(e: Effect)
    ensures StatusUpdates([e]) == if e.SetStatus? then [e.status] else []
  {
    StatusUpdatesCons(e, []);
  }

  /** The commit an event triggers, if any: the candidate draft it commits. */
  function CommittedDraft(p: Page, e: Event): Option<Snapshot> {
    if p.draft.None? then None
    else
      match e
      case Blurred(_) => Some(p.draft.value)
      case Toggled(t, checked, _) => Some(ApplyToggle(p.draft.value, t, checked))
      case AddClicked(list, _) =>
        var key := NewKeyInput(p, list);
        if AddAccepted(KeysOf(p.draft.value, list), key)
        then Some(WithKeys(p.draft.value, list, AddKey(KeysOf(p.draft.value, list), key)))
        else None
      case RemoveClicked(list, key, _) =>
        Some(WithKeys(p.draft.value, list, RemoveKey(KeysOf(p.draft.value, list), key)))
      case _ => None
  }

  function Accepted(e: Event): bool {
    match e
    case Blurred(a) => a
    case Toggled(_, _, a) => a
    case AddClicked(_, a) => a
    case RemoveClicked(_, _, a) => a
    case _ => false
  }

  /** Events that commit behave as the commit they trigger, up to the new-key input. */
  lemma NextOfCommit(p: Page, e: Event)
    requires CommittedDraft(p, e).Some?
    ensures var r := HandleFieldChange(p, CommittedDraft(p, e).value, Accepted(e));
            && Next(p, e).effects == r.effects
            && Next(p, e).page.(newApiKey := r.page.newApiKey, newAdminKey := r.page.newAdminKey) == r.page
  {
  }

  /** Events that do not commit set the status to `idle` at most. */
  lemma NextWithoutCommit(p: Page, e: Event)
    requires Inv(p) && CommittedDraft(p, e).None?
    ensures Chain(p.status, StatusUpdates(Next(p, e).effects))
    ensures Next(p, e).page.status == LastStatus(p.status, StatusUpdates(Next(p, e).effects))
    ensures Inv(Next(p, e).page)
  {
    match e
    case TimerFired(i) =>
      StatusUpdatesSingle(SetStatus(Idle));
    case Mounted =>
      StatusUpdatesSingle(Send(ApiClient.GetSettings));
    case _ =>
  }

  /** Status sequencing: every event moves the status along the machine's moves, the
      status the page is left in is the last one set, and the invariant is kept. */
  lemma NextKeepsStatusMachine(p: Page, e: Event)
    requires Inv(p)
    ensures Chain(p.status, StatusUpdates(Next(p, e).effects))
    ensures Next(p, e).page.status == LastStatus(p.status, StatusUpdates(Next(p, e).effects))
    ensures Inv(Next(p, e).page)
  {
    if CommittedDraft(p, e).Some? {
      NextOfCommit(p, e);
      CommitKeepsStatusMachine(p, CommittedDraft(p, e).value, Accepted(e));
    } else {
      NextWithoutCommit(p, e);
    }
  }

  /** Every page reachable from the initial one satisfies the invariant. */
  lemma {:induction false} RunKeepsInv(p: Page, events: seq<Event>)
    requires Inv(p)
    ensures Inv(RunEvents(p, events))
    decreases |events|
  {
    if |events| > 0 {
      NextKeepsStatusMachine(p, events[0]);
      RunKeepsInv(Next(p, events[0]).page, events[1..]);
    }
  }

  /** `saved` and `error` revert to `idle`: firing the pending timers one after another
      leaves the page idle with nothing pending. */
  lemma {:induction false} TimersRevertToIdle(p: Page)
    requires |p.timers| > 0
    ensures var q := RunEvents(p, seq(|p.timers|, _ => TimerFired(0)));
            q.status == Idle && q.timers == [] && q.draft == p.draft && q.confirmed == p.confirmed
    decreases |p.timers|
  {
    var events := seq(|p.timers|, _ => TimerFired(0));
    var q := Next(p, TimerFired(0)).page;
    assert events[1..] == seq(|q.timers|, _ => TimerFired(0));
    if |q.timers| > 0 {
      TimersRevertToIdle(q);
    } else {
      assert events[1..] == [];
    }
  }

  /** The source never cancels a reset: after a successful save followed by a failed
      one, the older 3 s timer clears the error while the error's own 5 s timer is
      still pending. */
  lemma StaleTimerClearsLaterError(s: Snapshot)
    ensures var p := Page(Some(s), Some(s), false, Idle, [], "", "");
            var p1 := Next(p, Toggled(UseRealRolesToggle, !s.use_real_roles, true)).page;
            var p2 := Next(p1, Toggled(PreserveChatsToggle, !s.preserve_chats, false)).page;
            var p3 := Next(p2, TimerFired(0)).page;
            && p1.status == Saved && p2.status == Error
            && p2.timers == [SavedResetDelay, ErrorResetDelay]
            && p3.status == Idle && p3.timers == [ErrorResetDelay]
  {
    var p := Page(Some(s), Some(s), false, Idle, [], "", "");
    var c1 := ApplyToggle(s, UseRealRolesToggle, !s.use_real_roles);
    assert c1 != s;
    DiffEmptyIffEqual(s, c1);
    var p1 := Next(p, Toggled(UseRealRolesToggle, !s.use_real_roles, true)).page;
    MergeDiffRoundTrip(s, c1);
    assert p1.confirmed == Some(c1);
    var c2 := ApplyToggle(c1, PreserveChatsToggle, !s.preserve_chats);
    assert c2 != c1;
    DiffEmptyIffEqual(c1, c2);
  }

  // ---------------------------------------------------------------------------
  // Commit properties

  /** Self-diff is empty: committing a draft equal to the confirmed snapshot sends
      nothing and leaves status, timers and the confirmed snapshot alone, whatever the
      draft was before. */
  lemma CommitUnchangedDraftIsNoop(p: Page, accepted: bool)
    requires p.confirmed.Some?
    ensures HandleFieldChange(p, p.confirmed.value, accepted) == Step(p.(draft := p.confirmed), [])
  {
    DiffEmptyIffEqual(p.confirmed.value, p.confirmed.value);
  }

  /** A commit of a changed draft sends exactly the fields that differ from the
      confirmed snapshot (not from the previous draft), each with the draft's value. */
  lemma CommitSendsExactDiff(p: Page, candidate: Snapshot, accepted: bool)
    requires p.confirmed.Some? && candidate != p.confirmed.value
    ensures var r := HandleFieldChange(p, candidate, accepted);
            && |r.effects| == 4 && r.effects[0] == SetStatus(Saving)
            && r.effects[1].Send? && r.effects[1].call.UpdateSettings?
            && Keys(r.effects[1].call.changes) == ChangedFields(p.confirmed.value, candidate)
            && (forall f :: f in Keys(r.effects[1].call.changes) ==>
                  DeltaGet(r.effects[1].call.changes, f) == Some(Get(candidate, f)))
  {
    var c := p.confirmed.value;
    DiffEmptyIffEqual(c, candidate);
    DiffKeysExact(c, candidate);
    forall f | f in Keys(Diff(c, candidate)) ensures DeltaGet(Diff(c, candidate), f) == Some(Get(candidate, f)) {
      DiffAt(c, candidate, f);
    }
  }

  /** Merge on success: the confirmed snapshot becomes the old one with exactly the
      changed fields overwritten, which is the committed draft itself. */
  lemma AcceptedCommitConfirmsDraft(p: Page, candidate: Snapshot)
    requires p.confirmed.Some?
    ensures var r := HandleFieldChange(p, candidate, true);
            && r.page.confirmed == Some(candidate) == r.page.draft
            && (forall f :: f !in ChangedFields(p.confirmed.value, candidate) ==>
                  Get(r.page.confirmed.value, f) == Get(p.confirmed.value, f))
  {
    var c := p.confirmed.value;
    DiffEmptyIffEqual(c, candidate);
    MergeDiffRoundTrip(c, candidate);
    forall f | f !in ChangedFields(c, candidate) ensures Get(candidate, f) == Get(c, f) {
      AllFieldsComplete(f);
    }
  }

  /** No rollback on failure: the confirmed snapshot is kept and the draft keeps the
      user's edits, so the next commit sends them again. */
  lemma RejectedCommitKeepsEdits(p: Page, candidate: Snapshot)
    ensures var r := HandleFieldChange(p, candidate, false);
            r.page.confirmed == p.confirmed && r.page.draft == Some(candidate)
  {
  }

  /** Typing only edits the draft: one field, coerced, and no request. */
  lemma TypingNeverSaves(p: Page, input: TextInput, raw: string)
    requires p.draft.Some?
    ensures var r := Next(p, Typed(input, raw));
            && r.effects == [] && r.page.confirmed == p.confirmed && r.page.status == p.status
            && Get(r.page.draft.value, FieldOfInput(input)) == InputValue(input, raw)
            && (forall g :: g != FieldOfInput(input) ==> Get(r.page.draft.value, g) == Get(p.draft.value, g))
  {
  }

  /** Clearing an optional text input stores `null`. */
  lemma ClearingOptionalStoresNull(s: Snapshot)
    ensures ApplyInput(s, ProxyUrlInput, "").proxy_url.None?
    ensures ApplyInput(s, CustomPromptInput, "").custom_prompt.None?
  {
    assert ApplyInput(s, ProxyUrlInput, "") == s.(proxy_url := OptionalText(""));
    assert ApplyInput(s, CustomPromptInput, "") == s.(custom_prompt := OptionalText(""));
  }

  /** The padding length stores 0 exactly when `parseInt` finds no digit to start
      the number body (`NaN`), or reads zero. */
  lemma NonNumericPaddingStoresZero(s: Snapshot, raw: string)
    ensures ApplyInput(s, PadtxtLengthInput, raw).padtxt_length == 0 <==>
            !StartsWithDigit(NumberBody(raw)) || ParseInt(raw) == Some(0)
  {
    NonNumericIsZero(raw);
    assert ApplyInput(s, PadtxtLengthInput, raw) == s.(padtxt_length := PadLength(raw));
  }

  // ---------------------------------------------------------------------------
  // Key lists on the page

  /** Adding a key: refused (no request, input kept) when the key is empty or already
      listed; otherwise the key is appended, every other field of the draft is kept,
      the input is cleared, and a duplicate-free list stays duplicate-free. */
  lemma AddKeyOnPage(p: Page, list: KeyListName, accepted: bool)
    requires p.draft.Some?
    ensures var key := NewKeyInput(p, list);
            var r := Next(p, AddClicked(list, accepted));
            && (!AddAccepted(KeysOf(p.draft.value, list), key) ==> r == Step(p, []))
            && (AddAccepted(KeysOf(p.draft.value, list), key) ==>
                  && KeysOf(r.page.draft.value, list) == KeysOf(p.draft.value, list) + [key]
                  && (forall g :: g != FieldOfList(list) ==> Get(r.page.draft.value, g) == Get(p.draft.value, g))
                  && NewKeyInput(r.page, list) == "")
            && (NoDup(KeysOf(p.draft.value, list)) ==> NoDup(KeysOf(r.page.draft.value, list)))
  {
  }

  /** Replacing a key list by a different one changes that field and nothing else. */
  lemma WithKeysChangedFields(d: Snapshot, list: KeyListName, keys: seq<string>)
    requires keys != KeysOf(d, list)
    ensures ChangedFields(d, WithKeys(d, list, keys)) == {FieldOfList(list)}
  {
    var candidate := WithKeys(d, list, keys);
    assert Get(candidate, FieldOfList(list)) != Get(d, FieldOfList(list)) by {
      match list
      case UserKeys =>
      case AdminKeys =>
    }
    forall g | g in AllFields ensures g in ChangedFields(d, candidate) <==> g == FieldOfList(list) {
    }
  }

  /** Removing a key: every occurrence leaves the list, the rest keep their order, and
      every other field of the draft is kept. When the draft had no pending edits and
      the key was listed, the request carries the key list and nothing else. */
  lemma RemoveKeyOnPage(p: Page, list: KeyListName, key: string, accepted: bool)
    requires p.draft.Some?
    ensures var r := Next(p, RemoveClicked(list, key, accepted));
            && key !in KeysOf(r.page.draft.value, list)
            && IsSubsequence(KeysOf(r.page.draft.value, list), KeysOf(p.draft.value, list))
            && (forall x :: x != key ==>
                  multiset(KeysOf(r.page.draft.value, list))[x] == multiset(KeysOf(p.draft.value, list))[x])
            && (forall g :: g != FieldOfList(list) ==> Get(r.page.draft.value, g) == Get(p.draft.value, g))
            && (p.confirmed == p.draft && key in KeysOf(p.draft.value, list) ==>
                  r.effects[1].Send? && Keys(r.effects[1].call.changes) == {FieldOfList(list)})
  {
    var d := p.draft.value;
    var keys := RemoveKey(KeysOf(d, list), key);
    var candidate := WithKeys(d, list, keys);
    assert Next(p, RemoveClicked(list, key, accepted)) == HandleFieldChange(p, candidate, accepted);
    if p.confirmed == p.draft && key in KeysOf(d, list) {
      assert keys != KeysOf(d, list);
      WithKeysChangedFields(d, list, keys);
      assert candidate != d;
      CommitSendsExactDiff(p, candidate, accepted);
    }
  }

  /** The scenario of adding a second key: the request carries only the new list, and
      on success the confirmed list holds both keys, the status is `saved`, and the
      timer brings it back to `idle`. */
  lemma AddSecondKeyScenario(s: Snapshot)
    requires s.api_keys == ["k1"]
    ensures var p0 := Page(Some(s), Some(s), false, Idle, [], "", "");
            var p1 := Next(p0, TypedNewKey(UserKeys, "k2")).page;
            var r := Next(p1, AddClicked(UserKeys, true));
            var p3 := Next(r.page, TimerFired(0)).page;
            && r.effects[1] == Send(ApiClient.UpdateSettings(EmptyDelta.(api_keys := Some(["k1", "k2"]))))
            && r.page.confirmed.value.api_keys == ["k1", "k2"]
            && r.page.status == Saved && r.page.newApiKey == ""
            && p3.status == Idle && p3.timers == []
  {
    var candidate := s.(api_keys := ["k1", "k2"]);
    assert ["k1"] + ["k2"] == ["k1", "k2"];
    assert candidate != s by { assert candidate.api_keys != s.api_keys; }
    DiffEmptyIffEqual(s, candidate);
    MergeDiffRoundTrip(s, candidate);
    assert Diff(s, candidate) == EmptyDelta.(api_keys := Some(["k1", "k2"]));
  }
}
