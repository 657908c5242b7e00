/** The change set sent when a settings field is committed, and the merge applied to
    the confirmed snapshot once the server accepted it (src/pages/Settings.tsx). */
module SettingsDiff {
  import opened Basics
  import opened ApiTypes

  /** The fields whose values differ between two snapshots. */
  function ChangedFields(base: Snapshot, candidate: Snapshot): set<Field> {
    set f | f in AllFields && Get(base, f) != Get(candidate, f)
  }

  /** The change set built by `handleFieldChange`: every key of the candidate whose
      serialized value differs from the confirmed snapshot, with the candidate's value.
      Serialized equality is structural equality here (lists compared in order, `null`
      distinct from every string). */
  function Diff(confirmed: Snapshot, candidate: Snapshot): Delta
  {
    Delta(
      if candidate.api_keys != confirmed.api_keys then Some(candidate.api_keys) else None,
      if candidate.admin_api_keys != confirmed.admin_api_keys then Some(candidate.admin_api_keys) else None,
      if candidate.claude_ai_url != confirmed.claude_ai_url then Some(candidate.claude_ai_url) else None,
      if candidate.claude_api_baseurl != confirmed.claude_api_baseurl then Some(candidate.claude_api_baseurl) else None,
      if candidate.proxy_url != confirmed.proxy_url then Some(candidate.proxy_url) else None,
      if candidate.custom_prompt != confirmed.custom_prompt then Some(candidate.custom_prompt) else None,
      if candidate.human_name != confirmed.human_name then Some(candidate.human_name) else None,
      if candidate.assistant_name != confirmed.assistant_name then Some(candidate.assistant_name) else None,
      if candidate.padtxt_length != confirmed.padtxt_length then Some(candidate.padtxt_length) else None,
      if candidate.use_real_roles != confirmed.use_real_roles then Some(candidate.use_real_roles) else None,
      if candidate.allow_external_images != confirmed.allow_external_images then Some(candidate.allow_external_images) else None,
      if candidate.preserve_chats != confirmed.preserve_chats then Some(candidate.preserve_chats) else None)
  }

  /** `{ ...confirmed, ...changes }`: every key present in the update overwrites the
      confirmed value, every other key keeps it. */
  function Merge(confirmed: Snapshot, changes: Delta): Snapshot
  {
    Snapshot(
      changes.api_keys.GetOr(confirmed.api_keys),
      changes.admin_api_keys.GetOr(confirmed.admin_api_keys),
      changes.claude_ai_url.GetOr(confirmed.claude_ai_url),
      changes.claude_api_baseurl.GetOr(confirmed.claude_api_baseurl),
      changes.proxy_url.GetOr(confirmed.proxy_url),
      changes.custom_prompt.GetOr(confirmed.custom_prompt),
      changes.human_name.GetOr(confirmed.human_name),
      changes.assistant_name.GetOr(confirmed.assistant_name),
      changes.padtxt_length.GetOr(confirmed.padtxt_length),
      changes.use_real_roles.GetOr(confirmed.use_real_roles),
      changes.allow_external_images.GetOr(confirmed.allow_external_images),
      changes.preserve_chats.GetOr(confirmed.preserve_chats))
  }

  /** Diff, one field at a time: a key is present iff the field's values differ, and
      then it carries the candidate's value. */
  lemma DiffAt(confirmed: Snapshot, candidate: Snapshot, f: Field)
    ensures DeltaGet(Diff(confirmed, candidate), f) ==
            if Get(confirmed, f) == Get(candidate, f) then None else Some(Get(candidate, f))
  {
  }

  /** Merge, one field at a time: a key present in the update overwrites the field,
      an absent key leaves the confirmed value. */
  lemma MergeAt(confirmed: Snapshot, changes: Delta, f: Field)
    ensures Get(Merge(confirmed, changes), f) ==
            if DeltaGet(changes, f).Some? then DeltaGet(changes, f).value else Get(confirmed, f)
  {
  }

  /** Every field is one of the declared fields. */
  lemma AllFieldsComplete(f: Field)
    ensures f in AllFields
  {
  }

  /** Two snapshots that agree on every field are equal. */
  lemma SnapshotExtensional(a: Snapshot, b: Snapshot)
    requires forall f :: Get(a, f) == Get(b, f)
    ensures a == b
  {
    assert Get(a, ApiKeys) == Get(b, ApiKeys);
    assert Get(a, AdminApiKeys) == Get(b, AdminApiKeys);
    assert Get(a, ClaudeAiUrl) == Get(b, ClaudeAiUrl);
    assert Get(a, ClaudeApiBaseurl) == Get(b, ClaudeApiBaseurl);
    assert Get(a, ProxyUrl) == Get(b, ProxyUrl);
    assert Get(a, CustomPrompt) == Get(b, CustomPrompt);
    assert Get(a, HumanName) == Get(b, HumanName);
    assert Get(a, AssistantName) == Get(b, AssistantName);
    assert Get(a, PadtxtLength) == Get(b, PadtxtLength);
    assert Get(a, UseRealRoles) == Get(b, UseRealRoles);
    assert Get(a, AllowExternalImages) == Get(b, AllowExternalImages);
    assert Get(a, PreserveChats) == Get(b, PreserveChats);
  }

  /** An update object with no keys is `{}`. */
  lemma NoKeysIsEmpty(d: Delta)
    ensures Keys(d) == {} <==> d == EmptyDelta
  {
    if Keys(d) == {} {
      forall f | f in AllFields ensures DeltaGet(d, f).None? {
        assert f !in Keys(d);
      }
      assert DeltaGet(d, ApiKeys).None? && DeltaGet(d, AdminApiKeys).None?;
      assert DeltaGet(d, ClaudeAiUrl).None? && DeltaGet(d, ClaudeApiBaseurl).None?;
      assert DeltaGet(d, ProxyUrl).None? && DeltaGet(d, CustomPrompt).None?;
      assert DeltaGet(d, HumanName).None? && DeltaGet(d, AssistantName).None?;
      assert DeltaGet(d, PadtxtLength).None? && DeltaGet(d, UseRealRoles).None?;
      assert DeltaGet(d, AllowExternalImages).None? && DeltaGet(d, PreserveChats).None?;
    }
  }

  /** Diff exactness: the keys of the change set are exactly the fields that differ. */
  lemma DiffKeysExact(confirmed: Snapshot, candidate: Snapshot)
    ensures Keys(Diff(confirmed, candidate)) == ChangedFields(confirmed, candidate)
  {
    forall f | f in AllFields ensures f in Keys(Diff(confirmed, candidate)) <==> f in ChangedFields(confirmed, candidate) {
      DiffAt(confirmed, candidate, f);
    }
  }

  /** Self-diff is empty, and only self-diff is: no request is made exactly when the
      draft equals the confirmed snapshot. */
  lemma DiffEmptyIffEqual(confirmed: Snapshot, candidate: Snapshot)
    ensures Diff(confirmed, candidate) == EmptyDelta <==> confirmed == candidate
    ensures Keys(Diff(confirmed, candidate)) == {} <==> confirmed == candidate
  {
    NoKeysIsEmpty(Diff(confirmed, candidate));
    if Keys(Diff(confirmed, candidate)) == {} {
      forall f ensures Get(confirmed, f) == Get(candidate, f) {
        AllFieldsComplete(f);
        DiffAt(confirmed, candidate, f);
        assert f !in Keys(Diff(confirmed, candidate));
      }
      SnapshotExtensional(confirmed, candidate);
    }
  }

  /** Merging a change set into the snapshot it was taken against gives the draft back:
      after a successful save the confirmed snapshot equals the committed draft. */
  lemma MergeDiffRoundTrip(confirmed: Snapshot, candidate: Snapshot)
    ensures Merge(confirmed, Diff(confirmed, candidate)) == candidate
  {
    forall f ensures Get(Merge(confirmed, Diff(confirmed, candidate)), f) == Get(candidate, f) {
      DiffAt(confirmed, candidate, f);
      MergeAt(confirmed, Diff(confirmed, candidate), f);
    }
    SnapshotExtensional(Merge(confirmed, Diff(confirmed, candidate)), candidate);
  }

  /** Merging `{}` changes nothing. */
  lemma MergeEmptyIsIdentity(confirmed: Snapshot)
    ensures Merge(confirmed, EmptyDelta) == confirmed
  {
    forall f ensures Get(Merge(confirmed, EmptyDelta), f) == Get(confirmed, f) {
      MergeAt(confirmed, EmptyDelta, f);
    }
    SnapshotExtensional(Merge(confirmed, EmptyDelta), confirmed);
  }

  /** A merge only changes fields named in the update. */
  lemma MergeChangesOnlyKeys(confirmed: Snapshot, changes: Delta)
    ensures ChangedFields(confirmed, Merge(confirmed, changes)) <= Keys(changes)
  {
    forall f | f in ChangedFields(confirmed, Merge(confirmed, changes)) ensures f in Keys(changes) {
      MergeAt(confirmed, changes, f);
    }
  }

  /** The change set of a merge is the part of the update whose values are new. */
  lemma DiffOfMerge(confirmed: Snapshot, changes: Delta)
    ensures Keys(Diff(confirmed, Merge(confirmed, changes))) ==
            set f | f in Keys(changes) && DeltaGet(changes, f).value != Get(confirmed, f)
  {
    var merged := Merge(confirmed, changes);
    forall f ensures f in Keys(Diff(confirmed, merged)) <==> f in Keys(changes) && DeltaGet(changes, f).value != Get(confirmed, f) {
      AllFieldsComplete(f);
      DiffAt(confirmed, merged, f);
      MergeAt(confirmed, changes, f);
    }
  }
}
