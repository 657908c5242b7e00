/** The two API-key lists of the settings page: adding a key appends it unless it is
    empty or already listed, removing a key filters out every occurrence
    (src/pages/Settings.tsx:88-124). */
module KeyLists {
  import opened Basics

  /** The guard of `handleAddApiKey`/`handleAddAdminKey`: a non-empty key not yet listed. */
  predicate AddAccepted(keys: seq<string>, key: string) {
    key != "" && key !in keys
  }

  /** The list after an add: the new key at the end, or the list unchanged when the
      guard rejects the key. */
  function AddKey(keys: seq<string>, key: string): (r: seq<string>)
    ensures !AddAccepted(keys, key) ==> r == keys
    ensures keys <= r && |r| <= |keys| + 1
    ensures forall x :: x in r <==> x in keys || (x == key && key != "")
    ensures NoDup(keys) ==> NoDup(r)
  {
    if AddAccepted(keys, key) then keys + [key] else keys
  }

  /** `keys.filter(k => k !== key)`. */
  function RemoveKey(keys: seq<string>, key: string): (r: seq<string>)
    ensures key !in r
    ensures forall x :: x != key ==> (x in r <==> x in keys)
    ensures forall x :: x != key ==> multiset(r)[x] == multiset(keys)[x]
    ensures IsSubsequence(r, keys)
    ensures NoDup(keys) ==> NoDup(r)
    decreases |keys|
  {
    if |keys| == 0 then []
    else
      var rest := RemoveKey(keys[1..], key);
      assert keys == [keys[0]] + keys[1..];
      if keys[0] == key then
        assert rest == [] || rest[0] != keys[0];
        rest
      else
        assert NoDup(keys) ==> keys[0] !in keys[1..];
        [keys[0]] + rest
  }

  /** Removing a key that is not listed leaves the list as it was. */
  lemma {:induction false} RemoveAbsent(keys: seq<string>, key: string)
    requires key !in keys
    ensures RemoveKey(keys, key) == keys
    decreases |keys|
  {
    if |keys| > 0 {
      RemoveAbsent(keys[1..], key);
    }
  }

  /** Filtering distributes over concatenation. */
  lemma {:induction false} RemoveConcat(a: seq<string>, b: seq<string>, key: string)
    ensures RemoveKey(a + b, key) == RemoveKey(a, key) + RemoveKey(b, key)
    decreases |a|
  {
    if |a| == 0 {
      assert a + b == b;
    } else {
      assert (a + b)[1..] == a[1..] + b;
      RemoveConcat(a[1..], b, key);
    }
  }

  /** Removing a key just added restores the list. */
  lemma RemoveUndoesAdd(keys: seq<string>, key: string)
    requires AddAccepted(keys, key)
    ensures RemoveKey(AddKey(keys, key), key) == keys
  {
    RemoveConcat(keys, [key], key);
    RemoveAbsent(keys, key);
  }

  /** Removing twice is removing once. */
  lemma RemoveIdempotent(keys: seq<string>, key: string)
    ensures RemoveKey(RemoveKey(keys, key), key) == RemoveKey(keys, key)
  {
    RemoveAbsent(RemoveKey(keys, key), key);
  }

  /** Adding a key that is listed is refused; it has to be removed first, and re-adding
      it then moves it to the end. */
  lemma ReAddMovesToEnd(keys: seq<string>, key: string)
    requires key != ""
    ensures AddKey(RemoveKey(keys, key), key) == RemoveKey(keys, key) + [key]
  {
  }
}
