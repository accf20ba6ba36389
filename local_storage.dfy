/** The browser's string key-value storage (`localStorage`) as the premium gate uses it:
    one read at mount, one write on a granted checkout, one removal on revoke. */
module LocalStorage {

  /** The persisted contents of the storage: every key present maps to its string value. */
  type Store = map<string, string>

  datatype Option<+T> = None | Some(value: T)

  /** `getItem(key)`: the stored value, or `None` (JavaScript's `null`) when the key is absent. */
  function GetItem(s: Store, key: string): Option<string>
  {
    if key in s then Some(s[key]) else None
  }

  /** `setItem(key, value)`: afterwards `getItem(key)` yields `value`, and every other key reads as before. */
  function SetItem(s: Store, key: string, value: string): (r: Store)
    ensures GetItem(r, key) == Some(value)
    ensures forall k :: k != key ==> GetItem(r, k) == GetItem(s, k)
    ensures r.Keys == s.Keys + {key}
  {
    s[key := value]
  }

  /** `removeItem(key)`: afterwards `getItem(key)` yields `null`, and every other key reads as before.
      Removing an absent key is allowed and changes nothing. */
  function RemoveItem(s: Store, key: string): (r: Store)
    ensures GetItem(r, key) == None
    ensures forall k :: k != key ==> GetItem(r, k) == GetItem(s, k)
    ensures r.Keys == s.Keys - {key}
    ensures key !in s ==> r == s
  {
    s - {key}
  }

  /** Writing the same value twice is the same as writing it once. */
  lemma SetItemIdempotent(s: Store, key: string, value: string)
    ensures SetItem(SetItem(s, key, value), key, value) == SetItem(s, key, value)
  {
  }

  /** Removing a key twice is the same as removing it once. */
  lemma RemoveItemIdempotent(s: Store, key: string)
    ensures RemoveItem(RemoveItem(s, key), key) == RemoveItem(s, key)
  {
  }

  /** Removing a key undoes writing it, when the key was absent before the write. */
  lemma RemoveUndoesSet(s: Store, key: string, value: string)
    requires key !in s
    ensures RemoveItem(SetItem(s, key, value), key) == s
  {
  }
}
