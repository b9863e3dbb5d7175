/**
 * The browser `localStorage` that holds the session tokens, with the
 * semantics of the in-memory double the application is exercised against:
 * `getItem` answers `null` both for a missing key and for a key whose value
 * is the empty string (`store[key] || null`), so "a token is present" means
 * present and non-empty.
 */
module Storage {
  import opened Wrappers

  const AccessTokenKey: string := "accessToken"
  const RefreshTokenKey: string := "refreshToken"

  /** `getItem` over a snapshot of the stored items. */
  function Lookup(items: map<string, string>, key: string): (r: Option<string>)
    ensures r.Some? <==> key in items && items[key] != ""
    ensures r.Some? ==> r.value == items[key] && r.value != ""
  {
    if key in items && items[key] != "" then Some(items[key]) else None
  }

  /** A value written is read back, unless it is empty, which reads as absent. */
  lemma LookupAfterSet(items: map<string, string>, key: string, value: string, other: string)
    ensures Lookup(items[key := value], key) == (if value == "" then None else Some(value))
    ensures other != key ==> Lookup(items[key := value], other) == Lookup(items, other)
  {
  }

  /** A removed key reads as absent; no other key is affected. */
  lemma LookupAfterRemove(items: map<string, string>, key: string, other: string)
    ensures Lookup(items - {key}, key) == None
    ensures other != key ==> Lookup(items - {key}, other) == Lookup(items, other)
  {
  }

  class LocalStorage {
    var items: map<string, string>

    constructor ()
      ensures items == map[]
    {
      items := map[];
    }

    /** `localStorage.getItem(key)`. */
    function GetItem(key: string): (r: Option<string>)
      reads this
      ensures r == Lookup(items, key)
    {
      Lookup(items, key)
    }

    /** `localStorage.setItem(key, value)`. */
    method SetItem(key: string, value: string)
      modifies this
      ensures items == old(items)[key := value]
    {
      items := items[key := value];
    }

    /** `localStorage.removeItem(key)`; removing a missing key changes nothing. */
    method RemoveItem(key: string)
      modifies this
      ensures items == old(items) - {key}
    {
      items := items - {key};
    }

    /** `localStorage.clear()`. */
    method Clear()
      modifies this
      ensures items == map[]
    {
      items := map[];
    }
  }
}
