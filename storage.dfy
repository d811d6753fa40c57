/** The browser's `localStorage`: one string-to-string map shared by every store
    and by the transport, and the keys the client keeps there. */
module BrowserStorage {
  import opened Js

  type Items = map<string, string>

  /** The raw bearer token. */
  const TokenKey: string := "auth_token"
  /** The serialized user profile. */
  const UserKey: string := "user"
  /** `"dark"` or `"light"`. */
  const ThemeKey: string := "theme"

  /** `localStorage.getItem(key)`: `null` for a missing key. */
  function Lookup(items: Items, key: string): Option<string> {
    if key in items then Some(items[key]) else None
  }

  /** `!!localStorage.getItem('auth_token')`: the stored token is present and non-empty. */
  predicate HasToken(items: Items) {
    Truthy(Lookup(items, TokenKey))
  }

  /** Removing `auth_token` and then `user`, as logout and the 401 handler both do. */
  function ClearSession(items: Items): (r: Items)
    ensures TokenKey !in r && UserKey !in r
    ensures !HasToken(r)
    ensures forall k :: k != TokenKey && k != UserKey ==> Lookup(r, k) == Lookup(items, k)
    ensures r.Keys <= items.Keys
  {
    items - {TokenKey, UserKey}
  }

  lemma ClearSessionIdempotent(items: Items)
    ensures ClearSession(ClearSession(items)) == ClearSession(items)
  {
  }

  /** The browser object itself. A store or the transport is handed the object to
      use; that they all share one is stated where they are composed. */
  class LocalStorage {
    var items: Items

    constructor (initial: Items)
      ensures items == initial
    {
      items := initial;
    }

    function GetItem(key: string): Option<string>
      reads this
    {
      Lookup(items, key)
    }

    method SetItem(key: string, value: string)
      modifies this
      ensures items == old(items)[key := value]
    {
      items := items[key := value];
    }

    method RemoveItem(key: string)
      modifies this
      ensures items == old(items) - {key}
    {
      items := items - {key};
    }
  }
}
