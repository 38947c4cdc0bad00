/** The browser's `localStorage`, which holds the console's session: the
    bearer token under `admin_token` and the login flag under
    `admin_authenticated`. */
module Storage {

  import opened Optional

  const TokenKey := "admin_token"
  const AuthFlagKey := "admin_authenticated"

  class LocalStorage {
    var items: map<string, string>

    constructor (initial: map<string, string>)
      ensures items == initial
    {
      items := initial;
    }

    /** `getItem(key)`: the stored string, or `null` when the key is absent. */
    function GetItem(key: string): (r: Option<string>)
      reads this
      ensures r.Some? <==> key in items
      ensures r.Some? ==> r.value == items[key]
    {
      if key in items then Some(items[key]) else None
    }

    /** `setItem(key, value)`. */
    method SetItem(key: string, value: string)
      modifies this
      ensures items == old(items)[key := value]
    {
      items := items[key := value];
    }

    /** `removeItem(key)`: a missing key is not an error. */
    method RemoveItem(key: string)
      modifies this
      ensures items == old(items) - {key}
    {
      items := items - {key};
    }
  }

  /** The session as it stands after both session keys are removed, which is
      what both transports do on an HTTP 401. */
  function ClearSession(items: map<string, string>): (r: map<string, string>)
    ensures TokenKey !in r && AuthFlagKey !in r
    ensures forall k :: k != TokenKey && k != AuthFlagKey ==> (k in r <==> k in items)
    ensures forall k :: k in r ==> r[k] == items[k]
  {
    items - {TokenKey, AuthFlagKey}
  }
}
