/** The browser session: the login state the client keeps in memory and in
    step with two `localStorage` keys. */
module Session {

  const TokenKey: string := "auth_token"
  const UsernameKey: string := "username"

  /** The browser's `localStorage`: string values under string keys. */
  class LocalStorage {
    var items: map<string, string>

    constructor (items: map<string, string>)
      ensures this.items == items
    {
      this.items := items;
    }

    /** `getItem(key)`, and whether the value is truthy (present and not
        empty). */
    predicate HasValue(key: string)
      reads this
    {
      key in items && items[key] != ""
    }

    method SetItem(key: string, value: string)
      modifies this
      ensures items == old(items)[key := value]
    {
      items := items[key := value];
    }

    method RemoveItem(key: string)
      modifies this
      ensures items == old(items) - {key}
    {
      items := items - {key};
    }
  }

  /** The storage after a logout: both session keys gone, nothing else
      touched. */
  function WithoutSession(items: map<string, string>): (r: map<string, string>)
    ensures TokenKey !in r && UsernameKey !in r
    ensures forall k :: k != TokenKey && k != UsernameKey ==> (k in r <==> k in items) && (k in r ==> r[k] == items[k])
  {
    items - {TokenKey} - {UsernameKey}
  }

  /** Logging out twice leaves the storage as logging out once. */
  lemma WithoutSessionIdempotent(items: map<string, string>)
    ensures WithoutSession(WithoutSession(items)) == WithoutSession(items)
  {
    var once := WithoutSession(items);
    assert WithoutSession(once).Keys == once.Keys;
  }

  /** How a `fetch` ends: the request fails, or an answer arrives with its
      `ok` flag and its body parsed as JSON (`None` when the body is not
      JSON, so that `response.json()` throws). */
  datatype HttpOutcome<Body> =
    | NetworkFailure
    | Answered(ok: bool, body: Body)

  /** The session state of the auth provider. */
  class SessionStore {
    var isAuthenticated: bool
    var token: string
    var username: string
    const storage: LocalStorage

    /** Signed in: the storage holds this token and user name. Signed out:
        both are empty. */
    ghost predicate Valid()
      reads this, storage
    {
      && (isAuthenticated ==>
            && TokenKey in storage.items && storage.items[TokenKey] == token
            && UsernameKey in storage.items && storage.items[UsernameKey] == username)
      && (!isAuthenticated ==> token == "" && username == "")
    }

    /** The initial state: signed out, whatever the storage holds. */
    constructor (storage: LocalStorage)
      ensures Valid()
      ensures this.storage == storage && !isAuthenticated && token == "" && username == ""
    {
      this.storage := storage;
      isAuthenticated := false;
      token := "";
      username := "";
    }

    /** The mount effect: the stored session is taken over when both keys
        hold a non-empty value. */
    method Restore()
      requires Valid()
      modifies this
      ensures Valid() && unchanged(storage)
      ensures if storage.HasValue(TokenKey) && storage.HasValue(UsernameKey) then
          && isAuthenticated && token == storage.items[TokenKey] && username == storage.items[UsernameKey]
        else
          && isAuthenticated == old(isAuthenticated) && token == old(token) && username == old(username)
    {
      if storage.HasValue(TokenKey) && storage.HasValue(UsernameKey) {
        token := storage.items[TokenKey];
        username := storage.items[UsernameKey];
        isAuthenticated := true;
      }
    }

    /** `handleLogin`. It brings memory and storage back in step from any
        state, even after another writer changed the storage. */
    method Login(newToken: string, newUsername: string)
      modifies this, storage
      ensures Valid()
      ensures storage.items == old(storage.items)[TokenKey := newToken][UsernameKey := newUsername]
      ensures isAuthenticated && token == newToken && username == newUsername
    {
      storage.SetItem(TokenKey, newToken);
      storage.SetItem(UsernameKey, newUsername);
      token := newToken;
      username := newUsername;
      isAuthenticated := true;
    }

    /** `handleLogout`. The new state does not depend on the old one, so a
        second logout changes nothing. */
    method Logout()
      modifies this, storage
      ensures Valid()
      ensures storage.items == WithoutSession(old(storage.items))
      ensures !isAuthenticated && token == "" && username == ""
    {
      storage.RemoveItem(TokenKey);
      storage.RemoveItem(UsernameKey);
      token := "";
      username := "";
      isAuthenticated := false;
    }

    /** The decision in `validateToken`: a rejected token logs out, an
        accepted one or a network failure keeps the session. */
    method ValidateToken<Body>(outcome: HttpOutcome<Body>)
      requires Valid()
      modifies this, storage
      ensures Valid()
      ensures outcome.Answered? && !outcome.ok ==>
        && storage.items == WithoutSession(old(storage.items))
        && !isAuthenticated && token == "" && username == ""
      ensures !(outcome.Answered? && !outcome.ok) ==> unchanged(this, storage)
    {
      if outcome.Answered? && !outcome.ok {
        Logout();
      }
    }
  }

  /** Logging out twice ends where logging out once does. */
  method LogoutTwice(s: SessionStore)
    requires s.Valid()
    modifies s, s.storage
    ensures !s.isAuthenticated && s.storage.items == WithoutSession(old(s.storage.items))
  {
    s.Logout();
    s.Logout();
    WithoutSessionIdempotent(old(s.storage.items));
  }
}
