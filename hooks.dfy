/**
 * The session hook (src/hooks/index.ts): at start-up the stored token and
 * user are read back from the browser's key/value storage; a stored user
 * that parses restores the session, one that does not is purged together
 * with the other session keys. The hook hands back the session fields and
 * a logout action.
 */
module Hooks {
  import opened Types
  import opened JsText

  const TokenKey := "token"
  const UserKey := "user"
  const SessionIdKey := "sessionId"

  /** The three keys removed when the stored user cannot be read back. */
  const SessionKeys := {TokenKey, UserKey, SessionIdKey}

  /** The two session actions the hook dispatches. */
  datatype Action = SetCredentials(user: User, token: string) | Logout

  /** `localStorage.getItem(key)`: `null` for a key that is not stored. */
  function GetItem(storage: map<string, string>, key: string): (r: Option<string>)
    ensures r.Some? <==> key in storage
    ensures r.Some? ==> r.value == storage[key]
  {
    if key in storage then Some(storage[key]) else None
  }

  /** `storedToken && storedUser && !isAuthenticated`: both keys hold a
      non-empty text and nobody is signed in yet. */
  predicate ShouldHydrate(storage: map<string, string>, isAuthenticated: bool) {
    Truthy(GetItem(storage, TokenKey)) && Truthy(GetItem(storage, UserKey)) && !isAuthenticated
  }

  /** The storage left after the three `removeItem` calls. */
  function Purge(storage: map<string, string>): (r: map<string, string>)
    ensures forall k :: k in r <==> k in storage && k !in SessionKeys
    ensures forall k :: k in r ==> r[k] == storage[k]
  {
    storage - SessionKeys
  }

  /** Once purged, the storage no longer triggers a restore: a second run
      of the effect does nothing. */
  lemma PurgeStopsHydration(storage: map<string, string>, isAuthenticated: bool)
    ensures !ShouldHydrate(Purge(storage), isAuthenticated)
  {
    assert TokenKey !in Purge(storage);
  }

  /** Keys other than the session keys survive a purge. */
  lemma PurgeKeepsOthers(storage: map<string, string>, k: string)
    requires k in storage && k != TokenKey && k != UserKey && k != SessionIdKey
    ensures k in Purge(storage) && Purge(storage)[k] == storage[k]
  {
  }

  /** A signed-in store is never restored over, whatever is stored. */
  lemma AuthenticatedNeverHydrates(storage: map<string, string>)
    ensures !ShouldHydrate(storage, true)
  {
  }

  /** What `useAuth` returns: the session fields as the store holds them,
      and the action its `logout` dispatches. */
  datatype AuthHook = AuthHook(
    user: Option<User>,
    token: Option<string>,
    isAuthenticated: bool,
    isLoading: bool,
    error: Option<string>,
    logout: Action)

  function UseAuth(auth: AuthState): (r: AuthHook)
    ensures r.logout == Logout
    ensures AuthState(r.user, r.token, r.isAuthenticated, r.isLoading, r.error) == auth
  {
    AuthHook(auth.user, auth.token, auth.isAuthenticated, auth.isLoading, auth.error, Logout)
  }

  /** The browser storage and the session store the effect works on. The
      session store is changed only by the reducer of a dispatched action,
      so the effect itself leaves it as it is. */
  class Session {
    var storage: map<string, string>
    var auth: AuthState

    constructor (storage: map<string, string>, auth: AuthState)
      ensures this.storage == storage && this.auth == auth
    {
      this.storage := storage;
      this.auth := auth;
    }

    /** The start-up effect. `parse` stands for `JSON.parse` of the stored
        user, `None` for a parse that throws. Without both keys, or when
        signed in, nothing happens; a stored user that parses is restored
        with the stored token and the storage stays; one that does not
        dispatches nothing and the session keys are removed. */
    method Hydrate(parse: string -> Option<User>) returns (dispatched: Option<Action>)
      modifies this`storage
      ensures !ShouldHydrate(old(storage), auth.isAuthenticated) ==>
        dispatched.None? && storage == old(storage)
      ensures ShouldHydrate(old(storage), auth.isAuthenticated) && parse(old(storage)[UserKey]).Some? ==>
        dispatched == Some(SetCredentials(parse(old(storage)[UserKey]).value, old(storage)[TokenKey]))
        && storage == old(storage)
      ensures ShouldHydrate(old(storage), auth.isAuthenticated) && parse(old(storage)[UserKey]).None? ==>
        dispatched.None? && storage == Purge(old(storage))
    {
      var storedToken := GetItem(storage, TokenKey);
      var storedUser := GetItem(storage, UserKey);
      if Truthy(storedToken) && Truthy(storedUser) && !auth.isAuthenticated {
        var parsedUser := parse(storedUser.value);
        if parsedUser.Some? {
          return Some(SetCredentials(parsedUser.value, storedToken.value));
        }
        ghost var before := storage;
        storage := storage - {TokenKey};
        storage := storage - {UserKey};
        storage := storage - {SessionIdKey};
        assert storage == before - SessionKeys;
      }
      return None;
    }
  }
}
