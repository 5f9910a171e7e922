/**
 * The session store: the current user and bearer token, kept in component state and
 * mirrored to the browser's local storage by two effects, one per key.
 */
module UserContext {
  import opened Wrappers
  import opened Entities

  const USER_KEY := "user"
  const TOKEN_KEY := "token"

  /**
   * What local storage holds under a key: the serialised user or the token text.
   * Serialising a user and parsing it back is taken to give the same user.
   */
  datatype Stored = StoredUser(user: User) | StoredToken(token: string)

  type Storage = map<string, Stored>

  /** `if (token)`: a missing and an empty token are both falsy. */
  predicate TokenPresent(token: Option<string>) {
    token.Some? && token.value != ""
  }

  /** The initial user: the parsed `user` entry, or null. */
  function LoadUser(storage: Storage): Option<User> {
    if USER_KEY in storage && storage[USER_KEY].StoredUser? then Some(storage[USER_KEY].user) else None
  }

  /** The initial token: `localStorage.getItem('token') || null`. */
  function LoadToken(storage: Storage): Option<string> {
    if TOKEN_KEY in storage && storage[TOKEN_KEY].StoredToken? && storage[TOKEN_KEY].token != "" then
      Some(storage[TOKEN_KEY].token)
    else
      None
  }

  /** The user effect: write the user when there is one, remove the key otherwise. */
  function SyncUser(storage: Storage, user: Option<User>): Storage {
    if user.Some? then storage[USER_KEY := StoredUser(user.value)] else storage - {USER_KEY}
  }

  /** The token effect: write the token when it is truthy, remove the key otherwise. */
  function SyncToken(storage: Storage, token: Option<string>): Storage {
    if TokenPresent(token) then storage[TOKEN_KEY := StoredToken(token.value)] else storage - {TOKEN_KEY}
  }

  /** Storage mirrors the state: each key is present exactly when its value is, and holds it. */
  predicate Mirrors(storage: Storage, user: Option<User>, token: Option<string>) {
    && (USER_KEY in storage <==> user.Some?)
    && (user.Some? ==> storage[USER_KEY] == StoredUser(user.value))
    && (TOKEN_KEY in storage <==> TokenPresent(token))
    && (TokenPresent(token) ==> storage[TOKEN_KEY] == StoredToken(token.value))
  }

  /** Running both effects leaves storage mirroring any state, and touches no other key. */
  lemma SyncMirrors(storage: Storage, user: Option<User>, token: Option<string>)
    ensures Mirrors(SyncToken(SyncUser(storage, user), token), user, token)
    ensures forall k :: k != USER_KEY && k != TOKEN_KEY ==>
              (k in SyncToken(SyncUser(storage, user), token) <==> k in storage)
  {
  }

  /** Reloading from mirrored storage gives back the same user and the same token, when the token is truthy. */
  lemma ReloadRoundTrip(storage: Storage, user: Option<User>, token: Option<string>)
    requires Mirrors(storage, user, token)
    ensures LoadUser(storage) == user
    ensures LoadToken(storage) == (if TokenPresent(token) then token else None)
  {
  }

  /** The provider component's state. */
  class UserProvider {
    var user: Option<User>
    var token: Option<string>
    var storage: Storage

    ghost predicate Valid()
      reads this
    {
      Mirrors(storage, user, token)
    }

    /** Mount: read both entries, then let both effects run once. */
    constructor (saved: Storage)
      ensures user == LoadUser(saved) && token == LoadToken(saved)
      ensures storage == SyncToken(SyncUser(saved, user), token)
      ensures Valid()
    {
      var u, t := LoadUser(saved), LoadToken(saved);
      SyncMirrors(saved, u, t);
      user, token := u, t;
      storage := SyncToken(SyncUser(saved, u), t);
    }

    /** `login(userData, token)`: both state fields are set together and the effects persist them. */
    method Login(u: Option<User>, t: Option<string>)
      modifies this
      ensures user == u && token == t
      ensures storage == SyncToken(SyncUser(old(storage), u), t)
      ensures Valid()
    {
      user, token := u, t;
      SyncMirrors(storage, u, t);
      storage := SyncToken(SyncUser(storage, user), token);
    }

    /** `logout()`: both state fields become null and both keys are removed. */
    method Logout()
      modifies this
      ensures user == None && token == None
      ensures storage == old(storage) - {USER_KEY, TOKEN_KEY}
      ensures Valid()
    {
      user, token := None, None;
      storage := SyncToken(SyncUser(storage, user), token);
    }
  }

  /** After a login with a truthy token, a reload of the page restores that user and token. */
  lemma LoginThenReload(saved: Storage, u: User, t: string)
    requires t != ""
    ensures var s := SyncToken(SyncUser(saved, Some(u)), Some(t));
            LoadUser(s) == Some(u) && LoadToken(s) == Some(t)
  {
    SyncMirrors(saved, Some(u), Some(t));
    ReloadRoundTrip(SyncToken(SyncUser(saved, Some(u)), Some(t)), Some(u), Some(t));
  }

  /** After a logout, a reload of the page starts with no user and no token. */
  lemma LogoutThenReload(saved: Storage)
    ensures LoadUser(saved - {USER_KEY, TOKEN_KEY}) == None
    ensures LoadToken(saved - {USER_KEY, TOKEN_KEY}) == None
  {
  }
}
