/**
 * Persistence of the session in the browser's local storage: the token and
 * flag live under one key, the account under another, and reading them back
 * recombines the two.
 */
module AuthStorage {
  import opened Common
  import opened Entities

  const AuthKey := "car_rental_auth"
  const UserKey := "car_rental_user"

  /** What `JSON.parse` makes of a stored string. */
  datatype Entry =
    | SessionRecord(token: Option<string>, isAuthenticated: bool, user: Option<User>)
    | UserRecord(account: User)
    | NullRecord
    | Unparsable

  /** The session as `getAuthData` hands it out. */
  datatype StoredAuthData = StoredAuthData(user: Option<User>, token: string, isAuthenticated: bool)

  /** The storage contents after `saveAuthData`: the account is not part of the auth record. */
  function Saved(items: map<string, Entry>, user: User, token: Option<string>, isAuthenticated: bool): map<string, Entry>
  {
    items[AuthKey := SessionRecord(token, isAuthenticated, None)][UserKey := UserRecord(user)]
  }

  /** The storage contents after `clearAuthData`. */
  function Cleared(items: map<string, Entry>): (r: map<string, Entry>)
    ensures AuthKey !in r && UserKey !in r
    ensures forall k :: k != AuthKey && k != UserKey ==> (k in r <==> k in items)
  {
    items - {AuthKey, UserKey}
  }

  /** The account read back from the user key, when the auth record has a token. */
  function AccountOf(e: Entry): Option<User>
  {
    match e
    case UserRecord(u) => Some(u)
    case _ => None
  }

  /** The value `getAuthData` returns for the given storage contents. */
  function Lookup(items: map<string, Entry>): (r: Option<StoredAuthData>)
    ensures r.Some? ==> r.value.token != "" && r.value.isAuthenticated
    ensures r.Some? ==> AuthKey in items && items[AuthKey].SessionRecord?
    ensures AuthKey in items && items[AuthKey].SessionRecord? && Truthy(items[AuthKey].token) &&
              !(items[AuthKey].user.Some? && items[AuthKey].isAuthenticated) && UserKey !in items ==>
              r.None?
  {
    if AuthKey !in items then None
    else match items[AuthKey]
      case SessionRecord(token, isAuthenticated, user) =>
        if Truthy(token) && user.Some? && isAuthenticated then
          Some(StoredAuthData(user, token.value, isAuthenticated))
        else if Truthy(token) && UserKey in items && !items[UserKey].Unparsable? then
          Some(StoredAuthData(AccountOf(items[UserKey]), token.value, true))
        else None
      case _ => None
  }

  /** `getAuthData` clears the storage when the account under the user key cannot be parsed. */
  predicate ClearedOnRead(items: map<string, Entry>)
  {
    AuthKey in items && items[AuthKey].SessionRecord? && Truthy(items[AuthKey].token)
    && !(items[AuthKey].user.Some? && items[AuthKey].isAuthenticated)
    && UserKey in items && items[UserKey].Unparsable?
  }

  /** `isTokenValid`: a token is valid exactly when it is a non-empty string. */
  function IsTokenValid(token: Option<string>): (r: bool)
    ensures r <==> token.Some? && |token.value| > 0
  {
    if !Truthy(token) then false else |token.value| > 0
  }

  /** Saving a session with a token and reading it back gives the same account and token. */
  lemma SaveThenLookup(items: map<string, Entry>, user: User, token: string, isAuthenticated: bool)
    requires token != ""
    ensures Lookup(Saved(items, user, Some(token), isAuthenticated)) == Some(StoredAuthData(Some(user), token, true))
    ensures !ClearedOnRead(Saved(items, user, Some(token), isAuthenticated))
  {
  }

  /** Saving a session without a token leaves nothing that reads back as a session. */
  lemma SaveWithoutTokenThenLookup(items: map<string, Entry>, user: User, token: Option<string>, isAuthenticated: bool)
    requires !Truthy(token)
    ensures Lookup(Saved(items, user, token, isAuthenticated)) == None
  {
  }

  /** After `clearAuthData` there is no session to read. */
  lemma ClearThenLookup(items: map<string, Entry>)
    ensures Lookup(Cleared(items)) == None
    ensures !ClearedOnRead(Cleared(items))
  {
  }

  /** An account that cannot be parsed makes the read fail and wipes both keys. */
  lemma UnparsableAccountIsDiscarded(items: map<string, Entry>)
    requires ClearedOnRead(items)
    ensures Lookup(items) == None
    ensures Lookup(Cleared(items)) == None
  {
  }

  /**
   * The browser's local storage.  `available` is false during server-side
   * rendering, where every operation does nothing and reads give null.
   */
  class LocalStorage {
    var available: bool
    var items: map<string, Entry>

    constructor(available: bool, items: map<string, Entry>)
      ensures this.available == available && this.items == items
    {
      this.available := available;
      this.items := items;
    }

    method SaveAuthData(user: User, token: Option<string>, isAuthenticated: bool)
      modifies this
      ensures available == old(available)
      ensures items == if available then Saved(old(items), user, token, isAuthenticated) else old(items)
    {
      if !available {
        return;
      }
      items := items[AuthKey := SessionRecord(token, isAuthenticated, None)];
      items := items[UserKey := UserRecord(user)];
    }

    method ClearAuthData()
      modifies this
      ensures available == old(available)
      ensures items == if available then Cleared(old(items)) else old(items)
    {
      if !available {
        return;
      }
      items := items - {AuthKey};
      items := items - {UserKey};
    }

    method GetAuthData() returns (r: Option<StoredAuthData>)
      modifies this
      ensures available == old(available)
      ensures r == if available then Lookup(old(items)) else None
      ensures items == if available && ClearedOnRead(old(items)) then Cleared(old(items)) else old(items)
    {
      if !available {
        return None;
      }
      if AuthKey !in items {
        return None;
      }
      var parsed := items[AuthKey];
      if !parsed.SessionRecord? {
        return None;
      }
      if Truthy(parsed.token) && parsed.user.Some? && parsed.isAuthenticated {
        return Some(StoredAuthData(parsed.user, parsed.token.value, parsed.isAuthenticated));
      }
      if Truthy(parsed.token) && UserKey in items {
        var userData := items[UserKey];
        if userData.Unparsable? {
          ClearAuthData();
          return None;
        }
        return Some(StoredAuthData(AccountOf(userData), parsed.token.value, true));
      }
      return None;
    }
  }
}
