/**
 * Creation of the Redux store: the auth slice is preloaded from whatever
 * session local storage holds when the client starts.
 */
module Store {
  import opened Common
  import opened Entities
  import opened AuthStorage
  import opened AuthSlice

  /** `loadAuthState`: a preloaded signed-in state, or none. */
  function LoadAuthState(data: Option<StoredAuthData>): (r: Option<AuthState>)
    ensures r.Some? <==> data.Some? && data.value.isAuthenticated && data.value.user.Some? && data.value.token != ""
    ensures r.Some? ==> SessionConsistent(r.value) && !r.value.loading && r.value.error.None?
    ensures r.Some? ==> r.value.user == data.value.user && r.value.token == Some(data.value.token)
  {
    match data
    case Some(d) =>
      if d.isAuthenticated && d.user.Some? && d.token != "" then
        Some(AuthState(d.user, Some(d.token), true, false, None))
      else None
    case None => None
  }

  /** Builds the store's auth slice from local storage. */
  method CreateStore(storage: LocalStorage) returns (slice: Slice)
    modifies storage
    ensures slice.storage == storage
    ensures slice.State() == LoadAuthState(if old(storage.available) then Lookup(old(storage.items)) else None).GetOr(InitialState)
  {
    var authData := storage.GetAuthData();
    slice := new Slice(storage, LoadAuthState(authData));
  }

  /** Reloading after a sign-in restores exactly the state the sign-in produced. */
  lemma ReloadAfterSignIn(items: map<string, Entry>, s: AuthState, u: User, t: string)
    requires t != ""
    ensures LoadAuthState(Lookup(Saved(items, u, Some(t), true))) == Some(Reduce(s, LoginSuccess(u, t)))
  {
    SaveThenLookup(items, u, t, true);
  }

  /** Reloading after sign-out starts from the initial state. */
  lemma ReloadAfterLogout(items: map<string, Entry>)
    ensures LoadAuthState(Lookup(Cleared(items))).GetOr(InitialState) == InitialState
  {
    ClearThenLookup(items);
  }

  /** A profile update saved while signed out leaves no session to restore. */
  lemma ReloadAfterSignedOutUpdate(items: map<string, Entry>, s: AuthState, u: User)
    requires SessionConsistent(s) && !s.isAuthenticated
    ensures LoadAuthState(Lookup(Saved(items, u, s.token, s.isAuthenticated))) == None
  {
    SaveWithoutTokenThenLookup(items, u, s.token, s.isAuthenticated);
  }
}
