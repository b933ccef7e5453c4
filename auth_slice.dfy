/**
 * The authentication slice of the client's Redux store: the signed-in
 * account, its token, and the loading and error flags of the forms that
 * talk to the back end.  Successful sign-in, registration and profile
 * updates are mirrored into local storage; sign-out wipes it.
 */
module AuthSlice {
  import opened Common
  import opened Entities
  import opened AuthStorage

  datatype AuthState = AuthState(
    user: Option<User>,
    token: Option<string>,
    isAuthenticated: bool,
    loading: bool,
    error: Option<string>)

  const InitialState := AuthState(None, None, false, false, None)

  /** The slice's actions, one per reducer. */
  datatype Action =
    | RegisterStart
    | RegisterSuccess(user: User, token: string)
    | RegisterFailure(message: string)
    | LoginStart
    | LoginSuccess(user: User, token: string)
    | LoginFailure(message: string)
    | Logout
    | UpdateUserStart
    | UpdateUserSuccess(user: User)
    | UpdateUserFailure(message: string)
    | ClearError
    | SetLoading(loading: bool)

  /** The next state of the slice for one action. */
  function Reduce(s: AuthState, a: Action): (r: AuthState)
    ensures r.isAuthenticated <==> a.RegisterSuccess? || a.LoginSuccess? || (!a.Logout? && s.isAuthenticated)
    ensures a.RegisterSuccess? || a.LoginSuccess? ==> r.token == Some(a.token) && r.user == Some(a.user)
    ensures a.UpdateUserSuccess? ==> r.user == Some(a.user) && r.token == s.token
    ensures a.Logout? ==> r == InitialState
    ensures (a.RegisterFailure? || a.LoginFailure? || a.UpdateUserFailure?) ==> r.error == Some(a.message)
    ensures a.ClearError? || a.SetLoading? ==> r.user == s.user && r.token == s.token
  {
    match a
    case RegisterStart => s.(loading := true, error := None)
    case RegisterSuccess(u, t) => s.(loading := false, user := Some(u), token := Some(t), isAuthenticated := true, error := None)
    case RegisterFailure(m) => s.(loading := false, error := Some(m))
    case LoginStart => s.(loading := true, error := None)
    case LoginSuccess(u, t) => s.(loading := false, user := Some(u), token := Some(t), isAuthenticated := true, error := None)
    case LoginFailure(m) => s.(loading := false, error := Some(m))
    case Logout => s.(user := None, token := None, isAuthenticated := false, loading := false, error := None)
    case UpdateUserStart => s.(loading := true, error := None)
    case UpdateUserSuccess(u) => s.(loading := false, user := Some(u), error := None)
    case UpdateUserFailure(m) => s.(loading := false, error := Some(m))
    case ClearError => s.(error := None)
    case SetLoading(b) => s.(loading := b)
  }

  /** A session is signed in exactly when it has a token, and then it has an account. */
  predicate SessionConsistent(s: AuthState)
  {
    (s.isAuthenticated <==> s.token.Some?) && (s.isAuthenticated ==> s.user.Some?)
  }

  /** Every reducer keeps the session consistent. */
  lemma ReducePreservesSession(s: AuthState, a: Action)
    requires SessionConsistent(s)
    ensures SessionConsistent(Reduce(s, a))
  {
  }

  /** Start actions raise the loading flag and clear the error; every outcome lowers it. */
  lemma ReduceLoadingFlag(s: AuthState, a: Action)
    ensures (a.RegisterStart? || a.LoginStart? || a.UpdateUserStart?) ==>
              Reduce(s, a).loading && Reduce(s, a).error.None?
    ensures (a.RegisterSuccess? || a.RegisterFailure? || a.LoginSuccess? || a.LoginFailure?
             || a.UpdateUserSuccess? || a.UpdateUserFailure? || a.Logout?) ==> !Reduce(s, a).loading
  {
  }

  /** A failure records its message and leaves the session itself untouched. */
  lemma FailureKeepsSession(s: AuthState, a: Action)
    requires a.RegisterFailure? || a.LoginFailure? || a.UpdateUserFailure?
    ensures Reduce(s, a).user == s.user && Reduce(s, a).token == s.token
    ensures Reduce(s, a).isAuthenticated == s.isAuthenticated
    ensures Reduce(s, a).error == Some(a.message)
  {
  }

  /** Signing out from any state gives back the initial state. */
  lemma LogoutResets(s: AuthState)
    ensures Reduce(s, Logout) == InitialState
  {
  }

  /**
   * The slice as a mutable object.  The reducers that succeed or sign out
   * also write to the local storage.
   */
  class Slice {
    var user: Option<User>
    var token: Option<string>
    var isAuthenticated: bool
    var loading: bool
    var error: Option<string>
    const storage: LocalStorage

    function State(): AuthState
      reads this
    {
      AuthState(user, token, isAuthenticated, loading, error)
    }

    /** `configureStore` with an optional preloaded auth state. */
    constructor(storage: LocalStorage, preloaded: Option<AuthState>)
      ensures State() == preloaded.GetOr(InitialState)
      ensures this.storage == storage
    {
      var s := preloaded.GetOr(InitialState);
      user := s.user;
      token := s.token;
      isAuthenticated := s.isAuthenticated;
      loading := s.loading;
      error := s.error;
      this.storage := storage;
    }

    method RegisterStart()
      modifies this
      ensures State() == Reduce(old(State()), Action.RegisterStart)
    {
      loading := true;
      error := None;
    }

    /** Signs the new account in and persists the session. */
    method RegisterSuccess(u: User, t: string)
      modifies this, storage
      ensures State() == Reduce(old(State()), Action.RegisterSuccess(u, t))
      ensures storage.available == old(storage.available)
      ensures storage.items == if storage.available then Saved(old(storage.items), u, Some(t), true) else old(storage.items)
    {
      loading := false;
      user := Some(u);
      token := Some(t);
      isAuthenticated := true;
      error := None;
      storage.SaveAuthData(u, Some(t), true);
    }

    method RegisterFailure(message: string)
      modifies this
      ensures State() == Reduce(old(State()), Action.RegisterFailure(message))
    {
      loading := false;
      error := Some(message);
    }

    method LoginStart()
      modifies this
      ensures State() == Reduce(old(State()), Action.LoginStart)
    {
      loading := true;
      error := None;
    }

    /** Signs the account in and persists the session. */
    method LoginSuccess(u: User, t: string)
      modifies this, storage
      ensures State() == Reduce(old(State()), Action.LoginSuccess(u, t))
      ensures storage.available == old(storage.available)
      ensures storage.items == if storage.available then Saved(old(storage.items), u, Some(t), true) else old(storage.items)
    {
      loading := false;
      user := Some(u);
      token := Some(t);
      isAuthenticated := true;
      error := None;
      storage.SaveAuthData(u, Some(t), true);
    }

    method LoginFailure(message: string)
      modifies this
      ensures State() == Reduce(old(State()), Action.LoginFailure(message))
    {
      loading := false;
      error := Some(message);
    }

    method Logout()
      modifies this, storage
      ensures State() == Reduce(old(State()), Action.Logout)
      ensures storage.available == old(storage.available)
      ensures storage.items == if storage.available then Cleared(old(storage.items)) else old(storage.items)
    {
      user := None;
      token := None;
      isAuthenticated := false;
      loading := false;
      error := None;
      storage.ClearAuthData();
    }

    method UpdateUserStart()
      modifies this
      ensures State() == Reduce(old(State()), Action.UpdateUserStart)
    {
      loading := true;
      error := None;
    }

    /** `updateUserSuccess`: replace the account and persist it with the current token. */
    method UpdateUserSuccess(u: User)
      modifies this, storage
      ensures State() == Reduce(old(State()), Action.UpdateUserSuccess(u))
      ensures storage.available == old(storage.available)
      ensures storage.items ==
                if storage.available then Saved(old(storage.items), u, old(token), old(isAuthenticated))
                else old(storage.items)
    {
      loading := false;
      user := Some(u);
      error := None;
      storage.SaveAuthData(u, token, isAuthenticated);
    }

    method UpdateUserFailure(message: string)
      modifies this
      ensures State() == Reduce(old(State()), Action.UpdateUserFailure(message))
    {
      loading := false;
      error := Some(message);
    }

    method ClearError()
      modifies this
      ensures State() == Reduce(old(State()), Action.ClearError)
    {
      error := None;
    }

    method SetLoading(b: bool)
      modifies this
      ensures State() == Reduce(old(State()), Action.SetLoading(b))
    {
      loading := b;
    }
  }
}
