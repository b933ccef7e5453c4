/** The sign-in form: schema check, then one request and the slice's answer to it. */
module LoginForm {
  import opened Common
  import opened AuthStorage
  import opened AuthSlice
  import opened Validation
  import opened AuthResponse

  const LoginFallback := "Login failed"

  /** The slice action the form dispatches once the reply is classified. */
  function Settle(o: Outcome): (a: Action)
    ensures a.LoginSuccess? || a.LoginFailure?
  {
    match o
    case SignedIn(u, t) => LoginSuccess(u, t)
    case Rejected(m) => LoginFailure(m)
  }

  /**
   * After a submission the form is no longer loading; it is signed in with
   * the returned account and token exactly when the reply was accepted, and
   * otherwise keeps the previous session and shows the message.
   */
  lemma {:induction false} SettledState(s: AuthState, o: Outcome)
    ensures !Reduce(Reduce(s, LoginStart), Settle(o)).loading
    ensures o.SignedIn? ==>
      var t := Reduce(Reduce(s, LoginStart), Settle(o));
      t.isAuthenticated && t.user == Some(o.account) && t.token == Some(o.token) && t.error.None?
    ensures o.Rejected? ==>
      var t := Reduce(Reduce(s, LoginStart), Settle(o));
      t.user == s.user && t.token == s.token && t.isAuthenticated == s.isAuthenticated
      && t.error == Some(o.message)
  {
    ReduceLoadingFlag(Reduce(s, LoginStart), Settle(o));
    if o.Rejected? {
      FailureKeepsSession(Reduce(s, LoginStart), Settle(o));
    }
  }

  /**
   * `onSubmit` behind `handleSubmit`: nothing happens unless the schema
   * accepts the input; then `loginStart`, and `loginSuccess` or
   * `loginFailure` from the reply. The modal closes on success only.
   */
  method Submit(slice: Slice, email: string, password: string, isEmail: string -> bool, x: Exchange)
    returns (closed: bool)
    modifies slice, slice.storage
    ensures !LoginValid(email, password, isEmail) ==>
      !closed && slice.State() == old(slice.State()) && slice.storage.items == old(slice.storage.items)
    ensures LoginValid(email, password, isEmail) ==>
      closed == Classify(x, LoginFallback).SignedIn?
      && slice.State() == Reduce(Reduce(old(slice.State()), LoginStart), Settle(Classify(x, LoginFallback)))
    ensures slice.storage.items ==
      if LoginValid(email, password, isEmail) && closed && slice.storage.available
      then Saved(old(slice.storage.items), Classify(x, LoginFallback).account, Some(Classify(x, LoginFallback).token), true)
      else old(slice.storage.items)
  {
    closed := false;
    if !LoginValid(email, password, isEmail) {
      return;
    }
    slice.LoginStart();
    var o := Classify(x, LoginFallback);
    match o
    case SignedIn(u, t) =>
      slice.LoginSuccess(u, t);
      closed := true;
    case Rejected(m) =>
      slice.LoginFailure(m);
  }
}
