/**
 * How the sign-in and sign-up forms read the authentication endpoint's
 * reply. Both forms follow the same rules; only the fallback message
 * differs.
 */
module AuthResponse {
  import opened Common
  import opened Entities

  /** The fields of a JSON reply the forms look at; absent ones are `None`. */
  datatype Json = Json(
    data: Option<User>,
    user: Option<User>,
    token: Option<string>,
    error: Option<string>,
    message: Option<string>)

  /**
   * A completed exchange carries the `ok` flag and the body, `None` when the
   * body is not JSON (parsing it throws); `Unreachable` is a request that
   * throws before any reply.
   */
  datatype Exchange = Replied(ok: bool, body: Option<Json>) | Unreachable

  datatype Outcome = SignedIn(account: User, token: string) | Rejected(message: string)

  const InvalidFormat := "Invalid response format"
  const NetworkError := "Network error"

  function Classify(x: Exchange, fallback: string): (o: Outcome)
    ensures o.SignedIn? <==>
      x.Replied? && x.ok && x.body.Some?
      && (x.body.value.data.Some? || x.body.value.user.Some?) && Truthy(x.body.value.token)
    ensures o.SignedIn? ==>
      o.token == x.body.value.token.value && o.token != ""
      && o.account == (if x.body.value.data.Some? then x.body.value.data.value else x.body.value.user.value)
    ensures (x.Unreachable? || x.body.None?) ==> o == Rejected(NetworkError)
    ensures x.Replied? && x.ok && x.body.Some? && !o.SignedIn? ==> o == Rejected(InvalidFormat)
    ensures x.Replied? && !x.ok && x.body.Some? ==>
      o.Rejected? && o.message in [x.body.value.error.GetOr(""), x.body.value.message.GetOr(""), fallback]
      && (Truthy(x.body.value.error) ==> o.message == x.body.value.error.value)
      && (!Truthy(x.body.value.error) && Truthy(x.body.value.message) ==> o.message == x.body.value.message.value)
      && (!Truthy(x.body.value.error) && !Truthy(x.body.value.message) ==> o.message == fallback)
    ensures fallback != "" && o.Rejected? ==> o.message != ""
  {
    match x
    case Unreachable => Rejected(NetworkError)
    case Replied(ok, body) =>
      if body.None? then Rejected(NetworkError)
      else
        var json := body.value;
        if ok then
          var account := if json.data.Some? then json.data else json.user;
          if account.Some? && Truthy(json.token) then SignedIn(account.value, json.token.value)
          else Rejected(InvalidFormat)
        else Rejected(OrElse(json.error, OrElse(json.message, fallback)))
  }
}
