/**
 * What the request helpers in the three CRUD files share: ordered query or
 * body parameters, the rule that an authenticated call is not made without
 * a token, and the way a failure is turned into the message that is
 * re-thrown to the caller.
 */
module ApiClient {
  import opened Common
  import opened AuthStorage

  datatype ParamValue = Text(text: string) | Number(number: int) | Flag(flag: bool)

  /** One `append(key, value)` on a `URLSearchParams`, or one field of a JSON body. */
  datatype Param = Param(key: string, value: ParamValue)

  function Keys(ps: seq<Param>): (r: seq<string>)
    ensures |r| == |ps|
    ensures forall i :: 0 <= i < |ps| ==> r[i] == ps[i].key
  {
    seq(|ps|, i requires 0 <= i < |ps| => ps[i].key)
  }

  /** `if (value) params.append(key, value)` for one optional string. */
  function OptionalText(candidate: (string, Option<string>)): (r: seq<Param>)
    ensures r == [] <==> !Truthy(candidate.1)
    ensures r != [] ==> r == [Param(candidate.0, Text(candidate.1.value))]
  {
    if Truthy(candidate.1) then [Param(candidate.0, Text(candidate.1.value))] else []
  }

  /** `OptionalText` over a list of candidates, in order. */
  function OptionalTexts(candidates: seq<(string, Option<string>)>): (r: seq<Param>)
    ensures |r| <= |candidates|
  {
    if candidates == [] then [] else OptionalText(candidates[0]) + OptionalTexts(candidates[1..])
  }

  /** One step of `OptionalTexts` from position `i`. */
  lemma OptionalTextsFrom(candidates: seq<(string, Option<string>)>, i: nat)
    requires i < |candidates|
    ensures OptionalTexts(candidates[i..]) == OptionalText(candidates[i]) + OptionalTexts(candidates[i + 1..])
  {
    assert candidates[i..][1..] == candidates[i + 1..];
  }

  /** `if (value !== undefined) params.append(key, value.toString())` for one optional flag. */
  function DefinedFlag(candidate: (string, Option<bool>)): (r: seq<Param>)
    ensures r == [] <==> candidate.1.None?
    ensures r != [] ==> r == [Param(candidate.0, Flag(candidate.1.value))]
  {
    if candidate.1.Some? then [Param(candidate.0, Flag(candidate.1.value))] else []
  }

  /** `DefinedFlag` over a list of candidates, in order. */
  function DefinedFlags(candidates: seq<(string, Option<bool>)>): (r: seq<Param>)
    ensures |r| <= |candidates|
  {
    if candidates == [] then [] else DefinedFlag(candidates[0]) + DefinedFlags(candidates[1..])
  }

  /** A candidate key is emitted exactly when its value is a non-empty string, with that value. */
  lemma {:induction false} OptionalTextsEmits(candidates: seq<(string, Option<string>)>, key: string, value: string)
    requires NoDuplicates(CandidateKeys(candidates))
    ensures Param(key, Text(value)) in OptionalTexts(candidates) <==>
              exists i :: 0 <= i < |candidates| && candidates[i].0 == key && candidates[i].1 == Some(value) && value != ""
  {
    if candidates != [] {
      assert CandidateKeys(candidates[1..]) == CandidateKeys(candidates)[1..];
      OptionalTextsEmits(candidates[1..], key, value);
      if exists i :: 0 <= i < |candidates| && candidates[i].0 == key && candidates[i].1 == Some(value) && value != "" {
        var i :| 0 <= i < |candidates| && candidates[i].0 == key && candidates[i].1 == Some(value) && value != "";
        if i > 0 {
          assert candidates[1..][i - 1] == candidates[i];
        }
      }
      if Param(key, Text(value)) in OptionalTexts(candidates[1..]) {
        var i :| 0 <= i < |candidates[1..]| && candidates[1..][i].0 == key && candidates[1..][i].1 == Some(value) && value != "";
        assert candidates[i + 1] == candidates[1..][i];
      }
    }
  }

  /** The emitted keys keep the order of the candidate list. */
  lemma {:induction false} OptionalTextsKeepOrder(candidates: seq<(string, Option<string>)>)
    ensures IsSubsequence(Keys(OptionalTexts(candidates)), CandidateKeys(candidates))
  {
    if candidates != [] {
      OptionalTextsKeepOrder(candidates[1..]);
      var rest := OptionalTexts(candidates[1..]);
      assert CandidateKeys(candidates)[1..] == CandidateKeys(candidates[1..]);
      if Truthy(candidates[0].1) {
        assert Keys(OptionalTexts(candidates)) == [candidates[0].0] + Keys(rest);
        assert Keys(OptionalTexts(candidates))[1..] == Keys(rest);
      } else {
        assert Keys(OptionalTexts(candidates)) == Keys(rest);
        SubsequencePrepend(Keys(rest), CandidateKeys(candidates));
      }
    }
  }

  function CandidateKeys<V>(candidates: seq<(string, V)>): (r: seq<string>)
    ensures |r| == |candidates|
    ensures forall i :: 0 <= i < |candidates| ==> r[i] == candidates[i].0
  {
    seq(|candidates|, i requires 0 <= i < |candidates| => candidates[i].0)
  }

  const TokenMissing := "Authentication token not found. Please log in again."

  /** The bearer token of an authenticated call, or the error thrown before any request. */
  function BearerToken(auth: Option<StoredAuthData>): (r: Result<string, string>)
    ensures r.Ok? <==> auth.Some? && auth.value.token != ""
    ensures r.Ok? ==> r.value == auth.value.token
    ensures r.Err? ==> r.error == TokenMissing
  {
    if auth.None? || auth.value.token == "" then Err(TokenMissing) else Ok(auth.value.token)
  }

  datatype Verb = Get | Post | Put | Patch | Delete

  /** An authenticated request: method, path below the API base, query, body and bearer token. */
  datatype Request<B> = Request(verb: Verb, path: string, query: seq<Param>, body: B, bearer: string)

  /** Builds an authenticated request, or fails with the missing-token error. */
  function Authorized<B>(auth: Option<StoredAuthData>, verb: Verb, path: string, query: seq<Param>, body: B): (r: Result<Request<B>, string>)
    ensures r.Err? <==> auth.None? || auth.value.token == ""
    ensures r.Err? ==> r.error == TokenMissing
    ensures r.Ok? ==> r.value == Request(verb, path, query, body, auth.value.token)
  {
    match BearerToken(auth)
    case Ok(t) => Ok(Request(verb, path, query, body, t))
    case Err(e) => Err(e)
  }

  /** How a call failed, as its `catch` block sees it. */
  datatype Failure =
    | ResponseError(message: Option<string>, error: Option<string>)
    | ThrownError(text: string)
    | ThrownValue

  /** The message of the error re-thrown by the `catch` block. */
  function ErrorMessage(f: Failure, fallback: string): (r: string)
    ensures f.ResponseError? ==> r in [OrElse(f.message, ""), OrElse(f.error, ""), fallback]
    ensures f.ResponseError? && Truthy(f.message) ==> r == f.message.value
    ensures f.ResponseError? && !Truthy(f.message) && Truthy(f.error) ==> r == f.error.value
    ensures f.ResponseError? && !Truthy(f.message) && !Truthy(f.error) ==> r == fallback
    ensures f.ThrownError? ==> r == f.text
    ensures f.ThrownValue? ==> r == fallback
    ensures r == "" ==> f.ThrownError? || fallback == ""
  {
    match f
    case ResponseError(message, error) =>
      if Truthy(message) then message.value else if Truthy(error) then error.value else fallback
    case ThrownError(text) => text
    case ThrownValue => fallback
  }

  /** The reply to a request that was sent. */
  datatype Reply<T> = Answered(data: T) | Failed(failure: Failure)

  /** What the caller of an authenticated helper receives: its data or the re-thrown message. */
  function Outcome<B, T>(request: Result<Request<B>, string>, reply: Reply<T>, fallback: string): (r: Result<T, string>)
    ensures request.Err? ==> r == Err(request.error)
    ensures request.Ok? && reply.Answered? ==> r == Ok(reply.data)
    ensures request.Ok? && reply.Failed? ==> r == Err(ErrorMessage(reply.failure, fallback))
  {
    match request
    case Err(e) => Err(ErrorMessage(ThrownError(e), fallback))
    case Ok(_) =>
      match reply
      case Answered(d) => Ok(d)
      case Failed(f) => Err(ErrorMessage(f, fallback))
  }

  /** Without a token the caller always sees the missing-token message, whatever the server would say. */
  lemma NoTokenNoRequest<B, T>(auth: Option<StoredAuthData>, verb: Verb, path: string, query: seq<Param>, body: B, reply: Reply<T>, fallback: string)
    requires auth.None? || auth.value.token == ""
    ensures Outcome(Authorized(auth, verb, path, query, body), reply, fallback) == Err(TokenMissing)
  {
  }
}
