/** The Warpgate HTTP client: what an exchange with the server looks like to the controllers. */
module Client {
  import opened Base

  /** What becomes of the login request. */
  datatype Login = LoginUnreachable | LoginStatus(code: nat)

  /** What becomes of the request itself, once logged in. */
  datatype Answer = Unreachable | BodyCut | Replied(code: nat, decodes: bool)

  /** An error: either exactly an API error, or anything else (wrapped, transport, decoding). */
  datatype Error = Other | Api(code: nat)

  predicate IsNotFound(err: Option<Error>) {
    err == Some(Api(404))
  }

  /** Login keeps the session when there is one, and otherwise opens it on any status below 400. */
  function SessionAfter(authed: bool, l: Login): bool {
    authed || (l.LoginStatus? && l.code < 400)
  }

  /** The error one call reports; a failed login is always wrapped. */
  function CallError(authed: bool, l: Login, a: Answer): Option<Error> {
    if !SessionAfter(authed, l) then Some(Other)
    else match a
      case Unreachable => Some(Other)
      case BodyCut => Some(Other)
      case Replied(code, decodes) =>
        if code >= 400 then Some(Api(code)) else if decodes then None else Some(Other)
  }

  /** The client object: `authed` is set by a token, or by the first successful login. */
  class ApiClient {
    const token: string
    var authed: bool

    constructor (token: string)
      ensures this.token == token && authed == (token != "")
    {
      this.token := token;
      authed := token != "";
    }

    method Login(l: Login) returns (err: Option<Error>)
      modifies this`authed
      ensures authed == SessionAfter(old(authed), l)
      ensures err.None? <==> authed
      ensures !authed ==> err == Some(if l.LoginStatus? then Api(l.code) else Other)
    {
      if authed {
        return None;
      }
      match l {
        case LoginUnreachable => return Some(Other);
        case LoginStatus(code) =>
          if code >= 400 {
            return Some(Api(code));
          }
          authed := true;
          return None;
      }
    }

    method DoRequest(l: Login, a: Answer) returns (resp: Answer, err: Option<Error>)
      modifies this`authed
      ensures authed == SessionAfter(old(authed), l)
      ensures err.None? <==> authed && !a.Unreachable?
      ensures err.None? ==> resp == a
      ensures err.Some? ==> err == Some(Other)
    {
      resp := Unreachable;
      err := Login(l);
      if err.Some? {
        err := Some(Other);
        return;
      }
      if a.Unreachable? {
        err := Some(Other);
        return;
      }
      resp := a;
    }

    method Do(l: Login, a: Answer) returns (err: Option<Error>)
      modifies this`authed
      ensures authed == SessionAfter(old(authed), l)
      ensures err == CallError(old(authed), l, a)
    {
      var resp;
      resp, err := DoRequest(l, a);
      if err.Some? {
        return;
      }
      match resp {
        case Unreachable => assert false;
        case BodyCut => err := Some(Other);
        case Replied(code, decodes) =>
          if code >= 400 {
            err := Some(Api(code));
          } else if !decodes {
            err := Some(Other);
          }
      }
    }
  }

  /** Login codes that make the login fail, and refusals an honest server may send instead of serving. */
  type FailedLogin = l: Login | l.LoginStatus? ==> l.code >= 400 witness LoginUnreachable
  type Refusal = c: nat | c >= 400 && c != 404 witness 500

  /**
   * What happens to one call of a pass. Only Served and Lost calls take effect; of these only a
   * Served one is answered. An honest server says 404 only when it serves the call and the record
   * is absent.
   */
  datatype Fault = Served | LoginFails(login: FailedLogin) | Unsent | Lost | Refused(code: Refusal)

  predicate TakesEffect(f: Fault) {
    f.Served? || f.Lost?
  }

  /** The error a pass sees for a call with fault f whose truthful status is `honest`. */
  function ErrorOf(f: Fault, honest: nat): Option<Error> {
    match f
    case Served => CallError(false, LoginStatus(201), Replied(honest, true))
    case LoginFails(l) => CallError(false, l, Replied(honest, true))
    case Unsent => CallError(false, LoginStatus(201), Unreachable)
    case Lost => CallError(false, LoginStatus(201), BodyCut)
    case Refused(code) => CallError(false, LoginStatus(201), Replied(code, true))
  }

  /**
   * A 404 is reported exactly when an authenticated request was answered 404: a 404 (or anything
   * else) from the login endpoint is never mistaken for a missing record.
   */
  lemma NotFoundIsAuthenticated(authed: bool, l: Login, a: Answer)
    ensures IsNotFound(CallError(authed, l, a)) <==>
            (authed || (l.LoginStatus? && l.code < 400)) && a.Replied? && a.code == 404
    ensures l.LoginStatus? && l.code == 404 && !authed ==> !IsNotFound(CallError(authed, l, a))
  {
  }

  /**
   * A call succeeds exactly when, with a session, it is answered below 400 with a body that decodes;
   * it reports an API error exactly when, with a session, it is answered with that status from 400 up.
   */
  lemma CallErrorIff(authed: bool, l: Login, a: Answer, code: nat)
    ensures var session := authed || (l.LoginStatus? && l.code < 400);
            && (CallError(authed, l, a) == None <==> session && a.Replied? && a.code < 400 && a.decodes)
            && (CallError(authed, l, a) == Some(Api(code)) <==> session && a.Replied? && a.code == code >= 400)
  {
  }

  /** Over the calls of a pass: a delete counts as done exactly when it was served. */
  lemma DeleteSettled(f: Fault, honest: nat)
    requires honest < 400 || honest == 404
    ensures (ErrorOf(f, honest).None? || IsNotFound(ErrorOf(f, honest))) <==> f.Served?
    ensures IsNotFound(ErrorOf(f, honest)) <==> f.Served? && honest == 404
    ensures ErrorOf(f, honest).None? <==> f.Served? && honest < 400
  {
  }
}
