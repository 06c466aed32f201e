/**
 * `verifyToken` from backend/middleware/authMiddleware.js: the token is the Authorization
 * header with its first `"Bearer "` removed; no token answers 401, a token `jwt.verify`
 * rejects answers 403, and otherwise `req.user` is set and the next handler runs.
 * `jwt.verify` with the process's secret is an input.
 */
module AuthMiddleware {
  import opened Wrappers
  import opened Models
  import JsString

  const BearerPrefix: string := "Bearer "
  const NoTokenMessage: string := "Access denied \U{274C} No token provided"
  const InvalidTokenMessage: string := "Invalid or expired token \U{274C}"

  /** The decoded payload; only its `id` is read, and it may be undefined. */
  datatype Claims = Claims(id: Option<string>)

  /** What the middleware decides. */
  datatype Decision = Unauthorized | Forbidden | Admit(user: Principal)

  /** `req.header("Authorization")?.replace("Bearer ", "")`. */
  function TokenOf(header: Option<string>): (token: Option<string>)
    ensures header.None? <==> token.None?
    ensures header.Some? && JsString.IndexOfFrom(header.value, BearerPrefix, 0).None? ==> token == header
    ensures header.Some? && JsString.IndexOfFrom(header.value, BearerPrefix, 0).Some? ==>
      var i := JsString.IndexOfFrom(header.value, BearerPrefix, 0).value;
      |token.value| == |header.value| - |BearerPrefix|
      && header.value == token.value[..i] + BearerPrefix + token.value[i..]
  {
    match header
    case None => None
    case Some(h) => Some(JsString.RemoveFirst(h, BearerPrefix))
  }

  /** The decision for a request carrying `header`, given what `jwt.verify` does with a token. */
  function Decide(header: Option<string>, verify: string -> Result<Claims, string>): (d: Decision)
    ensures d == Unauthorized <==> TokenOf(header).None? || TokenOf(header).value == ""
    ensures d == Forbidden <==>
      TokenOf(header).Some? && TokenOf(header).value != "" && verify(TokenOf(header).value).Failure?
    ensures d.Admit? ==> d.user == Principal(verify(TokenOf(header).value).value.id)
  {
    match TokenOf(header)
    case None => Unauthorized
    case Some(token) =>
      if token == "" then Unauthorized
      else
        match verify(token)
        case Failure(_) => Forbidden
        case Success(decoded) => Admit(Principal(decoded.id))
  }

  /** The request and response objects the middleware touches. */
  class Exchange {
    var user: Option<Principal>        // `req.user`
    var response: Option<HttpResponse> // what was written to `res`, if anything
    var nextCalls: nat                 // how many times `next` was called

    constructor ()
      ensures user.None? && response.None? && nextCalls == 0
    {
      user, response, nextCalls := None, None, 0;
    }

    /** `verifyToken(req, res, next)`. */
    method VerifyToken(header: Option<string>, verify: string -> Result<Claims, string>)
      modifies this
      ensures Decide(header, verify) == Unauthorized ==>
        && response == Some(HttpResponse(401, MessageBody(NoTokenMessage)))
        && user == old(user) && nextCalls == old(nextCalls)
      ensures Decide(header, verify) == Forbidden ==>
        && response == Some(HttpResponse(403, MessageBody(InvalidTokenMessage)))
        && user == old(user) && nextCalls == old(nextCalls)
      ensures Decide(header, verify).Admit? ==>
        && user == Some(Decide(header, verify).user)
        && nextCalls == old(nextCalls) + 1
        && response == old(response)
    {
      var token := TokenOf(header);
      if token.None? || token.value == "" {
        response := Some(HttpResponse(401, MessageBody(NoTokenMessage)));
        return;
      }
      var decoded := verify(token.value);
      if decoded.Failure? {
        response := Some(HttpResponse(403, MessageBody(InvalidTokenMessage)));
        return;
      }
      user := Some(Principal(decoded.value.id));
      nextCalls := nextCalls + 1;
    }
  }

  /** A request without an Authorization header is refused with 401. */
  lemma MissingHeaderIsUnauthorized(verify: string -> Result<Claims, string>)
    ensures Decide(None, verify) == Unauthorized
  {
  }

  /** The usual header `"Bearer " + t` yields the token `t`. */
  lemma StandardHeaderToken(t: string)
    ensures TokenOf(Some(BearerPrefix + t)) == Some(t)
  {
    var h := BearerPrefix + t;
    assert JsString.OccursAt(h, BearerPrefix, 0);
    var r := TokenOf(Some(h)).value;
    assert h == r[..0] + BearerPrefix + r[0..];
  }

  /**
   * The prefix is removed wherever it first occurs, not only at the start:
   * `p + "Bearer " + t` yields `p + t` when `p + "Bearer "` holds no earlier occurrence.
   */
  lemma BearerRemovedAnywhere(p: string, t: string)
    requires forall k :: 0 <= k < |p| ==> !JsString.OccursAt(p + BearerPrefix + t, BearerPrefix, k)
    ensures TokenOf(Some(p + BearerPrefix + t)) == Some(p + t)
  {
    var h := p + BearerPrefix + t;
    assert JsString.OccursAt(h, BearerPrefix, |p|);
    var i := JsString.IndexOfFrom(h, BearerPrefix, 0);
    assert i == Some(|p|);
    var r := TokenOf(Some(h)).value;
    assert r[..|p|] == p && r[|p|..] == t by {
      assert h[..|p|] == p;
      assert h[|p| + |BearerPrefix|..] == t;
    }
    assert r == r[..|p|] + r[|p|..];
  }

  /**
   * A missing header or one that is empty once the prefix is removed (exactly "Bearer ",
   * say) is refused with 401 whatever `verify` would do: verification is never attempted.
   */
  lemma EmptyTokenNeverVerified(header: Option<string>, v1: string -> Result<Claims, string>, v2: string -> Result<Claims, string>)
    requires TokenOf(header).None? || TokenOf(header) == Some("")
    ensures Decide(header, v1) == Unauthorized && Decide(header, v2) == Unauthorized
  {
  }

  /** The header "Bearer " alone carries the empty token. */
  lemma BarePrefixIsUnauthorized(verify: string -> Result<Claims, string>)
    ensures Decide(Some(BearerPrefix), verify) == Unauthorized
  {
    StandardHeaderToken("");
    assert BearerPrefix + "" == BearerPrefix;
  }

  /** 403 exactly when there is a non-empty token and `verify` throws on it. */
  lemma ForbiddenIffVerifyThrows(header: Option<string>, verify: string -> Result<Claims, string>)
    ensures Decide(header, verify) == Forbidden <==>
      TokenOf(header).Some? && TokenOf(header).value != "" && verify(TokenOf(header).value).Failure?
  {
  }

  /** The request proceeds exactly when `verify` accepts the token, with `req.user` = `{ id: decoded.id }`. */
  lemma AdmitIffVerified(header: Option<string>, verify: string -> Result<Claims, string>, p: Principal)
    ensures Decide(header, verify) == Admit(p) <==>
      && TokenOf(header).Some? && TokenOf(header).value != ""
      && verify(TokenOf(header).value).Success?
      && p == Principal(verify(TokenOf(header).value).value.id)
  {
  }
}
