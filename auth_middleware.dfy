/**
 * The request gates in front of the protected routes: `authenticateToken` picks a token
 * (cookie first, then an `Authorization: Bearer` header in the style of section 2.1 of
 * RFC 6750) and verifies it; `requireAdmin` admits only the "admin" role.
 */
module AuthMiddleware {
  import opened Common
  import opened Text

  /** The payload signed at login and attached to the request as `req.user`. */
  datatype Claims = Claims(id: int, email: string, role: string)

  /** A middleware's decision: call `next()` with what it established, or answer with an error. */
  datatype Gate<T> = Next(value: T) | Reject(status: int, message: string)

  /** The text of `t` before its first space, i.e. `t.split(' ')[0]`. */
  function UpToSpace(t: string): (r: string)
    ensures |r| <= |t| && r == t[..|r|]
    ensures forall i :: 0 <= i < |r| ==> r[i] != ' '
    ensures |r| < |t| ==> t[|r|] == ' '
  {
    if t == [] || t[0] == ' ' then [] else [t[0]] + UpToSpace(t[1..])
  }

  /**
   * The token `authenticateToken` settles on: the cookie when it is truthy; otherwise, when
   * the header starts with "Bearer ", its second space-separated field; otherwise the cookie.
   */
  function SelectToken(cookie: Option<string>, authorization: Option<string>): (token: Option<string>)
    ensures TruthyString(cookie) ==> token == cookie
    ensures (authorization.None? || !StartsWith(authorization.value, "Bearer ")) ==> token == cookie
  {
    if !TruthyString(cookie) && authorization.Some? && StartsWith(authorization.value, "Bearer ") then
      Some(UpToSpace(authorization.value[7..]))
    else cookie
  }

  /** `authenticateToken`, with `jwt.verify` under the server's secret given as `verify`. */
  function AuthenticateToken(cookie: Option<string>, authorization: Option<string>,
                             verify: string -> Option<Claims>): (r: Gate<Claims>)
    ensures !TruthyString(SelectToken(cookie, authorization)) ==> r == Reject(401, "Access denied")
    ensures r.Next? <==> TruthyString(SelectToken(cookie, authorization))
                         && verify(SelectToken(cookie, authorization).value).Some?
    ensures r.Next? ==> r.value == verify(SelectToken(cookie, authorization).value).value
    ensures r.Reject? ==> r.status == 401 || r.status == 403
  {
    var token := SelectToken(cookie, authorization);
    if !TruthyString(token) then Reject(401, "Access denied")
    else match verify(token.value)
      case None => Reject(403, "Invalid token")
      case Some(payload) => Next(payload)
  }

  lemma {:induction false} UpToSpaceOfSpaceless(t: string)
    requires forall i :: 0 <= i < |t| ==> t[i] != ' '
    ensures UpToSpace(t) == t
  {
    if t != [] {
      UpToSpaceOfSpaceless(t[1..]);
    }
  }

  /** A header "Bearer <t>" for a spaceless token `t` yields exactly `t` when there is no cookie token. */
  lemma BearerHeaderRoundTrip(cookie: Option<string>, t: string)
    requires !TruthyString(cookie)
    requires forall i :: 0 <= i < |t| ==> t[i] != ' '
    ensures SelectToken(cookie, Some("Bearer " + t)) == Some(t)
  {
    var h := "Bearer " + t;
    assert h[..7] == "Bearer ";
    assert h[7..] == t;
    UpToSpaceOfSpaceless(t);
  }

  /** A header with a second space right after "Bearer" yields an empty token, so the request gets 401. */
  lemma DoubleSpaceHeaderRejected(verify: string -> Option<Claims>)
    ensures AuthenticateToken(None, Some("Bearer  abc"), verify) == Reject(401, "Access denied")
  {
    var h := "Bearer  abc";
    assert h[..7] == "Bearer ";
    assert h[7..][0] == ' ';
  }

  /** `requireAdmin`: passes only when a user is attached and its role is exactly "admin". */
  function RequireAdmin(user: Option<Claims>): (r: Gate<()>)
    ensures r.Next? <==> user.Some? && user.value.role == "admin"
    ensures r.Reject? ==> r == Reject(403, "Admin access required")
  {
    if user.None? || user.value.role != "admin" then Reject(403, "Admin access required") else Next(())
  }
}
