/**
 * The token and role checks of the SQL API, src/middleware/authJwt.js.
 * JWT verification is an oracle from a token to its claims.
 */
module AuthJwt {
  import opened Wrappers
  import opened Strings

  datatype Claims = Claims(id: int, role: string)

  /** The request headers `verifyToken` reads. */
  datatype Headers = Headers(authorization: Option<string>, accessToken: Option<string>)

  /** Pass the request on, or answer it with `success: false` and an error text. */
  datatype Outcome = Next(claims: Claims) | Stop(status: int, error: string)

  /** The second space-separated word of `authorization`, when there is one and it is not empty. */
  function SecondWord(header: Option<string>): (r: Option<string>)
    ensures r.Some? <==> header.Some? && |Split(header.value, ' ')| > 1 && Split(header.value, ' ')[1] != ""
    ensures r.Some? ==> r.value == Split(header.value, ' ')[1]
  {
    if header.Some? && |Split(header.value, ' ')| > 1 && Split(header.value, ' ')[1] != ""
    then Some(Split(header.value, ' ')[1]) else None
  }

  /** `authorization?.split(' ')[1] || headers['x-access-token']` */
  function Token(h: Headers): (r: Option<string>)
    ensures SecondWord(h.authorization).Some? ==> r == SecondWord(h.authorization)
    ensures SecondWord(h.authorization).None? && h.accessToken.Some? && h.accessToken.value != "" ==> r == h.accessToken
    ensures r.None? <==> SecondWord(h.authorization).None? && (h.accessToken.None? || h.accessToken.value == "")
  {
    if SecondWord(h.authorization).Some? then SecondWord(h.authorization)
    else if h.accessToken.Some? && h.accessToken.value != "" then h.accessToken
    else None
  }

  /** "Bearer <t>" yields `t` for a non-empty `t` without spaces, whatever x-access-token holds. */
  lemma BearerToken(t: string, other: Option<string>)
    requires t != "" && ' ' !in t
    ensures Token(Headers(Some("Bearer " + t), other)) == Some(t)
  {
    assert "Bearer " + t == "Bearer" + [' '] + t;
    SplitAfter("Bearer", ' ', t);
    SplitNoSep(t, ' ');
  }

  /** A header of one word carries no token, so x-access-token is used. */
  lemma OneWordHeader(w: string, other: string)
    requires ' ' !in w && other != ""
    ensures Token(Headers(Some(w), Some(other))) == Some(other)
  {
    SplitNoSep(w, ' ');
  }

  /** `verifyToken`: 403 without a token, 401 when verification fails, else the claims are attached. */
  function VerifyToken(h: Headers, verify: string -> Option<Claims>): (r: Outcome)
    ensures Token(h).None? <==> r == Stop(403, "Kein Token bereitgestellt")
    ensures Token(h).Some? && verify(Token(h).value).None? <==> r == Stop(401, "Ungültiger Token")
    ensures r.Next? <==> Token(h).Some? && verify(Token(h).value).Some?
    ensures r.Next? ==> r.claims == verify(Token(h).value).value
  {
    match Token(h)
    case None => Stop(403, "Kein Token bereitgestellt")
    case Some(t) =>
      match verify(t)
      case None => Stop(401, "Ungültiger Token")
      case Some(c) => Next(c)
  }

  /** `isAdmin`: only the role 'admin' passes. */
  function IsAdmin(c: Claims): (r: Outcome)
    ensures r.Next? <==> c.role == "admin"
    ensures r.Next? ==> r.claims == c
    ensures r.Stop? ==> r == Stop(403, "Admin-Berechtigung erforderlich")
  {
    if c.role != "admin" then Stop(403, "Admin-Berechtigung erforderlich") else Next(c)
  }

  /** `isModerator`: the roles 'admin' and 'moderator' pass. */
  function IsModerator(c: Claims): (r: Outcome)
    ensures r.Next? <==> c.role == "admin" || c.role == "moderator"
    ensures r.Next? ==> r.claims == c
    ensures r.Stop? ==> r == Stop(403, "Moderator- oder Admin-Berechtigung erforderlich")
  {
    if c.role !in ["admin", "moderator"] then Stop(403, "Moderator- oder Admin-Berechtigung erforderlich")
    else Next(c)
  }

  /** Whoever passes `isAdmin` also passes `isModerator`. */
  lemma AdminIsModerator(c: Claims)
    ensures IsAdmin(c).Next? ==> IsModerator(c).Next?
  {
  }
}
