/**
 * The token and role checks of the legacy API, _middleware/authJwt.js.
 * JWT verification is an oracle: it maps a token to the id it was issued
 * for, or to nothing when the token is invalid or expired.
 */
module LegacyAuthJwt {
  import opened Wrappers
  import opened Strings
  import opened LegacyUsers

  const BearerPrefix: string := "Bearer "

  /** The request headers `verifyToken` reads. */
  datatype Headers = Headers(authorization: Option<string>, capitalAuthorization: Option<string>)

  /** Pass the request on (with what the middleware attached) or answer it. */
  datatype Outcome = Next(userId: string) | Stop(status: int, message: string)

  /** `headers.authorization || headers.Authorization`: the first non-empty one. */
  function RawToken(h: Headers): (r: Option<string>)
    ensures r.Some? ==> r.value != ""
    ensures r.None? <==> (h.authorization.None? || h.authorization.value == "") &&
                         (h.capitalAuthorization.None? || h.capitalAuthorization.value == "")
  {
    if h.authorization.Some? && h.authorization.value != "" then h.authorization
    else if h.capitalAuthorization.Some? && h.capitalAuthorization.value != "" then h.capitalAuthorization
    else None
  }

  /** A leading "Bearer " is cut off once; any other token is kept as it is. */
  function StripBearer(t: string): (r: string)
    ensures StartsWith(t, BearerPrefix) ==> BearerPrefix + r == t
    ensures !StartsWith(t, BearerPrefix) ==> r == t
  {
    if StartsWith(t, BearerPrefix) then t[|BearerPrefix|..] else t
  }

  /** Only one prefix is removed: whatever follows the first "Bearer " is the token. */
  lemma StripOnce(t: string)
    ensures StripBearer(BearerPrefix + t) == t
  {
    assert (BearerPrefix + t)[..|BearerPrefix|] == BearerPrefix;
    assert (BearerPrefix + t)[|BearerPrefix|..] == t;
  }

  /** `verifyToken`: 403 without a token, 401 when verification fails, else the decoded id is attached. */
  function VerifyToken(h: Headers, verify: string -> Option<string>): (r: Outcome)
    ensures RawToken(h).None? ==> r == Stop(403, "No token provided!")
    ensures RawToken(h).Some? && verify(StripBearer(RawToken(h).value)).None? ==> r == Stop(401, "Unauthorized!")
    ensures r.Next? <==> RawToken(h).Some? && verify(StripBearer(RawToken(h).value)).Some?
    ensures r.Next? ==> r.userId == verify(StripBearer(RawToken(h).value)).value
  {
    match RawToken(h)
    case None => Stop(403, "No token provided!")
    case Some(t) =>
      match verify(StripBearer(t))
      case None => Stop(401, "Unauthorized!")
      case Some(id) => Next(id)
  }

  /** A "Bearer" header is verified on the bare token. */
  lemma BearerHeader(t: string, verify: string -> Option<string>)
    ensures VerifyToken(Headers(Some(BearerPrefix + t), None), verify) ==
      (if verify(t).Some? then Next(verify(t).value) else Stop(401, "Unauthorized!"))
  {
    StripOnce(t);
  }

  /** The role loop of `isAdmin`/`isVRSW`: does some role have this name? */
  method HasRole(roles: seq<string>, name: string) returns (found: bool)
    ensures found <==> name in roles
  {
    var i := 0;
    while i < |roles|
      invariant 0 <= i <= |roles|
      invariant name !in roles[..i]
    {
      if roles[i] == name {
        return true;
      }
      assert roles[..i + 1] == roles[..i] + [roles[i]];
      i := i + 1;
    }
    assert roles[..i] == roles;
    return false;
  }

  /**
   * `isAdmin` and `isVRSW` for the caller `userId`: the caller proceeds iff
   * one of its roles has the name, else 403. `None` is the TypeError raised
   * when the caller's document is gone.
   */
  method RequireRole(users: seq<User>, userId: string, name: string, refusal: string) returns (r: Option<Outcome>)
    ensures FindById(users, userId).None? <==> r.None?
    ensures r.Some? ==> (r.value == Next(userId) <==> name in users[FindById(users, userId).value].roles)
    ensures r.Some? && r.value != Next(userId) ==> r.value == Stop(403, refusal)
  {
    var idx := FindById(users, userId);
    if idx.None? {
      return None;
    }
    var ok := HasRole(users[idx.value].roles, name);
    if ok {
      return Some(Next(userId));
    }
    return Some(Stop(403, refusal));
  }

  method IsAdmin(users: seq<User>, userId: string) returns (r: Option<Outcome>)
    ensures FindById(users, userId).None? <==> r.None?
    ensures r.Some? ==> (r.value == Next(userId) <==> "admin" in users[FindById(users, userId).value].roles)
    ensures r.Some? && r.value != Next(userId) ==> r.value == Stop(403, "Require Admin Role!")
  {
    r := RequireRole(users, userId, "admin", "Require Admin Role!");
  }

  method IsVRSW(users: seq<User>, userId: string) returns (r: Option<Outcome>)
    ensures FindById(users, userId).None? <==> r.None?
    ensures r.Some? ==> (r.value == Next(userId) <==> "vrsw" in users[FindById(users, userId).value].roles)
    ensures r.Some? && r.value != Next(userId) ==> r.value == Stop(403, "Require VRSW Role!")
  {
    r := RequireRole(users, userId, "vrsw", "Require VRSW Role!");
  }

  /** `getClub`: the caller's club list is attached; `None` when the caller's document is gone. */
  function GetClub(users: seq<User>, userId: string): (r: Option<seq<string>>)
    ensures r.Some? <==> exists i :: 0 <= i < |users| && users[i].id == userId
    ensures r.Some? ==> exists i :: 0 <= i < |users| && users[i].id == userId && r.value == Clubs(users[i])
  {
    match FindById(users, userId)
    case None => None
    case Some(i) => Some(Clubs(users[i]))
  }
}
