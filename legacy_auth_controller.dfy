/**
 * The account endpoints of _controller/auth.controller.js: password reset
 * by mailed token, sign-up of club accounts and sign-in. Tokens, password
 * hashes and signed JWTs come from oracles passed in as parameters; the
 * signing oracle takes the name of the environment variable holding the
 * secret. The clock is the integer `now` in milliseconds.
 */
module LegacyAuthController {
  import opened Wrappers
  import opened Seqs
  import opened Strings
  import opened LegacyUsers
  import VerifySignUp

  /** The environment variables `resetPassword` and `signin` sign with. */
  const JwtSecret: string := "JWT_SECRET"
  const Secret: string := "SECRET"

  /** 24 hours in milliseconds, how long a reset token stays valid. */
  const ResetValidity: int := 24 * 60 * 60 * 1000

  const TokenInvalid: string := "Ungültiger oder abgelaufener Reset-Token"

  /** The reset token of `u` is `token` and expires after `now`. */
  predicate HoldsToken(u: User, token: string, now: int) {
    && TextOf(u, "resetToken") == Some(token)
    && "resetTokenExpires" in u.doc && u.doc["resetTokenExpires"].Time?
    && u.doc["resetTokenExpires"].ms > now
  }

  /** `User.findOne({resetToken: token, resetTokenExpires: {$gt: now}})` */
  function FindByToken(users: seq<User>, token: string, now: int): (r: Option<nat>)
    ensures r.None? <==> forall i :: 0 <= i < |users| ==> !HoldsToken(users[i], token, now)
    ensures r.Some? ==> r.value < |users| && HoldsToken(users[r.value], token, now)
  {
    FirstIndex(users, (u: User) => HoldsToken(u, token, now))
  }

  /** The answer of `validateResetToken`. */
  datatype Validation = Validation(status: int, valid: bool, message: string, email: Option<string>)

  /**
   * `validateResetToken`: a missing or empty token is a bad request; a token
   * no user holds unexpired is answered `valid: false`; otherwise the
   * holder's email comes back.
   */
  function ValidateResetToken(users: seq<User>, token: Option<string>, now: int): (r: Validation)
    ensures r.status == 400 <==> token.None? || token.value == ""
    ensures r.valid <==> r.status == 200 && exists i :: 0 <= i < |users| && HoldsToken(users[i], token.value, now)
    ensures r.valid ==> r.email == Email(users[FindByToken(users, token.value, now).value])
    ensures r.status != 400 && !r.valid ==> r == Validation(200, false, TokenInvalid, None)
  {
    if token.None? || token.value == "" then Validation(400, false, "Token ist erforderlich", None)
    else match FindByToken(users, token.value, now)
      case None => Validation(200, false, TokenInvalid, None)
      case Some(i) => Validation(200, true, "Token ist gültig", Email(users[i]))
  }

  /** The authority of one role name. */
  function Authority(role: string): string {
    "ROLE_" + ToUpper(role)
  }

  /** The authorities loop of `resetPassword` and `signin`. */
  method Authorities(roles: seq<string>) returns (authorities: seq<string>)
    ensures |authorities| == |roles|
    ensures forall i :: 0 <= i < |roles| ==> authorities[i] == "ROLE_" + ToUpper(roles[i])
  {
    authorities := [];
    for i := 0 to |roles|
      invariant |authorities| == i
      invariant forall k :: 0 <= k < i ==> authorities[k] == Authority(roles[k])
    {
      authorities := authorities + [Authority(roles[i])];
    }
  }

  /** An authority names its role: the role is found again by dropping "ROLE_" and comparing case-blind. */
  lemma AuthorityNamesRole(role: string)
    ensures StartsWith(Authority(role), "ROLE_")
    ensures Authority(role)[5..] == ToUpper(role)
  {
    assert Authority(role)[..5] == "ROLE_";
  }

  /** What a successful sign-in or password reset answers. */
  datatype Session = Session(id: string, email: Option<string>, roles: seq<string>, accessToken: string)

  /**
   * The answer of `resetPassword`; `NoReply` when the handler throws after
   * the update and no response is ever sent.
   */
  datatype ResetReply = Rejected(message: string) | Accepted(session: Session) | NoReply

  datatype SigninReply = NoSuchUser | WrongPassword(accessToken: Option<string>, message: string) | Signed(session: Session, club: seq<string>)

  /** The fields `signup` reads from its request; `club` is absent when not sent. */
  datatype SignupBody = SignupBody(email: string, club: Option<seq<string>>)

  /** The role names `signup` assigns, in the order of the role collection. */
  const SignupRoles: seq<string> := ["vrsw", "user"]

  predicate SignupRole(name: string) {
    name in SignupRoles
  }

  /** The account `signup` creates: lower-cased email, hashed initial password, the body's clubs and the matching roles. */
  function NewAccount(body: SignupBody, passwordHash: string, roleNames: seq<string>, newId: string): (u: User)
    ensures Email(u) == Some(ToLower(body.email))
    ensures "password" in u.doc && u.doc["password"] == Text(passwordHash)
    ensures Clubs(u) == (if body.club.Some? then body.club.value else [])
    ensures forall k :: 0 <= k < |u.roles| ==> u.roles[k] in roleNames && u.roles[k] in SignupRoles
    ensures forall k :: 0 <= k < |roleNames| && roleNames[k] in SignupRoles ==> roleNames[k] in u.roles
  {
    User(newId,
      map["email" := Text(ToLower(body.email)), "password" := Text(passwordHash),
          "club" := Texts(if body.club.Some? then body.club.value else [])],
      Filter(SignupRole, roleNames))
  }

  // ---- sign-up behind its duplicate check -----------------------------------------

  /** No two accounts share an email. */
  predicate EmailsUnique(users: seq<User>) {
    forall i, j :: 0 <= i < j < |users| && Email(users[i]).Some? ==> Email(users[i]) != Email(users[j])
  }

  /**
   * The sign-up route as written: `checkDuplicateUsernameOrEmail` looks the
   * email up as sent, then `signup` stores it lower-cased.
   */
  function SignupRouteAsWritten(users: seq<User>, body: SignupBody, passwordHash: string, roleNames: seq<string>, newId: string): seq<User> {
    if VerifySignUp.DuplicateCheck(users, body.email).Stop? then users
    else users + [NewAccount(body, passwordHash, roleNames, newId)]
  }

  /** An upper-case spelling of a registered email passes the check and registers it a second time. */
  lemma SignupRouteAsWrittenDuplicates()
    ensures var users := [User("u1", map["email" := Text("a@x.de")], [])];
            var after := SignupRouteAsWritten(users, SignupBody("A@x.de", None), "h", [], "u2");
            EmailsUnique(users) && !EmailsUnique(after)
  {
    var users := [User("u1", map["email" := Text("a@x.de")], [])];
    assert Email(users[0]) == Some("a@x.de");
    assert Email(users[0]) != Some("A@x.de");
    assert VerifySignUp.DuplicateCheck(users, "A@x.de").Next?;
    var after := SignupRouteAsWritten(users, SignupBody("A@x.de", None), "h", [], "u2");
    assert after == users + [NewAccount(SignupBody("A@x.de", None), "h", [], "u2")];
    var lower := ToLower("A@x.de");
    assert lower[0] == 'a' && lower[1..] == "A@x.de"[1..];
    assert lower == "a@x.de";
    assert Email(after[1]) == Some("a@x.de") == Email(after[0]);
  }

  /** The sign-up route with the duplicate check on the email as it will be stored. */
  function SignupRoute(users: seq<User>, body: SignupBody, passwordHash: string, roleNames: seq<string>, newId: string): seq<User> {
    if VerifySignUp.DuplicateCheck(users, ToLower(body.email)).Stop? then users
    else users + [NewAccount(body, passwordHash, roleNames, newId)]
  }

  /** Checking the stored spelling keeps every email registered once, and the account is added exactly when it is new. */
  lemma SignupKeepsEmailsUnique(users: seq<User>, body: SignupBody, passwordHash: string, roleNames: seq<string>, newId: string)
    requires EmailsUnique(users)
    ensures EmailsUnique(SignupRoute(users, body, passwordHash, roleNames, newId))
    ensures |SignupRoute(users, body, passwordHash, roleNames, newId)| == |users| + 1 <==>
      forall i :: 0 <= i < |users| ==> Email(users[i]) != Some(ToLower(body.email))
  {
    var after := SignupRoute(users, body, passwordHash, roleNames, newId);
    if VerifySignUp.DuplicateCheck(users, ToLower(body.email)).Next? {
      assert after[|users|] == NewAccount(body, passwordHash, roleNames, newId);
      forall i, j | 0 <= i < j < |after| && Email(after[i]).Some?
        ensures Email(after[i]) != Email(after[j])
      {
        if j < |users| {
          assert after[i] == users[i] && after[j] == users[j];
        } else {
          assert after[i] == users[i];
        }
      }
    }
  }

  // ---- password reset -------------------------------------------------------------

  /** The update `resetPassword` applies to the token's holder. */
  function Cleared(u: User, hashed: string): User {
    Patch(u, map["password" := Text(hashed), "resetToken" := Null, "resetTokenExpires" := Null])
  }

  /**
   * `resetPassword` as written: the holder is loaded without `populate`, so
   * its `roles` are ids whose `name` is undefined, and the authorities loop
   * throws at the first role, after the update and the mail. Only an account
   * without roles gets its session, with no authorities.
   */
  function ResetAnswerAsWritten(users: seq<User>, token: string, now: int, sign: (string, string) -> string): (r: ResetReply)
    ensures FindByToken(users, token, now).None? <==> r == Rejected(TokenInvalid)
    ensures FindByToken(users, token, now).Some? ==>
      var u := users[FindByToken(users, token, now).value];
      (r == NoReply <==> |u.roles| > 0) &&
      (|u.roles| == 0 ==> r == Accepted(Session(u.id, Email(u), [], sign(JwtSecret, u.id))))
  {
    match FindByToken(users, token, now)
    case None => Rejected(TokenInvalid)
    case Some(i) =>
      var u := users[i];
      if |u.roles| > 0 then NoReply else Accepted(Session(u.id, Email(u), [], sign(JwtSecret, u.id)))
  }

  /**
   * `resetPassword` with the roles populated, as `signin` loads them: the
   * session carries one "ROLE_" authority per role, in order.
   */
  function ResetAnswer(users: seq<User>, token: string, now: int, sign: (string, string) -> string): (r: ResetReply)
    ensures FindByToken(users, token, now).None? <==> r == Rejected(TokenInvalid)
    ensures FindByToken(users, token, now).Some? ==>
      var u := users[FindByToken(users, token, now).value];
      && r.Accepted?
      && r.session.id == u.id && r.session.email == Email(u) && r.session.accessToken == sign(JwtSecret, u.id)
      && |r.session.roles| == |u.roles|
      && forall k :: 0 <= k < |u.roles| ==> r.session.roles[k] == "ROLE_" + ToUpper(u.roles[k])
  {
    match FindByToken(users, token, now)
    case None => Rejected(TokenInvalid)
    case Some(i) =>
      var u := users[i];
      Accepted(Session(u.id, Email(u), Map(Authority, u.roles), sign(JwtSecret, u.id)))
  }

  /**
   * Every account `signup` creates holds a role once the role collection has
   * "user", so the as-written reset never answers it, while the corrected one
   * returns its session.
   */
  lemma ResetAsWrittenSilentForSignups(users: seq<User>, i: nat, token: string, now: int,
                                       sign: (string, string) -> string,
                                       body: SignupBody, passwordHash: string, roleNames: seq<string>, newId: string)
    requires FindByToken(users, token, now) == Some(i)
    requires users[i].roles == NewAccount(body, passwordHash, roleNames, newId).roles
    requires "user" in roleNames
    ensures ResetAnswerAsWritten(users, token, now, sign) == NoReply
    ensures ResetAnswer(users, token, now, sign).Accepted?
  {
    var k :| 0 <= k < |roleNames| && roleNames[k] == "user";
    assert roleNames[k] in users[i].roles;
  }

  // ---- the user collection --------------------------------------------------------

  class AccountStore {
    var users: seq<User>

    constructor(us: seq<User>)
      ensures users == us
    {
      users := us;
    }

    /**
     * `reset`: the account with the lower-cased email, if any, receives
     * `token` (32 characters from the random generator) valid for 24 hours.
     * The answer is "ok" either way.
     */
    method Reset(email: string, token: string, now: int) returns (reply: string)
      requires |token| == 32
      modifies this
      ensures reply == "ok"
      ensures FindByEmail(old(users), ToLower(email)).None? ==> users == old(users)
      ensures FindByEmail(old(users), ToLower(email)).Some? ==>
        var i := FindByEmail(old(users), ToLower(email)).value;
        users == old(users)[i := Patch(old(users)[i],
          map["resetToken" := Text(token), "resetTokenExpires" := Time(now + ResetValidity)])]
    {
      var at := FindByEmail(users, ToLower(email));
      if at.Some? {
        var i := at.value;
        users := users[i := Patch(users[i], map["resetToken" := Text(token), "resetTokenExpires" := Time(now + ResetValidity)])];
      }
      return "ok";
    }

    /**
     * `resetPassword` as written: an unknown or expired token is rejected;
     * otherwise the holder's password becomes the hash of `password` and
     * token and expiry are cleared, and then the unpopulated roles make the
     * authorities loop throw, so an account with roles gets no answer.
     */
    method ResetPassword(token: string, password: string, now: int,
                         hash: string -> string, sign: (string, string) -> string) returns (reply: ResetReply)
      modifies this
      ensures FindByToken(old(users), token, now).None? ==> users == old(users)
      ensures FindByToken(old(users), token, now).Some? ==>
        var i := FindByToken(old(users), token, now).value;
        users == old(users)[i := Cleared(old(users)[i], hash(password))]
      ensures reply == ResetAnswerAsWritten(old(users), token, now, sign)
    {
      var at := FindByToken(users, token, now);
      if at.None? {
        return Rejected(TokenInvalid);
      }
      var i := at.value;
      var u := users[i];
      users := users[i := Cleared(u, hash(password))];
      if |u.roles| > 0 {
        // `user.roles[0].name` is undefined: `toUpperCase` throws.
        return NoReply;
      }
      return Accepted(Session(u.id, Email(u), [], sign(JwtSecret, u.id)));
    }

    /**
     * `resetPassword` with the holder's roles populated: the same update,
     * then the session with the authorities.
     */
    method ResetPasswordPopulated(token: string, password: string, now: int,
                                  hash: string -> string, sign: (string, string) -> string) returns (reply: ResetReply)
      modifies this
      ensures FindByToken(old(users), token, now).None? ==> users == old(users)
      ensures FindByToken(old(users), token, now).Some? ==>
        var i := FindByToken(old(users), token, now).value;
        users == old(users)[i := Cleared(old(users)[i], hash(password))]
      ensures reply == ResetAnswer(old(users), token, now, sign)
    {
      var at := FindByToken(users, token, now);
      if at.None? {
        return Rejected(TokenInvalid);
      }
      var i := at.value;
      var u := users[i];
      users := users[i := Cleared(u, hash(password))];
      var authorities := Authorities(u.roles);
      return Accepted(Session(u.id, Email(u), authorities, sign(JwtSecret, u.id)));
    }

    /**
     * `signup` once the middleware has let the request through: the new
     * account is appended. `passwordHash` is the hash of the random initial
     * password; `roleNames` is the role collection in its natural order.
     */
    method Signup(body: SignupBody, passwordHash: string, roleNames: seq<string>, newId: string) returns (message: string)
      modifies this
      ensures users == old(users) + [NewAccount(body, passwordHash, roleNames, newId)]
      ensures message == "User was registered successfully!"
    {
      users := users + [NewAccount(body, passwordHash, roleNames, newId)];
      return "User was registered successfully!";
    }
  }

  /** A password reset leaves the account unable to use its token a second time. */
  lemma ResetTokenSingleUse(u: User, hashed: string, token: string, now: int)
    ensures !HoldsToken(Cleared(u, hashed), token, now)
  {
  }

  /** A reset issued at `now` is honoured until, but not at, `now` plus 24 hours. */
  lemma ResetTokenLifetime(u: User, token: string, now: int, later: int)
    ensures HoldsToken(Patch(u, map["resetToken" := Text(token), "resetTokenExpires" := Time(now + ResetValidity)]), token, later)
      <==> later < now + ResetValidity
  {
    var p := Patch(u, map["resetToken" := Text(token), "resetTokenExpires" := Time(now + ResetValidity)]);
    assert TextOf(p, "resetToken") == Some(token);
  }

  /**
   * `signin`: 404 for an unknown (lower-cased) email, 401 with a null token
   * for a wrong password, otherwise a session with the account's authorities.
   */
  method Signin(users: seq<User>, email: string, password: string,
                check: (string, Option<string>) -> bool, sign: (string, string) -> string) returns (reply: SigninReply)
    ensures FindByEmail(users, ToLower(email)).None? <==> reply == NoSuchUser
    ensures FindByEmail(users, ToLower(email)).Some? ==>
      var u := users[FindByEmail(users, ToLower(email)).value];
      && (!check(password, TextOf(u, "password")) <==> reply == WrongPassword(None, "Passwort falsch!"))
      && (check(password, TextOf(u, "password")) ==>
            && reply.Signed?
            && reply.session.id == u.id && reply.session.email == Email(u) && reply.session.accessToken == sign(Secret, u.id)
            && reply.club == Clubs(u)
            && |reply.session.roles| == |u.roles|
            && forall k :: 0 <= k < |u.roles| ==> reply.session.roles[k] == "ROLE_" + ToUpper(u.roles[k]))
  {
    var at := FindByEmail(users, ToLower(email));
    if at.None? {
      return NoSuchUser;
    }
    var u := users[at.value];
    if !check(password, TextOf(u, "password")) {
      return WrongPassword(None, "Passwort falsch!");
    }
    var authorities := Authorities(u.roles);
    return Signed(Session(u.id, Email(u), authorities, sign(Secret, u.id)), Clubs(u));
  }
}
