/**
 * src/controllers/userController.js: login, the password-reset cycle
 * (request a token, check it, use it) and the edit of one's own profile.
 * Password checks and token signing are oracles given as parameters; the
 * clock is the parameter `now`, in milliseconds.
 */
module UserController {
  import opened Wrappers
  import opened Seqs
  import opened Accounts

  /** How long a requested reset token stays valid: one hour in milliseconds. */
  const ResetValidity := 3600000

  const CredentialsRequired := "Benutzername und Passwort sind erforderlich"
  const BadCredentials := "Ungültige Anmeldedaten"
  const LoggedInMessage := "Login erfolgreich"
  const EmailRequired := "E-Mail-Adresse ist erforderlich"
  const MaybeSent := "Wenn die E-Mail-Adresse existiert, wurde eine E-Mail mit Anweisungen gesendet"
  const ResetSent := "Passwort-Reset-E-Mail wurde erfolgreich gesendet"
  const MailFailed := "E-Mail konnte nicht gesendet werden. Bitte versuchen Sie es später erneut."
  const TokenRequired := "Token ist erforderlich"
  const BadToken := "Ungültiger oder abgelaufener Reset-Token"
  const ResetFieldsRequired := "Reset-Token und neues Passwort sind erforderlich"
  const PasswordReset := "Passwort wurde erfolgreich zurückgesetzt"
  const NoSuchUser := "Benutzer nicht gefunden"
  const CurrentRequired := "Aktuelles Passwort ist erforderlich für Passwort-Änderung"
  const CurrentWrong := "Aktuelles Passwort ist falsch"
  const Updated := "Benutzer erfolgreich aktualisiert"

  /** The answers of the account endpoints. */
  datatype Reply =
    | Failure(status: int, error: string)
    | Success(status: int, message: string)
    | TokenValid(email: string)
    | Profile(message: string, id: int, username: string, email: string, name: Option<string>, role: string, token: Option<string>)

  /** The public fields of an account, as `login` and `updateUser` return them. */
  function ProfileOf(message: string, u: UserRow, token: Option<string>): Reply {
    Profile(message, u.id, u.username, u.email, u.name, u.role, token)
  }

  // ---- login -------------------------------------------------------------------

  /** The login name is the account's username or its email, and the account is active. */
  predicate LogsInAs(u: UserRow, login: string) {
    u.isActive && (u.username == login || u.email == login)
  }

  function FindLogin(users: seq<UserRow>, login: string): (r: Option<nat>)
    ensures r.None? <==> forall i :: 0 <= i < |users| ==> !LogsInAs(users[i], login)
    ensures r.Some? ==> r.value < |users| && FirstAt(users, (u: UserRow) => LogsInAs(u, login), r.value)
  {
    FirstIndex(users, (u: UserRow) => LogsInAs(u, login))
  }

  /**
   * `login`. `check(password, hash)` is `comparePassword`, `sign` the JWT
   * over the account, `now` the time written to `lastLogin`.
   */
  function LoginResult(users: seq<UserRow>, login: Option<string>, password: Option<string>,
                 check: (string, string) -> bool, sign: UserRow -> string, now: int): (r: (seq<UserRow>, Reply))
  {
    if !Given(login) || !Given(password) then (users, Failure(400, CredentialsRequired))
    else match FindLogin(users, login.value)
      case None => (users, Failure(401, BadCredentials))
      case Some(i) =>
        if !check(password.value, users[i].password) then (users, Failure(401, BadCredentials))
        else
          var u := users[i].(lastLogin := Some(now));
          (users[i := u], ProfileOf(LoggedInMessage, u, Some(sign(users[i]))))
  }

  /**
   * A login succeeds exactly for the first active account whose username
   * or email is the login name and whose password checks, and then only
   * its `lastLogin` changes. An unknown name and a wrong password get the
   * same answer, and a failed login writes nothing.
   */
  lemma LoginSpec(users: seq<UserRow>, login: Option<string>, password: Option<string>,
                  check: (string, string) -> bool, sign: UserRow -> string, now: int)
    ensures var r := LoginResult(users, login, password, check, sign, now);
      && (!Given(login) || !Given(password) ==> r == (users, Failure(400, CredentialsRequired)))
      && (r.1.Profile? <==>
            Given(login) && Given(password) && FindLogin(users, login.value).Some?
            && check(password.value, users[FindLogin(users, login.value).value].password))
      && (!r.1.Profile? ==> r.0 == users)
      && (Given(login) && Given(password) && !r.1.Profile? ==> r.1 == Failure(401, BadCredentials))
      && (r.1.Profile? ==>
            var i := FindLogin(users, login.value).value;
            && LogsInAs(users[i], login.value)
            && r.1.id == users[i].id && r.1.role == users[i].role && r.1.token == Some(sign(users[i]))
            && r.0 == users[i := users[i].(lastLogin := Some(now))])
  {
  }

  // ---- the reset cycle -----------------------------------------------------------

  /** `findOne({ email, isActive: true })`. */
  function FindActiveByEmail(users: seq<UserRow>, email: string): (r: Option<nat>)
    ensures r.None? <==> forall i :: 0 <= i < |users| ==> !(users[i].email == email && users[i].isActive)
    ensures r.Some? ==> r.value < |users| && users[r.value].email == email && users[r.value].isActive
  {
    FirstIndex(users, (u: UserRow) => u.email == email && u.isActive)
  }

  /** `validateResetToken`. */
  function ValidateResetToken(users: seq<UserRow>, token: Option<string>, now: int): (r: Reply)
    ensures !Given(token) ==> r == Failure(400, TokenRequired)
    ensures Given(token) ==> (r.TokenValid? <==> exists i :: 0 <= i < |users| && HoldsToken(users[i], token.value, now))
    ensures Given(token) && !r.TokenValid? ==> r == Failure(401, BadToken)
    ensures r.TokenValid? ==> r.email == users[FindByToken(users, token.value, now).value].email
  {
    if !Given(token) then Failure(400, TokenRequired)
    else match FindByToken(users, token.value, now)
      case None => Failure(401, BadToken)
      case Some(i) => TokenValid(users[i].email)
  }

  /** `resetPassword`: the new password replaces the old one and the token and its expiry are cleared. */
  function ResetResult(users: seq<UserRow>, resetToken: Option<string>, newPassword: Option<string>, now: int): (r: (seq<UserRow>, Reply))
  {
    if !Given(resetToken) || !Given(newPassword) then (users, Failure(400, ResetFieldsRequired))
    else match FindByToken(users, resetToken.value, now)
      case None => (users, Failure(400, BadToken))
      case Some(i) =>
        (users[i := users[i].(password := newPassword.value, resetToken := None, resetTokenExpiry := None)],
         Success(200, PasswordReset))
  }

  /**
   * `resetPassword` accepts exactly the tokens `validateResetToken` calls
   * valid at the same moment, and writes only the account that check names.
   */
  lemma ResetAgreesWithValidate(users: seq<UserRow>, token: string, newPassword: string, now: int)
    requires token != "" && newPassword != ""
    ensures var r := ResetResult(users, Some(token), Some(newPassword), now);
      && (r.1 == Success(200, PasswordReset) <==> ValidateResetToken(users, Some(token), now).TokenValid?)
      && (!ValidateResetToken(users, Some(token), now).TokenValid? ==> r == (users, Failure(400, BadToken)))
      && (r.1.Success? ==>
            var i := FindByToken(users, token, now).value;
            && |r.0| == |users|
            && r.0[i].email == ValidateResetToken(users, Some(token), now).email
            && r.0[i].password == newPassword
            && forall j :: 0 <= j < |users| && j != i ==> r.0[j] == users[j])
  {
  }

  /**
   * A token opens one reset only: once used it no longer validates, at any
   * later time, as long as no other account holds the same token.
   */
  lemma {:induction false} ResetTokenSingleUse(users: seq<UserRow>, token: string, newPassword: string, now: int, later: int)
    requires token != "" && newPassword != ""
    requires ResetResult(users, Some(token), Some(newPassword), now).1.Success?
    requires forall i, j :: 0 <= i < j < |users| && users[i].resetToken == Some(token) ==> users[j].resetToken != Some(token)
    ensures ValidateResetToken(ResetResult(users, Some(token), Some(newPassword), now).0, Some(token), later) == Failure(401, BadToken)
  {
    var i := FindByToken(users, token, now).value;
    var after := ResetResult(users, Some(token), Some(newPassword), now).0;
    forall j | 0 <= j < |after|
      ensures !HoldsToken(after[j], token, later)
    {
      if j != i {
        assert after[j] == users[j];
        if j < i {
          assert users[j].resetToken != Some(token);
        } else {
          assert users[i].resetToken == Some(token);
        }
      }
    }
  }

  /**
   * `forgotPassword`. The token is the random oracle's 64 hex digits,
   * `mailSent` the outcome of the reset mail.
   */
  function Forgot(users: seq<UserRow>, email: Option<string>, token: string, now: int, mailSent: bool): (r: (seq<UserRow>, Reply))
  {
    if !Given(email) then (users, Failure(400, EmailRequired))
    else match FindActiveByEmail(users, email.value)
      case None => (users, Success(200, MaybeSent))
      case Some(i) =>
        if mailSent then
          (users[i := users[i].(resetToken := Some(token), resetTokenExpiry := Some(now + ResetValidity))], Success(200, ResetSent))
        else
          (users[i := users[i].(resetToken := None, resetTokenExpiry := None)], Failure(500, MailFailed))
  }

  /**
   * An unknown or inactive email gets a success answer and nothing is
   * written. For a known one, a sent mail leaves a token that opens the
   * account until, and not at, one hour later (if no other account holds
   * it); a failed mail leaves no token at all, the earlier one included.
   */
  lemma ForgotSpec(users: seq<UserRow>, email: string, token: string, now: int, mailSent: bool, later: int)
    requires email != ""
    ensures FindActiveByEmail(users, email).None? ==> Forgot(users, Some(email), token, now, mailSent) == (users, Success(200, MaybeSent))
    ensures FindActiveByEmail(users, email).Some? ==>
      var i := FindActiveByEmail(users, email).value;
      var after := Forgot(users, Some(email), token, now, mailSent).0;
      && |after| == |users|
      && (forall j :: 0 <= j < |users| && j != i ==> after[j] == users[j])
      && after[i].password == users[i].password
      && (!mailSent ==> after[i].resetToken.None? && forall t :: !HoldsToken(after[i], t, later))
      && (mailSent && token != "" && (forall j :: 0 <= j < |users| && j != i ==> users[j].resetToken != Some(token)) ==>
            (ValidateResetToken(after, Some(token), later) == TokenValid(email) <==> later < now + ResetValidity))
  {
    if FindActiveByEmail(users, email).Some? && mailSent && token != "" {
      var i := FindActiveByEmail(users, email).value;
      var after := Forgot(users, Some(email), token, now, mailSent).0;
      if forall j :: 0 <= j < |users| && j != i ==> users[j].resetToken != Some(token) {
        assert forall j :: 0 <= j < |after| && j != i ==> !HoldsToken(after[j], token, later);
        if later < now + ResetValidity {
          assert HoldsToken(after[i], token, later);
        }
      }
    }
  }

  // ---- updateUser ----------------------------------------------------------------

  /** The body of `updateUser`. */
  datatype ProfileBody = ProfileBody(name: Option<string>, email: Option<string>,
                                     currentPassword: Option<string>, newPassword: Option<string>)

  /** `updateData`: the fields to write, each present only when given. */
  datatype Changes = Changes(name: Option<string>, email: Option<string>, password: Option<string>)

  function Apply(u: UserRow, c: Changes): UserRow {
    u.(name := if c.name.Some? then c.name else u.name,
       email := if c.email.Some? then c.email.value else u.email,
       password := if c.password.Some? then c.password.value else u.password)
  }

  /** `updateUser` for the caller `userId`; `check` is `comparePassword`. */
  function UpdateResult(users: seq<UserRow>, userId: int, body: ProfileBody, check: (string, string) -> bool): (r: (seq<UserRow>, Reply))
  {
    match FindByPk(users, userId)
    case None => (users, Failure(404, NoSuchUser))
    case Some(i) =>
      if Given(body.newPassword) && !Given(body.currentPassword) then (users, Failure(400, CurrentRequired))
      else if Given(body.newPassword) && !check(body.currentPassword.value, users[i].password) then (users, Failure(400, CurrentWrong))
      else
        var c := Changes(if Given(body.name) then body.name else None,
                         if Given(body.email) then body.email else None,
                         if Given(body.newPassword) then body.newPassword else None);
        (users[i := Apply(users[i], c)], ProfileOf(Updated, Apply(users[i], c), None))
  }

  /**
   * A profile edit touches only the caller's row, and in it only name,
   * email and password: each changes only when given, and the password
   * only after the current one checks. A missing or wrong current
   * password writes nothing; otherwise the edit succeeds with the profile,
   * and a new password given with a current one that checks is stored.
   */
  lemma UpdateUserSpec(users: seq<UserRow>, userId: int, body: ProfileBody, check: (string, string) -> bool)
    ensures var r := UpdateResult(users, userId, body, check);
      && (FindByPk(users, userId).None? ==> r == (users, Failure(404, NoSuchUser)))
      && (FindByPk(users, userId).Some? ==>
            var i := FindByPk(users, userId).value;
            && (Given(body.newPassword) && !Given(body.currentPassword) ==> r == (users, Failure(400, CurrentRequired)))
            && (Given(body.newPassword) && Given(body.currentPassword) && !check(body.currentPassword.value, users[i].password) ==>
                  r == (users, Failure(400, CurrentWrong)))
            && (!(Given(body.newPassword) && (!Given(body.currentPassword) || !check(body.currentPassword.value, users[i].password))) ==>
                  r.1.Profile?)
            && (Given(body.newPassword) && r.1.Profile? ==> r.0[i].password == body.newPassword.value)
            && (r.1.Profile? ==>
                  && |r.0| == |users|
                  && (forall j :: 0 <= j < |users| && j != i ==> r.0[j] == users[j])
                  && r.0[i] == users[i].(name := r.0[i].name, email := r.0[i].email, password := r.0[i].password)
                  && r.0[i].name == (if Given(body.name) then body.name else users[i].name)
                  && r.0[i].email == (if Given(body.email) then body.email.value else users[i].email)
                  && (r.0[i].password != users[i].password ==>
                        Given(body.newPassword) && check(body.currentPassword.value, users[i].password)
                        && r.0[i].password == body.newPassword.value)))
  {
  }

  class UserStore {
    var users: seq<UserRow>

    constructor(us: seq<UserRow>)
      ensures users == us
    {
      users := us;
    }

    /** `login`: the lookup, the password check, then `user.update({ lastLogin })`. */
    method Login(login: Option<string>, password: Option<string>,
                 check: (string, string) -> bool, sign: UserRow -> string, now: int) returns (reply: Reply)
      modifies this
      ensures (users, reply) == LoginResult(old(users), login, password, check, sign, now)
    {
      if !Given(login) || !Given(password) {
        return Failure(400, CredentialsRequired);
      }
      var at := FindLogin(users, login.value);
      if at.None? {
        return Failure(401, BadCredentials);
      }
      var u := users[at.value];
      if !check(password.value, u.password) {
        return Failure(401, BadCredentials);
      }
      var token := sign(u);
      users := users[at.value := u.(lastLogin := Some(now))];
      reply := ProfileOf(LoggedInMessage, users[at.value], Some(token));
    }

    /**
     * `forgotPassword`: the token and expiry are written first; when the
     * mail then fails, a second update clears them again.
     */
    method ForgotPassword(email: Option<string>, token: string, now: int, mailSent: bool) returns (reply: Reply)
      modifies this
      ensures (users, reply) == Forgot(old(users), email, token, now, mailSent)
    {
      if !Given(email) {
        return Failure(400, EmailRequired);
      }
      var at := FindActiveByEmail(users, email.value);
      if at.None? {
        return Success(200, MaybeSent);
      }
      var i := at.value;
      ghost var before := users;
      users := users[i := users[i].(resetToken := Some(token), resetTokenExpiry := Some(now + ResetValidity))];
      if mailSent {
        reply := Success(200, ResetSent);
      } else {
        users := users[i := users[i].(resetToken := None, resetTokenExpiry := None)];
        assert users == before[i := before[i].(resetToken := None, resetTokenExpiry := None)];
        reply := Failure(500, MailFailed);
      }
    }

    /** `resetPassword`; the outcome of the confirmation mail does not matter. */
    method ResetPassword(resetToken: Option<string>, newPassword: Option<string>, now: int) returns (reply: Reply)
      modifies this
      ensures (users, reply) == ResetResult(old(users), resetToken, newPassword, now)
    {
      if !Given(resetToken) || !Given(newPassword) {
        return Failure(400, ResetFieldsRequired);
      }
      var at := FindByToken(users, resetToken.value, now);
      if at.None? {
        return Failure(400, BadToken);
      }
      var i := at.value;
      users := users[i := users[i].(password := newPassword.value, resetToken := None, resetTokenExpiry := None)];
      reply := Success(200, PasswordReset);
    }

    /** `updateUser`: `updateData` is built field by field, then written in one update. */
    method UpdateUser(userId: int, body: ProfileBody, check: (string, string) -> bool) returns (reply: Reply)
      modifies this
      ensures (users, reply) == UpdateResult(old(users), userId, body, check)
    {
      var at := FindByPk(users, userId);
      if at.None? {
        return Failure(404, NoSuchUser);
      }
      var i := at.value;
      var data := Changes(None, None, None);
      if Given(body.name) {
        data := data.(name := body.name);
      }
      if Given(body.email) {
        data := data.(email := body.email);
      }
      if Given(body.newPassword) {
        if !Given(body.currentPassword) {
          return Failure(400, CurrentRequired);
        }
        if !check(body.currentPassword.value, users[i].password) {
          return Failure(400, CurrentWrong);
        }
        data := data.(password := body.newPassword);
      }
      users := users[i := Apply(users[i], data)];
      reply := ProfileOf(Updated, users[i], None);
    }
  }
}
