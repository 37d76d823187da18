/**
 * src/controllers/adminController.js: an administrator creates accounts
 * (with a temporary password and a reset token for the welcome mail),
 * deletes them and switches their role. The table hands out ids in
 * ascending order, as MySQL's auto-increment does.
 */
module AdminController {
  import opened Wrappers
  import opened Seqs
  import opened Accounts

  /** How long the reset token of a new account stays valid: 24 hours in milliseconds. */
  const WelcomeValidity := 24 * 60 * 60 * 1000

  const MissingFields := "Username und E-Mail sind erforderlich"
  const AlreadyExists := "Benutzer mit diesem Username oder E-Mail existiert bereits"
  const Created := "Benutzer erfolgreich erstellt und Willkommens-E-Mail gesendet"
  const NotYourself := "Sie können sich nicht selbst löschen"
  const NoSuchUser := "Benutzer nicht gefunden"
  const Deleted := "Benutzer erfolgreich gelöscht"
  const BadRole := "Ungültige Rolle. Erlaubt sind: user, admin"
  const NotYourRole := "Sie können Ihre eigene Rolle nicht ändern"
  const RoleChanged := "Benutzerrolle erfolgreich aktualisiert"

  /** An answer: an error or a plain message, or the account's public fields. */
  datatype Reply =
    | Message(status: int, message: string)
    | Account(status: int, message: string, id: int, username: string, email: string, role: string)

  // ---- createUser --------------------------------------------------------------

  /** The body of `createUser`; an absent `role` defaults to "user". */
  datatype CreateBody = CreateBody(username: Option<string>, email: Option<string>, role: Option<string>)

  function RoleOf(body: CreateBody): string {
    if body.role.None? then "user" else body.role.value
  }

  /** Some account already has this username, or this email. */
  predicate Taken(users: seq<UserRow>, username: string, email: string) {
    exists i :: 0 <= i < |users| && (users[i].username == username || users[i].email == email)
  }

  /** No two accounts share a username, and no two share an email. */
  predicate NamesUnique(users: seq<UserRow>) {
    forall i, j :: 0 <= i < j < |users| ==> users[i].username != users[j].username && users[i].email != users[j].email
  }

  /**
   * The row `createUser` inserts: the hashed temporary password, the role,
   * a reset token valid for 24 hours, and the demand to change the password.
   * `isActive` takes the column's default, true.
   */
  function NewUser(id: int, username: string, email: string, role: string,
                   passwordHash: string, resetToken: string, now: int): UserRow {
    UserRow(id, username, email, passwordHash, role, None, true, true, Some(resetToken), Some(now + WelcomeValidity), None)
  }

  /**
   * `createUser` on the table whose next id is `nextId`. Both username and
   * email are required; an account with the same username or the same
   * email blocks the creation; otherwise the account is appended and 201
   * answered, whether or not the welcome mail goes out.
   */
  function Create(users: seq<UserRow>, nextId: int, body: CreateBody,
                  passwordHash: string, resetToken: string, now: int): (r: (seq<UserRow>, Reply))
    ensures !Given(body.username) || !Given(body.email) ==> r == (users, Message(400, MissingFields))
    ensures Given(body.username) && Given(body.email) && Taken(users, body.username.value, body.email.value) ==>
      r == (users, Message(400, AlreadyExists))
    ensures r.1.status == 201 <==> r.0 != users
    ensures r.1.status == 201 ==>
      && Given(body.username) && Given(body.email) && !Taken(users, body.username.value, body.email.value)
      && r.0 == users + [NewUser(nextId, body.username.value, body.email.value, RoleOf(body), passwordHash, resetToken, now)]
      && r.1 == Account(201, Created, nextId, body.username.value, body.email.value, RoleOf(body))
  {
    if !Given(body.username) || !Given(body.email) then (users, Message(400, MissingFields))
    else if Taken(users, body.username.value, body.email.value) then (users, Message(400, AlreadyExists))
    else
      var u := NewUser(nextId, body.username.value, body.email.value, RoleOf(body), passwordHash, resetToken, now);
      assert |users + [u]| != |users|;
      (users + [u], Account(201, Created, nextId, u.username, u.email, u.role))
  }

  /** Creation keeps usernames and emails unique and hands out a fresh id. */
  lemma CreateKeepsAccountsDistinct(users: seq<UserRow>, nextId: int, body: CreateBody,
                                    passwordHash: string, resetToken: string, now: int)
    requires NamesUnique(users) && IdsBelow(users, nextId)
    ensures var after := Create(users, nextId, body, passwordHash, resetToken, now).0;
      NamesUnique(after) && IdsBelow(after, if after == users then nextId else nextId + 1)
  {
    var after := Create(users, nextId, body, passwordHash, resetToken, now).0;
    if after != users {
      var u := after[|users|];
      assert forall i :: 0 <= i < |users| ==> after[i] == users[i];
      forall i, j | 0 <= i < j < |after|
        ensures after[i].username != after[j].username && after[i].email != after[j].email
      {
        if j == |users| {
          assert !(users[i].username == u.username || users[i].email == u.email);
        }
      }
    }
  }

  /**
   * The new account's reset token opens it until 24 hours after the
   * creation, and not from then on, provided no other account holds the
   * same token.
   */
  lemma WelcomeTokenLifetime(users: seq<UserRow>, nextId: int, body: CreateBody,
                             passwordHash: string, resetToken: string, now: int, later: int)
    requires Create(users, nextId, body, passwordHash, resetToken, now).1.status == 201
    requires forall i :: 0 <= i < |users| ==> users[i].resetToken != Some(resetToken)
    ensures var after := Create(users, nextId, body, passwordHash, resetToken, now).0;
      && after[|users|].mustChangePassword
      && (FindByToken(after, resetToken, later) == Some(|users|) <==> later < now + WelcomeValidity)
      && (FindByToken(after, resetToken, later).None? <==> later >= now + WelcomeValidity)
  {
    var after := Create(users, nextId, body, passwordHash, resetToken, now).0;
    assert forall i :: 0 <= i < |users| ==> after[i] == users[i] && !HoldsToken(after[i], resetToken, later);
  }

  // ---- deleteUser and updateUserRole ----------------------------------------------

  /** Removes row `i`. */
  function Without(users: seq<UserRow>, i: nat): (r: seq<UserRow>)
    requires i < |users|
    ensures |r| == |users| - 1
    ensures forall k :: 0 <= k < i ==> r[k] == users[k]
    ensures forall k :: i <= k < |r| ==> r[k] == users[k + 1]
  {
    users[..i] + users[i + 1..]
  }

  /** Removing row `i` keeps every other row and adds none. */
  lemma WithoutMembers(users: seq<UserRow>, i: nat)
    requires i < |users|
    ensures forall j :: 0 <= j < |users| && j != i ==> users[j] in Without(users, i)
    ensures forall x :: x in Without(users, i) ==> x in users
  {
    var r := Without(users, i);
    forall j | 0 <= j < |users| && j != i
      ensures users[j] in r
    {
      var k := if j < i then j else j - 1;
      assert r[k] == users[j];
    }
    forall x | x in r
      ensures x in users
    {
      var k :| 0 <= k < |r| && r[k] == x;
      var j := if k < i then k else k + 1;
      assert users[j] == x;
    }
  }

  /** `deleteUser` of account `id` by the administrator `currentUserId`. */
  function Delete(users: seq<UserRow>, id: int, currentUserId: int): (r: (seq<UserRow>, Reply))
    ensures id == currentUserId ==> r == (users, Message(400, NotYourself))
    ensures id != currentUserId && FindByPk(users, id).None? ==> r == (users, Message(404, NoSuchUser))
    ensures id != currentUserId && FindByPk(users, id).Some? ==>
      r == (Without(users, FindByPk(users, id).value), Message(200, Deleted))
  {
    if id == currentUserId then (users, Message(400, NotYourself))
    else match FindByPk(users, id)
      case None => (users, Message(404, NoSuchUser))
      case Some(i) => (Without(users, i), Message(200, Deleted))
  }

  /** The two roles `updateUserRole` accepts. */
  predicate ValidRole(role: Option<string>) {
    role == Some("user") || role == Some("admin")
  }

  /**
   * `updateUserRole`: the role is checked first, then that the account is
   * not the caller's own, then that it exists; then only its role changes.
   */
  function UpdateRole(users: seq<UserRow>, id: int, currentUserId: int, role: Option<string>): (r: (seq<UserRow>, Reply))
    ensures !ValidRole(role) ==> r == (users, Message(400, BadRole))
    ensures ValidRole(role) && id == currentUserId ==> r == (users, Message(400, NotYourRole))
    ensures ValidRole(role) && id != currentUserId && FindByPk(users, id).None? ==> r == (users, Message(404, NoSuchUser))
    ensures ValidRole(role) && id != currentUserId && FindByPk(users, id).Some? ==>
      var i := FindByPk(users, id).value;
      && r.0 == users[i := users[i].(role := role.value)]
      && r.1 == Account(200, RoleChanged, id, users[i].username, users[i].email, role.value)
  {
    if !ValidRole(role) then (users, Message(400, BadRole))
    else if id == currentUserId then (users, Message(400, NotYourRole))
    else match FindByPk(users, id)
      case None => (users, Message(404, NoSuchUser))
      case Some(i) => (users[i := users[i].(role := role.value)], Account(200, RoleChanged, id, users[i].username, users[i].email, role.value))
  }

  /**
   * An administrator can neither delete their own account nor change its
   * role: whatever the request, the caller's row is still there, unchanged.
   */
  lemma CallerUntouched(users: seq<UserRow>, id: int, currentUserId: int, role: Option<string>, me: UserRow)
    requires me in users && me.id == currentUserId
    requires forall i, j :: 0 <= i < j < |users| ==> users[i].id != users[j].id
    ensures me in Delete(users, id, currentUserId).0
    ensures me in UpdateRole(users, id, currentUserId, role).0
  {
    var k :| 0 <= k < |users| && users[k] == me;
    if id != currentUserId {
      match FindByPk(users, id)
      case None =>
      case Some(i) =>
        assert i != k;
        WithoutMembers(users, i);
        assert UpdateRole(users, id, currentUserId, role).0[k] == me || !ValidRole(role);
    }
  }

  /** Deleting removes exactly the account with that id and keeps every other row. */
  lemma DeleteRemovesOnly(users: seq<UserRow>, id: int, currentUserId: int)
    requires forall i, j :: 0 <= i < j < |users| ==> users[i].id != users[j].id
    ensures var after := Delete(users, id, currentUserId).0;
      && (forall x :: x in users && x.id != id ==> x in after)
      && (forall x :: x in after ==> x in users)
      && (Delete(users, id, currentUserId).1.status == 200 ==> forall x :: x in after ==> x.id != id)
  {
    var after := Delete(users, id, currentUserId).0;
    if id != currentUserId && FindByPk(users, id).Some? {
      var i := FindByPk(users, id).value;
      WithoutMembers(users, i);
      forall x | x in users && x.id != id
        ensures x in after
      {
        var j :| 0 <= j < |users| && users[j] == x;
        assert j != i;
      }
      forall x | x in after
        ensures x.id != id
      {
        var m :| 0 <= m < |after| && after[m] == x;
        var j := if m < i then m else m + 1;
        assert after[m] == users[j] && j != i;
      }
    }
  }

  class AdminStore {
    var users: seq<UserRow>
    var nextId: int

    ghost predicate Valid()
      reads this
    {
      IdsBelow(users, nextId)
    }

    constructor(us: seq<UserRow>, next: int)
      requires IdsBelow(us, next)
      ensures users == us && nextId == next && Valid()
    {
      users := us;
      nextId := next;
    }

    /**
     * `createUser`. The temporary password's hash and the reset token are
     * the random oracle's; `mailSent` is the outcome of the welcome mail,
     * which does not change the result.
     */
    method CreateUser(body: CreateBody, passwordHash: string, resetToken: string, now: int, mailSent: bool)
      returns (reply: Reply)
      requires Valid()
      modifies this
      ensures Valid()
      ensures (users, reply) == Create(old(users), old(nextId), body, passwordHash, resetToken, now)
      ensures nextId == if reply.status == 201 then old(nextId) + 1 else old(nextId)
    {
      if !Given(body.username) || !Given(body.email) {
        return Message(400, MissingFields);
      }
      if Taken(users, body.username.value, body.email.value) {
        return Message(400, AlreadyExists);
      }
      var u := NewUser(nextId, body.username.value, body.email.value, RoleOf(body), passwordHash, resetToken, now);
      users := users + [u];
      reply := Account(201, Created, nextId, u.username, u.email, u.role);
      nextId := nextId + 1;
    }

    /** `deleteUser`: `user.destroy()` on the row found by primary key. */
    method DeleteUser(id: int, currentUserId: int) returns (reply: Reply)
      requires Valid()
      modifies this
      ensures Valid() && nextId == old(nextId)
      ensures (users, reply) == Delete(old(users), id, currentUserId)
    {
      if id == currentUserId {
        return Message(400, NotYourself);
      }
      var at := FindByPk(users, id);
      if at.None? {
        return Message(404, NoSuchUser);
      }
      var before := users;
      users := Without(users, at.value);
      reply := Message(200, Deleted);
      forall i, j | 0 <= i < j < |users|
        ensures users[i].id != users[j].id
      {
        var bi := if i < at.value then i else i + 1;
        var bj := if j < at.value then j else j + 1;
        assert users[i] == before[bi] && users[j] == before[bj] && bi < bj;
      }
    }

    /** `updateUserRole`: `user.update({ role })` after the three checks. */
    method UpdateUserRole(id: int, currentUserId: int, role: Option<string>) returns (reply: Reply)
      requires Valid()
      modifies this
      ensures Valid() && nextId == old(nextId)
      ensures (users, reply) == UpdateRole(old(users), id, currentUserId, role)
    {
      if !ValidRole(role) {
        return Message(400, BadRole);
      }
      if id == currentUserId {
        return Message(400, NotYourRole);
      }
      var at := FindByPk(users, id);
      if at.None? {
        return Message(404, NoSuchUser);
      }
      var u := users[at.value];
      users := users[at.value := u.(role := role.value)];
      reply := Account(200, RoleChanged, id, u.username, u.email, role.value);
    }
  }
}
