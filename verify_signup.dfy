/**
 * The sign-up checks of _middleware/verifySignUp.js that run before the
 * legacy `signup`: the e-mail must be unused and every requested role must
 * be one of the roles of _init/roles.js.
 */
module VerifySignUp {
  import opened Wrappers
  import opened Seqs
  import opened LegacyUsers

  /** `ROLES` of _init/roles.js. */
  const KnownRoles: seq<string> := ["user", "vrsw", "admin"]

  const EmailInUse: string := "Failed! Email is already in use!"

  /** A middleware either passes the request on or answers it. */
  datatype Outcome = Next | Stop(status: int, message: string)

  function UnknownRoleMessage(role: string): string {
    "Failed! Role " + role + " does not exist!"
  }

  predicate Unknown(role: string) {
    role !in KnownRoles
  }

  /** What a rejection names: the role itself. */
  function Named(role: string): string {
    role
  }

  /** What `checkRolesExisted` answers for the request's `roles` (absent: `None`). */
  function RolesCheck(roles: Option<seq<string>>): Outcome {
    if roles.None? then Next
    else match FirstWhere(roles.value, Unknown, Named)
      case None => Next
      case Some(role) => Stop(400, UnknownRoleMessage(role))
  }

  /** `checkRolesExisted`: the indexed loop that stops at the first unknown role. */
  method CheckRolesExisted(roles: Option<seq<string>>) returns (r: Outcome)
    ensures r == RolesCheck(roles)
  {
    if roles.Some? {
      var rs := roles.value;
      var i := 0;
      while i < |rs|
        invariant 0 <= i <= |rs|
        invariant FirstWhere(rs, Unknown, Named) == FirstWhere(rs[i..], Unknown, Named)
      {
        if !(rs[i] in KnownRoles) {
          return Stop(400, UnknownRoleMessage(rs[i]));
        }
        assert rs[i..][1..] == rs[i + 1..];
        i := i + 1;
      }
    }
    return Next;
  }

  /** The request passes exactly when no roles are given or every role is known. */
  lemma RolesCheckPasses(roles: Option<seq<string>>)
    ensures RolesCheck(roles).Next? <==>
      roles.None? || forall i :: 0 <= i < |roles.value| ==> roles.value[i] in KnownRoles
  {
    if roles.Some? {
      FirstWhereNone(roles.value, Unknown, Named);
    }
  }

  /** A rejection is a 400 naming the first unknown role; the roles after it are not examined. */
  lemma RolesCheckNamesFirst(roles: Option<seq<string>>)
    requires RolesCheck(roles).Stop?
    ensures roles.Some?
    ensures exists i ::
      && 0 <= i < |roles.value|
      && FirstAt(roles.value, Unknown, i)
      && RolesCheck(roles) == Stop(400, UnknownRoleMessage(roles.value[i]))
  {
    FirstWhereSome(roles.value, Unknown, Named);
  }

  /** `checkDuplicateUsernameOrEmail`: stop with 400 when a user has exactly this e-mail. */
  function DuplicateCheck(users: seq<User>, email: string): (r: Outcome)
    ensures r.Stop? <==> exists i :: 0 <= i < |users| && Email(users[i]) == Some(email)
    ensures r.Stop? ==> r == Stop(400, EmailInUse)
  {
    if FindByEmail(users, email).Some? then Stop(400, EmailInUse) else Next
  }
}
