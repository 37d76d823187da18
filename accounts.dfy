/**
 * The `users` table the administration and account endpoints of
 * src/controllers share, with the lookups their `findOne` and `findByPk`
 * calls make. The table is the list of rows in natural order; `findOne`
 * returns the first row that satisfies its condition.
 */
module Accounts {
  import opened Wrappers
  import opened Seqs

  /**
   * A row of `users`, with the columns the controllers read and write.
   * Times are milliseconds since the epoch; `resetToken` and
   * `resetTokenExpiry` are null between resets.
   */
  datatype UserRow = UserRow(
    id: int, username: string, email: string, password: string, role: string, name: Option<string>,
    isActive: bool, mustChangePassword: bool,
    resetToken: Option<string>, resetTokenExpiry: Option<int>, lastLogin: Option<int>)

  /** A request value that JavaScript treats as true: present and not empty. */
  predicate Given(o: Option<string>) {
    o.Some? && o.value != ""
  }

  /** `findByPk(id)`. */
  function FindByPk(users: seq<UserRow>, id: int): (r: Option<nat>)
    ensures r.None? <==> forall i :: 0 <= i < |users| ==> users[i].id != id
    ensures r.Some? ==> r.value < |users| && users[r.value].id == id
  {
    FirstIndex(users, (u: UserRow) => u.id == id)
  }

  /** Every id is below the next one the table hands out, and no two rows share one. */
  ghost predicate IdsBelow(users: seq<UserRow>, nextId: int) {
    && (forall i :: 0 <= i < |users| ==> users[i].id < nextId)
    && (forall i, j :: 0 <= i < j < |users| ==> users[i].id != users[j].id)
  }

  /** `resetToken: token, resetTokenExpiry > now, isActive: true`. */
  predicate HoldsToken(u: UserRow, token: string, now: int) {
    u.resetToken == Some(token) && u.resetTokenExpiry.Some? && u.resetTokenExpiry.value > now && u.isActive
  }

  /** The account a reset token currently opens. */
  function FindByToken(users: seq<UserRow>, token: string, now: int): (r: Option<nat>)
    ensures r.None? <==> forall i :: 0 <= i < |users| ==> !HoldsToken(users[i], token, now)
    ensures r.Some? ==> r.value < |users| && HoldsToken(users[r.value], token, now)
  {
    FirstIndex(users, (u: UserRow) => HoldsToken(u, token, now))
  }
}
