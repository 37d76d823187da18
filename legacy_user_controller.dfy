/**
 * `update` of _controller/user.controller.js: a user edits the profile
 * fields of an account (an administrator any account, anyone else their
 * own). Only whitelisted fields are written, the password only as a hash.
 */
module LegacyUserController {
  import opened Wrappers
  import opened LegacyUsers

  /** The fields `update` may write, in the order it visits them. */
  const Whitelist: seq<string> := ["password", "contactInfo", "club", "phone", "getEmails", "showContact",
                                   "name", "whatsapp", "email", "showInfo", "showMail"]

  /** The request body: the fields it carries. */
  type Body = map<string, Value>

  /**
   * The `forEach` that builds `updateData`: every whitelisted field the
   * body carries, the password replaced by its hash.
   */
  method UpdateData(body: Body, hash: Value -> string) returns (data: Doc)
    ensures forall k :: k in data <==> k in Whitelist && k in body
    ensures "password" in data ==> data["password"] == Text(hash(body["password"]))
    ensures forall k :: k in data && k != "password" ==> data[k] == body[k]
  {
    data := map[];
    for i := 0 to |Whitelist|
      invariant forall k :: k in data <==> k in Whitelist[..i] && k in body
      invariant "password" in data ==> data["password"] == Text(hash(body["password"]))
      invariant forall k :: k in data && k != "password" ==> data[k] == body[k]
    {
      var field := Whitelist[i];
      assert Whitelist[..i + 1] == Whitelist[..i] + [field];
      if field in body {
        if field == "password" {
          data := data[field := Text(hash(body[field]))];
        } else {
          data := data[field := body[field]];
        }
      }
    }
    assert Whitelist[..|Whitelist|] == Whitelist;
  }

  /** The account `update` edits: the one named by `body.id` for an administrator, else the caller's own. */
  function Target(users: seq<User>, caller: User, body: Body): (r: Option<nat>)
    ensures "admin" !in caller.roles ==> r == FindById(users, caller.id)
    ensures "admin" in caller.roles && !("id" in body && body["id"].Text?) ==> r.None?
    ensures "admin" in caller.roles && "id" in body && body["id"].Text? ==> r == FindById(users, body["id"].s)
  {
    if "admin" in caller.roles then
      if "id" in body && body["id"].Text? then FindById(users, body["id"].s) else None
    else FindById(users, caller.id)
  }

  class UserStore {
    var users: seq<User>

    constructor(us: seq<User>)
      ensures users == us
    {
      users := us;
    }

    /**
     * `update` for the caller `userId`. `None` is the exception raised when
     * the caller's account is gone; otherwise the answer is 204, whether or
     * not an account was written.
     */
    method Update(userId: string, body: Body, hash: Value -> string) returns (status: Option<int>)
      modifies this
      ensures FindById(old(users), userId).None? <==> status.None?
      ensures status.Some? ==> status.value == 204
      ensures status.None? ==> users == old(users)
      ensures status.Some? ==>
        var t := Target(old(users), old(users)[FindById(old(users), userId).value], body);
        && |users| == |old(users)|
        && (t.None? ==> users == old(users))
        && (t.Some? ==>
              && (forall j :: 0 <= j < |users| && j != t.value ==> users[j] == old(users)[j])
              && users[t.value].id == old(users)[t.value].id && users[t.value].roles == old(users)[t.value].roles
              && (forall k :: k !in Whitelist || k !in body ==>
                    (k in users[t.value].doc <==> k in old(users)[t.value].doc)
                    && (k in old(users)[t.value].doc ==> users[t.value].doc[k] == old(users)[t.value].doc[k]))
              && (forall k :: k in Whitelist && k in body && k != "password" ==>
                    k in users[t.value].doc && users[t.value].doc[k] == body[k])
              && ("password" in body ==>
                    "password" in users[t.value].doc && users[t.value].doc["password"] == Text(hash(body["password"]))))
    {
      var at := FindById(users, userId);
      if at.None? {
        return None;
      }
      var t := Target(users, users[at.value], body);
      if t.Some? {
        var data := UpdateData(body, hash);
        users := users[t.value := Patch(users[t.value], data)];
      }
      return Some(204);
    }
  }
}
