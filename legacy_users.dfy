/**
 * The MongoDB user collection of the legacy API (_models/user.model.js) as
 * the legacy controllers and middleware see it: a list of documents in
 * natural order, each a map from field name to value, with its role names
 * already populated.
 */
module LegacyUsers {
  import opened Wrappers
  import opened Seqs

  /** The field values a user document holds. */
  datatype Value = Null | Flag(b: bool) | Text(s: string) | Texts(items: seq<string>) | Time(ms: int)

  type Doc = map<string, Value>

  datatype User = User(id: string, doc: Doc, roles: seq<string>)

  /** A string field, when it is set to a string. */
  function TextOf(u: User, key: string): (r: Option<string>)
    ensures r.Some? <==> key in u.doc && u.doc[key].Text?
    ensures r.Some? ==> u.doc[key] == Text(r.value)
  {
    if key in u.doc && u.doc[key].Text? then Some(u.doc[key].s) else None
  }

  function Email(u: User): Option<string> {
    TextOf(u, "email")
  }

  /** The `club` array; a document without one has none. */
  function Clubs(u: User): (r: seq<string>)
    ensures "club" in u.doc && u.doc["club"].Texts? ==> r == u.doc["club"].items
  {
    if "club" in u.doc && u.doc["club"].Texts? then u.doc["club"].items else []
  }

  /** A boolean field that is `true`. */
  predicate IsSet(u: User, key: string) {
    key in u.doc && u.doc[key] == Flag(true)
  }

  /** `User.findOne({email})`: the first document whose email is `email`. */
  function FindByEmail(users: seq<User>, email: string): (r: Option<nat>)
    ensures r.None? <==> forall i :: 0 <= i < |users| ==> Email(users[i]) != Some(email)
    ensures r.Some? ==> r.value < |users| && Email(users[r.value]) == Some(email)
  {
    FirstIndex(users, (u: User) => Email(u) == Some(email))
  }

  /** `User.findById(id)`. */
  function FindById(users: seq<User>, id: string): (r: Option<nat>)
    ensures r.None? <==> forall i :: 0 <= i < |users| ==> users[i].id != id
    ensures r.Some? ==> r.value < |users| && users[r.value].id == id
  {
    FirstIndex(users, (u: User) => u.id == id)
  }

  /** `updateOne(data)`: the fields of `data` are set, every other field is kept. */
  function Patch(u: User, data: Doc): (r: User)
    ensures r.id == u.id && r.roles == u.roles
    ensures forall k :: k in data ==> k in r.doc && r.doc[k] == data[k]
    ensures forall k :: k !in data ==> (k in r.doc <==> k in u.doc)
    ensures forall k :: k !in data && k in u.doc ==> r.doc[k] == u.doc[k]
  {
    u.(doc := u.doc + data)
  }
}
