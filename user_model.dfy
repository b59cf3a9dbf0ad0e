/**
 * The user schema (backend/src/models/User.js): a required unique username,
 * a required password kept as the plain string, and a role out of two.
 */
module UserModel {
  import opened Wrappers

  const Roles: seq<string> := ["admin", "cashier"]

  /** A stored user; `id` is the document's `_id`. */
  datatype User = User(id: string, username: string, password: string, role: string)

  /** A user document before validation: every field may be absent. */
  datatype UserFields = UserFields(username: Option<string>, password: Option<string>, role: Option<string>)

  /** What the schema guarantees of a stored user. */
  predicate ValidUser(u: User)
  {
    u.username != "" && u.password != "" && u.role in Roles
  }

  /** The unique index on `username`: no two users share one. */
  predicate UniqueUsernames(users: seq<User>)
  {
    forall i, j :: 0 <= i < j < |users| ==> users[i].username != users[j].username
  }

  /**
   * The schema paths whose validators reject `f`, after the role default.
   * A required string rejects an absent or empty value.
   */
  function UserFailingPaths(f: UserFields): set<string>
  {
    (if f.username.None? || f.username.value == "" then {"username"} else {})
    + (if f.password.None? || f.password.value == "" then {"password"} else {})
    + (if f.role.GetOr("cashier") !in Roles then {"role"} else {})
  }

  /**
   * Validates `f` and applies the role default, producing the user stored
   * under `id`, or the failing paths. The password is stored as given.
   */
  function NewUser(id: string, f: UserFields): (r: Result<User, set<string>>)
    ensures r.Success? <==>
      f.username.Some? && f.username.value != "" && f.password.Some? && f.password.value != ""
      && (f.role.None? || f.role.value in Roles)
    ensures r.Success? ==>
      ValidUser(r.value) && r.value.id == id
      && r.value.username == f.username.value && r.value.password == f.password.value
    ensures r.Success? ==> r.value.role == if f.role.None? then "cashier" else f.role.value
    ensures r.Failure? ==> r.error != {} && r.error <= {"username", "password", "role"}
    ensures r.Failure? ==>
      ("username" in r.error <==> f.username.None? || f.username.value == "")
      && ("password" in r.error <==> f.password.None? || f.password.value == "")
      && ("role" in r.error <==> f.role.Some? && f.role.value !in Roles)
  {
    var paths := UserFailingPaths(f);
    if paths == {} then
      Success(User(id, f.username.value, f.password.value, f.role.GetOr("cashier")))
    else
      Failure(paths)
  }

  /** Any role other than the two is refused, and only the role is blamed when the rest is fine. */
  lemma UnknownRoleRefused(id: string, username: string, password: string, role: string)
    requires username != "" && password != "" && role !in Roles
    ensures NewUser(id, UserFields(Some(username), Some(password), Some(role))) == Failure({"role"})
  {
    assert UserFailingPaths(UserFields(Some(username), Some(password), Some(role))) == {"role"};
  }
}
