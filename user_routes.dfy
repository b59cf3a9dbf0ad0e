/**
 * The user endpoints (backend/src/routes/userRoutes.js) as operations on the
 * user collection: list, create and delete.
 */
module UserRoutes {
  import opened Wrappers
  import opened UserModel

  /** A JSON reply: its status and, where it has one, its message. */
  datatype UserReply =
    | Listed(users: seq<User>)
    | Answer(status: int, message: string)

  /** True if some user in `users` has id `id`. */
  predicate HasId(users: seq<User>, id: string)
  {
    exists i :: 0 <= i < |users| && users[i].id == id
  }

  /** True if some user in `users` has the name `username`. */
  predicate HasUsername(users: seq<User>, username: string)
  {
    exists i :: 0 <= i < |users| && users[i].username == username
  }

  /** The users left after removing every one with id `id`, in their order. */
  function WithoutId(users: seq<User>, id: string): (r: seq<User>)
    ensures forall u :: u in r <==> u in users && u.id != id
    ensures |r| <= |users|
    ensures !HasId(users, id) ==> r == users
  {
    if users == [] then []
    else
      var rest := WithoutId(users[1..], id);
      assert !HasId(users, id) ==> !HasId(users[1..], id) by {
        if HasId(users[1..], id) {
          var i :| 0 <= i < |users[1..]| && users[1..][i].id == id;
          assert users[i + 1].id == id;
        }
      }
      if users[0].id == id then rest
      else
        assert users == [users[0]] + users[1..];
        [users[0]] + rest
  }

  /** Removing keeps usernames unique. */
  lemma {:induction false} WithoutIdUnique(users: seq<User>, id: string)
    requires UniqueUsernames(users)
    ensures UniqueUsernames(WithoutId(users, id))
  {
    if users != [] {
      var rest := WithoutId(users[1..], id);
      assert UniqueUsernames(users[1..]) by {
        forall i, j | 0 <= i < j < |users[1..]| ensures users[1..][i].username != users[1..][j].username {
          assert users[1..][i] == users[i + 1] && users[1..][j] == users[j + 1];
        }
      }
      WithoutIdUnique(users[1..], id);
      if users[0].id != id {
        forall j | 0 <= j < |rest| ensures users[0].username != rest[j].username {
          assert rest[j] in users[1..];
          var k :| 0 <= k < |users[1..]| && users[1..][k] == rest[j];
          assert users[k + 1] == rest[j];
        }
      }
    }
  }

  /** No two users share an `_id`. */
  predicate UniqueIds(users: seq<User>)
  {
    forall i, j :: 0 <= i < j < |users| ==> users[i].id != users[j].id
  }

  /** Removing keeps ids unique. */
  lemma {:induction false} WithoutIdUniqueIds(users: seq<User>, id: string)
    requires UniqueIds(users)
    ensures UniqueIds(WithoutId(users, id))
  {
    if users != [] {
      var rest := WithoutId(users[1..], id);
      assert UniqueIds(users[1..]) by {
        forall i, j | 0 <= i < j < |users[1..]| ensures users[1..][i].id != users[1..][j].id {
          assert users[1..][i] == users[i + 1] && users[1..][j] == users[j + 1];
        }
      }
      WithoutIdUniqueIds(users[1..], id);
      if users[0].id != id {
        forall j | 0 <= j < |rest| ensures users[0].id != rest[j].id {
          assert rest[j] in users[1..];
          var k :| 0 <= k < |users[1..]| && users[1..][k] == rest[j];
          assert users[k + 1] == rest[j];
        }
      }
    }
  }

  /**
   * With unique ids, removing a present id removes exactly one user, as
   * `findByIdAndDelete` removes one document.
   */
  lemma {:induction false} WithoutIdRemovesOne(users: seq<User>, id: string)
    requires UniqueIds(users) && HasId(users, id)
    ensures |WithoutId(users, id)| == |users| - 1
  {
    assert UniqueIds(users[1..]) by {
      forall i, j | 0 <= i < j < |users[1..]| ensures users[1..][i].id != users[1..][j].id {
        assert users[1..][i] == users[i + 1] && users[1..][j] == users[j + 1];
      }
    }
    if users[0].id == id {
      forall i | 0 <= i < |users[1..]| ensures users[1..][i].id != id {
        assert users[1..][i] == users[i + 1];
      }
    } else {
      var i :| 0 <= i < |users| && users[i].id == id;
      assert users[1..][i - 1].id == id;
      WithoutIdRemovesOne(users[1..], id);
    }
  }

  /** The user collection. */
  class UserTable {
    var users: seq<User>

    /** Every stored user passed the schema, and no two share a username or an `_id`. */
    ghost predicate Valid()
      reads this
    {
      (forall i :: 0 <= i < |users| ==> ValidUser(users[i]))
      && UniqueUsernames(users) && UniqueIds(users)
    }

    constructor ()
      ensures Valid() && users == []
    {
      users := [];
    }

    /** GET /: every user, unfiltered; a failed query replies 500. */
    method ListUsers(dbOk: bool) returns (reply: UserReply)
      ensures dbOk ==> reply == Listed(users)
      ensures !dbOk ==> reply == Answer(500, "Failed to fetch users")
    {
      if dbOk {
        reply := Listed(users);
      } else {
        reply := Answer(500, "Failed to fetch users");
      }
    }

    /**
     * POST /: username and password as given, role `role || "cashier"`. A
     * document the schema rejects, a username already taken or an `_id`
     * already in use leaves the collection as it was and replies 400.
     */
    method CreateUser(body: UserFields, newId: string, dbOk: bool) returns (reply: UserReply)
      requires Valid()
      modifies this
      ensures Valid()
      ensures var role := if body.role == Some("") then None else body.role;
        var made := NewUser(newId, body.(role := Some(role.GetOr("cashier"))));
        if dbOk && made.Success? && !HasUsername(old(users), made.value.username) && !HasId(old(users), newId) then
          reply == Answer(200, "User created") && users == old(users) + [made.value]
        else
          reply == Answer(400, "Failed to create user") && users == old(users)
    {
      var role := if body.role == Some("") then None else body.role;
      var made := NewUser(newId, body.(role := Some(role.GetOr("cashier"))));
      if dbOk && made.Success? && !HasUsername(users, made.value.username) && !HasId(users, newId) {
        forall i | 0 <= i < |users| ensures users[i].username != made.value.username {
        }
        forall i | 0 <= i < |users| ensures users[i].id != newId {
        }
        users := users + [made.value];
        reply := Answer(200, "User created");
      } else {
        reply := Answer(400, "Failed to create user");
      }
    }

    /**
     * DELETE /:id: removes the user with that id, if any, and replies
     * "User deleted" either way; a failed query replies 400.
     */
    method DeleteUser(id: string, dbOk: bool) returns (reply: UserReply)
      requires Valid()
      modifies this
      ensures Valid()
      ensures dbOk ==> reply == Answer(200, "User deleted") && users == WithoutId(old(users), id)
      ensures dbOk && HasId(old(users), id) ==> |users| == |old(users)| - 1
      ensures !dbOk ==> reply == Answer(400, "Failed to delete user") && users == old(users)
    {
      if dbOk {
        WithoutIdUnique(users, id);
        WithoutIdUniqueIds(users, id);
        if HasId(users, id) {
          WithoutIdRemovesOne(users, id);
        }
        users := WithoutId(users, id);
        reply := Answer(200, "User deleted");
      } else {
        reply := Answer(400, "Failed to delete user");
      }
    }
  }

  /** A create whose role is missing or empty stores a cashier. */
  method CreateCashier(t: UserTable, username: string, password: string, role: Option<string>, newId: string)
    returns (reply: UserReply)
    requires t.Valid() && role in {None, Some("")}
    requires username != "" && password != ""
    requires !HasUsername(t.users, username) && !HasId(t.users, newId)
    modifies t
    ensures reply == Answer(200, "User created")
    ensures t.users == old(t.users) + [User(newId, username, password, "cashier")]
  {
    reply := t.CreateUser(UserFields(Some(username), Some(password), role), newId, true);
  }

  /** Creating a user whose name is taken changes nothing, whatever else the body holds. */
  method CreateDuplicate(t: UserTable, body: UserFields, newId: string, dbOk: bool) returns (reply: UserReply)
    requires t.Valid() && body.username.Some? && HasUsername(t.users, body.username.value)
    modifies t
    ensures reply == Answer(400, "Failed to create user") && t.users == old(t.users)
  {
    reply := t.CreateUser(body, newId, dbOk);
  }
}
