/**
 * The login decision (backend/src/controllers/authController.js): look the
 * username up, compare the password as a plain string, and on success sign a
 * token carrying the user's id, name and role. Signing is a parameter.
 */
module AuthController {
  import opened Wrappers
  import opened UserModel
  import opened UserRoutes

  const TokenLifetime: string := "8h"

  /** What the token carries, and what the reply shows of the user: never the password. */
  datatype Claims = Claims(id: string, username: string, role: string)

  datatype LoginReply =
    | LoggedIn(message: string, token: string, user: Claims, expiresIn: string)
    | Refused(status: int, message: string)

  /** `findOne({ username })`: the first user with that name. */
  function FindByUsername(users: seq<User>, username: string): (r: Option<User>)
    ensures r.Some? <==> HasUsername(users, username)
    ensures r.Some? ==> r.value in users && r.value.username == username
  {
    if users == [] then None
    else if users[0].username == username then Some(users[0])
    else
      var r := FindByUsername(users[1..], username);
      assert HasUsername(users, username) <==> HasUsername(users[1..], username) by {
        if HasUsername(users, username) {
          var i :| 0 <= i < |users| && users[i].username == username;
          assert users[1..][i - 1] == users[i];
        }
        if HasUsername(users[1..], username) {
          var i :| 0 <= i < |users[1..]| && users[1..][i].username == username;
          assert users[i + 1] == users[1..][i];
        }
      }
      r
  }

  /** With unique names the lookup finds the one user of that name. */
  lemma {:induction false} FindUnique(users: seq<User>, i: int)
    requires UniqueUsernames(users) && 0 <= i < |users|
    ensures FindByUsername(users, users[i].username) == Some(users[i])
  {
    if i > 0 {
      assert users[0].username != users[i].username;
      assert UniqueUsernames(users[1..]) by {
        forall a, b | 0 <= a < b < |users[1..]| ensures users[1..][a].username != users[1..][b].username {
          assert users[1..][a] == users[a + 1] && users[1..][b] == users[b + 1];
        }
      }
      assert users[1..][i - 1] == users[i];
      FindUnique(users[1..], i - 1);
    }
  }

  /**
   * `login`. A failed lookup replies 500 with the error's message; an
   * unknown name or a wrong password replies 400 with one message for both;
   * a failed signing replies 500 with its message; otherwise the token and
   * the user's public fields.
   */
  function Login(users: seq<User>, username: string, password: string,
                 dbError: Option<string>, sign: (Claims, string) -> Result<string, string>): (r: LoginReply)
    ensures dbError.Some? ==> r == Refused(500, dbError.value)
    ensures dbError.None? && (!HasUsername(users, username)
                              || FindByUsername(users, username).value.password != password)
            ==> r == Refused(400, "Invalid username or password")
    ensures r.LoggedIn? ==>
      var u := FindByUsername(users, username).value;
      u.password == password && r.message == "Login successful"
      && r.user == Claims(u.id, u.username, u.role) && r.expiresIn == TokenLifetime
      && sign(r.user, TokenLifetime) == Success(r.token)
    ensures r.Refused? && r.status == 500 && dbError.None? ==>
      sign(Claims(FindByUsername(users, username).value.id, username, FindByUsername(users, username).value.role),
           TokenLifetime) == Failure(r.message)
    ensures dbError.None? && HasUsername(users, username)
            && FindByUsername(users, username).value.password == password ==>
      var u := FindByUsername(users, username).value;
      var c := Claims(u.id, u.username, u.role);
      (sign(c, TokenLifetime).Success? ==>
         r == LoggedIn("Login successful", sign(c, TokenLifetime).value, c, TokenLifetime))
      && (sign(c, TokenLifetime).Failure? ==> r == Refused(500, sign(c, TokenLifetime).error))
  {
    if dbError.Some? then Refused(500, dbError.value)
    else
      match FindByUsername(users, username)
      case None => Refused(400, "Invalid username or password")
      case Some(u) =>
        if password != u.password then Refused(400, "Invalid username or password")
        else
          var claims := Claims(u.id, u.username, u.role);
          match sign(claims, TokenLifetime)
          case Failure(e) => Refused(500, e)
          case Success(token) => LoggedIn("Login successful", token, claims, TokenLifetime)
  }

  /**
   * Over a table with unique names, and with the store and the signer
   * working: login succeeds exactly when some user has both the name and the
   * password, and then the reply is about that user.
   */
  lemma LoginSucceedsIff(users: seq<User>, username: string, password: string,
                         sign: (Claims, string) -> Result<string, string>)
    requires UniqueUsernames(users)
    requires forall c: Claims :: sign(c, TokenLifetime).Success?
    ensures Login(users, username, password, None, sign).LoggedIn? <==>
            exists i :: 0 <= i < |users| && users[i].username == username && users[i].password == password
    ensures forall i :: 0 <= i < |users| && users[i].username == username && users[i].password == password ==>
            Login(users, username, password, None, sign).user == Claims(users[i].id, username, users[i].role)
  {
    forall i | 0 <= i < |users| && users[i].username == username
      ensures FindByUsername(users, username) == Some(users[i])
    {
      FindUnique(users, i);
    }
    if Login(users, username, password, None, sign).LoggedIn? {
      var u := FindByUsername(users, username).value;
      var i :| 0 <= i < |users| && users[i] == u;
    }
  }

  /** An unknown name and a wrong password get the identical reply. */
  lemma FailuresIndistinguishable(users: seq<User>, unknown: string, known: string, wrong: string,
                                  password: string, sign: (Claims, string) -> Result<string, string>)
    requires !HasUsername(users, unknown)
    requires HasUsername(users, known) && FindByUsername(users, known).value.password != wrong
    ensures Login(users, unknown, password, None, sign) == Login(users, known, wrong, None, sign)
  {
  }

  /** A user just created through the user endpoint can log in with the same name and password. */
  method CreateThenLogin(t: UserTable, username: string, password: string, role: Option<string>, newId: string,
                         dbOk: bool, sign: (Claims, string) -> Result<string, string>)
    returns (created: UserReply, login: LoginReply)
    requires t.Valid()
    requires forall c: Claims :: sign(c, TokenLifetime).Success?
    modifies t
    ensures created == Answer(200, "User created") ==>
      login.LoggedIn? && login.user.id == newId && login.user.username == username
    ensures created != Answer(200, "User created") ==> t.users == old(t.users)
  {
    created := t.CreateUser(UserFields(Some(username), Some(password), role), newId, dbOk);
    login := Login(t.users, username, password, None, sign);
    if created == Answer(200, "User created") {
      var i := |t.users| - 1;
      assert t.users[i].username == username && t.users[i].password == password && t.users[i].id == newId;
      FindUnique(t.users, i);
    }
  }
}
