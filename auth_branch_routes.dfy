/** The branch-staff login and change-password routes
    (routes/authBranchRoutes.js). The `users` table is a sequence of rows in
    the order the database returns them; `bcrypt.compare` and `bcrypt.hash`
    are function parameters and the clock is a parameter. The module takes
    `sign` and `requireAuth` from middleware/auth.js, which exports only its
    router, so both are undefined: an accepted login throws at `sign(u)`
    after stamping last_login and answers 500. */
module AuthBranchRoutes {
  import opened Common
  import opened Js

  datatype StaffUser = StaffUser(
    id: int, username: string, hashedPw: Option<string>, isActive: Option<bool>,
    role: Json, branchId: Json, lastLogin: Option<int>)

  /** `isBcryptHash(s = '')`: a string with a `$2a$`, `$2b$` or `$2y$`
      prefix. */
  predicate IsBcryptHash(v: Json) {
    v.JStr? && (StartsWith(v.s, "$2a$") || StartsWith(v.s, "$2b$") || StartsWith(v.s, "$2y$"))
  }

  /** The prefix test looks at four characters only. */
  lemma BcryptPrefixOnly(v: Json)
    ensures IsBcryptHash(v) <==> v.JStr? && |v.s| >= 4 && v.s[..4] in {"$2a$", "$2b$", "$2y$"}
    ensures !v.JStr? ==> !IsBcryptHash(v)
  {
  }

  /** A stored column value as the JavaScript code sees it. */
  function Stored(pw: Option<string>): Json {
    if pw.Some? then JStr(pw.value) else JNull
  }

  /** The password check: bcrypt for a hash-like stored value, `===`
      otherwise. `None` means `bcrypt.compare` throws, which it does on a
      password that is not a string. */
  function PasswordCheck(password: Json, stored: Option<string>, compare: (string, string) -> bool): (r: Option<bool>)
    ensures r == Some(true) && Truthy(password) ==> password.JStr? && stored.Some?
    ensures !IsBcryptHash(Stored(stored)) ==> r == Some(password == Stored(stored))
    ensures IsBcryptHash(Stored(stored)) && password.JStr? ==> r == Some(compare(password.s, stored.value))
  {
    if IsBcryptHash(Stored(stored)) then
      if password.JStr? then Some(compare(password.s, stored.value)) else None
    else Some(StrictEq(password, Stored(stored)))
  }

  /** `WHERE username = $1 AND is_active IS NOT FALSE`, first row. */
  function FirstActive(users: seq<StaffUser>, name: string): (r: Option<nat>)
    ensures r.Some? ==> r.value < |users| && users[r.value].username == name && users[r.value].isActive != Some(false)
    ensures r.Some? ==> forall j :: 0 <= j < r.value ==> !(users[j].username == name && users[j].isActive != Some(false))
    ensures r.None? <==> forall j :: 0 <= j < |users| ==> !(users[j].username == name && users[j].isActive != Some(false))
  {
    if users == [] then None
    else if users[0].username == name && users[0].isActive != Some(false) then Some(0)
    else
      var rest := FirstActive(users[1..], name);
      if rest.None? then None else Some(rest.value + 1)
  }

  datatype StaffReply =
    | MissingCredentials     // 400
    | InvalidCredentials     // 401
    | NotFound               // 404
    | ServerError            // 500
    | PasswordChanged

  datatype LoginOutcome = Refused(reply: StaffReply) | Accepted(index: nat)

  /** The decision of `POST /login`, before any write. */
  function LoginDecision(users: seq<StaffUser>, body: Json, compare: (string, string) -> bool): (r: LoginOutcome)
    ensures r.Accepted? <==>
      && Truthy(Get(body, "username")) && Truthy(Get(body, "password"))
      && FirstActive(users, ToStr(Get(body, "username"))).Some?
      && PasswordCheck(Get(body, "password"),
                       users[FirstActive(users, ToStr(Get(body, "username"))).value].hashedPw, compare) == Some(true)
    ensures r.Accepted? ==> r.index == FirstActive(users, ToStr(Get(body, "username"))).value
    ensures r == Refused(MissingCredentials) <==> !Truthy(Get(body, "username")) || !Truthy(Get(body, "password"))
  {
    var username, password := Get(body, "username"), Get(body, "password");
    if !Truthy(username) || !Truthy(password) then Refused(MissingCredentials)
    else
      var k := FirstActive(users, ToStr(username));
      if k.None? then Refused(InvalidCredentials)
      else
        var ok := PasswordCheck(password, users[k.value].hashedPw, compare);
        if ok.None? then Refused(ServerError)
        else if !ok.value then Refused(InvalidCredentials)
        else Accepted(k.value)
  }

  /** `UPDATE users SET last_login = NOW() WHERE id = $1`. */
  function WithLastLogin(users: seq<StaffUser>, id: int, now: int): (r: seq<StaffUser>)
    ensures |r| == |users|
    ensures forall i :: 0 <= i < |users| ==>
      r[i] == if users[i].id == id then users[i].(lastLogin := Some(now)) else users[i]
  {
    seq(|users|, i requires 0 <= i < |users| =>
      if users[i].id == id then users[i].(lastLogin := Some(now)) else users[i])
  }

  /** `UPDATE users SET hashed_pw = $1 WHERE id = $2`. */
  function WithPassword(users: seq<StaffUser>, id: int, hashed: string): (r: seq<StaffUser>)
    ensures |r| == |users|
    ensures forall i :: 0 <= i < |users| ==>
      r[i] == if users[i].id == id then users[i].(hashedPw := Some(hashed)) else users[i]
  {
    seq(|users|, i requires 0 <= i < |users| =>
      if users[i].id == id then users[i].(hashedPw := Some(hashed)) else users[i])
  }

  /** `SELECT hashed_pw FROM users WHERE id = $1`, first row. */
  function FirstWithId(users: seq<StaffUser>, id: int): (r: Option<nat>)
    ensures r.Some? ==> r.value < |users| && users[r.value].id == id
    ensures r.None? <==> forall j :: 0 <= j < |users| ==> users[j].id != id
  {
    if users == [] then None
    else if users[0].id == id then Some(0)
    else
      var rest := FirstWithId(users[1..], id);
      if rest.None? then None else Some(rest.value + 1)
  }

  /** A password change keeps every row's username and activity, so the
      login lookup finds the same row. */
  lemma {:induction false} FirstActiveIgnoresPassword(users: seq<StaffUser>, id: int, hashed: string, name: string)
    ensures FirstActive(WithPassword(users, id, hashed), name) == FirstActive(users, name)
  {
    if users != [] {
      var w := WithPassword(users, id, hashed);
      assert w[1..] == WithPassword(users[1..], id, hashed);
      FirstActiveIgnoresPassword(users[1..], id, hashed, name);
    }
  }

  /** After a change to a bcrypt-style hash of the new password, the user
      logs in with it, provided bcrypt accepts a value against its own
      hash. */
  lemma NewPasswordLogsIn(users: seq<StaffUser>, id: int, name: string, newPassword: string,
                          hash: string -> string, compare: (string, string) -> bool)
    requires name != "" && newPassword != ""
    requires FirstActive(users, name).Some? && users[FirstActive(users, name).value].id == id
    requires IsBcryptHash(JStr(hash(newPassword))) && compare(newPassword, hash(newPassword))
    ensures var body := JObj(map["username" := JStr(name), "password" := JStr(newPassword)]);
      LoginDecision(WithPassword(users, id, hash(newPassword)), body, compare) == Accepted(FirstActive(users, name).value)
  {
    FirstActiveIgnoresPassword(users, id, hash(newPassword), name);
    var body := JObj(map["username" := JStr(name), "password" := JStr(newPassword)]);
    assert Get(body, "username") == JStr(name) && Get(body, "password") == JStr(newPassword);
  }

  class StaffDirectory {
    var users: seq<StaffUser>

    constructor (users: seq<StaffUser>)
      ensures this.users == users
    {
      this.users := users;
    }

    /** `POST /login`: an accepted login stamps last_login and then throws
        at the undefined `sign`, so it answers 500; a refused one writes
        nothing. No reply carries a token. */
    method Login(body: Json, compare: (string, string) -> bool, now: int)
      returns (reply: StaffReply)
      modifies this
      ensures reply == MissingCredentials || reply == InvalidCredentials || reply == ServerError
      ensures LoginDecision(old(users), body, compare).Refused? ==>
        reply == LoginDecision(old(users), body, compare).reply && users == old(users)
      ensures LoginDecision(old(users), body, compare).Accepted? ==>
        var u := old(users)[LoginDecision(old(users), body, compare).index];
        && reply == ServerError
        && users == WithLastLogin(old(users), u.id, now)
    {
      var decision := LoginDecision(users, body, compare);
      if decision.Refused? {
        return decision.reply;
      }
      var u := users[decision.index];
      users := WithLastLogin(users, u.id, now);
      reply := ServerError;   // `sign(u)` throws: `sign` is undefined
    }

    /** `POST /change-password` for the signed-in user `userId`. */
    method ChangePassword(userId: int, body: Json, compare: (string, string) -> bool, hash: string -> string)
      returns (reply: StaffReply)
      modifies this
      ensures !Truthy(Get(body, "old_password")) || !Truthy(Get(body, "new_password")) ==>
        reply == MissingCredentials && users == old(users)
      ensures reply == PasswordChanged <==>
        && Truthy(Get(body, "old_password")) && Truthy(Get(body, "new_password"))
        && FirstWithId(old(users), userId).Some?
        && PasswordCheck(Get(body, "old_password"), old(users)[FirstWithId(old(users), userId).value].hashedPw, compare)
           == Some(true)
        && Get(body, "new_password").JStr?
      ensures reply == PasswordChanged ==> users == WithPassword(old(users), userId, hash(Get(body, "new_password").s))
      ensures reply != PasswordChanged ==> users == old(users)
      ensures reply == NotFound <==>
        Truthy(Get(body, "old_password")) && Truthy(Get(body, "new_password")) && FirstWithId(old(users), userId).None?
    {
      var oldPassword, newPassword := Get(body, "old_password"), Get(body, "new_password");
      if !Truthy(oldPassword) || !Truthy(newPassword) {
        return MissingCredentials;
      }
      var k := FirstWithId(users, userId);
      if k.None? {
        return NotFound;
      }
      var ok := PasswordCheck(oldPassword, users[k.value].hashedPw, compare);
      if ok.None? {
        return ServerError;
      }
      if !ok.value {
        return InvalidCredentials;
      }
      if !newPassword.JStr? {
        return ServerError;   // bcrypt.hash throws on a non-string
      }
      users := WithPassword(users, userId, hash(newPassword.s));
      reply := PasswordChanged;
    }
  }
}
