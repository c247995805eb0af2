/** The file-backed user API (api/signup.js and api/login.js): users live
    in `data/users.json`, a JSON array that is read whole, extended with
    `push` and written back whole. The file is `None` while it does not
    exist, which both handlers treat as an empty list. `new Date()` is the
    parameter `now`. */
module JsonUserApi {
  import opened Common
  import opened Js

  /** A user as signup writes it. Fields the request did not carry are
      `JUndef`, which is also what reading them back from the file gives. */
  datatype UserRecord = UserRecord(
    id: int, name: Json, email: Json, password: Json, kind: string, createdAt: int, updatedAt: int)

  datatype Reply =
    | MethodNotAllowed      // 405
    | ServerError           // 500: destructuring a null or undefined body throws
    | AlreadyExists         // 400 'User already exists'
    | InvalidCredentials    // 401
    | Created(user: UserRecord)
    | Profile(name: Json, email: Json, kind: string, profilePic: string)

  const ProfilePic: string := "/images/profile-picture.webp"

  /** The array the handlers work on: `[]` when the file is missing. */
  function Users(file: Option<seq<UserRecord>>): (r: seq<UserRecord>)
    ensures file.None? ==> r == []
    ensures file.Some? ==> r == file.value
  {
    if file.Some? then file.value else []
  }

  /** `users.find(u => u.email === email)`, as an index. */
  function FindEmail(users: seq<UserRecord>, email: Json): (r: Option<nat>)
    ensures r.Some? ==> r.value < |users| && StrictEq(users[r.value].email, email)
    ensures r.None? <==> forall j :: 0 <= j < |users| ==> !StrictEq(users[j].email, email)
  {
    if users == [] then None
    else if StrictEq(users[0].email, email) then Some(0)
    else
      var rest := FindEmail(users[1..], email);
      if rest.None? then None else Some(rest.value + 1)
  }

  /** Both credentials match with `===`. */
  predicate Matches(u: UserRecord, email: Json, password: Json) {
    StrictEq(u.email, email) && StrictEq(u.password, password)
  }

  /** `users.find(u => u.email === email && u.password === password)`, as an
      index: the first matching user. */
  function FindLogin(users: seq<UserRecord>, email: Json, password: Json): (r: Option<nat>)
    ensures r.Some? ==> r.value < |users| && Matches(users[r.value], email, password)
    ensures r.Some? ==> forall j :: 0 <= j < r.value ==> !Matches(users[j], email, password)
    ensures r.None? <==> forall j :: 0 <= j < |users| ==> !Matches(users[j], email, password)
  {
    if users == [] then None
    else if Matches(users[0], email, password) then Some(0)
    else
      var rest := FindLogin(users[1..], email, password);
      if rest.None? then None else Some(rest.value + 1)
  }

  /** `POST /api/login`: a read of the file; the reply carries no password. */
  function Login(file: Option<seq<UserRecord>>, verb: string, body: Json): (r: Reply)
    ensures verb != "POST" <==> r == MethodNotAllowed
    ensures verb == "POST" && Nullish(body) <==> r == ServerError
    ensures r.Profile? <==>
      verb == "POST" && !Nullish(body)
      && exists j :: 0 <= j < |Users(file)| && Matches(Users(file)[j], Get(body, "email"), Get(body, "password"))
    ensures r.Profile? ==>
      var u := Users(file)[FindLogin(Users(file), Get(body, "email"), Get(body, "password")).value];
      r == Profile(u.name, u.email, u.kind, ProfilePic)
    ensures r.MethodNotAllowed? || r.ServerError? || r.InvalidCredentials? || r.Profile?
  {
    if verb != "POST" then MethodNotAllowed
    else if Nullish(body) then ServerError
    else
      var users := Users(file);
      var k := FindLogin(users, Get(body, "email"), Get(body, "password"));
      if k.None? then InvalidCredentials
      else
        var u := users[k.value];
        Profile(u.name, u.email, u.kind, ProfilePic)
  }

  /** The record signup appends: the next id, type `B2C`, both timestamps
      `now`. */
  function NewUser(users: seq<UserRecord>, body: Json, now: int): (u: UserRecord)
    ensures u.id == |users| + 1 && u.kind == "B2C"
    ensures u.email == Get(body, "email") && u.password == Get(body, "password") && u.name == Get(body, "name")
  {
    UserRecord(|users| + 1, Get(body, "name"), Get(body, "email"), Get(body, "password"), "B2C", now, now)
  }

  /** No two users share an email under `===`. */
  predicate UniqueEmails(users: seq<UserRecord>) {
    forall i, j :: 0 <= i < j < |users| ==> !StrictEq(users[i].email, users[j].email)
  }

  /** The ids are 1, 2, ..., n in file order. */
  predicate SequentialIds(users: seq<UserRecord>) {
    forall i :: 0 <= i < |users| ==> users[i].id == i + 1
  }

  /** A value equal to itself under `===`: anything but NaN, an array or an
      object. */
  predicate SelfEqual(v: Json) {
    !v.JNaN? && !v.JArr? && !v.JObj?
  }

  /** An accepted signup keeps emails unique. */
  lemma SignupKeepsUnique(users: seq<UserRecord>, body: Json, now: int)
    requires UniqueEmails(users)
    requires FindEmail(users, Get(body, "email")).None?
    ensures UniqueEmails(users + [NewUser(users, body, now)])
  {
    var all := users + [NewUser(users, body, now)];
    forall i, j | 0 <= i < j < |all|
      ensures !StrictEq(all[i].email, all[j].email)
    {
      if j == |users| {
        assert !StrictEq(users[i].email, Get(body, "email"));
      }
    }
  }

  /** Ids 1..n become 1..n+1. */
  lemma SignupKeepsIds(users: seq<UserRecord>, body: Json, now: int)
    requires SequentialIds(users)
    ensures SequentialIds(users + [NewUser(users, body, now)])
  {
  }

  /** After a signup with primitive credentials the same credentials log in
      as the new user, whose profile says `B2C`. */
  lemma SignupThenLogin(users: seq<UserRecord>, body: Json, now: int)
    requires !Nullish(body)
    requires FindEmail(users, Get(body, "email")).None?
    requires SelfEqual(Get(body, "email")) && SelfEqual(Get(body, "password"))
    ensures Login(Some(users + [NewUser(users, body, now)]), "POST", body)
      == Profile(Get(body, "name"), Get(body, "email"), "B2C", ProfilePic)
  {
    var u := NewUser(users, body, now);
    var all := users + [u];
    assert Matches(all[|users|], Get(body, "email"), Get(body, "password"));
    assert forall j :: 0 <= j < |users| ==> !Matches(all[j], Get(body, "email"), Get(body, "password"));
  }

  /** A user who signed up without a password is let in by any body that
      carries the email and no password: both sides are `undefined`. */
  lemma NoPasswordLogsIn(users: seq<UserRecord>, k: nat, email: string)
    requires k < |users| && users[k].email == JStr(email) && users[k].password == JUndef
    ensures Login(Some(users), "POST", JObj(map["email" := JStr(email)])).Profile?
  {
    var body := JObj(map["email" := JStr(email)]);
    assert Get(body, "password") == JUndef;
    assert Matches(users[k], Get(body, "email"), Get(body, "password"));
  }

  /** Without a users file nobody logs in. */
  lemma NoFileNoLogin(body: Json)
    requires !Nullish(body)
    ensures Login(None, "POST", body) == InvalidCredentials
  {
  }

  class UserFile {
    var file: Option<seq<UserRecord>>

    constructor (file: Option<seq<UserRecord>>)
      ensures this.file == file
    {
      this.file := file;
    }

    /** `POST /api/signup`: the new user is pushed onto the array and the
        array written back; the reply echoes the stored record. */
    method Signup(verb: string, body: Json, now: int) returns (reply: Reply)
      modifies this
      ensures verb != "POST" ==> reply == MethodNotAllowed && file == old(file)
      ensures verb == "POST" && Nullish(body) ==> reply == ServerError && file == old(file)
      ensures verb == "POST" && !Nullish(body) && FindEmail(Users(old(file)), Get(body, "email")).Some? ==>
        reply == AlreadyExists && file == old(file)
      ensures verb == "POST" && !Nullish(body) && FindEmail(Users(old(file)), Get(body, "email")).None? ==>
        && reply == Created(NewUser(Users(old(file)), body, now))
        && file == Some(Users(old(file)) + [reply.user])
      ensures reply.Created? || file == old(file)
    {
      if verb != "POST" {
        return MethodNotAllowed;
      }
      if Nullish(body) {
        return ServerError;
      }
      var users := Users(file);
      var existing := FindEmail(users, Get(body, "email"));
      if existing.Some? {
        return AlreadyExists;
      }
      var user := NewUser(users, body, now);
      users := users + [user];
      file := Some(users);
      reply := Created(user);
    }
  }
}
