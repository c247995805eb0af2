/** The staff login of middleware/auth.js: the stored password is checked
    with bcrypt when it looks like a bcrypt hash by a regular expression,
    and by plain equality otherwise, in which case a successful login
    replaces the plaintext with its hash. Rows are those of the same
    `users` table as in routes/authBranchRoutes.js. */
module AuthMiddleware {
  import opened Common
  import opened Js
  import Staff = AuthBranchRoutes

  /** `[./A-Za-z0-9]`. */
  predicate HashChar(c: char) {
    c == '.' || c == '/' || 'A' <= c <= 'Z' || 'a' <= c <= 'z' || '0' <= c <= '9'
  }

  /** The part of the pattern after `$2` and the optional variant letter,
      starting at index i: `\$\d{2}\$[./A-Za-z0-9]{53}` up to the end. */
  predicate CostAndDigest(s: string, i: nat) {
    && |s| == i + 57
    && s[i] == '$' && IsDigit(s[i + 1]) && IsDigit(s[i + 2]) && s[i + 3] == '$'
    && forall j :: i + 4 <= j < |s| ==> HashChar(s[j])
  }

  /** `/^\$2[abxy]?\$\d{2}\$[./A-Za-z0-9]{53}$/.test(s)`. */
  predicate LooksHashed(s: string) {
    && |s| >= 3 && s[0] == '$' && s[1] == '2'
    && (CostAndDigest(s, 2) || (s[2] in "abxy" && CostAndDigest(s, 3)))
  }

  /** A hash-like string has 59 characters, or 60 with a variant letter. */
  lemma HashLikeLength(s: string)
    requires LooksHashed(s)
    ensures |s| == 59 || |s| == 60
    ensures |s| == 60 <==> s[2] in "abxy"
  {
  }

  /** `$2x$10$` followed by 53 `a`s. */
  function VariantXHash(): string {
    "$2x$10$" + seq(53, _ => 'a')
  }

  /** The two hash detectors disagree both ways: the regular expression
      accepts the `$2x$` and letterless `$2$` forms that the prefix test of
      routes/authBranchRoutes.js rejects, and the prefix test accepts any
      string starting `$2a$`, such as `$2a$` itself, which the regular
      expression rejects. */
  lemma DetectorsDisagree()
    ensures LooksHashed(VariantXHash()) && !Staff.IsBcryptHash(JStr(VariantXHash()))
    ensures var noLetter := "$2$10$" + seq(53, _ => 'a');
      LooksHashed(noLetter) && !Staff.IsBcryptHash(JStr(noLetter))
    ensures Staff.IsBcryptHash(JStr("$2a$")) && !LooksHashed("$2a$")
  {
    var x := VariantXHash();
    assert x[2] == 'x' && x[3] == '$';
    assert x[..4] == "$2x$";
    var noLetter := "$2$10$" + seq(53, _ => 'a');
    assert noLetter[2] == '$';
    assert noLetter[..4] == "$2$1";
  }

  /** `SELECT ... WHERE username=$1 LIMIT 1`: no activity filter here. */
  function FirstNamed(users: seq<Staff.StaffUser>, name: string): (r: Option<nat>)
    ensures r.Some? ==> r.value < |users| && users[r.value].username == name
    ensures r.Some? ==> forall j :: 0 <= j < r.value ==> users[j].username != name
    ensures r.None? <==> forall j :: 0 <= j < |users| ==> users[j].username != name
  {
    if users == [] then None
    else if users[0].username == name then Some(0)
    else
      var rest := FirstNamed(users[1..], name);
      if rest.None? then None else Some(rest.value + 1)
  }

  /** `user.hashed_pw || ''`. */
  function StoredHash(u: Staff.StaffUser): string {
    if u.hashedPw.Some? then u.hashedPw.value else ""
  }

  datatype Decision =
    | Refused(reply: Staff.StaffReply)
    | ByHash(index: nat)        // bcrypt accepted the password
    | ByPlaintext(index: nat)   // equal to a stored plaintext: upgrade it

  /** The decision of `POST /login` before any write. */
  function Decide(users: seq<Staff.StaffUser>, body: Json, compare: (string, string) -> bool): (r: Decision)
    ensures r == Refused(Staff.MissingCredentials) <==> !Truthy(Get(body, "username")) || !Truthy(Get(body, "password"))
    ensures r.ByHash? || r.ByPlaintext? ==>
      && Truthy(Get(body, "username")) && Truthy(Get(body, "password"))
      && FirstNamed(users, ToStr(Get(body, "username"))) == Some(r.index)
    ensures r.ByHash? <==>
      && Truthy(Get(body, "username")) && Truthy(Get(body, "password"))
      && FirstNamed(users, ToStr(Get(body, "username"))).Some?
      && var u := users[FirstNamed(users, ToStr(Get(body, "username"))).value];
         LooksHashed(StoredHash(u)) && Get(body, "password").JStr? && compare(Get(body, "password").s, StoredHash(u))
    ensures r.ByPlaintext? <==>
      && Truthy(Get(body, "username")) && Truthy(Get(body, "password"))
      && FirstNamed(users, ToStr(Get(body, "username"))).Some?
      && var u := users[FirstNamed(users, ToStr(Get(body, "username"))).value];
         !LooksHashed(StoredHash(u)) && Get(body, "password") == JStr(StoredHash(u))
  {
    var username, password := Get(body, "username"), Get(body, "password");
    if !Truthy(username) || !Truthy(password) then Refused(Staff.MissingCredentials)
    else
      var k := FirstNamed(users, ToStr(username));
      if k.None? then Refused(Staff.InvalidCredentials)
      else
        var hash := StoredHash(users[k.value]);
        if LooksHashed(hash) then
          if !password.JStr? then Refused(Staff.ServerError)   // bcrypt.compare throws
          else if compare(password.s, hash) then ByHash(k.value)
          else Refused(Staff.InvalidCredentials)
        else if StrictEq(password, JStr(hash)) then ByPlaintext(k.value)
        else Refused(Staff.InvalidCredentials)
  }

  /** After the plaintext upgrade to a hash the regular expression
      recognises, the same password logs in again, now through bcrypt,
      provided bcrypt accepts a value against its own hash. */
  lemma UpgradeThenHashLogin(users: seq<Staff.StaffUser>, body: Json, compare: (string, string) -> bool,
                             hash: string -> string, now: int)
    requires Decide(users, body, compare).ByPlaintext?
    requires LooksHashed(hash(Get(body, "password").s))
    requires compare(Get(body, "password").s, hash(Get(body, "password").s))
    ensures var k := Decide(users, body, compare).index;
      var upgraded := Staff.WithLastLogin(Staff.WithPassword(users, users[k].id, hash(Get(body, "password").s)), users[k].id, now);
      Decide(upgraded, body, compare) == ByHash(k)
  {
    var k := Decide(users, body, compare).index;
    var h := hash(Get(body, "password").s);
    var upgraded := Staff.WithLastLogin(Staff.WithPassword(users, users[k].id, h), users[k].id, now);
    SameNames(users, upgraded);
    assert upgraded[k].hashedPw == Some(h);
  }

  /** The two updates keep every row's username. */
  lemma {:induction false} SameNames(users: seq<Staff.StaffUser>, other: seq<Staff.StaffUser>)
    requires |other| == |users|
    requires forall i :: 0 <= i < |users| ==> other[i].username == users[i].username
    ensures forall name :: FirstNamed(other, name) == FirstNamed(users, name)
  {
    if users != [] {
      SameNames(users[1..], other[1..]);
    }
  }

  class Accounts {
    var users: seq<Staff.StaffUser>

    constructor (users: seq<Staff.StaffUser>)
      ensures this.users == users
    {
      this.users := users;
    }

    /** `POST /login`. `hash` is `bcrypt.hash`. The file requires itself
        (middleware/auth.js:4) while it is still loading, so `sign` is
        undefined: an accepted login performs its writes and then throws at
        `sign(user)`, answering 500. No reply carries a token. */
    method Login(body: Json, compare: (string, string) -> bool, hash: string -> string, now: int)
      returns (reply: Staff.StaffReply)
      modifies this
      ensures reply == Staff.MissingCredentials || reply == Staff.InvalidCredentials || reply == Staff.ServerError
      ensures Decide(old(users), body, compare).Refused? ==>
        reply == Decide(old(users), body, compare).reply && users == old(users)
      ensures Decide(old(users), body, compare).ByHash? ==>
        var u := old(users)[Decide(old(users), body, compare).index];
        && reply == Staff.ServerError
        && users == Staff.WithLastLogin(old(users), u.id, now)
      ensures Decide(old(users), body, compare).ByPlaintext? ==>
        var u := old(users)[Decide(old(users), body, compare).index];
        && reply == Staff.ServerError
        && users == Staff.WithLastLogin(Staff.WithPassword(old(users), u.id, hash(StoredHash(u))), u.id, now)
    {
      var decision := Decide(users, body, compare);
      if decision.Refused? {
        return decision.reply;
      }
      var u := users[decision.index];
      if decision.ByPlaintext? {
        users := Staff.WithPassword(users, u.id, hash(StoredHash(u)));
      }
      users := Staff.WithLastLogin(users, u.id, now);
      reply := Staff.ServerError;   // `sign(user)` throws: `sign` is undefined
    }
  }
}
