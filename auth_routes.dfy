/** The customer login and password-reset routes (routes/authRoutes.js).
    `userstaras` is a map from email to user row and
    `password_reset_tokens` a map from email to token row, so there is at
    most one token per email, as the table's primary key demands. bcrypt is
    a pair of function parameters, `Math.random()` and `Date.now()` are
    parameters, and the e-mail send is an outcome flag. */
module AuthRoutes {
  import opened Common
  import opened Js

  datatype User = User(id: int, name: Json, email: string, password: Option<string>, kind: Json)

  datatype Token = Token(otpHash: string, expiresAt: int)

  datatype AuthReply =
    | MissingFields        // 400
    | InvalidCredentials   // 401
    | UnknownUser          // 404 "You are a new user. Please register"
    | InvalidOrExpired     // 400, no token for the email
    | OtpExpired           // 400
    | InvalidOtp           // 400
    | ServerError          // 500
    | LoggedIn(id: int, name: Json, email: string, kind: Json)
    | OtpSent
    | OtpVerified
    | PasswordUpdated

  /** The OTP lifetime: ten minutes in milliseconds. */
  const OtpLifetimeMs: int := 10 * 60 * 1000

  /** The text a body field becomes as a query parameter. */
  function Key(v: Json): string {
    ToStr(v)
  }

  // ---------------------------------------------------------------------
  // Login
  // ---------------------------------------------------------------------

  /** `POST /login`: plaintext comparison with `===`; the reply carries no
      password. */
  function Login(users: map<string, User>, body: Json): (r: AuthReply)
    ensures !Truthy(Get(body, "email")) || !Truthy(Get(body, "password")) <==> r == MissingFields
    ensures r.LoggedIn? <==>
      && r != MissingFields
      && Key(Get(body, "email")) in users
      && users[Key(Get(body, "email"))].password.Some?
      && Get(body, "password") == JStr(users[Key(Get(body, "email"))].password.value)
    ensures r.LoggedIn? ==>
      var u := users[Key(Get(body, "email"))];
      r == LoggedIn(u.id, u.name, u.email, Or(u.kind, JStr("customer")))
    ensures r == MissingFields || r == InvalidCredentials || r.LoggedIn?
  {
    var email, password := Get(body, "email"), Get(body, "password");
    if !Truthy(email) || !Truthy(password) then MissingFields
    else if Key(email) !in users then InvalidCredentials
    else
      var u := users[Key(email)];
      var stored := if u.password.Some? then JStr(u.password.value) else JNull;
      if !StrictEq(password, stored) then InvalidCredentials
      else LoggedIn(u.id, u.name, u.email, Or(u.kind, JStr("customer")))
  }

  // ---------------------------------------------------------------------
  // One-time passwords
  // ---------------------------------------------------------------------

  /** `Math.floor(100000 + random * 900000)`. */
  function OtpValue(random: real): int {
    (100000.0 + random * 900000.0).Floor
  }

  /** With `Math.random()` in [0, 1) the OTP is a six-digit number. */
  lemma OtpInRange(random: real)
    requires 0.0 <= random < 1.0
    ensures 100000 <= OtpValue(random) <= 999999
    ensures |NatToString(OtpValue(random))| == 6
  {
    var x := 100000.0 + random * 900000.0;
    assert 100000.0 <= x < 1000000.0;
    assert Pow10(5) == 100000;
    DigitCount(OtpValue(random), 5);
  }

  function Pow10(k: nat): nat {
    if k == 0 then 1 else 10 * Pow10(k - 1)
  }

  /** A number between 10^k and 10^(k+1) is written with k+1 digits. */
  lemma {:induction false} DigitCount(n: nat, k: nat)
    requires Pow10(k) <= n < 10 * Pow10(k)
    ensures |NatToString(n)| == k + 1
  {
    if k > 0 {
      var q := n / 10;
      assert 10 * q <= n < 10 * q + 10;
      assert Pow10(k - 1) <= q < 10 * Pow10(k - 1);
      DigitCount(q, k - 1);
    }
  }

  /** The token check shared by verify and reset: `None` when the OTP is
      accepted, else the refusal. `compare` is `bcrypt.compare`, which
      throws on a non-string OTP. */
  function CheckOtp(tokens: map<string, Token>, email: string, otp: Json, now: int,
                    compare: (string, string) -> bool): (r: Option<AuthReply>)
    ensures r.None? <==>
      email in tokens && !(tokens[email].expiresAt < now) && otp.JStr? && compare(otp.s, tokens[email].otpHash)
    ensures email !in tokens ==> r == Some(InvalidOrExpired)
    ensures email in tokens && tokens[email].expiresAt < now ==> r == Some(OtpExpired)
  {
    if email !in tokens then Some(InvalidOrExpired)
    else
      var row := tokens[email];
      if row.expiresAt < now then Some(OtpExpired)
      else if !otp.JStr? then Some(ServerError)
      else if !compare(otp.s, row.otpHash) then Some(InvalidOtp)
      else None
  }

  /** `POST /forgot/verify`: a read; the token stays in place. */
  function Verify(tokens: map<string, Token>, body: Json, now: int,
                  compare: (string, string) -> bool): (r: AuthReply)
    ensures !Truthy(Get(body, "email")) || !Truthy(Get(body, "otp")) ==> r == MissingFields
    ensures r == OtpVerified <==>
      Truthy(Get(body, "email")) && Truthy(Get(body, "otp"))
      && CheckOtp(tokens, Key(Get(body, "email")), Get(body, "otp"), now, compare).None?
  {
    var email, otp := Get(body, "email"), Get(body, "otp");
    if !Truthy(email) || !Truthy(otp) then MissingFields
    else
      var check := CheckOtp(tokens, Key(email), otp, now, compare);
      if check.Some? then check.value else OtpVerified
  }

  /** The request body `{ email, otp }`. */
  function OtpBody(email: string, otp: string): Json {
    JObj(map["email" := JStr(email), "otp" := JStr(otp)])
  }

  /** A fresh OTP verifies until its expiry, that instant included,
      provided bcrypt accepts a value against its own hash. */
  lemma StartThenVerify(tokens: map<string, Token>, email: string, otp: string, now: int, later: int,
                        hash: string -> string, compare: (string, string) -> bool)
    requires email != "" && otp != ""
    requires compare(otp, hash(otp))
    requires later <= now + OtpLifetimeMs
    ensures Verify(tokens[email := Token(hash(otp), now + OtpLifetimeMs)], OtpBody(email, otp), later, compare)
      == OtpVerified
  {
    var body := OtpBody(email, otp);
    assert Get(body, "email") == JStr(email) && Get(body, "otp") == JStr(otp);
  }

  /** Expiry is strict: one millisecond after `expires_at` the OTP is
      refused as expired, whatever it is. */
  lemma ExpiredAfterDeadline(tokens: map<string, Token>, email: string, otp: string, compare: (string, string) -> bool)
    requires email != "" && otp != "" && email in tokens
    ensures Verify(tokens, OtpBody(email, otp), tokens[email].expiresAt + 1, compare) == OtpExpired
  {
    var body := OtpBody(email, otp);
    assert Get(body, "email") == JStr(email) && Get(body, "otp") == JStr(otp);
  }

  /** Without a token nothing verifies. */
  lemma NoTokenNoVerify(tokens: map<string, Token>, body: Json, now: int, compare: (string, string) -> bool)
    requires Key(Get(body, "email")) !in tokens
    ensures Verify(tokens, body, now, compare) != OtpVerified
  {
  }

  class AuthStore {
    var users: map<string, User>
    var tokens: map<string, Token>

    constructor (users: map<string, User>, tokens: map<string, Token>)
      ensures this.users == users && this.tokens == tokens
    {
      this.users := users;
      this.tokens := tokens;
    }

    /** `POST /forgot/start`: any earlier token of the email is replaced by
        one for a new OTP expiring ten minutes from `now`. `random` is the
        `Math.random()` draw, `hash` is `bcrypt.hash` and `mailSent` says
        whether the mail went out; the token is written before the mail is
        sent and stays when sending fails. */
    method Start(body: Json, random: real, now: int, hash: string -> string, mailSent: bool)
      returns (reply: AuthReply, otp: string)
      requires 0.0 <= random < 1.0
      modifies this`tokens
      ensures !Truthy(Get(body, "email")) ==> reply == MissingFields && tokens == old(tokens)
      ensures Truthy(Get(body, "email")) && Key(Get(body, "email")) !in users ==>
        reply == UnknownUser && tokens == old(tokens)
      ensures Truthy(Get(body, "email")) && Key(Get(body, "email")) in users ==>
        && |otp| == 6 && AllDigits(otp) && otp[0] != '0'
        && tokens == old(tokens)[Key(Get(body, "email")) := Token(hash(otp), now + OtpLifetimeMs)]
        && reply == (if mailSent then OtpSent else ServerError)
    {
      otp := "";
      var email := Get(body, "email");
      if !Truthy(email) {
        return MissingFields, otp;
      }
      if Key(email) !in users {
        return UnknownUser, otp;
      }
      OtpInRange(random);
      otp := NatToString(OtpValue(random));
      var otpHash := hash(otp);
      var expiresAt := now + OtpLifetimeMs;
      tokens := map k | k in tokens && k != Key(email) :: tokens[k];   // DELETE
      tokens := tokens[Key(email) := Token(otpHash, expiresAt)];        // INSERT
      reply := if mailSent then OtpSent else ServerError;
    }

    /** `POST /forgot/reset`: after the same checks as verify, the password
        is set and the token deleted, so the OTP cannot be used again. */
    method Reset(body: Json, now: int, compare: (string, string) -> bool) returns (reply: AuthReply)
      modifies this
      ensures var email := Key(Get(body, "email"));
        && (!Truthy(Get(body, "email")) || !Truthy(Get(body, "otp")) || !Truthy(Get(body, "newPassword")) ==>
              reply == MissingFields && users == old(users) && tokens == old(tokens))
        && (Truthy(Get(body, "email")) && Truthy(Get(body, "otp")) && Truthy(Get(body, "newPassword"))
            && CheckOtp(old(tokens), email, Get(body, "otp"), now, compare).Some? ==>
              reply == CheckOtp(old(tokens), email, Get(body, "otp"), now, compare).value
              && users == old(users) && tokens == old(tokens))
        && (Truthy(Get(body, "email")) && Truthy(Get(body, "otp")) && Truthy(Get(body, "newPassword"))
            && CheckOtp(old(tokens), email, Get(body, "otp"), now, compare).None? ==>
              && reply == PasswordUpdated
              && users == (if email in old(users)
                           then old(users)[email := old(users)[email].(password := Some(Key(Get(body, "newPassword"))))]
                           else old(users))
              && email !in tokens
              && tokens == old(tokens) - {email})
    {
      var email, otp, newPassword := Get(body, "email"), Get(body, "otp"), Get(body, "newPassword");
      if !Truthy(email) || !Truthy(otp) || !Truthy(newPassword) {
        return MissingFields;
      }
      var check := CheckOtp(tokens, Key(email), otp, now, compare);
      if check.Some? {
        return check.value;
      }
      if Key(email) in users {
        users := users[Key(email) := users[Key(email)].(password := Some(Key(newPassword)))];
      }
      tokens := tokens - {Key(email)};
      reply := PasswordUpdated;
    }
  }

  /** After a reset the same OTP is refused: the token is gone. */
  lemma ResetOtpIsSpent(tokens: map<string, Token>, email: string, otp: string, now: int,
                        compare: (string, string) -> bool)
    requires email != "" && otp != ""
    ensures Verify(tokens - {email}, OtpBody(email, otp), now, compare) == InvalidOrExpired
  {
    var body := OtpBody(email, otp);
    assert Get(body, "email") == JStr(email) && Get(body, "otp") == JStr(otp);
  }
}
