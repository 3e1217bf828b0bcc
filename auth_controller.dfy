/** The credential handlers (controllers/authController.js): registration,
    login with a one-time code sent by SMS, code verification, and password
    reset by a token sent by SMS. Each handler is a method over the
    `UserCollection` proved equal to a function of the collection before the
    call. Password hashing and comparison, token signing, `Math.random`,
    `crypto.randomBytes` and the SMS gateway are inputs. */
module AuthController {
  import opened Basics
  import opened UserSchema
  import opened AuthMiddleware

  /** `10 * 60 * 1000`: a login code lives ten minutes. */
  const OtpLifetime: int := 600000

  const OtpSmsPrefix: string := "Your Aso Asiko login OTP is: "

  /** One call of `sendSMS`. */
  datatype Sms = Sms(to: Option<string>, text: string)

  // ---------------------------------------------------------------------
  // findOne
  // ---------------------------------------------------------------------

  /** The document `findOne` returns among several matches: the earliest
      inserted, which is the one with the least id. */
  ghost function Least(s: set<UserId>): (m: Option<UserId>)
    ensures m.None? <==> s == {}
    ensures m.Some? ==> m.value in s && forall y :: y in s ==> m.value <= y
    decreases s
  {
    if s == {} then None
    else
      var x :| x in s;
      var rest := Least(s - {x});
      assert forall y :: y in s ==> y == x || y in s - {x};
      if rest.None? || x <= rest.value then Some(x) else rest
  }

  /** A scan of the matching ids that keeps the least seen so far. */
  method FindFirst(s: set<UserId>) returns (m: Option<UserId>)
    ensures m == Least(s)
  {
    m := None;
    var rest := s;
    while rest != {}
      invariant rest <= s
      invariant m.None? ==> rest == s
      invariant m.Some? ==> m.value in s && forall y :: y in s - rest ==> m.value <= y
      decreases rest
    {
      var x :| x in rest;
      if m.None? || x < m.value {
        m := Some(x);
      }
      assert s - (rest - {x}) == (s - rest) + {x};
      rest := rest - {x};
    }
    assert s - rest == s;
    if m.Some? {
      var least := Least(s);
      assert m.value <= least.value && least.value <= m.value;
    }
  }

  function EmailMatches(users: map<UserId, User>, email: string): (s: set<UserId>)
    ensures forall id :: id in s <==> id in users && users[id].email == Some(email)
  {
    set id | id in users && users[id].email == Some(email)
  }

  /** `findOne({ phoneNumber: phone })`: Mongoose casts the query value
      through the path's `trim` setter, as it did the stored value. */
  function PhoneMatches(users: map<UserId, User>, phone: string): (s: set<UserId>)
    ensures forall id :: id in s <==> id in users && users[id].phoneNumber == Some(Trim(phone))
  {
    set id | id in users && users[id].phoneNumber == Some(Trim(phone))
  }

  /** `{resetToken: token, resetTokenExpiry: {$gt: now}}`. */
  predicate ResetMatches(u: User, token: string, now: Time) {
    u.resetToken == Some(token) && u.resetTokenExpiry.Some? && u.resetTokenExpiry.value > now
  }

  function ResetMatchesOf(users: map<UserId, User>, token: string, now: Time): (s: set<UserId>)
    ensures forall id :: id in s <==> id in users && ResetMatches(users[id], token, now)
  {
    set id | id in users && ResetMatches(users[id], token, now)
  }

  // ---------------------------------------------------------------------
  // registerAdmin and registerCustomer
  // ---------------------------------------------------------------------

  datatype UserOutcome = UserOutcome(code: int, users: map<UserId, User>)

  predicate RegisterInputsPresent(username: Option<string>, email: Option<string>, password: Option<string>, phoneNumber: Option<string>) {
    StrTruthy(username) && StrTruthy(email) && StrTruthy(password) && StrTruthy(phoneNumber)
  }

  /** Both registrations; `hash` is what bcrypt makes of the password. */
  function RegisterOutcome(
    users: map<UserId, User>, newId: UserId, username: Option<string>, email: Option<string>,
    password: Option<string>, phoneNumber: Option<string>, hash: string, isAdmin: bool, role: string): (r: UserOutcome)
    requires newId !in users
    ensures r.code == 201 || r.code == 400 || r.code == 409 || r.code == 500
    ensures r.code != 201 ==> r.users == users
    ensures r.code == 400 <==> !RegisterInputsPresent(username, email, password, phoneNumber)
    ensures r.code == 409 <==> RegisterInputsPresent(username, email, password, phoneNumber) && EmailMatches(users, email.value) != {}
    ensures r.code == 201 ==> r.users == users[newId := NewUser(username, email, phoneNumber, Some(hash), isAdmin, role)]
    ensures r.code == 201 ==> ValidUser(r.users[newId])
    ensures UserStoreInvariant(users) ==> UserStoreInvariant(r.users)
  {
    if !RegisterInputsPresent(username, email, password, phoneNumber) then UserOutcome(400, users)
    else if EmailMatches(users, email.value) != {} then UserOutcome(409, users)
    else
      var u := NewUser(username, email, phoneNumber, Some(hash), isAdmin, role);
      if CanSaveUser(users, newId, u) then
        SaveUserPreservesInvariant(users, newId, u);
        UserOutcome(201, users[newId := u])
      else UserOutcome(500, users)
  }

  /** With all fields present and the address new, the save fails exactly
      when the schema rejects the record: a username of spaces only (empty
      once trimmed), a malformed address or a hash shorter than six
      characters. */
  lemma {:induction false} RegisterSucceedsIff(
    users: map<UserId, User>, newId: UserId, username: string, email: string, password: string,
    phoneNumber: string, hash: string, isAdmin: bool, role: string)
    requires newId !in users && role in Roles
    requires username != "" && email != "" && password != "" && phoneNumber != ""
    requires EmailMatches(users, email) == {}
    ensures RegisterOutcome(users, newId, Some(username), Some(email), Some(password), Some(phoneNumber), hash, isAdmin, role).code == 201
        <==> !AllSpace(username) && EmailShaped(email) && |hash| >= 6
  {
    var u := NewUser(Some(username), Some(email), Some(phoneNumber), Some(hash), isAdmin, role);
    assert EmailFreeFor(users, newId, u.email) by {
      forall b | b in users && b != newId
        ensures users[b].email != u.email
      {
        assert b !in EmailMatches(users, email);
      }
    }
  }

  /** Once an address is registered, registering it again is a conflict,
      whichever role the second request asks for. */
  lemma SecondRegistrationConflicts(
    users: map<UserId, User>, id1: UserId, id2: UserId, username: Option<string>, email: Option<string>,
    password: Option<string>, phoneNumber: Option<string>, hash1: string, hash2: string,
    admin1: bool, role1: string, admin2: bool, role2: string)
    requires id1 !in users && id2 != id1 && id2 !in users
    requires RegisterOutcome(users, id1, username, email, password, phoneNumber, hash1, admin1, role1).code == 201
    ensures var first := RegisterOutcome(users, id1, username, email, password, phoneNumber, hash1, admin1, role1);
      RegisterOutcome(first.users, id2, username, email, password, phoneNumber, hash2, admin2, role2) == UserOutcome(409, first.users)
  {
    var first := RegisterOutcome(users, id1, username, email, password, phoneNumber, hash1, admin1, role1);
    assert id1 in EmailMatches(first.users, email.value);
  }

  method RegisterAdmin(
    db: UserCollection, username: Option<string>, email: Option<string>, password: Option<string>,
    phoneNumber: Option<string>, hash: string) returns (code: int)
    requires db.Valid()
    modifies db
    ensures db.Valid()
    ensures UserOutcome(code, db.users) == RegisterOutcome(old(db.users), old(db.nextId), username, email, password, phoneNumber, hash, true, "admin")
  {
    code := Register(db, username, email, password, phoneNumber, hash, true, "admin");
  }

  method RegisterCustomer(
    db: UserCollection, username: Option<string>, email: Option<string>, password: Option<string>,
    phoneNumber: Option<string>, hash: string) returns (code: int)
    requires db.Valid()
    modifies db
    ensures db.Valid()
    ensures UserOutcome(code, db.users) == RegisterOutcome(old(db.users), old(db.nextId), username, email, password, phoneNumber, hash, false, "customer")
  {
    code := Register(db, username, email, password, phoneNumber, hash, false, "customer");
  }

  method Register(
    db: UserCollection, username: Option<string>, email: Option<string>, password: Option<string>,
    phoneNumber: Option<string>, hash: string, isAdmin: bool, role: string) returns (code: int)
    requires db.Valid()
    modifies db
    ensures db.Valid()
    ensures UserOutcome(code, db.users) == RegisterOutcome(old(db.users), old(db.nextId), username, email, password, phoneNumber, hash, isAdmin, role)
  {
    if !StrTruthy(username) || !StrTruthy(email) || !StrTruthy(password) || !StrTruthy(phoneNumber) {
      return 400;
    }
    var existing := FindFirst(set id | id in db.users && db.users[id].email == email);
    if existing.Some? {
      return 409;
    }
    var user := NewUser(username, email, phoneNumber, Some(hash), isAdmin, role);
    var id, saved := db.Insert(user);
    code := if saved then 201 else 500;
  }

  // ---------------------------------------------------------------------
  // login
  // ---------------------------------------------------------------------

  /** `Math.floor(100000 + random * 900000)` for `0 <= random < 1`. */
  function OtpValue(random: real): (n: nat)
    requires 0.0 <= random < 1.0
    ensures 100000 <= n <= 999999
  {
    (100000.0 + random * 900000.0).Floor
  }

  /** Every code has exactly six digits. */
  lemma OtpHasSixDigits(random: real)
    requires 0.0 <= random < 1.0
    ensures |DecimalString(OtpValue(random))| == 6
    ensures forall i :: 0 <= i < 6 ==> IsDigit(DecimalString(OtpValue(random))[i])
  {
    assert Pow10(5) == 100000 && Pow10(6) == 1000000;
    DecimalStringLength(OtpValue(random), 6);
  }

  /** The fields login assigns; nothing else of the user changes. */
  function IssueOtp(u: User, code: string, now: Time): (r: User)
    ensures r.twoFACode == Some(code) && r.twoFACodeExpiry == Some(now + OtpLifetime)
    ensures r.(twoFACode := u.twoFACode, twoFACodeExpiry := u.twoFACodeExpiry) == u
    ensures ValidUser(u) ==> ValidUser(r)
  {
    u.(twoFACode := Some(code), twoFACodeExpiry := Some(now + OtpLifetime))
  }

  /** What login and forgotPassword answer: the code, the collection after,
      the SMS attempted and the user id returned. */
  datatype SmsOutcome = SmsOutcome(code: int, users: map<UserId, User>, sms: Option<Sms>, userId: Option<UserId>)

  /** `passwordMatches` is bcrypt's verdict on the supplied password against
      the found user's hash; `smsSent` whether the gateway accepted the message. */
  ghost function LoginOutcome(
    users: map<UserId, User>, email: string, passwordMatches: bool, random: real, smsSent: bool, now: Time): (r: SmsOutcome)
    requires 0.0 <= random < 1.0
    ensures r.code == 200 || r.code == 401 || r.code == 404 || r.code == 500
    ensures r.code == 404 <==> EmailMatches(users, email) == {}
    ensures r.code == 401 <==> EmailMatches(users, email) != {} && !passwordMatches
    ensures r.code == 404 || r.code == 401 ==> r.users == users && r.sms.None?
    ensures r.code == 200 ==>
      var id := Least(EmailMatches(users, email)).value;
      var otp := DecimalString(OtpValue(random));
      && r.users == users[id := IssueOtp(users[id], otp, now)]
      && r.sms == Some(Sms(users[id].phoneNumber, OtpSmsPrefix + otp))
      && r.userId == Some(id)
    ensures UserStoreInvariant(users) && EmailMatches(users, email) != {} && passwordMatches ==>
      (r.code == 200 <==> smsSent) && r.sms.Some? &&
      r.users == users[Least(EmailMatches(users, email)).value := IssueOtp(users[Least(EmailMatches(users, email)).value], DecimalString(OtpValue(random)), now)]
    ensures UserStoreInvariant(users) ==> UserStoreInvariant(r.users)
  {
    var found := Least(EmailMatches(users, email));
    if found.None? then SmsOutcome(404, users, None, None)
    else if !passwordMatches then SmsOutcome(401, users, None, None)
    else
      var id := found.value;
      var otp := DecimalString(OtpValue(random));
      var u := IssueOtp(users[id], otp, now);
      if !CanSaveUser(users, id, u) then SmsOutcome(500, users, None, None)
      else
        SaveUserPreservesInvariant(users, id, u);
        var sms := Sms(users[id].phoneNumber, OtpSmsPrefix + otp);
        if smsSent then SmsOutcome(200, users[id := u], Some(sms), Some(id))
        else SmsOutcome(500, users[id := u], Some(sms), None)
  }

  method Login(
    db: UserCollection, email: string, passwordMatches: bool, random: real, smsSent: bool, now: Time)
    returns (code: int, sms: Option<Sms>, userId: Option<UserId>)
    requires db.Valid() && 0.0 <= random < 1.0
    modifies db
    ensures db.Valid()
    ensures SmsOutcome(code, db.users, sms, userId) == LoginOutcome(old(db.users), email, passwordMatches, random, smsSent, now)
  {
    var found := FindFirst(set id | id in db.users && db.users[id].email == Some(email));
    if found.None? {
      return 404, None, None;
    }
    if !passwordMatches {
      return 401, None, None;
    }
    var id := found.value;
    var user := db.users[id];
    var otp := DecimalString((100000.0 + random * 900000.0).Floor);
    var otpExpiry := now + 10 * 60 * 1000;
    user := user.(twoFACode := Some(otp));
    user := user.(twoFACodeExpiry := Some(otpExpiry));
    assert user == IssueOtp(old(db.users)[id], DecimalString(OtpValue(random)), now);
    var saved := db.Save(id, user);
    if !saved {
      return 500, None, None;
    }
    sms := Some(Sms(user.phoneNumber, OtpSmsPrefix + otp));
    if !smsSent {
      return 500, sms, None;
    }
    code, userId := 200, Some(id);
  }

  // ---------------------------------------------------------------------
  // verifyCode
  // ---------------------------------------------------------------------

  /** The claims of the token signed on success. */
  datatype Claims = Claims(id: UserId, email: Option<string>, role: string)

  datatype VerifyOutcome = VerifyOutcome(code: int, users: map<UserId, User>, claims: Option<Claims>)

  /** A stored expiry compared with `<`: a null one compares as 0. */
  function ExpiryOrZero(e: Option<Time>): (t: Time)
    ensures e.Some? ==> t == e.value
    ensures e.None? ==> t == 0
  {
    if e.Some? then e.value else 0
  }

  predicate CodeMatches(u: User, code: Option<string>) {
    StrTruthy(u.twoFACode) && u.twoFACode == code
  }

  /** Setting both fields to `undefined` removes them. */
  function ClearOtp(u: User): (r: User)
    ensures r.twoFACode.None? && r.twoFACodeExpiry.None?
    ensures r.(twoFACode := u.twoFACode, twoFACodeExpiry := u.twoFACodeExpiry) == u
    ensures ValidUser(u) ==> ValidUser(r)
  {
    u.(twoFACode := None, twoFACodeExpiry := None)
  }

  function VerifyCodeOutcome(users: map<UserId, User>, userId: Option<UserId>, code: Option<string>, now: Time): (r: VerifyOutcome)
    ensures r.code == 200 || r.code == 401 || r.code == 410 || r.code == 500
    ensures r.code != 200 ==> r.users == users && r.claims.None?
    ensures r.code == 401 <==> userId.None? || userId.value !in users || !CodeMatches(users[userId.value], code)
    ensures r.code == 410 <==> r.code != 401 && ExpiryOrZero(users[userId.value].twoFACodeExpiry) < now
    ensures r.code == 200 ==>
      var u := users[userId.value];
      r.users == users[userId.value := ClearOtp(u)] && r.claims == Some(Claims(userId.value, u.email, u.role))
    ensures UserStoreInvariant(users) ==> r.code != 500 && UserStoreInvariant(r.users)
  {
    if userId.None? || userId.value !in users || !CodeMatches(users[userId.value], code) then VerifyOutcome(401, users, None)
    else
      var id := userId.value;
      var u := users[id];
      if ExpiryOrZero(u.twoFACodeExpiry) < now then VerifyOutcome(410, users, None)
      else if CanSaveUser(users, id, ClearOtp(u)) then
        SaveUserPreservesInvariant(users, id, ClearOtp(u));
        VerifyOutcome(200, users[id := ClearOtp(u)], Some(Claims(id, u.email, u.role)))
      else VerifyOutcome(500, users, None)
  }

  /** A code is accepted at most once: the same request again is refused. */
  lemma CodeIsSingleUse(users: map<UserId, User>, id: UserId, code: Option<string>, t1: Time, t2: Time)
    requires VerifyCodeOutcome(users, Some(id), code, t1).code == 200
    ensures var first := VerifyCodeOutcome(users, Some(id), code, t1);
      VerifyCodeOutcome(first.users, Some(id), code, t2).code == 401
  {
  }

  /** The expiry instant itself still accepts the code; one millisecond later refuses it. */
  lemma ExpiryIsInclusive(users: map<UserId, User>, id: UserId, code: string)
    requires UserStoreInvariant(users) && id in users && code != ""
    requires users[id].twoFACode == Some(code) && users[id].twoFACodeExpiry.Some?
    ensures var e := users[id].twoFACodeExpiry.value;
      && VerifyCodeOutcome(users, Some(id), Some(code), e).code == 200
      && VerifyCodeOutcome(users, Some(id), Some(code), e + 1).code == 410
  {
  }

  /** The code a login sends by SMS verifies within its ten minutes, and the
      token names the user who logged in. */
  lemma LoginThenVerify(
    users: map<UserId, User>, email: string, random: real, t0: Time, t1: Time)
    requires UserStoreInvariant(users) && EmailMatches(users, email) != {}
    requires 0.0 <= random < 1.0 && t1 <= t0 + OtpLifetime
    ensures var login := LoginOutcome(users, email, true, random, true, t0);
      && login.code == 200
      && VerifyCodeOutcome(login.users, login.userId, Some(DecimalString(OtpValue(random))), t1).code == 200
      && VerifyCodeOutcome(login.users, login.userId, Some(DecimalString(OtpValue(random))), t1).claims.value.email == Some(email)
  {
    var login := LoginOutcome(users, email, true, random, true, t0);
    var id := Least(EmailMatches(users, email)).value;
    assert login.users[id] == IssueOtp(users[id], DecimalString(OtpValue(random)), t0);
  }

  method VerifyCode(db: UserCollection, userId: Option<UserId>, twoFACode: Option<string>, now: Time)
    returns (code: int, claims: Option<Claims>)
    requires db.Valid()
    modifies db
    ensures db.Valid()
    ensures VerifyOutcome(code, db.users, claims) == VerifyCodeOutcome(old(db.users), userId, twoFACode, now)
  {
    if userId.None? || userId.value !in db.users {
      return 401, None;
    }
    var id := userId.value;
    var user := db.users[id];
    if !StrTruthy(user.twoFACode) || user.twoFACode != twoFACode {
      return 401, None;
    }
    if ExpiryOrZero(user.twoFACodeExpiry) < now {
      return 410, None;
    }
    user := user.(twoFACode := None);
    user := user.(twoFACodeExpiry := None);
    var saved := db.Save(id, user);
    if !saved {
      return 500, None;
    }
    code, claims := 200, Some(Claims(id, user.email, user.role));
  }

  // ---------------------------------------------------------------------
  // forgotPassword and resetPassword
  // ---------------------------------------------------------------------

  const ResetSmsPrefix: string := "Your Aso Asiko password reset link: "

  function IssueResetToken(u: User, token: string, expiry: Time): (r: User)
    ensures r.resetToken == Some(token) && r.resetTokenExpiry == Some(expiry)
    ensures r.(resetToken := u.resetToken, resetTokenExpiry := u.resetTokenExpiry) == u
    ensures ValidUser(u) ==> ValidUser(r)
  {
    u.(resetToken := Some(token), resetTokenExpiry := Some(expiry))
  }

  /** `token` is the hex of `crypto.randomBytes(20)`, `ttl` what `parseInt`
      makes of the configured lifetime in milliseconds (None for NaN) and
      `origin` the request's Origin header. */
  ghost function ForgotPasswordOutcome(
    users: map<UserId, User>, phone: string, token: string, ttl: Option<int>, origin: string, smsSent: bool, now: Time): (r: SmsOutcome)
    ensures r.code == 200 || r.code == 404 || r.code == 500
    ensures r.code == 404 <==> PhoneMatches(users, phone) == {}
    ensures r.code == 404 ==> r.users == users && r.sms.None?
    ensures r.code == 200 ==>
      var id := Least(PhoneMatches(users, phone)).value;
      && ttl.Some?
      && r.users == users[id := IssueResetToken(users[id], token, now + ttl.value)]
      && r.sms == Some(Sms(Some(phone), ResetSmsPrefix + origin + "/reset-password/" + token))
      && r.userId == Some(id)
    ensures ttl.None? && PhoneMatches(users, phone) != {} ==> r.code == 500 && r.users == users && r.sms.None?
    ensures UserStoreInvariant(users) && PhoneMatches(users, phone) != {} && ttl.Some? ==>
      (r.code == 200 <==> smsSent) &&
      r.users == users[Least(PhoneMatches(users, phone)).value := IssueResetToken(users[Least(PhoneMatches(users, phone)).value], token, now + ttl.value)]
    ensures UserStoreInvariant(users) ==> UserStoreInvariant(r.users)
  {
    ForgotPasswordFrom(users, Least(PhoneMatches(users, phone)), phone, token, ttl, origin, smsSent, now)
  }

  /** forgotPassword once `findOne` has answered `found`. */
  function ForgotPasswordFrom(
    users: map<UserId, User>, found: Option<UserId>, phone: string, token: string, ttl: Option<int>, origin: string, smsSent: bool, now: Time): (r: SmsOutcome)
    requires found.Some? ==> found.value in users
  {
    if found.None? then SmsOutcome(404, users, None, None)
    // `Date.now() + NaN` is an Invalid Date, which the Date cast of `resetTokenExpiry` refuses: the save rejects.
    else if ttl.None? then SmsOutcome(500, users, None, None)
    else SendResetLink(users, found.value, phone, token, now + ttl.value, origin, smsSent)
  }

  /** The rest of forgotPassword once user `id` is found and the expiry is a
      valid date: store the token, then text the link to the phone number
      as the request gave it. */
  function SendResetLink(
    users: map<UserId, User>, id: UserId, phone: string, token: string, expiry: Time, origin: string, smsSent: bool): (r: SmsOutcome)
    requires id in users
    ensures var saved := CanSaveUser(users, id, IssueResetToken(users[id], token, expiry));
      && (r.code == 200 || r.code == 500)
      && (r.code == 200 <==> saved && smsSent)
      && r.users == (if saved then users[id := IssueResetToken(users[id], token, expiry)] else users)
      && r.sms == (if saved then Some(Sms(Some(phone), ResetSmsPrefix + origin + "/reset-password/" + token)) else None)
      && r.userId == (if r.code == 200 then Some(id) else None)
    ensures UserStoreInvariant(users) ==> UserStoreInvariant(r.users)
  {
    var u := IssueResetToken(users[id], token, expiry);
    if !CanSaveUser(users, id, u) then SmsOutcome(500, users, None, None)
    else
      SaveUserPreservesInvariant(users, id, u);
      var sms := Sms(Some(phone), ResetSmsPrefix + origin + "/reset-password/" + token);
      if smsSent then SmsOutcome(200, users[id := u], Some(sms), Some(id))
      else SmsOutcome(500, users[id := u], Some(sms), None)
  }

  method ForgotPassword(
    db: UserCollection, phoneNumber: string, token: string, ttl: Option<int>, origin: string, smsSent: bool, now: Time)
    returns (code: int, sms: Option<Sms>, userId: Option<UserId>)
    requires db.Valid()
    modifies db
    ensures db.Valid()
    ensures SmsOutcome(code, db.users, sms, userId) == ForgotPasswordOutcome(old(db.users), phoneNumber, token, ttl, origin, smsSent, now)
  {
    ghost var users := db.users;
    var found := FindFirst(PhoneMatches(db.users, phoneNumber));
    if found.None? {
      return 404, None, None;
    }
    if ttl.None? {
      return 500, None, None;
    }
    code, sms, userId := SendResetLinkStep(db, found.value, phoneNumber, token, now + ttl.value, origin, smsSent);
  }

  method SendResetLinkStep(
    db: UserCollection, id: UserId, phoneNumber: string, token: string, expiry: Time, origin: string, smsSent: bool)
    returns (code: int, sms: Option<Sms>, userId: Option<UserId>)
    requires db.Valid() && id in db.users
    modifies db
    ensures db.Valid()
    ensures SmsOutcome(code, db.users, sms, userId) == SendResetLink(old(db.users), id, phoneNumber, token, expiry, origin, smsSent)
  {
    var user := db.users[id];
    user := user.(resetToken := Some(token));
    user := user.(resetTokenExpiry := Some(expiry));
    assert user == IssueResetToken(old(db.users)[id], token, expiry);
    var saved := db.Save(id, user);
    if !saved {
      return 500, None, None;
    }
    sms := Some(Sms(Some(phoneNumber), ResetSmsPrefix + origin + "/reset-password/" + token));
    if !smsSent {
      return 500, sms, None;
    }
    code, userId := 200, Some(id);
  }

  /** The fields resetPassword assigns: the new hash, and the token cleared. */
  function ApplyReset(u: User, hash: string): (r: User)
    ensures r.password == Some(hash) && r.resetToken.None? && r.resetTokenExpiry.None?
    ensures r.(password := u.password, resetToken := u.resetToken, resetTokenExpiry := u.resetTokenExpiry) == u
  {
    u.(password := Some(hash), resetToken := None, resetTokenExpiry := None)
  }

  /** `newHash` is bcrypt's hash of the new password, None when there is no
      new password to hash (bcrypt throws). */
  ghost function ResetPasswordOutcome(users: map<UserId, User>, token: string, newHash: Option<string>, now: Time): (r: UserOutcome)
    ensures r.code == 200 || r.code == 400 || r.code == 500
    ensures r.code != 200 ==> r.users == users
    ensures r.code == 400 <==> ResetMatchesOf(users, token, now) == {}
    ensures r.code == 200 ==>
      var id := Least(ResetMatchesOf(users, token, now)).value;
      newHash.Some? && r.users == users[id := ApplyReset(users[id], newHash.value)]
    ensures UserStoreInvariant(users) ==> UserStoreInvariant(r.users)
  {
    var found := Least(ResetMatchesOf(users, token, now));
    if found.None? then UserOutcome(400, users)
    else if newHash.None? then UserOutcome(500, users)
    else
      var id := found.value;
      var u := ApplyReset(users[id], newHash.value);
      if CanSaveUser(users, id, u) then
        SaveUserPreservesInvariant(users, id, u);
        UserOutcome(200, users[id := u])
      else UserOutcome(500, users)
  }

  /** A token whose expiry equals the current instant is already refused. */
  lemma ResetExpiryIsExclusive(users: map<UserId, User>, token: string, newHash: Option<string>, now: Time)
    requires forall id :: id in users && users[id].resetToken == Some(token) ==> users[id].resetTokenExpiry == Some(now)
    ensures ResetPasswordOutcome(users, token, newHash, now).code == 400
  {
    assert ResetMatchesOf(users, token, now) == {};
  }

  /** A token held by one user resets a password at most once: the second
      attempt finds no user holding it. */
  lemma ResetTokenIsSingleUse(users: map<UserId, User>, token: string, h1: Option<string>, h2: Option<string>, t1: Time, t2: Time)
    requires forall a, b :: a in users && b in users && users[a].resetToken == Some(token) && users[b].resetToken == Some(token) ==> a == b
    requires ResetPasswordOutcome(users, token, h1, t1).code == 200
    ensures var first := ResetPasswordOutcome(users, token, h1, t1);
      ResetPasswordOutcome(first.users, token, h2, t2) == UserOutcome(400, first.users)
  {
    var first := ResetPasswordOutcome(users, token, h1, t1);
    var id := Least(ResetMatchesOf(users, token, t1)).value;
    assert ResetMatchesOf(first.users, token, t2) == {} by {
      forall x | x in first.users
        ensures !ResetMatches(first.users[x], token, t2)
      {
        if x != id {
          assert users[id].resetToken == Some(token);
        }
      }
    }
  }

  /** A reset link used within its lifetime sets the new hash on the user
      it was sent to, provided no other user holds the same token. */
  lemma ForgotThenReset(
    users: map<UserId, User>, phone: string, token: string, ttl: int, origin: string, hash: string, t0: Time, t1: Time)
    requires UserStoreInvariant(users) && PhoneMatches(users, phone) != {}
    requires forall id :: id in users ==> users[id].resetToken != Some(token)
    requires t1 < t0 + ttl && |hash| >= 6
    ensures var forgot := ForgotPasswordOutcome(users, phone, token, Some(ttl), origin, true, t0);
      var reset := ResetPasswordOutcome(forgot.users, token, Some(hash), t1);
      && forgot.code == 200 && reset.code == 200
      && reset.users[forgot.userId.value].password == Some(hash)
  {
    var forgot := ForgotPasswordOutcome(users, phone, token, Some(ttl), origin, true, t0);
    var id := forgot.userId.value;
    assert ResetMatchesOf(forgot.users, token, t1) == {id} by {
      forall x | x in forgot.users && ResetMatches(forgot.users[x], token, t1)
        ensures x == id
      {
      }
      assert id in ResetMatchesOf(forgot.users, token, t1);
    }
    var u := ApplyReset(forgot.users[id], hash);
    assert ValidUser(u);
  }

  method ResetPassword(db: UserCollection, token: string, newHash: Option<string>, now: Time) returns (code: int)
    requires db.Valid()
    modifies db
    ensures db.Valid()
    ensures UserOutcome(code, db.users) == ResetPasswordOutcome(old(db.users), token, newHash, now)
  {
    var found := FindFirst(set id | id in db.users && ResetMatches(db.users[id], token, now));
    if found.None? {
      return 400;
    }
    if newHash.None? {
      return 500;
    }
    var id := found.value;
    var user := db.users[id];
    user := user.(password := newHash);
    user := user.(resetToken := None);
    user := user.(resetTokenExpiry := None);
    var saved := db.Save(id, user);
    code := if saved then 200 else 500;
  }
  // ---------------------------------------------------------------------
  // getCurrentUser
  // ---------------------------------------------------------------------

  /** The reply of getCurrentUser: always 200, with the user or `null`. */
  datatype CurrentUserReply = CurrentUserReply(code: int, body: Option<User>)

  /** `findById(req.user.id).select('-password')`, answered as is. */
  function GetCurrentUser(users: map<UserId, User>, id: UserId): (r: CurrentUserReply)
    ensures r.code == 200
    ensures r.body.Some? <==> id in users
    ensures r.body.Some? ==> r.body.value.password.None? && r.body.value.(password := users[id].password) == users[id]
  {
    if id in users then CurrentUserReply(200, Some(users[id].(password := None))) else CurrentUserReply(200, None)
  }

  /** Behind `verifyToken`, the handler answers with the very user the guard
      loaded, and never with a password. */
  lemma CurrentUserIsGuardUser(header: Option<string>, tokens: map<string, UserId>, users: map<UserId, User>)
    requires VerifyToken(header, tokens, users).Authenticated?
    ensures var g := VerifyToken(header, tokens, users);
      GetCurrentUser(users, g.id) == CurrentUserReply(200, Some(g.user))
  {
  }
}
