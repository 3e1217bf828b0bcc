/** The User document: role enumeration, defaults, the constraints checked
    on save and the unique index on `email` (model/User.js). Passwords are
    stored as the hash the caller supplies. The `trim` setters of `username`
    and `phoneNumber` are applied; the `lowercase` and `trim` setters of
    `email` are not modelled. */
module UserSchema {
  import opened Basics

  datatype NotificationPreferences = NotificationPreferences(email: bool, sms: bool, inApp: bool)

  datatype User = User(
    username: Option<string>,
    email: Option<string>,
    password: Option<string>,
    phoneNumber: Option<string>,
    isAdmin: bool,
    role: string,
    twoFACode: Option<string>,
    twoFACodeExpiry: Option<Time>,
    resetToken: Option<string>,
    resetTokenExpiry: Option<Time>,
    isSubscribed: bool,
    notificationPreferences: NotificationPreferences)

  /** The `enum` of `role`. */
  const Roles: set<string> := {"admin", "salesgirl", "customer"}

  /** `.` of a JavaScript regular expression: any character but a line terminator. */
  predicate RegexDot(c: char) {
    c != '\n' && c != '\r' && c != '\U{2028}' && c != '\U{2029}'
  }

  /** `/.+@.+\..+/.test(s)`: the pattern is unanchored, so it holds when some
      `@` at `i` and some later `.` at `j` have a non-terminator before `i`,
      only non-terminators (at least one) strictly between them, and one
      non-terminator after `j`. */
  predicate EmailShaped(s: string) {
    exists i, j :: 1 <= i && i + 2 <= j && j + 2 <= |s| && s[i] == '@' && s[j] == '.' &&
      RegexDot(s[i - 1]) && RegexDot(s[j + 1]) && DotsBetween(s, i, j)
  }

  predicate DotsBetween(s: string, i: int, j: int)
    requires 0 <= i <= j <= |s|
  {
    forall k :: i < k < j ==> RegexDot(s[k])
  }

  /** What the schema validator checks before a save: required fields, the
      email pattern, `minlength` 6 on the stored (already hashed) password and
      the role enumeration. */
  predicate ValidUser(u: User) {
    && StrTruthy(u.username)
    && StrTruthy(u.email) && EmailShaped(u.email.value)
    && StrTruthy(u.password) && |u.password.value| >= 6
    && u.role in Roles
  }

  /** The unique index on `email`. */
  predicate EmailsUnique(users: map<UserId, User>) {
    forall a, b :: a in users && b in users && a != b && users[a].email.Some? ==>
      users[a].email != users[b].email
  }

  predicate UserStoreInvariant(users: map<UserId, User>) {
    && (forall id :: id in users ==> ValidUser(users[id]))
    && EmailsUnique(users)
  }

  predicate EmailFreeFor(users: map<UserId, User>, id: UserId, email: Option<string>) {
    email.Some? ==> forall b :: b in users && b != id ==> users[b].email != email
  }

  predicate CanSaveUser(users: map<UserId, User>, id: UserId, u: User) {
    ValidUser(u) && EmailFreeFor(users, id, u.email)
  }

  lemma SaveUserPreservesInvariant(users: map<UserId, User>, id: UserId, u: User)
    requires CanSaveUser(users, id, u)
    ensures UserStoreInvariant(users) ==> UserStoreInvariant(users[id := u])
  {
    if !UserStoreInvariant(users) { return; }
    var m := users[id := u];
    forall a, b | a in m && b in m && a != b && m[a].email.Some?
      ensures m[a].email != m[b].email
    {
      if a == id {
        assert m[b] == users[b];
      } else if b == id {
        assert m[a] == users[a];
      } else {
        assert m[a] == users[a] && m[b] == users[b];
      }
    }
  }

  /** The pattern accepts the shortest address it can. */
  lemma ShortestEmailAccepted()
    ensures EmailShaped("a@b.c")
  {
    var s := "a@b.c";
    assert s[1] == '@' && s[3] == '.' && RegexDot(s[0]) && RegexDot(s[4]);
    assert DotsBetween(s, 1, 3);
  }

  /** A dot only before the `@` does not satisfy the pattern. */
  lemma DotBeforeAtRejected()
    ensures !EmailShaped("a.b@cdef")
  {
    var s := "a.b@cdef";
    forall i, j | 1 <= i && i + 2 <= j && j + 2 <= |s| && s[i] == '@'
      ensures s[j] != '.'
    {
      assert i == 3;
    }
  }

  /** `new User({...})`: the given fields, passed through the `trim` setters
      of `username` and `phoneNumber`, every other path at its schema default. */
  function NewUser(
    username: Option<string>, email: Option<string>, phoneNumber: Option<string>,
    password: Option<string>, isAdmin: bool, role: string): (u: User)
    ensures u.username == TrimOpt(username) && u.email == email && u.phoneNumber == TrimOpt(phoneNumber)
    ensures u.password == password && u.isAdmin == isAdmin && u.role == role
    ensures u.twoFACode.None? && u.twoFACodeExpiry.None?
    ensures u.resetToken.None? && u.resetTokenExpiry.None?
    ensures u.isSubscribed
    ensures u.notificationPreferences == NotificationPreferences(true, false, true)
  {
    User(TrimOpt(username), email, password, TrimOpt(phoneNumber), isAdmin, role,
         None, None, None, None, true, NotificationPreferences(true, false, true))
  }

  /** The schema defaults when a creator gives neither `isAdmin` nor `role`. */
  lemma DefaultUserIsPlainCustomer(username: Option<string>, email: Option<string>, password: Option<string>)
    ensures var u := NewUser(username, email, None, password, false, "customer");
      !u.isAdmin && u.role == "customer" && u.role in Roles
  {
  }

  /** The `User` collection with its validation and unique email index. */
  class UserCollection {
    var users: map<UserId, User>
    var nextId: UserId

    ghost predicate Valid()
      reads this
    {
      && UserStoreInvariant(users)
      && (forall id :: id in users ==> id < nextId)
    }

    constructor ()
      ensures Valid() && users == map[] && nextId == 0
    {
      users := map[];
      nextId := 0;
    }

    method Save(id: UserId, u: User) returns (ok: bool)
      requires Valid() && id in users
      modifies this
      ensures Valid() && nextId == old(nextId)
      ensures ok == CanSaveUser(old(users), id, u)
      ensures users == if ok then old(users)[id := u] else old(users)
    {
      ok := ValidUser(u) && (u.email.Some? ==> forall b :: b in users && b != id ==> users[b].email != u.email);
      if ok {
        SaveUserPreservesInvariant(users, id, u);
        users := users[id := u];
      }
    }

    method Insert(u: User) returns (id: UserId, ok: bool)
      requires Valid()
      modifies this
      ensures Valid()
      ensures id == old(nextId) && id !in old(users) && nextId == old(nextId) + 1
      ensures ok == CanSaveUser(old(users), id, u)
      ensures users == if ok then old(users)[id := u] else old(users)
    {
      id := nextId;
      ok := ValidUser(u) && (u.email.Some? ==> forall b :: b in users && b != id ==> users[b].email != u.email);
      if ok {
        SaveUserPreservesInvariant(users, id, u);
        users := users[id := u];
      }
      nextId := nextId + 1;
    }
  }
}
