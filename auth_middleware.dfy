/** The request guards (middlewares/auth.js): `verifyToken` reads a bearer
    token from the Authorization header and loads its user; `authorizeRoles`
    admits a loaded user whose role is in a list. JWT verification is an
    input: the tokens that verify, each with the user id it decodes to. */
module AuthMiddleware {
  import opened Basics
  import opened UserSchema

  // ---------------------------------------------------------------------
  // split(' ')
  // ---------------------------------------------------------------------

  /** `s.split(' ')`: the maximal runs between spaces, empty runs included. */
  function Split(s: string): (parts: seq<string>)
    ensures |parts| >= 1
    ensures forall i :: 0 <= i < |parts| ==> ' ' !in parts[i]
    decreases |s|
  {
    if s == [] then [[]]
    else if s[0] == ' ' then [[]] + Split(s[1..])
    else
      var rest := Split(s[1..]);
      [[s[0]] + rest[0]] + rest[1..]
  }

  /** `parts.join(' ')`. */
  function Join(parts: seq<string>): (s: string)
    requires |parts| >= 1
    decreases |parts|
  {
    if |parts| == 1 then parts[0] else parts[0] + " " + Join(parts[1..])
  }

  /** Splitting loses nothing: joining the parts gives the header back. */
  lemma {:induction false} JoinSplit(s: string)
    ensures Join(Split(s)) == s
    decreases |s|
  {
    if s != [] {
      JoinSplit(s[1..]);
      if s[0] == ' ' {
        assert Split(s) == [[]] + Split(s[1..]);
        assert s == " " + s[1..];
      } else {
        JoinSplitCons(s[0], Split(s[1..]));
        assert s == [s[0]] + s[1..];
      }
    }
  }

  /** Prefixing a character to the first part prefixes it to the joined text. */
  lemma {:induction false} JoinSplitCons(c: char, rest: seq<string>)
    requires |rest| >= 1
    ensures Join([[c] + rest[0]] + rest[1..]) == [c] + Join(rest)
  {
    var parts := [[c] + rest[0]] + rest[1..];
    assert |parts| == |rest| && parts[0] == [c] + rest[0];
    if |rest| == 1 {
      assert Join(parts) == parts[0];
    } else {
      assert parts[1..] == rest[1..];
      calc {
        Join(parts);
        parts[0] + " " + Join(parts[1..]);
        ([c] + rest[0]) + " " + Join(rest[1..]);
        [c] + (rest[0] + " " + Join(rest[1..]));
        [c] + Join(rest);
      }
    }
  }

  /** A run with no space is one part. */
  lemma {:induction false} SplitNoSpace(a: string)
    requires ' ' !in a
    ensures Split(a) == [a]
    decreases |a|
  {
    if a != [] {
      assert ' ' !in a[1..] by {
        forall i | 0 <= i < |a[1..]| ensures a[1..][i] != ' ' {
          assert a[1..][i] == a[i + 1];
        }
      }
      SplitNoSpace(a[1..]);
      assert [a[0]] + a[1..] == a;
    }
  }

  /** The text before the first space is the first part; the rest is split on its own. */
  lemma {:induction false} SplitAtFirstSpace(a: string, b: string)
    requires ' ' !in a
    ensures Split(a + " " + b) == [a] + Split(b)
    decreases |a|
  {
    if a == [] {
      assert a + " " + b == [' '] + b;
      assert (a + " " + b)[1..] == b;
    } else {
      assert ' ' !in a[1..] by {
        forall i | 0 <= i < |a[1..]| ensures a[1..][i] != ' ' {
          assert a[1..][i] == a[i + 1];
        }
      }
      SplitAtFirstSpace(a[1..], b);
      assert (a + " " + b)[1..] == a[1..] + " " + b;
      assert (a + " " + b)[0] == a[0];
      assert [a[0]] + a[1..] == a;
    }
  }

  // ---------------------------------------------------------------------
  // verifyToken
  // ---------------------------------------------------------------------

  const BearerPrefix: string := "Bearer "

  /** `authHeader.startsWith('Bearer ')`. */
  predicate HasBearerPrefix(header: string) {
    |header| >= |BearerPrefix| && header[..|BearerPrefix|] == BearerPrefix
  }

  /** `authHeader.split(' ')[1]`: the second space-separated field. */
  function BearerToken(header: string): (token: string)
    requires HasBearerPrefix(header)
    ensures ' ' !in token
  {
    assert header == "Bearer" + " " + header[7..];
    SplitAtFirstSpace("Bearer", header[7..]);
    Split(header)[1]
  }

  /** The token is everything after the prefix up to the next space. */
  lemma BearerTokenIsFollowingWord(token: string, rest: string)
    requires ' ' !in token
    ensures BearerToken(BearerPrefix + token) == token
    ensures BearerToken(BearerPrefix + token + " " + rest) == token
  {
    assert BearerPrefix + token == "Bearer" + " " + token;
    SplitAtFirstSpace("Bearer", token);
    SplitNoSpace(token);
    assert BearerPrefix + token + " " + rest == "Bearer" + " " + (token + " " + rest);
    SplitAtFirstSpace("Bearer", token + " " + rest);
    SplitAtFirstSpace(token, rest);
  }

  /** A guard's verdict: a status code, or the user it hands to the next step. */
  datatype AuthResult = Rejected(code: int) | Authenticated(id: UserId, user: User)

  /** `tokens` holds each token `jwt.verify` accepts with the id it decodes
      to; any other token makes it throw. The user is loaded without its
      password. */
  function VerifyToken(header: Option<string>, tokens: map<string, UserId>, users: map<UserId, User>): (r: AuthResult)
    ensures r.Rejected? ==> r.code == 401
    ensures header.None? || !HasBearerPrefix(header.value) ==> r == Rejected(401)
    ensures r.Authenticated? <==>
      && header.Some? && HasBearerPrefix(header.value)
      && BearerToken(header.value) in tokens && tokens[BearerToken(header.value)] in users
    ensures r.Authenticated? ==>
      r.id == tokens[BearerToken(header.value)] && r.user == users[r.id].(password := None)
  {
    if header.None? || !HasBearerPrefix(header.value) then Rejected(401)
    else
      var token := BearerToken(header.value);
      if token !in tokens then Rejected(401)
      else
        var id := tokens[token];
        if id !in users then Rejected(401)
        else Authenticated(id, users[id].(password := None))
  }

  /** The token goes after exactly one space: a header with two spaces
      carries an empty token, which no verification accepts. */
  lemma DoubleSpaceIsRejected(token: string, tokens: map<string, UserId>, users: map<UserId, User>)
    requires "" !in tokens
    ensures VerifyToken(Some(BearerPrefix + " " + token), tokens, users) == Rejected(401)
  {
    var header := BearerPrefix + " " + token;
    assert header == "Bearer" + " " + ("" + " " + token);
    SplitAtFirstSpace("Bearer", "" + " " + token);
    SplitAtFirstSpace("", token);
  }

  /** A well-formed header whose token decodes to a stored user admits that user. */
  lemma ValidBearerAdmits(token: string, id: UserId, tokens: map<string, UserId>, users: map<UserId, User>)
    requires ' ' !in token && token in tokens && tokens[token] == id && id in users
    ensures VerifyToken(Some(BearerPrefix + token), tokens, users) == Authenticated(id, users[id].(password := None))
  {
    BearerTokenIsFollowingWord(token, "");
  }

  // ---------------------------------------------------------------------
  // authorizeRoles
  // ---------------------------------------------------------------------

  /** `authorizeRoles(...roles)`: true calls `next`, false answers 403. */
  function AuthorizeRoles(roles: seq<string>, user: Option<User>): (pass: bool)
    ensures pass ==> user.Some? && user.value.role in roles
  {
    user.Some? && user.value.role != "" && user.value.role in roles
  }

  /** Only `role` is consulted: `isAdmin` never opens or closes a gate. */
  lemma AuthorizeIgnoresIsAdmin(roles: seq<string>, u: User, isAdmin: bool)
    ensures AuthorizeRoles(roles, Some(u)) == AuthorizeRoles(roles, Some(u.(isAdmin := isAdmin)))
  {
  }

  /** For a stored user, the gate is exactly list membership of the role. */
  lemma StoredUserPassesIffRoleListed(roles: seq<string>, u: User)
    requires ValidUser(u)
    ensures AuthorizeRoles(roles, Some(u)) <==> u.role in roles
  {
  }

  /** An empty role never passes, even a list that names the empty string;
      without a user nothing passes. */
  lemma EmptyRoleNeverPasses(roles: seq<string>, u: User)
    requires u.role == ""
    ensures !AuthorizeRoles(roles, Some(u)) && !AuthorizeRoles(roles, None)
  {
  }
}
