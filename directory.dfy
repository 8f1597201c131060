/**
 * The user directory behind the handlers: a map from id to record, the
 * exact-match lookups the handlers call, and the three in-place writes.
 * A lookup that several records satisfy returns the one with the least id.
 */
module Directory {
  import opened Wrappers
  import opened Records

  type Users = map<nat, UserRecord>

  /** The five lookups the handlers issue, each an exact match on stored fields. */
  datatype Query =
    | ByEmail(email: string)
    | ByUsername(username: string)
    | ByUsernameOrEmail(username: string, email: string)
    | ByVerificationToken(token: string)
      /** `checkExpiry` says whether the lookup also demands an expiry later than `now`. */
    | ByPasswordToken(token: string, now: int, checkExpiry: bool)

  predicate Matches(q: Query, u: UserRecord) {
    match q
    case ByEmail(e) => u.email == e
    case ByUsername(n) => u.username == n
    case ByUsernameOrEmail(n, e) => u.username == n || u.email == e
    case ByVerificationToken(t) => u.emailVerificationToken == t
    case ByPasswordToken(t, now, checkExpiry) =>
      u.passwordResetToken == Some(t) &&
      (checkExpiry ==> u.passwordResetExpires.Some? && u.passwordResetExpires.value > now)
  }

  lemma {:induction false} LeastExists(s: set<nat>)
    requires s != {}
    ensures exists m :: m in s && forall x :: x in s ==> m <= x
  {
    var y :| y in s;
    if s != {y} {
      var rest := s - {y};
      LeastExists(rest);
      var m :| m in rest && forall x :: x in rest ==> m <= x;
      var least := if y < m then y else m;
      forall x | x in s
        ensures least <= x
      {
        if x != y { assert x in rest; }
      }
      assert least in s;
    } else {
      assert forall x :: x in s ==> y <= x;
    }
  }

  function Least(s: set<nat>): (m: nat)
    requires s != {}
    ensures m in s && forall x :: x in s ==> m <= x
  {
    LeastExists(s);
    var m :| m in s && forall x :: x in s ==> m <= x;
    m
  }

  /** The id of the record a lookup finds: absent exactly when no record matches,
      otherwise the least id among the matches. */
  function Find(users: Users, q: Query): (r: Option<nat>)
    ensures r.None? <==> forall id :: id in users ==> !Matches(q, users[id])
    ensures r.Some? ==> r.value in users && Matches(q, users[r.value])
    ensures r.Some? ==> forall id :: id in users && Matches(q, users[id]) ==> r.value <= id
  {
    var hits := set id | id in users && Matches(q, users[id]);
    assert forall id :: id in users && Matches(q, users[id]) ==> id in hits;
    if hits == {} then None else Some(Least(hits))
  }

  /** `getAuthUserById`: the record stored under `id`, if any (an id that parses
      to a negative number names no record). */
  function ById(users: Users, id: int): (r: Option<UserRecord>)
    ensures r.Some? <==> id >= 0 && id as nat in users
    ensures r.Some? ==> r.value == users[id as nat]
  {
    if id >= 0 && id as nat in users then Some(users[id as nat]) else None
  }

  /** `updatePasswordToken`: stores a reset token and its expiry on one record. */
  function UpdatePasswordToken(users: Users, id: nat, token: string, expires: int): (r: Users)
    ensures r.Keys == users.Keys
    ensures forall k :: k in users && k != id ==> r[k] == users[k]
    ensures id in users ==>
      r[id].passwordResetToken == Some(token) && r[id].passwordResetExpires == Some(expires) &&
      r[id].(passwordResetToken := None, passwordResetExpires := None) ==
        users[id].(passwordResetToken := None, passwordResetExpires := None)
  {
    if id in users then users[id := users[id].(passwordResetToken := Some(token), passwordResetExpires := Some(expires))]
    else users
  }

  /** `updatePassword`: replaces the stored password hash of one record. */
  function UpdatePassword(users: Users, id: nat, hash: string): (r: Users)
    ensures r.Keys == users.Keys
    ensures forall k :: k in users && k != id ==> r[k] == users[k]
    ensures id in users ==> r[id].password == hash && r[id].(password := "") == users[id].(password := "")
  {
    if id in users then users[id := users[id].(password := hash)] else users
  }

  /** `updateVerifyEmailField`: sets the verified flag and the verification token
      of the record stored under `id`; an id naming no record changes nothing. */
  function UpdateVerifyEmailField(users: Users, id: int, verified: Flag, token: string): (r: Users)
    ensures r.Keys == users.Keys
    ensures forall k: nat :: k in users && k != id ==> r[k] == users[k]
    ensures id >= 0 && id as nat in users ==>
      r[id as nat].emailVerified == verified && r[id as nat].emailVerificationToken == token &&
      r[id as nat].(emailVerified := 0, emailVerificationToken := "") ==
        users[id as nat].(emailVerified := 0, emailVerificationToken := "")
  {
    if id >= 0 && id as nat in users then
      users[id as nat := users[id as nat].(emailVerified := verified, emailVerificationToken := token)]
    else users
  }
}
